/** The string operations the turn dispatcher uses: ECMAScript
    `String.prototype.toLowerCase`, `startsWith` and `trim`. */
module Text {

  /** The characters `trim` removes: ECMAScript WhiteSpace (tab, vertical
      tab, form feed, space, no-break space, byte order mark and the other
      space separators) and LineTerminator (line feed, carriage return,
      line and paragraph separator). */
  predicate IsJsSpace(c: char) {
    var n := c as int;
    n == 0x09 || n == 0x0A || n == 0x0B || n == 0x0C || n == 0x0D ||
    n == 0x20 || n == 0xA0 || n == 0x1680 || (0x2000 <= n <= 0x200A) ||
    n == 0x2028 || n == 0x2029 || n == 0x202F || n == 0x205F ||
    n == 0x3000 || n == 0xFEFF
  }

  /** Lower-casing of one character, for the ASCII letters. */
  function LowerAscii(c: char): char {
    if 'A' <= c <= 'Z' then (c as int + 32) as char else c
  }

  function ToLower(s: string): (r: string)
    ensures |r| == |s|
    ensures forall i :: 0 <= i < |s| ==> r[i] == LowerAscii(s[i])
  {
    if s == [] then [] else [LowerAscii(s[0])] + ToLower(s[1..])
  }

  predicate StartsWith(s: string, prefix: string) {
    |prefix| <= |s| && s[..|prefix|] == prefix
  }

  /** How many white-space characters `s` starts with. */
  function LeadingSpace(s: string): (n: nat)
    ensures n <= |s|
    ensures forall i :: 0 <= i < n ==> IsJsSpace(s[i])
    ensures n < |s| ==> !IsJsSpace(s[n])
  {
    if s != [] && IsJsSpace(s[0]) then 1 + LeadingSpace(s[1..]) else 0
  }

  /** Where the trailing white space of `s` starts. */
  function TrailingSpace(s: string): (n: nat)
    ensures n <= |s|
    ensures forall i :: n <= i < |s| ==> IsJsSpace(s[i])
    ensures 0 < n ==> !IsJsSpace(s[n - 1])
  {
    if s != [] && IsJsSpace(s[|s| - 1]) then TrailingSpace(s[..|s| - 1]) else |s|
  }

  /** `s.trim()`: the slice of `s` that starts after its leading white space
      and leaves only white space after it; it neither starts nor ends with
      white space. */
  function Trim(s: string): (r: string)
    ensures LeadingSpace(s) + |r| <= |s|
    ensures r == s[LeadingSpace(s)..LeadingSpace(s) + |r|]
    ensures forall i :: LeadingSpace(s) + |r| <= i < |s| ==> IsJsSpace(s[i])
    ensures r != [] ==> !IsJsSpace(r[0]) && !IsJsSpace(r[|r| - 1])
  {
    var lead, stop := LeadingSpace(s), TrailingSpace(s);
    if lead == |s| then [] else assert lead < stop; s[lead..stop]
  }

  /** Trimming twice is trimming once. */
  lemma TrimIdempotent(s: string)
    ensures Trim(Trim(s)) == Trim(s)
  {
    var r := Trim(s);
    if r != [] {
      assert LeadingSpace(r) == 0;
      assert TrailingSpace(r) == |r|;
      assert r[0..|r|] == r;
    }
  }

  lemma {:induction false} LeadingSpacePadded(lead: string, rest: string)
    requires forall i :: 0 <= i < |lead| ==> IsJsSpace(lead[i])
    requires rest == [] || !IsJsSpace(rest[0])
    ensures LeadingSpace(lead + rest) == |lead|
  {
    if lead == [] {
      assert lead + rest == rest;
    } else {
      assert (lead + rest)[1..] == lead[1..] + rest;
      LeadingSpacePadded(lead[1..], rest);
    }
  }

  lemma {:induction false} TrailingSpacePadded(body: string, trail: string)
    requires forall i :: 0 <= i < |trail| ==> IsJsSpace(trail[i])
    requires body == [] || !IsJsSpace(body[|body| - 1])
    ensures TrailingSpace(body + trail) == |body|
  {
    if trail == [] {
      assert body + trail == body;
    } else {
      var s := body + trail;
      assert s[..|s| - 1] == body + trail[..|trail| - 1];
      TrailingSpacePadded(body, trail[..|trail| - 1]);
    }
  }

  /** The converse of Trim's contract: white space around a core that
      neither starts nor ends with white space is exactly what is removed. */
  lemma TrimPadded(lead: string, core: string, trail: string)
    requires forall i :: 0 <= i < |lead| ==> IsJsSpace(lead[i])
    requires forall i :: 0 <= i < |trail| ==> IsJsSpace(trail[i])
    requires core != [] ==> !IsJsSpace(core[0]) && !IsJsSpace(core[|core| - 1])
    ensures Trim(lead + core + trail) == core
  {
    var s := lead + core + trail;
    if core == [] {
      var spaces := lead + trail;
      assert s == spaces + [];
      assert forall i :: 0 <= i < |spaces| ==> IsJsSpace(spaces[i]);
      LeadingSpacePadded(spaces, []);
    } else {
      assert s == lead + (core + trail);
      LeadingSpacePadded(lead, core + trail);
      assert s == (lead + core) + trail;
      TrailingSpacePadded(lead + core, trail);
      assert s[|lead|..|lead| + |core|] == core;
    }
  }
}
