/** How the turn loop reads one line of user input: `exit` in any letter
    case ends the session, a `code:` prefix hands the rest to the code
    executor, and anything else is a message for the assistant. */
module Dispatch {
  import opened Text

  const ExitWord := "exit"
  const CodePrefix := "code:"

  datatype Command = Exit | Code(snippet: string) | Chat(text: string)

  /** The exit test comes first, then the case-sensitive `code:` prefix,
      whose remainder is trimmed. */
  function Classify(input: string): (c: Command)
    ensures c.Code? <==> !c.Exit? && StartsWith(input, CodePrefix)
    ensures c.Code? ==> c.snippet == Trim(input[|CodePrefix|..])
    ensures c.Chat? ==> c.text == input
  {
    if ToLower(input) == ExitWord then Exit
    else if StartsWith(input, CodePrefix) then Code(Trim(input[|CodePrefix|..]))
    else Chat(input)
  }

  /** The exit test is `exit` compared letter by letter, ignoring case. */
  lemma ExitMatchesAnyCase(input: string)
    ensures Classify(input).Exit? <==>
      |input| == |ExitWord| && forall i :: 0 <= i < |input| ==> LowerAscii(input[i]) == ExitWord[i]
  {
    if |input| == |ExitWord| && forall i :: 0 <= i < |input| ==> LowerAscii(input[i]) == ExitWord[i] {
      assert ToLower(input) == ExitWord;
    }
  }

  /** `exit` matches whatever its letter case. */
  lemma ExitAnyCase(input: string)
    requires |input| == 4
    requires input[0] in "eE" && input[1] in "xX" && input[2] in "iI" && input[3] in "tT"
    ensures Classify(input) == Exit
  {
    ExitMatchesAnyCase(input);
  }

  /** Nothing around the word is ignored: `" exit"` is a message. */
  lemma PaddedExitIsChat()
    ensures Classify(" exit") == Chat(" exit")
  {
    assert !StartsWith(" exit", CodePrefix) by { assert " exit"[0] != CodePrefix[0]; }
  }

  /** `code: 1+1` runs `1+1`. */
  lemma CodeExample()
    ensures Classify("code: 1+1") == Code("1+1")
  {
    var input := "code: 1+1";
    assert StartsWith(input, CodePrefix) by { assert input[..5] == CodePrefix; }
    assert input[5..] == " " + "1+1" + "";
    TrimPadded(" ", "1+1", "");
  }

  /** The prefix is case-sensitive: `CODE: 1+1` is a message. */
  lemma UpperCasePrefixIsChat()
    ensures Classify("CODE: 1+1") == Chat("CODE: 1+1")
  {
    assert !StartsWith("CODE: 1+1", CodePrefix) by { assert "CODE: 1+1"[0] != CodePrefix[0]; }
  }
}
