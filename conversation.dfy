/** What one turn of the `chatbot` loop does, as functions of the state
    before it: the calls it makes, the sleeps it takes, the snippet it hands
    to the code executor, and what it leaves in the short-term memory and in
    the context file.  The session's turn method is proved against these. */
module Conversation {
  import opened Js
  import opened Text
  import opened Api
  import opened Retry
  import opened ContextStore
  import opened Dispatch

  /** The outside world during one turn: the answers to the attempts of the
      sentiment call and of the run, and whether writing the context file
      succeeds. */
  datatype TurnEnv = TurnEnv(sentiment: seq<Outcome>, run: seq<Outcome>, written: bool)

  /** One line typed at the prompt, with what the world answers to it. */
  datatype Turn = Turn(input: string, env: TurnEnv)

  /** The run of a message turn returned a truthy response. */
  predicate RunSucceeds(t: Turn) {
    Classify(t.input).Chat? && Truthy(RequestValue(t.env.run, DefaultRetries))
  }

  /** A message turn calls the sentiment service and then the run, which
      carries the short-term memory as it was before the turn; `exit` and
      `code:` turns call nothing. */
  function TurnCalls(threadId: Json, memory: Memory, input: string): seq<Request> {
    if Classify(input).Chat? then [SentimentAnalysis(input), CreateRun(threadId, input, memory)] else []
  }

  function TurnSleeps(t: Turn): seq<nat> {
    if Classify(t.input).Chat?
    then RetrySleeps(t.env.sentiment, DefaultRetries) + RetrySleeps(t.env.run, DefaultRetries)
    else []
  }

  function TurnSnippets(input: string): seq<string> {
    var c := Classify(input);
    if c.Code? then [c.snippet] else []
  }

  /** `short_term_memory` after one turn: `last_interaction` is overwritten
      only by a message whose run succeeded. */
  function MemoryAfter(m: Memory, t: Turn): Memory {
    if RunSucceeds(t)
    then Memory(Some(Interaction(t.input, Property(RequestValue(t.env.run, DefaultRetries), "response"))))
    else m
  }

  /** The context is saved only after a successful run, and it is the
      unchanged `context` that is saved. */
  function FileAfter(file: ContextFile, context: Context, t: Turn): ContextFile {
    if RunSucceeds(t) then SaveContext(file, context, t.env.written) else file
  }

  function MemoryAfterAll(m: Memory, ts: seq<Turn>): Memory {
    if ts == [] then m else MemoryAfter(MemoryAfterAll(m, ts[..|ts| - 1]), ts[|ts| - 1])
  }

  function FileAfterAll(file: ContextFile, context: Context, ts: seq<Turn>): ContextFile {
    if ts == [] then file else FileAfter(FileAfterAll(file, context, ts[..|ts| - 1]), context, ts[|ts| - 1])
  }

  /** The calls of a sequence of turns; each run carries the memory left by
      the turns before it. */
  function CallsAll(threadId: Json, m: Memory, ts: seq<Turn>): seq<Request> {
    if ts == [] then []
    else
      var before := ts[..|ts| - 1];
      CallsAll(threadId, m, before) + TurnCalls(threadId, MemoryAfterAll(m, before), ts[|ts| - 1].input)
  }

  function Snippets(ts: seq<Turn>): seq<string> {
    if ts == [] then [] else Snippets(ts[..|ts| - 1]) + TurnSnippets(ts[|ts| - 1].input)
  }

  /** The back-off sleeps of a sequence of turns, in order. */
  function SleepsAll(ts: seq<Turn>): seq<nat> {
    if ts == [] then [] else SleepsAll(ts[..|ts| - 1]) + TurnSleeps(ts[|ts| - 1])
  }

  /** Each of the whole-conversation functions advances by one turn. */
  lemma {:induction false} OneMoreTurn(threadId: Json, m: Memory, file: ContextFile, context: Context, ts: seq<Turn>, n: nat)
    requires n < |ts|
    ensures CallsAll(threadId, m, ts[..n + 1]) ==
      CallsAll(threadId, m, ts[..n]) + TurnCalls(threadId, MemoryAfterAll(m, ts[..n]), ts[n].input)
    ensures MemoryAfterAll(m, ts[..n + 1]) == MemoryAfter(MemoryAfterAll(m, ts[..n]), ts[n])
    ensures FileAfterAll(file, context, ts[..n + 1]) ==
      FileAfter(FileAfterAll(file, context, ts[..n]), context, ts[n])
    ensures Snippets(ts[..n + 1]) == Snippets(ts[..n]) + TurnSnippets(ts[n].input)
    ensures SleepsAll(ts[..n + 1]) == SleepsAll(ts[..n]) + TurnSleeps(ts[n])
  {
    assert ts[..n + 1][..n] == ts[..n];
  }

  /** Before any turn nothing has been called, remembered, saved or run. */
  lemma {:induction false} NoTurnYet(threadId: Json, m: Memory, file: ContextFile, context: Context, ts: seq<Turn>)
    ensures CallsAll(threadId, m, ts[..0]) == [] && MemoryAfterAll(m, ts[..0]) == m
    ensures FileAfterAll(file, context, ts[..0]) == file && Snippets(ts[..0]) == []
    ensures SleepsAll(ts[..0]) == []
  {
    assert ts[..0] == [];
  }

  /** A state that records the first `n` turns, extended by what turn `n`
      does, records the first `n + 1`. */
  lemma {:induction false} RecordOneMore(threadId: Json, context: Context, ts: seq<Turn>, n: nat,
                      calls0: seq<Request>, memory0: Memory, file0: ContextFile, executed0: seq<string>,
                      sleeps0: seq<nat>, calls: seq<Request>, memory: Memory, file: ContextFile,
                      executed: seq<string>, sleeps: seq<nat>)
    requires n < |ts|
    requires calls == calls0 + CallsAll(threadId, memory0, ts[..n])
    requires memory == MemoryAfterAll(memory0, ts[..n])
    requires file == FileAfterAll(file0, context, ts[..n])
    requires executed == executed0 + Snippets(ts[..n])
    requires sleeps == sleeps0 + SleepsAll(ts[..n])
    ensures calls + TurnCalls(threadId, memory, ts[n].input) == calls0 + CallsAll(threadId, memory0, ts[..n + 1])
    ensures MemoryAfter(memory, ts[n]) == MemoryAfterAll(memory0, ts[..n + 1])
    ensures FileAfter(file, context, ts[n]) == FileAfterAll(file0, context, ts[..n + 1])
    ensures executed + TurnSnippets(ts[n].input) == executed0 + Snippets(ts[..n + 1])
    ensures sleeps + TurnSleeps(ts[n]) == sleeps0 + SleepsAll(ts[..n + 1])
  {
    OneMoreTurn(threadId, memory0, file0, context, ts, n);
    AppendAssociates(calls0, CallsAll(threadId, memory0, ts[..n]), TurnCalls(threadId, memory, ts[n].input));
    AppendAssociates(executed0, Snippets(ts[..n]), TurnSnippets(ts[n].input));
    AppendAssociates(sleeps0, SleepsAll(ts[..n]), TurnSleeps(ts[n]));
  }

  lemma AppendAssociates<T>(a: seq<T>, b: seq<T>, c: seq<T>)
    ensures a + b + c == a + (b + c)
  {
  }

  /** A `code:` turn reaches neither the sentiment service nor the run, and
      hands the trimmed remainder to the executor. */
  lemma CodeTurnBypassesService(threadId: Json, m: Memory, file: ContextFile, context: Context, t: Turn)
    requires StartsWith(t.input, CodePrefix)
    ensures TurnCalls(threadId, m, t.input) == [] && TurnSleeps(t) == []
    ensures TurnSnippets(t.input) == [Trim(t.input[|CodePrefix|..])]
    ensures MemoryAfter(m, t) == m && FileAfter(file, context, t) == file
  {
    assert ToLower(t.input) != ExitWord by { assert |t.input| != |ExitWord|; }
  }

  /** A message turn asks for a sentiment and then for a run that carries
      the current short-term memory as its context. */
  lemma MessageTurnCallsService(threadId: Json, m: Memory, t: Turn)
    requires Classify(t.input).Chat?
    ensures TurnCalls(threadId, m, t.input) ==
      [Request(Sentiment, Post, None, SentimentText(t.input)),
       Request(Runs(threadId), Post, None, RunInput(t.input, m))]
    ensures TurnSleeps(t) ==
      RetrySleeps(t.env.sentiment, DefaultRetries) + RetrySleeps(t.env.run, DefaultRetries)
  {
  }

  /** When the run returns nothing truthy (for instance after three network
      failures) the memory and the file are left as they were. */
  lemma FailedRunChangesNothing(m: Memory, file: ContextFile, context: Context, t: Turn)
    requires !Truthy(RequestValue(t.env.run, DefaultRetries))
    ensures MemoryAfter(m, t) == m && FileAfter(file, context, t) == file
  {
  }

  /** Three failed attempts of the run are such a failure. */
  lemma ThreeFailuresKeepMemory(m: Memory, t: Turn)
    requires forall j :: 0 <= j < DefaultRetries ==> OutcomeAt(t.env.run, j).Failure?
    ensures MemoryAfter(m, t) == m
  {
    AllAttemptsFail(t.env.run, DefaultRetries);
  }

  /** After a successful run `last_interaction` holds the input and the
      response, and the unchanged context is saved. */
  lemma SuccessfulRunIsRemembered(m: Memory, file: ContextFile, context: Context, t: Turn)
    requires RunSucceeds(t)
    ensures MemoryAfter(m, t).lastInteraction ==
      Some(Interaction(t.input, Property(RequestValue(t.env.run, DefaultRetries), "response")))
    ensures FileAfter(file, context, t) == SaveContext(file, context, t.env.written)
  {
  }

  /** The short-term memory changes only through a turn whose run succeeds. */
  lemma {:induction false} MemoryKeptWithoutSuccess(m: Memory, ts: seq<Turn>)
    requires forall i :: 0 <= i < |ts| ==> !RunSucceeds(ts[i])
    ensures MemoryAfterAll(m, ts) == m
  {
    if ts != [] {
      MemoryKeptWithoutSuccess(m, ts[..|ts| - 1]);
    }
  }

  /** After a sequence of turns the memory holds the input and the response
      of the last turn whose run succeeded. */
  lemma {:induction false} LastSuccessfulRunIsRemembered(m: Memory, ts: seq<Turn>, k: nat)
    requires k < |ts| && RunSucceeds(ts[k])
    requires forall i :: k < i < |ts| ==> !RunSucceeds(ts[i])
    ensures MemoryAfterAll(m, ts).lastInteraction ==
      Some(Interaction(ts[k].input, Property(RequestValue(ts[k].env.run, DefaultRetries), "response")))
  {
    if k < |ts| - 1 {
      LastSuccessfulRunIsRemembered(m, ts[..|ts| - 1], k);
    }
  }

  /** Whatever the turns, the file only ever holds its old contents or the
      unchanged context: `last_interaction` is never persisted. */
  lemma {:induction false} FileHoldsOnlyContext(file: ContextFile, context: Context, ts: seq<Turn>)
    ensures FileAfterAll(file, context, ts) == file || FileAfterAll(file, context, ts) == Holds(context)
  {
    if ts != [] {
      FileHoldsOnlyContext(file, context, ts[..|ts| - 1]);
    }
  }

  /** A conversation without message turns makes no remote call. */
  lemma {:induction false} NoMessagesNoCalls(threadId: Json, m: Memory, ts: seq<Turn>)
    requires forall i :: 0 <= i < |ts| ==> !Classify(ts[i].input).Chat?
    ensures CallsAll(threadId, m, ts) == []
  {
    if ts != [] {
      NoMessagesNoCalls(threadId, m, ts[..|ts| - 1]);
    }
  }
}
