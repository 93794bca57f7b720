/** `chatbot`: the session driver.  It creates the assistant, reuses the
    thread stored in the context file or creates and saves one, and then
    serves user turns until `exit`.  The remote service, the file system
    and the code executor are oracles handed in by the caller. */
module Session {
  import opened Js
  import opened Text
  import opened Api
  import opened Retry
  import opened ContextStore
  import opened Dispatch
  import opened Conversation

  const AssistantName := "BespokeAssistant"
  const AssistantDescription := "A custom, context-aware assistant."
  const ThreadTitle := "Persistent Session"
  const AssistantCall := CreateAssistant(AssistantName, AssistantDescription)

  /** Why bootstrap gave up; each case logs and returns from `chatbot`. */
  datatype Abort = NoAssistant | NoAssistantId | NoThread | NoThreadId

  datatype Phase = Starting | Ready | Exited | Aborted(reason: Abort)

  /** The outside world during bootstrap: the answers to the attempts of
      `create_assistant` and `create_thread`, and whether writing the
      context file succeeds. */
  datatype BootEnv = BootEnv(assistant: seq<Outcome>, thread: seq<Outcome>, written: bool)

  /** At most one assistant and one thread are created per session: the
      assistant by the first call, the thread, if at all, by the second. */
  predicate CallLog(calls: seq<Request>) {
    1 <= |calls| && calls[0] == AssistantCall &&
    (forall i :: 1 <= i < |calls| ==> !calls[i].endpoint.Assistants?) &&
    (forall i :: 2 <= i < |calls| ==> !calls[i].endpoint.Threads?)
  }

  /** Every run in `calls` goes to thread `threadId`. */
  predicate RunsTo(calls: seq<Request>, threadId: Json) {
    forall i :: 0 <= i < |calls| && calls[i].endpoint.Runs? ==> calls[i].endpoint.threadId == threadId
  }

  /** `context.thread_info` is truthy and its truthy `id` is `threadId`. */
  predicate HasThread(context: Context, threadId: Json) {
    Truthy(ThreadInfo(context)) &&
    Property(ThreadInfo(context), "id") == Defined(threadId) &&
    Truthy(Defined(threadId))
  }

  /** The id `create_assistant` yields, when bootstrap gets past lines 134-143. */
  predicate AssistantCreated(boot: BootEnv) {
    var info := RequestValue(boot.assistant, DefaultRetries);
    Truthy(info) && Truthy(Property(info, "id"))
  }

  /** The calls bootstrap makes: the assistant, and a thread only when the
      assistant has an id and the loaded context holds no truthy thread. */
  function BootCalls(boot: BootEnv, file: ContextFile): seq<Request> {
    if AssistantCreated(boot) && !Truthy(ThreadInfo(LoadContext(file)))
    then [AssistantCall, CreateThread(Property(RequestValue(boot.assistant, DefaultRetries), "id").json, ThreadTitle)]
    else [AssistantCall]
  }

  /** The file bootstrap leaves: it changes only when a thread was created,
      and then it is the loaded context with that thread saved. */
  function BootFile(boot: BootEnv, file: ContextFile): ContextFile {
    var loaded := LoadContext(file);
    var created := RequestValue(boot.thread, DefaultRetries);
    if AssistantCreated(boot) && !Truthy(ThreadInfo(loaded)) && Truthy(created)
    then SaveContext(file, loaded[ThreadInfoKey := created.json], boot.written)
    else file
  }
  /** The back-off sleeps of bootstrap: those of the assistant call, then
      those of the thread call when one is made. */
  function BootSleeps(boot: BootEnv, file: ContextFile): seq<nat> {
    RetrySleeps(boot.assistant, DefaultRetries) +
    if AssistantCreated(boot) && !Truthy(ThreadInfo(LoadContext(file)))
    then RetrySleeps(boot.thread, DefaultRetries)
    else []
  }

  /** The thread bootstrap goes on with: the stored `thread_info` when it is
      truthy, otherwise what `create_thread` returned. */
  function BootThread(boot: BootEnv, file: ContextFile): Value {
    var stored := ThreadInfo(LoadContext(file));
    if Truthy(stored) then stored else RequestValue(boot.thread, DefaultRetries)
  }

  /** Bootstrap reaches the turn loop exactly when the assistant, the thread
      and the thread's `id` are all truthy (lines 134, 140, 151, 160). */
  predicate BootReady(boot: BootEnv, file: ContextFile) {
    var thread := BootThread(boot, file);
    AssistantCreated(boot) && Truthy(thread) && Truthy(Property(thread, "id"))
  }

  /** The `context` the turn loop runs with: the loaded one, with the created
      thread stored in it when one was created. */
  function BootContext(boot: BootEnv, file: ContextFile): Context {
    var loaded := LoadContext(file);
    var created := RequestValue(boot.thread, DefaultRetries);
    if Truthy(ThreadInfo(loaded)) || !Truthy(created) then loaded
    else loaded[ThreadInfoKey := created.json]
  }


  /** The session invariant on the fields it constrains: no turn runs
      before bootstrap gets past the assistant; a bootstrapped session has a
      thread with a truthy id in its context, and every run it makes goes to
      that thread. */
  predicate Consistent(phase: Phase, calls: seq<Request>, executed: seq<string>, context: Context, threadId: Json) {
    (phase == Starting ==> calls == [] && executed == []) &&
    (phase != Starting ==> CallLog(calls)) &&
    (phase.Aborted? ==> |calls| <= 2 && executed == []) &&
    (phase == Ready || phase == Exited ==> HasThread(context, threadId) && RunsTo(calls, threadId))
  }

  /** The calls of a turn keep a ready session consistent, whether it goes
      on or exits. */
  lemma TurnKeepsConsistent(calls: seq<Request>, executed: seq<string>, context: Context, threadId: Json,
                            memory: Memory, input: string, phase: Phase, executed': seq<string>)
    requires Consistent(Ready, calls, executed, context, threadId)
    requires phase == Ready || phase == Exited
    ensures Consistent(phase, calls + TurnCalls(threadId, memory, input), executed', context, threadId)
  {
    var more := calls + TurnCalls(threadId, memory, input);
    assert forall i :: 0 <= i < |calls| ==> more[i] == calls[i];
  }

  /** Bootstrap makes the assistant call and at most one thread call, and
      it either aborts or ends with a thread in the context. */
  lemma BootKeepsConsistent(assistantId: Json, calls: seq<Request>, phase: Phase,
                            context: Context, threadId: Json)
    requires calls == [AssistantCall] || calls == [AssistantCall, CreateThread(assistantId, ThreadTitle)]
    requires phase.Aborted? || (phase == Ready && HasThread(context, threadId))
    ensures Consistent(phase, calls, [], context, threadId)
  {
  }

  class AssistantSession {
    const apiKey: string
    /** The context file on disk. */
    var file: ContextFile
    /** The `context` variable of `chatbot`. */
    var context: Context
    /** The module-level `short_term_memory`; it outlives a session. */
    var memory: Memory
    var phase: Phase
    /** `thread_info.id`, meaningful once the session is ready. */
    var threadId: Json
    /** Every `make_request` call made, in order. */
    var calls: seq<Request>
    /** Every back-off sleep taken, in order. */
    var sleeps: seq<nat>
    /** Every snippet handed to the code executor, in order. */
    var executed: seq<string>

    ghost predicate Valid()
      reads this
    {
      Consistent(phase, calls, executed, context, threadId)
    }

    constructor (apiKey: string, file: ContextFile, memory: Memory)
      ensures Valid() && phase == Starting
      ensures this.apiKey == apiKey && this.file == file && this.memory == memory
      ensures context == map[] && calls == [] && sleeps == [] && executed == []
    {
      this.apiKey := apiKey;
      this.file := file;
      this.memory := memory;
      context := map[];
      phase := Starting;
      threadId := Null;
      calls, sleeps, executed := [], [], [];
    }

    /** Issue one request through the retry loop and log it. */
    method Call(req: Request, answers: seq<Outcome>) returns (r: Value)
      modifies this`calls, this`sleeps
      ensures r == RequestValue(answers, DefaultRetries)
      ensures calls == old(calls) + [req]
      ensures sleeps == old(sleeps) + RetrySleeps(answers, DefaultRetries)
    {
      var sent, slept;
      r, sent, slept := MakeRequest(req, DefaultRetries, apiKey, answers);
      calls := calls + [req];
      sleeps := sleeps + slept;
    }

    /** Lines 133-143: create the assistant; then establish the thread. */
    method Bootstrap(env: BootEnv)
      requires Valid() && phase == Starting
      modifies this
      ensures Valid()
      ensures phase.Ready? || phase.Aborted?
      ensures memory == old(memory) && executed == old(executed)
      ensures calls == BootCalls(env, old(file)) && file == BootFile(env, old(file))
      ensures var info := RequestValue(env.assistant, DefaultRetries);
        !Truthy(info) || !Truthy(Property(info, "id")) ==>
          phase == Aborted(if !Truthy(info) then NoAssistant else NoAssistantId) &&
          calls == [AssistantCall] &&
          sleeps == old(sleeps) + RetrySleeps(env.assistant, DefaultRetries) &&
          context == old(context) && file == old(file)
      ensures var info := RequestValue(env.assistant, DefaultRetries);
        Truthy(info) && Truthy(Property(info, "id")) ==>
          ThreadEstablished(Property(info, "id").json, env.thread, env.written,
            old(file), old(sleeps) + RetrySleeps(env.assistant, DefaultRetries))
    {
      var info := Call(AssistantCall, env.assistant);
      if !Truthy(info) {
        phase := Aborted(NoAssistant);
        return;
      }
      var assistantId := Property(info, "id");
      if !Truthy(assistantId) {
        phase := Aborted(NoAssistantId);
        return;
      }
      EstablishThread(assistantId.json, env.thread, env.written);
    }

    /** What lines 145-163 leave behind, given the file and the sleeps
        before them: the thread in the loaded context is reused when it is
        truthy; otherwise one thread is created, stored in the context and
        saved.  A missing thread or thread id aborts. */
    ghost predicate ThreadEstablished(assistantId: Json, answers: seq<Outcome>, written: bool,
                                      file0: ContextFile, sleeps0: seq<nat>)
      reads this
    {
      var loaded := LoadContext(file0);
      if Truthy(ThreadInfo(loaded)) then
        calls == [AssistantCall] && sleeps == sleeps0 &&
        context == loaded && file == file0 &&
        phase == (if Truthy(Property(ThreadInfo(loaded), "id")) then Ready else Aborted(NoThreadId)) &&
        (phase == Ready ==> Defined(threadId) == Property(ThreadInfo(loaded), "id"))
      else
        var created := RequestValue(answers, DefaultRetries);
        calls == [AssistantCall, CreateThread(assistantId, ThreadTitle)] &&
        sleeps == sleeps0 + RetrySleeps(answers, DefaultRetries) &&
        if !Truthy(created) then
          phase == Aborted(NoThread) && context == loaded && file == file0
        else
          context == loaded[ThreadInfoKey := created.json] &&
          file == SaveContext(file0, context, written) &&
          phase == (if Truthy(Property(created, "id")) then Ready else Aborted(NoThreadId)) &&
          (phase == Ready ==> Defined(threadId) == Property(created, "id"))
    }

    /** Lines 145-163. */
    method EstablishThread(assistantId: Json, answers: seq<Outcome>, written: bool)
      requires phase == Starting && calls == [AssistantCall] && executed == []
      modifies this
      ensures Valid()
      ensures phase.Ready? || phase.Aborted?
      ensures memory == old(memory) && executed == old(executed)
      ensures ThreadEstablished(assistantId, answers, written, old(file), old(sleeps))
    {
      context := LoadContext(file);
      var threadInfo := ThreadInfo(context);
      if !Truthy(threadInfo) {
        threadInfo := Call(CreateThread(assistantId, ThreadTitle), answers);
        assert calls == [AssistantCall, CreateThread(assistantId, ThreadTitle)];
        if !Truthy(threadInfo) {
          phase := Aborted(NoThread);
          BootKeepsConsistent(assistantId, calls, phase, context, threadId);
          return;
        }
        context := context[ThreadInfoKey := threadInfo.json];
        file := SaveContext(file, context, written);
      }
      var id := Property(threadInfo, "id");
      if !Truthy(id) {
        phase := Aborted(NoThreadId);
      } else {
        threadId := id.json;
        phase := Ready;
      }
      BootKeepsConsistent(assistantId, calls, phase, context, threadId);
    }

    /** One iteration of the loop at lines 166-197. */
    method TakeTurn(input: string, env: TurnEnv)
      requires Valid() && phase == Ready
      modifies this`phase, this`executed, this`calls, this`sleeps, this`memory, this`file
      ensures Valid()
      ensures phase == if Classify(input).Exit? then Exited else Ready
      ensures calls == old(calls) + TurnCalls(threadId, old(memory), input)
      ensures sleeps == old(sleeps) + TurnSleeps(Turn(input, env))
      ensures executed == old(executed) + TurnSnippets(input)
      ensures memory == MemoryAfter(old(memory), Turn(input, env))
      ensures file == FileAfter(old(file), context, Turn(input, env))
    {
      var command := Classify(input);
      if command.Exit? {
        phase := Exited;
      } else if command.Code? {
        executed := executed + [command.snippet];
      } else {
        Message(input, env);
      }
      TurnKeepsConsistent(old(calls), old(executed), context, threadId, old(memory), input, phase, executed);
    }

    /** Lines 178-196: a message is sent for sentiment analysis and then to
        the run, which carries the memory; a truthy response is remembered and
        the context saved. */
    method Message(input: string, env: TurnEnv)
      requires Classify(input).Chat?
      modifies this`calls, this`sleeps, this`memory, this`file
      ensures calls == old(calls) + TurnCalls(threadId, old(memory), input)
      ensures sleeps == old(sleeps) + TurnSleeps(Turn(input, env))
      ensures memory == MemoryAfter(old(memory), Turn(input, env))
      ensures file == FileAfter(old(file), context, Turn(input, env))
    {
      MessageTurnCallsService(threadId, memory, Turn(input, env));
      AppendAssociates(calls, [SentimentAnalysis(input)], [CreateRun(threadId, input, memory)]);
      AppendAssociates(sleeps, RetrySleeps(env.sentiment, DefaultRetries), RetrySleeps(env.run, DefaultRetries));
      var sentiment := Call(SentimentAnalysis(input), env.sentiment);
      var run := Call(CreateRun(threadId, input, memory), env.run);
      if Truthy(run) {
        var response := Property(run, "response");
        memory := Memory(Some(Interaction(input, response)));
        file := SaveContext(file, context, env.written);
      }
    }

    /** What serving the first `n` turns has left behind, given the state
        before the first one: the calls, memory, file and executed snippets
        are those of the conversation functions, no turn before the last
        one was `exit`, and the session has exited exactly when the last one
        was. */
    ghost predicate Served(turns: seq<Turn>, n: nat, calls0: seq<Request>, memory0: Memory,
                           file0: ContextFile, executed0: seq<string>, sleeps0: seq<nat>)
      reads this
    {
      n <= |turns| &&
      (phase == Ready || phase == Exited) &&
      (forall i :: 0 <= i < n - 1 ==> !Classify(turns[i].input).Exit?) &&
      (phase == Exited <==> 0 < n && Classify(turns[n - 1].input).Exit?) &&
      calls == calls0 + CallsAll(threadId, memory0, turns[..n]) &&
      memory == MemoryAfterAll(memory0, turns[..n]) &&
      file == FileAfterAll(file0, context, turns[..n]) &&
      executed == executed0 + Snippets(turns[..n]) &&
      sleeps == sleeps0 + SleepsAll(turns[..n])
    }

    /** One pass of the loop body over turn `n`. */
    method ServeNext(turns: seq<Turn>, n: nat, ghost calls0: seq<Request>, ghost memory0: Memory,
                     ghost file0: ContextFile, ghost executed0: seq<string>, ghost sleeps0: seq<nat>)
      requires Valid() && phase == Ready && n < |turns|
      requires Served(turns, n, calls0, memory0, file0, executed0, sleeps0)
      modifies this`phase, this`executed, this`calls, this`sleeps, this`memory, this`file
      ensures Valid() && Served(turns, n + 1, calls0, memory0, file0, executed0, sleeps0)
    {
      RecordOneMore(threadId, context, turns, n, calls0, memory0, file0, executed0, sleeps0,
                    calls, memory, file, executed, sleeps);
      assert forall i :: 0 <= i < n ==> !Classify(turns[i].input).Exit?;
      TakeTurn(turns[n].input, turns[n].env);
    }

    /** The `while (true)` loop: serve turns until `exit` or until the
        input runs out. */
    method Converse(turns: seq<Turn>) returns (processed: nat)
      requires Valid() && phase == Ready
      modifies this`phase, this`executed, this`calls, this`sleeps, this`memory, this`file
      ensures Valid() && Served(turns, processed, old(calls), old(memory), old(file), old(executed), old(sleeps))
      ensures phase == Ready ==> processed == |turns|
    {
      NoTurnYet(threadId, memory, file, context, turns);
      assert sleeps + [] == sleeps;
      processed := 0;
      while processed < |turns| && phase == Ready
        invariant Valid() && Served(turns, processed, old(calls), old(memory), old(file), old(executed), old(sleeps))
        decreases |turns| - processed
      {
        ServeNext(turns, processed, old(calls), old(memory), old(file), old(executed), old(sleeps));
        processed := processed + 1;
      }
    }
  }

  /** Lines 133-163 on a new session: what the turn loop starts from. */
  method Start(apiKey: string, file: ContextFile, memory: Memory, boot: BootEnv) returns (session: AssistantSession)
    ensures fresh(session) && session.Valid() && (session.phase == Ready || session.phase.Aborted?)
    ensures !AssistantCreated(boot) ==> session.phase.Aborted?
    ensures session.calls == BootCalls(boot, file) && session.file == BootFile(boot, file)
    ensures session.phase == Ready <==> BootReady(boot, file)
    ensures session.phase == Ready ==>
      session.context == BootContext(boot, file) &&
      Defined(session.threadId) == Property(ThreadInfo(BootContext(boot, file)), "id")
    ensures session.memory == memory && session.executed == []
    ensures session.sleeps == BootSleeps(boot, file)
  {
    session := new AssistantSession(apiKey, file, memory);
    session.Bootstrap(boot);
  }

  /** `chatbot()`: bootstrap, then the turn loop if bootstrap succeeded.
      A failed bootstrap processes no turn. */
  method Chatbot(apiKey: string, file: ContextFile, memory: Memory, boot: BootEnv, turns: seq<Turn>)
    returns (session: AssistantSession, processed: nat)
    ensures fresh(session) && session.Valid() && !session.phase.Starting?
    ensures processed <= |turns|
    ensures session.phase.Aborted? ==> processed == 0
    ensures session.phase.Aborted? <==> !BootReady(boot, file)
    ensures !session.phase.Aborted? ==>
      session.context == BootContext(boot, file) &&
      Defined(session.threadId) == Property(ThreadInfo(BootContext(boot, file)), "id")
    ensures session.phase == Exited <==> 0 < processed && Classify(turns[processed - 1].input).Exit?
    ensures session.phase == Ready ==> processed == |turns|
    ensures forall i :: 0 <= i < processed - 1 ==> !Classify(turns[i].input).Exit?
    ensures session.calls == BootCalls(boot, file) + CallsAll(session.threadId, memory, turns[..processed])
    ensures session.file == FileAfterAll(BootFile(boot, file), session.context, turns[..processed])
    ensures session.executed == Snippets(turns[..processed])
    ensures session.memory == MemoryAfterAll(memory, turns[..processed])
    ensures session.sleeps == BootSleeps(boot, file) + SleepsAll(turns[..processed])
  {
    session := Start(apiKey, file, memory, boot);
    processed := 0;
    if session.phase == Ready {
      processed := session.Converse(turns);
    } else {
      NoTurnYet(session.threadId, memory, session.file, session.context, turns);
    }
  }

  /** A first session on a missing file creates assistant `a1` and thread
      `t1` and saves `{thread_info: {id: "t1"}}`. */
  method FreshStartCreatesThread(apiKey: string) returns (first: AssistantSession)
    ensures first.phase == Ready && first.threadId == Str("t1")
    ensures first.calls == [AssistantCall, CreateThread(Str("a1"), ThreadTitle)]
    ensures first.file == Holds(map[ThreadInfoKey := Obj(map["id" := Str("t1")])])
  {
    var a1 := Obj(map["id" := Str("a1")]);
    var t1 := Obj(map["id" := Str("t1")]);
    FirstSuccessWins([Success(a1)], DefaultRetries, 0);
    FirstSuccessWins([Success(t1)], DefaultRetries, 0);
    assert Property(Defined(a1), "id") == Defined(Str("a1"));
    assert Property(Defined(t1), "id") == Defined(Str("t1"));
    assert ThreadInfo(map[]) == Undefined;
    first := new AssistantSession(apiKey, Missing, Memory(None));
    first.Bootstrap(BootEnv([Success(a1)], [Success(t1)], true));
  }

  /** Whatever the service answers, a session started on the file a
      successful first session left behind creates no thread: either the
      thread was already stored, or the first session created and saved it. */
  lemma RestartMakesNoThreadCall(boot1: BootEnv, boot2: BootEnv, file: ContextFile)
    requires AssistantCreated(boot1)
    requires Truthy(ThreadInfo(LoadContext(file))) ||
      (Truthy(RequestValue(boot1.thread, DefaultRetries)) && boot1.written)
    ensures BootCalls(boot2, BootFile(boot1, file)) == [AssistantCall]
  {
  }

  /** A second session on the file the first one saved creates no thread
      and reuses `t1`. */
  method RestartReusesThread(apiKey: string) returns (first: AssistantSession, second: AssistantSession)
    ensures first.phase == Ready && first.threadId == Str("t1")
    ensures second.phase == Ready && second.threadId == Str("t1")
    ensures second.calls == [AssistantCall]
  {
    var a1 := Obj(map["id" := Str("a1")]);
    first := FreshStartCreatesThread(apiKey);
    FirstSuccessWins([Success(a1)], DefaultRetries, 0);
    assert Property(Defined(a1), "id") == Defined(Str("a1"));
    assert ThreadInfo(LoadContext(first.file)) == Defined(Obj(map["id" := Str("t1")]));
    second := new AssistantSession(apiKey, first.file, first.memory);
    second.Bootstrap(BootEnv([Success(a1)], [], true));
  }
}
