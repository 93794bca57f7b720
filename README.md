# Assistant driver model

This project models the driver in `src/utils/aiAssistant.js` of a chatbot
that runs on top of a hosted assistant service. The driver does four things:

- It makes HTTP requests through a retry helper (`make_request`). The helper
  tries a bounded number of times, the first success wins, and every failed
  attempt is followed by a back-off sleep of `2 ** attempt`.
- It keeps a session context in a JSON file (`load_context`, `save_context`).
  A missing or unreadable file becomes `{}`, and a failed write is swallowed.
- It builds the four remote calls: create an assistant, create a thread,
  create a run, and analyse sentiment.
- It runs `chatbot`. This creates the assistant, then reuses the thread stored
  in the context or creates and saves a new one. It then serves prompt lines:
  - `exit`, in any letter case, ends the loop;
  - `code:` hands the trimmed rest of the line to the code executor;
  - anything else is sent for sentiment analysis and then as a run that
    carries the short-term memory. A truthy run response is remembered as
    `last_interaction`, and the context is saved.

The outside world is replaced by parameters:

- The remote service is a sequence of outcomes per call, one per attempt. An
  attempt past the end of that sequence fails.
- The file is represented by what reading and parsing it yields. Whether a
  write succeeds is a boolean.
- Prompt lines are a finite sequence of turns.
- Sleeps and executed snippets are recorded, not performed.

JavaScript values are JSON values plus `undefined`. The tests the code applies
are modelled exactly:

- truthiness (`!x`);
- property reads;
- `toLowerCase`, restricted to ASCII;
- `startsWith`;
- `trim`, with the ECMAScript white-space and line-terminator set.

Modules:

- `Js`: values, truthiness and property reads.
- `Text`: lower-casing and trimming.
- `Api`: requests and payloads.
- `Retry`: `make_request`.
- `ContextStore`: the context file.
- `Dispatch`: classifying a prompt line.
- `Conversation`: what each turn and each sequence of turns does, as
  functions.
- `Session`: the `AssistantSession` class. It holds the driver's mutable
  state: the file, `context`, `short_term_memory`, the thread id, and the
  logs of calls, sleeps and executed snippets. Its methods are proved against
  the `Conversation` and bootstrap functions: the call, sleep and snippet logs, the memory and the file.

## Model

| member | source | states |
|---|---|---|
| Js.Truthy | src/utils/aiAssistant.js:134-184 | The `!x` tests at lines 134, 140, 149, 151, 160 and 184. Undefined, null, false, 0 and the empty string are falsy; every other value is truthy, including empty objects and arrays. A truthy value is never nullish, so reading a property of it does not throw. |
| Js.Property | src/utils/aiAssistant.js:139 | Reading `key` from a non-nullish value is defined exactly when the value is an object that has the key. The result is then that field. |
| Text.IsJsSpace | src/utils/aiAssistant.js:173 | The characters `trim` removes: the ECMAScript white-space and line-terminator code points, from tab to U+FEFF. |
| Text.StartsWith | src/utils/aiAssistant.js:172 | A string starts with a prefix exactly when it is at least as long and its first characters are the prefix's. |
| Text.LowerAscii | src/utils/aiAssistant.js:168 | One character of `toLowerCase`: `A` to `Z` become `a` to `z`, and every other character is kept. |
| Text.ToLower | src/utils/aiAssistant.js:168 | Keeps the length and lower-cases each character on its own; only ASCII upper-case letters change. |
| Text.LeadingSpace | src/utils/aiAssistant.js:173 | The length of the longest all-white-space prefix: everything before it is white space and the character at it is not. |
| Text.TrailingSpace | src/utils/aiAssistant.js:173 | The start of the longest all-white-space suffix: everything from it on is white space and the character before it is not. |
| Text.Trim | src/utils/aiAssistant.js:173 | The result is the slice that starts after the leading white space, and only white space follows it. A non-empty result starts and ends with a character that is not white space. |
| Text.TrimIdempotent | src/utils/aiAssistant.js:173 | Trimming twice gives the same result as trimming once. |
| Text.TrimPadded | src/utils/aiAssistant.js:173 | Padding a string with white space on both sides and trimming returns it, when its ends are not white space. |
| Dispatch.Classify | src/utils/aiAssistant.js:168-177 | A line is a code command exactly when it is not `exit` and starts with `code:`. Its snippet is the trimmed rest of the line. A message carries the whole line. |
| Dispatch.ExitMatchesAnyCase | src/utils/aiAssistant.js:168 | A line ends the session exactly when it has four characters that lower-case to `exit`. |
| Dispatch.ExitAnyCase | src/utils/aiAssistant.js:168 | Any mix of cases of `exit` ends the session. |
| Dispatch.PaddedExitIsChat | src/utils/aiAssistant.js:168 | The exit test does not trim: ` exit` is a message. |
| Dispatch.CodeExample | src/utils/aiAssistant.js:172-173 | `code: 1+1` hands `1+1` to the executor. |
| Dispatch.UpperCasePrefixIsChat | src/utils/aiAssistant.js:172 | The `code:` prefix is case-sensitive: `CODE: 1+1` is a message. |
| Api.CreateAssistant | src/utils/aiAssistant.js:93-98 | A POST to the assistants endpoint with null headers, carrying the name and the description. |
| Api.CreateThread | src/utils/aiAssistant.js:100-105 | A POST to the threads endpoint of the given assistant id with null headers, carrying the title. |
| Api.CreateRun | src/utils/aiAssistant.js:107-112 | A POST to the runs endpoint of the given thread id with null headers, carrying the input text and the short-term memory as it is when the run is made. |
| Api.SentimentAnalysis | src/utils/aiAssistant.js:114-119 | A POST to the sentiment service with null headers, carrying the text. |
| Retry.OutcomeAt | src/utils/aiAssistant.js:26-42 | What attempt `attempt` of the loop meets: the given answer, or a failure once the answers run out. |
| Retry.FirstSuccess | src/utils/aiAssistant.js:27-35 | Gives the index of the first successful attempt among the first `n`, with every earlier attempt failed. Gives none exactly when all `n` attempts fail. |
| Retry.RequestValue | src/utils/aiAssistant.js:19-44 | What `make_request` returns: undefined when the loop never runs, the data of the first successful attempt, or null once every attempt has failed. |
| Retry.AttemptCount | src/utils/aiAssistant.js:27-43 | How many attempts `make_request` makes: up to and including the first success, or all of them. |
| Retry.RetrySleeps | src/utils/aiAssistant.js:36-41 | The sleeps `make_request` takes: `2 ** attempt` after each failed attempt, in order. |
| Retry.FailedAttempts | src/utils/aiAssistant.js:38-41 | How many attempts failed, each of which is followed by a sleep: the index of the first success, or all of them. |
| Retry.Pow2 | src/utils/aiAssistant.js:39 | The value of `2 ** attempt`. |
| Retry.Backoff | src/utils/aiAssistant.js:38 | Sleep `i` lasts `2 ** i`, one for each failed attempt. |
| Retry.DefaultHeaders | src/utils/aiAssistant.js:21-24 | The headers used when none are given: exactly a bearer token built from the API key and the JSON content type. |
| Retry.EffectiveHeaders | src/utils/aiAssistant.js:20-25 | Headers the caller gives are used unchanged. Null headers become exactly the bearer-token and JSON content-type headers. |
| Retry.BuiltRequestsAreAuthenticated | src/utils/aiAssistant.js:93-119 | Each of the four builders makes a POST with null headers, so every attempt carries the bearer token of the configured key. |
| Retry.MakeRequest | src/utils/aiAssistant.js:19-44 | The loop returns the first success's data, or null once the attempts run out, or undefined when no attempt is allowed. It sends the same request on every attempt it makes and sleeps `2 ** attempt` after each failure. |
| Retry.AttemptsBounded | src/utils/aiAssistant.js:27-35 | At most `retries` attempts are made, and every attempt before the last one made failed. |
| Retry.FirstSuccessWins | src/utils/aiAssistant.js:27-35 | A success at attempt `k`, after `k` failures, decides the result after `k + 1` attempts and `k` sleeps. |
| Retry.AllAttemptsFail | src/utils/aiAssistant.js:36-41 | When every attempt fails the result is null after `retries` attempts. Every attempt is followed by a sleep, the last one included. |
| Retry.NoAttemptsAllowed | src/utils/aiAssistant.js:27 | A non-positive retry count yields undefined with no attempt and no sleep. |
| ContextStore.LoadContext | src/utils/aiAssistant.js:82-91 | A missing or unparsable file loads as `{}`; otherwise the parsed object is loaded. |
| ContextStore.SaveContext | src/utils/aiAssistant.js:73-79 | After a successful write, loading yields exactly the saved context. A failed write leaves the file as it was. |
| ContextStore.ThreadInfo | src/utils/aiAssistant.js:147 | `context.thread_info` is defined exactly when the key is present. |
| ContextStore.SaveIdempotent | src/utils/aiAssistant.js:73-79 | Saving the same context again changes nothing. |
| ContextStore.SavedThreadIsReloaded | src/utils/aiAssistant.js:146-157 | Once a thread is stored and saved, the next load finds it. |
| Conversation.RunSucceeds | src/utils/aiAssistant.js:184 | A turn is a message whose run returned a truthy value, the only case that gets past the test at line 184. |
| Conversation.TurnCalls | src/utils/aiAssistant.js:168-183 | The calls of one turn: a message makes the sentiment call and then a run carrying the memory before the turn. `exit` and `code:` lines make none. |
| Conversation.MemoryAfter | src/utils/aiAssistant.js:183-195 | The short-term memory after one turn: `last_interaction` is overwritten, with the input and the run's `response`, only by a message whose run response is truthy. |
| Conversation.FileAfter | src/utils/aiAssistant.js:183-196 | The context file after one turn: the unchanged context is saved only after a truthy run response. |
| Conversation.TurnSleeps | src/utils/aiAssistant.js:179-183 | The back-off sleeps of one turn: those of the sentiment call, then those of the run, for a message; none for `exit` and `code:` lines. |
| Conversation.TurnSnippets | src/utils/aiAssistant.js:172-174 | What one turn hands to the executor: the trimmed rest of a `code:` line, and nothing for other lines. |
| Conversation.CallsAll | src/utils/aiAssistant.js:166-197 | The calls of a sequence of turns in order, each run carrying the memory the turns before it left. |
| Conversation.MemoryAfterAll | src/utils/aiAssistant.js:166-197 | The short-term memory after a sequence of turns, each applied to the memory the previous ones left. |
| Conversation.FileAfterAll | src/utils/aiAssistant.js:166-197 | The context file after a sequence of turns, each successful run saving the unchanged context. |
| Conversation.Snippets | src/utils/aiAssistant.js:166-177 | The snippets a sequence of turns hands to the executor, in order. |
| Conversation.SleepsAll | src/utils/aiAssistant.js:166-197 | The back-off sleeps of a sequence of turns, in order. |
| Conversation.NoTurnYet | src/utils/aiAssistant.js:166-197 | Before any turn the conversation functions give no call, no snippet, and the memory and file as they were. |
| Conversation.CodeTurnBypassesService | src/utils/aiAssistant.js:172-177 | A `code:` line makes no call and takes no sleep. It hands the trimmed remainder to the executor and leaves the memory and the file as they were. |
| Conversation.MessageTurnCallsService | src/utils/aiAssistant.js:179-183 | A message first asks for its sentiment, then makes a run on the thread carrying the memory as it was before the turn. Both calls pass null headers. |
| Conversation.FailedRunChangesNothing | src/utils/aiAssistant.js:183-187 | A falsy run response leaves the memory and the file as they were. |
| Conversation.ThreeFailuresKeepMemory | src/utils/aiAssistant.js:183-187 | Three failed run attempts leave the memory as it was. |
| Conversation.SuccessfulRunIsRemembered | src/utils/aiAssistant.js:189-196 | After a truthy run response, `last_interaction` holds the input and the response's `response` field, and the unchanged context is saved. |
| Conversation.OneMoreTurn | src/utils/aiAssistant.js:166-197 | Each whole-conversation function extends by exactly the effect of the next turn. |
| Conversation.RecordOneMore | src/utils/aiAssistant.js:166-197 | A state that records the first `n` turns, extended by what turn `n` does, records the first `n + 1`. |
| Conversation.MemoryKeptWithoutSuccess | src/utils/aiAssistant.js:183-196 | Without a successful run, any sequence of turns leaves the memory as it was. |
| Conversation.LastSuccessfulRunIsRemembered | src/utils/aiAssistant.js:189-195 | After any sequence of turns, the memory holds the input and response of the last successful run. |
| Conversation.FileHoldsOnlyContext | src/utils/aiAssistant.js:194-196 | After any sequence of turns the file holds its old contents or the unchanged context. `last_interaction` is never persisted. |
| Conversation.NoMessagesNoCalls | src/utils/aiAssistant.js:166-177 | A conversation of only `exit` and `code:` lines makes no remote call. |
| Session.CallLog | src/utils/aiAssistant.js:133-163 | One session creates exactly one assistant, with its first call, and at most one thread, with its second. |
| Session.RunsTo | src/utils/aiAssistant.js:178-183 | Every run in the log goes to the given thread. |
| Session.HasThread | src/utils/aiAssistant.js:145-163 | The context holds a truthy `thread_info` whose truthy `id` is the session's thread id. |
| Session.Consistent | src/utils/aiAssistant.js:133-197 | The session invariant: nothing happens before bootstrap; once it has started, the call log is as `CallLog` says; an aborted session made at most two calls and executed nothing; a ready or exited session has its thread in the context, and all its runs went there. |
| Session.TurnKeepsConsistent | src/utils/aiAssistant.js:166-197 | The calls of a turn keep a ready session consistent: still one assistant, at most one thread, and every run to the session's thread. |
| Session.BootKeepsConsistent | src/utils/aiAssistant.js:133-163 | Bootstrap's calls, an assistant and at most one thread, leave the session consistent whether it aborts or becomes ready. |
| Session.AssistantCreated | src/utils/aiAssistant.js:133-143 | Bootstrap gets past the assistant exactly when `create_assistant` returns a truthy value with a truthy `id`. |
| Session.BootCalls | src/utils/aiAssistant.js:133-157 | The calls bootstrap makes: the assistant call, then a thread call only when the assistant has an id and the loaded context holds no truthy thread. |
| Session.BootFile | src/utils/aiAssistant.js:146-157 | The file after bootstrap: it changes only when a thread was created, and then holds the loaded context with that thread stored, if the write succeeds. |
| Session.BootSleeps | src/utils/aiAssistant.js:133-157 | The back-off sleeps of bootstrap: the assistant call's, then the thread call's when bootstrap makes that call. |
| Session.BootThread | src/utils/aiAssistant.js:146-157 | The thread bootstrap goes on with: the stored `thread_info` when truthy, otherwise what `create_thread` returned. |
| Session.BootReady | src/utils/aiAssistant.js:133-163 | Bootstrap reaches the turn loop exactly when the assistant, its `id`, the thread and its `id` are all truthy. |
| Session.BootContext | src/utils/aiAssistant.js:146-157 | The `context` the loop runs with: the loaded one, with the created thread stored in it when one was created. |
| Session.AssistantSession.constructor | src/utils/aiAssistant.js:132 | A new session is in the starting phase with the given file and memory, an empty context and empty logs. |
| Session.AssistantSession.Call | src/utils/aiAssistant.js:19-44 | One request through the retry loop: the value is the loop's result, and the request and its sleeps are logged. |
| Session.AssistantSession.Bootstrap | src/utils/aiAssistant.js:133-143 | Creates the assistant. A falsy assistant or id aborts after that single call, with the file untouched. Otherwise the thread is established for that id. The calls and the file are those of `BootCalls` and `BootFile`. |
| Session.AssistantSession.ThreadEstablished | src/utils/aiAssistant.js:145-163 | What establishing the thread leaves: a truthy stored thread is reused with no call; otherwise one thread call, and on a truthy result the thread is stored in the context and saved. The phase is ready exactly when the thread's `id` is truthy, and the thread id is then that `id`. |
| Session.AssistantSession.EstablishThread | src/utils/aiAssistant.js:145-163 | A truthy stored thread is reused with no further call. Otherwise exactly one thread is created; on success it is stored in the context and saved. A falsy thread or id aborts. A ready session's thread id is the thread's `id`. |
| Session.AssistantSession.Message | src/utils/aiAssistant.js:179-196 | A message makes the turn's sentiment and run calls and sleeps. It updates the memory and the file exactly as the turn functions say. |
| Session.AssistantSession.TakeTurn | src/utils/aiAssistant.js:166-197 | One turn exits exactly on `exit`. Its calls, sleeps, executed snippets, memory and file are those of the turn functions, and the session invariant is kept. |
| Session.AssistantSession.Served | src/utils/aiAssistant.js:166-197 | What serving the first `n` turns leaves: no `exit` before the last one, and exited exactly when the last one was `exit`. The calls, memory, file, snippets and sleeps are those the conversation functions give. |
| Session.AssistantSession.ServeNext | src/utils/aiAssistant.js:166-197 | Serving turn `n` of a session that has served `n` turns leaves one that has served `n + 1`. |
| Session.AssistantSession.Converse | src/utils/aiAssistant.js:166-197 | The loop stops at the first `exit` or at the end of the input. Calls, memory, file, snippets and sleeps are those the conversation functions give over the turns processed. |
| Session.Start | src/utils/aiAssistant.js:133-163 | A new session after bootstrap is ready exactly when `BootReady` holds, and aborted otherwise. It has made the calls of `BootCalls`, taken the sleeps of `BootSleeps` and left the file of `BootFile`. It kept the memory and executed nothing. When ready, its context is `BootContext` and its thread id is that context's `thread_info.id`. |
| Session.Chatbot | src/utils/aiAssistant.js:132-198 | The session is new, and it aborts exactly when `BootReady` fails, processing no turn. Otherwise it runs with the context `BootContext` and the thread id stored there. It serves turns until the first `exit`, which is the last turn processed, or until the input ends. The calls are bootstrap's followed by those of the turns processed, all runs going to that thread; the sleeps are `BootSleeps` followed by those of the turns. The file, the snippets executed and the memory are those the conversation functions give over those turns, starting from the file bootstrap left. |
| Session.FreshStartCreatesThread | src/utils/aiAssistant.js:145-157 | A first session on a missing file creates thread `t1` after assistant `a1`, saves `{thread_info: {id: "t1"}}` and becomes ready on `t1`. |
| Session.RestartMakesNoThreadCall | src/utils/aiAssistant.js:145-157 | After a bootstrap that found a stored thread, or created one and saved it, the next session on that file makes only the assistant call, whatever the service answers. |
| Session.RestartReusesThread | src/utils/aiAssistant.js:145-163 | A second session on the file the first one saved becomes ready on `t1` without creating a thread: its only call is the assistant. |

## Left out

- `execute_code` (lines 122-129) evaluates arbitrary JavaScript. The model records the snippet handed to it and nothing of its result.
- The IndexedDB helpers `init_db`, `save_to_db` and `load_from_db` (lines 51-70) and `long_term_memory` (line 48) are left out. Nothing in the driver calls them.
- Logging and `console.log` output (lines 7-9, 37, 135-185, 192) are left out. The model assumes every print returns normally; when one throws, the driver's behaviour differs, as the `Session.AssistantSession.Message` line below says.
- The throw at module load when the API key is missing (lines 12-16) is left out. The key is a constructor parameter, and the model assumes module load succeeded.
- The `require.main` entry point (lines 201-203) is left out.
- The text of the URLs is left out. Each request names its endpoint, and the interpolated ids are kept as JSON values, so how a non-string id renders inside a URL is not modelled.
- The GET branch of `make_request` (lines 30-31) is not reached by any caller. The verb is recorded but both branches are treated alike.
- Numbers are integers: `NaN`, `-0` and fractions do not occur, so `NaN` being falsy is not modelled.
- A context file whose contents parse to JSON other than an object is not modelled: the model's file holds an object, is missing, or does not parse. The source behaves differently in each of these cases:
  - `null`: reading `context.thread_info` at line 147 throws a TypeError, and `chatbot` rejects before any thread is made.
  - A number, a string or a boolean: the module runs in strict mode, so the assignment at line 155 throws a TypeError after the thread has been created, and nothing is saved.
  - An array: line 155 sets `thread_info` on the array, but `JSON.stringify` at line 75 writes only the array's elements. The saved file never holds the thread, so every restart creates a new one. `Session.RestartMakesNoThreadCall` and `Session.RestartReusesThread` therefore hold only for the files the model covers.
- Text.ToLower: lower-cases ASCII letters only, because Unicode case mapping has no model here.
- Falsy header arguments other than null (`""`, `0`) would also be replaced by the defaults. No caller passes any, so headers are either given or null.
- When the prompt input runs out, the model's session stays ready. In the source, `prompt` returning null would make `toLowerCase` throw.
- `sleep(2 ** attempt)` is modelled as the number `2 ** attempt`, in whatever unit the `sleep` package uses. No other unit or factor is applied.
- Session.AssistantSession.Message: assumes the prints at lines 181 and 192 return. The template literal converts the sentiment and the response to a string. For an object whose own `toString` key is not a function, such as `{"toString": 0}`, that conversion throws a TypeError. At line 181 the throw comes before the run is sent; at line 192 it comes before `last_interaction` is set and the context is saved. Either way `chatbot` rejects and the loop ends. The model instead goes on: it records the interaction, saves the file and stays ready. The sentiment result itself is recorded nowhere, because the source only prints it.
- Session.AssistantSession.TakeTurn: assumes `execute_code` (lines 122-129) returns, which it does not when the snippet loops forever or throws past its own catch (`throw null` makes `error.toString()` throw).
- Concurrency: the source awaits each call in turn, so the model is sequential.
