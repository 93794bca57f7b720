/** The remote calls the driver makes: which endpoint, which verb, which
    headers the caller passes and which payload goes with it.  The URL text
    is represented by the endpoint it names; the ids interpolated into it are
    kept as the JSON values the service returned. */
module Api {
  import opened Js

  type Headers = map<string, string>

  datatype Verb = Get | Post

  datatype Endpoint =
    | Assistants                    // POST …/v1/assistants
    | Threads(assistantId: Json)    // POST …/v1/assistants/{assistant_id}/threads
    | Runs(threadId: Json)          // POST …/v1/threads/{thread_id}/runs
    | Sentiment                     // POST the sentiment service's /analyze

  /** `short_term_memory.last_interaction`, as the turn loop stores it.  The
      response is whatever `run_response.response` read, possibly undefined. */
  datatype Interaction = Interaction(userInput: string, assistantResponse: Value)

  /** The module-level `short_term_memory` object: the only key the driver
      ever writes is `last_interaction`. */
  datatype Memory = Memory(lastInteraction: Option<Interaction>)

  datatype Payload =
    | AssistantSpec(name: string, description: string)
    | ThreadSpec(title: string)
    | RunInput(input: string, context: Memory)
    | SentimentText(text: string)

  /** One call of `make_request`: `headers` is the caller's argument, `None`
      standing for the `null` every caller in the driver passes. */
  datatype Request = Request(endpoint: Endpoint, verb: Verb, headers: Option<Headers>, body: Payload)

  /** What goes over the wire on one attempt: the headers actually used. */
  datatype Wire = Wire(endpoint: Endpoint, verb: Verb, headers: Headers, body: Payload)

  function CreateAssistant(name: string, description: string): Request {
    Request(Assistants, Post, None, AssistantSpec(name, description))
  }

  function CreateThread(assistantId: Json, title: string): Request {
    Request(Threads(assistantId), Post, None, ThreadSpec(title))
  }

  /** The run carries the short-term memory as it is when the run is made. */
  function CreateRun(threadId: Json, inputText: string, memory: Memory): Request {
    Request(Runs(threadId), Post, None, RunInput(inputText, memory))
  }

  function SentimentAnalysis(text: string): Request {
    Request(Sentiment, Post, None, SentimentText(text))
  }
}
