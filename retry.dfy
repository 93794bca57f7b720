/** `make_request`: a bounded number of attempts, the first success wins, and
    every failed attempt is followed by a back-off sleep of `2 ** attempt`.
    The network is an oracle: the outcome of attempt `i` of a call is the
    `i`-th element of the answers handed to that call; an attempt past the
    end of those answers fails.  Sleeps are recorded instead of taken. */
module Retry {
  import opened Js
  import opened Api

  /** Every caller in the driver uses the default of three attempts. */
  const DefaultRetries := 3

  datatype Outcome = Success(data: Json) | Failure

  function OutcomeAt(answers: seq<Outcome>, attempt: nat): Outcome {
    if attempt < |answers| then answers[attempt] else Failure
  }

  /** The first successful attempt among attempts `0 .. n-1`, if any. */
  function FirstSuccess(answers: seq<Outcome>, n: nat): (k: Option<nat>)
    ensures k.Some? ==> k.value < n && OutcomeAt(answers, k.value).Success?
    ensures k.Some? ==> forall j :: 0 <= j < k.value ==> OutcomeAt(answers, j).Failure?
    ensures k.None? ==> forall j :: 0 <= j < n ==> OutcomeAt(answers, j).Failure?
  {
    if n == 0 then None
    else
      match FirstSuccess(answers, n - 1)
      case Some(k) => Some(k)
      case None => if OutcomeAt(answers, n - 1).Success? then Some(n - 1) else None
  }

  /** What `make_request` returns: `undefined` when the loop never runs,
      the data of the first success, or `null` once the attempts run out. */
  function RequestValue(answers: seq<Outcome>, retries: int): Value {
    if retries <= 0 then Undefined
    else
      match FirstSuccess(answers, retries)
      case Some(k) => Defined(OutcomeAt(answers, k).data)
      case None => Defined(Null)
  }

  /** How many attempts `make_request` makes. */
  function AttemptCount(answers: seq<Outcome>, retries: int): nat {
    if retries <= 0 then 0
    else
      match FirstSuccess(answers, retries)
      case Some(k) => k + 1
      case None => retries
  }

  /** How many of those attempts failed (each is followed by a sleep). */
  function FailedAttempts(answers: seq<Outcome>, retries: int): nat {
    if retries <= 0 then 0
    else
      match FirstSuccess(answers, retries)
      case Some(k) => k
      case None => retries
  }

  function Pow2(n: nat): nat {
    if n == 0 then 1 else 2 * Pow2(n - 1)
  }

  /** The sleeps after failed attempts `0 .. n-1`: `2 ** attempt` each. */
  function Backoff(n: nat): (d: seq<nat>)
    ensures |d| == n
    ensures forall i :: 0 <= i < n ==> d[i] == Pow2(i)
  {
    if n == 0 then [] else Backoff(n - 1) + [Pow2(n - 1)]
  }

  /** The sleeps one call of `make_request` takes. */
  function RetrySleeps(answers: seq<Outcome>, retries: int): seq<nat> {
    Backoff(FailedAttempts(answers, retries))
  }

  /** The headers `make_request` sends when the caller passes none. */
  function DefaultHeaders(apiKey: string): Headers {
    map["Authorization" := "Bearer " + apiKey, "Content-Type" := "application/json"]
  }

  /** Caller headers are used unchanged; a `null` argument is replaced by
      exactly the bearer-token and JSON content-type headers. */
  function EffectiveHeaders(given: Option<Headers>, apiKey: string): (h: Headers)
    ensures given.Some? ==> h == given.value
    ensures given.None? ==> h.Keys == {"Authorization", "Content-Type"}
    ensures given.None? ==> h["Authorization"] == "Bearer " + apiKey
    ensures given.None? ==> h["Content-Type"] == "application/json"
  {
    if given.None? then DefaultHeaders(apiKey) else given.value
  }

  /** Every request the driver builds is a POST that passes `null` headers,
      so each of its attempts carries the bearer token of the configured key. */
  lemma BuiltRequestsAreAuthenticated(apiKey: string, name: string, description: string, assistantId: Json,
                                      title: string, threadId: Json, input: string, memory: Memory)
    ensures var built := [CreateAssistant(name, description), CreateThread(assistantId, title),
                          CreateRun(threadId, input, memory), SentimentAnalysis(input)];
      forall i :: 0 <= i < |built| ==>
        built[i].verb == Post && EffectiveHeaders(built[i].headers, apiKey) == DefaultHeaders(apiKey)
  {
  }

  /** The retry loop.  `sent` lists what went over the wire, one entry per
      attempt; `sleeps` lists the back-off durations in order. */
  method MakeRequest(req: Request, retries: int, apiKey: string, answers: seq<Outcome>)
    returns (r: Value, sent: seq<Wire>, sleeps: seq<nat>)
    ensures r == RequestValue(answers, retries)
    ensures |sent| == AttemptCount(answers, retries)
    ensures forall i :: 0 <= i < |sent| ==>
      sent[i] == Wire(req.endpoint, req.verb, EffectiveHeaders(req.headers, apiKey), req.body)
    ensures sleeps == RetrySleeps(answers, retries)
  {
    var headers := if req.headers.None? then DefaultHeaders(apiKey) else req.headers.value;
    var wire := Wire(req.endpoint, req.verb, headers, req.body);
    r, sent, sleeps := Undefined, [], [];
    var attempt := 0;
    while attempt < retries
      invariant attempt == 0 || attempt < retries
      invariant forall j :: 0 <= j < attempt ==> OutcomeAt(answers, j).Failure?
      invariant |sent| == attempt && forall i :: 0 <= i < |sent| ==> sent[i] == wire
      invariant sleeps == Backoff(attempt)
    {
      sent := sent + [wire];
      var outcome := OutcomeAt(answers, attempt);
      if outcome.Success? {
        r := Defined(outcome.data);
        return;
      }
      sleeps := sleeps + [Pow2(attempt)];
      if attempt == retries - 1 {
        r := Defined(Null);
        return;
      }
      attempt := attempt + 1;
    }
  }

  /** At most `retries` attempts, and a success is never retried: every
      attempt before the last one made failed. */
  lemma AttemptsBounded(answers: seq<Outcome>, retries: int)
    ensures AttemptCount(answers, retries) <= if retries < 0 then 0 else retries
    ensures forall j :: 0 <= j < AttemptCount(answers, retries) - 1 ==> OutcomeAt(answers, j).Failure?
  {
  }

  /** The first success among the allowed attempts decides the result, with
      one sleep for each failure before it. */
  lemma FirstSuccessWins(answers: seq<Outcome>, retries: int, k: nat)
    requires k < retries
    requires OutcomeAt(answers, k).Success?
    requires forall j :: 0 <= j < k ==> OutcomeAt(answers, j).Failure?
    ensures RequestValue(answers, retries) == Defined(OutcomeAt(answers, k).data)
    ensures AttemptCount(answers, retries) == k + 1
    ensures RetrySleeps(answers, retries) == Backoff(k)
  {
  }

  /** When every attempt fails the result is `null`, after `retries`
      attempts, each followed by its `2 ** attempt` sleep, the last one
      included. */
  lemma AllAttemptsFail(answers: seq<Outcome>, retries: int)
    requires retries > 0
    requires forall j :: 0 <= j < retries ==> OutcomeAt(answers, j).Failure?
    ensures RequestValue(answers, retries) == Defined(Null)
    ensures AttemptCount(answers, retries) == retries
    ensures |RetrySleeps(answers, retries)| == retries
    ensures forall i :: 0 <= i < retries ==> RetrySleeps(answers, retries)[i] == Pow2(i)
  {
  }

  /** With no attempts allowed the loop never runs: nothing is sent, nothing
      slept, and the function falls off its end with `undefined`. */
  lemma NoAttemptsAllowed(answers: seq<Outcome>, retries: int)
    requires retries <= 0
    ensures RequestValue(answers, retries) == Undefined
    ensures AttemptCount(answers, retries) == 0 && RetrySleeps(answers, retries) == []
  {
  }
}
