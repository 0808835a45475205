/**
 * The outside world of the gateway: the generation provider, modelled as a script of
 * outcomes indexed by call number, the sleeps of the retry loop, and the record of everything
 * the provider was asked.
 */
module Effects {
  import opened Wrappers
  import opened Types
  import opened LlmErrors
  import opened Db

  /** One `chat.completions.create` request. Temperatures are in tenths (0.2 is 2). */
  datatype Request = Request(
    model: string,
    temperatureTenths: int,
    maxTokens: int,
    system: string,
    prompt: string,
    json: bool)

  /**
   * What one provider call yields: the first choice's message content together with what
   * `JSON.parse` makes of it (a `SyntaxError` message on failure), or a thrown value. An empty
   * `content` stands for a missing or empty message.
   */
  datatype Completion =
    | Answered(content: string, parsed: Result<Json, string>)
    | Raised(thrown: Exception)

  class Provider {
    /** The outcome of the n-th call, counted from zero. */
    const script: nat -> Completion
    /** Every request made so far, in order. */
    var calls: seq<Request>

    constructor(script: nat -> Completion)
      ensures this.script == script && calls == []
    {
      this.script := script;
      calls := [];
    }

    method Call(req: Request) returns (c: Completion)
      modifies this
      ensures calls == old(calls) + [req]
      ensures c == script(|old(calls)|)
    {
      c := script(|calls|);
      calls := calls + [req];
    }
  }

  /** The backoff of the retry loop, recorded as the delays waited instead of time passing. */
  class Clock {
    var slept: seq<int>

    constructor()
      ensures slept == []
    {
      slept := [];
    }

    method Sleep(ms: int)
      modifies this
      ensures slept == old(slept) + [ms]
    {
      slept := slept + [ms];
    }
  }

  /** The state one provider round can change. */
  datatype World = World(sessions: map<Id, Session>, calls: seq<Request>, slept: seq<int>)

  ghost function WorldOf(store: Store, provider: Provider, clock: Clock): World
    reads store, provider, clock
  {
    World(store.sessions, provider.calls, clock.slept)
  }

  /** The result of a step of the gateway or below: a returned value or a thrown one, and
      the world after it. */
  datatype Outcome = Outcome(result: Result<Json, Exception>, world: World)

  /** From `w` to `w'` the provider was asked `req` and nothing else, and the earlier record
      was kept. */
  predicate OnlyAsked(w: World, w': World, req: Request) {
    && |w.calls| <= |w'.calls|
    && w'.calls[..|w.calls|] == w.calls
    && forall i :: |w.calls| <= i < |w'.calls| ==> w'.calls[i] == req
  }

  /** From `w` to `w'`: session `sid` was at most marked failed and no other session changed,
      the provider was asked only `req`, and the sleep record only grew. */
  predicate RoundStep(w: World, w': World, req: Request, sid: Id) {
    && FailOnly(w.sessions, w'.sessions, sid)
    && OnlyAsked(w, w', req)
    && |w.slept| <= |w'.slept| && w'.slept[..|w.slept|] == w.slept
  }

  lemma RoundStepTransitive(a: World, b: World, c: World, req: Request, sid: Id)
    requires RoundStep(a, b, req, sid) && RoundStep(b, c, req, sid)
    ensures RoundStep(a, c, req, sid)
  {
    FailOnlyTransitive(a.sessions, b.sessions, c.sessions, sid);
    assert c.calls[..|a.calls|] == c.calls[..|b.calls|][..|a.calls|];
    assert c.slept[..|a.slept|] == c.slept[..|b.slept|][..|a.slept|];
  }
}
