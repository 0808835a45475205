/**
 * `RunWithRetry` of packages/model/llm/utils.ts: the loop around one provider attempt that
 * gives up at once on a non-retryable `LLMError`, gives up on the last attempt, and otherwise
 * sleeps `delay * attempt` before going on. Two versions: the loop as written, whose
 * `throw new Error("Unreachable")` sits inside the loop body so that it never gets past the
 * first attempt and which the gateway runs, and the corrected loop with that throw after the
 * loop.
 */
module Retry {
  import opened Wrappers
  import opened Types
  import opened LlmErrors
  import opened Db
  import opened Effects
  import opened ProviderCall

  const DEFAULT_RETRIES := 3
  const DEFAULT_DELAY := 1000
  const UNREACHABLE := "Unreachable"
  const MAX_RETRIES_REACHED := "LLM - error] Max retries reached: "

  /** The write made when the loop gives up: the session is failed, records the attempt and
      the error's message. */
  function GiveUpPatch(attempt: int, message: string): Patch {
    FailurePatch(MAX_RETRIES_REACHED + message).(retries := Some(attempt))
  }

  /** Giving up after a failed attempt: log the error's message, write the failure, then
      rethrow. The log line's read of the message of a thrown `null` or `undefined` throws a
      `TypeError` before the write; a missing session row makes the write throw the database's
      error. */
  function GiveUp(w: World, sessionId: Id, attempt: int, e: Exception): (o: Outcome)
    ensures o.result.Failure?
    ensures o.world.calls == w.calls && o.world.slept == w.slept
    ensures FailOnly(w.sessions, o.world.sessions, sessionId)
    ensures MessageOf(e).Failure? ==> o == Outcome(Failure(MessageOf(e).error), w)
    ensures MessageOf(e).Success? && sessionId in w.sessions ==>
              && o.result.error == e
              && o.world.sessions == Updated(w.sessions, sessionId, GiveUpPatch(attempt, MessageOf(e).value))
  {
    match MessageOf(e)
    case Failure(typeError) => Outcome(Failure(typeError), w)
    case Success(message) =>
      if sessionId in w.sessions then
        FailureWriteFailsOnly(w.sessions, sessionId, MAX_RETRIES_REACHED + message, Some(attempt));
        Outcome(Failure(e), w.(sessions := Updated(w.sessions, sessionId, GiveUpPatch(attempt, message))))
      else
        Outcome(Failure(RecordNotFound), w)
  }

  /** Giving up, on the session table. `calls` and `slept` only complete the world. */
  method GiveUpOn(store: Store, sessionId: Id, attempt: int, e: Exception, ghost calls: seq<Request>, ghost slept: seq<int>)
    returns (r: Result<Json, Exception>)
    modifies store
    ensures Outcome(r, World(store.sessions, calls, slept)) == GiveUp(World(old(store.sessions), calls, slept), sessionId, attempt, e)
  {
    var read := MessageOf(e);
    if read.Failure? {
      return Failure(read.error);
    }
    var found := store.Update(sessionId, GiveUpPatch(attempt, read.value));
    r := if found then Failure(e) else Failure(RecordNotFound);
  }

  /** A scripted outcome whose attempt fails with something the loop retries: a thrown value
      other than a non-retryable `LLMError` (and other than `null` or `undefined`, whose message
      the loop cannot read), an empty answer, or an answer `JSON.parse` rejects. */
  predicate RetriedFailure(c: Completion) {
    match c
    case Raised(e) => !GivesUpAtOnce(e) && !e.Nullish?
    case Answered(content, parsed) => content == "" || parsed.Failure?
  }

  /** Calls `start` to `start + count - 1` of the script all fail with retried failures. */
  predicate FailsRetriably(script: nat -> Completion, start: nat, count: int) {
    forall n: nat :: start <= n < start + count ==> RetriedFailure(script(n))
  }

  /** A scripted outcome whose attempt returns `j`. */
  predicate Succeeds(c: Completion, j: Json) {
    c.Answered? && c.content != "" && c.parsed == Success(j)
  }

  // ---------------------------------------------------------------- the loop as written

  /**
   * The loop as written, as a function: with `retries >= 1` it runs exactly one attempt. After
   * a retried failure with `retries >= 2` it logs the error's message, sleeps `delay` and
   * throws "Unreachable" without writing the session; with `retries < 1` it returns
   * `undefined`.
   */
  function RetryAsWrittenSpec(script: nat -> Completion, w: World, req: Request, sessionId: Id,
                              retries: int, delay: int): (o: Outcome)
    ensures RoundStep(w, o.world, req, sessionId)
    ensures |o.world.calls| == |w.calls| + (if retries < 1 then 0 else 1)
    ensures o.result.Success? ==> o.world.sessions == w.sessions
  {
    if retries < 1 then
      Outcome(Success(Null), w)
    else
      var tried := AttemptSpec(script, w, req, sessionId);
      if tried.result.Success? then
        tried
      else if GivesUpAtOnce(tried.result.error) || retries == 1 then
        GiveUp(tried.world, sessionId, 1, tried.result.error)
      else
        match MessageOf(tried.result.error)
        case Failure(typeError) => Outcome(Failure(typeError), tried.world)
        case Success(_) => Outcome(Failure(PlainError(UNREACHABLE)), tried.world.(slept := tried.world.slept + [delay * 1]))
  }

  /**
   * The loop as written. Every path through its body returns or throws, so the loop's own
   * increment is never reached; `left` records that the body was left, which is what ends the
   * loop after its first pass.
   */
  method RunWithRetryAsWritten(store: Store, provider: Provider, clock: Clock, req: Request, sessionId: Id,
                               retries: int := DEFAULT_RETRIES, delay: int := DEFAULT_DELAY)
    returns (r: Result<Json, Exception>)
    modifies store, provider, clock
    ensures Outcome(r, WorldOf(store, provider, clock))
         == RetryAsWrittenSpec(provider.script, old(WorldOf(store, provider, clock)), req, sessionId, retries, delay)
  {
    r := Success(Null);  // falling out of the loop returns `undefined`
    var attempt := 1;
    var left := false;
    while !left && attempt <= retries
      invariant attempt == 1
      invariant !left ==> WorldOf(store, provider, clock) == old(WorldOf(store, provider, clock))
      invariant !left ==> r == Success(Null)
      invariant left ==>
                  retries >= 1 && Outcome(r, WorldOf(store, provider, clock))
                  == RetryAsWrittenSpec(provider.script, old(WorldOf(store, provider, clock)), req, sessionId, retries, delay)
      decreases if left then 0 else 1
    {
      left := true;
      r := Attempt(store, provider, req, sessionId, clock.slept);
      if r.Failure? {
        var e := r.error;
        if GivesUpAtOnce(e) {
          r := GiveUpOn(store, sessionId, attempt, e, provider.calls, clock.slept);
        } else if attempt == retries {
          r := GiveUpOn(store, sessionId, attempt, e, provider.calls, clock.slept);
        } else {
          var read := MessageOf(e);  // the retry log line
          if read.Failure? {
            r := Failure(read.error);
          } else {
            clock.Sleep(delay * attempt);
            r := Failure(PlainError(UNREACHABLE));
          }
        }
      }
    }
  }

  // ---------------------------------------------------------------- the corrected loop

  /**
   * The corrected loop from attempt `attempt` on: an attempt that succeeds ends it, a
   * non-retryable `LLMError` or a failed last attempt gives up, any other failure is logged,
   * sleeps `delay * attempt` and moves to the next attempt; past the last attempt it throws.
   */
  function RetryFrom(script: nat -> Completion, w: World, req: Request, sessionId: Id,
                     attempt: int, retries: int, delay: int): (o: Outcome)
    decreases retries - attempt
    ensures RoundStep(w, o.world, req, sessionId)
    ensures |o.world.calls| - |w.calls| <= (if attempt <= retries then retries - attempt + 1 else 0)
    ensures |o.world.slept| - |w.slept| < |o.world.calls| - |w.calls| || |o.world.calls| == |w.calls|
    ensures forall i :: |w.slept| <= i < |o.world.slept| ==> o.world.slept[i] == delay * (attempt + i - |w.slept|)
  {
    if attempt > retries then
      Outcome(Failure(PlainError(UNREACHABLE)), w)
    else
      var tried := AttemptSpec(script, w, req, sessionId);
      if tried.result.Success? then
        tried
      else if GivesUpAtOnce(tried.result.error) || attempt == retries then
        GiveUp(tried.world, sessionId, attempt, tried.result.error)
      else
        match MessageOf(tried.result.error)
        case Failure(typeError) => Outcome(Failure(typeError), tried.world)
        case Success(_) =>
          var rested := tried.world.(slept := tried.world.slept + [delay * attempt]);
          var o := RetryFrom(script, rested, req, sessionId, attempt + 1, retries, delay);
          RoundStepTransitive(tried.world, rested, o.world, req, sessionId);
          RoundStepTransitive(w, tried.world, o.world, req, sessionId);
          o
  }

  method RunWithRetry(store: Store, provider: Provider, clock: Clock, req: Request, sessionId: Id,
                      retries: int := DEFAULT_RETRIES, delay: int := DEFAULT_DELAY)
    returns (r: Result<Json, Exception>)
    modifies store, provider, clock
    ensures Outcome(r, WorldOf(store, provider, clock))
         == RetryFrom(provider.script, old(WorldOf(store, provider, clock)), req, sessionId, 1, retries, delay)
  {
    var attempt := 1;
    while attempt <= retries
      invariant RetryFrom(provider.script, old(WorldOf(store, provider, clock)), req, sessionId, 1, retries, delay)
             == RetryFrom(provider.script, WorldOf(store, provider, clock), req, sessionId, attempt, retries, delay)
    {
      r := Attempt(store, provider, req, sessionId, clock.slept);
      if r.Success? {
        return;
      }
      var e := r.error;
      if GivesUpAtOnce(e) || attempt == retries {
        r := GiveUpOn(store, sessionId, attempt, e, provider.calls, clock.slept);
        return;
      }
      var read := MessageOf(e);  // the retry log line
      if read.Failure? {
        return Failure(read.error);
      }
      clock.Sleep(delay * attempt);
      attempt := attempt + 1;
    }
    r := Failure(PlainError(UNREACHABLE));
  }

  // ---------------------------------------------------------------- what the two loops do

  /** An attempt scripted to fail retriably fails with an error the loop does not give up on
      and whose message it can read. */
  lemma RetriedAttemptFails(script: nat -> Completion, w: World, req: Request, sessionId: Id)
    requires RetriedFailure(script(|w.calls|))
    ensures var tried := AttemptSpec(script, w, req, sessionId);
            && tried.result.Failure? && !GivesUpAtOnce(tried.result.error)
            && MessageOf(tried.result.error).Success?
  {
  }

  /** When the first attempt succeeds, both loops return its value after one call and write
      nothing. */
  lemma FirstSuccessWritesNothing(script: nat -> Completion, w: World, req: Request, sessionId: Id,
                                  retries: int, delay: int, j: Json)
    requires retries >= 1
    requires Succeeds(script(|w.calls|), j)
    ensures RetryAsWrittenSpec(script, w, req, sessionId, retries, delay) == Outcome(Success(j), w.(calls := w.calls + [req]))
    ensures RetryFrom(script, w, req, sessionId, 1, retries, delay) == Outcome(Success(j), w.(calls := w.calls + [req]))
  {
  }

  /** A non-retryable `LLMError` on the first attempt: both loops fail the session with
      `retries := 1` and the prefixed message, and rethrow it, after exactly one call. */
  lemma NonRetryableShortCircuits(script: nat -> Completion, w: World, req: Request, sessionId: Id,
                                  retries: int, delay: int, e: Exception)
    requires retries >= 1 && sessionId in w.sessions
    requires script(|w.calls|) == Raised(e) && GivesUpAtOnce(e)
    ensures var o := RetryAsWrittenSpec(script, w, req, sessionId, retries, delay);
            && o.result == Failure(e) && |o.world.calls| == |w.calls| + 1
            && o.world.sessions == Updated(w.sessions, sessionId, GiveUpPatch(1, e.message))
    ensures var o := RetryFrom(script, w, req, sessionId, 1, retries, delay);
            && o.result == Failure(e) && |o.world.calls| == |w.calls| + 1
            && o.world.sessions == Updated(w.sessions, sessionId, GiveUpPatch(1, e.message))
  {
  }

  /**
   * The loop as written, after a retried failure with two or more attempts allowed: it sleeps
   * `delay` once and throws "Unreachable", without writing `retries` or the error itself and
   * without a second call.
   */
  lemma AsWrittenStopsAfterOneFailure(script: nat -> Completion, w: World, req: Request, sessionId: Id,
                                      retries: int, delay: int)
    requires retries >= 2
    requires RetriedFailure(script(|w.calls|))
    ensures var o := RetryAsWrittenSpec(script, w, req, sessionId, retries, delay);
            && o.result == Failure(PlainError(UNREACHABLE))
            && o.world.calls == w.calls + [req]
            && o.world.slept == w.slept + [delay]
            && o.world.sessions == AttemptSpec(script, w, req, sessionId).world.sessions
  {
  }

  /** With a single attempt allowed, the loop as written gives up on a retried failure like
      on any other: the session is failed with `retries := 1` and the error is rethrown. */
  lemma AsWrittenSingleAttemptGivesUp(script: nat -> Completion, w: World, req: Request, sessionId: Id,
                                      delay: int)
    requires sessionId in w.sessions
    requires RetriedFailure(script(|w.calls|))
    ensures var tried := AttemptSpec(script, w, req, sessionId);
            var o := RetryAsWrittenSpec(script, w, req, sessionId, 1, delay);
            && o.result == tried.result
            && o.world.sessions == Updated(tried.world.sessions, sessionId, GiveUpPatch(1, MessageOf(tried.result.error).value))
            && o.world.calls == w.calls + [req] && o.world.slept == w.slept
  {
    RetriedAttemptFails(script, w, req, sessionId);
  }

  /** A thrown `null` or `undefined`: the loop as written cannot read its message, for the
      retry log line or for the give-up write, so it throws a `TypeError` after the one call,
      without a sleep and without a write. */
  lemma NullishThrowEscapes(script: nat -> Completion, w: World, req: Request, sessionId: Id,
                            retries: int, delay: int, isNull: bool)
    requires retries >= 1
    requires script(|w.calls|) == Raised(Nullish(isNull))
    ensures var o := RetryAsWrittenSpec(script, w, req, sessionId, retries, delay);
            && o.result == Failure(PropertyReadError(if isNull then "null" else "undefined", "message"))
            && o.world == w.(calls := w.calls + [req])
  {
  }

  /** The corrected loop after a retried failure with attempts left: it sleeps
      `delay * attempt` and goes on from the next attempt. */
  lemma RetryGoesOn(script: nat -> Completion, w: World, req: Request, sessionId: Id,
                    attempt: int, retries: int, delay: int)
    requires 1 <= attempt < retries
    requires RetriedFailure(script(|w.calls|))
    ensures var tried := AttemptSpec(script, w, req, sessionId);
            var rested := tried.world.(slept := tried.world.slept + [delay * attempt]);
            && |rested.calls| == |w.calls| + 1 && |rested.slept| == |w.slept| + 1
            && rested.sessions.Keys == w.sessions.Keys
            && RetryFrom(script, w, req, sessionId, attempt, retries, delay)
               == RetryFrom(script, rested, req, sessionId, attempt + 1, retries, delay)
  {
    RetriedAttemptFails(script, w, req, sessionId);
  }

  /** The corrected loop after a retried failure on its last attempt: it gives up, failing
      the session with the attempt number. */
  lemma RetryGivesUpLast(script: nat -> Completion, w: World, req: Request, sessionId: Id,
                         retries: int, delay: int)
    requires 1 <= retries && sessionId in w.sessions
    requires RetriedFailure(script(|w.calls|))
    ensures var o := RetryFrom(script, w, req, sessionId, retries, retries, delay);
            && o.result.Failure?
            && |o.world.calls| == |w.calls| + 1 && |o.world.slept| == |w.slept|
            && o.world.sessions[sessionId].status == Failed
            && o.world.sessions[sessionId].retries == retries
  {
    var tried := AttemptSpec(script, w, req, sessionId);
    RetriedAttemptFails(script, w, req, sessionId);
    var message := MessageOf(tried.result.error).value;
    var o := GiveUp(tried.world, sessionId, retries, tried.result.error);
    assert RetryFrom(script, w, req, sessionId, retries, retries, delay) == o;
    assert o.world.sessions[sessionId] == Patched(tried.world.sessions[sessionId], GiveUpPatch(retries, message));
  }

  /** With `k` retried failures and then a success, the corrected loop returns that success
      after `k + 1` calls and `k` sleeps, as long as the failures fit in the attempt budget. */
  lemma {:induction false} RetryRecovers(script: nat -> Completion, w: World, req: Request, sessionId: Id,
                                         attempt: int, retries: int, delay: int, k: nat, j: Json)
    requires 1 <= attempt && attempt + k <= retries
    requires FailsRetriably(script, |w.calls|, k)
    requires Succeeds(script(|w.calls| + k), j)
    ensures var o := RetryFrom(script, w, req, sessionId, attempt, retries, delay);
            && o.result == Success(j)
            && |o.world.calls| == |w.calls| + k + 1
            && |o.world.slept| == |w.slept| + k
    decreases k
  {
    if k > 0 {
      assert RetriedFailure(script(|w.calls|));
      var tried := AttemptSpec(script, w, req, sessionId);
      var rested := tried.world.(slept := tried.world.slept + [delay * attempt]);
      RetryGoesOn(script, w, req, sessionId, attempt, retries, delay);
      RetryRecovers(script, rested, req, sessionId, attempt + 1, retries, delay, k - 1, j);
    }
  }

  /** When every allowed attempt fails with a retried failure, the corrected loop makes
      exactly that many calls, fails the session and records the last attempt number. */
  lemma {:induction false} RetryExhausts(script: nat -> Completion, w: World, req: Request, sessionId: Id,
                                         attempt: int, retries: int, delay: int)
    requires 1 <= attempt <= retries
    requires FailsRetriably(script, |w.calls|, retries - attempt + 1)
    requires sessionId in w.sessions
    ensures var o := RetryFrom(script, w, req, sessionId, attempt, retries, delay);
            && o.result.Failure?
            && |o.world.calls| == |w.calls| + retries - attempt + 1
            && |o.world.slept| == |w.slept| + retries - attempt
            && o.world.sessions[sessionId].status == Failed
            && o.world.sessions[sessionId].retries == retries
    decreases retries - attempt
  {
    assert RetriedFailure(script(|w.calls|));
    if attempt < retries {
      var tried := AttemptSpec(script, w, req, sessionId);
      var rested := tried.world.(slept := tried.world.slept + [delay * attempt]);
      RetryGoesOn(script, w, req, sessionId, attempt, retries, delay);
      RetryExhausts(script, rested, req, sessionId, attempt + 1, retries, delay);
    } else {
      RetryGivesUpLast(script, w, req, sessionId, retries, delay);
    }
  }

  /** The discrepancy in one run: the provider client throws once (a plain `Error` for a 503,
      not an `LLMError`) and then answers.
      The loop as written throws "Unreachable" after one call; the corrected loop recovers. */
  lemma UnreachableCounterexample()
    ensures var script := (i: nat) => if i == 0 then Raised(PlainError("503 Service Unavailable"))
                                      else Answered("{}", Success(OtherObject));
            var w := World(map[], [], []);
            var req := Request("m", 4, 2048, "system", "prompt", true);
            && RetryAsWrittenSpec(script, w, req, "s", DEFAULT_RETRIES, DEFAULT_DELAY).result == Failure(PlainError(UNREACHABLE))
            && RetryFrom(script, w, req, "s", 1, DEFAULT_RETRIES, DEFAULT_DELAY).result == Success(OtherObject)
  {
    var script := (i: nat) => if i == 0 then Raised(PlainError("503 Service Unavailable"))
                              else Answered("{}", Success(OtherObject));
    var w := World(map[], [], []);
    var req := Request("m", 4, 2048, "system", "prompt", true);
    assert RetriedFailure(script(0));
    RetryRecovers(script, w, req, "s", 1, DEFAULT_RETRIES, DEFAULT_DELAY, 1, OtherObject);
  }
}
