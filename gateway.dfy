/**
 * `LLM.generate` of packages/model/llm/index.ts: the single gateway to the provider. It keys a
 * response cache by a hash of the system prompt followed by the user prompt, answers hits from
 * the cache, otherwise runs the retry loop (as written, so at most one provider call) and
 * caches a truthy result, and marks the session failed before rethrowing any error.
 */
module Gateway {
  import opened Wrappers
  import opened Types
  import opened LlmErrors
  import opened Db
  import opened Effects
  import opened ProviderCall
  import opened Retry

  /** `mode: 'PLAN' | 'BUILD'`. */
  datatype Mode = Plan | Build

  /** The argument of `generate`. */
  datatype Params = Params(system: string, prompt: string, mode: Mode, json: bool, sessionId: Id)

  /** What the gateway takes from its environment: the two model names (`OPENROUTER_MODEL`,
      `OPENROUTER_MODEL_BUILDER`) and the SHA-256 hex digest, left uninterpreted. */
  datatype Config = Config(model: string, codeModel: string, hash: string -> Key)

  function ModelFor(cfg: Config, mode: Mode): string {
    if mode == Plan then cfg.model else cfg.codeModel
  }

  /** The request the provider is sent for `p`: the mode picks model, temperature and token
      budget; the prompts and the JSON flag pass through. */
  function RequestFor(cfg: Config, p: Params): (r: Request)
    ensures p.mode == Plan ==> r.model == cfg.model && r.temperatureTenths == 4 && r.maxTokens == 2048
    ensures p.mode == Build ==> r.model == cfg.codeModel && r.temperatureTenths == 2 && r.maxTokens == 16000
    ensures r.system == p.system && r.prompt == p.prompt && r.json == p.json
  {
    Request(ModelFor(cfg, p.mode),
            if p.mode == Build then 2 else 4,
            if p.mode == Build then 16000 else 2048,
            p.system, p.prompt, p.json)
  }

  /** The cache key: a digest of the system prompt followed by the user prompt, nothing else. */
  function CacheKey(cfg: Config, p: Params): Key {
    cfg.hash(p.system + p.prompt)
  }

  /** A step of the gateway or of a stage that calls it: the returned or thrown value, the
      world after it and the cache after it. */
  datatype Step = Step(result: Result<Json, Exception>, world: World, cache: map<Key, CacheEntry>)

  /** `generate` as a function of the world and the cache. */
  function GenerateSpec(script: nat -> Completion, cfg: Config, w: World, cache: map<Key, CacheEntry>,
                        p: Params): (s: Step)
    ensures RoundStep(w, s.world, RequestFor(cfg, p), p.sessionId)
    ensures s.result.Success? ==> s.world.sessions == w.sessions
    ensures Extends(cache, s.cache)
    ensures s.cache.Keys <= cache.Keys + {CacheKey(cfg, p)}
    ensures CacheKey(cfg, p) !in cache && CacheKey(cfg, p) in s.cache ==>
              && s.result == Success(s.cache[CacheKey(cfg, p)].response)
              && Truthy(s.result.value)
              && s.cache[CacheKey(cfg, p)].model == ModelFor(cfg, p.mode)
    ensures s.result.Success? && Truthy(s.result.value) ==>
              CacheKey(cfg, p) in s.cache && s.cache[CacheKey(cfg, p)].response == s.result.value
    ensures s.result.Failure? && p.sessionId in w.sessions ==>
              && s.world.sessions[p.sessionId].status == Failed
              && s.world.sessions[p.sessionId].error == Some(CaughtMessage(s.result.error))
  {
    var key := CacheKey(cfg, p);
    if key in cache then
      Step(Success(cache[key].response), w, cache)
    else
      var o := RetryAsWrittenSpec(script, w, RequestFor(cfg, p), p.sessionId, DEFAULT_RETRIES, DEFAULT_DELAY);
      match o.result
      case Success(j) =>
        Step(o.result, o.world, if Truthy(j) then cache[key := CacheEntry(j, ModelFor(cfg, p.mode))] else cache)
      case Failure(e) =>
        if p.sessionId in o.world.sessions then
          var marked := o.world.(sessions := Updated(o.world.sessions, p.sessionId, FailurePatch(CaughtMessage(e))));
          FailureWriteFailsOnly(o.world.sessions, p.sessionId, CaughtMessage(e), None);
          FailOnlyTransitive(w.sessions, o.world.sessions, marked.sessions, p.sessionId);
          Step(Failure(e), marked, cache)
        else
          Step(Failure(RecordNotFound), o.world, cache)
  }

  class LLM {
    const config: Config
    const store: Store
    const cache: Cache
    const provider: Provider
    const clock: Clock

    constructor(config: Config, store: Store, cache: Cache, provider: Provider, clock: Clock)
      ensures this.config == config && this.store == store && this.cache == cache
      ensures this.provider == provider && this.clock == clock
    {
      this.config := config;
      this.store := store;
      this.cache := cache;
      this.provider := provider;
      this.clock := clock;
    }

    ghost function Now(): World
      reads store, provider, clock
    {
      WorldOf(store, provider, clock)
    }

    method Generate(p: Params) returns (r: Result<Json, Exception>)
      modifies store, cache, provider, clock
      ensures Step(r, Now(), cache.entries) == GenerateSpec(provider.script, config, old(Now()), old(cache.entries), p)
    {
      var model := ModelFor(config, p.mode);
      var key := config.hash(p.system + p.prompt);
      var cached := cache.Lookup(key);
      if cached.Some? {
        return Success(cached.value.response);
      }
      r := RunWithRetryAsWritten(store, provider, clock, RequestFor(config, p), p.sessionId);
      if r.Success? {
        if Truthy(r.value) {
          cache.Insert(key, CacheEntry(r.value, model));
        }
        return;
      }
      var found := store.Update(p.sessionId, FailurePatch(CaughtMessage(r.error)));
      if !found {
        r := Failure(RecordNotFound);
      }
    }
  }

  /** A cache hit depends on the concatenated prompts alone: mode, model, JSON flag and
      session do not matter, the provider is not asked, and nothing is written. */
  lemma HitIgnoresEverythingButPrompts(script: nat -> Completion, cfg: Config, w: World,
                                      cache: map<Key, CacheEntry>, p: Params, q: Params)
    requires p.system + p.prompt == q.system + q.prompt
    requires CacheKey(cfg, p) in cache
    ensures GenerateSpec(script, cfg, w, cache, q) == GenerateSpec(script, cfg, w, cache, p)
    ensures GenerateSpec(script, cfg, w, cache, p) == Step(Success(cache[CacheKey(cfg, p)].response), w, cache)
  {
    assert CacheKey(cfg, q) == CacheKey(cfg, p);
  }

  /** Asking twice for the same prompts: once the first call returned a truthy value, the
      second returns that same value without a provider call and without any write. */
  lemma CacheIdempotent(script: nat -> Completion, cfg: Config, w: World, cache: map<Key, CacheEntry>,
                        p: Params, q: Params)
    requires p.system == q.system && p.prompt == q.prompt
    requires var first := GenerateSpec(script, cfg, w, cache, p);
             first.result.Success? && Truthy(first.result.value)
    ensures var first := GenerateSpec(script, cfg, w, cache, p);
            GenerateSpec(script, cfg, first.world, first.cache, q) == Step(first.result, first.world, first.cache)
  {
    var first := GenerateSpec(script, cfg, w, cache, p);
    assert CacheKey(cfg, q) == CacheKey(cfg, p);
    assert CacheKey(cfg, p) in first.cache;
  }

  /** On a miss whose answer parses, the gateway returns it after one call, writes no
      session, and caches it under the prompts' key exactly when it is truthy. */
  lemma GenerateAnswers(script: nat -> Completion, cfg: Config, w: World, cache: map<Key, CacheEntry>,
                        p: Params, j: Json)
    requires CacheKey(cfg, p) !in cache
    requires Succeeds(script(|w.calls|), j)
    ensures var s := GenerateSpec(script, cfg, w, cache, p);
            && s.result == Success(j)
            && s.world == w.(calls := w.calls + [RequestFor(cfg, p)])
            && s.cache == if Truthy(j) then cache[CacheKey(cfg, p) := CacheEntry(j, ModelFor(cfg, p.mode))] else cache
  {
    FirstSuccessWritesNothing(script, w, RequestFor(cfg, p), p.sessionId, DEFAULT_RETRIES, DEFAULT_DELAY, j);
  }

  /** On a miss whose first attempt fails with anything the loop retries (a 500 or 503, an
      empty answer, unparsable JSON, a thrown non-`LLMError`), the gateway throws
      "Unreachable" after one call and one sleep of `DEFAULT_DELAY`: the session is failed with
      that message and nothing else, and nothing is cached. */
  lemma GenerateUnreachable(script: nat -> Completion, cfg: Config, w: World, cache: map<Key, CacheEntry>,
                            p: Params)
    requires CacheKey(cfg, p) !in cache && p.sessionId in w.sessions
    requires RetriedFailure(script(|w.calls|))
    ensures var s := GenerateSpec(script, cfg, w, cache, p);
            && s.result == Failure(PlainError(UNREACHABLE))
            && s.world.calls == w.calls + [RequestFor(cfg, p)]
            && s.world.slept == w.slept + [DEFAULT_DELAY]
            && s.world.sessions == Updated(w.sessions, p.sessionId, FailurePatch(UNREACHABLE))
            && s.cache == cache
  {
    var req := RequestFor(cfg, p);
    AsWrittenStopsAfterOneFailure(script, w, req, p.sessionId, DEFAULT_RETRIES, DEFAULT_DELAY);
    var c := script(|w.calls|);
    if c.Answered? && c.content == "" {
      FailureOverwrites(w.sessions, p.sessionId, NO_CONTENT, UNREACHABLE);
    }
  }

  /** On a miss whose first attempt throws a non-retryable `LLMError` (a 400, 401, 402, 429 or
      status-less error), one call and no sleep: the loop's "Max retries reached" message is
      overwritten by the catch, so the session keeps the error's own message and
      `retries: 1`, and the error is rethrown. */
  lemma GenerateGivesUpAtOnce(script: nat -> Completion, cfg: Config, w: World, cache: map<Key, CacheEntry>,
                              p: Params, e: Exception)
    requires CacheKey(cfg, p) !in cache && p.sessionId in w.sessions
    requires script(|w.calls|) == Raised(e) && GivesUpAtOnce(e)
    ensures var s := GenerateSpec(script, cfg, w, cache, p);
            && s.result == Failure(e)
            && s.world.calls == w.calls + [RequestFor(cfg, p)]
            && s.world.slept == w.slept
            && s.world.sessions == Updated(w.sessions, p.sessionId, FailurePatch(e.message).(retries := Some(1)))
            && s.cache == cache
  {
    var req := RequestFor(cfg, p);
    NonRetryableShortCircuits(script, w, req, p.sessionId, DEFAULT_RETRIES, DEFAULT_DELAY, e);
    var given := GiveUpPatch(1, e.message);
    LaterPatchWins(w.sessions[p.sessionId], given, FailurePatch(e.message));
    assert Then(given, FailurePatch(e.message)) == FailurePatch(e.message).(retries := Some(1));
  }

  /** On a miss whose first attempt throws `null` or `undefined`, the loop's read of the
      message throws a `TypeError`, and the catch records that `TypeError`'s message. */
  lemma GenerateNullishThrow(script: nat -> Completion, cfg: Config, w: World, cache: map<Key, CacheEntry>,
                             p: Params, isNull: bool)
    requires CacheKey(cfg, p) !in cache && p.sessionId in w.sessions
    requires script(|w.calls|) == Raised(Nullish(isNull))
    ensures var s := GenerateSpec(script, cfg, w, cache, p);
            var typeError := PropertyReadError(if isNull then "null" else "undefined", "message");
            && s.result == Failure(typeError)
            && s.world.calls == w.calls + [RequestFor(cfg, p)]
            && s.world.slept == w.slept
            && s.world.sessions == Updated(w.sessions, p.sessionId, FailurePatch(typeError.message))
            && s.cache == cache
  {
    NullishThrowEscapes(script, w, RequestFor(cfg, p), p.sessionId, DEFAULT_RETRIES, DEFAULT_DELAY, isNull);
  }

  /** Every call from `w` to `w'` went out with the settings of `mode` and asked for JSON. */
  predicate AskedIn(w: World, w': World, cfg: Config, mode: Mode) {
    && |w.calls| <= |w'.calls|
    && forall i :: |w.calls| <= i < |w'.calls| ==>
         && w'.calls[i].model == ModelFor(cfg, mode)
         && w'.calls[i].maxTokens == (if mode == Build then 16000 else 2048)
         && w'.calls[i].json
  }

  lemma OnlyAskedIn(w: World, w': World, cfg: Config, p: Params)
    requires OnlyAsked(w, w', RequestFor(cfg, p)) && p.json
    ensures AskedIn(w, w', cfg, p.mode)
  {
  }

  /** What any stage does to the world and the cache in one call: provider calls in the
      stage's mode, no change to any session but its own, entries added to the cache, and no
      change to its own session but a failure mark unless the stage returned a truthy value. */
  predicate StageStep(w: World, cache: map<Key, CacheEntry>, st: Step, cfg: Config, mode: Mode, sessionId: Id) {
    && AskedIn(w, st.world, cfg, mode)
    && OthersUnchanged(w.sessions, st.world.sessions, sessionId)
    && Extends(cache, st.cache)
    && ((st.result.Success? && Truthy(st.result.value)) || FailOnly(w.sessions, st.world.sessions, sessionId))
  }
}
