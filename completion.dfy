/**
 * One provider attempt: the closure that the gateway hands to the retry loop
 * (packages/model/llm/index.ts, lines 46-66). It asks the provider once, fails the session and
 * throws when the answer has no content, and otherwise returns the parsed JSON.
 */
module ProviderCall {
  import opened Wrappers
  import opened Types
  import opened LlmErrors
  import opened Db
  import opened Effects

  const NO_CONTENT := "No content in LLM response"

  /** The attempt as a function of the world: the outcome scripted for the next call decides. */
  function AttemptSpec(script: nat -> Completion, w: World, req: Request, sessionId: Id): (o: Outcome)
    ensures RoundStep(w, o.world, req, sessionId)
    ensures o.world.calls == w.calls + [req] && o.world.slept == w.slept
    ensures o.result.Success? ==> o.world.sessions == w.sessions
  {
    var asked := w.(calls := w.calls + [req]);
    match script(|w.calls|)
    case Raised(e) => Outcome(Failure(e), asked)
    case Answered(content, parsed) =>
      if content == "" then
        if sessionId in asked.sessions then
          FailureWriteFailsOnly(asked.sessions, sessionId, NO_CONTENT, None);
          Outcome(Failure(PlainError(NO_CONTENT)),
                  asked.(sessions := Updated(asked.sessions, sessionId, FailurePatch(NO_CONTENT))))
        else
          Outcome(Failure(RecordNotFound), asked)
      else
        match parsed
        case Success(j) => Outcome(Success(j), asked)
        case Failure(syntax) => Outcome(Failure(PlainError(syntax)), asked)
  }

  /** An attempt succeeds exactly when the answer has content that parses, and returns the
      parsed value; an empty answer fails the session with "No content in LLM response" and
      throws that message. */
  lemma AttemptOutcome(script: nat -> Completion, w: World, req: Request, sessionId: Id)
    ensures var o := AttemptSpec(script, w, req, sessionId);
            var c := script(|w.calls|);
            && (o.result.Success? <==> c.Answered? && c.content != "" && c.parsed.Success?)
            && (o.result.Success? ==> o.result.value == c.parsed.value)
            && (c.Answered? && c.content == "" && sessionId in w.sessions ==>
                  && o.result == Failure(PlainError(NO_CONTENT))
                  && o.world.sessions == Updated(w.sessions, sessionId, FailurePatch(NO_CONTENT)))
  {
  }

  /** The attempt itself. `slept` only names the sleep record, which an attempt leaves alone. */
  method Attempt(store: Store, provider: Provider, req: Request, sessionId: Id, ghost slept: seq<int>)
    returns (r: Result<Json, Exception>)
    modifies store, provider
    ensures Outcome(r, World(store.sessions, provider.calls, slept))
         == AttemptSpec(provider.script, World(old(store.sessions), old(provider.calls), slept), req, sessionId)
  {
    var c := provider.Call(req);
    match c
    case Raised(e) =>
      r := Failure(e);
    case Answered(content, parsed) =>
      if content == "" {
        var found := store.Update(sessionId, FailurePatch(NO_CONTENT));
        if !found {
          r := Failure(RecordNotFound);
          return;
        }
        r := Failure(PlainError(NO_CONTENT));
      } else {
        match parsed
        case Success(j) =>
          r := Success(j);
        case Failure(syntax) =>
          r := Failure(PlainError(syntax));
      }
  }
}
