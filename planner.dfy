/**
 * `PlannerAgent.plan` of packages/agents/planner.ts: the second stage. It asks the gateway in
 * planning mode for a JSON game plan built from the idea and the clarified requirements, and
 * on a truthy response stores the plan and moves the session to BUILDING.
 */
module Planner {
  import opened Wrappers
  import opened Types
  import opened Text
  import opened LlmErrors
  import opened Db
  import opened Effects
  import opened Gateway

  /** The system prompt, abbreviated to its first line. */
  const SYSTEM_PROMPT := "You are an expert game architect. Given a set of clarified game requirements, produce a structured game plan."

  function PlannerPrompt(clarifiedRequirements: string, gameIdea: string): string {
    "\n        Game Idea: " + gameIdea
    + "\n        Clarified Requirements: " + clarifiedRequirements
    + "\n\n        Create a detailed game plan based on these requirements.\n        "
  }

  function PlannerParams(sessionId: Id, prompt: string): Params {
    Params(SYSTEM_PROMPT, prompt, Plan, true, sessionId)
  }

  /** The write on a truthy response. */
  function PlanPatch(j: Json): Patch {
    NoChange.(status := Some(Building), plan := Some(j))
  }

  /** `after` is `before` with the plan `j` stored and the session BUILDING; every other
      column is as it was. */
  predicate Planned(before: Session, after: Session, j: Json) {
    && after.id == before.id && after.prompt == before.prompt
    && after.status == Building
    && after.plan == j
    && after.clarification == before.clarification && after.code == before.code
    && after.error == before.error && after.retries == before.retries
  }

  /** What `plan` does with the gateway's step `g`: a truthy value is stored as the plan, with
      BUILDING; anything else is passed on as it is. */
  function PlanAfter(g: Step, sessionId: Id): Step {
    if g.result.Failure? || !Truthy(g.result.value) then
      g
    else if sessionId !in g.world.sessions then
      Step(Failure(RecordNotFound), g.world, g.cache)
    else
      Step(g.result, g.world.(sessions := Updated(g.world.sessions, sessionId, PlanPatch(g.result.value))), g.cache)
  }

  /** The write after the gateway step, for any step that behaves as the gateway promises. */
  lemma PlanAfterWrites(w: World, cache: map<Key, CacheEntry>, g: Step, req: Request, sessionId: Id)
    requires RoundStep(w, g.world, req, sessionId) && Extends(cache, g.cache)
    requires g.result.Success? ==> g.world.sessions == w.sessions
    requires g.result.Failure? && sessionId in w.sessions ==>
               g.world.sessions[sessionId].status == Failed && g.world.sessions[sessionId].error == Some(CaughtMessage(g.result.error))
    ensures var s := PlanAfter(g, sessionId);
            && OnlyAsked(w, s.world, req)
            && OthersUnchanged(w.sessions, s.world.sessions, sessionId)
            && Extends(cache, s.cache)
            && (s.result.Success? && Truthy(s.result.value) ==>
                  sessionId in w.sessions && Planned(w.sessions[sessionId], s.world.sessions[sessionId], s.result.value))
            && (s.result.Failure? || !Truthy(s.result.value) ==> FailOnly(w.sessions, s.world.sessions, sessionId))
            && (s.result.Failure? && sessionId in w.sessions ==>
                  && s.world.sessions[sessionId].status == Failed
                  && s.world.sessions[sessionId].error == Some(CaughtMessage(s.result.error)))
  {
  }

  /** `plan` as a function of the world and the cache. */
  function PlanSpec(script: nat -> Completion, cfg: Config, w: World, cache: map<Key, CacheEntry>,
                    sessionId: Id, clarifiedRequirements: string, gameIdea: string): (s: Step)
    ensures OnlyAsked(w, s.world, RequestFor(cfg, PlannerParams(sessionId, PlannerPrompt(clarifiedRequirements, gameIdea))))
    ensures OthersUnchanged(w.sessions, s.world.sessions, sessionId)
    ensures Extends(cache, s.cache)
    ensures s.result.Success? && Truthy(s.result.value) ==>
              sessionId in w.sessions && Planned(w.sessions[sessionId], s.world.sessions[sessionId], s.result.value)
    ensures s.result.Failure? || !Truthy(s.result.value) ==> FailOnly(w.sessions, s.world.sessions, sessionId)
    ensures s.result.Failure? && sessionId in w.sessions ==>
              && s.world.sessions[sessionId].status == Failed
              && s.world.sessions[sessionId].error == Some(CaughtMessage(s.result.error))
  {
    var p := PlannerParams(sessionId, PlannerPrompt(clarifiedRequirements, gameIdea));
    var g := GenerateSpec(script, cfg, w, cache, p);
    PlanAfterWrites(w, cache, g, RequestFor(cfg, p), sessionId);
    PlanAfter(g, sessionId)
  }

  class PlannerAgent {
    const llm: LLM
    const sessionId: Id

    constructor(llm: LLM, sessionId: Id)
      ensures this.llm == llm && this.sessionId == sessionId
    {
      this.llm := llm;
      this.sessionId := sessionId;
    }

    method Plan(clarifiedRequirements: string, gameIdea: string) returns (r: Result<Json, Exception>)
      modifies llm.store, llm.cache, llm.provider, llm.clock
      ensures Step(r, llm.Now(), llm.cache.entries)
           == PlanSpec(llm.provider.script, llm.config, old(llm.Now()), old(llm.cache.entries),
                       sessionId, clarifiedRequirements, gameIdea)
    {
      var prompt := PlannerPrompt(clarifiedRequirements, gameIdea);
      r := llm.Generate(PlannerParams(sessionId, prompt));
      if r.Success? && Truthy(r.value) {
        var found := llm.store.Update(sessionId, PlanPatch(r.value));
        if !found {
          r := Failure(RecordNotFound);
        }
      }
    }
  }

  /** The planner's prompt carries both the idea and the clarified requirements. */
  lemma PlannerPromptMentions(clarifiedRequirements: string, gameIdea: string)
    ensures Contains(PlannerPrompt(clarifiedRequirements, gameIdea), gameIdea)
    ensures Contains(PlannerPrompt(clarifiedRequirements, gameIdea), clarifiedRequirements)
  {
    var p1 := "\n        Game Idea: " + gameIdea;
    var p2 := p1 + "\n        Clarified Requirements: ";
    var p3 := p2 + clarifiedRequirements;
    var tail := "\n\n        Create a detailed game plan based on these requirements.\n        ";
    assert PlannerPrompt(clarifiedRequirements, gameIdea) == p3 + tail;
    ContainsItself(gameIdea);
    ContainsSuffix("\n        Game Idea: ", gameIdea, gameIdea);
    ContainsPrefix(p1, "\n        Clarified Requirements: ", gameIdea);
    ContainsPrefix(p2, clarifiedRequirements, gameIdea);
    ContainsPrefix(p3, tail, gameIdea);
    ContainsItself(clarifiedRequirements);
    ContainsSuffix(p2, clarifiedRequirements, clarifiedRequirements);
    ContainsPrefix(p3, tail, clarifiedRequirements);
  }

  /** Planning a session whose clarification is stored keeps the table invariant. */
  lemma PlanKeepsConsistent(script: nat -> Completion, cfg: Config, w: World, cache: map<Key, CacheEntry>,
                            sessionId: Id, clarifiedRequirements: string, gameIdea: string)
    requires AllConsistent(w.sessions)
    requires sessionId in w.sessions ==> w.sessions[sessionId].clarification != Null
    ensures AllConsistent(PlanSpec(script, cfg, w, cache, sessionId, clarifiedRequirements, gameIdea).world.sessions)
  {
    var s := PlanSpec(script, cfg, w, cache, sessionId, clarifiedRequirements, gameIdea);
    if s.result.Success? && Truthy(s.result.value) {
      ConsistentAfter(w.sessions, s.world.sessions, sessionId);
    } else {
      FailOnlyKeepsConsistent(w.sessions, s.world.sessions, sessionId);
    }
  }

  /** The planner is a stage in planning mode. */
  lemma PlanIsStage(script: nat -> Completion, cfg: Config, w: World, cache: map<Key, CacheEntry>,
                    sessionId: Id, clarifiedRequirements: string, gameIdea: string)
    ensures StageStep(w, cache, PlanSpec(script, cfg, w, cache, sessionId, clarifiedRequirements, gameIdea), cfg, Plan, sessionId)
  {
    OnlyAskedIn(w, PlanSpec(script, cfg, w, cache, sessionId, clarifiedRequirements, gameIdea).world, cfg,
                PlannerParams(sessionId, PlannerPrompt(clarifiedRequirements, gameIdea)));
  }

  /** The gateway's answer is returned as it is, and a falsy answer or a failure adds no write
      of the planner's own to what the gateway did. */
  lemma PlanPassesThrough(script: nat -> Completion, cfg: Config, w: World, cache: map<Key, CacheEntry>,
                          sessionId: Id, clarifiedRequirements: string, gameIdea: string)
    requires sessionId in w.sessions
    ensures var g := GenerateSpec(script, cfg, w, cache, PlannerParams(sessionId, PlannerPrompt(clarifiedRequirements, gameIdea)));
            var s := PlanSpec(script, cfg, w, cache, sessionId, clarifiedRequirements, gameIdea);
            && s.result == g.result && s.cache == g.cache && s.world.calls == g.world.calls
            && (g.result.Failure? || !Truthy(g.result.value) ==> s.world == g.world)
  {
  }
}
