/**
 * `ClarifierAgent.clarify` of packages/agents/clarifer.ts: the first stage. It builds a prompt
 * from the game idea, or from the previous clarification and the user's answer, asks the
 * gateway in planning mode for a JSON clarification, and on a truthy response stores it and
 * moves the session to CLARIFYING, then to PLANNING when the response says it is sufficient.
 */
module Clarifier {
  import opened Wrappers
  import opened Types
  import opened Text
  import opened LlmErrors
  import opened Db
  import opened Effects
  import opened Gateway

  /** The system prompt, abbreviated to its first line. */
  const SYSTEM_PROMPT := "You are a game design consultant helping clarify a game idea before it gets built."
  /** The instructions appended to a follow-up prompt, abbreviated to their first line. */
  const FOLLOWUP_PROMPT := "The user has answered your previous questions. Analyze their responses along with the original game idea."

  /** The prompt of a first round. */
  function InitialPrompt(gameIdea: string): string {
    "Game idea: " + gameIdea + "\n Analyze the game idea and ask questions to clarify the requirements.\n"
  }

  /** The recap of a follow-up round: what the last clarification summarised and asked, and
      the user's answer. */
  function HistoryPrompt(c: ClarificationResponse, answer: string): string {
    "\n            PREVIOUS SUMMARY: " + c.summary
    + "\n            OPEN QUESTIONS: " + Join(c.questions, ", ")
    + "\n            USER ANSWER: " + answer
    + "\n            "
  }

  /** The prompt for `gameIdea` and the stored history; a truthy history without a
      `questions` array makes `questions.join` throw. */
  function ClarifierPrompt(gameIdea: string, history: Json): Result<string, Exception> {
    match history
    case Null => Success(InitialPrompt(gameIdea))
    case ClarificationJson(c) => Success(HistoryPrompt(c, gameIdea) + FOLLOWUP_PROMPT)
    case _ => Failure(PropertyReadError("undefined", "join"))
  }

  function ClarifierParams(sessionId: Id, prompt: string): Params {
    Params(SYSTEM_PROMPT, prompt, Plan, true, sessionId)
  }

  /** `if (response.isSufficient)`: only a clarification can say so. */
  predicate IsSufficient(j: Json) {
    j.ClarificationJson? && j.clarification.isSufficient
  }

  /** The first write on a truthy response. */
  function ClarificationPatch(j: Json): Patch {
    NoChange.(status := Some(Clarifying), clarification := Some(j))
  }

  /** `after` is `before` with the clarification `j` stored and the status it calls for;
      every other column is as it was. */
  predicate Clarified(before: Session, after: Session, j: Json) {
    && after.id == before.id && after.prompt == before.prompt
    && after.status == (if IsSufficient(j) then Planning else Clarifying)
    && after.clarification == j
    && after.plan == before.plan && after.code == before.code
    && after.error == before.error && after.retries == before.retries
  }

  /** What `clarify` does with the gateway's step `g`: a truthy value is stored as the
      clarification, with the status it calls for; anything else is passed on as it is. */
  function ClarifyAfter(g: Step, sessionId: Id): Step {
    if g.result.Failure? || !Truthy(g.result.value) then
      g
    else if sessionId !in g.world.sessions then
      Step(Failure(RecordNotFound), g.world, g.cache)
    else
      var recorded := Updated(g.world.sessions, sessionId, ClarificationPatch(g.result.value));
      var sessions := if IsSufficient(g.result.value) then Updated(recorded, sessionId, StatusPatch(Planning)) else recorded;
      Step(g.result, g.world.(sessions := sessions), g.cache)
  }

  /** The writes after the gateway step, for any step that behaves as the gateway promises. */
  lemma ClarifyAfterWrites(w: World, cache: map<Key, CacheEntry>, g: Step, req: Request, sessionId: Id)
    requires RoundStep(w, g.world, req, sessionId) && Extends(cache, g.cache)
    requires g.result.Success? ==> g.world.sessions == w.sessions
    requires g.result.Failure? && sessionId in w.sessions ==>
               g.world.sessions[sessionId].status == Failed && g.world.sessions[sessionId].error == Some(CaughtMessage(g.result.error))
    ensures var s := ClarifyAfter(g, sessionId);
            && OnlyAsked(w, s.world, req)
            && OthersUnchanged(w.sessions, s.world.sessions, sessionId)
            && Extends(cache, s.cache)
            && (s.result.Success? && Truthy(s.result.value) ==>
                  sessionId in w.sessions && Clarified(w.sessions[sessionId], s.world.sessions[sessionId], s.result.value))
            && (s.result.Failure? || !Truthy(s.result.value) ==> FailOnly(w.sessions, s.world.sessions, sessionId))
            && (s.result.Failure? && sessionId in w.sessions ==>
                  && s.world.sessions[sessionId].status == Failed
                  && s.world.sessions[sessionId].error == Some(CaughtMessage(s.result.error)))
  {
  }

  /** `clarify` as a function of the world and the cache. */
  function ClarifySpec(script: nat -> Completion, cfg: Config, w: World, cache: map<Key, CacheEntry>,
                       sessionId: Id, gameIdea: string, history: Json): (s: Step)
    ensures ClarifierPrompt(gameIdea, history).Failure? ==>
              s == Step(Failure(ClarifierPrompt(gameIdea, history).error), w, cache)
    ensures ClarifierPrompt(gameIdea, history).Success? ==>
              OnlyAsked(w, s.world, RequestFor(cfg, ClarifierParams(sessionId, ClarifierPrompt(gameIdea, history).value)))
    ensures OthersUnchanged(w.sessions, s.world.sessions, sessionId)
    ensures Extends(cache, s.cache)
    ensures s.result.Success? && Truthy(s.result.value) ==>
              sessionId in w.sessions && Clarified(w.sessions[sessionId], s.world.sessions[sessionId], s.result.value)
    ensures s.result.Failure? || !Truthy(s.result.value) ==> FailOnly(w.sessions, s.world.sessions, sessionId)
    ensures s.result.Failure? && sessionId in w.sessions && ClarifierPrompt(gameIdea, history).Success? ==>
              && s.world.sessions[sessionId].status == Failed
              && s.world.sessions[sessionId].error == Some(CaughtMessage(s.result.error))
  {
    match ClarifierPrompt(gameIdea, history)
    case Failure(e) => Step(Failure(e), w, cache)
    case Success(prompt) =>
      var p := ClarifierParams(sessionId, prompt);
      var g := GenerateSpec(script, cfg, w, cache, p);
      ClarifyAfterWrites(w, cache, g, RequestFor(cfg, p), sessionId);
      ClarifyAfter(g, sessionId)
  }

  class ClarifierAgent {
    const llm: LLM
    const sessionId: Id

    constructor(llm: LLM, sessionId: Id)
      ensures this.llm == llm && this.sessionId == sessionId
    {
      this.llm := llm;
      this.sessionId := sessionId;
    }

    method Clarify(gameIdea: string, history: Json := Null) returns (r: Result<Json, Exception>)
      modifies llm.store, llm.cache, llm.provider, llm.clock
      ensures Step(r, llm.Now(), llm.cache.entries)
           == ClarifySpec(llm.provider.script, llm.config, old(llm.Now()), old(llm.cache.entries),
                          sessionId, gameIdea, history)
    {
      var prompt := ClarifierPrompt(gameIdea, history);
      if prompt.Failure? {
        return Failure(prompt.error);
      }
      r := llm.Generate(ClarifierParams(sessionId, prompt.value));
      if r.Success? && Truthy(r.value) {
        var found := llm.store.Update(sessionId, ClarificationPatch(r.value));
        if !found {
          return Failure(RecordNotFound);
        }
        if IsSufficient(r.value) {
          found := llm.store.Update(sessionId, StatusPatch(Planning));
        }
      }
    }
  }

  /** A first-round prompt carries the idea; a follow-up carries the previous summary, every
      open question, the answer and the follow-up instructions; any other history is a
      `TypeError`. */
  lemma ClarifierPromptMentions(gameIdea: string, history: Json)
    ensures history == Null ==>
              && ClarifierPrompt(gameIdea, history) == Success(InitialPrompt(gameIdea))
              && Contains(InitialPrompt(gameIdea), gameIdea)
    ensures history.ClarificationJson? ==>
              && ClarifierPrompt(gameIdea, history).Success?
              && var p := ClarifierPrompt(gameIdea, history).value;
              && Contains(p, history.clarification.summary)
              && Contains(p, gameIdea)
              && Contains(p, FOLLOWUP_PROMPT)
              && forall q :: q in history.clarification.questions ==> Contains(p, q)
    ensures history != Null && !history.ClarificationJson? ==>
              ClarifierPrompt(gameIdea, history) == Failure(PropertyReadError("undefined", "join"))
  {
    InfixOccurs("Game idea: ", gameIdea, "\n Analyze the game idea and ask questions to clarify the requirements.\n");
    if history.ClarificationJson? {
      FollowUpMentions(history.clarification, gameIdea);
    }
  }

  /** The follow-up prompt, walked concatenation by concatenation. */
  lemma FollowUpMentions(c: ClarificationResponse, answer: string)
    ensures var p := HistoryPrompt(c, answer) + FOLLOWUP_PROMPT;
            && Contains(p, c.summary) && Contains(p, answer) && Contains(p, FOLLOWUP_PROMPT)
            && forall q :: q in c.questions ==> Contains(p, q)
  {
    var head := "\n            PREVIOUS SUMMARY: ";
    var mid := "\n            OPEN QUESTIONS: ";
    var before := "\n            USER ANSWER: ";
    var nl := "\n            ";
    var joined := Join(c.questions, ", ");
    var p1 := head + c.summary;
    var p2 := p1 + mid;
    var p3 := p2 + joined;
    var p4 := p3 + before;
    var p5 := p4 + answer;
    var p6 := p5 + nl;
    var p := p6 + FOLLOWUP_PROMPT;
    assert HistoryPrompt(c, answer) == p6;
    ContainsItself(c.summary);
    ContainsSuffix(head, c.summary, c.summary);
    ContainsPrefix(p1, mid, c.summary);
    ContainsPrefix(p2, joined, c.summary);
    ContainsPrefix(p3, before, c.summary);
    ContainsPrefix(p4, answer, c.summary);
    ContainsPrefix(p5, nl, c.summary);
    ContainsPrefix(p6, FOLLOWUP_PROMPT, c.summary);
    ContainsItself(answer);
    ContainsSuffix(p4, answer, answer);
    ContainsPrefix(p5, nl, answer);
    ContainsPrefix(p6, FOLLOWUP_PROMPT, answer);
    ContainsItself(FOLLOWUP_PROMPT);
    ContainsSuffix(p6, FOLLOWUP_PROMPT, FOLLOWUP_PROMPT);
    JoinMentions(c.questions, ", ");
    forall q | q in c.questions
      ensures Contains(p, q)
    {
      assert Contains(joined, q);
      ContainsSuffix(p2, joined, q);
      ContainsPrefix(p3, before, q);
      ContainsPrefix(p4, answer, q);
      ContainsPrefix(p5, nl, q);
      ContainsPrefix(p6, FOLLOWUP_PROMPT, q);
    }
  }

  /** The clarifier keeps the table invariant: it only ever stores a truthy clarification
      together with the status that needs it. */
  lemma ClarifyKeepsConsistent(script: nat -> Completion, cfg: Config, w: World, cache: map<Key, CacheEntry>,
                               sessionId: Id, gameIdea: string, history: Json)
    requires AllConsistent(w.sessions)
    ensures AllConsistent(ClarifySpec(script, cfg, w, cache, sessionId, gameIdea, history).world.sessions)
  {
    var s := ClarifySpec(script, cfg, w, cache, sessionId, gameIdea, history);
    if s.result.Success? && Truthy(s.result.value) {
      var after := s.world.sessions[sessionId];
      assert Clarified(w.sessions[sessionId], after, s.result.value);
      assert after.id == sessionId && Consistent(after);
      ConsistentAfter(w.sessions, s.world.sessions, sessionId);
    } else {
      FailOnlyKeepsConsistent(w.sessions, s.world.sessions, sessionId);
    }
  }

  /** The move to PLANNING is decided by `isSufficient` alone: a sufficient clarification
      moves the session on whatever its confidence, and an insufficient one never does. */
  lemma SufficiencyDecides(script: nat -> Completion, cfg: Config, w: World, cache: map<Key, CacheEntry>,
                           sessionId: Id, gameIdea: string, history: Json)
    requires sessionId in w.sessions
    ensures var s := ClarifySpec(script, cfg, w, cache, sessionId, gameIdea, history);
            s.result.Success? && Truthy(s.result.value) ==>
              (s.world.sessions[sessionId].status == Planning <==> IsSufficient(s.result.value))
  {
  }

  /** The clarifier is a stage in planning mode. */
  lemma ClarifyIsStage(script: nat -> Completion, cfg: Config, w: World, cache: map<Key, CacheEntry>,
                       sessionId: Id, gameIdea: string, history: Json)
    ensures StageStep(w, cache, ClarifySpec(script, cfg, w, cache, sessionId, gameIdea, history), cfg, Plan, sessionId)
  {
    var prompt := ClarifierPrompt(gameIdea, history);
    if prompt.Success? {
      OnlyAskedIn(w, ClarifySpec(script, cfg, w, cache, sessionId, gameIdea, history).world, cfg, ClarifierParams(sessionId, prompt.value));
    }
  }

  /** The gateway's answer is returned as it is, and a falsy answer or a failure adds no write
      of the clarifier's own to what the gateway did. */
  lemma ClarifyPassesThrough(script: nat -> Completion, cfg: Config, w: World, cache: map<Key, CacheEntry>,
                             sessionId: Id, gameIdea: string, history: Json)
    requires ClarifierPrompt(gameIdea, history).Success? && sessionId in w.sessions
    ensures var g := GenerateSpec(script, cfg, w, cache, ClarifierParams(sessionId, ClarifierPrompt(gameIdea, history).value));
            var s := ClarifySpec(script, cfg, w, cache, sessionId, gameIdea, history);
            && s.result == g.result && s.cache == g.cache && s.world.calls == g.world.calls
            && (g.result.Failure? || !Truthy(g.result.value) ==> s.world == g.world)
  {
  }
}
