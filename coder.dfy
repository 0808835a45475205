/**
 * `CoderAgent.build` of packages/agents/coder.ts: the last stage. It picks the system prompt
 * by the plan's framework, lays the plan out as a prompt, asks the gateway in build mode for
 * the game's files as JSON, and on a truthy response stores them and completes the session.
 * The response is stored as it comes: nothing checks its files.
 */
module Coder {
  import opened Wrappers
  import opened Types
  import opened Text
  import opened LlmErrors
  import opened Db
  import opened Effects
  import opened Gateway

  /** The two system prompts, abbreviated to their first sentence. */
  const SYSTEM_PROMPT_VANILLA := "You are an expert JavaScript game developer."
  const SYSTEM_PROMPT_PHASER := "You are an expert Phaser 3 game developer."

  /** Only the exact framework name `vanilla` selects the vanilla prompt. */
  function SystemFor(framework: string): (system: string)
    ensures system == SYSTEM_PROMPT_VANILLA <==> framework == "vanilla"
    ensures system == SYSTEM_PROMPT_PHASER <==> framework != "vanilla"
  {
    if framework == "vanilla" then SYSTEM_PROMPT_VANILLA else SYSTEM_PROMPT_PHASER
  }

  function MechanicLine(m: Mechanic): string {
    "- " + m.name + ": " + m.description
  }

  function ControlLine(c: Control): string {
    "- " + c.input + " → " + c.action
  }

  function AssetLine(a: string): string {
    "- " + a
  }

  /** `xs.map(f)`, written out for the three bullet lists. */
  function MechanicLines(ms: seq<Mechanic>): (lines: seq<string>)
    ensures |lines| == |ms|
    ensures forall i :: 0 <= i < |ms| ==> lines[i] == MechanicLine(ms[i])
  {
    if ms == [] then [] else [MechanicLine(ms[0])] + MechanicLines(ms[1..])
  }

  function ControlLines(cs: seq<Control>): (lines: seq<string>)
    ensures |lines| == |cs|
    ensures forall i :: 0 <= i < |cs| ==> lines[i] == ControlLine(cs[i])
  {
    if cs == [] then [] else [ControlLine(cs[0])] + ControlLines(cs[1..])
  }

  function AssetLines(assets: seq<string>): (lines: seq<string>)
    ensures |lines| == |assets|
    ensures forall i :: 0 <= i < |assets| ==> lines[i] == AssetLine(assets[i])
  {
    if assets == [] then [] else [AssetLine(assets[0])] + AssetLines(assets[1..])
  }

  /** The indentation of the prompt's template. */
  const Indent := "\n            "

  /** The pieces of the build prompt, in order; the prompt is their concatenation. */
  function PromptPieces(p: PlanResponse): seq<string> {
    [ "\n        Build the following game:\n",
      Indent + "Title: ", p.title,
      Indent + "Description: ", p.description,
      Indent + "Framework: ", p.framework,
      "\n" + Indent + "Mechanics:" + Indent, Join(MechanicLines(p.mechanics), "\n"),
      "\n" + Indent + "Controls:" + Indent, Join(ControlLines(p.controls), "\n"),
      "\n" + Indent + "Systems: ", Join(p.systems, ", "),
      "\n" + Indent + "Assets (use shapes/colors, no external files):" + Indent, Join(AssetLines(p.assetDescriptions), "\n"),
      "\n" + Indent + "Game Loop:" + Indent, p.gameLoopDescription,
      "\n" + Indent + "Generate the complete game code now.\n        " ]
  }

  function CoderPrompt(p: PlanResponse): string {
    Join(PromptPieces(p), "")
  }

  /**
   * The plan `build` is given, as the fields it reads: `plan.framework` throws on `null`, and a
   * value that is not a plan has no `mechanics` to `map`.
   */
  function CoderPlan(plan: Json): Result<PlanResponse, Exception> {
    match plan
    case Null => Failure(PropertyReadError("null", "framework"))
    case PlanJson(p) => Success(p)
    case _ => Failure(PropertyReadError("undefined", "map"))
  }

  function CoderParams(sessionId: Id, p: PlanResponse): Params {
    Params(SystemFor(p.framework), CoderPrompt(p), Build, true, sessionId)
  }

  /** The write on a truthy response. */
  function CodePatch(j: Json): Patch {
    NoChange.(status := Some(Completed), code := Some(j))
  }

  /** `after` is `before` with the code `j` stored and the session COMPLETED; every other
      column is as it was. */
  predicate Built(before: Session, after: Session, j: Json) {
    && after.id == before.id && after.prompt == before.prompt
    && after.status == Completed
    && after.code == j
    && after.clarification == before.clarification && after.plan == before.plan
    && after.error == before.error && after.retries == before.retries
  }

  /** What `build` does with the gateway's step `g`: a truthy value is stored as the code, with
      COMPLETED; anything else is passed on as it is. */
  function BuildAfter(g: Step, sessionId: Id): Step {
    if g.result.Failure? || !Truthy(g.result.value) then
      g
    else if sessionId !in g.world.sessions then
      Step(Failure(RecordNotFound), g.world, g.cache)
    else
      Step(g.result, g.world.(sessions := Updated(g.world.sessions, sessionId, CodePatch(g.result.value))), g.cache)
  }

  /** The write after the gateway step, for any step that behaves as the gateway promises. */
  lemma BuildAfterWrites(w: World, cache: map<Key, CacheEntry>, g: Step, req: Request, sessionId: Id)
    requires RoundStep(w, g.world, req, sessionId) && Extends(cache, g.cache)
    requires g.result.Success? ==> g.world.sessions == w.sessions
    requires g.result.Failure? && sessionId in w.sessions ==>
               g.world.sessions[sessionId].status == Failed && g.world.sessions[sessionId].error == Some(CaughtMessage(g.result.error))
    ensures var s := BuildAfter(g, sessionId);
            && OnlyAsked(w, s.world, req)
            && OthersUnchanged(w.sessions, s.world.sessions, sessionId)
            && Extends(cache, s.cache)
            && (s.result.Success? && Truthy(s.result.value) ==>
                  sessionId in w.sessions && Built(w.sessions[sessionId], s.world.sessions[sessionId], s.result.value))
            && (s.result.Failure? || !Truthy(s.result.value) ==> FailOnly(w.sessions, s.world.sessions, sessionId))
            && (s.result.Failure? && sessionId in w.sessions ==>
                  && s.world.sessions[sessionId].status == Failed
                  && s.world.sessions[sessionId].error == Some(CaughtMessage(s.result.error)))
  {
  }

  /** `build` as a function of the world and the cache. */
  function BuildSpec(script: nat -> Completion, cfg: Config, w: World, cache: map<Key, CacheEntry>,
                     sessionId: Id, plan: Json): (s: Step)
    ensures CoderPlan(plan).Failure? ==> s == Step(Failure(CoderPlan(plan).error), w, cache)
    ensures CoderPlan(plan).Success? ==> OnlyAsked(w, s.world, RequestFor(cfg, CoderParams(sessionId, CoderPlan(plan).value)))
    ensures OthersUnchanged(w.sessions, s.world.sessions, sessionId)
    ensures Extends(cache, s.cache)
    ensures s.result.Success? && Truthy(s.result.value) ==>
              sessionId in w.sessions && Built(w.sessions[sessionId], s.world.sessions[sessionId], s.result.value)
    ensures s.result.Failure? || !Truthy(s.result.value) ==> FailOnly(w.sessions, s.world.sessions, sessionId)
    ensures s.result.Failure? && sessionId in w.sessions && CoderPlan(plan).Success? ==>
              && s.world.sessions[sessionId].status == Failed
              && s.world.sessions[sessionId].error == Some(CaughtMessage(s.result.error))
  {
    match CoderPlan(plan)
    case Failure(e) => Step(Failure(e), w, cache)
    case Success(p) =>
      var params := CoderParams(sessionId, p);
      var g := GenerateSpec(script, cfg, w, cache, params);
      BuildAfterWrites(w, cache, g, RequestFor(cfg, params), sessionId);
      BuildAfter(g, sessionId)
  }

  class CoderAgent {
    const llm: LLM
    const sessionId: Id

    constructor(llm: LLM, sessionId: Id)
      ensures this.llm == llm && this.sessionId == sessionId
    {
      this.llm := llm;
      this.sessionId := sessionId;
    }

    method Build(plan: Json) returns (r: Result<Json, Exception>)
      modifies llm.store, llm.cache, llm.provider, llm.clock
      ensures Step(r, llm.Now(), llm.cache.entries)
           == BuildSpec(llm.provider.script, llm.config, old(llm.Now()), old(llm.cache.entries), sessionId, plan)
    {
      var p := CoderPlan(plan);
      if p.Failure? {
        return Failure(p.error);
      }
      r := llm.Generate(CoderParams(sessionId, p.value));
      if r.Success? && Truthy(r.value) {
        var found := llm.store.Update(sessionId, CodePatch(r.value));
        if !found {
          r := Failure(RecordNotFound);
        }
      }
    }
  }

  /** The build prompt lays out the whole plan: title, description, framework, every
      mechanic, control, system and asset as its own bullet or item, and the game loop. */
  lemma CoderPromptMentions(p: PlanResponse)
    ensures var prompt := CoderPrompt(p);
            && Contains(prompt, p.title) && Contains(prompt, p.description)
            && Contains(prompt, p.framework) && Contains(prompt, p.gameLoopDescription)
            && (forall m :: m in p.mechanics ==> Contains(prompt, MechanicLine(m)))
            && (forall c :: c in p.controls ==> Contains(prompt, ControlLine(c)))
            && (forall s :: s in p.systems ==> Contains(prompt, s))
            && (forall a :: a in p.assetDescriptions ==> Contains(prompt, AssetLine(a)))
  {
    var pieces := PromptPieces(p);
    var prompt := CoderPrompt(p);
    JoinMentions(pieces, "");
    assert pieces[2] == p.title && pieces[4] == p.description;
    assert pieces[6] == p.framework && pieces[16] == p.gameLoopDescription;
    assert pieces[8] == Join(MechanicLines(p.mechanics), "\n");
    assert pieces[10] == Join(ControlLines(p.controls), "\n");
    assert pieces[12] == Join(p.systems, ", ");
    assert pieces[14] == Join(AssetLines(p.assetDescriptions), "\n");
    MechanicsMentioned(prompt, p.mechanics);
    ControlsMentioned(prompt, p.controls);
    AssetsMentioned(prompt, p.assetDescriptions);
    forall s | s in p.systems
      ensures Contains(prompt, s)
    {
      JoinedWithin(prompt, p.systems, ", ", s);
    }
  }

  lemma MechanicsMentioned(prompt: string, ms: seq<Mechanic>)
    requires Contains(prompt, Join(MechanicLines(ms), "\n"))
    ensures forall m :: m in ms ==> Contains(prompt, MechanicLine(m))
  {
    forall m | m in ms
      ensures Contains(prompt, MechanicLine(m))
    {
      var i :| 0 <= i < |ms| && ms[i] == m;
      assert MechanicLines(ms)[i] == MechanicLine(m);
      JoinedWithin(prompt, MechanicLines(ms), "\n", MechanicLine(m));
    }
  }

  lemma ControlsMentioned(prompt: string, cs: seq<Control>)
    requires Contains(prompt, Join(ControlLines(cs), "\n"))
    ensures forall c :: c in cs ==> Contains(prompt, ControlLine(c))
  {
    forall c | c in cs
      ensures Contains(prompt, ControlLine(c))
    {
      var i :| 0 <= i < |cs| && cs[i] == c;
      assert ControlLines(cs)[i] == ControlLine(c);
      JoinedWithin(prompt, ControlLines(cs), "\n", ControlLine(c));
    }
  }

  lemma AssetsMentioned(prompt: string, assets: seq<string>)
    requires Contains(prompt, Join(AssetLines(assets), "\n"))
    ensures forall a :: a in assets ==> Contains(prompt, AssetLine(a))
  {
    forall a | a in assets
      ensures Contains(prompt, AssetLine(a))
    {
      var i :| 0 <= i < |assets| && assets[i] == a;
      assert AssetLines(assets)[i] == AssetLine(a);
      JoinedWithin(prompt, AssetLines(assets), "\n", AssetLine(a));
    }
  }

  /** Building a session whose clarification and plan are stored keeps the table invariant. */
  lemma BuildKeepsConsistent(script: nat -> Completion, cfg: Config, w: World, cache: map<Key, CacheEntry>,
                             sessionId: Id, plan: Json)
    requires AllConsistent(w.sessions)
    requires sessionId in w.sessions ==>
               w.sessions[sessionId].clarification != Null && w.sessions[sessionId].plan != Null
    ensures AllConsistent(BuildSpec(script, cfg, w, cache, sessionId, plan).world.sessions)
  {
    var s := BuildSpec(script, cfg, w, cache, sessionId, plan);
    if s.result.Success? && Truthy(s.result.value) {
      ConsistentAfter(w.sessions, s.world.sessions, sessionId);
    } else {
      FailOnlyKeepsConsistent(w.sessions, s.world.sessions, sessionId);
    }
  }

  /** The coder is a stage in build mode. */
  lemma BuildIsStage(script: nat -> Completion, cfg: Config, w: World, cache: map<Key, CacheEntry>,
                     sessionId: Id, plan: Json)
    ensures StageStep(w, cache, BuildSpec(script, cfg, w, cache, sessionId, plan), cfg, Build, sessionId)
  {
    if CoderPlan(plan).Success? {
      OnlyAskedIn(w, BuildSpec(script, cfg, w, cache, sessionId, plan).world, cfg, CoderParams(sessionId, CoderPlan(plan).value));
    }
  }

  /** The gateway's answer is stored and returned as it is, whatever its files and entry
      point, and a falsy answer or a failure adds no write of the coder's own. */
  lemma BuildPassesThrough(script: nat -> Completion, cfg: Config, w: World, cache: map<Key, CacheEntry>,
                           sessionId: Id, plan: PlanResponse)
    requires sessionId in w.sessions
    ensures var g := GenerateSpec(script, cfg, w, cache, CoderParams(sessionId, plan));
            var s := BuildSpec(script, cfg, w, cache, sessionId, PlanJson(plan));
            && s.result == g.result && s.cache == g.cache && s.world.calls == g.world.calls
            && (g.result.Failure? || !Truthy(g.result.value) ==> s.world == g.world)
            && (g.result.Success? && Truthy(g.result.value) ==>
                  s.world.sessions[sessionId].code == g.result.value && s.world.sessions[sessionId].status == Completed)
  {
  }
}
