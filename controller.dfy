/**
 * `Controller.start` of packages/controller/index.ts: one step of the stage machine. It reads
 * the session, runs the stage its status calls for, tags the outcome, and turns any thrown
 * error into a FAILED session and an ERROR outcome carrying the same message.
 */
module Control {
  import opened Wrappers
  import opened Types
  import opened LlmErrors
  import opened Db
  import opened Effects
  import opened Gateway
  import opened Clarifier
  import opened Planner
  import opened Coder

  /** The `type` tag of the controller's output. */
  datatype OutputType = INIT | CLARIFYING | PLANNING | CODING | COMPLETED | ERROR

  /** The `data` of the output: a stage's JSON, the stored code, or a text. `TextData(None)`
      is a failed session whose `error` column is null. */
  datatype Payload = JsonData(json: Json) | TextData(text: Option<string>)

  datatype Output = Output(tag: OutputType, data: Payload)

  /** How `start`'s promise settles: with an output, or rejected when even the catch block's
      write throws. */
  datatype StartResult = Returned(output: Output) | Rejected(thrown: Exception)

  /** A call of `start`: how it settled, and the world and the cache after it. */
  datatype Run = Run(result: StartResult, world: World, cache: map<Key, CacheEntry>)

  const SESSION_NOT_FOUND := "Session not found"
  const UNKNOWN_STATUS := "Unknown session status"

  /** `userMessage ? userMessage : session.prompt`: an empty message counts as none. */
  function AnswerOr(userMessage: Option<string>, prompt: string): string {
    if userMessage.Some? && userMessage.value != "" then userMessage.value else prompt
  }

  /** `(session.clarification as ClarificationResponse).summary`: throws on null, and is the
      text `undefined` when the stored value has no summary. */
  function Requirements(clarification: Json): Result<string, Exception> {
    match clarification
    case Null => Failure(PropertyReadError("null", "summary"))
    case ClarificationJson(c) => Success(c.summary)
    case _ => Success("undefined")
  }

  /** The catch block: mark the session failed with the error's message and report it, unless
      the session is missing, in which case the write itself throws. */
  function Caught(w: World, cache: map<Key, CacheEntry>, sessionId: Id, e: Exception): (run: Run)
    ensures run.cache == cache && run.world.calls == w.calls && run.world.slept == w.slept
    ensures sessionId in w.sessions ==>
              && run.result == Returned(Output(ERROR, TextData(Some(CaughtMessage(e)))))
              && run.world.sessions == Updated(w.sessions, sessionId, FailurePatch(CaughtMessage(e)))
    ensures sessionId !in w.sessions ==> run == Run(Rejected(RecordNotFound), w, cache)
  {
    if sessionId in w.sessions then
      Run(Returned(Output(ERROR, TextData(Some(CaughtMessage(e))))),
          w.(sessions := Updated(w.sessions, sessionId, FailurePatch(CaughtMessage(e)))), cache)
    else
      Run(Rejected(RecordNotFound), w, cache)
  }

  /** The agent call a running status makes, with the arguments it hands over. */
  datatype Call =
    | ClarifyCall(gameIdea: string, history: Json)
    | PlanCall(clarifiedRequirements: string, gameIdea: string)
    | BuildCall(plan: Json)

  /** What the `switch` decides for a session: call an agent under a tag, throw before any
      agent is called, or answer from the stored record. */
  datatype Dispatch = Ran(tag: OutputType, call: Call) | Threw(e: Exception) | Settled(output: Output)

  /** The mode of the stage a status calls for. */
  function StageMode(status: Status): Mode {
    if status == Building then Build else Plan
  }

  /** A running status: one whose branch calls an agent. */
  predicate Running(status: Status) {
    status == Init || status == Clarifying || status == Planning || status == Building
  }

  /** The agent a running status calls: the clarifier for INIT and CLARIFYING, the planner for
      PLANNING, the coder for BUILDING. */
  predicate Fits(status: Status, call: Call) {
    match call
    case ClarifyCall(_, _) => status == Init || status == Clarifying
    case PlanCall(_, _) => status == Planning
    case BuildCall(_) => status == Building
  }

  /** The output of a settled session: its stored code, its stored error, or the fixed text
      for a status the controller does not know. */
  function SettledOutput(s: Session): Output {
    if s.status == Completed then Output(COMPLETED, JsonData(s.code))
    else if s.status == Failed then Output(ERROR, TextData(s.error))
    else Output(ERROR, TextData(Some(UNKNOWN_STATUS)))
  }

  /** The status moves one stage can make. Every stage may also fail, and a stage whose
      provider gives a falsy answer leaves the status where it was. */
  predicate Advance(from: Status, to: Status) {
    || to == from
    || to == Failed
    || (from == Init && (to == Clarifying || to == Planning))
    || (from == Clarifying && to == Planning)
    || (from == Planning && to == Building)
    || (from == Building && to == Completed)
  }

  /** How a stage that returned the truthy `j` leaves the session it ran on, `before` being
      the session as `start` read it: its stage's status and payload are stored. */
  predicate Moved(before: Session, after: Session, j: Json) {
    match before.status
    case Init => Clarified(before, after, j)
    case Clarifying => Clarified(before, after, j)
    case Planning => Planned(before, after, j)
    case Building => Built(before, after, j)
    case _ => false
  }

  /** The tag a returned output may carry for a session that starts in `status`. */
  predicate TagFor(status: Status, tag: OutputType) {
    match status
    case Init => tag == INIT || tag == ERROR
    case Clarifying => tag == CLARIFYING || tag == ERROR
    case Planning => tag == PLANNING || tag == ERROR
    case Building => tag == CODING || tag == ERROR
    case Completed => tag == COMPLETED
    case Failed => tag == ERROR
    case Unrecognized(_) => tag == ERROR
  }

  /** The `switch` of `start` on the session it read. */
  function DispatchSpec(s: Session, userMessage: Option<string>): (d: Dispatch)
    ensures d.Settled? <==> !Running(s.status)
    ensures d.Settled? ==> d.output == SettledOutput(s)
    ensures d.Threw? ==> s.status == Planning && s.clarification == Null
    ensures d.Ran? ==> TagFor(s.status, d.tag) && d.tag != ERROR && Fits(s.status, d.call)
  {
    match s.status
    case Init => Ran(INIT, ClarifyCall(s.prompt, Null))
    case Clarifying => Ran(CLARIFYING, ClarifyCall(AnswerOr(userMessage, s.prompt), s.clarification))
    case Planning =>
      (match Requirements(s.clarification)
       case Failure(e) => Threw(e)
       case Success(summary) => Ran(PLANNING, PlanCall(summary, s.prompt)))
    case Building => Ran(CODING, BuildCall(s.plan))
    case _ => Settled(SettledOutput(s))
  }

  /** What each running status hands its agent: INIT the original prompt and no history,
      CLARIFYING a non-empty user message (else the original prompt) and the stored
      clarification, PLANNING the stored summary and the original prompt, BUILDING the stored
      plan; each under its status's tag. */
  lemma StageArguments(s: Session, userMessage: Option<string>)
    ensures var d := DispatchSpec(s, userMessage);
            && (s.status == Init ==> d == Ran(INIT, ClarifyCall(s.prompt, Null)))
            && (s.status == Clarifying && userMessage.Some? && userMessage.value != "" ==>
                  d == Ran(CLARIFYING, ClarifyCall(userMessage.value, s.clarification)))
            && (s.status == Clarifying && (userMessage.None? || userMessage.value == "") ==>
                  d == Ran(CLARIFYING, ClarifyCall(s.prompt, s.clarification)))
            && (s.status == Planning && s.clarification.ClarificationJson? ==>
                  d == Ran(PLANNING, PlanCall(s.clarification.clarification.summary, s.prompt)))
            && (s.status == Building ==> d == Ran(CODING, BuildCall(s.plan)))
  {
  }

  /** The agent call as a function of the world and the cache. */
  function CallSpec(script: nat -> Completion, cfg: Config, w: World, cache: map<Key, CacheEntry>,
                    sessionId: Id, call: Call): Step {
    match call
    case ClarifyCall(gameIdea, history) => ClarifySpec(script, cfg, w, cache, sessionId, gameIdea, history)
    case PlanCall(clarifiedRequirements, gameIdea) => PlanSpec(script, cfg, w, cache, sessionId, clarifiedRequirements, gameIdea)
    case BuildCall(plan) => BuildSpec(script, cfg, w, cache, sessionId, plan)
  }

  /** Every agent call is a stage in its mode: provider calls with that mode's settings,
      no change to other sessions, cache entries only added, and no change to its own session
      but a failure mark unless the stage returned a truthy value. */
  lemma CallIsStage(script: nat -> Completion, cfg: Config, w: World, cache: map<Key, CacheEntry>,
                    sessionId: Id, call: Call)
    ensures StageStep(w, cache, CallSpec(script, cfg, w, cache, sessionId, call), cfg,
                      if call.BuildCall? then Build else Plan, sessionId)
  {
    var st := CallSpec(script, cfg, w, cache, sessionId, call);
    match call {
      case ClarifyCall(gameIdea, history) =>
        assert st == ClarifySpec(script, cfg, w, cache, sessionId, gameIdea, history);
        ClarifyIsStage(script, cfg, w, cache, sessionId, gameIdea, history);
      case PlanCall(clarifiedRequirements, gameIdea) =>
        assert st == PlanSpec(script, cfg, w, cache, sessionId, clarifiedRequirements, gameIdea);
        PlanIsStage(script, cfg, w, cache, sessionId, clarifiedRequirements, gameIdea);
      case BuildCall(plan) =>
        assert st == BuildSpec(script, cfg, w, cache, sessionId, plan);
        BuildIsStage(script, cfg, w, cache, sessionId, plan);
    }
  }

  /** An agent call that fits its session's status and returns a truthy value leaves the
      session as `Moved` says. */
  lemma CallMoves(script: nat -> Completion, cfg: Config, w: World, cache: map<Key, CacheEntry>,
                  sessionId: Id, call: Call)
    requires sessionId in w.sessions && w.sessions[sessionId].id == sessionId
    requires Fits(w.sessions[sessionId].status, call)
    ensures var st := CallSpec(script, cfg, w, cache, sessionId, call);
            st.result.Success? && Truthy(st.result.value) ==>
              Moved(w.sessions[sessionId], st.world.sessions[sessionId], st.result.value)
  {
    match call {
      case ClarifyCall(gameIdea, history) =>
        ClarifyMoves(script, cfg, w, cache, sessionId, gameIdea, history);
      case PlanCall(clarifiedRequirements, gameIdea) =>
        PlanMoves(script, cfg, w, cache, sessionId, clarifiedRequirements, gameIdea);
      case BuildCall(plan) =>
        BuildMoves(script, cfg, w, cache, sessionId, plan);
    }
  }

  /** A clarification run on a session read in INIT or CLARIFYING moves it as `Moved` says. */
  lemma ClarifyMoves(script: nat -> Completion, cfg: Config, w: World, cache: map<Key, CacheEntry>,
                     sessionId: Id, gameIdea: string, history: Json)
    ensures var st := ClarifySpec(script, cfg, w, cache, sessionId, gameIdea, history);
            && st.result.Success? && Truthy(st.result.value)
            && w.sessions[sessionId].id == sessionId && (w.sessions[sessionId].status == Init || w.sessions[sessionId].status == Clarifying)
            ==> Moved(w.sessions[sessionId], st.world.sessions[sessionId], st.result.value)
  {
  }

  lemma PlanMoves(script: nat -> Completion, cfg: Config, w: World, cache: map<Key, CacheEntry>,
                  sessionId: Id, clarifiedRequirements: string, gameIdea: string)
    ensures var st := PlanSpec(script, cfg, w, cache, sessionId, clarifiedRequirements, gameIdea);
            && st.result.Success? && Truthy(st.result.value)
            && w.sessions[sessionId].id == sessionId && w.sessions[sessionId].status == Planning
            ==> Moved(w.sessions[sessionId], st.world.sessions[sessionId], st.result.value)
  {
  }

  lemma BuildMoves(script: nat -> Completion, cfg: Config, w: World, cache: map<Key, CacheEntry>,
                   sessionId: Id, plan: Json)
    ensures var st := BuildSpec(script, cfg, w, cache, sessionId, plan);
            && st.result.Success? && Truthy(st.result.value)
            && w.sessions[sessionId].id == sessionId && w.sessions[sessionId].status == Building
            ==> Moved(w.sessions[sessionId], st.world.sessions[sessionId], st.result.value)
  {
  }

  /** What the `switch` hands back to `start`'s body: the outcome of a stage with its tag, an
      error thrown before any stage ran, or an output read from the record. */
  datatype Branch = Stepped(tag: OutputType, result: Result<Json, Exception>) | Thrown(e: Exception) | Reported(output: Output)

  /** The `switch` together with the world and the cache it leaves. */
  datatype Switched = Switched(branch: Branch, world: World, cache: map<Key, CacheEntry>)

  /** The `switch` as a function of the world and the cache: the agent call it decides on,
      made for the id stored in the record. */
  function SwitchSpec(script: nat -> Completion, cfg: Config, w: World, cache: map<Key, CacheEntry>,
                      sessionId: Id, userMessage: Option<string>): Switched
    requires sessionId in w.sessions
  {
    var s := w.sessions[sessionId];
    match DispatchSpec(s, userMessage)
    case Ran(tag, call) =>
      var st := CallSpec(script, cfg, w, cache, s.id, call);
      Switched(Stepped(tag, st.result), st.world, st.cache)
    case Threw(e) => Switched(Thrown(e), w, cache)
    case Settled(output) => Switched(Reported(output), w, cache)
  }

  /** `start` as a function of the world and the cache. */
  function StartSpec(script: nat -> Completion, cfg: Config, w: World, cache: map<Key, CacheEntry>,
                     sessionId: Id, userMessage: Option<string>): (run: Run)
  {
    if sessionId !in w.sessions then
      Caught(w, cache, sessionId, PlainError(SESSION_NOT_FOUND))
    else
      Finish(SwitchSpec(script, cfg, w, cache, sessionId, userMessage), sessionId)
  }

  /** The rest of `start` once the `switch` is done: return a stage's value under its tag,
      catch an error, or return the output read from the record. */
  function Finish(sw: Switched, sessionId: Id): Run {
    match sw.branch
    case Stepped(tag, Success(j)) => Run(Returned(Output(tag, JsonData(j))), sw.world, sw.cache)
    case Stepped(_, Failure(e)) => Caught(sw.world, sw.cache, sessionId, e)
    case Thrown(e) => Caught(sw.world, sw.cache, sessionId, e)
    case Reported(output) => Run(Returned(output), sw.world, sw.cache)
  }

  class Controller {
    const llm: LLM
    const sessionId: Id

    /** The source builds its own `LLM`; here it is given, with the environment it runs in. */
    constructor(llm: LLM, sessionId: Id)
      ensures this.llm == llm && this.sessionId == sessionId
    {
      this.llm := llm;
      this.sessionId := sessionId;
    }

    method Start(userMessage: Option<string> := None) returns (r: StartResult)
      modifies llm.store, llm.cache, llm.provider, llm.clock
      ensures Run(r, llm.Now(), llm.cache.entries)
           == StartSpec(llm.provider.script, llm.config, old(llm.Now()), old(llm.cache.entries), sessionId, userMessage)
    {
      var found := llm.store.Find(sessionId);
      if found.None? {
        r := Catch(PlainError(SESSION_NOT_FOUND));
        return;
      }
      var b := Switch(found.value, userMessage);
      match b {
        case Stepped(tag, Success(j)) =>
          r := Returned(Output(tag, JsonData(j)));
        case Stepped(_, Failure(e)) =>
          r := Catch(e);
        case Thrown(e) =>
          r := Catch(e);
        case Reported(output) =>
          r := Returned(output);
      }
    }

    /** The `switch` of `start` on the session it read: the branch its status selects, and
        the agent call that branch makes. */
    method Switch(session: Session, userMessage: Option<string>) returns (b: Branch)
      requires sessionId in llm.store.sessions && session == llm.store.sessions[sessionId]
      modifies llm.store, llm.cache, llm.provider, llm.clock
      ensures Switched(b, llm.Now(), llm.cache.entries)
           == SwitchSpec(llm.provider.script, llm.config, old(llm.Now()), old(llm.cache.entries), sessionId, userMessage)
    {
      SwitchShape(llm.provider.script, llm.config, llm.Now(), llm.cache.entries, sessionId, userMessage);
      var clarifier := new ClarifierAgent(llm, session.id);
      var planner := new PlannerAgent(llm, session.id);
      var builder := new CoderAgent(llm, session.id);
      match DispatchSpec(session, userMessage) {
        case Ran(tag, call) =>
          var step := Invoke(clarifier, planner, builder, call);
          b := Stepped(tag, step);
        case Threw(e) =>
          b := Thrown(e);
        case Settled(output) =>
          b := Reported(output);
      }
    }

    /** The agent call of one branch of the `switch`, on the agents built for the session. */
    method Invoke(clarifier: ClarifierAgent, planner: PlannerAgent, builder: CoderAgent, call: Call)
      returns (r: Result<Json, Exception>)
      requires clarifier.llm == llm && planner.llm == llm && builder.llm == llm
      requires planner.sessionId == clarifier.sessionId && builder.sessionId == clarifier.sessionId
      modifies llm.store, llm.cache, llm.provider, llm.clock
      ensures Step(r, llm.Now(), llm.cache.entries)
           == CallSpec(llm.provider.script, llm.config, old(llm.Now()), old(llm.cache.entries), clarifier.sessionId, call)
    {
      match call {
        case ClarifyCall(gameIdea, history) =>
          r := clarifier.Clarify(gameIdea, history);
        case PlanCall(clarifiedRequirements, gameIdea) =>
          r := planner.Plan(clarifiedRequirements, gameIdea);
        case BuildCall(plan) =>
          r := builder.Build(plan);
      }
    }

    /** The catch block of `start`. */
    method Catch(e: Exception) returns (r: StartResult)
      modifies llm.store
      ensures Run(r, llm.Now(), llm.cache.entries) == Caught(old(llm.Now()), llm.cache.entries, sessionId, e)
    {
      var written := llm.store.Update(sessionId, FailurePatch(CaughtMessage(e)));
      if written {
        r := Returned(Output(ERROR, TextData(Some(CaughtMessage(e)))));
      } else {
        r := Rejected(RecordNotFound);
      }
    }
  }

  /** Every stored result a stage writes comes with the payload its new status needs. */
  lemma MovedKeepsConsistent(before: Session, after: Session, j: Json)
    requires Consistent(before) && Truthy(j) && Moved(before, after, j)
    ensures Consistent(after) && Advance(before.status, after.status) && after.id == before.id
  {
  }

  /** The `switch` on a stored session: the branch it hands back, and
      the world and cache it leaves, from the decision and the agent call made for the id
      stored in the record. */
  lemma SwitchShape(script: nat -> Completion, cfg: Config, w: World, cache: map<Key, CacheEntry>,
                    sessionId: Id, userMessage: Option<string>)
    requires sessionId in w.sessions
    ensures var d := DispatchSpec(w.sessions[sessionId], userMessage);
            var sw := SwitchSpec(script, cfg, w, cache, sessionId, userMessage);
            && (d.Settled? ==> sw == Switched(Reported(d.output), w, cache))
            && (d.Threw? ==> sw == Switched(Thrown(d.e), w, cache))
            && (d.Ran? ==>
                  var st := CallSpec(script, cfg, w, cache, w.sessions[sessionId].id, d.call);
                  sw == Switched(Stepped(d.tag, st.result), st.world, st.cache))
  {
  }

  /** What the `switch` may change, carried up from its agent call: a stage in the mode of
      the session's status that, on a truthy value, moves the session as `Moved` says. */
  lemma SwitchSteps(script: nat -> Completion, cfg: Config, w: World, cache: map<Key, CacheEntry>,
                    sessionId: Id, userMessage: Option<string>)
    requires sessionId in w.sessions && w.sessions[sessionId].id == sessionId
    ensures var s := w.sessions[sessionId];
            var sw := SwitchSpec(script, cfg, w, cache, sessionId, userMessage);
            && (!sw.branch.Stepped? ==> sw.world == w && sw.cache == cache)
            && (sw.branch.Stepped? ==>
                  && TagFor(s.status, sw.branch.tag) && sw.branch.tag != ERROR
                  && StageStep(w, cache, Step(sw.branch.result, sw.world, sw.cache), cfg, StageMode(s.status), sessionId)
                  && (sw.branch.result.Success? && Truthy(sw.branch.result.value) ==>
                        Moved(s, sw.world.sessions[sessionId], sw.branch.result.value)))
  {
    SwitchShape(script, cfg, w, cache, sessionId, userMessage);
    SwitchIsStage(script, cfg, w, cache, sessionId, userMessage);
    SwitchMoves(script, cfg, w, cache, sessionId, userMessage);
  }

  /** The stage half of `SwitchSteps`. */
  lemma SwitchIsStage(script: nat -> Completion, cfg: Config, w: World, cache: map<Key, CacheEntry>,
                      sessionId: Id, userMessage: Option<string>)
    requires sessionId in w.sessions && w.sessions[sessionId].id == sessionId
    ensures var s := w.sessions[sessionId];
            var sw := SwitchSpec(script, cfg, w, cache, sessionId, userMessage);
            sw.branch.Stepped? ==>
              && TagFor(s.status, sw.branch.tag) && sw.branch.tag != ERROR
              && StageStep(w, cache, Step(sw.branch.result, sw.world, sw.cache), cfg, StageMode(s.status), sessionId)
  {
    var s := w.sessions[sessionId];
    var d := DispatchSpec(s, userMessage);
    SwitchShape(script, cfg, w, cache, sessionId, userMessage);
    if d.Ran? {
      var st := CallSpec(script, cfg, w, cache, sessionId, d.call);
      assert StageMode(s.status) == if d.call.BuildCall? then Build else Plan;
      CallIsStage(script, cfg, w, cache, sessionId, d.call);
      assert Step(st.result, st.world, st.cache) == st;
    }
  }

  /** The move half of `SwitchSteps`. */
  lemma SwitchMoves(script: nat -> Completion, cfg: Config, w: World, cache: map<Key, CacheEntry>,
                    sessionId: Id, userMessage: Option<string>)
    requires sessionId in w.sessions && w.sessions[sessionId].id == sessionId
    ensures var s := w.sessions[sessionId];
            var sw := SwitchSpec(script, cfg, w, cache, sessionId, userMessage);
            sw.branch.Stepped? && sw.branch.result.Success? && Truthy(sw.branch.result.value) ==>
              && sessionId in sw.world.sessions
              && Moved(s, sw.world.sessions[sessionId], sw.branch.result.value)
  {
    var s := w.sessions[sessionId];
    var d := DispatchSpec(s, userMessage);
    SwitchShape(script, cfg, w, cache, sessionId, userMessage);
    if d.Ran? {
      CallIsStage(script, cfg, w, cache, sessionId, d.call);
      CallMoves(script, cfg, w, cache, sessionId, d.call);
    }
  }

  /** The rest of `start` after a `switch` whose stage behaved as a stage: the table
      invariant holds afterwards when the stage left its own session consistent. */
  lemma FinishKeepsConsistent(w: World, cache: map<Key, CacheEntry>, sw: Switched, sessionId: Id, cfg: Config, mode: Mode)
    requires AllConsistent(w.sessions) && sessionId in w.sessions
    requires sw.branch.Stepped? ==> StageStep(w, cache, Step(sw.branch.result, sw.world, sw.cache), cfg, mode, sessionId)
    requires !sw.branch.Stepped? ==> sw.world == w
    requires sw.branch.Stepped? && sw.branch.result.Success? && Truthy(sw.branch.result.value) ==>
               sw.world.sessions[sessionId].id == sessionId && Consistent(sw.world.sessions[sessionId])
    ensures AllConsistent(Finish(sw, sessionId).world.sessions)
  {
    var after := Finish(sw, sessionId).world.sessions;
    match sw.branch {
      case Reported(_) =>
      case Thrown(e) =>
        FailureWriteFailsOnly(w.sessions, sessionId, CaughtMessage(e), None);
        FailOnlyKeepsConsistent(w.sessions, after, sessionId);
      case Stepped(_, result) =>
        if result.Success? && Truthy(result.value) {
          ConsistentAfter(w.sessions, sw.world.sessions, sessionId);
        } else {
          FailOnlyKeepsConsistent(w.sessions, sw.world.sessions, sessionId);
          if result.Failure? {
            FailureWriteFailsOnly(sw.world.sessions, sessionId, CaughtMessage(result.error), None);
            FailOnlyKeepsConsistent(sw.world.sessions, after, sessionId);
          }
        }
    }
  }

  /** `start` keeps the table invariant: every status it writes comes with the payload the
      invariant asks for, and every failure it records says why. */
  lemma StartKeepsConsistent(script: nat -> Completion, cfg: Config, w: World, cache: map<Key, CacheEntry>,
                             sessionId: Id, userMessage: Option<string>)
    requires AllConsistent(w.sessions)
    ensures AllConsistent(StartSpec(script, cfg, w, cache, sessionId, userMessage).world.sessions)
  {
    if sessionId in w.sessions {
      var s := w.sessions[sessionId];
      var sw := SwitchSpec(script, cfg, w, cache, sessionId, userMessage);
      SwitchSteps(script, cfg, w, cache, sessionId, userMessage);
      if sw.branch.Stepped? && sw.branch.result.Success? && Truthy(sw.branch.result.value) {
        MovedKeepsConsistent(s, sw.world.sessions[sessionId], sw.branch.result.value);
      }
      FinishKeepsConsistent(w, cache, sw, sessionId, cfg, StageMode(s.status));
    }
  }

  /** The rest of `start` after a `switch` whose stage behaved as a stage: its session
      moved at most one stage or failed, other sessions are unchanged, and cache entries
      were only added. */
  lemma FinishAdvances(w: World, cache: map<Key, CacheEntry>, sw: Switched, sessionId: Id, cfg: Config, mode: Mode)
    requires sessionId in w.sessions
    requires sw.branch.Stepped? ==> StageStep(w, cache, Step(sw.branch.result, sw.world, sw.cache), cfg, mode, sessionId)
    requires !sw.branch.Stepped? ==> sw.world == w && sw.cache == cache
    requires sw.branch.Stepped? && sw.branch.result.Success? && Truthy(sw.branch.result.value) ==>
               Advance(w.sessions[sessionId].status, sw.world.sessions[sessionId].status)
    ensures var run := Finish(sw, sessionId);
            && OthersUnchanged(w.sessions, run.world.sessions, sessionId)
            && Extends(cache, run.cache)
            && Advance(w.sessions[sessionId].status, run.world.sessions[sessionId].status)
  {
    if sw.branch.Stepped? && !(sw.branch.result.Success? && Truthy(sw.branch.result.value)) {
      assert FailOnly(w.sessions, sw.world.sessions, sessionId);
    }
  }

  /** One call of `start` moves its own session one stage forward, leaves it, or fails it;
      every other session is left exactly as it was, and cached entries are only added. */
  lemma StartAdvances(script: nat -> Completion, cfg: Config, w: World, cache: map<Key, CacheEntry>,
                      sessionId: Id, userMessage: Option<string>)
    requires AllConsistent(w.sessions)
    ensures var run := StartSpec(script, cfg, w, cache, sessionId, userMessage);
            && OthersUnchanged(w.sessions, run.world.sessions, sessionId)
            && Extends(cache, run.cache)
            && (sessionId in w.sessions ==>
                  Advance(w.sessions[sessionId].status, run.world.sessions[sessionId].status))
  {
    if sessionId in w.sessions {
      var s := w.sessions[sessionId];
      var sw := SwitchSpec(script, cfg, w, cache, sessionId, userMessage);
      SwitchSteps(script, cfg, w, cache, sessionId, userMessage);
      if sw.branch.Stepped? && sw.branch.result.Success? && Truthy(sw.branch.result.value) {
        MovedKeepsConsistent(s, sw.world.sessions[sessionId], sw.branch.result.value);
      }
      FinishAdvances(w, cache, sw, sessionId, cfg, StageMode(s.status));
    }
  }

  /** The outcome is tagged by the status the session started in, or ERROR: a BUILDING
      session reports CODING, never COMPLETED, and a present session never makes `start`
      reject. */
  lemma TagFollowsStatus(script: nat -> Completion, cfg: Config, w: World, cache: map<Key, CacheEntry>,
                         sessionId: Id, userMessage: Option<string>)
    requires sessionId in w.sessions && w.sessions[sessionId].id == sessionId
    ensures var run := StartSpec(script, cfg, w, cache, sessionId, userMessage);
            run.result.Returned? && TagFor(w.sessions[sessionId].status, run.result.output.tag)
  {
    SwitchSteps(script, cfg, w, cache, sessionId, userMessage);
  }

  /** An ERROR outcome from a session that was running leaves it FAILED with the reported
      message as its `error`. */
  lemma ErrorIsRecorded(script: nat -> Completion, cfg: Config, w: World, cache: map<Key, CacheEntry>,
                        sessionId: Id, userMessage: Option<string>, message: string)
    requires sessionId in w.sessions && w.sessions[sessionId].id == sessionId && Running(w.sessions[sessionId].status)
    requires StartSpec(script, cfg, w, cache, sessionId, userMessage).result == Returned(Output(ERROR, TextData(Some(message))))
    ensures var run := StartSpec(script, cfg, w, cache, sessionId, userMessage);
            && sessionId in run.world.sessions
            && run.world.sessions[sessionId].status == Failed && run.world.sessions[sessionId].error == Some(message)
  {
    SwitchSteps(script, cfg, w, cache, sessionId, userMessage);
    FinishRecordsError(SwitchSpec(script, cfg, w, cache, sessionId, userMessage), sessionId, message);
  }

  /** A `start` whose `switch` did not report from the record and whose stage did not use
      the ERROR tag returns ERROR only from its catch block, which records the message. */
  lemma FinishRecordsError(sw: Switched, sessionId: Id, message: string)
    requires sessionId in sw.world.sessions && !sw.branch.Reported?
    requires sw.branch.Stepped? ==> sw.branch.tag != ERROR
    requires Finish(sw, sessionId).result == Returned(Output(ERROR, TextData(Some(message))))
    ensures var run := Finish(sw, sessionId);
            run.world.sessions[sessionId].status == Failed && run.world.sessions[sessionId].error == Some(message)
  {
  }

  /** COMPLETED, FAILED and unrecognised sessions are only read: no provider call, no write,
      and the stored code, the stored error or the fixed message is returned. */
  lemma SettledSessionsAreOnlyRead(script: nat -> Completion, cfg: Config, w: World, cache: map<Key, CacheEntry>,
                                   sessionId: Id, userMessage: Option<string>)
    requires sessionId in w.sessions && !Running(w.sessions[sessionId].status)
    ensures StartSpec(script, cfg, w, cache, sessionId, userMessage)
         == Run(Returned(SettledOutput(w.sessions[sessionId])), w, cache)
  {
  }

  /** A missing session is reported by the catch block, whose own write then throws: `start`
      rejects with the database's error and changes nothing. */
  lemma MissingSessionRejects(script: nat -> Completion, cfg: Config, w: World, cache: map<Key, CacheEntry>,
                              sessionId: Id, userMessage: Option<string>)
    requires sessionId !in w.sessions
    ensures StartSpec(script, cfg, w, cache, sessionId, userMessage) == Run(Rejected(RecordNotFound), w, cache)
  {
  }

  /** Which provider settings a call of `start` uses: the planning model for the first three
      statuses, the code model for BUILDING, and no call at all otherwise. */
  lemma ModelFollowsStatus(script: nat -> Completion, cfg: Config, w: World, cache: map<Key, CacheEntry>,
                           sessionId: Id, userMessage: Option<string>)
    requires sessionId in w.sessions && w.sessions[sessionId].id == sessionId
    ensures var run := StartSpec(script, cfg, w, cache, sessionId, userMessage);
            var status := w.sessions[sessionId].status;
            && (Running(status) ==> AskedIn(w, run.world, cfg, StageMode(status)))
            && (!Running(status) ==> run.world.calls == w.calls)
  {
    SwitchSteps(script, cfg, w, cache, sessionId, userMessage);
  }
}
