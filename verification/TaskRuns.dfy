/** Runs of one task under any transition table that has the edges they take: single transitions, pauses and
    resumes, and the way from intake to the review. */
module TaskRuns {
  import opened Results
  import opened Stages
  import opened Evidence
  import opened Audit
  import opened Store
  import opened Lineage
  import opened TaskLog
  import opened Gates
  import opened Decisions
  import opened Engine
  import opened EngineInvariant
  import opened EngineSteps
  import opened EngineMethods
  import opened EngineRuns
  import Policy
  import PolicyContract
  import PolicyLaws

  // A policy with one human trigger, for any table.

  function Configured(w: Workflow): Policy.Bundle {
    Policy.Bundle(Policy.Vocabulary(["H"], [], ["g"]), w, Policy.R0, Policy.Declared([], map[]),
                  map[Policy.R0 := ["g"], Policy.R1 := ["g"], Policy.R2 := ["g"], Policy.R3 := ["g"]],
                  ["H"], Policy.Routing(map[], map[], [], []), map[])
  }

  predicate Tidy(w: Workflow) { forall s | s in w :: Policy.Distinct(w[s]) }

  function Asked(stage: Stage, gated: bool): Policy.Input {
    Policy.Input(stage, [], if gated then ["H"] else [], map[], None)
  }

  lemma ConfiguredIsValid(w: Workflow)
    requires Tidy(w)
    ensures PolicyContract.ValidBundle(Configured(w)) && PolicyContract.Orderly(Configured(w))
  {
    var b := Configured(w);
    forall level: Policy.RiskLevel ensures level in b.gates && Policy.Distinct(b.gates[level]) {
      match level case R0 => case R1 => case R2 => case R3 =>
    }
    Singleton("H");
    Singleton("g");
    assert Policy.PrintableName("H");
  }

  lemma Singleton(x: string)
    ensures Policy.InOrder([x], [x]) && Policy.CanonicalOrder([x], [x]) == [x] && Policy.CanonicalOrder([], [x]) == []
  {
    assert [x][1..] == [];
  }

  lemma NothingRepeats(gated: bool)
    ensures !PolicyLaws.Repeats([]) && !PolicyLaws.Repeats(if gated then ["H"] else [])
  {
    assert forall x: string :: multiset(["H"])[x] <= 1;
  }

  lemma AskedIsPlain(w: Workflow, stage: Stage, gated: bool)
    ensures var b, input := Configured(w), Asked(stage, gated);
            !PolicyLaws.BadContext(b, input) && !PolicyLaws.BadTrigger(b, input) && !PolicyContract.Misnamed(b, input)
  {
    hide Policy.Known, Policy.Downgrades, PolicyContract.WellNamed;
  }

  lemma AskedIsAnswered(w: Workflow, stage: Stage, gated: bool)
    requires Tidy(w)
    ensures !Policy.Evaluate(Configured(w), Asked(stage, gated)).FailClosed()
  {
    hide Policy.Evaluate, PolicyContract.ValidBundle, PolicyContract.Orderly, PolicyLaws.Withheld, PolicyLaws.Repeats,
         PolicyLaws.BadContext, PolicyLaws.BadTrigger, PolicyContract.Misnamed, Configured;
    var b, input := Configured(w), Asked(stage, gated);
    ConfiguredIsValid(w);
    NothingRepeats(gated);
    AskedIsPlain(w, stage, gated);
    PolicyLaws.OrderlyBundlesNeverWithhold(b, input);
    PolicyLaws.FailsClosedExactly(b, input);
  }

  lemma AskedMeans(w: Workflow, stage: Stage, gated: bool)
    requires Tidy(w)
    ensures var e := Policy.Evaluate(Configured(w), Asked(stage, gated));
            && !e.FailClosed() && e.humanGate == gated && e.requiredHumanTriggers == (if gated then ["H"] else [])
            && e.authorized == Policy.Authorized(Targets(w, stage), gated)
  {
    var b, input := Configured(w), Asked(stage, gated);
    AskedIsAnswered(w, stage, gated);
    ConfiguredIsValid(w);
    hide Policy.Evaluate, PolicyContract.ValidBundle, PolicyContract.Orderly;
    PolicyLaws.AnswerShape(b, input);
    PolicyLaws.RiskIsMaximum(b, input);
    Singleton("H");
  }

  // Single transitions.

  /** What one transition adds to the log. */
  predicate Moved(e: Event, source: Stage, target: Stage, actor: Actor, bound: seq<Binding>, at: nat) {
    && e.body.eventType == TransitionAccepted && e.body.source == Some(source) && e.body.target == Some(target)
    && e.body.actor == actor && e.body.evidence == bound && e.body.createdAt == at
  }

  /** The machine stands still, with these logs of one task. */
  ghost predicate Standstill(w: Workflow, s: System, task: string, log: seq<Event>) {
    && Reachable(Configured(w), s) && PhaseOf(s, 0) == Idle && log != []
    && task in s.history && s.history[task] == log && s.tables.states.Keys == {task}
    && StateOf(Last(log)).task == task && StateOf(Last(log)).project == "P"
  }

  lemma PlainDecision(w: Workflow, s: System, task: string, a: Action, bound: seq<Binding>)
    requires Tidy(w) && task in s.history && s.history[task] != [] && a.Judge?
    requires var cur := StateAt(s, task); cur.current != WaitingHuman && a.input == Asked(cur.current, false)
    requires a.requested != WaitingHuman && a.requested in Targets(w, StateAt(s, task).current) && bound != []
    ensures var plan := FreshPlan(Configured(w), s, task, StateAt(s, task).current, a).(bound := bound);
            && plan.target == a.requested && !plan.evaluation.FailClosed() && a.requested in plan.evaluation.authorized
            && Decide(Configured(w), s.tables, s.queue, plan, None, []) == Some((plan, s.queue))
            && ValidRequest(StateAt(s, task), ProposalOf(plan)) && Resolved(s.queue, plan.resolution) == Some(s.queue)
  {
    hide Policy.Evaluate, Configured, ListPending, Resumes, StateOf;
    AskedMeans(w, StateAt(s, task).current, false);
    assert Policy.Distinct(Targets(w, StateAt(s, task).current));
  }

  /** An ungated transition along an edge of the table, on files its gate accepts. */
  lemma MoveRuns(w: Workflow, s: System, task: string, log: seq<Event>, target: Stage, actor: Actor, files: map<string, File>,
                 submitted: seq<File>, bound: seq<Binding>, at: nat) returns (t: System, e: Event)
    requires Tidy(w) && Standstill(w, s, task, log)
    requires var source := StateOf(Last(log)).current;
             && source != WaitingHuman && target != WaitingHuman && target in Targets(w, source)
             && (RequiredActor(source, target).Some? ==> actor == RequiredActor(source, target).value)
             && submitted != [] && GateAccepts(files, Some(log), StateOf(Last(log)), source, target, submitted)
             && BoundTo(source, target, submitted, bound)
    ensures Standstill(w, t, task, log + [e]) && t.queue == s.queue
    ensures Moved(e, StateOf(Last(log)).current, target, actor, bound, at) && StateOf(e).current == target
  {
    hide Policy.Evaluate, Configured, GateAccepts, Reachable, ValidRequest, Decide, Resolved, BoundAsValidated, RequiredActor;
    var source := StateOf(Last(log)).current;
    var a := Judge(target, actor, Asked(source, false), files, submitted, at);
    PlainDecision(w, s, task, a, bound);
    var plan := FreshPlan(Configured(w), s, task, source, a).(bound := bound);
    t := TransitionRuns(Configured(w), s, 0, task, source, a, bound, None, [], plan, s.queue, s.queue);
    e := TransitionEvent(StateAt(s, task), ProposalOf(plan));
  }

  // Evidence files, as they stand from the frozen plan on.

  function PlanRecord(): Record { Record.Packet(Planner, "K", "P", "T", true, "plan") }

  /** The packet of a role; the coder's is the plan's under his own name. */
  function Packet(role: Actor): Record {
    if role == Coder then CoderPacket(PlanRecord(), "T") else Record.Packet(role, "K", "P", "T", true, "plan")
  }

  function PacketFile(role: Actor): File { Json(Packet(role), None) }

  function ResultFile(role: Actor, target: Stage): File { Json(AgentResult(role, Packet(role).packetId, Done, target, true), None) }

  function PacketPath(role: Actor): string {
    match role
    case Planner => "plan-packet"
    case Coder => "code-packet"
    case Reviewer => "review-packet"
    case Verifier => "verification-packet"
    case _ => "other-packet"
  }

  function ResultPath(role: Actor): string {
    match role
    case Planner => "plan-result"
    case Coder => "code-result"
    case Reviewer => "review-result"
    case Verifier => "verification-result"
    case _ => "other-result"
  }

  function PairBound(role: Actor, target: Stage): seq<Binding> {
    [Binding(PacketPath(role), PacketFile(role)), Binding(ResultPath(role), ResultFile(role, target))]
  }

  function PlanBound(): seq<Binding> { PairBound(Planner, PlanReady) }

  function HandoffBound(): seq<Binding> { [Binding(PacketPath(Coder), PacketFile(Coder))] }

  lemma PairGateAccepts(role: Actor, target: Stage, s: TaskState)
    requires s.project == "P" && s.task == "T"
    ensures PairGate(s, role, target, Contents(PairBound(role, target)))
  {
  }

  // Single transitions of the run.

  /** A transition on the packet and the result of its role, or on anything where nothing is asked. */
  lemma PairRuns(w: Workflow, s: System, log: seq<Event>, target: Stage, role: Actor) returns (t: System, e: Event)
    requires Tidy(w) && Standstill(w, s, "T", log)
    requires var source := StateOf(Last(log)).current;
             && source != WaitingHuman && target != WaitingHuman && target in Targets(w, source)
             && (RequiredActor(source, target).Some? ==> role == RequiredActor(source, target).value)
             && (match GateKind(source, target)
                 case PlannerResult => role == Planner
                 case CoderResult => role == Coder
                 case Generic => true
                 case _ => false)
    ensures Standstill(w, t, "T", log + [e]) && t.queue == s.queue && StateOf(e).current == target
    ensures Moved(e, StateOf(Last(log)).current, target, role, PairBound(role, target), 0)
  {
    hide Tidy, Standstill, PairBound, PairGate;
    StandstillMeans(w, s, log);
    PairGateAccepts(role, target, StateOf(Last(log)));
    PairIsSome(role, target);
    t, e := MoveRuns(w, s, "T", log, target, role, map[], Contents(PairBound(role, target)), PairBound(role, target), 0);
  }

  lemma PairIsSome(role: Actor, target: Stage)
    ensures PairBound(role, target) != []
  {
  }

  lemma StandstillMeans(w: Workflow, s: System, log: seq<Event>)
    requires Standstill(w, s, "T", log)
    ensures log != [] && StateOf(Last(log)).task == "T" && StateOf(Last(log)).project == "P"
  {
    hide Reachable, Configured;
  }

  // The plan, and its handoff.

  /** The last freeze of the plan rests on the planner's packet and result, and both still read back. */
  predicate Planned(files: map<string, File>, log: seq<Event>) {
    && LastBoundary(log).Some? && LastBoundary(log).value.body.evidence == PlanBound()
    && PacketPath(Planner) in files && files[PacketPath(Planner)] == PacketFile(Planner)
    && ResultPath(Planner) in files && files[ResultPath(Planner)] == ResultFile(Planner, PlanReady)
  }

  lemma {:induction false} BoundaryFreezes(lineage: seq<Event>)
    ensures LastBoundary(lineage).Some? ==> FreezesPlan(LastBoundary(lineage).value)
    decreases |lineage|
  {
    hide FreezesPlan;
    if lineage != [] { BoundaryFreezes(DropLast(lineage)); }
  }

  lemma StaysPlanned(files: map<string, File>, log: seq<Event>, e: Event)
    requires Planned(files, log) && e.body.target != Some(PlanReady)
    ensures Planned(files, log + [e])
  {
    hide PlanBound;
    assert DropLast(log + [e]) == log && Last(log + [e]) == e;
  }

  lemma PlannedIsKept(files: map<string, File>, e: Event, s: TaskState)
    requires FreezesPlan(e) && e.body.evidence == PlanBound() && s.project == "P" && s.task == "T"
    requires PacketPath(Planner) in files && files[PacketPath(Planner)] == PacketFile(Planner)
    requires ResultPath(Planner) in files && files[ResultPath(Planner)] == ResultFile(Planner, PlanReady)
    ensures KeepsFrozenPlan(files, Some(e), s, Packet(Coder))
  {
  }

  lemma HandoffGateAccepts(files: map<string, File>, log: seq<Event>, s: TaskState)
    requires log != [] && FreezesPlan(Last(log)) && Planned(files, log)
    requires s.project == "P" && s.task == "T" && s.current == PlanReady
    ensures GateAccepts(files, Some(log), s, PlanReady, Implementing, Contents(HandoffBound()))
  {
    hide PlanBound, KeepsFrozenPlan, Packet;
    PlannedIsKept(files, Last(log), s);
    assert Transitions(log) == Transitions(DropLast(log)) + [Last(log)];
    assert Contents(HandoffBound()) == [PacketFile(Coder)];
  }

  /** The way from intake to the review. */
  predicate LeadsToReview(w: Workflow) {
    && Tidy(w)
    && ReadyForClassification in Targets(w, Draft) && Classified in Targets(w, ReadyForClassification)
    && SpecReady in Targets(w, Classified) && PlanReady in Targets(w, SpecReady)
    && Implementing in Targets(w, PlanReady) && TaskReview in Targets(w, Implementing)
  }

  lemma LeadsIsTidy(w: Workflow)
    requires LeadsToReview(w)
    ensures Tidy(w)
  {
  }

  predicate Marks(stage: Stage) { stage == FixRequired || stage == Verified || stage == Integrating || stage == WaitingHuman }

  /** No event has entered a stage that matters to the fix cycle. */
  predicate Unmarked(log: seq<Event>) {
    forall i :: 0 <= i < |log| ==> (log[i].body.target.Some? ==> !Marks(log[i].body.target.value))
  }

  lemma StaysUnmarked(log: seq<Event>, e: Event)
    requires Unmarked(log) && e.body.target.Some? && !Marks(e.body.target.value)
    ensures Unmarked(log + [e])
  {
  }

  lemma IntakeStandsStill(w: Workflow) returns (s: System, log: seq<Event>)
    ensures Standstill(w, s, "T", log) && s.queue == Queue(map[], map[]) && Unmarked(log)
    ensures |log| == 1 && StateOf(Last(log)).current == Draft
  {
    hide Reachable, Configured;
    s := IntakeRuns(Configured(w), "T", "P");
    log := s.history["T"];
  }

  lemma ClassificationIsReached(w: Workflow) returns (s: System, log: seq<Event>)
    requires LeadsToReview(w)
    ensures Standstill(w, s, "T", log) && s.queue == Queue(map[], map[]) && Unmarked(log)
    ensures |log| == 3 && StateOf(Last(log)).current == Classified
  {
    hide Standstill, Unmarked, Tidy, StateOf, PairBound;
    var e: Event;
    s, log := IntakeStandsStill(w);
    s, e := PairRuns(w, s, log, ReadyForClassification, Controller);
    StaysUnmarked(log, e);
    log := log + [e];
    s, e := PairRuns(w, s, log, Classified, Controller);
    StaysUnmarked(log, e);
    log := log + [e];
  }

  lemma SpecIsReached(w: Workflow) returns (s: System, log: seq<Event>)
    requires LeadsToReview(w)
    ensures Standstill(w, s, "T", log) && s.queue == Queue(map[], map[]) && Unmarked(log)
    ensures |log| == 4 && StateOf(Last(log)).current == SpecReady
  {
    hide Standstill, Unmarked, Tidy, StateOf, PairBound;
    var e: Event;
    s, log := ClassificationIsReached(w);
    s, e := PairRuns(w, s, log, SpecReady, Planner);
    StaysUnmarked(log, e);
    log := log + [e];
  }

  predicate PlanFiled(files: map<string, File>) {
    && PacketPath(Planner) in files && files[PacketPath(Planner)] == PacketFile(Planner)
    && ResultPath(Planner) in files && files[ResultPath(Planner)] == ResultFile(Planner, PlanReady)
  }

  lemma NewPlanIsPlanned(files: map<string, File>, log: seq<Event>, e: Event)
    requires PlanFiled(files) && FreezesPlan(e) && e.body.evidence == PlanBound()
    ensures Planned(files, log + [e]) && Last(log + [e]) == e
  {
    hide PlanBound, PacketFile, ResultFile;
  }

  /** The plan is frozen, and handed to the coder. */
  lemma ImplementationIsReached(w: Workflow, files: map<string, File>) returns (s: System, log: seq<Event>)
    requires LeadsToReview(w) && PlanFiled(files)
    ensures Standstill(w, s, "T", log) && s.queue == Queue(map[], map[]) && Unmarked(log) && Planned(files, log)
    ensures |log| == 6 && StateOf(Last(log)).current == Implementing
  {
    hide Standstill, Unmarked, Tidy, StateOf, PairBound, PacketFile, ResultFile, Planned, GateAccepts, HandoffBound;
    var e: Event;
    s, log := SpecIsReached(w);
    s, e := PairRuns(w, s, log, PlanReady, Planner);
    StaysUnmarked(log, e);
    NewPlanIsPlanned(files, log, e);
    log := log + [e];
    StandstillMeans(w, s, log);
    HandoffGateAccepts(files, log, StateOf(Last(log)));
    HandoffIsBound();
    s, e := MoveRuns(w, s, "T", log, Implementing, Coder, files, Contents(HandoffBound()), HandoffBound(), 0);
    StaysUnmarked(log, e);
    StaysPlanned(files, log, e);
    log := log + [e];
  }

  lemma HandoffIsBound()
    ensures HandoffBound() != []
  {
  }

  /** A task is brought to its review. */
  lemma ReviewIsReached(w: Workflow, files: map<string, File>) returns (s: System, log: seq<Event>)
    requires LeadsToReview(w) && PlanFiled(files)
    ensures Standstill(w, s, "T", log) && s.queue == Queue(map[], map[]) && Unmarked(log) && Planned(files, log)
    ensures |log| == 7 && StateOf(Last(log)).current == TaskReview
  {
    hide Standstill, Unmarked, Tidy, StateOf, PairBound, Planned, PlanFiled;
    var e: Event;
    s, log := ImplementationIsReached(w, files);
    s, e := PairRuns(w, s, log, TaskReview, Coder);
    StaysUnmarked(log, e);
    StaysPlanned(files, log, e);
    log := log + [e];
  }

  // A pause, and its resume.

  function PauseId(log: seq<Event>): Id { Derived(DecisionKind, "T", |log| + 1) }

  function Note(): Binding { Binding("note", NoMapping("why")) }

  function PauseRequest(log: seq<Event>, stage: Stage): DecisionRequest {
    DecisionRequest(PauseId(log), "P", "T", stage, "H", ["RESUME"], ["note"], 0)
  }

  function PausedQueue(log: seq<Event>, stage: Stage): Queue {
    Queue(map[PauseId(log) := Whole(PauseRequest(log, stage))], map[])
  }

  lemma PauseDecision(w: Workflow, s: System, a: Action, source: Stage, stage: Stage)
    requires Tidy(w) && "T" in s.history && s.history["T"] != [] && a.Judge? && source != WaitingHuman
    requires var cur := StateAt(s, "T");
             cur.current == source && cur.task == "T" && cur.project == "P" && a.input == Asked(source, true)
    requires WaitingHuman in Targets(w, source) && a.requested == stage && stage != WaitingHuman && stage != Abandoned
    requires a.createdAt == 0 && s.queue == Queue(map[], map[])
    ensures var plan := FreshPlan(Configured(w), s, "T", source, a).(bound := [Note()]);
            && plan.target == WaitingHuman && !plan.evaluation.FailClosed() && WaitingHuman in plan.evaluation.authorized
            && Decide(Configured(w), s.tables, s.queue, plan, None, []) == Some((plan, PausedQueue(s.history["T"], stage)))
            && ValidRequest(StateAt(s, "T"), ProposalOf(plan))
            && (forall q :: Resolved(q, plan.resolution) == Some(q))
            && plan.actor == a.actor && plan.sequence == |s.history["T"]| + 1 && plan.createdAt == 0
  {
    hide Policy.Evaluate, Configured, ListPending, Resumes, StateOf;
    AskedMeans(w, source, true);
    var legal := Targets(w, source);
    assert Policy.Distinct(legal);
    PolicyContract.GateTargetsAreDistinct(legal);
    forall x { PolicyContract.GateTargetsSubset(legal, x); }
    var plan := FreshPlan(Configured(w), s, "T", source, a).(bound := [Note()]);
    hide Policy.GateTargets;
    assert RequestOf(plan) == PauseRequest(s.history["T"], stage);
  }

  lemma PausePasses(w: Workflow, s: System, a: Action, source: Stage)
    requires "T" in s.history && s.history["T"] != [] && a.Judge? && source != WaitingHuman
    requires StateAt(s, "T").current == source && a.input == Asked(source, true) && a.submitted == [Note().file]
    requires var plan := FreshPlan(Configured(w), s, "T", source, a);
             plan.target == WaitingHuman && !plan.evaluation.FailClosed() && WaitingHuman in plan.evaluation.authorized
    ensures Passes(Configured(w), s, "T", source, a) && Binds(FreshPlan(Configured(w), s, "T", source, a), [Note()])
  {
    hide Policy.Evaluate, Configured, StateOf;
    assert GateKind(source, WaitingHuman) == Generic && RequiredActor(source, WaitingHuman) == None;
  }

  lemma TransitionMoves(cur: TaskState, d: Proposal)
    ensures var e := TransitionEvent(cur, d);
            && Moved(e, cur.current, d.target, d.actor, d.evidence, d.createdAt)
            && StateOf(e).current == d.target && StateOf(e).previous == Some(cur.current)
            && StateOf(e).task == cur.task && StateOf(e).project == cur.project
            && (d.target == WaitingHuman ==> StateOf(e).pending == Some(Derived(DecisionKind, cur.task, d.sequence)))
  {
  }

  /** A human gate stops the task on its way to `stage`. */
  lemma PauseIsReached(w: Workflow, s: System, log: seq<Event>, source: Stage, stage: Stage) returns (t: System, e: Event)
    requires Tidy(w) && Standstill(w, s, "T", log) && StateOf(Last(log)).current == source && source != WaitingHuman
    requires WaitingHuman in Targets(w, source) && s.queue == Queue(map[], map[]) && stage != WaitingHuman && stage != Abandoned
    ensures Standstill(w, t, "T", log + [e]) && Moved(e, source, WaitingHuman, Controller, [Note()], 0)
    ensures t.queue == PausedQueue(log, stage)
    ensures StateOf(e).current == WaitingHuman && StateOf(e).previous == Some(source) && StateOf(e).pending == Some(PauseId(log))
  {
    hide Policy.Evaluate, Configured, Reachable, ValidRequest, Decide, Resolved, PausedQueue, Tidy, Passes, Binds, StateOf,
         TransitionEvent, Moved, FreshPlan, Insert;
    var a := Judge(stage, Controller, Asked(source, true), map[], [Note().file], 0);
    PauseDecision(w, s, a, source, stage);
    PausePasses(w, s, a, source);
    var plan := FreshPlan(Configured(w), s, "T", source, a).(bound := [Note()]);
    t := TransitionRuns(Configured(w), s, 0, "T", source, a, [Note()], None, [], plan, PausedQueue(log, stage), PausedQueue(log, stage));
    e := TransitionEvent(StateAt(s, "T"), ProposalOf(plan));
    TransitionMoves(StateAt(s, "T"), ProposalOf(plan));
  }

  function Answer(log: seq<Event>, stage: Stage): Resolution { Resolution(PauseId(log), "P", "T", "RESUME", 0, "why", stage) }

  function AnsweredQueue(log: seq<Event>, stage: Stage): Queue {
    PausedQueue(log, stage).(resolved := map[PauseId(log) := Whole(Answer(log, stage))])
  }

  /** The task waits at `source` on its way to `stage`, and its request is the only file of the queue. */
  ghost predicate Paused(w: Workflow, s: System, log: seq<Event>, e: Event, source: Stage, stage: Stage) {
    && Standstill(w, s, "T", log + [e]) && s.queue == PausedQueue(log, stage) && Moved(e, source, WaitingHuman, Controller, [Note()], 0)
    && StateOf(e).current == WaitingHuman && StateOf(e).previous == Some(source) && StateOf(e).pending == Some(PauseId(log))
    && source != WaitingHuman && stage != WaitingHuman && s.tables.states == map["T" := StateOf(e)] && ValidState(StateOf(e))
  }

  lemma PausedStates(w: Workflow, s: System, log: seq<Event>, e: Event)
    requires Standstill(w, s, "T", log + [e])
    ensures s.tables.states == map["T" := StateOf(e)] && ValidState(StateOf(e))
  {
    hide Configured, Reachable, Logged, StateOf;
    ReachableIsSafe(Configured(w), s);
    TaskIsFresh(Configured(w), s, "T");
  }

  lemma PauseIsListed(w: Workflow, s: System, log: seq<Event>, e: Event, source: Stage, stage: Stage)
    requires Paused(w, s, log, e, source, stage)
    ensures ListPending(s.queue, s.tables, [PauseId(log)]) == Some([PauseRequest(log, stage)])
  {
    hide Configured, Reachable, Moved, StateOf, ValidState;
    var id, r := PauseId(log), PauseRequest(log, stage);
    assert Examine(s.queue, s.tables, id) == Kept(r);
    assert DropLast([id]) == [] && Last([id]) == id && Collect(s.queue, s.tables, []) == Some([]);
    assert [] + [r] == [r];
    assert Waiting(s.tables) == map["T" := id];
    assert [r][0].task == "T";
  }

  /** The judgement on a paused task, before its decision is looked at. */
  lemma ResumePlan(w: Workflow, s: System, log: seq<Event>, e: Event, source: Stage, stage: Stage, a: Action, bound: seq<Binding>)
    requires Tidy(w) && Paused(w, s, log, e, source, stage) && a.Judge? && stage in Targets(w, WaitingHuman)
    requires a.input == Asked(WaitingHuman, false) && a.requested == stage && a.createdAt == 0
    ensures "T" in s.history && s.history["T"] != []
    ensures var plan := FreshPlan(Configured(w), s, "T", source, a).(bound := bound);
            && plan.current == StateOf(e) && plan.source == source && plan.sequence == |log| + 2
            && plan.requested == plan.target == stage && plan.actor == a.actor && plan.bound == bound && plan.createdAt == 0
            && !plan.evaluation.FailClosed() && !plan.evaluation.humanGate && plan.evaluation.authorized == Targets(w, WaitingHuman)
            && plan.resolution == None && plan.decision == None
  {
    hide Policy.Evaluate, Reachable, StateOf, Moved, Configured;
    AskedMeans(w, WaitingHuman, false);
    assert Last(log + [e]) == e;
  }

  /** The answer passes the resume checks: it names the pending decision, whose request is listed. */
  lemma AnswerResumes(w: Workflow, s: System, log: seq<Event>, e: Event, source: Stage, stage: Stage, plan: Plan)
    requires Paused(w, s, log, e, source, stage) && stage in Targets(w, source)
    requires plan.current == StateOf(e) && plan.target == stage
    ensures Resumes(Configured(w), s.tables, s.queue, [PauseRequest(log, stage)], plan, Answer(log, stage))
  {
    hide Reachable, StateOf, Moved, LineageOf, GateSource;
    PausedIsJudgedFrom(w, s, log, e, source, stage);
    PausedLineage(w, s, log, e);
    var listed := [PauseRequest(log, stage)];
    assert listed[0] == PauseRequest(log, stage);
    assert StateOf(e).task == "T" && StateOf(e).project == "P" by { assert Last(log + [e]) == e; }
  }

  lemma PausedLineage(w: Workflow, s: System, log: seq<Event>, e: Event)
    requires Standstill(w, s, "T", log + [e])
    ensures LineageOf(EngineWalker, s.tables, StateOf(e)) == Some(log + [e])
  {
    hide Configured, Reachable, Logged, StateOf, LineageOf, Fresh;
    ReachableIsSafe(Configured(w), s);
    TaskIsFresh(Configured(w), s, "T");
    assert StateAt(s, "T") == StateOf(e);
    FreshReads(Configured(w), s, StateOf(e));
  }

  lemma AnswerIsValid(w: Workflow, cur: TaskState, d: Proposal, x: Resolution)
    requires Tidy(w) && cur.task == x.task && cur.project == x.project && cur.current == WaitingHuman
    requires d.target == x.resumeState && d.target in Targets(w, WaitingHuman)
    requires d.authorized == Targets(w, WaitingHuman) && !d.humanGate && d.decision == Some(Engine.BindingOf(x))
    ensures ValidRequest(cur, d)
  {
    assert Policy.Distinct(Targets(w, WaitingHuman));
  }

  lemma AnswerIsFiled(log: seq<Event>, stage: Stage)
    ensures Resolved(PausedQueue(log, stage), Some(Answer(log, stage))) == Some(AnsweredQueue(log, stage))
  {
    var q, x := PausedQueue(log, stage), Answer(log, stage);
    assert q.pending[x.decisionId].record == PauseRequest(log, stage);
    assert PauseRequest(log, stage).options == ["RESUME"] && ["RESUME"][0] == x.option;
    assert map[][x.decisionId := Whole(x)] == map[x.decisionId := Whole(x)];
  }

  lemma ResumeDecision(w: Workflow, s: System, log: seq<Event>, e: Event, source: Stage, stage: Stage, plan: Plan)
    requires Tidy(w) && Paused(w, s, log, e, source, stage) && stage in Targets(w, source) && stage in Targets(w, WaitingHuman)
    requires plan.current == StateOf(e) && plan.target == stage && plan.resolution == None && plan.decision == None
    requires !plan.evaluation.humanGate && plan.evaluation.authorized == Targets(w, WaitingHuman)
    ensures var decided := plan.(resolution := Some(Answer(log, stage)), decision := Some(Engine.BindingOf(Answer(log, stage))));
            && Decide(Configured(w), s.tables, s.queue, plan, Some(Answer(log, stage)), [PauseId(log)]) == Some((decided, s.queue))
            && ValidRequest(StateOf(e), ProposalOf(decided)) && Resolved(s.queue, decided.resolution) == Some(AnsweredQueue(log, stage))
  {
    hide Configured, ListPending, StateOf, Resumes, ValidRequest, Resolved, Reachable, Tidy, Moved;
    PauseIsListed(w, s, log, e, source, stage);
    AnswerResumes(w, s, log, e, source, stage, plan);
    AnswerIsFiled(log, stage);
    assert StateOf(e).task == "T" && StateOf(e).project == "P" by { assert Last(log + [e]) == e; }
    var decided := plan.(resolution := Some(Answer(log, stage)), decision := Some(Engine.BindingOf(Answer(log, stage))));
    AnswerIsValid(w, StateOf(e), ProposalOf(decided), Answer(log, stage));
  }

  lemma PausedIsJudgedFrom(w: Workflow, s: System, log: seq<Event>, e: Event, source: Stage, stage: Stage)
    requires Paused(w, s, log, e, source, stage)
    ensures GateSource(StateOf(e), Some(log + [e])) == Some(source)
  {
    hide Configured, Reachable, StateOf;
    assert Last(log + [e]) == e;
  }

  lemma ResumePasses(w: Workflow, s: System, log: seq<Event>, e: Event, source: Stage, stage: Stage, a: Action, bound: seq<Binding>)
    requires Tidy(w) && Paused(w, s, log, e, source, stage) && a.Judge? && stage in Targets(w, WaitingHuman)
    requires a.input == Asked(WaitingHuman, false) && a.requested == stage && a.createdAt == 0 && a.submitted != []
    requires RequiredActor(source, stage) == Some(a.actor)
    requires GateAccepts(a.files, Some(log + [e]), StateOf(e), source, stage, a.submitted)
    requires BoundTo(source, stage, a.submitted, bound)
    ensures "T" in s.history && s.history["T"] != []
    ensures Passes(Configured(w), s, "T", source, a) && Binds(FreshPlan(Configured(w), s, "T", source, a), bound)
  {
    hide Policy.Evaluate, Reachable, StateOf, Moved, Configured, GateAccepts, BoundAsValidated, GateSource, Tidy;
    ResumePlan(w, s, log, e, source, stage, a, bound);
    PausedIsJudgedFrom(w, s, log, e, source, stage);
    assert StateAt(s, "T") == StateOf(e) by { assert Last(log + [e]) == e; }
  }

  lemma ContentsAreBound(source: Stage, target: Stage, bound: seq<Binding>)
    ensures BoundTo(source, target, Contents(bound), bound)
  {
  }

  /** The human resumes the task into `stage`, on what the gate of the paused stage asks for. */
  lemma ResumeIsReached(w: Workflow, s: System, log: seq<Event>, e: Event, source: Stage, stage: Stage, actor: Actor, bound: seq<Binding>)
    returns (t: System, f: Event)
    requires Tidy(w) && Paused(w, s, log, e, source, stage) && stage in Targets(w, source) && stage in Targets(w, WaitingHuman)
    requires RequiredActor(source, stage) == Some(actor) && bound != []
    requires GateAccepts(map[], Some(log + [e]), StateOf(e), source, stage, Contents(bound))
    ensures Standstill(w, t, "T", log + [e] + [f]) && Moved(f, WaitingHuman, stage, actor, bound, 0)
    ensures StateOf(f).current == stage
  {
    hide Policy.Evaluate, Configured, Reachable, ValidRequest, Decide, Resolved, Tidy, Passes, Binds, StateOf, GateAccepts, Insert,
         TransitionEvent, Moved, FreshPlan, Paused, PausedQueue, AnsweredQueue, BoundTo, Answer, PauseId;
    PausedMeans(w, s, log, e, source, stage);
    ContentsAreBound(source, stage, bound);
    var a := Judge(stage, actor, Asked(WaitingHuman, false), map[], Contents(bound), 0);
    ResumePasses(w, s, log, e, source, stage, a, bound);
    ResumePlan(w, s, log, e, source, stage, a, bound);
    var plan := FreshPlan(Configured(w), s, "T", source, a).(bound := bound);
    ResumeDecision(w, s, log, e, source, stage, plan);
    var decided := plan.(resolution := Some(Answer(log, stage)), decision := Some(Engine.BindingOf(Answer(log, stage))));
    assert StateAt(s, "T") == StateOf(e) by { assert Last(log + [e]) == e; }
    t := TransitionRuns(Configured(w), s, 0, "T", source, a, bound, Some(Answer(log, stage)), [PauseId(log)], decided, s.queue, AnsweredQueue(log, stage));
    f := TransitionEvent(StateOf(e), ProposalOf(decided));
    TransitionMoves(StateOf(e), ProposalOf(decided));
  }

  lemma PausedMeans(w: Workflow, s: System, log: seq<Event>, e: Event, source: Stage, stage: Stage)
    requires Paused(w, s, log, e, source, stage)
    ensures Standstill(w, s, "T", log + [e]) && StateOf(e).current == WaitingHuman && source != WaitingHuman
    ensures StateOf(e).task == "T" && StateOf(e).project == "P" && e.body.source == Some(source)
  {
    hide Configured, Reachable, StateOf;
    assert Last(log + [e]) == e;
  }

  // The table as shipped.

  function Shipped(): Workflow {
    map[Draft := [ReadyForClassification, Abandoned],
        ReadyForClassification := [Classified, Draft, Abandoned],
        Classified := [SpecReady, WaitingHuman, Abandoned],
        SpecReady := [PlanReady, WaitingHuman, Abandoned],
        PlanReady := [Implementing, WaitingHuman, Abandoned],
        Implementing := [TaskReview, Blocked, WaitingHuman],
        TaskReview := [FixRequired, Integrating, WaitingHuman],
        FixRequired := [Implementing, WaitingHuman, Abandoned],
        Integrating := [SystemQa, Verified, FixRequired, Blocked],
        SystemQa := [Verified, FixRequired, WaitingHuman, Blocked],
        Verified := [RcReady, Closed, WaitingHuman],
        RcReady := [Closed, WaitingHuman],
        WaitingHuman := [Classified, SpecReady, PlanReady, Implementing, TaskReview, FixRequired, Integrating, SystemQa,
                         Verified, RcReady, Abandoned],
        Blocked := [Implementing, Integrating, SystemQa, Abandoned],
        Closed := [],
        Abandoned := []]
  }

  lemma ShippedIsTidy()
    ensures Tidy(Shipped())
  {
    forall s | s in Shipped() ensures Policy.Distinct(Shipped()[s]) {
      ShippedRow(s);
    }
  }

  lemma ShippedRow(s: Stage)
    ensures Policy.Distinct(Targets(Shipped(), s))
  {
    match s
    case Draft => case ReadyForClassification => case Classified => case SpecReady => case PlanReady => case Implementing =>
    case TaskReview => case FixRequired => case Integrating => case SystemQa => case Verified => case RcReady =>
    case WaitingHuman => case Blocked => case Closed => case Abandoned =>
  }

  lemma ShippedEdges()
    ensures var w := Shipped();
            && ReadyForClassification in Targets(w, Draft) && Classified in Targets(w, ReadyForClassification)
            && SpecReady in Targets(w, Classified) && PlanReady in Targets(w, SpecReady)
            && Implementing in Targets(w, PlanReady) && TaskReview in Targets(w, Implementing)
            && WaitingHuman in Targets(w, SpecReady) && PlanReady in Targets(w, WaitingHuman) && Abandoned in Targets(w, PlanReady)
  {
  }

  lemma ShippedFixEdges()
    ensures var w := Shipped();
            && FixRequired in Targets(w, TaskReview) && Implementing in Targets(w, FixRequired)
            && Blocked in Targets(w, Implementing) && Integrating in Targets(w, Blocked) && Verified in Targets(w, Integrating)
            && WaitingHuman in Targets(w, TaskReview) && FixRequired in Targets(w, WaitingHuman)
            && Abandoned in Targets(w, FixRequired) && WaitingHuman !in Targets(w, Integrating)
  {
  }

  lemma ShippedLeads()
    ensures LeadsToReview(Shipped())
  {
    hide Shipped, Tidy;
    ShippedIsTidy();
    ShippedEdges();
  }
}
