/** When the listing of pending decisions recovers, and when it fails for ever. */
module QueueLaws {
  import opened Results
  import opened Stages
  import opened Audit
  import opened Store
  import opened TaskLog
  import opened Gates
  import opened Decisions
  import opened Engine
  import opened EngineInvariant
  import opened EngineSteps
  import opened EngineMethods
  import opened EngineRuns
  import opened DecisionLaws
  import opened TaskRuns
  import Policy

  function Continue(bundle: Policy.Bundle, s: System, script: seq<(Pid, Action)>): Option<System>
    decreases |script|
  {
    if script == [] then Some(s)
    else
      match Act(bundle, s, script[0].0, script[0].1)
      case None => None
      case Some(next) => Continue(bundle, next, script[1..])
  }

  /** A request on file whose place in the log of its task went to an event that is not its pause. */
  predicate Stranded(s: System, id: Id) {
    && id in s.queue.pending && id.Derived? && id.task in s.history && id.sequence <= |s.history[id.task]|
    && !PauseCommitted(s.history, id)
  }

  predicate WritesRequest(ph: Phase, id: Id) {
    ph.CreatingRequest? && WaitId(ph.plan.current.task, ph.plan.sequence) == id
  }

  predicate WritesResolution(ph: Phase, id: Id) {
    ph.WritingResolution? && ph.plan.resolution.Some? && ph.plan.resolution.value.decisionId == id
  }

  /** A torn file of a decision whose writer is no longer about to write it. */
  predicate LeftTorn(s: System, id: Id) {
    && id in s.queue.pending
    && (|| (s.queue.pending[id].Torn? && !WritesRequest(PhaseOf(s, s.queue.pending[id].writer), id))
        || (id in s.queue.resolved && s.queue.resolved[id].Torn?
            && !WritesResolution(PhaseOf(s, s.queue.resolved[id].writer), id)))
  }

  // One step.

  /** What a step can do to the logs and to the names in the directory: only add. */
  predicate Adds(s: System, s': System) {
    && (forall task :: task in s.history ==> task in s'.history && s.history[task] <= s'.history[task])
    && s.queue.pending.Keys <= s'.queue.pending.Keys
  }

  lemma CommittedAdds(s: System, e: Event)
    requires Committed(s, e).Some?
    ensures Adds(s, Committed(s, e).value) && Committed(s, e).value.queue == s.queue
  {
    hide Store.Commit, StateOf;
  }

  lemma ActAdds(bundle: Policy.Bundle, s: System, p: Pid, a: Action)
    requires Act(bundle, s, p, a).Some?
    ensures Adds(s, Act(bundle, s, p, a).value)
  {
    hide Committed, Judges, Resumes, GateSource, ReadState, ReadEvents, Policy.Evaluate, ValidRequest, TransitionEvent,
         CreationEvent, Binds, RequestOf, Answers;
    match a
    case Intake(task, project, actor, createdAt) => CommittedAdds(s, CreationEvent(task, project, actor, createdAt));
    case Commit =>
      var plan := PhaseOf(s, p).plan;
      CommittedAdds(s, TransitionEvent(plan.current, ProposalOf(plan)));
    case _ =>
  }

  lemma StrandedStays(bundle: Policy.Bundle, s: System, p: Pid, a: Action, id: Id)
    requires Stranded(s, id) && Act(bundle, s, p, a).Some?
    ensures Stranded(Act(bundle, s, p, a).value, id)
  {
    hide Act;
    ActAdds(bundle, s, p, a);
  }

  /** A step that leaves the directory alone and is not about to write to it. */
  predicate OffTheQueue(s: System, p: Pid, s': System) {
    && s'.queue == s.queue && s'.phases == s.phases[p := PhaseOf(s', p)]
    && !PhaseOf(s', p).CreatingRequest? && !PhaseOf(s', p).WritingResolution?
  }

  lemma OffTheQueueKeepsTorn(s: System, p: Pid, s': System, id: Id)
    requires LeftTorn(s, id) && OffTheQueue(s, p, s')
    ensures LeftTorn(s', id)
  {
    assert forall o: Pid :: o != p ==> PhaseOf(s', o) == PhaseOf(s, o);
  }

  predicate QueueAction(a: Action) { a.OpenRequest? || a.WriteRequest? || a.OpenResolution? || a.WriteResolution? }

  lemma OtherActionsAreOff(bundle: Policy.Bundle, s: System, p: Pid, a: Action)
    requires Act(bundle, s, p, a).Some? && !QueueAction(a) && !a.Intake?
    ensures OffTheQueue(s, p, Act(bundle, s, p, a).value)
  {
    hide Committed, Judges, Resumes, GateSource, ReadState, ReadEvents, Policy.Evaluate, TransitionEvent, Binds;
    if a.Commit? {
      hide Act;
      CommitIsOff(bundle, s, p);
    }
  }

  lemma CommitIsOff(bundle: Policy.Bundle, s: System, p: Pid)
    requires Act(bundle, s, p, Engine.Commit).Some?
    ensures OffTheQueue(s, p, Act(bundle, s, p, Engine.Commit).value)
  {
    hide Store.Commit, TransitionEvent, StateOf;
  }

  lemma IntakeKeepsTorn(bundle: Policy.Bundle, s: System, p: Pid, a: Action, id: Id)
    requires a.Intake? && LeftTorn(s, id) && Act(bundle, s, p, a).Some?
    ensures LeftTorn(Act(bundle, s, p, a).value, id)
  {
    hide Store.Commit, CreationEvent, StateOf;
    assert forall o: Pid :: PhaseOf(Act(bundle, s, p, a).value, o) == PhaseOf(s, o);
  }

  lemma OpenRequestKeepsTorn(bundle: Policy.Bundle, s: System, p: Pid, a: Action, id: Id)
    requires a.OpenRequest? && LeftTorn(s, id) && Act(bundle, s, p, a).Some?
    ensures LeftTorn(Act(bundle, s, p, a).value, id)
  {
    hide Judges, Committed, Binds, GateSource, ReadEvents, ReadState, PlanAt, Resumes, OpenedResolution, WrittenResolution;
    var s' := Act(bundle, s, p, a).value;
    assert forall o: Pid :: o != p ==> PhaseOf(s', o) == PhaseOf(s, o);
  }

  lemma OpenResolutionKeepsTorn(bundle: Policy.Bundle, s: System, p: Pid, a: Action, id: Id)
    requires a.OpenResolution? && LeftTorn(s, id) && Act(bundle, s, p, a).Some?
    ensures LeftTorn(Act(bundle, s, p, a).value, id)
  {
    hide ValidRequest, Answers, Judges, Committed, Binds, GateSource, ReadEvents, ReadState, PlanAt, Resumes, OpenedRequest, WrittenRequest;
    var s' := Act(bundle, s, p, a).value;
    assert forall o: Pid :: o != p ==> PhaseOf(s', o) == PhaseOf(s, o);
  }

  lemma WriterOwnsItsRequest(bundle: Policy.Bundle, s: System, p: Pid)
    requires Safe(bundle, s) && PhaseOf(s, p).CreatingRequest?
    ensures var id := WaitId(PhaseOf(s, p).plan.current.task, PhaseOf(s, p).plan.sequence);
            id in s.queue.pending && s.queue.pending[id] == Torn(p)
  {
    OwnPhase(bundle, s, p);
    hide Safe, LogsSound, PlanSound, BoundTo, ReadySound;
  }

  lemma WriterOwnsItsResolution(bundle: Policy.Bundle, s: System, p: Pid)
    requires Safe(bundle, s) && PhaseOf(s, p).WritingResolution?
    ensures PhaseOf(s, p).plan.resolution.Some?
    ensures var id := PhaseOf(s, p).plan.resolution.value.decisionId; id in s.queue.resolved && s.queue.resolved[id] == Torn(p)
  {
    OwnPhase(bundle, s, p);
    hide Safe, LogsSound, PlanSound, BoundTo, ReadySound, ValidRequest;
  }

  /** A writer writes only the file he opened, and that is not the one left torn. */
  lemma WriteRequestKeepsTorn(bundle: Policy.Bundle, s: System, p: Pid, id: Id)
    requires Safe(bundle, s) && LeftTorn(s, id) && Act(bundle, s, p, WriteRequest).Some?
    ensures LeftTorn(Act(bundle, s, p, WriteRequest).value, id)
  {
    hide Safe;
    WriterOwnsItsRequest(bundle, s, p);
    var s' := Act(bundle, s, p, WriteRequest).value;
    assert forall o: Pid :: o != p ==> PhaseOf(s', o) == PhaseOf(s, o);
  }

  lemma WriteResolutionKeepsTorn(bundle: Policy.Bundle, s: System, p: Pid, id: Id)
    requires Safe(bundle, s) && LeftTorn(s, id) && Act(bundle, s, p, WriteResolution).Some?
    ensures LeftTorn(Act(bundle, s, p, WriteResolution).value, id)
  {
    hide Safe;
    WriterOwnsItsResolution(bundle, s, p);
    var s' := Act(bundle, s, p, WriteResolution).value;
    assert forall o: Pid :: o != p ==> PhaseOf(s', o) == PhaseOf(s, o);
  }

  lemma LeftTornStays(bundle: Policy.Bundle, s: System, p: Pid, a: Action, id: Id)
    requires Safe(bundle, s) && LeftTorn(s, id) && Act(bundle, s, p, a).Some?
    ensures LeftTorn(Act(bundle, s, p, a).value, id)
  {
    hide Safe, LeftTorn, Act, OffTheQueue;
    match a
    case Intake(_, _, _, _) => IntakeKeepsTorn(bundle, s, p, a, id);
    case OpenRequest(_) => OpenRequestKeepsTorn(bundle, s, p, a, id);
    case WriteRequest => WriteRequestKeepsTorn(bundle, s, p, id);
    case OpenResolution => OpenResolutionKeepsTorn(bundle, s, p, a, id);
    case WriteResolution => WriteResolutionKeepsTorn(bundle, s, p, id);
    case _ =>
      OtherActionsAreOff(bundle, s, p, a);
      OffTheQueueKeepsTorn(s, p, Act(bundle, s, p, a).value, id);
  }

  // Every later state.

  lemma {:induction false} ContinueIsReachable(bundle: Policy.Bundle, s: System, script: seq<(Pid, Action)>)
    requires Reachable(bundle, s) && Continue(bundle, s, script).Some?
    ensures Reachable(bundle, Continue(bundle, s, script).value)
    decreases |script|
  {
    hide Act, Reachable;
    if script != [] {
      ActIsReachable(bundle, s, script[0].0, script[0].1);
      ContinueIsReachable(bundle, Act(bundle, s, script[0].0, script[0].1).value, script[1..]);
    }
  }

  lemma {:induction false} LostStays(bundle: Policy.Bundle, s: System, script: seq<(Pid, Action)>, id: Id)
    requires Reachable(bundle, s) && (Stranded(s, id) || LeftTorn(s, id)) && Continue(bundle, s, script).Some?
    ensures Stranded(Continue(bundle, s, script).value, id) || LeftTorn(Continue(bundle, s, script).value, id)
    decreases |script|
  {
    hide Act, Reachable, Safe, Stranded, LeftTorn;
    if script != [] {
      var p, a := script[0].0, script[0].1;
      ActIsReachable(bundle, s, p, a);
      if Stranded(s, id) {
        StrandedStays(bundle, s, p, a, id);
      } else {
        ReachableIsSafe(bundle, s);
        LeftTornStays(bundle, s, p, a, id);
      }
      LostStays(bundle, Act(bundle, s, p, a).value, script[1..], id);
    }
  }

  lemma LostMeans(s: System, id: Id)
    requires Stranded(s, id) || LeftTorn(s, id)
    ensures id in s.queue.pending && (!FilesWhole(s.queue) || !PauseCommitted(s.history, id))
  {
    hide PauseCommitted;
  }

  /** Once a filed request has lost its place in the log to another event, or a file was left torn by a writer
      who is gone, every listing fails from then on, for all tasks and whatever anybody does. */
  lemma ListingFailsForEver(bundle: Policy.Bundle, s: System, script: seq<(Pid, Action)>, id: Id, names: seq<Id>)
    requires Reachable(bundle, s) && (Stranded(s, id) || LeftTorn(s, id)) && Continue(bundle, s, script).Some?
    requires Listing(names, Continue(bundle, s, script).value.queue)
    ensures var t := Continue(bundle, s, script).value; ListPending(t.queue, t.tables, names) == None
  {
    hide Reachable, Stranded, LeftTorn, PauseCommitted, ListPending, FilesWhole;
    var t := Continue(bundle, s, script).value;
    ContinueIsReachable(bundle, s, script);
    LostStays(bundle, s, script, id);
    LostMeans(t, id);
    ListPendingExactly(bundle, t, names);
  }

  // A pause whose request is filed and not yet committed.

  /** The request is on file, and the process is about to commit its pause. */
  ghost predicate Halfway(w: Workflow, s: System, log: seq<Event>, source: Stage, stage: Stage, plan: Plan) {
    && Reachable(Configured(w), s) && PhaseOf(s, 0) == Prepared(plan) && plan.resolution == None
    && "T" in s.history && s.history["T"] == log && log != [] && s.tables.states.Keys == {"T"}
    && StateOf(Last(log)).task == "T" && StateOf(Last(log)).project == "P"
    && s.queue == PausedQueue(log, stage) && Logged(s.tables, "T", log)
    && plan.current == StateOf(Last(log)) && ValidRequest(plan.current, ProposalOf(plan))
    && plan.sequence == |log| + 1 && plan.bound != [] && plan.target == WaitingHuman
  }

  lemma PauseIsPrepared(w: Workflow, s: System, log: seq<Event>, source: Stage, stage: Stage) returns (t: System, plan: Plan)
    requires Tidy(w) && Standstill(w, s, "T", log) && StateOf(Last(log)).current == source && source != WaitingHuman
    requires WaitingHuman in Targets(w, source) && s.queue == Queue(map[], map[]) && stage != WaitingHuman && stage != Abandoned
    ensures Halfway(w, t, log, source, stage, plan)
  {
    hide Policy.Evaluate, Configured, Reachable, Safe, ValidRequest, Decide, Resolved, PausedQueue, Tidy, Passes, Binds, Steps,
         Logged, Fresh, FreshPlan, StateOf;
    var bundle := Configured(w);
    var a := Judge(stage, Controller, Asked(source, true), map[], [Note().file], 0);
    PauseDecision(w, s, a, source, stage);
    PausePasses(w, s, a, source);
    ReachableIsSafe(bundle, s);
    TaskIsFresh(bundle, s, "T");
    plan := FreshPlan(bundle, s, "T", source, a).(bound := [Note()]);
    PlanIsBlank(bundle, s, "T", source, a);
    var first := PreparationRuns(bundle, s, 0, "T", source, a, [Note()]);
    var bound := At(s, 0, Bound(plan));
    var second := DecisionRuns(bundle, bound, 0, plan, None, []);
    StepsJoin(bundle, s, 0, first, second);
    StepsAreReachable(bundle, s, 0, first + second);
    t := Steps(bundle, s, 0, first + second).value;
  }

  lemma PlanIsBlank(bundle: Policy.Bundle, s: System, task: string, source: Stage, a: Action)
    requires task in s.history && s.history[task] != [] && a.Judge?
    ensures var plan := FreshPlan(bundle, s, task, source, a);
            && plan.resolution == None && plan.decision == None && plan.current == StateAt(s, task)
            && plan.sequence == |s.history[task]| + 1
  {
    hide Policy.Evaluate, StateOf;
  }

  lemma HalfwayIsUncommitted(w: Workflow, s: System, log: seq<Event>, source: Stage, stage: Stage, plan: Plan, names: seq<Id>)
    requires Halfway(w, s, log, source, stage, plan) && Listing(names, s.queue)
    ensures PauseId(log) in s.queue.pending && s.queue.pending[PauseId(log)].Whole? && !PauseCommitted(s.history, PauseId(log))
    ensures ListPending(s.queue, s.tables, names) == None
  {
    hide Reachable, Logged, ValidRequest, Configured, StateOf, ListPending;
    ListPendingExactly(Configured(w), s, names);
  }

  /** Two more steps of the same process commit the pause. */
  lemma HalfwayCommits(w: Workflow, s: System, log: seq<Event>, source: Stage, stage: Stage, plan: Plan)
    returns (t: System, script: seq<(Pid, Action)>)
    requires Halfway(w, s, log, source, stage, plan)
    ensures Continue(Configured(w), s, script) == Some(t) && Reachable(Configured(w), t)
    ensures t.queue == s.queue && PauseCommitted(t.history, PauseId(log))
  {
    hide Reachable, Configured, ValidRequest, Logged, StateOf, TransitionEvent, Safe, Store.Commit;
    var bundle := Configured(w);
    var d := ProposalOf(plan);
    var e := TransitionEvent(plan.current, d);
    FreshRequestCommits(s.tables, "T", log, d);
    var s1 := At(s, 0, Committing(plan));
    var next := s.(tables := Written(Inserted(s.tables, e), StateOf(e)), history := Recorded(s.history, e));
    t := At(next, 0, Idle);
    OpensAndCommits(bundle, s, plan);
    script := [(0, OpenResolution), (0, Engine.Commit)];
    assert Continue(bundle, t, []) == Some(t) && script[1..] == [(0, Engine.Commit)] && script[1..][1..] == [];
    assert Continue(bundle, s1, script[1..]) == Some(t);
    ContinueIsReachable(bundle, s, script);
    ReachableIsSafe(bundle, t);
    HistoryIsTheRows(bundle, t, "T", log + [e]);
    TransitionMoves(plan.current, d);
  }

  lemma OpensAndCommits(bundle: Policy.Bundle, s: System, plan: Plan)
    requires PhaseOf(s, 0) == Prepared(plan) && plan.resolution == None && ValidRequest(plan.current, ProposalOf(plan))
    requires var e := TransitionEvent(plan.current, ProposalOf(plan));
             Store.Commit(s.tables, e, StateOf(e)) == Success((Written(Inserted(s.tables, e), StateOf(e)), true))
    ensures var e, s1 := TransitionEvent(plan.current, ProposalOf(plan)), At(s, 0, Committing(plan));
            && Act(bundle, s, 0, OpenResolution) == Some(s1)
            && Act(bundle, s1, 0, Engine.Commit)
            == Some(At(s.(tables := Written(Inserted(s.tables, e), StateOf(e)), history := Recorded(s.history, e)), 0, Idle))
  {
    hide ValidRequest, TransitionEvent, StateOf, Store.Commit, Written, Inserted, Recorded;
    assert s.phases[0 := Committing(plan)][0 := Idle] == s.phases[0 := Idle];
  }

  predicate PausesAtSpec(w: Workflow) { LeadsToReview(w) && WaitingHuman in Targets(w, SpecReady) }

  lemma HalfwayIsReached(w: Workflow) returns (s: System, log: seq<Event>, plan: Plan)
    requires PausesAtSpec(w)
    ensures Halfway(w, s, log, SpecReady, PlanReady, plan) && StateOf(Last(log)).current == SpecReady
  {
    hide Standstill, StateOf, Unmarked, Halfway, Tidy;
    var reached: System;
    reached, log := SpecIsReached(w);
    s, plan := PauseIsPrepared(w, reached, log, SpecReady, PlanReady);
  }

  /** A pause between its file and its commit: in a reachable state the listing fails, for a whole file, and
      two steps of the process later it succeeds again. */
  lemma ListingRecovers(w: Workflow)
    requires PausesAtSpec(w)
    ensures exists s: System, id: Id, script: seq<(Pid, Action)> ::
              && Reachable(Configured(w), s) && id in s.queue.pending && s.queue.pending[id].Whole? && !PauseCommitted(s.history, id)
              && (forall names :: Listing(names, s.queue) ==> ListPending(s.queue, s.tables, names) == None)
              && Continue(Configured(w), s, script).Some?
              && var t := Continue(Configured(w), s, script).value;
                 forall names :: Listing(names, t.queue) ==> ListPending(t.queue, t.tables, names).Some?
  {
    hide Reachable, Configured, StateOf, ListPending, Continue, Logged, ValidRequest;
    var s, log, plan := HalfwayIsReached(w);
    var t, script := HalfwayCommits(w, s, log, SpecReady, PlanReady, plan);
    forall names | Listing(names, s.queue) ensures ListPending(s.queue, s.tables, names) == None {
      HalfwayIsUncommitted(w, s, log, SpecReady, PlanReady, plan, names);
    }
    HalfwayIsUncommitted(w, s, log, SpecReady, PlanReady, plan, [PauseId(log)]);
    forall names | Listing(names, t.queue) ensures ListPending(t.queue, t.tables, names).Some? {
      ListPendingExactly(Configured(w), t, names);
    }
  }

  lemma StopStep(bundle: Policy.Bundle, s: System, p: Pid)
    ensures Act(bundle, s, p, Stop) == Some(At(s, p, Idle))
  {
  }

  /** The process stops before its commit, and another event takes the place of its pause. */
  lemma StrandedIsReached(w: Workflow)
    requires PausesAtSpec(w)
    ensures exists s: System, id: Id :: Reachable(Configured(w), s) && Stranded(s, id)
  {
    hide Reachable, Configured, StateOf, Logged, ValidRequest, PairBound, PairGate, Moved;
    var s, log, plan := HalfwayIsReached(w);
    StopStep(Configured(w), s, 0);
    ActIsReachable(Configured(w), s, 0, Stop);
    var stopped := At(s, 0, Idle);
    assert Standstill(w, stopped, "T", log);
    var t, e := PairRuns(w, stopped, log, PlanReady, Planner);
    EntersPlan(t.history, log, e);
    assert Stranded(t, PauseId(log));
  }

  lemma EntersPlan(h: History, log: seq<Event>, e: Event)
    requires "T" in h && h["T"] == log + [e] && StateOf(e).current == PlanReady
    ensures !PauseCommitted(h, PauseId(log))
  {
  }

  lemma PauseOpens(bundle: Policy.Bundle, s: System, plan: Plan)
    requires PhaseOf(s, 0) == Bound(plan) && plan.target == WaitingHuman && plan.evaluation.requiredHumanTriggers != []
    requires s.queue == Queue(map[], map[])
    ensures var id := RequestOf(plan).decisionId;
            var q := s.queue.(pending := map[id := Torn(0)]);
            Act(bundle, s, 0, OpenRequest(None)) == Some(At(s.(queue := q), 0, CreatingRequest(plan.(resolution := None))))
  {
  }

  /** The process stops between creating its file and writing it. */
  lemma TornIsReached(w: Workflow)
    requires PausesAtSpec(w)
    ensures exists s: System, id: Id :: Reachable(Configured(w), s) && LeftTorn(s, id)
  {
    hide Policy.Evaluate, Configured, Reachable, Safe, ValidRequest, Resolved, Tidy, Passes, Binds, Steps, FreshPlan, StateOf,
         ListPending, Resumes, Unmarked, Logged, Fresh;
    var bundle := Configured(w);
    var s, log := SpecIsReached(w);
    var a := Judge(PlanReady, Controller, Asked(SpecReady, true), map[], [Note().file], 0);
    LeadsIsTidy(w);
    PauseDecision(w, s, a, SpecReady, PlanReady);
    PausePasses(w, s, a, SpecReady);
    ReachableIsSafe(bundle, s);
    var plan := FreshPlan(bundle, s, "T", SpecReady, a).(bound := [Note()]);
    var first := PreparationRuns(bundle, s, 0, "T", SpecReady, a, [Note()]);
    StepsAreReachable(bundle, s, 0, first);
    var bound := At(s, 0, Bound(plan));
    PauseOpens(bundle, bound, plan);
    ActIsReachable(bundle, bound, 0, OpenRequest(None));
    var begun := Act(bundle, bound, 0, OpenRequest(None)).value;
    StopStep(bundle, begun, 0);
    ActIsReachable(bundle, begun, 0, Stop);
    assert LeftTorn(At(begun, 0, Idle), RequestOf(plan).decisionId);
  }

  lemma ShippedTablePauses()
    ensures PausesAtSpec(Shipped())
  {
    hide Shipped, LeadsToReview;
    ShippedLeads();
    ShippedEdges();
  }
}
