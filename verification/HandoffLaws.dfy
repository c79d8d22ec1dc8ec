/** The coder's handoff: he always receives the packet of the frozen plan, and a plan resumed after a pause is
    never handed off. */
module HandoffLaws {
  import opened Results
  import opened Stages
  import opened Evidence
  import opened Audit
  import opened TaskLog
  import opened Gates
  import opened Decisions
  import opened Engine
  import opened EngineInvariant
  import opened EngineSteps
  import opened PauseResume
  import opened TaskRuns
  import Policy

  /** After its creation a log is made of transitions. */
  lemma {:induction false} TransitionsOfLog(log: seq<Event>, task: string, n: nat)
    requires GoodLog(log, task) && 0 < n <= |log|
    ensures Transitions(log[..n]) == log[1..n]
    decreases n
  {
    hide GoodLog;
    LogEntry(log, task, n - 1);
    assert DropLast(log[..n]) == log[..n - 1] && Last(log[..n]) == log[n - 1];
    if n > 1 {
      TransitionsOfLog(log, task, n - 1);
      assert log[1..n - 1] + [log[n - 1]] == log[1..n];
    } else {
      assert Transitions(log[..0]) == [];
    }
  }

  /** The event that entered the stage a transition leaves: the one before it, or the one before its pause. */
  function Entry(log: seq<Event>, i: nat): int
    requires i < |log|
  {
    if log[i].body.source == Some(WaitingHuman) then i - 2 else i - 1
  }

  lemma LatestBoundaryIsEntry(bundle: Policy.Bundle, q: Queue, task: string, log: seq<Event>, i: nat)
    requires GoodLog(log, task) && Gated(bundle, log) && Filed(q, task, log) && 0 < i < |log|
    requires LatestBoundary(StateOf(log[i - 1]), log[..i]).Some?
    ensures 0 < Entry(log, i) < i && LatestBoundary(StateOf(log[i - 1]), log[..i]) == Some(log[Entry(log, i)])
  {
    hide GoodLog, Gated, Filed, GateSource;
    EventShape(bundle, q, task, log, i);
    LogShape(log, task, i);
    TransitionsOfLog(log, task, i);
  }

  lemma {:induction false} BoundaryIsLast(lineage: seq<Event>, k: nat)
    requires k < |lineage| && FreezesPlan(lineage[k])
    requires forall i :: k < i < |lineage| ==> !FreezesPlan(lineage[i])
    ensures LastBoundary(lineage) == Some(lineage[k])
    decreases |lineage|
  {
    hide FreezesPlan;
    if k < |lineage| - 1 { BoundaryIsLast(DropLast(lineage), k); }
  }

  /** Back to IMPLEMENTING after a fix, or there for the first time. */
  predicate HandsOff(log: seq<Event>, i: nat)
    requires 0 < i < |log|
  {
    && (Leaves(log, i) == Some(PlanReady) || Leaves(log, i) == Some(FixRequired))
    && log[i].body.target == Some(Implementing)
  }

  /** The packet the event binds first is the one of the plan that event `b` froze, under the coder's name. */
  predicate KeepsPlan(e: Event, b: Event, task: string) {
    && FreezesPlan(b) && |b.body.evidence| == 2 && e.body.evidence != []
    && b.body.evidence[0].file.Json? && b.body.evidence[0].file.record.Packet? && b.body.evidence[0].file.record.role == Planner
    && e.body.evidence[0].file == Json(CoderPacket(b.body.evidence[0].file.record, task), None)
  }

  lemma KeptIsKept(files: map<string, File>, boundary: Option<Event>, s: TaskState, submitted: File, e: Event)
    requires Canonical(submitted) && KeepsFrozenPlan(files, boundary, s, submitted.record)
    requires e.body.evidence != [] && e.body.evidence[0].file == submitted
    ensures boundary.Some? && KeepsPlan(e, boundary.value, s.task)
  {
    hide Completed;
  }

  /** The event whose plan the gate compares with. */
  function ComparedWith(s: TaskState, lineage: seq<Event>, source: Stage): Option<Event> {
    if source == PlanReady then LatestBoundary(s, lineage) else LastBoundary(lineage)
  }

  lemma GateComparesPlans(files: map<string, File>, lineage: seq<Event>, s: TaskState, source: Stage, submitted: seq<File>)
    requires GateAccepts(files, Some(lineage), s, source, Implementing, submitted) && (source == PlanReady || source == FixRequired)
    ensures submitted != [] && Canonical(submitted[0])
    ensures KeepsFrozenPlan(files, ComparedWith(s, lineage, source), s, submitted[0].record)
  {
    hide KeepsFrozenPlan, LatestBoundary, LastBoundary, Blockers;
    assert GateKind(source, Implementing) == (if source == PlanReady then CoderHandoff else CoderRemediationHandoff);
  }

  lemma HandoffIsBoundAsValidated(source: Stage, submitted: seq<File>, bound: seq<Binding>)
    requires BoundTo(source, Implementing, submitted, bound) && (source == PlanReady || source == FixRequired) && submitted != []
    ensures bound != [] && bound[0].file == submitted[0]
  {
    assert Contents(bound)[0] == submitted[0];
  }

  lemma HandoffIsKept(bundle: Policy.Bundle, q: Queue, task: string, log: seq<Event>, i: nat)
    requires GoodLog(log, task) && Gated(bundle, log) && Filed(q, task, log) && 0 < i < |log| && HandsOff(log, i)
    ensures var boundary := ComparedWith(StateOf(log[i - 1]), log[..i], Leaves(log, i).value);
            boundary.Some? && KeepsPlan(log[i], boundary.value, task)
  {
    hide GoodLog, Gated, Filed, KeepsFrozenPlan, ComparedWith, KeepsPlan, GateAccepts, BoundTo;
    MoveIsLegal(bundle, q, task, log, i);
    var source, prior := Leaves(log, i).value, StateOf(log[i - 1]);
    LogEntry(log, task, i - 1);
    var submitted :| BoundTo(source, Implementing, submitted, log[i].body.evidence) && GatePassed(log[..i], prior, source, Implementing, submitted);
    var files: map<string, File> :| GateAccepts(files, Some(log[..i]), prior, source, Implementing, submitted);
    GateComparesPlans(files, log[..i], prior, source, submitted);
    HandoffIsBoundAsValidated(source, submitted, log[i].body.evidence);
    KeptIsKept(files, ComparedWith(prior, log[..i], source), prior, submitted[0], log[i]);
  }

  /** In every reachable state, whenever a task goes from PLAN_READY or FIX_REQUIRED to IMPLEMENTING, the coder
      receives the packet of the last plan that was frozen, unchanged but for his role and its identity. From
      PLAN_READY that plan is the one that entered the stage, by SPEC_READY itself and not by a resume. */
  lemma CoderReceivesTheFrozenPlan(bundle: Policy.Bundle, s: System, task: string, i: nat)
    requires Reachable(bundle, s) && task in s.history && 0 < i < |s.history[task]| && HandsOff(s.history[task], i)
    ensures var log := s.history[task];
            && LastBoundary(log[..i]).Some? && KeepsPlan(log[i], LastBoundary(log[..i]).value, task)
            && (Leaves(log, i) == Some(PlanReady) ==>
                  0 < Entry(log, i) < i && FreezesPlan(log[Entry(log, i)]) && LastBoundary(log[..i]) == Some(log[Entry(log, i)]))
  {
    hide Reachable, Safe, GoodLog, Gated, Filed, LatestBoundary;
    ReachableIsSafe(bundle, s);
    TaskIsLogged(bundle, s, task);
    var log := s.history[task];
    HandoffIsKept(bundle, s.queue, task, log, i);
    if Leaves(log, i) == Some(PlanReady) {
      LatestBoundaryIsEntry(bundle, s.queue, task, log, i);
      EventShape(bundle, s.queue, task, log, i);
      BoundaryIsLast(log[..i], Entry(log, i));
    }
  }

  /** A plan stage entered by a resume is never left for IMPLEMENTING, paused again or not. */
  lemma ResumedPlanIsNeverHandedOff(bundle: Policy.Bundle, s: System, task: string, i: nat)
    requires Reachable(bundle, s) && task in s.history && 0 < i < |s.history[task]|
    requires var log := s.history[task];
             && Leaves(log, i) == Some(PlanReady)
             && 0 <= Entry(log, i) && log[Entry(log, i)].body.source == Some(WaitingHuman)
    ensures s.history[task][i].body.target != Some(Implementing)
  {
    hide Reachable, KeepsPlan, LastBoundary;
    if HandsOff(s.history[task], i) {
      CoderReceivesTheFrozenPlan(bundle, s, task, i);
    }
  }

  // Such a plan is reached.

  predicate ResumesPlan(w: Workflow) {
    && LeadsToReview(w) && WaitingHuman in Targets(w, SpecReady) && PlanReady in Targets(w, WaitingHuman)
    && Abandoned in Targets(w, PlanReady)
  }

  lemma PlanGateAccepts(lineage: seq<Event>, s: TaskState)
    requires s.project == "P" && s.task == "T"
    ensures GateAccepts(map[], Some(lineage), s, SpecReady, PlanReady, Contents(PlanBound()))
    ensures RequiredActor(SpecReady, PlanReady) == Some(Planner) && PlanBound() != []
  {
    PairGateAccepts(Planner, PlanReady, s);
  }

  lemma PausedPlanIsReached(w: Workflow) returns (s: System, log: seq<Event>)
    requires ResumesPlan(w)
    ensures Standstill(w, s, "T", log) && StateOf(Last(log)).current == PlanReady && |log| > 2
    ensures Last(log).body.source == Some(WaitingHuman) && Last(log).body.target == Some(PlanReady)
    ensures Leaves(log, |log| - 1) == Some(SpecReady)
  {
    hide Standstill, StateOf, GateAccepts, PausedQueue, PlanBound, Tidy;
    var reached, before := SpecIsReached(w);
    var waiting, e := PauseIsReached(w, reached, before, SpecReady, PlanReady);
    PausedStates(w, waiting, before, e);
    PausedMeans(w, waiting, before, e, SpecReady, PlanReady);
    PlanGateAccepts(before + [e], StateOf(e));
    var x;
    s, x := ResumeIsReached(w, waiting, before, e, SpecReady, PlanReady, Planner, PlanBound());
    log := before + [e] + [x];
    assert log[|log| - 1] == x && log[|log| - 2] == e;
  }

  /** Under every table that lets SPEC_READY pause and resume, a reachable task leaves a plan stage that a
      resume entered, though never for IMPLEMENTING. */
  lemma ResumedPlanIsReached(w: Workflow)
    requires ResumesPlan(w)
    ensures exists s: System, i: nat ::
              && Reachable(Configured(w), s) && "T" in s.history && 0 < i < |s.history["T"]|
              && Leaves(s.history["T"], i) == Some(PlanReady)
              && 0 < Entry(s.history["T"], i) && s.history["T"][Entry(s.history["T"], i)].body.source == Some(WaitingHuman)
              && Leaves(s.history["T"], Entry(s.history["T"], i)) == Some(SpecReady)
  {
    hide StateOf, GateAccepts, Configured, Reachable, LeadsToReview, PairBound;
    var s, log := PausedPlanIsReached(w);
    assert Tidy(w) by { LeadsIsTidy(w); }
    assert GateKind(PlanReady, Abandoned) == Generic && RequiredActor(PlanReady, Abandoned) == None;
    var t, e := PairRuns(w, s, log, Abandoned, Controller);
    var more, i := log + [e], |log|;
    assert more[i] == e && more[i - 1] == Last(log) && more[i - 2] == log[i - 2];
    assert Entry(more, i) == i - 1 && Leaves(more, i - 1) == Leaves(log, i - 1);
  }

  lemma ShippedTableResumesPlans()
    ensures ResumesPlan(Shipped())
  {
    hide Shipped, LeadsToReview;
    ShippedLeads();
    ShippedEdges();
  }
}
