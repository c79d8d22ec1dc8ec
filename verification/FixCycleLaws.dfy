/** The fix cycle: what entering VERIFIED proves about the findings recorded since the last VERIFIED. */
module FixCycleLaws {
  import opened Results
  import opened Stages
  import opened Evidence
  import opened Audit
  import opened TaskLog
  import opened Gates
  import opened Decisions
  import opened Engine
  import opened EngineInvariant
  import opened EngineSteps
  import opened PauseResume
  import Policy

  // The last event that entered a stage.

  lemma {:induction false} PastLastMeans(lineage: seq<Event>, stage: Stage, n: nat)
    requires n <= |lineage|
    ensures PastLast(lineage, stage) == n
       <==> (&& (n > 0 ==> lineage[n - 1].body.target == Some(stage))
             && forall i :: n <= i < |lineage| ==> lineage[i].body.target != Some(stage))
    decreases |lineage|
  {
    if n < |lineage| {
      PastLastMeans(DropLast(lineage), stage, n);
    }
  }

  /** An interval that already contains the last VERIFIED boundary keeps it when the log is cut later. */
  lemma CutKeepsBoundary(log: seq<Event>, v: nat, g: nat)
    requires g <= v <= |log| && PastLast(log[..v], Verified) <= g
    ensures PastLast(log[..g], Verified) == PastLast(log[..v], Verified)
  {
    var n := PastLast(log[..v], Verified);
    PastLastMeans(log[..v], Verified, n);
    PastLastMeans(log[..g], Verified, n);
  }

  // What the blockers of a cycle contain.

  lemma {:induction false} OpenBlockersContain(bindings: seq<Binding>, j: nat)
    requires j < |bindings| && bindings[j].file.Json? && OpenBlocker(bindings[j].file.record)
    ensures bindings[j] in OpenBlockers(bindings)
  {
    if j < |bindings| - 1 {
      OpenBlockersContain(DropLast(bindings), j);
    }
  }

  predicate Blocks(b: Binding) { b.file.Json? && OpenBlocker(b.file.record) }

  lemma EventBlockersContain(files: map<string, Evidence.File>, e: Event, s: TaskState, j: nat)
    requires EventBlockers(files, e, s).Some? && j < |e.body.evidence| && Blocks(e.body.evidence[j])
    ensures e.body.evidence[j] in EventBlockers(files, e, s).value
  {
    hide OpenBlocker, VerificationFailure;
    var bindings := e.body.evidence;
    BlockerIsFinding(bindings[j]);
    if e.body.source == Some(Integrating) && FirstRoleIs(bindings, Verifier) {
      assert j >= 2;
      assert bindings[2..][j - 2] == bindings[j];
    } else if e.body.source == Some(TaskReview) && FirstRoleIs(bindings, Reviewer) {
      assert j >= 2;
      assert bindings[2..][j - 2] == bindings[j];
      OpenBlockersContain(bindings[2..], j - 2);
    } else {
      OpenBlockersContain(bindings, j);
    }
  }

  lemma BlockerIsFinding(b: Binding)
    requires Blocks(b)
    ensures b.file.Json? && b.file.record.Finding?
  {
  }

  lemma {:induction false} BlockersContain(files: map<string, Evidence.File>, events: seq<Event>, s: TaskState, f: nat, j: nat)
    requires BlockersOf(files, events, s).Some? && f < |events| && events[f].body.target == Some(FixRequired)
    requires j < |events[f].body.evidence| && Blocks(events[f].body.evidence[j])
    ensures events[f].body.evidence[j] in BlockersOf(files, events, s).value
    decreases |events|
  {
    hide EventBlockers, Blocks;
    if f < |events| - 1 {
      BlockersContain(files, DropLast(events), s, f, j);
    } else {
      EventBlockersContain(files, events[f], s, j);
    }
  }

  /** Finding `id` was recorded open, as an accepted P0 or P1, by event `f`. */
  predicate RecordsBlocker(e: Event, id: string) {
    exists j :: 0 <= j < |e.body.evidence| && BlockerId(e.body.evidence[j]) == Some(id)
  }

  function BlockerId(b: Binding): Option<string> {
    if b.file.Json? && b.file.record.Finding? && Blocks(b) then Some(b.file.record.id) else None
  }

  lemma CycleContains(lineage: seq<Event>, f: nat)
    requires PastLast(lineage, Verified) <= f < |lineage| && lineage[f].body.target == Some(FixRequired)
    ensures FixCycle(lineage) == lineage[PastLast(lineage, Verified)..]
  {
    hide PastLast;
    var cycle := lineage[PastLast(lineage, Verified)..];
    assert cycle[f - PastLast(lineage, Verified)] == lineage[f];
  }

  lemma BlockerIsListed(bindings: seq<Binding>, b: Binding, id: string)
    requires b in bindings && BlockerId(b) == Some(id)
    ensures id in FindingIds(bindings)
  {
    var k :| 0 <= k < |bindings| && bindings[k] == b;
    assert bindings[k].file.record.id == id;
  }

  lemma EventIsRequired(files: map<string, Evidence.File>, events: seq<Event>, s: TaskState, k: nat, id: string)
    requires k < |events| && events[k].body.target == Some(FixRequired) && RecordsBlocker(events[k], id)
    requires BlockersOf(files, events, s).Some?
    ensures id in FindingIds(BlockersOf(files, events, s).value)
  {
    hide BlockersOf, FindingIds;
    var j :| 0 <= j < |events[k].body.evidence| && BlockerId(events[k].body.evidence[j]) == Some(id);
    BlockersContain(files, events, s, k, j);
    BlockerIsListed(BlockersOf(files, events, s).value, events[k].body.evidence[j], id);
  }

  lemma RecordedIsRequired(files: map<string, Evidence.File>, lineage: seq<Event>, s: TaskState, f: nat, id: string)
    requires PastLast(lineage, Verified) <= f < |lineage| && lineage[f].body.target == Some(FixRequired)
    requires RecordsBlocker(lineage[f], id) && Blockers(files, Some(lineage), s).Some?
    ensures id in FindingIds(Blockers(files, Some(lineage), s).value)
  {
    hide RecordsBlocker, BlockersOf, FixCycle, FindingIds, PastLast;
    CycleContains(lineage, f);
    var cycle := FixCycle(lineage);
    assert cycle[f - PastLast(lineage, Verified)] == lineage[f];
    EventIsRequired(files, cycle, s, f - PastLast(lineage, Verified), id);
  }

  // The INTEGRATING gate.

  /** The evidence of an event reports the finding as verified or closed. */
  predicate Closes(bound: seq<Binding>, id: string) { id in ClosedIds(Contents(bound)) }

  lemma ClosedInSuffix(files: seq<Evidence.File>)
    requires |files| >= 2
    ensures ClosedIds(files[2..]) <= ClosedIds(files)
  {
    forall id | id in ClosedIds(files[2..]) ensures id in ClosedIds(files) {
      var i :| 0 <= i < |files[2..]| && files[2..][i].Json? && ClosesFinding(files[2..][i].record) && files[2..][i].record.id == id;
      assert files[i + 2] == files[2..][i];
    }
  }

  /** What passed the gate closes every required finding, as the files were read. */
  lemma GateCloses(files: map<string, Evidence.File>, lineage: seq<Event>, s: TaskState, source: Stage, submitted: seq<Evidence.File>)
    requires GateAccepts(files, Some(lineage), s, source, Integrating, submitted)
    ensures Blockers(files, Some(lineage), s).Some?
    ensures FindingIds(Blockers(files, Some(lineage), s).value) <= ClosedIds(submitted)
  {
    hide Blockers, ReviewFindings, ResultBinding, ClosedIds, FindingIds;
    if source == TaskReview {
      ClosedInSuffix(submitted);
    }
  }

  // Entering VERIFIED.

  /** Event `v` enters VERIFIED and a FIX_REQUIRED was entered since the previous VERIFIED. */
  predicate EndsCycle(log: seq<Event>, v: nat) {
    && 0 < v < |log| && log[v].body.target == Some(Verified)
    && FixCycle(log[..v]) != []
  }

  /** The last INTEGRATING after the last FIX_REQUIRED of the interval that event `v` ends, if there is one. */
  function LastIntegration(log: seq<Event>, v: nat): nat
    requires v <= |log|
  {
    var cycle := FixCycle(log[..v]);
    var fixed := PastLast(cycle, FixRequired);
    v - |cycle| + fixed + PastLast(cycle[fixed..], Integrating)
  }

  lemma CycleIsInterval(lineage: seq<Event>)
    requires FixCycle(lineage) != []
    ensures FixCycle(lineage) == lineage[PastLast(lineage, Verified)..]
    ensures Enters(FixCycle(lineage), FixRequired)
  {
    hide PastLast;
  }

  /** Inside the cycle: the last integration follows every fix. */
  lemma BoundaryInCycle(lineage: seq<Event>)
    requires FixCycle(lineage) != [] && Boundary(Some(lineage)).Some?
    ensures var cycle := FixCycle(lineage);
            var fixed := PastLast(cycle, FixRequired);
            var n := fixed + PastLast(cycle[fixed..], Integrating);
            && fixed < n <= |cycle| && cycle[n - 1].body.target == Some(Integrating)
            && Boundary(Some(lineage)) == Some(Some(cycle[n - 1].body.createdAt))
            && (forall f :: fixed <= f < |cycle| ==> cycle[f].body.target != Some(FixRequired))
  {
    hide FixCycle;
    var cycle := FixCycle(lineage);
    var fixed := PastLast(cycle, FixRequired);
    var tail := cycle[fixed..];
    var k := PastLast(tail, Integrating);
    PastLastMeans(cycle, FixRequired, fixed);
    PastLastMeans(tail, Integrating, k);
    hide PastLast;
    assert tail[k - 1] == cycle[fixed + k - 1];
  }

  lemma CyclePosition(log: seq<Event>, v: nat, f: nat)
    requires v <= |log| && FixCycle(log[..v]) != []
    ensures var cycle, start := FixCycle(log[..v]), PastLast(log[..v], Verified);
            && |cycle| == v - start && (start <= f < v ==> cycle[f - start] == log[f])
  {
    hide PastLast;
    CycleIsInterval(log[..v]);
  }

  lemma BoundaryIsIntegration(log: seq<Event>, v: nat)
    requires v <= |log| && FixCycle(log[..v]) != [] && Boundary(Some(log[..v])).Some?
    ensures var g := LastIntegration(log, v);
            && PastLast(log[..v], Verified) < g <= v
            && log[g - 1].body.target == Some(Integrating)
            && Boundary(Some(log[..v])) == Some(Some(log[g - 1].body.createdAt))
  {
    BoundaryInCycle(log[..v]);
    var g := LastIntegration(log, v);
    CyclePosition(log, v, g - 1);
    hide PastLast, FixCycle, Boundary;
  }

  lemma FixesPrecedeIntegration(log: seq<Event>, v: nat, f: nat)
    requires v <= |log| && FixCycle(log[..v]) != [] && Boundary(Some(log[..v])).Some?
    requires PastLast(log[..v], Verified) <= f < v && log[f].body.target == Some(FixRequired)
    ensures f < LastIntegration(log, v) - 1
  {
    BoundaryInCycle(log[..v]);
    CyclePosition(log, v, f);
    hide PastLast, FixCycle, Boundary;
    var cycle, start := FixCycle(log[..v]), PastLast(log[..v], Verified);
    assert f - start < PastLast(cycle, FixRequired);
  }

  /** Since the VERIFIED before event `v`, event `f` recorded finding `id` as an accepted open P0 or P1. */
  predicate Owes(log: seq<Event>, v: nat, f: nat, id: string) {
    v <= |log| && PastLast(log[..v], Verified) <= f < v && log[f].body.target == Some(FixRequired) && RecordsBlocker(log[f], id)
  }

  /** Event `i` integrated from `source` on files its gate accepted, and that gate accepts no files, now or
      ever, that leave the finding unreported as verified or closed. */
  ghost predicate Reports(log: seq<Event>, i: nat, source: Stage, id: string)
    requires 0 < i < |log|
  {
    && PassedGate(log, i, source, Integrating)
    && forall submitted ::
         GatePassed(log[..i], StateOf(log[i - 1]), source, Integrating, submitted) ==> id in ClosedIds(submitted)
  }

  /** The last INTEGRATING after the last FIX_REQUIRED reported it. */
  ghost predicate Settles(log: seq<Event>, v: nat, f: nat, id: string) {
    v <= |log| &&
    var i := LastIntegration(log, v) - 1;
    && f < i < v && log[i].body.target == Some(Integrating)
    && Leaves(log, i).Some? && Reports(log, i, Leaves(log, i).value, id)
  }

  /** A VERIFIED event passed the verifier gate on the lineage before it. */
  lemma VerifiedPassedItsGate(bundle: Policy.Bundle, q: Queue, task: string, log: seq<Event>, v: nat) returns (submitted: seq<Evidence.File>)
    requires GoodLog(log, task) && Gated(bundle, log) && Filed(q, task, log)
    requires 0 < v < |log| && log[v].body.target == Some(Verified)
    ensures VerifierGate(Some(log[..v]), StateOf(log[v - 1]), Verified, submitted)
    ensures Contents(log[v].body.evidence) == submitted
  {
    hide GoodLog, Gated, Filed, VerifierGate;
    MoveIsLegal(bundle, q, task, log, v);
    var source := Leaves(log, v).value;
    submitted :| BoundTo(source, Verified, submitted, log[v].body.evidence) && GatePassed(log[..v], StateOf(log[v - 1]), source, Verified, submitted);
    assert GateKind(source, Verified) == VerifierResult;
  }

  /** Every accepted VERIFIED record of the event is no older than the last integration of its cycle. */
  lemma VerifierGateIsFresh(lineage: seq<Event>, s: TaskState, submitted: seq<Evidence.File>, boundary: nat, k: nat)
    requires VerifierGate(Some(lineage), s, Verified, submitted) && Boundary(Some(lineage)) == Some(Some(boundary))
    requires k < |submitted| && submitted[k].Json? && submitted[k].record.Verification?
    requires submitted[k].record.recommendation == RecommendVerified
    ensures submitted[k].record.verifiedAt >= boundary
  {
    hide Boundary;
    if k >= 2 {
      assert FreshVerification(submitted[k].record, s, Some(boundary));
    }
  }

  /** What is owed at the end of an interval was owed all along. */
  lemma OwedEarlier(log: seq<Event>, v: nat, f: nat, id: string, i: nat)
    requires Owes(log, v, f, id) && f < i <= v
    ensures Owes(log, i, f, id)
  {
    hide RecordsBlocker, PastLast;
    CutKeepsBoundary(log, v, i);
  }

  /** The integration's gate saw the finding among the blockers of its cycle. */
  lemma IntegrationSawTheCycle(log: seq<Event>, i: nat, f: nat, id: string, files: map<string, Evidence.File>, s: TaskState)
    requires Owes(log, i, f, id) && Blockers(files, Some(log[..i]), s).Some?
    ensures id in FindingIds(Blockers(files, Some(log[..i]), s).value)
  {
    hide RecordsBlocker, Blockers, FindingIds, PastLast;
    assert log[..i][f] == log[f];
    RecordedIsRequired(files, log[..i], s, f, id);
  }

  /** From TASK_REVIEW the accepted files are the bound ones. */
  lemma ReportedFromReview(log: seq<Event>, i: nat, id: string)
    requires 0 < i < |log| && Reports(log, i, TaskReview, id)
    ensures Closes(log[i].body.evidence, id)
  {
    hide ClosedIds, GatePassed;
  }

  /** Any INTEGRATING event: its gate had whatever its cycle owes among its blockers. */
  lemma IntegrationReports(bundle: Policy.Bundle, q: Queue, task: string, log: seq<Event>, i: nat, f: nat, id: string)
    requires GoodLog(log, task) && Gated(bundle, log) && Filed(q, task, log)
    requires Owes(log, i, f, id) && i < |log| && log[i].body.target == Some(Integrating)
    ensures Leaves(log, i).Some? && Reports(log, i, Leaves(log, i).value, id)
  {
    hide GoodLog, Gated, Filed, Owes, Blockers, FindingIds, ClosedIds, GateAccepts, PassedGate;
    OwedIsBefore(log, i, f, id);
    MoveIsLegal(bundle, q, task, log, i);
    var source, prior := Leaves(log, i).value, StateOf(log[i - 1]);
    forall submitted | GatePassed(log[..i], prior, source, Integrating, submitted) ensures id in ClosedIds(submitted) {
      var files: map<string, Evidence.File> :| GateAccepts(files, Some(log[..i]), prior, source, Integrating, submitted);
      GateCloses(files, log[..i], prior, source, submitted);
      IntegrationSawTheCycle(log, i, f, id, files, prior);
    }
  }

  lemma OwedIsBefore(log: seq<Event>, i: nat, f: nat, id: string)
    requires Owes(log, i, f, id)
    ensures f < i
  {
    hide RecordsBlocker, PastLast;
  }

  lemma CycleSettles(bundle: Policy.Bundle, q: Queue, task: string, log: seq<Event>, v: nat, f: nat, id: string)
    requires GoodLog(log, task) && Gated(bundle, log) && Filed(q, task, log)
    requires Owes(log, v, f, id) && FixCycle(log[..v]) != [] && Boundary(Some(log[..v])).Some?
    ensures Settles(log, v, f, id)
  {
    hide GoodLog, Gated, Filed, RecordsBlocker, PastLast, FixCycle, Boundary, LastIntegration, Reports;
    BoundaryIsIntegration(log, v);
    FixesPrecedeIntegration(log, v, f);
    OwedEarlier(log, v, f, id, LastIntegration(log, v) - 1);
    IntegrationReports(bundle, q, task, log, LastIntegration(log, v) - 1, f, id);
  }

  /** Owing is what makes the interval a fix cycle. */
  lemma OwingIsACycle(log: seq<Event>, v: nat, f: nat, id: string)
    requires Owes(log, v, f, id)
    ensures FixCycle(log[..v]) != []
  {
    hide RecordsBlocker, PastLast;
    CycleContains(log[..v], f);
  }

  /** In every reachable state every INTEGRATING event reports what its cycle owes: it was accepted on files
      that report the finding verified or closed, as its gate accepts no others, and it recorded those very
      files if it left TASK_REVIEW. */
  lemma EveryIntegrationReports(bundle: Policy.Bundle, s: System, task: string, i: nat, f: nat, id: string)
    requires Reachable(bundle, s) && task in s.history && i < |s.history[task]|
    requires s.history[task][i].body.target == Some(Integrating) && Owes(s.history[task], i, f, id)
    ensures var log := s.history[task];
            && i > 0 && Leaves(log, i).Some? && Reports(log, i, Leaves(log, i).value, id)
            && (Leaves(log, i) == Some(TaskReview) ==> Closes(log[i].body.evidence, id))
  {
    hide Reachable, Safe, GoodLog, Gated, Filed, Owes, Closes, Reports;
    ReachableIsSafe(bundle, s);
    TaskIsLogged(bundle, s, task);
    var log := s.history[task];
    OwedIsBefore(log, i, f, id);
    IntegrationReports(bundle, s.queue, task, log, i, f, id);
    if Leaves(log, i) == Some(TaskReview) { ReportedFromReview(log, i, id); }
  }

  /** In every reachable state, for every VERIFIED event and every finding recorded as an accepted open P0
      or P1 since the VERIFIED before it: an INTEGRATING event follows the last FIX_REQUIRED, and the last one
      reported the finding, as did every other INTEGRATING since the finding was recorded. */
  lemma VerifiedEndsTheFixCycle(bundle: Policy.Bundle, s: System, task: string, v: nat, f: nat, id: string)
    requires Reachable(bundle, s) && task in s.history
    requires 0 < v < |s.history[task]| && s.history[task][v].body.target == Some(Verified) && Owes(s.history[task], v, f, id)
    ensures Settles(s.history[task], v, f, id)
    ensures forall i :: f < i < v && s.history[task][i].body.target == Some(Integrating) ==>
              var log := s.history[task];
              && Leaves(log, i).Some? && Reports(log, i, Leaves(log, i).value, id)
              && (Leaves(log, i) == Some(TaskReview) ==> Closes(log[i].body.evidence, id))
  {
    hide Reachable, Safe, GoodLog, Gated, Filed, Owes, Boundary, LastIntegration, FixCycle, VerifierGate, Closes, Reports;
    ReachableIsSafe(bundle, s);
    TaskIsLogged(bundle, s, task);
    var log := s.history[task];
    var submitted := VerifiedPassedItsGate(bundle, s.queue, task, log, v);
    VerifierGateHasBoundary(log[..v], StateOf(log[v - 1]), submitted);
    OwingIsACycle(log, v, f, id);
    CycleSettles(bundle, s.queue, task, log, v, f, id);
    forall i | f < i < v && log[i].body.target == Some(Integrating)
      ensures Leaves(log, i).Some? && Reports(log, i, Leaves(log, i).value, id)
      ensures Leaves(log, i) == Some(TaskReview) ==> Closes(log[i].body.evidence, id)
    {
      OwedEarlier(log, v, f, id, i);
      EveryIntegrationReports(bundle, s, task, i, f, id);
    }
  }

  /** In every reachable state, every VERIFIED record accepted at the end of a fix cycle is no older than
      the last INTEGRATING of that cycle. */
  lemma VerificationIsFresh(bundle: Policy.Bundle, s: System, task: string, v: nat, k: nat)
    requires Reachable(bundle, s) && task in s.history && EndsCycle(s.history[task], v)
    requires k < |s.history[task][v].body.evidence|
    requires var file := s.history[task][v].body.evidence[k].file;
             file.Json? && file.record.Verification? && file.record.recommendation == RecommendVerified
    ensures var log := s.history[task];
            var i := LastIntegration(log, v) - 1;
            && 0 <= i < v && log[i].body.target == Some(Integrating)
            && log[v].body.evidence[k].file.record.verifiedAt >= log[i].body.createdAt
  {
    hide Reachable, Safe, GoodLog, Gated, Filed, Boundary, LastIntegration, FixCycle, PastLast, VerifierGate;
    ReachableIsSafe(bundle, s);
    TaskIsLogged(bundle, s, task);
    var log := s.history[task];
    var submitted := VerifiedPassedItsGate(bundle, s.queue, task, log, v);
    VerifierGateHasBoundary(log[..v], StateOf(log[v - 1]), submitted);
    BoundaryIsIntegration(log, v);
    assert submitted[k] == log[v].body.evidence[k].file;
    VerifierGateIsFresh(log[..v], StateOf(log[v - 1]), submitted, log[LastIntegration(log, v) - 1].body.createdAt, k);
  }

  lemma VerifierGateHasBoundary(lineage: seq<Event>, s: TaskState, submitted: seq<Evidence.File>)
    requires VerifierGate(Some(lineage), s, Verified, submitted)
    ensures Boundary(Some(lineage)).Some?
  {
    hide Boundary;
  }

  // A review resumed after a pause.

  lemma {:induction false} BlockersNeedEveryFix(files: map<string, Evidence.File>, events: seq<Event>, s: TaskState, k: nat)
    requires BlockersOf(files, events, s).Some? && k < |events| && events[k].body.target == Some(FixRequired)
    ensures EventBlockers(files, events[k], s).Some?
    decreases |events|
  {
    hide EventBlockers;
    if k < |events| - 1 {
      BlockersNeedEveryFix(files, DropLast(events), s, k);
    }
  }

  predicate HoldsFinding(f: Evidence.File) { f.Json? && f.record.Finding? }

  lemma FirstIsFinding(files: map<string, Evidence.File>, bindings: seq<Binding>)
    requires bindings != []
    ensures AllFindings(files, bindings) ==> HoldsFinding(bindings[0].file)
  {
    if AllFindings(files, bindings) {
      assert ReadBound(files, bindings[0]).Some?;
    }
  }

  /** The review's packet is no finding, and behind a pause the raw source hides that it was a review. */
  lemma ResumedReviewIsUnreadable(files: map<string, Evidence.File>, e: Event, s: TaskState)
    requires e.body.source == Some(WaitingHuman) && e.body.evidence != []
    requires !HoldsFinding(e.body.evidence[0].file)
    ensures EventBlockers(files, e, s) == None
  {
    hide OpenBlockers, RecordedReceipt, AllFixVerifications;
    FirstIsFinding(files, e.body.evidence);
  }

  /** Event `f` sends a task back for fixing out of a pause: the human resumed a review, or an integration. */
  predicate ResumesIntoFix(log: seq<Event>, f: nat) {
    && 0 < f < |log| && log[f].body.target == Some(FixRequired) && log[f].body.source == Some(WaitingHuman)
    && (Leaves(log, f) == Some(TaskReview) || Leaves(log, f) == Some(Integrating))
  }

  lemma FixGateReadsAPacket(files: map<string, Evidence.File>, lineage: seq<Event>, s: TaskState, source: Stage,
                            submitted: seq<Evidence.File>)
    requires GateAccepts(files, Some(lineage), s, source, FixRequired, submitted) && (source == TaskReview || source == Integrating)
    ensures submitted != [] && submitted[0].Json? && submitted[0].record.Packet?
  {
    hide FixRequiredFindings, FixVerification, ResultBinding;
    assert GateKind(source, FixRequired) == (if source == TaskReview then ReviewerResult else VerifierResult);
    ReceiptIsOfAPacket(submitted, if source == TaskReview then Reviewer else Verifier, s);
  }

  lemma ReceiptIsOfAPacket(files: seq<Evidence.File>, role: Actor, s: TaskState)
    requires Receipt(files, role, s, FixRequired)
    ensures files[0].Json? && files[0].record.Packet?
  {
  }

  lemma ResumedFixCarriesItsPacket(bundle: Policy.Bundle, q: Queue, task: string, log: seq<Event>, f: nat)
    requires GoodLog(log, task) && Gated(bundle, log) && Filed(q, task, log) && ResumesIntoFix(log, f)
    ensures log[f].body.evidence != [] && log[f].body.evidence[0].file.Json? && log[f].body.evidence[0].file.record.Packet?
  {
    hide GoodLog, Gated, Filed, GateAccepts;
    MoveIsLegal(bundle, q, task, log, f);
    var source := Leaves(log, f).value;
    var submitted :| BoundTo(source, FixRequired, submitted, log[f].body.evidence)
                     && GatePassed(log[..f], StateOf(log[f - 1]), source, FixRequired, submitted);
    var files: map<string, Evidence.File> :| GateAccepts(files, Some(log[..f]), StateOf(log[f - 1]), source, FixRequired, submitted);
    FixGateReadsAPacket(files, log[..f], StateOf(log[f - 1]), source, submitted);
    assert Contents(log[f].body.evidence)[0] == submitted[0];
  }

  /** The moves whose gates read the blockers of the cycle: into INTEGRATING, and from FIX_REQUIRED back to
      IMPLEMENTING. */
  predicate ReadsBlockers(source: Stage, target: Stage) {
    target == Integrating || (source == FixRequired && target == Implementing)
  }

  lemma GateNeedsBlockers(files: map<string, Evidence.File>, lineage: seq<Event>, s: TaskState, source: Stage, target: Stage,
                          submitted: seq<Evidence.File>)
    requires GateAccepts(files, Some(lineage), s, source, target, submitted) && ReadsBlockers(source, target)
    ensures Blockers(files, Some(lineage), s).Some?
  {
    hide Blockers, ReviewFindings, ResultBinding, ClosedIds, FindingIds;
  }

  /** While its cycle lasts, the blockers cannot be read, so no such move is accepted. */
  lemma NoRemedyInTheCycle(bundle: Policy.Bundle, q: Queue, task: string, log: seq<Event>, f: nat, i: nat)
    requires GoodLog(log, task) && Gated(bundle, log) && Filed(q, task, log) && ResumesIntoFix(log, f)
    requires f < i < |log| && PastLast(log[..i], Verified) <= f && !Pauses(log[i])
    ensures Leaves(log, i).Some? && log[i].body.target.Some?
    ensures !ReadsBlockers(Leaves(log, i).value, log[i].body.target.value)
  {
    hide GoodLog, Gated, Filed, PastLast, EventBlockers, BlockersOf, FixCycle, GateAccepts, ReadsBlockers;
    MoveIsLegal(bundle, q, task, log, i);
    var source, target, prior := Leaves(log, i).value, log[i].body.target.value, StateOf(log[i - 1]);
    if ReadsBlockers(source, target) {
      var submitted :| BoundTo(source, target, submitted, log[i].body.evidence) && GatePassed(log[..i], prior, source, target, submitted);
      var files: map<string, Evidence.File> :| GateAccepts(files, Some(log[..i]), prior, source, target, submitted);
      GateNeedsBlockers(files, log[..i], prior, source, target, submitted);
      CycleContains(log[..i], f);
      var cycle := FixCycle(log[..i]);
      assert cycle[f - PastLast(log[..i], Verified)] == log[f];
      BlockersNeedEveryFix(files, cycle, prior, f - PastLast(log[..i], Verified));
      ResumedFixCarriesItsPacket(bundle, q, task, log, f);
      ResumedReviewIsUnreadable(files, log[f], prior);
    }
  }

  /** A VERIFIED event that ends a cycle rests on an INTEGRATING event after its last fix. */
  lemma VerifiedNeedsIntegration(bundle: Policy.Bundle, q: Queue, task: string, log: seq<Event>, f: nat, v: nat) returns (i: nat)
    requires GoodLog(log, task) && Gated(bundle, log) && Filed(q, task, log)
    requires f < v < |log| && PastLast(log[..v], Verified) <= f && log[f].body.target == Some(FixRequired)
    requires log[v].body.target == Some(Verified)
    ensures f < i < v && log[i].body.target == Some(Integrating)
  {
    hide GoodLog, Gated, Filed, PastLast, VerifierGate, FixCycle, Boundary, LastIntegration;
    var submitted := VerifiedPassedItsGate(bundle, q, task, log, v);
    VerifierGateHasBoundary(log[..v], StateOf(log[v - 1]), submitted);
    CycleContains(log[..v], f);
    assert log[..v][PastLast(log[..v], Verified)..][f - PastLast(log[..v], Verified)] == log[f];
    BoundaryIsIntegration(log, v);
    FixesPrecedeIntegration(log, v, f);
    i := LastIntegration(log, v) - 1;
  }

  /** Neither the remedy nor the verification of such a fix is ever accepted. */
  predicate Remedies(log: seq<Event>, i: nat)
    requires 0 < i < |log|
  {
    || log[i].body.target == Some(Integrating) || log[i].body.target == Some(Verified)
    || (Leaves(log, i) == Some(FixRequired) && log[i].body.target == Some(Implementing))
  }

  lemma {:induction false} ResumedFixIsTheEnd(bundle: Policy.Bundle, q: Queue, task: string, log: seq<Event>, f: nat, i: nat)
    requires GoodLog(log, task) && Gated(bundle, log) && Filed(q, task, log) && ResumesIntoFix(log, f) && f < i < |log|
    ensures !Remedies(log, i)
    decreases i
  {
    hide GoodLog, Gated, Filed, PastLast;
    forall k | f < k < i ensures log[k].body.target != Some(Integrating) && log[k].body.target != Some(Verified) {
      ResumedFixIsTheEnd(bundle, q, task, log, f, k);
    }
    PastLastMeans(log[..i], Verified, PastLast(log[..i], Verified));
    if !Pauses(log[i]) {
      NoRemedyInTheCycle(bundle, q, task, log, f, i);
      if log[i].body.target == Some(Verified) {
        var k := VerifiedNeedsIntegration(bundle, q, task, log, f, i);
      }
    }
  }

  /** A fix required out of a paused review, or a paused integration, fails closed: the task never enters
      INTEGRATING or VERIFIED again, and never goes from FIX_REQUIRED back to IMPLEMENTING, whatever is
      submitted. */
  lemma ResumedReviewNeverIntegrates(bundle: Policy.Bundle, s: System, task: string, f: nat, i: nat)
    requires Reachable(bundle, s) && task in s.history && ResumesIntoFix(s.history[task], f) && f < i < |s.history[task]|
    ensures !Remedies(s.history[task], i)
  {
    hide Reachable, Safe, GoodLog, Gated, Filed, ResumesIntoFix, Remedies;
    ReachableIsSafe(bundle, s);
    TaskIsLogged(bundle, s, task);
    ResumedFixIsTheEnd(bundle, s.queue, task, s.history[task], f, i);
  }
}
