/** Runs that reach the two failures of the fix cycle: evidence changed before it was bound, and a review
    resumed after a pause. */
module FixCycleRuns {
  import opened Results
  import opened Stages
  import opened Evidence
  import opened Audit
  import opened TaskLog
  import opened Gates
  import opened Decisions
  import opened Engine
  import opened EngineInvariant
  import opened EngineSteps
  import opened PauseResume
  import opened FixCycleLaws
  import opened TaskRuns
  import Policy

  // The evidence files of these runs.

  function OpenFinding(): Binding { Binding("finding", Json(Finding("F", P0, FindingStatus.Open, Accepted), None)) }

  function ClosedFinding(): File { Json(Finding("F", P0, FindingClosed, Accepted), None) }

  function Success(): File { Json(Verification("F", "P", "T", RecommendVerified, false, 0), None) }

  function ReviewBound(): seq<Binding> { PairBound(Reviewer, FixRequired) + [OpenFinding()] }

  function VerifiedBound(): seq<Binding> { PairBound(Verifier, Verified) + [Binding("verification", Success())] }

  function Files(): map<string, File> {
    map["plan-packet" := PacketFile(Planner), "plan-result" := ResultFile(Planner, PlanReady),
        "review-packet" := PacketFile(Reviewer), "review-result" := ResultFile(Reviewer, FixRequired),
        "verification-packet" := PacketFile(Verifier), "verification-result" := ResultFile(Verifier, Verified),
        "finding" := OpenFinding().file, "closure" := ClosedFinding(), "verification" := Success()]
  }

  lemma FilesHoldThePlan()
    ensures PlanFiled(Files())
  {
    hide PacketFile, ResultFile, Success, ClosedFinding, OpenFinding;
  }

  lemma FilesHoldTheReview()
    ensures "review-packet" in Files() && Files()["review-packet"] == PacketFile(Reviewer)
    ensures "review-result" in Files() && Files()["review-result"] == ResultFile(Reviewer, FixRequired)
    ensures "finding" in Files() && Files()["finding"] == OpenFinding().file
  {
    hide PacketFile, ResultFile, Success, ClosedFinding, OpenFinding;
  }

  lemma FilesHoldTheVerification()
    ensures "verification-packet" in Files() && Files()["verification-packet"] == PacketFile(Verifier)
    ensures "verification-result" in Files() && Files()["verification-result"] == ResultFile(Verifier, Verified)
    ensures "verification" in Files() && Files()["verification"] == Success()
    ensures "closure" in Files() && Files()["closure"] == ClosedFinding()
  {
    hide PacketFile, ResultFile, Success, ClosedFinding, OpenFinding;
  }

  // One blocker, found by a review or after a verification.

  /** The event records the finding, in the evidence of its gate. */
  predicate Finds(e: Event) {
    && e.body.target == Some(FixRequired)
    && ((e.body.source == Some(TaskReview) && e.body.evidence == ReviewBound())
        || (e.body.source == Some(Verified) && e.body.evidence == [OpenFinding()]))
  }

  /** The interval since the last VERIFIED begins at `start` and has one FIX_REQUIRED, at `k`. */
  predicate OneFix(log: seq<Event>, start: nat, k: nat) {
    && start <= k < |log| && Finds(log[k])
    && (start > 0 ==> log[start - 1].body.target == Some(Verified))
    && forall i :: start <= i < |log| ==>
         log[i].body.target != Some(Verified) && (i != k ==> log[i].body.target != Some(FixRequired))
  }

  lemma StaysOneFix(log: seq<Event>, start: nat, k: nat, e: Event)
    requires OneFix(log, start, k) && e.body.target != Some(FixRequired) && e.body.target != Some(Verified)
    ensures OneFix(log + [e], start, k)
  {
    hide Finds;
  }

  lemma {:induction false} OnlyFixBlocks(files: map<string, File>, events: seq<Event>, s: TaskState, k: nat)
    requires forall i :: 0 <= i < |events| && i != k ==> events[i].body.target != Some(FixRequired)
    ensures k < |events| && events[k].body.target == Some(FixRequired) ==>
              BlockersOf(files, events, s) == EventBlockers(files, events[k], s)
    ensures k >= |events| ==> BlockersOf(files, events, s) == Some([])
    decreases |events|
  {
    hide EventBlockers;
    if events != [] {
      OnlyFixBlocks(files, DropLast(events), s, k);
      assert forall more: seq<Binding> :: [] + more == more;
    }
  }

  lemma OneFindingIsOpen()
    ensures OpenBlockers([OpenFinding()]) == [OpenFinding()]
  {
    var found := [OpenFinding()];
    assert DropLast(found) == [] && Last(found) == OpenFinding() && OpenBlockers([]) == [];
    assert OpenBlockers(found) == [] + found == found;
  }

  lemma ReviewReadsBack(s: TaskState)
    requires s.project == "P" && s.task == "T"
    ensures RecordedReceipt(Files(), ReviewBound(), Reviewer, s) && FirstRoleIs(ReviewBound(), Reviewer)
    ensures ReviewBound() != [] && ReadBound(Files(), ReviewBound()[0]).Some? && ReviewBound()[2..] == [OpenFinding()]
  {
    hide Files;
    FilesHoldTheReview();
  }

  lemma FindingReadsBack()
    ensures AllFindings(Files(), [OpenFinding()])
  {
    hide Files;
    FilesHoldTheReview();
  }

  lemma FindingBlocks(e: Event, s: TaskState)
    requires s.project == "P" && s.task == "T" && Finds(e)
    ensures EventBlockers(Files(), e, s) == Some([OpenFinding()])
  {
    hide Files, AllFindings, OpenBlockers, OpenFinding, ReviewBound, RecordedReceipt, FirstRoleIs, ReadBound;
    ReviewReadsBack(s);
    FindingReadsBack();
    OneFindingIsOpen();
  }

  lemma OneFixBlocks(log: seq<Event>, start: nat, k: nat, s: TaskState)
    requires OneFix(log, start, k) && s.project == "P" && s.task == "T"
    ensures Blockers(Files(), Some(log), s) == Some([OpenFinding()]) && FindingIds([OpenFinding()]) == {"F"}
    ensures PastLast(log, Verified) == start && FixCycle(log) == log[start..]
  {
    hide EventBlockers, BlockersOf, Files, ReviewBound, OpenFinding;
    PastLastMeans(log, Verified, start);
    hide PastLast;
    assert log[start..][k - start] == log[k];
    OnlyFixBlocks(Files(), log[start..], s, k - start);
    FindingBlocks(log[k], s);
    OneFindingId();
  }

  lemma OneFindingId()
    ensures FindingIds([OpenFinding()]) == {"F"} && BlockerId(OpenFinding()) == Some("F")
  {
    var bindings := [OpenFinding()];
    assert bindings[0].file.record.id == "F";
  }

  lemma OneFixIsOwed(log: seq<Event>, start: nat, k: nat, i: nat)
    requires k < i <= |log| && OneFix(log[..i], start, k)
    ensures Owes(log, i, k, "F")
  {
    hide OpenFinding;
    PastLastMeans(log[..i], Verified, start);
    assert log[..i][k] == log[k];
    OneFindingId();
    var bindings := log[k].body.evidence;
    assert bindings[|bindings| - 1] == OpenFinding();
  }

  // What the gates accept.

  lemma ReviewGateAccepts(files: map<string, File>, lineage: seq<Event>, s: TaskState)
    requires s.project == "P" && s.task == "T"
    ensures GateAccepts(files, Some(lineage), s, TaskReview, FixRequired, Contents(ReviewBound()))
  {
    var submitted := Contents(ReviewBound());
    assert submitted[2..] == [OpenFinding().file];
    assert submitted[2..][0].Json? && OpenBlocker(submitted[2..][0].record);
  }

  lemma FindingGateAccepts(files: map<string, File>, lineage: seq<Event>, s: TaskState)
    ensures GateAccepts(files, Some(lineage), s, Verified, FixRequired, Contents([OpenFinding()]))
  {
    var submitted := Contents([OpenFinding()]);
    assert submitted[0].Json? && OpenBlocker(submitted[0].record);
  }

  /** The report is closed as the gate reads it, and open again when it is bound. */
  function ReportChanged(): seq<Binding> { [Binding("report", OpenFinding().file)] }

  function Cleared(): seq<File> { [ClosedFinding()] }

  lemma ClearedCloses()
    ensures Cleared() != [] && ClosedIds(Cleared()) == {"F"} && ReviewFindings(Cleared()) && !Closes(ReportChanged(), "F")
  {
    var submitted, bound := Cleared(), Contents(ReportChanged());
    assert submitted[0].Json? && ClosesFinding(submitted[0].record) && submitted[0].record.id == "F";
    assert |bound| == 1 && bound[0] == OpenFinding().file;
  }

  lemma IntegratingGateAccepts(log: seq<Event>, start: nat, k: nat, s: TaskState, source: Stage)
    requires OneFix(log, start, k) && s.project == "P" && s.task == "T" && source != TaskReview
    ensures GateAccepts(Files(), Some(log), s, source, Integrating, Cleared())
    ensures BoundTo(source, Integrating, Cleared(), ReportChanged()) && Cleared() != []
  {
    hide Blockers, FindingIds, ClosedIds, OneFix, ReviewFindings, Files;
    OneFixBlocks(log, start, k, s);
    ClearedCloses();
    assert GateKind(source, Integrating) == IntegratingKind;
  }

  function Remediation(): seq<Binding> { HandoffBound() + [OpenFinding()] }

  lemma RemediationGateAccepts(log: seq<Event>, start: nat, k: nat, s: TaskState)
    requires OneFix(log, start, k) && Planned(Files(), log) && s.project == "P" && s.task == "T"
    ensures GateAccepts(Files(), Some(log), s, FixRequired, Implementing, Contents(Remediation())) && Remediation() != []
  {
    hide Blockers, FindingIds, OneFix, Files, KeepsFrozenPlan, PlanBound;
    OneFixBlocks(log, start, k, s);
    BoundaryFreezes(log);
    PlannedIsKept(Files(), LastBoundary(log).value, s);
    assert Contents(Remediation())[1..] == Contents([OpenFinding()]);
  }

  lemma OneFixPasses(log: seq<Event>, start: nat, k: nat)
    requires OneFix(log, start, k)
    ensures log != [] && PastLast(log[start..], FixRequired) == k + 1 - start
    ensures Last(log).body.target == Some(Integrating) ==> k + 1 < |log|
  {
    PastLastMeans(log[start..], FixRequired, k + 1 - start);
  }

  lemma BoundaryOfRun(log: seq<Event>, start: nat, k: nat)
    requires OneFix(log, start, k) && Last(log).body.target == Some(Integrating)
    ensures Boundary(Some(log)) == Some(Some(Last(log).body.createdAt)) && FixCycle(log) != []
  {
    hide OneFix, PastLast, Files;
    OneFixBlocks(log, start, k, StateOf(CreationEvent("T", "P", Controller, 0)));
    OneFixPasses(log, start, k);
    assert start <= k by { StartsBefore(log, start, k); }
    var cycle := log[start..];
    var tail := cycle[k + 1 - start..];
    assert tail[|tail| - 1] == Last(log);
    PastLastMeans(tail, Integrating, |tail|);
  }

  lemma StartsBefore(log: seq<Event>, start: nat, k: nat)
    requires OneFix(log, start, k)
    ensures start <= k < |log|
  {
  }

  lemma VerifiedReceipt(s: TaskState)
    requires s.project == "P" && s.task == "T"
    ensures var submitted := Contents(VerifiedBound());
            && |submitted| == 3 && Receipt(submitted, Verifier, s, Verified) && submitted[2] == Success()
  {
  }

  lemma VerifierGateAccepts(log: seq<Event>, s: TaskState, source: Stage)
    requires Boundary(Some(log)) == Some(None) || Boundary(Some(log)) == Some(Some(0))
    requires s.project == "P" && s.task == "T"
    ensures GateAccepts(map[], Some(log), s, source, Verified, Contents(VerifiedBound()))
    ensures VerifiedBound() != [] && BoundTo(source, Verified, Contents(VerifiedBound()), VerifiedBound())
  {
    hide Boundary, Receipt, VerifiedBound;
    VerifiedReceipt(s);
    assert Contents(VerifiedBound())[2].record.recommendation == RecommendVerified;
    assert GateKind(source, Verified) == VerifierResult;
  }

  lemma NoCycleNoBoundary(log: seq<Event>)
    requires Unmarked(log)
    ensures Boundary(Some(log)) == Some(None) && PastLast(log, Verified) == 0
  {
    PastLastMeans(log, Verified, 0);
    assert FixCycle(log) == [];
  }

  function Candidate(): seq<Binding> { [Binding("manifest", Json(Manifest("P", ["verification"], ["closure"]), None))] }

  lemma CandidateIsValid(s: TaskState)
    requires s.project == "P" && s.task == "T"
    ensures ValidManifest(Files(), s, Candidate()[0].file.record)
    ensures Snapshot(Files(), ["verification"]) == [Binding("verification", Success())]
  {
    hide Files;
    FilesHoldTheVerification();
    var closures := Contents(Snapshot(Files(), ["closure"]));
    assert closures == [ClosedFinding()];
  }

  /** What the verification bound still reads back. */
  lemma VerificationReadsBack(s: TaskState)
    requires s.project == "P" && s.task == "T"
    ensures var e := VerifiedBound();
            && |e| == 3 && CanonicalBound(Files(), e[0]) && CanonicalBound(Files(), e[1])
            && ResultBinding(e[0].file.record, e[1].file.record, Verifier, "P", "T", Verified)
            && ReadBound(Files(), e[2]).Some? && e[2].file.record.Verification?
            && AcceptedRecords(e[2..]) == [Binding("verification", Success())]
  {
    hide Files;
    FilesHoldTheVerification();
    var records := VerifiedBound()[2..];
    assert records == [Binding("verification", Success())];
    assert DropLast(records) == [] && AcceptedRecords([]) == [] && AcceptedRecords(records) == [] + records;
  }

  lemma ManifestFollows(log: seq<Event>, s: TaskState)
    requires EvidenceOf(Some(log), Verified) == Some(VerifiedBound()) && s.project == "P" && s.task == "T"
    ensures ValidManifest(Files(), s, Candidate()[0].file.record)
    ensures ManifestFollowsVerification(Files(), Some(log), s, Candidate()[0].file.record)
  {
    CandidateIsValid(s);
    VerificationReadsBack(s);
    hide Files, EvidenceOf, ValidManifest, AcceptedRecords, Snapshot, CanonicalBound, ResultBinding, ReadBound, VerifiedBound, Success;
  }

  lemma CandidatePasses(log: seq<Event>, s: TaskState)
    requires EvidenceOf(Some(log), Verified) == Some(VerifiedBound()) && s.project == "P" && s.task == "T"
    ensures CandidateGate(Files(), Some(log), s, Contents(Candidate())) && Candidate() != []
  {
    ManifestFollows(log, s);
    hide Files, EvidenceOf, ValidManifest, ManifestFollowsVerification, VerifiedBound;
    assert Contents(Candidate()) == [Candidate()[0].file];
  }

  lemma CandidateGateAccepts(log: seq<Event>, s: TaskState)
    requires PastLast(log, Verified) > 0 && log[PastLast(log, Verified) - 1].body.evidence == VerifiedBound()
    requires s.project == "P" && s.task == "T"
    ensures GateAccepts(Files(), Some(log), s, FixRequired, RcReady, Contents(Candidate())) && Candidate() != []
    ensures BoundTo(FixRequired, RcReady, Contents(Candidate()), Candidate())
  {
    hide Files, PastLast, CandidateGate, VerifiedBound, Candidate, GateAccepts, BoundTo;
    CandidatePasses(log, s);
    CandidateKind(Files(), log, s, Contents(Candidate()));
    ContentsAreBound(FixRequired, RcReady, Candidate());
  }

  lemma CandidateKind(files: map<string, File>, log: seq<Event>, s: TaskState, submitted: seq<File>)
    requires CandidateGate(files, Some(log), s, submitted)
    ensures GateAccepts(files, Some(log), s, FixRequired, RcReady, submitted)
  {
    hide CandidateGate;
  }

  // The runs into FIX_REQUIRED.

  lemma ReviewFindsIt(w: Workflow) returns (s: System, log: seq<Event>)
    requires LeadsToReview(w) && FixRequired in Targets(w, TaskReview)
    ensures Standstill(w, s, "T", log) && s.queue == Queue(map[], map[]) && OneFix(log, 0, 7) && Planned(Files(), log)
    ensures |log| == 8 && StateOf(Last(log)).current == FixRequired
    ensures forall i :: 0 <= i < |log| ==> log[i].body.target != Some(Integrating)
  {
    hide Standstill, Tidy, StateOf, GateAccepts, ReviewBound, Files, Planned;
    FilesHoldThePlan();
    var reviewed: seq<Event>;
    s, reviewed := ReviewIsReached(w, Files());
    StandstillMeans(w, s, reviewed);
    ReviewGateAccepts(map[], reviewed, StateOf(Last(reviewed)));
    ReviewBoundIsSome();
    var e: Event;
    s, e := MoveRuns(w, s, "T", reviewed, FixRequired, Reviewer, map[], Contents(ReviewBound()), ReviewBound(), 0);
    StaysPlanned(Files(), reviewed, e);
    log := reviewed + [e];
  }

  lemma ReviewBoundIsSome()
    ensures ReviewBound() != []
  {
  }

  /** The same, with a verification before the finding. */
  predicate FindsAfterVerification(w: Workflow) {
    LeadsToReview(w) && Verified in Targets(w, TaskReview) && FixRequired in Targets(w, Verified)
  }

  lemma VerificationIsReached(w: Workflow) returns (s: System, log: seq<Event>)
    requires FindsAfterVerification(w)
    ensures Standstill(w, s, "T", log) && |log| == 8 && StateOf(Last(log)).current == Verified
    ensures log[7].body.target == Some(Verified) && log[7].body.evidence == VerifiedBound()
  {
    hide Standstill, Tidy, StateOf, GateAccepts, Files, Planned, Unmarked, VerifiedBound, Boundary;
    FilesHoldThePlan();
    s, log := ReviewIsReached(w, Files());
    StandstillMeans(w, s, log);
    NoCycleNoBoundary(log);
    VerifierGateAccepts(log, StateOf(Last(log)), TaskReview);
    var e: Event;
    s, e := MoveRuns(w, s, "T", log, Verified, Verifier, map[], Contents(VerifiedBound()), VerifiedBound(), 0);
    log := log + [e];
  }

  lemma VerificationFindsIt(w: Workflow) returns (s: System, log: seq<Event>)
    requires FindsAfterVerification(w)
    ensures Standstill(w, s, "T", log) && OneFix(log, 8, 8) && StateOf(Last(log)).current == FixRequired
    ensures |log| == 9 && log[7].body.evidence == VerifiedBound()
  {
    hide Standstill, Tidy, StateOf, GateAccepts, VerifiedBound;
    s, log := VerificationIsReached(w);
    StandstillMeans(w, s, log);
    FindingGateAccepts(map[], log, StateOf(Last(log)));
    var e: Event;
    s, e := MoveRuns(w, s, "T", log, FixRequired, Reviewer, map[], Contents([OpenFinding()]), [OpenFinding()], 0);
    log := log + [e];
  }

  // Where the closure of what is recorded is guaranteed.

  /** Committed: an INTEGRATING event out of `source` whose recorded evidence leaves open what its cycle owes. */
  ghost predicate LeavesOpen(bundle: Policy.Bundle, s: System, task: string, source: Stage, i: nat, f: nat, id: string) {
    && Reachable(bundle, s) && task in s.history && 0 < i < |s.history[task]|
    && s.history[task][i].body.target == Some(Integrating) && Leaves(s.history[task], i) == Some(source)
    && Owes(s.history[task], i, f, id) && !Closes(s.history[task][i].body.evidence, id)
  }

  function PathToReview(): Workflow {
    map[Draft := [ReadyForClassification], ReadyForClassification := [Classified], Classified := [SpecReady],
        SpecReady := [PlanReady], PlanReady := [Implementing], Implementing := [TaskReview]]
  }

  /** From the review through FIX_REQUIRED to `x`, and on to INTEGRATING. */
  function TableTo(x: Stage): Workflow {
    var there := PathToReview()[TaskReview := [FixRequired]][FixRequired := [x]];
    there[x := Targets(there, x) + [Integrating]]
  }

  lemma TableToLeads(x: Stage)
    requires x != TaskReview && x != Integrating
    ensures var w := TableTo(x);
            && LeadsToReview(w) && FixRequired in Targets(w, TaskReview) && Integrating in Targets(w, x)
            && (x != FixRequired ==> x in Targets(w, FixRequired))
  {
    var w := TableTo(x);
    assert Integrating in [Integrating];
    forall s | s in w ensures Policy.Distinct(w[s]) {}
  }

  /** From FIX_REQUIRED straight to INTEGRATING, and from there once more. */
  function TableAgain(): Workflow {
    PathToReview()[TaskReview := [FixRequired]][FixRequired := [Integrating]][Integrating := [Integrating]]
  }

  lemma TableAgainLeads()
    ensures var w := TableAgain();
            LeadsToReview(w) && FixRequired in Targets(w, TaskReview)
            && Integrating in Targets(w, FixRequired) && Integrating in Targets(w, Integrating)
  {
  }

  /** Through a verification to a finding, a release candidate and INTEGRATING. */
  function TableToCandidate(): Workflow {
    PathToReview()[TaskReview := [Verified]][Verified := [FixRequired]][FixRequired := [RcReady]][RcReady := [Integrating]]
  }

  lemma TableToCandidateLeads()
    ensures var w := TableToCandidate();
            FindsAfterVerification(w) && RcReady in Targets(w, FixRequired) && Integrating in Targets(w, RcReady)
  {
  }

  /** A task with the open blocker that stands at `x` is integrated on a report that changes. */
  lemma IntegrationLeavesItOpen(w: Workflow, s: System, log: seq<Event>, start: nat, k: nat, x: Stage)
    requires Tidy(w) && Integrating in Targets(w, x) && x != TaskReview && x != WaitingHuman
    requires Standstill(w, s, "T", log) && OneFix(log, start, k) && StateOf(Last(log)).current == x
    ensures exists t: System, i: nat, f: nat :: LeavesOpen(Configured(w), t, "T", x, i, f, "F")
  {
    hide Tidy, StateOf, GateAccepts, OneFix, BoundTo, ReportChanged, Cleared, Owes, Closes, Reachable, Configured, Files;
    StandstillMeans(w, s, log);
    IntegratingGateAccepts(log, start, k, StateOf(Last(log)), x);
    var t, e := MoveRuns(w, s, "T", log, Integrating, Reviewer, Files(), Cleared(), ReportChanged(), 0);
    var more, i := log + [e], |log|;
    assert more[..i] == log && more[i] == e;
    StartsBefore(log, start, k);
    OneFixIsOwed(more, start, k, i);
    ClearedCloses();
    assert LeavesOpen(Configured(w), t, "T", x, i, k, "F");
  }

  /** One step on from FIX_REQUIRED, on what the gate of the target asks for. */
  lemma FixMovesOn(w: Workflow, s: System, log: seq<Event>, x: Stage) returns (t: System, e: Event)
    requires x != TaskReview && x != Verified && x != WaitingHuman && x != FixRequired && x != RcReady
    requires Tidy(w) && x in Targets(w, FixRequired) && Planned(Files(), log)
    requires Standstill(w, s, "T", log) && OneFix(log, 0, 7) && StateOf(Last(log)).current == FixRequired
    ensures Standstill(w, t, "T", log + [e]) && StateOf(e).current == x && e.body.target == Some(x)
  {
    hide Tidy, Standstill, StateOf, GateAccepts, OneFix, BoundTo, ReportChanged, Cleared, Remediation, Files, Planned;
    StandstillMeans(w, s, log);
    if x == Implementing {
      RemediationGateAccepts(log, 0, 7, StateOf(Last(log)));
      RemediationIsBound();
      t, e := MoveRuns(w, s, "T", log, Implementing, Coder, Files(), Contents(Remediation()), Remediation(), 0);
    } else if x == Integrating {
      IntegratingGateAccepts(log, 0, 7, StateOf(Last(log)), FixRequired);
      t, e := MoveRuns(w, s, "T", log, Integrating, Reviewer, Files(), Cleared(), ReportChanged(), 0);
    } else {
      t, e := PairRuns(w, s, log, x, Controller);
    }
  }

  lemma RemediationIsBound()
    ensures BoundTo(FixRequired, Implementing, Contents(Remediation()), Remediation())
  {
  }

  /** By way of any stage that is neither the review nor a verification, a candidate or a pause. */
  lemma OpenFromPlainStage(x: Stage)
    requires x != TaskReview && x != Verified && x != WaitingHuman && x != RcReady
    ensures exists w: Workflow, t: System, i: nat, f: nat :: LeavesOpen(Configured(w), t, "T", x, i, f, "F")
  {
    hide Standstill, StateOf, OneFix, LeadsToReview, TableTo, TableAgain, LeavesOpen, Planned, Configured;
    var w := if x == Integrating then TableAgain() else TableTo(x);
    if x == Integrating { TableAgainLeads(); } else { TableToLeads(x); }
    LeadsIsTidy(w);
    var s, log := ReviewFindsIt(w);
    if x != FixRequired {
      var e: Event;
      s, e := FixMovesOn(w, s, log, x);
      StaysOneFix(log, 0, 7, e);
      log := log + [e];
    }
    IntegrationLeavesItOpen(w, s, log, 0, 7, x);
  }

  /** By way of a release candidate, whose manifest follows an earlier verification. */
  lemma OpenFromCandidate()
    ensures exists w: Workflow, t: System, i: nat, f: nat :: LeavesOpen(Configured(w), t, "T", RcReady, i, f, "F")
  {
    hide Standstill, StateOf, OneFix, FindsAfterVerification, TableToCandidate, LeavesOpen, Configured, GateAccepts, Candidate,
         VerifiedBound, Files, PastLast, BoundTo;
    var w := TableToCandidate();
    TableToCandidateLeads();
    FindsIsTidy(w);
    var s, log := VerificationFindsIt(w);
    StandstillMeans(w, s, log);
    OneFixBlocks(log, 8, 8, StateOf(Last(log)));
    CandidateGateAccepts(log, StateOf(Last(log)));
    var t, e := MoveRuns(w, s, "T", log, RcReady, Verifier, Files(), Contents(Candidate()), Candidate(), 0);
    StaysOneFix(log, 8, 8, e);
    IntegrationLeavesItOpen(w, t, log + [e], 8, 8, RcReady);
  }

  lemma FindsIsTidy(w: Workflow)
    requires FindsAfterVerification(w)
    ensures Tidy(w)
  {
  }

  /** Nothing is owed right after VERIFIED, nor after a pause taken from there, and no move leaves a pause. */
  lemma NothingOwedFromVerified(bundle: Policy.Bundle, s: System, task: string, source: Stage, i: nat, f: nat, id: string)
    requires source == Verified || source == WaitingHuman
    ensures !LeavesOpen(bundle, s, task, source, i, f, id)
  {
    hide Reachable, Safe, GoodLog, Gated, Filed, RecordsBlocker, Closes;
    if LeavesOpen(bundle, s, task, source, i, f, id) {
      ReachableIsSafe(bundle, s);
      TaskIsLogged(bundle, s, task);
      var log := s.history[task];
      EventShape(bundle, s.queue, task, log, i);
      PastLastMeans(log[..i], Verified, PastLast(log[..i], Verified));
      hide PastLast;
      if log[i].body.source == Some(WaitingHuman) {
        EventShape(bundle, s.queue, task, log, i - 1);
      }
    }
  }

  lemma NothingOpenFromReview(bundle: Policy.Bundle, s: System, task: string, i: nat, f: nat, id: string)
    ensures !LeavesOpen(bundle, s, task, TaskReview, i, f, id)
  {
    hide Reachable, Owes, Closes, Reports;
    if LeavesOpen(bundle, s, task, TaskReview, i, f, id) {
      EveryIntegrationReports(bundle, s, task, i, f, id);
    }
  }

  /** An INTEGRATING event is guaranteed to record the closure of everything its cycle owes exactly when it
      left TASK_REVIEW, where alone the bound files are compared with the validated ones, or VERIFIED, where
      nothing is owed: from every other stage some run of the engine commits one that does not. */
  lemma ClosureIsGuaranteedExactlyFromReview(source: Stage)
    ensures (exists bundle, s, task, i, f, id :: LeavesOpen(bundle, s, task, source, i, f, id))
       <==> source != TaskReview && source != Verified && source != WaitingHuman
  {
    hide LeavesOpen;
    if source == TaskReview {
      forall bundle, s, task, i, f, id { NothingOpenFromReview(bundle, s, task, i, f, id); }
    } else if source == Verified || source == WaitingHuman {
      forall bundle, s, task, i, f, id { NothingOwedFromVerified(bundle, s, task, source, i, f, id); }
    } else if source == RcReady {
      OpenFromCandidate();
    } else {
      OpenFromPlainStage(source);
    }
  }

  // A blocker that is verified although its closure was never recorded.

  predicate IntegratesFromBlocked(w: Workflow) {
    && LeadsToReview(w) && FixRequired in Targets(w, TaskReview) && Implementing in Targets(w, FixRequired)
    && Blocked in Targets(w, Implementing) && Integrating in Targets(w, Blocked) && Verified in Targets(w, Integrating)
  }

  lemma FixIsBlocked(w: Workflow) returns (s: System, log: seq<Event>)
    requires IntegratesFromBlocked(w)
    ensures Standstill(w, s, "T", log) && OneFix(log, 0, 7) && StateOf(Last(log)).current == Blocked
    ensures |log| == 10 && forall i :: 0 <= i < |log| ==> log[i].body.target != Some(Integrating)
  {
    hide Standstill, Tidy, StateOf, GateAccepts, OneFix, Files, Planned, Remediation, BoundTo;
    var e: Event;
    s, log := ReviewFindsIt(w);
    StandstillMeans(w, s, log);
    RemediationGateAccepts(log, 0, 7, StateOf(Last(log)));
    RemediationIsBound();
    s, e := MoveRuns(w, s, "T", log, Implementing, Coder, Files(), Contents(Remediation()), Remediation(), 0);
    StaysOneFix(log, 0, 7, e);
    log := log + [e];
    s, e := PairRuns(w, s, log, Blocked, Controller);
    StaysOneFix(log, 0, 7, e);
    log := log + [e];
  }

  lemma BlockedIsIntegrated(w: Workflow) returns (s: System, log: seq<Event>)
    requires IntegratesFromBlocked(w)
    ensures Standstill(w, s, "T", log) && OneFix(log, 0, 7) && StateOf(Last(log)).current == Integrating
    ensures |log| == 11 && Moved(log[10], Blocked, Integrating, Reviewer, ReportChanged(), 0)
    ensures forall i :: 0 <= i < 10 ==> log[i].body.target != Some(Integrating)
  {
    hide Standstill, Tidy, StateOf, GateAccepts, OneFix, BoundTo, ReportChanged, Cleared, Files;
    var e: Event;
    s, log := FixIsBlocked(w);
    StandstillMeans(w, s, log);
    IntegratingGateAccepts(log, 0, 7, StateOf(Last(log)), Blocked);
    s, e := MoveRuns(w, s, "T", log, Integrating, Reviewer, Files(), Cleared(), ReportChanged(), 0);
    StaysOneFix(log, 0, 7, e);
    log := log + [e];
  }

  lemma LastIntegrationOfRun(log: seq<Event>, v: nat)
    requires v == 11 <= |log| && OneFix(log[..v], 0, 7) && log[10].body.target == Some(Integrating)
    requires forall i :: 0 <= i < 10 ==> log[i].body.target != Some(Integrating)
    ensures LastIntegration(log, v) == 11
  {
    hide OneFix, Boundary, FixCycle, PastLast, LastIntegration, Files;
    assert Last(log[..v]) == log[10];
    BoundaryOfRun(log[..v], 0, 7);
    BoundaryIsIntegration(log, v);
  }

  /** Under every table that leads a task through review, fix, BLOCKED and INTEGRATING to VERIFIED there is a
      reachable state with a VERIFIED event, and a blocker its cycle owes, that the recorded evidence of the
      cycle's last INTEGRATING leaves open: the report changed after it was validated. */
  lemma VerifiedWithoutRecordedClosure(w: Workflow)
    requires IntegratesFromBlocked(w)
    ensures exists s: System, v: nat, f: nat, id: string ::
              && Reachable(Configured(w), s) && "T" in s.history
              && 0 < v < |s.history["T"]| && s.history["T"][v].body.target == Some(Verified) && Owes(s.history["T"], v, f, id)
              && 0 < LastIntegration(s.history["T"], v) <= v
              && !Closes(s.history["T"][LastIntegration(s.history["T"], v) - 1].body.evidence, id)
  {
    hide Tidy, StateOf, GateAccepts, OneFix, BoundTo, ReportChanged, Owes, LastIntegration, Closes, Reachable, Configured,
         VerifiedBound, Boundary;
    var s, log := BlockedIsIntegrated(w);
    StandstillMeans(w, s, log);
    BoundaryOfRun(log, 0, 7);
    VerifierGateAccepts(log, StateOf(Last(log)), Integrating);
    var t, e := MoveRuns(w, s, "T", log, Verified, Verifier, map[], Contents(VerifiedBound()), VerifiedBound(), 0);
    var more := log + [e];
    assert more[..11] == log && more[10] == log[10];
    OneFixIsOwed(more, 0, 7, 11);
    LastIntegrationOfRun(more, 11);
    ClearedCloses();
  }

  // The two stages a human can resume into a fix that is never read.

  predicate ResumesReview(w: Workflow) {
    && LeadsToReview(w) && WaitingHuman in Targets(w, TaskReview) && FixRequired in Targets(w, TaskReview)
    && FixRequired in Targets(w, WaitingHuman) && Abandoned in Targets(w, FixRequired)
  }

  predicate ResumesIntegration(w: Workflow) {
    && LeadsToReview(w) && Integrating in Targets(w, TaskReview) && WaitingHuman in Targets(w, Integrating)
    && FixRequired in Targets(w, Integrating) && FixRequired in Targets(w, WaitingHuman) && Abandoned in Targets(w, FixRequired)
  }

  function FailedBound(): seq<Binding> {
    PairBound(Verifier, FixRequired) + [Binding("verification", Json(Verification("F", "P", "T", RecommendFix, true, 0), None))]
  }

  lemma FailureGateAccepts(files: map<string, File>, lineage: seq<Event>, s: TaskState)
    requires s.project == "P" && s.task == "T"
    ensures GateAccepts(files, Some(lineage), s, Integrating, FixRequired, Contents(FailedBound()))
  {
    var submitted := Contents(FailedBound());
    assert |submitted| == 3 && submitted[2] == FailedBound()[2].file;
  }

  lemma ApprovalGateAccepts(log: seq<Event>, s: TaskState)
    requires Unmarked(log) && s.project == "P" && s.task == "T"
    ensures GateAccepts(map[], Some(log), s, TaskReview, Integrating, Contents(PairBound(Reviewer, Integrating)))
  {
    var submitted := Contents(PairBound(Reviewer, Integrating));
    assert submitted[2..] == [];
    PastLastMeans(log, Verified, 0);
    assert FixCycle(log) == [];
    assert Blockers(map[], Some(log), s) == Some([]) && FindingIds([]) == {};
  }

  predicate Resumable(w: Workflow, source: Stage) {
    if source == TaskReview then ResumesReview(w) else source == Integrating && ResumesIntegration(w)
  }

  lemma StageIsReached(w: Workflow, source: Stage) returns (s: System, log: seq<Event>)
    requires Resumable(w, source)
    ensures Standstill(w, s, "T", log) && s.queue == Queue(map[], map[]) && StateOf(Last(log)).current == source
    ensures StateOf(Last(log)).task == "T" && StateOf(Last(log)).project == "P"
  {
    hide Standstill, StateOf, GateAccepts, Unmarked, Moved, PairBound, Planned, PlanFiled, Files;
    FilesHoldThePlan();
    s, log := ReviewIsReached(w, Files());
    StandstillMeans(w, s, log);
    if source == Integrating {
      ApprovalGateAccepts(log, StateOf(Last(log)));
      PairIsSome(Reviewer, Integrating);
      var e: Event;
      s, e := MoveRuns(w, s, "T", log, Integrating, Reviewer, map[], Contents(PairBound(Reviewer, Integrating)),
                       PairBound(Reviewer, Integrating), 0);
      log := log + [e];
      StandstillMeans(w, s, log);
    }
  }

  /** Whoever judges at the paused stage, and what he hands in. */
  function Judgement(source: Stage): (Actor, seq<Binding>) {
    if source == TaskReview then (Reviewer, ReviewBound()) else (Verifier, FailedBound())
  }

  lemma JudgementIsAccepted(source: Stage, lineage: seq<Event>, s: TaskState)
    requires source == TaskReview || source == Integrating
    requires s.project == "P" && s.task == "T"
    ensures GateAccepts(map[], Some(lineage), s, source, FixRequired, Contents(Judgement(source).1)) && Judgement(source).1 != []
    ensures RequiredActor(source, FixRequired) == Some(Judgement(source).0)
  {
    if source == TaskReview { ReviewGateAccepts(map[], lineage, s); } else { FailureGateAccepts(map[], lineage, s); }
    hide GateAccepts;
  }

  lemma PausedFixIsReached(w: Workflow, source: Stage) returns (s: System, log: seq<Event>, f: nat)
    requires Resumable(w, source)
    ensures Standstill(w, s, "T", log) && StateOf(Last(log)).current == FixRequired
    ensures f == |log| - 1 && ResumesIntoFix(log, f) && Leaves(log, f) == Some(source)
  {
    hide Standstill, StateOf, GateAccepts, PausedQueue, Judgement, ResumesReview, ResumesIntegration;
    ResumableMeans(w, source);
    var reached, before := StageIsReached(w, source);
    var waiting, e := PauseIsReached(w, reached, before, source, FixRequired);
    PausedStates(w, waiting, before, e);
    PausedMeans(w, waiting, before, e, source, FixRequired);
    JudgementIsAccepted(source, before + [e], StateOf(e));
    var x;
    s, x := ResumeIsReached(w, waiting, before, e, source, FixRequired, Judgement(source).0, Judgement(source).1);
    log, f := before + [e] + [x], |before| + 1;
    assert log[f] == x && log[f - 1] == e;
  }

  lemma ResumableMeans(w: Workflow, source: Stage)
    requires Resumable(w, source)
    ensures Tidy(w) && WaitingHuman in Targets(w, source) && FixRequired in Targets(w, source)
    ensures FixRequired in Targets(w, WaitingHuman) && Abandoned in Targets(w, FixRequired)
  {
  }

  /** Under every table that lets a task pause at its review and resume into FIX_REQUIRED, or at its
      integration, such a fix is reached, and something can still follow it. */
  lemma ResumedFixIsReached(w: Workflow, source: Stage)
    requires Resumable(w, source)
    ensures exists s: System, f: nat ::
              && Reachable(Configured(w), s) && "T" in s.history && f + 1 < |s.history["T"]|
              && ResumesIntoFix(s.history["T"], f) && Leaves(s.history["T"], f) == Some(source)
  {
    hide StateOf, GateAccepts, Resumable, Configured, Reachable, Moved;
    ResumableMeans(w, source);
    var s, log, f := PausedFixIsReached(w, source);
    assert GateKind(FixRequired, Abandoned) == Generic && RequiredActor(FixRequired, Abandoned) == None;
    var t, e := PairRuns(w, s, log, Abandoned, Controller);
    LaterEventsChangeNothing(log, f, e);
    hide ResumesIntoFix, Leaves;
    assert t.history["T"] == log + [e];
  }

  lemma LaterEventsChangeNothing(log: seq<Event>, f: nat, e: Event)
    requires ResumesIntoFix(log, f)
    ensures ResumesIntoFix(log + [e], f) && Leaves(log + [e], f) == Leaves(log, f)
  {
    var more := log + [e];
    assert more[f] == log[f] && more[f - 1] == log[f - 1];
  }

  // Which tables have these runs.

  /** The shipped table with one edge more: an integration may be paused. */
  function Widened(): Workflow { Shipped()[Integrating := Targets(Shipped(), Integrating) + [WaitingHuman]] }

  lemma WidenedRows(s: Stage)
    ensures Targets(Widened(), s) == if s == Integrating then Targets(Shipped(), s) + [WaitingHuman] else Targets(Shipped(), s)
  {
    hide Shipped;
  }

  lemma WidenedIsTidy()
    ensures Tidy(Widened()) && FixRequired in Targets(Shipped(), Integrating) && Integrating in Targets(Shipped(), TaskReview)
  {
    forall s | s in Widened() ensures Policy.Distinct(Widened()[s]) {
      ShippedRow(s);
      WidenedRows(s);
    }
  }

  lemma WidenedLeads()
    ensures LeadsToReview(Widened()) && Integrating in Targets(Widened(), TaskReview) && WaitingHuman in Targets(Widened(), Integrating)
    ensures FixRequired in Targets(Widened(), Integrating) && FixRequired in Targets(Widened(), WaitingHuman)
    ensures Abandoned in Targets(Widened(), FixRequired)
  {
    hide Shipped, Widened, Tidy;
    WidenedIsTidy();
    ShippedEdges();
    ShippedFixEdges();
    forall s { WidenedRows(s); }
    assert WaitingHuman in [WaitingHuman];
  }

  /** Both failures happen under the shipped table; only the pause of an integration needs one edge more. */
  lemma ShippedTableFails()
    ensures IntegratesFromBlocked(Shipped()) && Resumable(Shipped(), TaskReview)
    ensures !Resumable(Shipped(), Integrating) && Resumable(Widened(), Integrating)
  {
    hide Shipped, Widened, LeadsToReview;
    ShippedLeads();
    ShippedFixEdges();
    WidenedLeads();
  }
}
