/** Transition gates: who may move a task, with which evidence, and what a fix cycle still owes. */
module Gates {
  import opened Results
  import opened Stages
  import opened Evidence
  import opened Audit

  datatype EvidenceKind =
    | PlannerResult | CoderHandoff | CoderRemediationHandoff | VerifierResult | VerifiedClosure
    | ReleaseCandidate | ReviewerResult | FixRequiredKind | IntegratingKind | CoderResult | Generic

  function RequiredActor(source: Stage, target: Stage): Option<Actor> {
    match (source, target)
    case (Classified, SpecReady) => Some(Planner)
    case (SpecReady, PlanReady) => Some(Planner)
    case (PlanReady, Implementing) => Some(Coder)
    case (FixRequired, Implementing) => Some(Coder)
    case (Integrating, FixRequired) => Some(Verifier)
    case (Verified, Closed) => Some(Controller)
    case (RcReady, Closed) => Some(Controller)
    case (_, FixRequired) => Some(Reviewer)
    case (_, Integrating) => Some(Reviewer)
    case (_, TaskReview) => Some(Coder)
    case (_, Verified) => Some(Verifier)
    case (_, RcReady) => Some(Verifier)
    case _ => None
  }

  function GateKind(source: Stage, target: Stage): EvidenceKind {
    match (source, target)
    case (Classified, SpecReady) => PlannerResult
    case (SpecReady, PlanReady) => PlannerResult
    case (PlanReady, Implementing) => CoderHandoff
    case (FixRequired, Implementing) => CoderRemediationHandoff
    case (Integrating, FixRequired) => VerifierResult
    case (Verified, Closed) => VerifiedClosure
    case (RcReady, Closed) => ReleaseCandidate
    case (TaskReview, FixRequired) => ReviewerResult
    case (TaskReview, Integrating) => ReviewerResult
    case (_, FixRequired) => FixRequiredKind
    case (_, Integrating) => IntegratingKind
    case (_, TaskReview) => CoderResult
    case (_, Verified) => VerifierResult
    case (_, RcReady) => ReleaseCandidate
    case _ => Generic
  }

  function LastTransition(lineage: seq<Event>): Option<Event>
    decreases |lineage|
  {
    if lineage == [] then None
    else if Last(lineage).body.eventType == TransitionAccepted then Some(Last(lineage))
    else LastTransition(DropLast(lineage))
  }

  /** The stage a gate is judged from: a paused task is judged from where it was paused. */
  function GateSource(s: TaskState, lineage: Option<seq<Event>>): Option<Stage> {
    if s.current != WaitingHuman then Some(s.current)
    else if s.previous == None || s.previous == Some(WaitingHuman) || lineage == None then None
    else
      match LastTransition(lineage.value)
      case None => None
      case Some(e) => if e.body.target == Some(WaitingHuman) && e.body.source == s.previous then s.previous else None
  }

  // The fix cycle.

  /** The index just past the last event that entered `stage`, or zero. */
  function PastLast(lineage: seq<Event>, stage: Stage): (n: nat)
    ensures n <= |lineage|
    decreases |lineage|
  {
    if lineage == [] then 0
    else if Last(lineage).body.target == Some(stage) then |lineage|
    else PastLast(DropLast(lineage), stage)
  }

  predicate Enters(lineage: seq<Event>, stage: Stage) {
    exists e :: e in lineage && e.body.target == Some(stage)
  }

  function FixCycle(lineage: seq<Event>): seq<Event> {
    var interval := lineage[PastLast(lineage, Verified)..];
    if Enters(interval, FixRequired) then interval else []
  }

  /** The evidence a binding still finds unchanged at its path. */
  function ReadBound(files: map<string, File>, b: Binding): Option<Record> {
    if b.path in files && files[b.path] == b.file && b.file.Json? then Some(b.file.record) else None
  }

  predicate CanonicalBound(files: map<string, File>, b: Binding) {
    ReadBound(files, b).Some? && Canonical(b.file)
  }

  predicate FixVerification(r: Record, s: TaskState) {
    r.Verification? && r.project == s.project && r.task == s.task && VerificationFailure(r)
  }

  predicate AllFindings(files: map<string, File>, bindings: seq<Binding>) {
    forall i :: 0 <= i < |bindings| ==> ReadBound(files, bindings[i]).Some? && bindings[i].file.record.Finding?
  }

  predicate AllFixVerifications(files: map<string, File>, bindings: seq<Binding>, s: TaskState) {
    forall i :: 0 <= i < |bindings| ==>
      ReadBound(files, bindings[i]).Some? && FixVerification(bindings[i].file.record, s)
  }

  function OpenBlockers(bindings: seq<Binding>): seq<Binding> {
    if bindings == [] then []
    else
      OpenBlockers(DropLast(bindings)) +
      (if Last(bindings).file.Json? && OpenBlocker(Last(bindings).file.record) then [Last(bindings)] else [])
  }

  /** The reviewer's or the verifier's packet and result, as recorded. */
  predicate RecordedReceipt(files: map<string, File>, bindings: seq<Binding>, role: Actor, s: TaskState) {
    && |bindings| >= 3
    && CanonicalBound(files, bindings[0]) && CanonicalBound(files, bindings[1])
    && ResultBinding(bindings[0].file.record, bindings[1].file.record, role, s.project, s.task, FixRequired)
  }

  predicate FirstRoleIs(bindings: seq<Binding>, role: Actor) {
    bindings != [] && bindings[0].file.Json? && RoleOf(bindings[0].file.record) == Some(role)
  }

  /** The blockers one FIX_REQUIRED event recorded; the branches look at its raw source stage. */
  function EventBlockers(files: map<string, File>, e: Event, s: TaskState): Option<seq<Binding>> {
    var bindings := e.body.evidence;
    var reviewed := e.body.source == Some(TaskReview) || e.body.source == Some(Integrating);
    if reviewed && bindings != [] && ReadBound(files, bindings[0]) == None then None
    else if e.body.source == Some(Integrating) && FirstRoleIs(bindings, Verifier) then
      if RecordedReceipt(files, bindings, Verifier, s) && AllFixVerifications(files, bindings[2..], s)
      then Some(bindings[2..]) else None
    else if e.body.source == Some(TaskReview) && FirstRoleIs(bindings, Reviewer) then
      if RecordedReceipt(files, bindings, Reviewer, s) then Findings(files, bindings[2..]) else None
    else Findings(files, bindings)
  }

  function Findings(files: map<string, File>, bindings: seq<Binding>): Option<seq<Binding>> {
    if AllFindings(files, bindings) && OpenBlockers(bindings) != [] then Some(OpenBlockers(bindings)) else None
  }

  function BlockersOf(files: map<string, File>, events: seq<Event>, s: TaskState): Option<seq<Binding>>
    decreases |events|
  {
    if events == [] then Some([])
    else
      match BlockersOf(files, DropLast(events), s)
      case None => None
      case Some(earlier) =>
        if Last(events).body.target != Some(FixRequired) then Some(earlier)
        else
          match EventBlockers(files, Last(events), s)
          case None => None
          case Some(more) => Some(earlier + more)
  }

  /** Everything the current fix cycle still blocks on. */
  function Blockers(files: map<string, File>, lineage: Option<seq<Event>>, s: TaskState): Option<seq<Binding>> {
    if lineage == None then None else BlockersOf(files, FixCycle(lineage.value), s)
  }

  function FindingIds(bindings: seq<Binding>): set<string> {
    set i | 0 <= i < |bindings| && bindings[i].file.Json? && bindings[i].file.record.Finding? :: bindings[i].file.record.id
  }

  /** The last INTEGRATING after the last FIX_REQUIRED; absent outside a fix cycle. */
  function Boundary(lineage: Option<seq<Event>>): Option<Option<nat>> {
    if lineage == None then None
    else
      var cycle := FixCycle(lineage.value);
      if cycle == [] then Some(None)
      else
        var tail := cycle[PastLast(cycle, FixRequired)..];
        var n := PastLast(tail, Integrating);
        if n == 0 then None else Some(Some(tail[n - 1].body.createdAt))
  }

  // What the gates ask of the submitted files.

  predicate Receipt(files: seq<File>, role: Actor, s: TaskState, target: Stage) {
    && |files| >= 2
    && Canonical(files[0]) && Canonical(files[1])
    && ResultBinding(files[0].record, files[1].record, role, s.project, s.task, target)
  }

  predicate ClosesBlockers(files: map<string, File>, lineage: Option<seq<Event>>, s: TaskState, submitted: seq<File>) {
    var blockers := Blockers(files, lineage, s);
    blockers.Some? && FindingIds(blockers.value) <= ClosedIds(submitted)
  }

  predicate ReviewerGate(files: map<string, File>, lineage: Option<seq<Event>>, s: TaskState, target: Stage, submitted: seq<File>) {
    && Receipt(submitted, Reviewer, s, target)
    && (if target == FixRequired
        then FixRequiredFindings(submitted[2..])
        else
          && (submitted[2..] == [] ==> submitted[1].record.status == Done)
          && (submitted[2..] != [] ==> ReviewFindings(submitted[2..]))
          && ClosesBlockers(files, lineage, s, submitted[2..]))
  }

  predicate FreshVerification(r: Record, s: TaskState, boundary: Option<nat>) {
    && r.Verification? && r.project == s.project && r.task == s.task
    && (r.recommendation == RecommendVerified && boundary.Some? ==> r.verifiedAt >= boundary.value)
  }

  predicate VerifierGate(lineage: Option<seq<Event>>, s: TaskState, target: Stage, submitted: seq<File>) {
    && |submitted| >= 3 && Receipt(submitted, Verifier, s, target)
    && (forall i :: 2 <= i < |submitted| ==> submitted[i].Json?)
    && (if target == FixRequired
        then forall i :: 2 <= i < |submitted| ==> FixVerification(submitted[i].record, s)
        else
          && (target == Verified ==> Boundary(lineage).Some?)
          && var boundary := if target == Verified then Boundary(lineage).value else None;
             && (forall i :: 2 <= i < |submitted| ==> FreshVerification(submitted[i].record, s, boundary))
             && exists i :: 2 <= i < |submitted| && submitted[i].record.recommendation == RecommendVerified)
  }

  // The coder's handoff: the packet of the frozen plan, under the coder's name.

  function Transitions(lineage: seq<Event>): seq<Event>
    decreases |lineage|
  {
    if lineage == [] then []
    else Transitions(DropLast(lineage)) + (if Last(lineage).body.eventType == TransitionAccepted then [Last(lineage)] else [])
  }

  /** The transition that must have frozen the plan: the last one, or the one before the pause it was handed
      off from. */
  function LatestBoundary(s: TaskState, lineage: seq<Event>): Option<Event> {
    var transitions := Transitions(lineage);
    if s.current != WaitingHuman then (if transitions == [] then None else Some(Last(transitions)))
    else if GateSource(s, Some(lineage)) == Some(PlanReady) && |transitions| >= 2 then Some(transitions[|transitions| - 2])
    else None
  }

  predicate FreezesPlan(e: Event) {
    e.body.eventType == TransitionAccepted && e.body.source == Some(SpecReady) && e.body.target == Some(PlanReady)
  }

  function LastBoundary(lineage: seq<Event>): Option<Event>
    decreases |lineage|
  {
    if lineage == [] then None else if FreezesPlan(Last(lineage)) then Some(Last(lineage)) else LastBoundary(DropLast(lineage))
  }

  /** The planner's packet as the coder must receive it. */
  function CoderPacket(plan: Record, task: string): Record
    requires plan.Packet?
  {
    Packet(Coder, task + "-coder-v1", plan.project, plan.task, plan.safePaths, plan.scope)
  }

  predicate KeepsFrozenPlan(files: map<string, File>, boundary: Option<Event>, s: TaskState, packet: Record) {
    && boundary.Some? && FreezesPlan(boundary.value)
    && var plan := boundary.value.body.evidence;
       && |plan| == 2 && CanonicalBound(files, plan[0]) && CanonicalBound(files, plan[1])
       && ResultBinding(plan[0].file.record, plan[1].file.record, Planner, s.project, s.task, PlanReady)
       && packet == CoderPacket(plan[0].file.record, s.task)
  }

  predicate HandoffGate(files: map<string, File>, lineage: Option<seq<Event>>, s: TaskState, submitted: seq<File>) {
    && |submitted| == 1 && Canonical(submitted[0]) && lineage.Some?
    && KeepsFrozenPlan(files, LatestBoundary(s, lineage.value), s, submitted[0].record)
  }

  predicate RemediationGate(files: map<string, File>, lineage: Option<seq<Event>>, s: TaskState, submitted: seq<File>) {
    && |submitted| >= 2 && Canonical(submitted[0]) && lineage.Some?
    && KeepsFrozenPlan(files, LastBoundary(lineage.value), s, submitted[0].record)
    && var blockers := Blockers(files, lineage, s);
       blockers.Some? && blockers.value != [] && submitted[1..] == Contents(blockers.value)
  }

  predicate PairGate(s: TaskState, role: Actor, target: Stage, submitted: seq<File>) {
    |submitted| == 2 && Receipt(submitted, role, s, target)
  }

  // Release candidates and closures rest on the latest VERIFIED event.

  /** The evidence of the last event that entered `stage`. */
  function EvidenceOf(lineage: Option<seq<Event>>, stage: Stage): Option<seq<Binding>> {
    if lineage == None || PastLast(lineage.value, stage) == 0 then None
    else Some(lineage.value[PastLast(lineage.value, stage) - 1].body.evidence)
  }

  function AcceptedRecords(bindings: seq<Binding>): seq<Binding> {
    if bindings == [] then []
    else
      AcceptedRecords(DropLast(bindings)) +
      (if Last(bindings).file.Json? && Last(bindings).file.record.Verification?
          && Last(bindings).file.record.recommendation == RecommendVerified then [Last(bindings)] else [])
  }

  predicate Present(files: map<string, File>, paths: seq<string>) {
    forall i :: 0 <= i < |paths| ==> paths[i] in files
  }

  function Snapshot(files: map<string, File>, paths: seq<string>): (bindings: seq<Binding>)
    requires Present(files, paths)
    ensures |bindings| == |paths|
  {
    seq(|paths|, i requires 0 <= i < |paths| => Binding(paths[i], files[paths[i]]))
  }

  predicate Verifies(f: File, s: TaskState) {
    && f.Json? && f.record.Verification? && f.record.recommendation == RecommendVerified
    && f.record.project == s.project && f.record.task == s.task
  }

  /** A manifest whose records and closures are what it takes them for. */
  predicate ValidManifest(files: map<string, File>, s: TaskState, r: Record) {
    && r.Manifest? && r.project == s.project && r.verifications != []
    && Present(files, r.verifications) && Present(files, r.closures)
    && (forall i :: 0 <= i < |r.verifications| ==> Verifies(files[r.verifications[i]], s))
    && ReviewFindings(Contents(Snapshot(files, r.closures)))
  }

  /** The manifest lists exactly the accepted records of the latest VERIFIED event, which all still read back. */
  predicate ManifestFollowsVerification(files: map<string, File>, lineage: Option<seq<Event>>, s: TaskState, r: Record)
    requires r.Manifest? && Present(files, r.verifications)
  {
    var evidence := EvidenceOf(lineage, Verified);
    && evidence.Some? && |evidence.value| >= 3
    && CanonicalBound(files, evidence.value[0]) && CanonicalBound(files, evidence.value[1])
    && ResultBinding(evidence.value[0].file.record, evidence.value[1].file.record, Verifier, s.project, s.task, Verified)
    && (forall i :: 2 <= i < |evidence.value| ==>
          ReadBound(files, evidence.value[i]).Some? && evidence.value[i].file.record.Verification?)
    && multiset(Snapshot(files, r.verifications)) == multiset(AcceptedRecords(evidence.value[2..]))
  }

  predicate CandidateGate(files: map<string, File>, lineage: Option<seq<Event>>, s: TaskState, submitted: seq<File>) {
    && |submitted| == 1 && submitted[0].Json? && ValidManifest(files, s, submitted[0].record)
    && ManifestFollowsVerification(files, lineage, s, submitted[0].record)
  }

  predicate CandidateClosureGate(files: map<string, File>, lineage: Option<seq<Event>>, s: TaskState, submitted: seq<File>) {
    && CandidateGate(files, lineage, s, submitted)
    && var ready := EvidenceOf(lineage, RcReady);
       ready.Some? && |ready.value| == 1 && ReadBound(files, ready.value[0]).Some? && submitted == Contents(ready.value)
  }

  predicate VerifiedClosureGate(lineage: Option<seq<Event>>, s: TaskState, submitted: seq<File>) {
    && VerifierGate(lineage, s, Verified, submitted)
    && var evidence := EvidenceOf(lineage, Verified);
       evidence.Some? && |evidence.value| >= 3 && submitted == Contents(evidence.value)
  }

  /** The decision on the submitted files as they were read; nothing is asked of generic evidence. */
  predicate GateAccepts(files: map<string, File>, lineage: Option<seq<Event>>, s: TaskState, source: Stage, target: Stage,
                        submitted: seq<File>) {
    match GateKind(source, target)
    case PlannerResult => PairGate(s, Planner, target, submitted)
    case CoderResult => PairGate(s, Coder, target, submitted)
    case CoderHandoff => HandoffGate(files, lineage, s, submitted)
    case CoderRemediationHandoff => RemediationGate(files, lineage, s, submitted)
    case ReviewerResult => ReviewerGate(files, lineage, s, target, submitted)
    case VerifierResult => VerifierGate(lineage, s, target, submitted)
    case VerifiedClosure => VerifiedClosureGate(lineage, s, submitted)
    case ReleaseCandidate =>
      if source == RcReady && target == Closed then CandidateClosureGate(files, lineage, s, submitted)
      else CandidateGate(files, lineage, s, submitted)
    case FixRequiredKind => FixRequiredFindings(submitted)
    case IntegratingKind => ReviewFindings(submitted) && ClosesBlockers(files, lineage, s, submitted)
    case Generic => true
  }

  /** The kinds whose gate hands back snapshots, so that what is bound is what was validated. */
  predicate Snapshots(kind: EvidenceKind) {
    kind != FixRequiredKind && kind != IntegratingKind && kind != Generic
  }

  predicate BoundAsValidated(kind: EvidenceKind, submitted: seq<File>, bound: seq<Binding>) {
    Snapshots(kind) ==> Contents(bound) == submitted
  }

  // The blockers as the program collects them.

  method CurrentFixCycleBlockers(files: map<string, File>, lineage: seq<Event>, s: TaskState)
    returns (r: Option<seq<Binding>>)
    ensures r == Blockers(files, Some(lineage), s)
  {
    hide EventBlockers, Enters;
    var events := FixCycle(lineage);
    var blockers: seq<Binding> := [];
    var n := 0;
    while n < |events|
      invariant 0 <= n <= |events|
      invariant BlockersOf(files, events[..n], s) == Some(blockers)
      invariant BlockersOf(files, events, s).Some? ==> BlockersOf(files, events[..n], s).Some?
    {
      var event := events[n];
      assert DropLast(events[..n + 1]) == events[..n] && Last(events[..n + 1]) == event;
      BlockersOfPrefix(files, events, s, n + 1);
      n := n + 1;
      if event.body.target != Some(FixRequired) {
        continue;
      }
      var found := CollectEventBlockers(files, event, s);
      if found == None {
        return None;
      }
      blockers := blockers + found.value;
    }
    assert events[..n] == events;
    r := Some(blockers);
  }

  lemma {:induction false} BlockersOfPrefix(files: map<string, File>, events: seq<Event>, s: TaskState, n: nat)
    requires n <= |events|
    ensures BlockersOf(files, events, s).Some? ==> BlockersOf(files, events[..n], s).Some?
    decreases |events|
  {
    hide EventBlockers;
    if n < |events| {
      BlockersOfPrefix(files, DropLast(events), s, n);
      assert DropLast(events)[..n] == events[..n];
    } else {
      assert events[..n] == events;
    }
  }

  /** The loop over one event's bindings. */
  method CollectEventBlockers(files: map<string, File>, e: Event, s: TaskState) returns (r: Option<seq<Binding>>)
    ensures r == EventBlockers(files, e, s)
  {
    hide ResultBinding, OpenBlocker, FixVerification;
    var bindings := e.body.evidence;
    if (e.body.source == Some(Integrating) || e.body.source == Some(TaskReview)) && bindings != [] {
      var first := ReadBound(files, bindings[0]);
      if first == None {
        return None;
      }
      if e.body.source == Some(Integrating) && RoleOf(first.value) == Some(Verifier) {
        if !RecordedReceipt(files, bindings, Verifier, s) {
          return None;
        }
        r := CollectVerifications(files, bindings[2..], s);
        return;
      }
      if e.body.source == Some(TaskReview) && RoleOf(first.value) == Some(Reviewer) {
        if !RecordedReceipt(files, bindings, Reviewer, s) {
          return None;
        }
        bindings := bindings[2..];
      }
    }
    r := CollectFindings(files, bindings);
  }

  method CollectVerifications(files: map<string, File>, bindings: seq<Binding>, s: TaskState) returns (r: Option<seq<Binding>>)
    ensures r == if AllFixVerifications(files, bindings, s) then Some(bindings) else None
  {
    hide FixVerification;
    var collected: seq<Binding> := [];
    var n := 0;
    while n < |bindings|
      invariant 0 <= n <= |bindings| && collected == bindings[..n]
      invariant forall i :: 0 <= i < n ==> ReadBound(files, bindings[i]).Some? && FixVerification(bindings[i].file.record, s)
    {
      var record := ReadBound(files, bindings[n]);
      if record == None || !FixVerification(record.value, s) {
        return None;
      }
      collected := collected + [bindings[n]];
      n := n + 1;
    }
    assert bindings[..n] == bindings;
    r := Some(collected);
  }

  method CollectFindings(files: map<string, File>, bindings: seq<Binding>) returns (r: Option<seq<Binding>>)
    ensures r == Findings(files, bindings)
  {
    hide OpenBlocker;
    var collected: seq<Binding> := [];
    var hasBlocker := false;
    var n := 0;
    while n < |bindings|
      invariant 0 <= n <= |bindings| && collected == OpenBlockers(bindings[..n])
      invariant hasBlocker <==> collected != []
      invariant forall i :: 0 <= i < n ==> ReadBound(files, bindings[i]).Some? && bindings[i].file.record.Finding?
    {
      var record := ReadBound(files, bindings[n]);
      assert DropLast(bindings[..n + 1]) == bindings[..n] && Last(bindings[..n + 1]) == bindings[n];
      if record == None || !record.value.Finding? {
        return None;
      }
      n := n + 1;
      if !OpenBlocker(record.value) {
        continue;
      }
      hasBlocker := true;
      collected := collected + [bindings[n - 1]];
    }
    assert bindings[..n] == bindings;
    r := if hasBlocker then Some(collected) else None;
  }
}
