/** Execution records of a coding attempt: how they are built, and what the contract demands of them. */
module CodingRecord {
  import opened Results
  import opened Identifiers
  import opened OperationEvents

  datatype SlotState = EmptySlot | FrozenV1 | RejectedHoldV1 | EmptyForRemediation | FrozenV2

  datatype AttemptKind = Prelaunching | Ordinary | Remediation

  datatype Outcome = PrelaunchHold | CandidateReady | AttemptFailed | AttemptHold

  datatype ClaimedStatus = ClaimedDone | ClaimedFailed | ClaimedOther

  datatype PacketIdentity = PacketIdentity(packetId: string, digest: Sha, validationPassed: bool)

  datatype Baseline = Baseline(repository: string, commit: string, tree: string, before: Sha, after: Sha, same: bool)

  datatype Executor = Executor(path: string, argv: seq<string>, fullyObserved: bool, identityComplete: bool)

  /** `exactUniverses`: the two listed universes are the exact ones; `switchesOff`: resume, hooks and memories are off. */
  datatype Capabilities = Capabilities(
    authorized: seq<string>, checkAllowlist: Sha, gitAllowlist: Sha, config: Option<Sha>, network: Option<Sha>,
    exactUniverses: bool, switchesOff: bool, observationsComplete: bool, rows: seq<Row>)

  datatype CloneBefore = CloneBefore(commit: string, tree: string, gitControl: Sha)

  datatype CloneAfter = CloneAfter(
    commit: string, tree: string, gitControl: Sha, changed: seq<string>, diff: Sha, inventory: Sha)

  datatype GateRow = GateRow(gate: nat, pass: bool, blockers: seq<string>)

  datatype Prelaunch = Prelaunch(
    pass: bool, rows: seq<GateRow>, blockers: seq<string>, modelStarted: bool, startRequested: bool)

  datatype Process = Process(
    startRequested: bool, pid: Option<nat>, startedAt: Option<nat>, endedAt: Option<nat>, exitCode: Option<int>,
    timedOut: bool, cancelled: bool, error: Option<string>, terminated: bool, stdout: Option<Sha>, stderr: Option<Sha>)

  datatype Events = Events(parsed: nat, unknown: nat, prohibited: nat, finalResponse: Option<Sha>, schemaValid: bool)

  datatype AgentReport = AgentReport(
    digest: Option<Sha>, contractValid: bool, claimed: Option<ClaimedStatus>, claimsMatch: bool)

  datatype SlotEvidence = SlotEvidence(
    before: SlotState, after: SlotState, activeBefore: Option<string>, activeAfter: Option<string>, historical: seq<string>)

  datatype Attempt = Attempt(
    number: Option<nat>, reservedAt: Option<nat>, parent: Option<string>, kind: AttemptKind,
    before: nat, after: nat, starts: nat)

  /** `fileSet` and `checks` stand for the digests of what they hold. */
  datatype Candidate = Candidate(
    id: Option<string>, version: Option<nat>, frozen: bool, parent: Option<string>, diff: Option<Sha>,
    fileSet: Option<(seq<string>, Sha)>, checks: Option<seq<Row>>, passed: bool)

  function NoCandidate(): Candidate { Candidate(None, None, false, None, None, None, None, false) }

  datatype Record = Record(
    executionId: string, gate: string, project: string, task: string,
    packet: PacketIdentity, baseline: Baseline, slot: SlotEvidence, attempt: Attempt, executor: Executor,
    capabilities: Capabilities, cloneBefore: CloneBefore, prelaunch: Prelaunch, process: Process, events: Events,
    report: AgentReport, cloneAfter: Option<CloneAfter>, candidate: Candidate, outcome: Outcome)

  function FrozenState(version: nat): SlotState { if version == 1 then FrozenV1 else FrozenV2 }

  // Operation rows.

  predicate PatchRow(r: Row) { r.kind == ApprovedFilePatch }

  function PatchPaths(rows: seq<Row>): set<string> {
    set i, p | 0 <= i < |rows| && PatchRow(rows[i]) && p in rows[i].paths :: p
  }

  predicate RowsPass(rows: seq<Row>) {
    forall i :: 0 <= i < |rows| ==> rows[i].pass && rows[i].sequence == i
  }

  predicate ValidRow(r: Row) {
    && !r.kind.UnknownClass? && !r.origin.UnknownOrigin? && SafePaths(r.paths)
    && (r.origin == ControllerEvent || r.origin == ProcessObservation ==> r.eventId.Some?)
    && (r.origin == FilesystemDiff || r.origin == GitDiff ==> r.eventId == None)
    && (if ProcessClass(r.kind)
        then r.executable.Some? && NonemptyArguments(r.argv) && r.cwd.Some?
        else r.executable == None && r.argv == [] && r.cwd == None)
  }

  predicate ValidRows(rows: seq<Row>) {
    && (forall i :: 0 <= i < |rows| ==> ValidRow(rows[i]) && rows[i].sequence == i)
    && forall i, j :: 0 <= i < j < |rows| && PatchRow(rows[i]) && PatchRow(rows[j]) ==>
         forall p :: p in rows[i].paths ==> p !in rows[j].paths
  }

  // The contract's cross-field rules.

  predicate ValidPrelaunch(p: Prelaunch) {
    && |p.rows| == 7 && (forall i :: 0 <= i < 7 ==> p.rows[i].gate == i)
    && (p.pass ==> p.blockers == [] && forall i :: 0 <= i < 7 ==> p.rows[i].pass && p.rows[i].blockers == [])
    && (!p.pass ==> !p.modelStarted && !p.startRequested)
  }

  predicate ValidAttempt(a: Attempt) {
    if a.kind == Prelaunching
    then a.number == None && a.reservedAt == None && a.parent == None && a.after == a.before && a.starts == 0
    else
      && (a.number == Some(1) || a.number == Some(2))
      && a.after + 1 == a.before && a.reservedAt.Some? && a.starts == 1
      && (a.kind == Ordinary ==> a.parent == None)
      && (a.kind == Remediation ==> a.number == Some(2) && a.parent.Some?)
  }

  predicate ValidProcess(p: Process) {
    if !p.startRequested then
      && p.pid == None && p.startedAt == None && p.endedAt == None && p.exitCode == None && p.error == None
      && p.stdout == None && p.stderr == None
    else if p.pid.Some? then p.startedAt.Some? && p.endedAt.Some? && p.stdout.Some? && p.stderr.Some?
    else
      && p.error.Some? && p.error.value != ""
      && p.startedAt == None && p.endedAt == None && p.exitCode == None && p.stdout == None && p.stderr == None
  }

  predicate ValidInstall(c: Candidate, slot: SlotEvidence, a: Attempt) {
    c.frozen ==>
      && slot.activeAfter == c.id
      && (c.version == None || c.version == Some(1) || c.version == Some(2))
      && (c.version == Some(1) ==>
            c.parent == None && slot.before == EmptySlot && slot.after == FrozenV1 && slot.historical == [])
      && (c.version == Some(2) ==>
            (&& c.parent.Some? && a.number == Some(2) && a.kind == Remediation && a.parent == c.parent
             && slot.before == EmptyForRemediation && slot.after == FrozenV2 && slot.historical == [c.parent.value]))
  }

  predicate SameTree(b: CloneBefore, a: CloneAfter) {
    a.commit == b.commit && a.tree == b.tree && a.gitControl == b.gitControl
  }

  predicate PromotionReady(r: Record) {
    && r.packet.validationPassed && r.baseline.same && r.prelaunch.pass
    && (r.attempt.number == Some(1) || r.attempt.number == Some(2)) && r.attempt.starts == 1
    && r.executor.identityComplete && r.capabilities.observationsComplete && RowsPass(r.capabilities.rows)
    && r.cloneAfter.Some?
    && SortedListing(r.cloneAfter.value.changed, PatchPaths(r.capabilities.rows))
    && SameTree(r.cloneBefore, r.cloneAfter.value)
    && r.process.startRequested && r.process.exitCode == Some(0) && r.process.error == None
    && !r.process.timedOut && !r.process.cancelled && r.process.terminated
    && r.events.unknown == 0 && r.events.prohibited == 0 && r.events.schemaValid
    && r.report.contractValid && r.report.claimsMatch && r.report.claimed == Some(ClaimedDone)
    && r.candidate.frozen && r.candidate.id == r.slot.activeAfter
    && r.candidate.diff == Some(r.cloneAfter.value.diff)
  }

  predicate ProcessFailed(p: Process) {
    || !p.startRequested || p.pid == None || p.error.Some? || p.timedOut || p.cancelled || !p.terminated
    || (p.exitCode.Some? && p.exitCode.value != 0)
  }

  /** The outcome the contract derives from the evidence; none for a passed prelaunch without an attempt. */
  function ExpectedOutcome(r: Record): Option<Outcome> {
    if !r.prelaunch.pass then Some(PrelaunchHold)
    else if r.attempt.number != Some(1) && r.attempt.number != Some(2) then None
    else if ProcessFailed(r.process) || r.report.claimed == Some(ClaimedFailed) then Some(AttemptFailed)
    else if PromotionReady(r) then Some(CandidateReady)
    else Some(AttemptHold)
  }

  predicate ValidRecord(r: Record) {
    && CodingSafeId(r.executionId) && CodingSafeId(r.gate) && CodingSafeId(r.project) && CodingSafeId(r.task)
    && CodingSafeId(r.packet.packetId)
    && (r.baseline.same <==> r.baseline.before == r.baseline.after)
    && (r.executor.identityComplete <==> r.executor.fullyObserved)
    && SafePaths(r.capabilities.authorized)
    && (r.capabilities.observationsComplete <==>
          (&& r.capabilities.config.Some? && r.capabilities.network.Some?
           && r.capabilities.switchesOff && r.capabilities.exactUniverses))
    && r.capabilities.exactUniverses
    && ValidRows(r.capabilities.rows)
    && ValidPrelaunch(r.prelaunch) && ValidAttempt(r.attempt) && ValidProcess(r.process)
    && (!r.prelaunch.pass ==> !r.process.startRequested)
    && (r.cloneAfter.Some? ==>
          (&& SameTree(r.cloneBefore, r.cloneAfter.value)
           && SafePaths(r.cloneAfter.value.changed)
           && SortedListing(r.cloneAfter.value.changed, PatchPaths(r.capabilities.rows))))
    && ValidInstall(r.candidate, r.slot, r.attempt)
    && (r.candidate.frozen && r.cloneAfter.Some? ==> r.candidate.diff == Some(r.cloneAfter.value.diff))
    && (r.outcome == CandidateReady ==> PromotionReady(r))
    && (ExpectedOutcome(r).Some? ==> ExpectedOutcome(r).value == r.outcome)
    && (r.candidate.passed <==> PromotionReady(r))
    && (!PromotionReady(r) ==> r.candidate == NoCandidate())
  }

  // The builders.

  /** The slot as its readers see it. */
  datatype PublicSlot = PublicSlot(
    gate: string, task: string, state: SlotState, remaining: nat, active: Option<string>, historical: seq<string>,
    authorization: Option<string>, reserved: bool)

  datatype Context = Context(
    project: string, packet: PacketIdentity, baseline: Baseline, slot: PublicSlot, cloneBefore: CloneBefore,
    executor: Executor, capabilities: Capabilities, checks: set<seq<string>>, gitReads: set<seq<string>>)

  datatype Evaluation = Evaluation(pass: bool, rows: seq<GateRow>, blockers: seq<string>)

  datatype Reservation = Reservation(
    number: nat, reservedAt: nat, parent: Option<string>, kind: AttemptKind, before: nat, after: nat)

  function NoProcess(): Process {
    Process(false, None, None, None, None, false, false, None, true, None, None)
  }

  function HoldDraft(c: Context, e: Evaluation, executionId: string): Record {
    Record(executionId, c.slot.gate, c.project, c.slot.task, c.packet, c.baseline,
           SlotEvidence(c.slot.state, c.slot.state, c.slot.active, c.slot.active, c.slot.historical),
           Attempt(None, None, None, Prelaunching, c.slot.remaining, c.slot.remaining, 0),
           c.executor, c.capabilities, c.cloneBefore, Prelaunch(false, e.rows, e.blockers, false, false),
           NoProcess(), Events(0, 0, 0, None, false), AgentReport(None, false, None, false), None,
           NoCandidate(), PrelaunchHold)
  }

  function BuildPrelaunchHold(c: Context, e: Evaluation, executionId: string): Option<Record> {
    if e.pass || e.blockers == [] || c.slot.remaining > 2 then None
    else if ValidRecord(HoldDraft(c, e, executionId)) then Some(HoldDraft(c, e, executionId)) else None
  }

  predicate RowReconciled(c: Context, after: Option<CloneAfter>, r: Row, i: nat) {
    && r.pass && r.sequence == i
    && (PatchRow(r) ==> r.origin == FilesystemDiff && r.eventId == None && after.Some? && r.evidence == after.value.diff)
    && (r.kind == LocalCheckProcess ==> r.origin == ProcessObservation && r.argv in c.checks)
    && (r.kind == GitReadOnlyInspection ==> (r.origin == ProcessObservation || r.origin == GitDiff) && r.argv in c.gitReads)
  }

  predicate RowsReconciled(c: Context, after: Option<CloneAfter>, rows: seq<Row>) {
    forall i :: 0 <= i < |rows| ==> RowReconciled(c, after, rows[i], i)
  }

  predicate ProcessSucceeded(p: Process) {
    && p.startRequested && p.pid.Some? && p.exitCode == Some(0) && p.error == None
    && !p.timedOut && !p.cancelled && p.terminated
  }

  predicate CloneReconciled(c: Context, after: Option<CloneAfter>, rows: seq<Row>) {
    && after.Some? && SameTree(c.cloneBefore, after.value)
    && SortedListing(after.value.changed, PatchPaths(rows))
    && forall p :: p in after.value.changed ==> p in c.capabilities.authorized
  }

  function OutputOf(p: Parsed, report: AgentReport): Events {
    Events(p.parsedCount, p.unknownCount, p.prohibitedCount, p.finalResponse,
           p.finalResponse.Some? && p.finalResponse == report.digest && p.unknownCount == 0 && p.prohibitedCount == 0)
  }

  predicate Promotable(c: Context, process: Process, p: Parsed, report: AgentReport, after: Option<CloneAfter>) {
    && ProcessSucceeded(process) && OutputOf(p, report).schemaValid
    && RowsReconciled(c, after, p.rows) && CloneReconciled(c, after, p.rows)
    && report.contractValid && report.claimsMatch && report.claimed == Some(ClaimedDone)
    && c.executor.identityComplete && c.capabilities.observationsComplete
  }

  function CheckRows(rows: seq<Row>): seq<Row> {
    if rows == [] then []
    else (if rows[0].kind == LocalCheckProcess then [rows[0]] else []) + CheckRows(rows[1..])
  }

  function VersionOf(kind: AttemptKind): nat { if kind == Remediation then 2 else 1 }

  function CompletedDraft(c: Context, e: Evaluation, executionId: string, r: Reservation, process: Process,
                          p: Parsed, report: AgentReport, after: Option<CloneAfter>, candidateId: string): Record {
    var promotable := Promotable(c, process, p, report, after);
    var version := VersionOf(r.kind);
    Record(executionId, c.slot.gate, c.project, c.slot.task, c.packet, c.baseline,
           SlotEvidence(c.slot.state, if promotable then FrozenState(version) else c.slot.state,
                        c.slot.active, if promotable then Some(candidateId) else c.slot.active, c.slot.historical),
           Attempt(Some(r.number), Some(r.reservedAt), r.parent, r.kind, r.before, r.after, 1),
           c.executor, c.capabilities.(rows := p.rows), c.cloneBefore, Prelaunch(true, e.rows, [], true, true),
           process, OutputOf(p, report), report, after,
           if promotable
           then Candidate(Some(candidateId), Some(version), true, r.parent, Some(after.value.diff),
                          Some((after.value.changed, after.value.inventory)), Some(CheckRows(p.rows)), true)
           else NoCandidate(),
           if promotable then CandidateReady
           else if ProcessFailed(process) || report.claimed == Some(ClaimedFailed) then AttemptFailed
           else AttemptHold)
  }

  /** The completed record, when its own contract accepts it. */
  function BuildCompleted(c: Context, e: Evaluation, executionId: string, r: Reservation, process: Process,
                          p: Parsed, report: AgentReport, after: Option<CloneAfter>, candidateId: string): Option<Record> {
    if !e.pass || e.blockers != [] || (r.number != 1 && r.number != 2) then None
    else
      var draft := CompletedDraft(c, e, executionId, r, process, p, report, after, candidateId);
      if ValidRecord(draft) then Some(draft) else None
  }

  // What the builder promises.

  /** A promotable attempt satisfies every promotion rule except the two the builder never looks at. */
  lemma PromotionOfDraft(c: Context, e: Evaluation, executionId: string, r: Reservation, process: Process,
                         p: Parsed, report: AgentReport, after: Option<CloneAfter>, candidateId: string)
    requires r.number == 1 || r.number == 2
    ensures PromotionReady(CompletedDraft(c, e, executionId, r, process, p, report, after, candidateId))
       <==> Promotable(c, process, p, report, after) && c.packet.validationPassed && c.baseline.same
  {
    hide SortedListing, PatchPaths, CheckRows;
    if RowsReconciled(c, after, p.rows) {
      forall i | 0 <= i < |p.rows| ensures p.rows[i].pass && p.rows[i].sequence == i {
        assert RowReconciled(c, after, p.rows[i], i);
      }
    }
  }

  /** The builder's outcome and the contract's are computed separately. They agree exactly when no
      promotable attempt rests on an unvalidated packet or a changed baseline. */
  lemma DraftOutcomeAgrees(c: Context, e: Evaluation, executionId: string, r: Reservation, process: Process,
                           p: Parsed, report: AgentReport, after: Option<CloneAfter>, candidateId: string)
    requires r.number == 1 || r.number == 2
    ensures var draft := CompletedDraft(c, e, executionId, r, process, p, report, after, candidateId);
            (ExpectedOutcome(draft) == Some(draft.outcome)
             <==> (Promotable(c, process, p, report, after) ==> c.packet.validationPassed && c.baseline.same))
  {
    hide SortedListing, PatchPaths, CheckRows, RowsReconciled, CloneReconciled, PromotionReady, RowsPass;
    PromotionOfDraft(c, e, executionId, r, process, p, report, after, candidateId);
  }

  lemma BuiltOutcomeIsDerived(c: Context, e: Evaluation, executionId: string, r: Reservation, process: Process,
                              p: Parsed, report: AgentReport, after: Option<CloneAfter>, candidateId: string)
    requires BuildCompleted(c, e, executionId, r, process, p, report, after, candidateId).Some?
    ensures var record := BuildCompleted(c, e, executionId, r, process, p, report, after, candidateId).value;
            && ExpectedOutcome(record) == Some(record.outcome)
            && (record.outcome == CandidateReady <==> Promotable(c, process, p, report, after))
            && (record.outcome == CandidateReady <==> record.candidate.frozen)
            && (record.outcome != CandidateReady ==>
                  record.slot.after == record.slot.before && record.slot.activeAfter == record.slot.activeBefore)
  {
    hide ValidRows, SafePaths, CodingSafeId, ValidPrelaunch, ValidProcess, Promotable, CheckRows, PromotionReady, SortedListing, PatchPaths;
  }

  /** A HOLD record leaves the slot and the budget as they were, whatever held it back. */
  lemma HoldIsDerived(c: Context, e: Evaluation, executionId: string)
    requires BuildPrelaunchHold(c, e, executionId).Some?
    ensures var record := BuildPrelaunchHold(c, e, executionId).value;
            && record.outcome == PrelaunchHold && ExpectedOutcome(record) == Some(PrelaunchHold)
            && record.attempt.number == None && record.attempt.after == record.attempt.before == c.slot.remaining
            && record.slot.after == record.slot.before == c.slot.state && record.slot.activeAfter == c.slot.active
  {
    hide ValidRecord;
  }

  /** A candidate rests on a fully reconciled stream: every row passes in order, and the changed paths
      are exactly those of the patch rows, all of them authorized. */
  lemma CandidateIsReconciled(c: Context, e: Evaluation, executionId: string, r: Reservation, process: Process,
                              p: Parsed, report: AgentReport, after: Option<CloneAfter>, candidateId: string)
    requires BuildCompleted(c, e, executionId, r, process, p, report, after, candidateId).Some?
    requires BuildCompleted(c, e, executionId, r, process, p, report, after, candidateId).value.outcome == CandidateReady
    ensures p.unknownCount == 0 && p.prohibitedCount == 0 && p.finalResponse.Some? && p.finalResponse == report.digest
    ensures RowsPass(p.rows)
    ensures after.Some? && (set q | q in after.value.changed) == PatchPaths(p.rows)
    ensures PatchPaths(p.rows) <= (set q | q in c.capabilities.authorized)
  {
    hide ValidRecord, CheckRows, SortedUnique;
    forall i | 0 <= i < |p.rows| ensures p.rows[i].pass && p.rows[i].sequence == i {
      assert RowReconciled(c, after, p.rows[i], i);
    }
    forall q | q in PatchPaths(p.rows) ensures q in c.capabilities.authorized {
      assert q in (set x | x in after.value.changed);
    }
  }

  /** From the raw stream to the candidate: nothing the executor said or the controller saw is unexplained. */
  lemma CandidateExplainsItsStream(lines: seq<Line>, observations: seq<Observation>, claims: map<string, Claim>,
                                   c: Context, e: Evaluation, executionId: string, r: Reservation, process: Process,
                                   p: Parsed, report: AgentReport, after: Option<CloneAfter>, candidateId: string)
    requires OperationEvents.Reports(lines, observations, claims, p)
    requires BuildCompleted(c, e, executionId, r, process, p, report, after, candidateId).Some?
    requires BuildCompleted(c, e, executionId, r, process, p, report, after, candidateId).value.outcome == CandidateReady
    ensures forall i: nat :: i < |lines| ==> !Rejected(lines, i) && !lines[i].Prohibited?
    ensures forall k: nat :: k < |observations| ==> Passes(claims, observations[k])
    ensures forall id :: id in claims ==> OperationEvents.Observed(observations, claims[id])
    ensures exists i :: 0 <= i < |lines| && Responds(lines, i) && Some(lines[i].response.value.digest) == report.digest
  {
    hide BuildCompleted, ClaimsOfLines, Rejected, Passes, OperationEvents.Observed, RejectedLines, Invalid, Matched, RowOf;
    CandidateIsReconciled(c, e, executionId, r, process, p, report, after, candidateId);
    ZeroUnknownMeansReconciled(lines, observations, claims);
    NoneProhibited(lines);
  }

  lemma NoneProhibited(lines: seq<Line>)
    requires |ProhibitedLines(lines)| == 0
    ensures forall i: nat :: i < |lines| ==> !lines[i].Prohibited?
  {
    forall i: nat | i < |lines| ensures !lines[i].Prohibited? {
      assert i !in ProhibitedLines(lines);
    }
  }

  /** The parser passes a process observation without an event identity; the record contract does not, so
      no attempt that has one is ever recorded. */
  lemma UnclaimedProcessRowsAreNeverRecorded(c: Context, e: Evaluation, executionId: string, r: Reservation, process: Process,
                                             p: Parsed, report: AgentReport, after: Option<CloneAfter>, candidateId: string, k: nat)
    requires k < |p.rows| && p.rows[k].origin == ProcessObservation && p.rows[k].eventId == None
    ensures BuildCompleted(c, e, executionId, r, process, p, report, after, candidateId) == None
  {
    hide ValidPrelaunch, ValidAttempt, ValidProcess, ValidInstall, PromotionReady, ExpectedOutcome, SortedListing, SafePaths,
         CodingSafeId, Promotable, CheckRows, OutputOf;
    var draft := CompletedDraft(c, e, executionId, r, process, p, report, after, candidateId);
    assert draft.capabilities.rows[k] == p.rows[k];
    assert !ValidRow(p.rows[k]);
  }
}
