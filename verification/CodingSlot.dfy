/** The coding slot of a gate: its file, its four operations and the two-attempt budget. */
module CodingSlot {
  import opened Results
  import opened Identifiers
  import opened CodingRecord

  /** The immutable identities of a gate's reserved attempts. */
  datatype GateBinding = GateBinding(
    packet: PacketIdentity, repository: string, commit: string, tree: string, executor: Executor,
    authorized: seq<string>, checkAllowlist: Sha, config: Option<Sha>, gitAllowlist: Sha, network: Option<Sha>)

  datatype Slot = Slot(
    gate: string, task: string, binding: Option<GateBinding>, state: SlotState, remaining: nat,
    active: Option<string>, historical: seq<string>, authorization: Option<string>,
    reservation: Option<Reservation>, records: seq<Record>)

  datatype SlotError = Corrupt | InvalidInput | ConcurrentWrite | BudgetExhausted | IdempotencyConflict

  function BindingOf(r: Record): GateBinding {
    GateBinding(r.packet, r.baseline.repository, r.baseline.commit, r.baseline.tree, r.executor,
                r.capabilities.authorized, r.capabilities.checkAllowlist, r.capabilities.config,
                r.capabilities.gitAllowlist, r.capabilities.network)
  }

  predicate Reserved(r: Record) { r.attempt.number.Some? }

  function Completed(records: seq<Record>): nat {
    if records == [] then 0 else Completed(DropLast(records)) + if Reserved(Last(records)) then 1 else 0
  }

  function Outstanding(s: Slot): nat { if s.reservation.Some? then 1 else 0 }

  /** The candidate identities installed so far, oldest first. */
  function CandidateIds(records: seq<Record>): seq<Option<string>> {
    if records == [] then []
    else CandidateIds(DropLast(records)) + if Last(records).outcome == CandidateReady then [Last(records).candidate.id] else []
  }

  predicate ValidReservation(r: Reservation, remaining: nat) {
    && (r.number == 1 || r.number == 2)
    && r.after == remaining && r.before == remaining + 1
    && (r.kind == Ordinary || r.kind == Remediation)
  }

  predicate Recordable(s: Slot, r: Record) {
    && ValidRecord(r) && r.gate == s.gate && r.task == s.task
    && (r.outcome != PrelaunchHold ==> s.binding == Some(BindingOf(r)))
  }

  predicate ValidRecords(s: Slot) {
    && (forall i :: 0 <= i < |s.records| ==> Recordable(s, s.records[i]))
    && (forall i, j :: 0 <= i < j < |s.records| ==> s.records[i].executionId != s.records[j].executionId)
    && Completed(s.records) <= 2
  }

  predicate ValidCandidates(s: Slot) {
    var ids := CandidateIds(s.records);
    && (forall i, j :: 0 <= i < j < |ids| ==> ids[i] != ids[j])
    && (s.active.Some? ==> s.active in ids)
    && (forall i :: 0 <= i < |s.historical| ==> Some(s.historical[i]) in ids)
  }

  predicate ValidIdentities(s: Slot) {
    && SafeId(s.gate) && SafeId(s.task)
    && (s.active.Some? ==> SafeId(s.active.value) && s.active.value !in s.historical)
    && (s.state == EmptySlot || s.state == EmptyForRemediation ==> s.active == None)
    && (s.state == FrozenV1 || s.state == FrozenV2 ==> s.active.Some?)
    && SortedUnique(s.historical) && (forall i :: 0 <= i < |s.historical| ==> SafeId(s.historical[i]))
    && (s.authorization.Some? ==> SafeId(s.authorization.value))
    && (s.state == EmptyForRemediation ==> s.authorization.Some?)
  }

  /** What every read and every write of a slot file checks. */
  predicate ValidSlot(s: Slot, gate: string) {
    && s.gate == gate && s.remaining <= 2
    && ValidIdentities(s)
    && (s.reservation.Some? ==> ValidReservation(s.reservation.value, s.remaining))
    && ValidRecords(s)
    && s.remaining + Completed(s.records) + Outstanding(s) == 2
    && ValidCandidates(s)
  }

  function Checked(s: Slot, gate: string): Result<Slot, SlotError> {
    if ValidSlot(s, gate) then Success(s) else Failure(Corrupt)
  }

  function Load(file: Option<Slot>, gate: string): Result<Slot, SlotError> {
    if file == None then Failure(Corrupt) else Checked(file.value, gate)
  }

  // The operations: the slot written, or the slot left as it was, or a refusal.

  function NewSlot(gate: string, task: string): Slot {
    Slot(gate, task, None, EmptySlot, 2, None, [], None, None, [])
  }

  function Initialize(file: Option<Slot>, gate: string, task: string): Result<Slot, SlotError> {
    if !SafeId(gate) || !SafeId(task) then Failure(InvalidInput)
    else if file.Some? then
      var s :- Load(file, gate);
      if s.task != task then Failure(Corrupt) else Success(s)
    else Checked(NewSlot(gate, task), gate)
  }

  predicate MayReserve(s: Slot, kind: AttemptKind, parent: Option<string>) {
    match kind
    case Ordinary => s.state == EmptySlot && parent == None
    case Remediation =>
      && s.state == EmptyForRemediation && s.remaining == 1
      && parent.Some? && parent.value in s.historical && s.authorization.Some?
    case Prelaunching => false
  }

  function Reserve(file: Option<Slot>, gate: string, kind: AttemptKind, parent: Option<string>, reservedAt: nat)
    : Result<Slot, SlotError>
  {
    var s :- Load(file, gate);
    if s.reservation.Some? then Failure(ConcurrentWrite)
    else if s.remaining == 0 then Failure(BudgetExhausted)
    else if !MayReserve(s, kind, parent) then Failure(InvalidInput)
    else
      var reservation := Reservation(3 - s.remaining, reservedAt, parent, kind, s.remaining, s.remaining - 1);
      Checked(s.(remaining := s.remaining - 1, reservation := Some(reservation)), gate)
  }

  function Retire(file: Option<Slot>, gate: string, candidate: string, authorization: string): Result<Slot, SlotError> {
    if !SafeId(candidate) || !SafeId(authorization) then Failure(InvalidInput)
    else
      var s :- Load(file, gate);
      if s.state != FrozenV1 || s.active != Some(candidate) || s.remaining != 1 || s.reservation.Some? || s.historical != []
      then Failure(InvalidInput)
      else
        Checked(s.(state := EmptyForRemediation, active := None, historical := [candidate], authorization := Some(authorization)),
                gate)
  }

  function FindRecord(records: seq<Record>, executionId: string): Option<Record>
    decreases |records|
  {
    if records == [] then None
    else if records[0].executionId == executionId then Some(records[0])
    else FindRecord(records[1..], executionId)
  }

  predicate HoldFits(s: Slot, r: Record) {
    && r.attempt.before == s.remaining && r.attempt.after == s.remaining
    && r.slot.before == s.state && r.slot.after == s.state
    && r.slot.activeBefore == s.active && r.slot.activeAfter == s.active
    && r.slot.historical == s.historical
  }

  predicate AttemptFits(a: Attempt, r: Reservation) {
    && a.number == Some(r.number) && a.reservedAt == Some(r.reservedAt) && a.parent == r.parent && a.kind == r.kind
    && a.before == r.before && a.after == r.after
  }

  /** The state a candidate of this version installs; no other version has one. */
  predicate InstallFits(s: Slot, r: Record) {
    && (r.candidate.version == Some(1) || r.candidate.version == Some(2))
    && r.slot.after == FrozenState(r.candidate.version.value) && r.slot.activeAfter == r.candidate.id
  }

  function Publish(file: Option<Slot>, r: Record): Result<Slot, SlotError> {
    if !ValidRecord(r) then Failure(InvalidInput)
    else
      var s :- Load(file, r.gate);
      if s.task != r.task then Failure(InvalidInput)
      else
        match FindRecord(s.records, r.executionId)
        case Some(existing) => if existing == r then Success(s) else Failure(IdempotencyConflict)
        case None =>
          if r.outcome == PrelaunchHold then
            if s.reservation.Some? || !HoldFits(s, r) then Failure(InvalidInput)
            else Checked(s.(records := s.records + [r]), r.gate)
          else if s.binding.Some? && s.binding.value != BindingOf(r) then Failure(InvalidInput)
          else if s.reservation == None || !AttemptFits(r.attempt, s.reservation.value) then Failure(InvalidInput)
          else if r.slot.before != s.state || r.slot.activeBefore != s.active || r.slot.historical != s.historical
          then Failure(InvalidInput)
          else
            var done := s.(binding := Some(BindingOf(r)), reservation := None, records := s.records + [r]);
            if r.outcome == CandidateReady then
              if !InstallFits(s, r) then Failure(InvalidInput)
              else Checked(done.(state := r.slot.after, active := r.candidate.id), r.gate)
            else if r.slot.after != s.state || r.slot.activeAfter != s.active then Failure(InvalidInput)
            else Checked(done, r.gate)
  }

  datatype Request =
    | Initializing(task: string)
    | Reserving(kind: AttemptKind, parent: Option<string>, reservedAt: nat)
    | Retiring(candidate: string, authorization: string)
    | Publishing(record: Record)

  /** One operation on the file of a gate. */
  function Apply(file: Option<Slot>, gate: string, q: Request): Result<Slot, SlotError> {
    match q
    case Initializing(task) => Initialize(file, gate, task)
    case Reserving(kind, parent, reservedAt) => Reserve(file, gate, kind, parent, reservedAt)
    case Retiring(candidate, authorization) => Retire(file, gate, candidate, authorization)
    case Publishing(r) => if r.gate == gate then Publish(file, r) else Failure(InvalidInput)
  }

  /** The slot file of one gate, as the methods of the store change it. The caller holds the gate's lock. */
  class SlotFile {
    const gate: string
    var content: Option<Slot>

    constructor (gate: string)
      ensures this.gate == gate && content == None
    {
      this.gate := gate;
      content := None;
    }

    method Read() returns (r: Result<Slot, SlotError>)
      ensures r == Load(content, gate)
    {
      if content == None {
        return Failure(Corrupt);
      }
      r := if ValidSlot(content.value, gate) then Success(content.value) else Failure(Corrupt);
    }

    method InitializeSlot(task: string) returns (r: Result<Slot, SlotError>)
      modifies this
      ensures r == Initialize(old(content), gate, task)
      ensures content == if r.Success? then Some(r.value) else old(content)
    {
      if !SafeId(gate) || !SafeId(task) {
        return Failure(InvalidInput);
      }
      if content.Some? {
        r := Read();
        if r.Success? && r.value.task != task {
          r := Failure(Corrupt);
        }
        return;
      }
      var s := NewSlot(gate, task);
      if !ValidSlot(s, gate) {
        return Failure(Corrupt);
      }
      content := Some(s);
      r := Success(s);
    }

    method ReserveAttempt(kind: AttemptKind, parent: Option<string>, reservedAt: nat) returns (r: Result<Slot, SlotError>)
      modifies this
      ensures r == Reserve(old(content), gate, kind, parent, reservedAt)
      ensures content == if r.Success? then Some(r.value) else old(content)
    {
      hide ValidSlot;
      r := Read();
      if r.Failure? {
        return;
      }
      var s := r.value;
      if s.reservation.Some? {
        return Failure(ConcurrentWrite);
      }
      if s.remaining == 0 {
        return Failure(BudgetExhausted);
      }
      if kind == Ordinary {
        if s.state != EmptySlot || parent.Some? {
          return Failure(InvalidInput);
        }
      } else if kind == Remediation {
        if s.state != EmptyForRemediation || s.remaining != 1 || parent == None || parent.value !in s.historical || s.authorization == None {
          return Failure(InvalidInput);
        }
      } else {
        return Failure(InvalidInput);
      }
      RemainingIsSmall(s, gate);
      s := s.(reservation := Some(Reservation(3 - s.remaining, reservedAt, parent, kind, s.remaining, s.remaining - 1)),
              remaining := s.remaining - 1);
      if !ValidSlot(s, gate) {
        return Failure(Corrupt);
      }
      content := Some(s);
      r := Success(s);
    }

    method RetireCandidate(candidate: string, authorization: string) returns (r: Result<Slot, SlotError>)
      modifies this
      ensures r == Retire(old(content), gate, candidate, authorization)
      ensures content == if r.Success? then Some(r.value) else old(content)
    {
      hide ValidSlot, SafeId;
      if !SafeId(candidate) || !SafeId(authorization) {
        return Failure(InvalidInput);
      }
      r := Read();
      if r.Failure? {
        return;
      }
      var s := r.value;
      if s.state != FrozenV1 || s.active != Some(candidate) || s.remaining != 1 || s.reservation.Some? || s.historical != [] {
        return Failure(InvalidInput);
      }
      s := s.(state := EmptyForRemediation, active := None, historical := [candidate], authorization := Some(authorization));
      if !ValidSlot(s, gate) {
        return Failure(Corrupt);
      }
      content := Some(s);
      r := Success(s);
    }

    method PublishRecord(record: Record) returns (r: Result<Slot, SlotError>)
      requires record.gate == gate
      modifies this
      ensures r == Publish(old(content), record)
      ensures content == if r.Success? then Some(r.value) else old(content)
    {
      hide ValidSlot, ValidRecord, FindRecord, BindingOf;
      if !ValidRecord(record) {
        return Failure(InvalidInput);
      }
      r := Read();
      if r.Failure? {
        return;
      }
      var s := r.value;
      if s.task != record.task {
        return Failure(InvalidInput);
      }
      var existing := FindRecord(s.records, record.executionId);
      if existing.Some? {
        return if existing.value == record then Success(s) else Failure(IdempotencyConflict);
      }
      if record.outcome != PrelaunchHold {
        if s.binding == None {
          s := s.(binding := Some(BindingOf(record)));
        } else if s.binding.value != BindingOf(record) {
          return Failure(InvalidInput);
        }
      }
      if record.outcome == PrelaunchHold {
        if s.reservation.Some? {
          return Failure(InvalidInput);
        }
        if !HoldFits(s, record) {
          return Failure(InvalidInput);
        }
        s := s.(records := s.records + [record]);
      } else {
        if s.reservation == None || !AttemptFits(record.attempt, s.reservation.value) {
          return Failure(InvalidInput);
        }
        if record.slot.before != s.state || record.slot.activeBefore != s.active || record.slot.historical != s.historical {
          return Failure(InvalidInput);
        }
        if record.outcome == CandidateReady {
          if !InstallFits(s, record) {
            return Failure(InvalidInput);
          }
          s := s.(state := record.slot.after, active := record.candidate.id);
        } else if record.slot.after != s.state || record.slot.activeAfter != s.active {
          return Failure(InvalidInput);
        }
        s := s.(reservation := None, records := s.records + [record]);
      }
      if !ValidSlot(s, gate) {
        return Failure(Corrupt);
      }
      content := Some(s);
      r := Success(s);
    }
  }

  lemma RemainingIsSmall(s: Slot, gate: string)
    requires ValidSlot(s, gate)
    ensures s.remaining <= 2
  {
  }
}
