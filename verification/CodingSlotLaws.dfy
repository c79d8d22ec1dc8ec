/** Laws of every slot run: budget, binding, records, candidates, and the records that publish. */
module CodingSlotLaws {
  import opened Results
  import opened Identifiers
  import opened CodingRecord
  import opened CodingSlot

  // One step.

  /** What no operation ever undoes. */
  predicate Grows(s: Slot, s': Slot) {
    && s'.gate == s.gate && s'.task == s.task
    && s.records <= s'.records
    && (s.binding.Some? ==> s'.binding == s.binding)
    && s'.remaining <= s.remaining
  }

  predicate Budget(s: Slot) {
    s.remaining + Completed(s.records) + Outstanding(s) == 2
  }

  lemma LoadedIsWhole(s: Slot, gate: string)
    ensures Load(Some(s), gate).Success? ==> Load(Some(s), gate).value == s && ValidSlot(s, gate)
  {
  }

  lemma CheckedIsValid(s: Slot, gate: string)
    ensures Checked(s, gate).Success? ==> Checked(s, gate).value == s && ValidSlot(s, gate)
  {
  }

  lemma ValidSlotBudget(s: Slot, gate: string)
    requires ValidSlot(s, gate)
    ensures Budget(s) && s.gate == gate && s.remaining <= 2
    ensures s.reservation.Some? ==> ValidReservation(s.reservation.value, s.remaining)
  {
  }

  /** Every version written satisfies the budget, and only adds. */
  lemma StepGrows(s: Slot, gate: string, q: Request)
    requires Apply(Some(s), gate, q).Success?
    ensures ValidSlot(s, gate) && ValidSlot(Apply(Some(s), gate, q).value, gate)
    ensures Budget(Apply(Some(s), gate, q).value) && Grows(s, Apply(Some(s), gate, q).value)
  {
    hide ValidSlot, ValidRecord, FindRecord, MayReserve, HoldFits, AttemptFits, InstallFits, SafeId, Budget;
    LoadedIsWhole(s, gate);
    ValidSlotBudget(s, gate);
    var s' := Apply(Some(s), gate, q).value;
    assert ValidSlot(s', gate) && Grows(s, s');
    ValidSlotBudget(s', gate);
  }

  /** A HOLD record is filed and nothing else happens. */
  lemma HoldChangesNothing(s: Slot, gate: string, r: Record)
    requires r.outcome == PrelaunchHold && Apply(Some(s), gate, Publishing(r)).Success?
    ensures var s' := Apply(Some(s), gate, Publishing(r)).value;
            s' == s.(records := s'.records) && Completed(s'.records) == Completed(s.records)
  {
    hide ValidSlot, ValidRecord, FindRecord, HoldFits, SafeId;
    LoadedIsWhole(s, gate);
    if FindRecord(s.records, r.executionId) == None {
      HoldReservesNothing(s, r);
      assert DropLast(s.records + [r]) == s.records;
    }
  }

  /** The contract alone lets a HOLD record claim an attempt; the slot's budget check does not. */
  lemma HoldReservesNothing(s: Slot, r: Record)
    requires ValidRecord(r) && HoldFits(s, r)
    ensures !Reserved(r)
  {
    hide ValidRows, SafePaths, CodingSafeId, ValidProcess, ValidInstall, PromotionReady, SortedListing, ExpectedOutcome;
  }

  // The states a slot can reach.

  /** Which candidates have been installed, and where they are now. */
  predicate Reached(s: Slot) {
    && ValidSlot(s, s.gate)
    && match s.state
       case EmptySlot =>
         s.active == None && s.historical == [] && s.authorization == None && Installed(s.records) == []
       case FrozenV1 =>
         && s.active.Some? && s.historical == [] && s.authorization == None && s.reservation == None
         && |Installed(s.records)| == 1 && IsV1(Installed(s.records)[0], s.active.value)
       case EmptyForRemediation =>
         && s.active == None && |s.historical| == 1 && s.authorization.Some?
         && |Installed(s.records)| == 1 && IsV1(Installed(s.records)[0], s.historical[0])
       case FrozenV2 =>
         && s.active.Some? && |s.historical| == 1 && s.reservation == None && s.remaining == 0
         && |Installed(s.records)| == 2 && IsV1(Installed(s.records)[0], s.historical[0])
         && IsV2(Installed(s.records)[1], s.active.value, s.historical[0])
       case RejectedHoldV1 => false
  }

  /** The frozen candidates, oldest first. */
  function Installed(records: seq<Record>): seq<Candidate> {
    if records == [] then []
    else Installed(DropLast(records)) + if Last(records).outcome == CandidateReady then [Last(records).candidate] else []
  }

  predicate IsV1(c: Candidate, id: string) { c.version == Some(1) && c.id == Some(id) && c.parent == None }

  predicate IsV2(c: Candidate, id: string, parent: string) {
    c.version == Some(2) && c.id == Some(id) && c.parent == Some(parent)
  }

  lemma {:induction false} InstalledIds(records: seq<Record>)
    ensures |Installed(records)| == |CandidateIds(records)|
    ensures forall i :: 0 <= i < |Installed(records)| ==> CandidateIds(records)[i] == Installed(records)[i].id
  {
    if records != [] {
      InstalledIds(DropLast(records));
    }
  }

  /** The reservation that is out belongs to the state it was taken in. */
  predicate Live(s: Slot) {
    s.reservation.Some? ==>
      var r := s.reservation.value;
      && r.number == 2 - s.remaining
      && (s.state == EmptySlot ==> r.kind == Ordinary && r.parent == None)
      && (s.state == EmptyForRemediation ==> 
            r.kind == Remediation && r.number == 2 && |s.historical| == 1 && r.parent == Some(s.historical[0]))
  }

  predicate Slotted(s: Slot) { Reached(s) && Live(s) }

  lemma NewSlotIsSlotted(gate: string, task: string)
    requires Initialize(None, gate, task).Success?
    ensures Slotted(Initialize(None, gate, task).value)
  {
  }

  lemma ReserveKeepsSlotted(s: Slot, gate: string, q: Request)
    requires Slotted(s) && q.Reserving? && Apply(Some(s), gate, q).Success?
    ensures Slotted(Apply(Some(s), gate, q).value)
  {
    hide ValidSlot, IsV1, IsV2, Installed;
    LoadedIsWhole(s, gate);
    ValidSlotBudget(s, gate);
    var s' := Apply(Some(s), gate, q).value;
    CheckedIsValid(s', gate);
  }

  lemma RetireKeepsSlotted(s: Slot, gate: string, q: Request)
    requires Slotted(s) && q.Retiring? && Apply(Some(s), gate, q).Success?
    ensures Slotted(Apply(Some(s), gate, q).value)
  {
    hide ValidSlot, SafeId, IsV1, IsV2, Installed;
    LoadedIsWhole(s, gate);
    ValidSlotBudget(s, gate);
    var s' := Apply(Some(s), gate, q).value;
    CheckedIsValid(s', gate);
  }

  /** A published candidate is a v1 into the empty slot, or a v2 whose parent is the retired v1. */
  lemma ReadyRecord(s: Slot, r: Record)
    requires ValidRecord(r) && r.outcome == CandidateReady && InstallFits(s, r)
    requires r.slot.before == s.state && r.slot.historical == s.historical
    ensures r.candidate.id.Some? ==>
              || (s.state == EmptySlot && r.slot.after == FrozenV1 && s.historical == [] && IsV1(r.candidate, r.candidate.id.value))
              || (s.state == EmptyForRemediation && r.slot.after == FrozenV2 && r.attempt.number == Some(2)
                  && |s.historical| == 1 && IsV2(r.candidate, r.candidate.id.value, s.historical[0]))
  {
    hide ValidRows, SafePaths, CodingSafeId, ValidProcess, SortedListing, RowsPass, ExpectedOutcome;
  }

  /** What a publication of a new record changes, besides filing it. */
  lemma PublicationEffect(s: Slot, gate: string, r: Record)
    requires Apply(Some(s), gate, Publishing(r)).Success? && FindRecord(s.records, r.executionId) == None
    ensures ValidRecord(r) && r.gate == gate && ValidSlot(s, gate)
    ensures var s' := Apply(Some(s), gate, Publishing(r)).value;
            && ValidSlot(s', gate) && s'.records == s.records + [r]
            && s'.historical == s.historical && s'.authorization == s.authorization && s'.remaining == s.remaining
            && s'.reservation == None
            && (if r.outcome == CandidateReady
                then && InstallFits(s, r) && r.slot.before == s.state && r.slot.historical == s.historical
                     && s'.state == r.slot.after && s'.active == r.candidate.id && s.reservation.Some?
                else s'.state == s.state && s'.active == s.active)
  {
    hide ValidSlot, ValidRecord, HoldFits, AttemptFits, FindRecord, BindingOf;
    LoadedIsWhole(s, gate);
  }

  lemma PublishKeepsSlotted(s: Slot, gate: string, q: Request)
    requires Slotted(s) && q.Publishing? && Apply(Some(s), gate, q).Success?
    ensures Slotted(Apply(Some(s), gate, q).value)
  {
    hide ValidSlot, ValidRecord, FindRecord, IsV1, IsV2;
    var r, s' := q.record, Apply(Some(s), gate, q).value;
    if FindRecord(s.records, r.executionId) == None {
      PublicationEffect(s, gate, r);
      hide Apply;
      ValidSlotBudget(s, gate);
      ValidSlotBudget(s', gate);
      assert DropLast(s'.records) == s.records && Last(s'.records) == r;
      FrozenHasActive(s', gate);
      if r.outcome == CandidateReady {
        ReadyRecord(s, r);
      }
    } else {
      RepublishedIsSame(s, gate, r);
    }
  }

  lemma RepublishedIsSame(s: Slot, gate: string, r: Record)
    requires Apply(Some(s), gate, Publishing(r)).Success? && FindRecord(s.records, r.executionId).Some?
    ensures Apply(Some(s), gate, Publishing(r)).value == s
  {
    hide ValidSlot, ValidRecord, FindRecord;
    LoadedIsWhole(s, gate);
  }

  lemma FrozenHasActive(s: Slot, gate: string)
    requires ValidSlot(s, gate)
    ensures s.state == FrozenV1 || s.state == FrozenV2 ==> s.active.Some?
  {
  }

  lemma StepKeepsSlotted(s: Slot, gate: string, q: Request)
    requires Slotted(s) && Apply(Some(s), gate, q).Success?
    ensures Slotted(Apply(Some(s), gate, q).value)
  {
    hide Slotted, Load, Reserve, Retire, Publish;
    match q
    case Initializing(task) => LoadedIsWhole(s, gate);
    case Reserving(_, _, _) => ReserveKeepsSlotted(s, gate, q);
    case Retiring(_, _) => RetireKeepsSlotted(s, gate, q);
    case Publishing(_) => PublishKeepsSlotted(s, gate, q);
  }

  // Runs.

  /** The versions a slot file goes through, and the requests between them. */
  ghost predicate SlotRun(gate: string, versions: seq<Slot>, requests: seq<Request>) {
    && |versions| == |requests| + 1
    && (exists task: string :: Initialize(None, gate, task) == Success(versions[0]))
    && forall i :: 0 <= i < |requests| ==> Apply(Some(versions[i]), gate, requests[i]) == Success(versions[i + 1])
  }

  lemma {:induction false} RunIsSlotted(gate: string, versions: seq<Slot>, requests: seq<Request>, i: nat)
    requires SlotRun(gate, versions, requests) && i < |versions|
    ensures Slotted(versions[i])
  {
    hide Slotted, Apply, Initialize;
    if i == 0 {
      var task: string :| Initialize(None, gate, task) == Success(versions[0]);
      NewSlotIsSlotted(gate, task);
    } else {
      RunIsSlotted(gate, versions, requests, i - 1);
      var n := i - 1;
      assert Apply(Some(versions[n]), gate, requests[n]) == Success(versions[n + 1]);
      StepKeepsSlotted(versions[n], gate, requests[n]);
    }
  }

  /** In every run: the budget holds in every version, records only grow, and the gate binding, once
      set, is the same for ever. */
  lemma {:induction false} RunGrows(gate: string, versions: seq<Slot>, requests: seq<Request>, i: nat, j: nat)
    requires SlotRun(gate, versions, requests) && i <= j < |versions|
    ensures Budget(versions[i]) && Budget(versions[j]) && Grows(versions[i], versions[j])
    decreases j
  {
    hide Budget, Grows, Slotted, Apply, Initialize, ValidSlot;
    SlottedHasBudget(gate, versions, requests, i);
    SlottedHasBudget(gate, versions, requests, j);
    if i < j {
      RunGrows(gate, versions, requests, i, j - 1);
      StepGrows(versions[j - 1], gate, requests[j - 1]);
      GrowsIsTransitive(versions[i], versions[j - 1], versions[j]);
    } else {
      GrowsIsReflexive(versions[i]);
    }
  }

  lemma GrowsIsTransitive(a: Slot, b: Slot, c: Slot)
    requires Grows(a, b) && Grows(b, c)
    ensures Grows(a, c)
  {
  }

  lemma GrowsIsReflexive(a: Slot)
    ensures Grows(a, a)
  {
  }

  lemma SlottedHasBudget(gate: string, versions: seq<Slot>, requests: seq<Request>, i: nat)
    requires SlotRun(gate, versions, requests) && i < |versions|
    ensures Budget(versions[i])
  {
    hide SlotRun, ValidSlot;
    RunIsSlotted(gate, versions, requests, i);
    ValidSlotBudget(versions[i], versions[i].gate);
  }

  /** The numbers of the reservations granted, in order. */
  function Granted(versions: seq<Slot>, requests: seq<Request>): seq<nat>
    requires |versions| == |requests| + 1
    decreases |requests|
  {
    if requests == [] then []
    else
      var r := Last(versions).reservation;
      Granted(DropLast(versions), DropLast(requests)) +
      (if Last(requests).Reserving? && r.Some? then [r.value.number] else [])
  }

  lemma SlotRunPrefix(gate: string, versions: seq<Slot>, requests: seq<Request>)
    requires SlotRun(gate, versions, requests) && requests != []
    ensures SlotRun(gate, DropLast(versions), DropLast(requests))
  {
    hide Apply, Initialize;
    assert DropLast(versions)[0] == versions[0];
  }

  lemma SpentMonotone(s: Slot, gate: string, q: Request)
    requires Apply(Some(s), gate, q).Success? && s.remaining <= 2
    ensures var s' := Apply(Some(s), gate, q).value;
            if q.Reserving? then s.remaining > 0 && s'.remaining == s.remaining - 1 && s'.reservation.Some?
                                 && s'.reservation.value.number == 3 - s.remaining
            else s'.remaining == s.remaining
  {
    hide ValidSlot, ValidRecord, FindRecord, MayReserve, HoldFits, AttemptFits, InstallFits, SafeId, BindingOf;
    LoadedIsWhole(s, gate);
  }

  /** At most two reservations are ever granted, numbered 1 and then 2. */
  lemma {:induction false} AtMostTwoReservations(gate: string, versions: seq<Slot>, requests: seq<Request>)
    requires SlotRun(gate, versions, requests)
    ensures Last(versions).remaining <= 2
    ensures Granted(versions, requests) == [1, 2][..2 - Last(versions).remaining]
    decreases |requests|
  {
    hide Apply, Budget, Initialize;
    SlottedHasBudget(gate, versions, requests, |requests|);
    BudgetBounds(Last(versions));
    if requests == [] {
      var task: string :| Initialize(None, gate, task) == Success(versions[0]);
      FreshBudget(gate, task);
    } else {
      SlotRunPrefix(gate, versions, requests);
      AtMostTwoReservations(gate, DropLast(versions), DropLast(requests));
      var s := Last(DropLast(versions));
      assert Apply(Some(s), gate, Last(requests)) == Success(Last(versions));
      SpentMonotone(s, gate, Last(requests));
    }
  }

  lemma BudgetBounds(s: Slot)
    requires Budget(s)
    ensures s.remaining <= 2
  {
  }

  lemma FreshBudget(gate: string, task: string)
    requires Initialize(None, gate, task).Success?
    ensures Initialize(None, gate, task).value.remaining == 2
  {
  }

  /** At most one v1 and one v2 ever; the v2 descends from the v1, which by then is retired and stays in history. */
  lemma CandidatesOfARun(gate: string, versions: seq<Slot>, requests: seq<Request>, i: nat)
    requires SlotRun(gate, versions, requests) && i < |versions|
    ensures var cs := Installed(versions[i].records);
            && |cs| <= 2
            && (|cs| >= 1 ==> cs[0].version == Some(1) && cs[0].id.Some?)
            && (|cs| == 2 ==> cs[1].version == Some(2) && cs[1].id.Some? && cs[1].parent == cs[0].id
                              && versions[i].historical == [cs[0].id.value] && versions[i].active == cs[1].id)
  {
    hide SlotRun, ValidSlot;
    RunIsSlotted(gate, versions, requests, i);
  }
}
