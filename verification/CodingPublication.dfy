/** The builder and the slot together: which built records the slot accepts. */
module CodingPublication {
  import opened Results
  import opened Identifiers
  import opened OperationEvents
  import opened CodingRecord
  import opened CodingSlot
  import opened CodingSlotLaws

  /** What a reader of the slot hands to the builder; the reservation is taken afterwards. */
  function PublicOf(s: Slot): PublicSlot {
    PublicSlot(s.gate, s.task, s.state, s.remaining, s.active, s.historical, s.authorization, s.reservation.Some?)
  }

  /** The evidence was read from this slot, before or after its reservation. */
  predicate ReadFrom(p: PublicSlot, s: Slot) {
    && p.gate == s.gate && p.task == s.task && p.state == s.state
    && p.active == s.active && p.historical == s.historical
  }

  lemma ReservingKeepsTheEvidence(s: Slot, gate: string, kind: AttemptKind, parent: Option<string>, reservedAt: nat)
    requires Reserve(Some(s), gate, kind, parent, reservedAt).Success?
    ensures var reserved := Reserve(Some(s), gate, kind, parent, reservedAt).value;
            ReadFrom(PublicOf(s), reserved) && reserved.records == s.records && reserved.binding == s.binding
  {
    hide ValidSlot, MayReserve;
  }

  lemma {:induction false} FoundRecord(records: seq<Record>, executionId: string)
    ensures FindRecord(records, executionId) == None <==> forall i :: 0 <= i < |records| ==> records[i].executionId != executionId
    decreases |records|
  {
    if records != [] {
      FoundRecord(records[1..], executionId);
      if FindRecord(records, executionId) == None {
        forall i | 0 <= i < |records| ensures records[i].executionId != executionId {
          if i > 0 { assert records[i] == records[1..][i - 1]; }
        }
      }
    }
  }

  predicate Fresh(s: Slot, candidate: string) {
    SafeId(candidate) && Some(candidate) !in CandidateIds(s.records)
  }

  predicate BindingFits(s: Slot, r: Record) { s.binding.Some? ==> s.binding.value == BindingOf(r) }

  // A slot extended by one acceptable record is a valid slot.

  lemma UnboundHoldsOnlyHolds(s: Slot, gate: string, i: nat)
    requires ValidSlot(s, gate) && i < |s.records|
    ensures Recordable(s, s.records[i])
    ensures s.binding == None ==> s.records[i].outcome == PrelaunchHold
  {
  }

  lemma ExtendedRecords(s: Slot, s': Slot, r: Record)
    requires ValidSlot(s, s.gate) && s'.gate == s.gate && s'.task == s.task && s'.records == s.records + [r]
    requires s.binding.Some? ==> s'.binding == s.binding
    requires Recordable(s', r) && FindRecord(s.records, r.executionId) == None && Completed(s'.records) <= 2
    ensures ValidRecords(s')
  {
    hide ValidSlot, ValidRecord, Completed, BindingOf;
    FoundRecord(s.records, r.executionId);
    forall i | 0 <= i < |s'.records| ensures Recordable(s', s'.records[i]) {
      if i < |s.records| {
        UnboundHoldsOnlyHolds(s, s.gate, i);
        assert s'.records[i] == s.records[i];
      }
    }
    DistinctExecutions(s);
    forall i, j | 0 <= i < j < |s'.records| ensures s'.records[i].executionId != s'.records[j].executionId {
      assert s'.records[i] == s.records[i];
    }
  }

  lemma DistinctExecutions(s: Slot)
    requires ValidSlot(s, s.gate)
    ensures forall i, j :: 0 <= i < j < |s.records| ==> s.records[i].executionId != s.records[j].executionId
  {
    hide ValidIdentities, ValidCandidates, Recordable, ValidReservation;
  }

  lemma SlotParts(s: Slot)
    requires ValidSlot(s, s.gate)
    ensures ValidIdentities(s) && ValidCandidates(s) && s.remaining <= 2
    ensures s.remaining + Completed(s.records) + Outstanding(s) == 2
  {
    hide ValidIdentities, ValidCandidates, ValidRecords;
  }

  lemma SlotWhole(s: Slot)
    requires ValidIdentities(s) && ValidCandidates(s) && ValidRecords(s) && s.remaining <= 2 && s.reservation == None
    requires s.remaining + Completed(s.records) == 2
    ensures ValidSlot(s, s.gate)
  {
    hide ValidIdentities, ValidCandidates, ValidRecords, Completed;
  }

  lemma CompletedExtends(records: seq<Record>, r: Record)
    ensures Completed(records + [r]) == Completed(records) + if Reserved(r) then 1 else 0
    ensures CandidateIds(records + [r]) == CandidateIds(records) + if r.outcome == CandidateReady then [r.candidate.id] else []
  {
    assert DropLast(records + [r]) == records;
  }

  /** Filing an attempt that installs nothing. */
  lemma NoncandidateIsFiled(s: Slot, r: Record)
    requires ValidSlot(s, s.gate) && s.reservation.Some? && r.outcome != CandidateReady && r.outcome != PrelaunchHold
    requires ValidRecord(r) && r.gate == s.gate && r.task == s.task && Reserved(r) && BindingFits(s, r)
    requires FindRecord(s.records, r.executionId) == None
    ensures ValidSlot(s.(binding := Some(BindingOf(r)), reservation := None, records := s.records + [r]), s.gate)
  {
    hide ValidSlot, ValidRecord, Completed, CandidateIds, SafeId, BindingOf, FindRecord;
    var s' := s.(binding := Some(BindingOf(r)), reservation := None, records := s.records + [r]);
    SlotParts(s);
    CompletedExtends(s.records, r);
    ExtendedRecords(s, s', r);
    SlotWhole(s');
  }

  /** Filing a candidate: its identity must be new and well formed. */
  lemma CandidateIsFiled(s: Slot, r: Record, candidate: string)
    requires ValidSlot(s, s.gate) && s.reservation.Some? && r.outcome == CandidateReady && r.candidate.id == Some(candidate)
    requires ValidRecord(r) && r.gate == s.gate && r.task == s.task && Reserved(r) && BindingFits(s, r)
    requires FindRecord(s.records, r.executionId) == None
    requires r.slot.after == FrozenV1 || r.slot.after == FrozenV2
    ensures ValidSlot(s.(binding := Some(BindingOf(r)), reservation := None, records := s.records + [r],
                         state := r.slot.after, active := Some(candidate)), s.gate)
       <==> Fresh(s, candidate)
  {
    hide ValidSlot, ValidRecord, Completed, CandidateIds, SafeId, BindingOf, FindRecord;
    var s' := s.(binding := Some(BindingOf(r)), reservation := None, records := s.records + [r],
                 state := r.slot.after, active := Some(candidate));
    SlotParts(s);
    CompletedExtends(s.records, r);
    var ids, ids' := CandidateIds(s.records), CandidateIds(s'.records);
    assert ids'[|ids|] == Some(candidate) && forall i :: 0 <= i < |ids| ==> ids'[i] == ids[i];
    if ValidSlot(s', s.gate) {
      SlotParts(s');
      assert Some(candidate) !in ids;
    }
    if Fresh(s, candidate) {
      ExtendedRecords(s, s', r);
      assert candidate !in s.historical;
      SlotWhole(s');
    }
  }

  /** A built attempt, published against the slot and reservation it was built from, is accepted exactly
      when it was filed before, or its execution is new, its gate binding is unset or the same, and its
      candidate, if it has one, is new and well formed. */
  lemma BuiltAttemptPublishes(s: Slot, c: Context, e: Evaluation, executionId: string, process: Process,
                              p: Parsed, report: AgentReport, after: Option<CloneAfter>, candidateId: string)
    requires Slotted(s) && s.reservation.Some? && ReadFrom(c.slot, s)
    requires BuildCompleted(c, e, executionId, s.reservation.value, process, p, report, after, candidateId).Some?
    ensures var r := BuildCompleted(c, e, executionId, s.reservation.value, process, p, report, after, candidateId).value;
            (Publish(Some(s), r).Success?
             <==> || FindRecord(s.records, executionId) == Some(r)
                  || (&& FindRecord(s.records, executionId) == None && BindingFits(s, r)
                      && (r.outcome == CandidateReady ==> Fresh(s, candidateId))))
  {
    hide ValidSlot, ValidRecord, Completed, FindRecord, BindingOf, Promotable, CheckRows, Reached, Fresh, OutputOf;
    var r := BuildCompleted(c, e, executionId, s.reservation.value, process, p, report, after, candidateId).value;
    SlottedIsValid(s);
    BuiltOutcomeIsDerived(c, e, executionId, s.reservation.value, process, p, report, after, candidateId);
    if FindRecord(s.records, executionId) == None && BindingFits(s, r) {
      if r.outcome == CandidateReady {
        CandidateIsFiled(s, r, candidateId);
      } else {
        NoncandidateIsFiled(s, r);
      }
    }
  }

  /** The whole attempt: the slot is read, one attempt reserved, the record built on what was read and then
      published against the slot as reserved. */
  lemma ReservedAttemptPublishes(s: Slot, kind: AttemptKind, parent: Option<string>, reservedAt: nat, c: Context, e: Evaluation,
                                 executionId: string, process: Process, p: Parsed, report: AgentReport,
                                 after: Option<CloneAfter>, candidateId: string)
    requires Slotted(s) && c.slot == PublicOf(s)
    requires Reserve(Some(s), s.gate, kind, parent, reservedAt).Success?
    requires var reserved := Reserve(Some(s), s.gate, kind, parent, reservedAt).value;
             && reserved.reservation.Some?
             && BuildCompleted(c, e, executionId, reserved.reservation.value, process, p, report, after, candidateId).Some?
    ensures var reserved := Reserve(Some(s), s.gate, kind, parent, reservedAt).value;
            var r := BuildCompleted(c, e, executionId, reserved.reservation.value, process, p, report, after, candidateId).value;
            (Publish(Some(reserved), r).Success?
             <==> || FindRecord(s.records, executionId) == Some(r)
                  || (&& FindRecord(s.records, executionId) == None && BindingFits(s, r)
                      && (r.outcome == CandidateReady ==> Fresh(s, candidateId))))
  {
    hide Slotted, BuildCompleted, Publish, Fresh, FindRecord;
    var reserved := Reserve(Some(s), s.gate, kind, parent, reservedAt).value;
    ReserveKeepsSlotted(s, s.gate, Reserving(kind, parent, reservedAt));
    ReservingKeepsTheEvidence(s, s.gate, kind, parent, reservedAt);
    BuiltAttemptPublishes(reserved, c, e, executionId, process, p, report, after, candidateId);
    SameIdentities(s, reserved, candidateId);
  }

  lemma SameIdentities(s: Slot, t: Slot, candidate: string)
    requires t.records == s.records && t.binding == s.binding
    ensures Fresh(t, candidate) == Fresh(s, candidate)
  {
    hide SafeId, CandidateIds;
  }

  lemma SlottedIsValid(s: Slot)
    requires Slotted(s)
    ensures ValidSlot(s, s.gate)
  {
    hide ValidSlot;
  }

  /** A HOLD record built from a slot without a reservation is accepted unless another record has its identity. */
  lemma BuiltHoldPublishes(s: Slot, c: Context, e: Evaluation, executionId: string)
    requires Slotted(s) && s.reservation == None && c.slot == PublicOf(s)
    requires BuildPrelaunchHold(c, e, executionId).Some?
    ensures var r := BuildPrelaunchHold(c, e, executionId).value;
            (Publish(Some(s), r).Success?
             <==> FindRecord(s.records, executionId) == None || FindRecord(s.records, executionId) == Some(r))
  {
    hide ValidSlot, ValidRecord, Completed, FindRecord, BindingOf, Reached, CandidateIds, SafeId;
    var r := BuildPrelaunchHold(c, e, executionId).value;
    SlottedIsValid(s);
    if FindRecord(s.records, executionId) == None {
      var s' := s.(records := s.records + [r]);
      SlotParts(s);
      CompletedExtends(s.records, r);
      ExtendedRecords(s, s', r);
      SlotWhole(s');
    }
  }
}
