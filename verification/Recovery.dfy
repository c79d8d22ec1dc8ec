/** Recovery transactions: when one is accepted, and what carrying it out does to the lineage. */
module Recovery {
  import opened Results
  import opened Stages
  import opened Audit
  import opened Store
  import opened Lineage
  import opened LineageLaws

  datatype OperationKind = RecoveryOperation | RollbackOperation

  datatype Request = Request(
    recoveryId: string, task: string, project: string, actor: Actor, action: RecoveryAction,
    idempotencyKey: string, observedAuditPath: Option<string>)

  datatype Outcome = Outcome(
    recoveryId: string, task: string, project: string, accepted: bool, failClosed: bool, resultingState: Option<Stage>,
    previousGeneration: Option<nat>, previousHash: Option<Hash>, newGeneration: Option<nat>,
    startedBy: Option<Id>, startedByType: Option<EventType>, quarantine: Option<string>)

  datatype Manifest = Manifest(source: string, destination: string)

  /** The planned artifacts of one recovery. The hashes recorded beside them are not modelled: a free
      hash of a planned artifact says nothing the artifact does not. */
  datatype Transaction = Transaction(
    transactionId: string, operationId: string, kind: OperationKind, task: string, idempotencyKey: string,
    request: Request, result: Outcome, diagnostic: TrustedPrefix,
    manifest: Option<Manifest>, event: Option<Event>, state: Option<TaskState>, idempotencyRecord: bool)

  predicate StartsGeneration(a: RecoveryAction) { a == QuarantineAndStartGeneration || a == RollbackToValidPrefix }

  function KindOf(a: RecoveryAction): OperationKind {
    if a == RollbackToValidPrefix then RollbackOperation else RecoveryOperation
  }

  function TypeOf(a: RecoveryAction): EventType {
    if a == RollbackToValidPrefix then RollbackRecorded else RecoveryRecorded
  }

  function QuarantinePath(task: string, recoveryId: string): string {
    "state/quarantine/" + task + "/" + recoveryId + "/audit-tail.bin"
  }

  predicate ValidResult(o: Outcome) {
    if o.accepted then
      && !o.failClosed && o.resultingState.Some? && o.previousGeneration.Some? && o.previousHash.Some?
      && (o.newGeneration.Some? ==> o.startedBy.Some? && o.startedByType.Some?)
    else
      && o.failClosed && o.resultingState == None && o.quarantine == None && o.newGeneration == None
      && o.startedBy == None && o.startedByType == None
  }

  predicate SameOperation(x: Transaction) {
    && x.kind == KindOf(x.request.action)
    && x.operationId == x.request.recoveryId == x.result.recoveryId
    && x.task == x.request.task == x.result.task
    && x.idempotencyKey == x.request.idempotencyKey
    && x.request.project == x.result.project
  }

  predicate EventFits(x: Transaction, e: Event) {
    && ValidEvent(e)
    && e.body.eventType == TypeOf(x.request.action)
    && e.body.task == x.task && e.body.project == x.request.project && e.body.actor == x.request.actor
    && e.body.details.recovery.Some?
    && var r := e.body.details.recovery.value;
       && r.recoveryId == x.request.recoveryId && r.action == x.request.action && r.transactionId == x.transactionId
       && r.prefix == x.diagnostic
       && x.result.startedBy == Some(e.body.id) && x.result.startedByType == Some(e.body.eventType)
       && x.result.newGeneration == Some(e.body.generation)
       && x.result.previousGeneration == Some(r.prefix.generation) && x.result.previousHash == Some(r.prefix.eventHash)
  }

  predicate StateFitsEvent(x: Transaction, s: TaskState) {
    && ValidState(s)
    && s.task == x.task && s.project == x.request.project && Some(s.current) == x.result.resultingState
    && (x.event.Some? ==>
          (&& s.headId == x.event.value.body.id && s.headHash == x.event.value.hash
           && s.generation == x.event.value.body.generation))
  }

  predicate ManifestFits(x: Transaction, m: Manifest) {
    && x.result.quarantine == Some(m.destination)
    && x.request.observedAuditPath == Some(m.source)
    && m.destination == QuarantinePath(x.request.task, x.request.recoveryId)
    && (x.event.Some? && x.event.value.body.details.recovery.Some? ==>
          x.event.value.body.details.recovery.value.quarantine == m.destination)
  }

  /** The artifact matrix: what must and what must not be planned. */
  predicate ArtifactsFit(x: Transaction) {
    var starts := x.result.accepted && StartsGeneration(x.request.action);
    && (starts <==> x.manifest.Some?) && (starts <==> x.event.Some?) && (starts <==> x.state.Some?)
    && (x.idempotencyRecord <==> x.result.accepted)
  }

  /** The recovery graph: what the result may claim, and where the new generation begins. */
  predicate GraphFits(x: Transaction) {
    && (x.result.accepted && !StartsGeneration(x.request.action) ==>
          (&& x.result.quarantine == None && x.result.newGeneration == None
           && x.result.startedBy == None && x.result.startedByType == None))
    && x.result.previousGeneration == Some(x.diagnostic.generation)
    && x.result.previousHash == Some(x.diagnostic.eventHash)
    && (x.event.Some? && x.result.newGeneration.Some? ==>
          (&& x.result.newGeneration.value == x.diagnostic.generation + 1
           && x.state.Some? && x.state.value.generation == x.result.newGeneration.value))
  }

  predicate Accepts(x: Transaction) {
    && x.diagnostic.generation >= 1 && x.diagnostic.sequence >= 1
    && ValidResult(x.result)
    && SameOperation(x)
    && (x.event.Some? ==> EventFits(x, x.event.value))
    && (x.manifest.Some? ==> ManifestFits(x, x.manifest.value))
    && (x.state.Some? ==> StateFitsEvent(x, x.state.value))
    && ArtifactsFit(x)
    && GraphFits(x)
  }

  /** Carrying it out: append the event, write the state. */
  method Apply(store: WorkflowStore, e: Event, s: TaskState) returns (done: bool)
    modifies store
    ensures done <==> Append(old(store.Db()), e).Success? && ValidState(s)
    ensures done ==> store.Db() == Carried(old(store.Db()), e, s)
  {
    var appended := store.AppendAuditEvent(e);
    if appended.Failure? {
      return false;
    }
    var written := store.WriteTaskState(s);
    done := written.Success?;
  }

  function Carried(t: Tables, e: Event, s: TaskState): Tables { Written(Inserted(t, e), s) }

  // Cutting a lineage.

  lemma WalkReadsEarlierRows(w: Walker, t: Tables, t': Tables, o: Origin, c: nat, c': nat, head: Head)
    requires forall g: nat :: g <= o.generation ==> Rows(t', o.task, g) == Rows(t, o.task, g)
    requires o.generation < c && o.generation < c'
    ensures Walk(w, t', o, c', head) == Walk(w, t, o, c, head)
    decreases o.generation
  {
    hide Trusted;
    var prefix := Trusted(w, Rows(t, o.task, o.generation), o, head, false);
    if o.generation >= 1 && prefix.Some? && prefix.value != [] {
      var link := Predecessor(prefix.value[0], o.generation);
      if link.Some? && link.value.Continues? {
        WalkReadsEarlierRows(w, t, t', o.(generation := link.value.generation), c, c', link.value.head);
      }
    }
  }

  /** Within one generation: every event of a trusted prefix can itself be trusted as a head. */
  lemma TrustedToEarlierHead(w: Walker, rows: seq<Row>, o: Origin, head: Head, current: bool, j: nat)
    requires Trusted(w, rows, o, head, current).Some? && j < |Trusted(w, rows, o, head, current).value|
    ensures var p := Trusted(w, rows, o, head, current).value;
            Trusted(w, rows, o, HeadAtEvent(p[j]), false) == Some(p[..j + 1])
  {
    hide Linked, Readable;
    var p, events := Trusted(w, rows, o, head, current).value, Events(rows);
    TrustedIsChain(w, rows, o, head, current);
    var h := HeadIndex(w, rows, o, head.hash).value;
    if w == StoreWalker {
      StoreHeadMeans(rows, o, head.hash, 0, h);
    }
    EngineHeadMeans(events, o, head.hash, 0, h);
    assert p[j] == events[j];
    forall i | 0 <= i < j ensures events[i].hash != events[j].hash {
      DistinctHashes(events, o, i, j);
    }
    EngineHeadMeans(events, o, p[j].hash, 0, j);
    if w == StoreWalker {
      StoreHeadMeans(rows, o, p[j].hash, 0, j);
    }
    assert events[..h + 1][..j + 1] == events[..j + 1];
  }

  function HeadAtEvent(e: Event): Head { Head(e.body.id, Some(e.body.sequence), e.hash) }

  lemma DistinctHashes(events: seq<Event>, o: Origin, i: nat, j: nat)
    requires i < j < |events| && Linked(events, i, o) && Linked(events, j, o)
    ensures events[i].hash != events[j].hash
  {
  }

  /** Walking from any event of a lineage gives the lineage up to that event. */
  lemma {:induction false} CutLineage(w: Walker, t: Tables, o: Origin, c: nat, head: Head, c': nat, k: nat)
    requires Walk(w, t, o, c, head).Some? && k < |Walk(w, t, o, c, head).value|
    requires Walk(w, t, o, c, head).value[k].body.generation < c'
    ensures var lineage := Walk(w, t, o, c, head).value;
            && lineage[k].body.generation <= o.generation
            && Walk(w, t, o.(generation := lineage[k].body.generation), c', HeadAtEvent(lineage[k])) == Some(lineage[..k + 1])
    decreases o.generation
  {
    hide Trusted;
    var lineage := Walk(w, t, o, c, head).value;
    var rows, current := Rows(t, o.task, o.generation), o.generation == c;
    var prefix := Trusted(w, rows, o, head, current).value;
    var link := Predecessor(prefix[0], o.generation).value;
    TrustedIsChain(w, rows, o, head, current);
    FirstOfChain(prefix, o);
    if link.Ended? {
      TrustedToEarlierHead(w, rows, o, head, current, k);
    } else {
      var before := o.(generation := link.generation);
      var earlier := Walk(w, t, before, c, link.head).value;
      if k < |earlier| {
        assert lineage[k] == earlier[k] && lineage[..k + 1] == earlier[..k + 1];
        CutLineage(w, t, before, c, link.head, c', k);
      } else {
        var j := k - |earlier|;
        assert lineage[k] == prefix[j] && lineage[..k + 1] == earlier + prefix[..j + 1];
        TrustedToEarlierHead(w, rows, o, head, current, j);
        WalkReadsEarlierRows(w, t, t, before, c, c', link.head);
      }
    }
  }

  /** The diagnostic names an event of the lineage. */
  predicate Names(p: TrustedPrefix, e: Event) {
    p.generation == e.body.generation && p.sequence == e.body.sequence && p.eventId == e.body.id && p.eventHash == e.hash
  }

  lemma AcceptedEvent(x: Transaction)
    requires Accepts(x) && x.event.Some?
    ensures x.state.Some?
    ensures var e, s := x.event.value, x.state.value;
            && ValidEvent(e) && ValidState(s) && e.body.sequence == 1 && e.body.task == x.task && e.body.previous == None
            && e.body.project == x.request.project && e.body.generation == x.diagnostic.generation + 1
            && e.body.details.recovery.Some? && e.body.details.recovery.value.prefix == x.diagnostic
            && s.task == x.task && s.project == e.body.project && s.generation == e.body.generation
            && s.headId == e.body.id && s.headHash == e.hash
            && Predecessor(e, e.body.generation)
            == Some(Continues(x.diagnostic.generation,
                              Head(x.diagnostic.eventId, Some(x.diagnostic.sequence), x.diagnostic.eventHash)))
  {
    hide QuarantinePath;
  }

  /** A new generation holding just its starting event is trusted to its tail. */
  lemma NewGenerationIsTrusted(w: Walker, e: Event)
    requires ValidEvent(e) && e.body.sequence == 1
    ensures Trusted(w, [Row(1, e)], Origin(e.body.task, e.body.project, e.body.generation), Head(e.body.id, None, e.hash), true)
         == Some([e])
  {
    hide ValidBody;
    var rows, o := [Row(1, e)], Origin(e.body.task, e.body.project, e.body.generation);
    FirstHasNoPrevious(e);
    assert Readable(rows, 0, o.task, o.generation) && Linked(Events(rows), 0, o);
    EngineHeadMeans(Events(rows), o, e.hash, 0, 0);
    StoreHeadMeans(rows, o, e.hash, 0, 0);
    assert Events(rows)[..1] == [e];
  }

  lemma FirstHasNoPrevious(e: Event)
    requires ValidEvent(e) && e.body.sequence == 1
    ensures e.body.previous == None
  {
  }

  /** Carrying out an accepted transaction whose diagnostic names an event of a walkable lineage of the
      project, into a generation that has no rows yet, cuts the lineage at that event and adds the new one. */
  lemma RecoveryCutsAndExtends(w: Walker, t: Tables, s: TaskState, lineage: seq<Event>, k: nat, x: Transaction)
    requires Accepts(x) && x.event.Some?
    requires s.task == x.task && s.project == x.request.project
    requires LineageOf(w, t, s) == Some(lineage) && k < |lineage| && Names(x.diagnostic, lineage[k])
    requires Rows(t, x.task, x.diagnostic.generation + 1) == []
    ensures x.state.Some?
    ensures var t' := Carried(t, x.event.value, x.state.value);
            && Append(t, x.event.value) == Success(Inserted(t, x.event.value))
            && t'.states[x.task] == x.state.value
            && LineageOf(w, t', x.state.value) == Some(lineage[..k + 1] + [x.event.value])
  {
    hide Accepts, Trusted, Predecessor, ValidBody;
    AcceptedEvent(x);
    var e, state := x.event.value, x.state.value;
    var t' := Carried(t, e, state);
    var g := x.diagnostic.generation;
    var o := Origin(x.task, e.body.project, g + 1);
    assert Rows(t', x.task, g + 1) == [Row(1, e)];
    NewGenerationIsTrusted(w, e);
    CutLineage(w, t, Origin(s.task, s.project, s.generation), s.generation, Head(s.headId, None, s.headHash), g + 1, k);
    assert forall n: nat :: n <= g ==> Rows(t', x.task, n) == Rows(t, x.task, n);
    WalkReadsEarlierRows(w, t, t', o.(generation := g), g + 1, g + 1, HeadAtEvent(lineage[k]));
    assert [e][0] == e;
  }

  /** A plan touches the log exactly when it is accepted and its action starts a generation. */
  lemma PlansFollowTheAction(x: Transaction)
    requires Accepts(x)
    ensures x.event.Some? <==> x.result.accepted && StartsGeneration(x.request.action)
    ensures x.event.Some? <==> x.result.newGeneration.Some?
    ensures x.event.Some? ==> x.result.newGeneration == Some(x.diagnostic.generation + 1)
  {
    hide ValidEvent, QuarantinePath;
  }
}
