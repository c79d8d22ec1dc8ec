/** Audit events, task states and the validators that accept them. */
module Audit {
  import opened Results
  import opened Stages
  import opened Evidence

  datatype IdKind = EventKind | TransitionKind | EvaluationKind | DecisionKind

  /** Engine identifiers are derived from the task and the sequence number, never from the generation. */
  datatype Id = Named(name: string) | Derived(kind: IdKind, task: string, sequence: nat)

  /** SHA-256 as a free function of the canonical bytes: different bodies, different digests.
      `Stray` is a digest of something that is not an event. */
  datatype Hash = Digest(body: Body) | Stray(text: string)

  datatype EventType = TaskCreated | TransitionAccepted | RecoveryRecorded | RollbackRecorded

  datatype PolicyRecord = PolicyRecord(
    evaluationId: Id, project: string, task: string, authorized: seq<Stage>, humanGate: bool)

  datatype PolicyBinding = PolicyBinding(
    evaluationId: Id, authorized: seq<Stage>, humanGate: bool, embedded: Option<PolicyRecord>)

  datatype Resolution = Resolution(
    decisionId: Id, project: string, task: string, option: string, resolvedAt: nat, rationale: string, resumeState: Stage)

  datatype DecisionBinding = DecisionBinding(
    decisionId: Id, project: string, task: string, target: Stage, resolvedAt: nat, embedded: Option<Resolution>)

  datatype TrustedPrefix = TrustedPrefix(generation: nat, sequence: nat, eventId: Id, eventHash: Hash)

  datatype GenerationRecord = GenerationRecord(
    generation: nat, task: string, startedBy: Id, startedByType: EventType,
    predecessor: Option<nat>, predecessorHash: Option<Hash>, quarantine: Option<string>)

  datatype RecoveryAction = Replay | ClassifyThreatModelLimit | QuarantineAndStartGeneration | RollbackToValidPrefix

  datatype RecoveryDetails = RecoveryDetails(
    recoveryId: string, action: RecoveryAction, transactionId: string, prefix: TrustedPrefix, quarantine: string)

  datatype Details = Details(generation: Option<GenerationRecord>, recovery: Option<RecoveryDetails>)

  /** An audit event without its hash. */
  datatype Body = Body(
    id: Id,
    generation: nat,
    sequence: nat,
    project: string,
    task: string,
    eventType: EventType,
    actor: Actor,
    source: Option<Stage>,
    target: Option<Stage>,
    transitionId: Option<Id>,
    policy: Option<PolicyBinding>,
    evidence: seq<Binding>,
    decision: Option<DecisionBinding>,
    previous: Option<Hash>,
    createdAt: nat,
    details: Details)

  datatype Event = Event(body: Body, hash: Hash)

  datatype TaskState = TaskState(
    task: string,
    project: string,
    current: Stage,
    previous: Option<Stage>,
    lastTransition: Option<Id>,
    generation: nat,
    headId: Id,
    headHash: Hash,
    evaluation: Option<Id>,
    pending: Option<Id>,
    updatedAt: nat)

  predicate Recovering(t: EventType) { t == RecoveryRecorded || t == RollbackRecorded }

  predicate ValidPolicyBinding(p: PolicyBinding) {
    && (forall i, j :: 0 <= i < j < |p.authorized| ==> p.authorized[i] != p.authorized[j])
    && (p.humanGate ==> forall s :: s in p.authorized ==> s == WaitingHuman || s == Abandoned)
    && (p.embedded.Some? ==>
          (&& p.embedded.value.evaluationId == p.evaluationId
           && p.embedded.value.authorized == p.authorized
           && p.embedded.value.humanGate == p.humanGate))
  }

  predicate ValidDecisionBinding(d: DecisionBinding) {
    d.embedded.Some? ==>
      (&& d.embedded.value.decisionId == d.decisionId
       && d.embedded.value.project == d.project
       && d.embedded.value.task == d.task
       && d.embedded.value.resumeState == d.target
       && d.embedded.value.resolvedAt == d.resolvedAt)
  }

  predicate DecisionFits(d: DecisionBinding, target: Stage, project: string, task: string) {
    ValidDecisionBinding(d) && d.target == target && d.project == project && d.task == task
  }

  predicate ValidGeneration(g: GenerationRecord) {
    && g.generation >= 1
    && (g.predecessor.Some? ==> g.predecessor.value >= 1)
    && (if g.generation == 1
        then g.startedByType == TaskCreated && g.predecessor == None && g.predecessorHash == None && g.quarantine == None
        else g.predecessor.Some? && g.predecessorHash.Some? && Recovering(g.startedByType))
  }

  predicate ValidCreation(b: Body) {
    && b.generation == 1 && b.sequence == 1
    && b.transitionId == None && b.source == None && b.target == None
    && b.policy == None && b.decision == None && b.evidence == []
    && b.details.recovery == None && b.details.generation.Some?
    && var g := b.details.generation.value;
       ValidGeneration(g) && g.generation == 1 && g.task == b.task && g.startedBy == b.id && g.startedByType == TaskCreated
  }

  predicate ValidTransition(b: Body) {
    && b.sequence != 1
    && b.source.Some? && b.target.Some? && b.transitionId.Some? && b.evidence != []
    && b.policy.Some? && ValidPolicyBinding(b.policy.value)
    && b.policy.value.embedded.Some?
    && b.policy.value.embedded.value.project == b.project && b.policy.value.embedded.value.task == b.task
    && b.target.value in b.policy.value.authorized
    && (b.source.value == WaitingHuman <==> b.decision.Some?)
    && (b.decision.Some? ==> DecisionFits(b.decision.value, b.target.value, b.project, b.task))
  }

  predicate ValidRecovery(b: Body) {
    && b.sequence == 1 && b.generation >= 2
    && b.transitionId == None && b.source == None && b.target == None
    && b.policy == None && b.decision == None && b.evidence == []
    && b.details.recovery.Some? && b.details.generation.Some?
    && var r, g := b.details.recovery.value, b.details.generation.value;
       && r.prefix.generation >= 1 && r.prefix.sequence >= 1
       && ValidGeneration(g)
       && b.eventType == (if r.action == RollbackToValidPrefix then RollbackRecorded else RecoveryRecorded)
       && g.generation == b.generation && g.task == b.task && g.startedBy == b.id && g.startedByType == b.eventType
       && g.predecessor == Some(r.prefix.generation) && g.predecessorHash == Some(r.prefix.eventHash)
       && g.quarantine == Some(r.quarantine)
  }

  predicate ValidBody(b: Body) {
    && b.generation >= 1 && b.sequence >= 1
    && (b.sequence == 1 <==> b.previous == None)
    && match b.eventType
       case TaskCreated => ValidCreation(b)
       case TransitionAccepted => ValidTransition(b)
       case _ => ValidRecovery(b)
  }

  predicate ValidEvent(e: Event) {
    ValidBody(e.body) && e.hash == Digest(e.body)
  }

  predicate ValidState(s: TaskState) {
    s.generation >= 1 && (s.current == WaitingHuman <==> s.pending.Some?)
  }

  /** Whether a state says what its event says. */
  predicate StateFits(e: Event, s: TaskState) {
    && e.body.task == s.task && e.body.project == s.project
    && s.generation == e.body.generation && s.headId == e.body.id && s.headHash == e.hash
    && (match e.body.eventType
        case TaskCreated => s.current == Draft && s.previous == None && s.lastTransition == None && s.evaluation == None
        case TransitionAccepted =>
          && Some(s.current) == e.body.target && s.previous == e.body.source && s.lastTransition == e.body.transitionId
          && e.body.policy.Some? && s.evaluation == Some(e.body.policy.value.evaluationId)
        case _ => false)
  }

  // What the engine builds.

  function DecisionId(b: Body): Option<Id> {
    if b.eventType == TransitionAccepted && b.target == Some(WaitingHuman)
    then Some(Derived(DecisionKind, b.task, b.sequence)) else None
  }

  /** The state the engine commits beside an event. */
  function StateOf(e: Event): TaskState {
    var b := e.body;
    TaskState(b.task, b.project, if b.target.Some? then b.target.value else Draft, b.source, b.transitionId,
              b.generation, b.id, e.hash, MapOption(b.policy, (p: PolicyBinding) => p.evaluationId),
              DecisionId(b), b.createdAt)
  }

  function Sealed(b: Body): Event { Event(b, Digest(b)) }

  function CreationEvent(task: string, project: string, actor: Actor, createdAt: nat): Event {
    var id := Derived(EventKind, task, 1);
    Sealed(Body(id, 1, 1, project, task, TaskCreated, actor, None, None, None, None, [], None, None, createdAt,
                Details(Some(GenerationRecord(1, task, id, TaskCreated, None, None, None)), None)))
  }

  /** What a transition adds to the state it starts from. */
  datatype Proposal = Proposal(
    sequence: nat, target: Stage, actor: Actor, authorized: seq<Stage>, humanGate: bool,
    evidence: seq<Binding>, decision: Option<DecisionBinding>, createdAt: nat)

  function TransitionEvent(s: TaskState, d: Proposal): Event {
    var evaluation := Derived(EvaluationKind, s.task, d.sequence);
    Sealed(Body(Derived(EventKind, s.task, d.sequence), s.generation, d.sequence, s.project, s.task, TransitionAccepted,
                d.actor, Some(s.current), Some(d.target), Some(Derived(TransitionKind, s.task, d.sequence)),
                Some(PolicyBinding(evaluation, d.authorized, d.humanGate,
                                   Some(PolicyRecord(evaluation, s.project, s.task, d.authorized, d.humanGate)))),
                d.evidence, d.decision, Some(s.headHash), d.createdAt, Details(None, None)))
  }

  /** The request the engine validates before it builds the event. */
  predicate ValidRequest(s: TaskState, d: Proposal) {
    && d.target in d.authorized
    && ValidPolicyBinding(TransitionEvent(s, d).body.policy.value)
    && (s.current == WaitingHuman <==> d.decision.Some?)
    && (d.decision.Some? ==> DecisionFits(d.decision.value, d.target, s.project, s.task))
  }

  // The state determines the event and the event the state.

  lemma StateOfIsInjective(e1: Event, e2: Event)
    requires ValidEvent(e1) && ValidEvent(e2) && StateOf(e1).headHash == StateOf(e2).headHash
    ensures e1 == e2
  {
  }

  /** The engine's own events pass the store's validator exactly when the request did. */
  lemma EngineEventIsValid(s: TaskState, d: Proposal)
    requires ValidState(s) && d.sequence >= 2 && d.evidence != []
    ensures ValidEvent(TransitionEvent(s, d)) <==> ValidRequest(s, d)
  {
  }

  lemma StateOfFits(e: Event)
    requires ValidEvent(e) && !Recovering(e.body.eventType)
    ensures StateFits(e, StateOf(e)) && ValidState(StateOf(e))
  {
  }

  /** The tail binding: the state is the one of its last event, nothing else. */
  predicate TailBound(s: TaskState, lineage: seq<Event>) {
    && lineage != []
    && var tail := lineage[|lineage| - 1];
       StateFits(tail, s) && s.pending == DecisionId(tail.body) && s.updatedAt == tail.body.createdAt
  }

  lemma TailBindingIsExact(s: TaskState, lineage: seq<Event>)
    requires lineage != [] && ValidEvent(lineage[|lineage| - 1])
    ensures TailBound(s, lineage) <==> !Recovering(lineage[|lineage| - 1].body.eventType) && s == StateOf(lineage[|lineage| - 1])
  {
  }
}
