/** What every step of every process keeps: consistent logs whose every event passed its gate, and decision
    files written before the events that rely on them. */
module EngineInvariant {
  import opened Results
  import opened Stages
  import opened Evidence
  import opened Audit
  import opened Store
  import opened TaskLog
  import opened Gates
  import opened Decisions
  import opened Engine
  import Policy

  // What an accepted event rests on.

  /** The judgement behind a transition out of the state `prior`, whose lineage is `log`. */
  ghost predicate Justified(bundle: Policy.Bundle, log: seq<Event>, prior: TaskState, source: Stage, target: Stage,
                            actor: Actor, evaluation: Policy.Evaluation, submitted: seq<File>)
  {
    && GateSource(prior, Some(log)) == Some(source)
    && (exists input: Policy.Input :: input.currentState == prior.current && evaluation == Policy.Evaluate(bundle, input))
    && !evaluation.FailClosed() && target in evaluation.authorized
    && (RequiredActor(source, target).Some? ==> actor == RequiredActor(source, target).value)
    && submitted != []
    && GatePassed(log, prior, source, target, submitted)
  }

  /** The gate accepts the submitted files, whatever files the rest of its evidence was found in. */
  ghost predicate GatePassed(log: seq<Event>, prior: TaskState, source: Stage, target: Stage, submitted: seq<File>) {
    exists files: map<string, File> :: GateAccepts(files, Some(log), prior, source, target, submitted)
  }

  /** The evidence of an event: what was bound is what the gate read, for the kinds that compare. */
  predicate BoundTo(source: Stage, target: Stage, submitted: seq<File>, bound: seq<Binding>) {
    |bound| == |submitted| && BoundAsValidated(GateKind(source, target), submitted, bound)
  }

  /** A pause has a trigger; a resume is legal from the stage that was paused. */
  predicate Ruled(bundle: Policy.Bundle, prior: TaskState, source: Stage, target: Stage, evaluation: Policy.Evaluation) {
    if target == WaitingHuman then evaluation.requiredHumanTriggers != []
    else prior.current == WaitingHuman ==> target in Targets(bundle.workflow, source)
  }

  ghost predicate EventGate(bundle: Policy.Bundle, log: seq<Event>, i: nat)
    requires 0 < i < |log|
  {
    var e, prior := log[i].body, StateOf(log[i - 1]);
    && e.target.Some? && (e.target == Some(WaitingHuman) ==> e.decision == None)
    && exists source, evaluation, submitted ::
         && Justified(bundle, log[..i], prior, source, e.target.value, e.actor, evaluation, submitted)
         && BoundTo(source, e.target.value, submitted, e.evidence)
         && Ruled(bundle, prior, source, e.target.value, evaluation)
  }

  ghost predicate Gated(bundle: Policy.Bundle, log: seq<Event>) {
    forall i :: 0 < i < |log| ==> EventGate(bundle, log, i)
  }

  // The decision files.

  function WaitId(task: string, n: nat): Id { Derived(DecisionKind, task, n) }

  /** The pause that is event `n` of the log has its request on file. */
  predicate PauseFiled(q: Queue, task: string, log: seq<Event>, n: nat)
    requires 0 < n <= |log|
  {
    log[n - 1].body.target == Some(WaitingHuman) ==>
      (&& WaitId(task, n) in q.pending && q.pending[WaitId(task, n)].Whole?
       && var r := q.pending[WaitId(task, n)].record;
          r.decisionId == WaitId(task, n) && r.task == task && r.project == log[0].body.project)
  }

  /** The resume that follows event `i` carries the decision of that pause, and its resolution is on file. */
  predicate ResumeFiled(q: Queue, task: string, log: seq<Event>, i: nat)
    requires 0 < i < |log|
  {
    log[i].body.decision.Some? ==>
      (&& log[i - 1].body.target == Some(WaitingHuman)
       && log[i].body.decision.value.decisionId == WaitId(task, i)
       && log[i].body.decision.value.embedded.Some?
       && log[i].body.decision.value.embedded.value.decisionId == WaitId(task, i)
       && WaitId(task, i) in q.resolved
       && q.resolved[WaitId(task, i)] == Whole(log[i].body.decision.value.embedded.value))
  }

  ghost predicate Filed(q: Queue, task: string, log: seq<Event>) {
    && (forall n :: 0 < n <= |log| ==> PauseFiled(q, task, log, n))
    && (forall i :: 0 < i < |log| ==> ResumeFiled(q, task, log, i))
  }

  /** Every written request is filed under its own identity, for a task that exists; every written
      resolution answers its request. */
  ghost predicate QueueSound(q: Queue, h: History) {
    && (forall id :: id in q.pending && q.pending[id].Whole? ==>
          (&& q.pending[id].record.decisionId == id && id.Derived? && id.kind == DecisionKind
           && id.task == q.pending[id].record.task && id.task in h))
    && (forall id :: id in q.resolved && q.resolved[id].Whole? ==>
          q.resolved[id].record.decisionId == id && RequestFor(q, q.resolved[id].record).Some?)
  }

  // The processes.

  ghost predicate SeenState(h: History, cur: TaskState) {
    cur.task in h && exists e :: e in h[cur.task] && cur == StateOf(e)
  }

  /** The state is still the latest of its task. */
  predicate Fresh(h: History, cur: TaskState) {
    cur.task in h && h[cur.task] != [] && cur == StateOf(Last(h[cur.task]))
  }

  ghost predicate PlanSound(bundle: Policy.Bundle, h: History, plan: Plan) {
    && SeenState(h, plan.current)
    && plan.target == ActualTarget(plan.evaluation, plan.requested)
    && (Fresh(h, plan.current) ==>
          (&& plan.sequence == |h[plan.current.task]| + 1
           && Justified(bundle, h[plan.current.task], plan.current, plan.source, plan.target, plan.actor,
                        plan.evaluation, plan.submitted)))
  }

  predicate RequestFiled(q: Queue, plan: Plan) {
    && plan.evaluation.requiredHumanTriggers != []
    && WaitId(plan.current.task, plan.sequence) in q.pending
    && q.pending[WaitId(plan.current.task, plan.sequence)] == Whole(RequestOf(plan))
  }

  /** What a plan that passed its decision step can rely on. */
  ghost predicate DecisionSound(bundle: Policy.Bundle, h: History, q: Queue, plan: Plan) {
    if plan.target == WaitingHuman then plan.decision == None && RequestFiled(q, plan)
    else if plan.current.current == WaitingHuman then
      && plan.resolution.Some? && plan.decision == Some(BindingOf(plan.resolution.value))
      && Some(plan.resolution.value.decisionId) == plan.current.pending
      && RequestFor(q, plan.resolution.value).Some?
      && (Fresh(h, plan.current) ==> plan.target in Targets(bundle.workflow, plan.source))
    else plan.decision == None && plan.resolution == None
  }

  ghost predicate ReadySound(bundle: Policy.Bundle, h: History, q: Queue, plan: Plan) {
    && PlanSound(bundle, h, plan) && DecisionSound(bundle, h, q, plan)
    && BoundTo(plan.source, plan.target, plan.submitted, plan.bound)
  }

  ghost predicate PhaseSound(bundle: Policy.Bundle, h: History, q: Queue, p: Pid, ph: Phase) {
    match ph
    case Idle => true
    case Loaded(cur) => SeenState(h, cur)
    case Sourced(cur, source) =>
      SeenState(h, cur) && (Fresh(h, cur) ==> GateSource(cur, Some(h[cur.task])) == Some(source))
    case Numbered(cur, source, sequence) =>
      && SeenState(h, cur)
      && (Fresh(h, cur) ==> GateSource(cur, Some(h[cur.task])) == Some(source) && sequence == |h[cur.task]| + 1)
    case Judged(plan) => PlanSound(bundle, h, plan) && plan.decision == None && plan.resolution == None
    case Bound(plan) =>
      && PlanSound(bundle, h, plan) && plan.decision == None && plan.resolution == None
      && BoundTo(plan.source, plan.target, plan.submitted, plan.bound)
    case CreatingRequest(plan) =>
      && PlanSound(bundle, h, plan) && plan.decision == None && plan.target == WaitingHuman
      && BoundTo(plan.source, plan.target, plan.submitted, plan.bound)
      && plan.evaluation.requiredHumanTriggers != []
      && WaitId(plan.current.task, plan.sequence) in q.pending
      && q.pending[WaitId(plan.current.task, plan.sequence)] == Torn(p)
    case Prepared(plan) => ReadySound(bundle, h, q, plan)
    case WritingResolution(plan) =>
      && ReadySound(bundle, h, q, plan) && ValidRequest(plan.current, ProposalOf(plan))
      && plan.resolution.Some? && RequestFor(q, plan.resolution.value).Some?
      && plan.resolution.value.decisionId in q.resolved
      && q.resolved[plan.resolution.value.decisionId] == Torn(p)
    case Committing(plan) =>
      && ReadySound(bundle, h, q, plan) && ValidRequest(plan.current, ProposalOf(plan))
      && (plan.resolution.Some? ==>
            (&& plan.resolution.value.decisionId in q.resolved
             && q.resolved[plan.resolution.value.decisionId] == Whole(plan.resolution.value)))
  }

  ghost predicate LogsSound(bundle: Policy.Bundle, t: Tables, h: History, q: Queue) {
    && Consistent(t, h) && QueueSound(q, h)
    && forall task :: task in h ==> Gated(bundle, h[task]) && Filed(q, task, h[task])
  }

  ghost predicate Safe(bundle: Policy.Bundle, s: System) {
    && LogsSound(bundle, s.tables, s.history, s.queue)
    && forall p: Pid :: PhaseSound(bundle, s.history, s.queue, p, PhaseOf(s, p))
  }

  // What a step of `p` may do to the shared state.

  /** Whole files stay; another process's torn file stays; nothing is removed. */
  ghost predicate QueueGrows(p: Pid, q: Queue, q': Queue) {
    && (forall id :: id in q.pending && (q.pending[id].Whole? || q.pending[id].writer != p) ==>
          id in q'.pending && q'.pending[id] == q.pending[id])
    && (forall id :: id in q.resolved && (q.resolved[id].Whole? || q.resolved[id].writer != p) ==>
          id in q'.resolved && q'.resolved[id] == q.resolved[id])
  }

  ghost predicate HistoryExtends(h: History, h': History) {
    forall task :: task in h ==> task in h' && h[task] <= h'[task]
  }

  lemma SeenPersists(h: History, h': History, cur: TaskState)
    requires HistoryExtends(h, h') && SeenState(h, cur)
    ensures SeenState(h', cur)
  {
    var e :| e in h[cur.task] && cur == StateOf(e);
    assert e in h'[cur.task];
  }

  /** Whatever is fresh now was fresh before, and its log has not changed. */
  lemma FreshWasFresh(t': Tables, h: History, h': History, cur: TaskState)
    requires Consistent(t', h') && HistoryExtends(h, h') && SeenState(h, cur) && Fresh(h', cur)
    ensures Fresh(h, cur) && h'[cur.task] == h[cur.task]
  {
    hide GoodLog;
    var before, after := h[cur.task], h'[cur.task];
    var i :| 0 <= i < |before| && cur == StateOf(before[i]);
    assert Logged(t', cur.task, after);
    LogNeverRepeats(after, cur.task, i, |after| - 1);
  }

  lemma RequestForPersists(p: Pid, q: Queue, q': Queue, x: Resolution)
    requires QueueGrows(p, q, q') && RequestFor(q, x).Some?
    ensures RequestFor(q', x) == RequestFor(q, x)
  {
    hide Answers;
  }

  lemma PlanPersists(bundle: Policy.Bundle, t': Tables, h: History, h': History, plan: Plan)
    requires Consistent(t', h') && HistoryExtends(h, h') && PlanSound(bundle, h, plan)
    ensures PlanSound(bundle, h', plan)
  {
    hide Consistent, Justified, SeenState;
    SeenPersists(h, h', plan.current);
    if Fresh(h', plan.current) {
      FreshWasFresh(t', h, h', plan.current);
    }
  }

  lemma DecisionPersists(bundle: Policy.Bundle, t': Tables, p: Pid, h: History, h': History, q: Queue, q': Queue, plan: Plan)
    requires Consistent(t', h') && HistoryExtends(h, h') && QueueGrows(p, q, q')
    requires SeenState(h, plan.current) && DecisionSound(bundle, h, q, plan)
    ensures DecisionSound(bundle, h', q', plan)
  {
    hide Consistent, SeenState;
    if plan.target != WaitingHuman && plan.current.current == WaitingHuman {
      RequestForPersists(p, q, q', plan.resolution.value);
      if Fresh(h', plan.current) {
        FreshWasFresh(t', h, h', plan.current);
      }
    }
  }

  /** A step of one process leaves what the others rely on. */
  lemma OthersStaySound(bundle: Policy.Bundle, t': Tables, p: Pid, h: History, h': History, q: Queue, q': Queue, o: Pid, ph: Phase)
    requires Consistent(t', h') && HistoryExtends(h, h') && QueueGrows(p, q, q') && o != p
    requires PhaseSound(bundle, h, q, o, ph)
    ensures PhaseSound(bundle, h', q', o, ph)
  {
    hide Consistent, HistoryExtends, PlanSound, DecisionSound, SeenState, BoundTo, ValidRequest;
    match ph {
      case Idle =>
      case Loaded(cur) => SeenPersists(h, h', cur);
      case Sourced(cur, _) =>
        SeenPersists(h, h', cur);
        if Fresh(h', cur) { FreshWasFresh(t', h, h', cur); }
      case Numbered(cur, _, _) =>
        SeenPersists(h, h', cur);
        if Fresh(h', cur) { FreshWasFresh(t', h, h', cur); }
      case Judged(plan) => PlanPersists(bundle, t', h, h', plan);
      case Bound(plan) => PlanPersists(bundle, t', h, h', plan);
      case CreatingRequest(plan) => PlanPersists(bundle, t', h, h', plan);
      case Prepared(plan) => ReadyPersists(bundle, t', p, h, h', q, q', plan);
      case WritingResolution(plan) =>
        ReadyPersists(bundle, t', p, h, h', q, q', plan);
        RequestForPersists(p, q, q', plan.resolution.value);
      case Committing(plan) => ReadyPersists(bundle, t', p, h, h', q, q', plan);
    }
  }

  lemma ReadyPersists(bundle: Policy.Bundle, t': Tables, p: Pid, h: History, h': History, q: Queue, q': Queue, plan: Plan)
    requires Consistent(t', h') && HistoryExtends(h, h') && QueueGrows(p, q, q') && ReadySound(bundle, h, q, plan)
    ensures ReadySound(bundle, h', q', plan)
  {
    hide Consistent, HistoryExtends, DecisionSound, BoundTo;
    PlanPersists(bundle, t', h, h', plan);
    DecisionPersists(bundle, t', p, h, h', q, q', plan);
  }
}
