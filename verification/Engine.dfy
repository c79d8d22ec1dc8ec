/** The engine's transitions as processes take them: read, judge, bind, write the decision file, commit,
    interleaved at each of these points and abandoned at any of them. */
module Engine {
  import opened Results
  import opened Stages
  import opened Evidence
  import opened Audit
  import opened Store
  import opened Lineage
  import opened TaskLog
  import opened Gates
  import opened Decisions
  import Policy

  type Pid = nat

  /** What a transition has established so far. `submitted` are the files as the gate read them. */
  datatype Plan = Plan(
    current: TaskState, source: Stage, sequence: nat, requested: Stage, target: Stage, actor: Actor,
    evaluation: Policy.Evaluation, submitted: seq<File>, bound: seq<Binding>, createdAt: nat,
    resolution: Option<Resolution>, decision: Option<DecisionBinding>)

  datatype Phase =
    | Idle
    | Loaded(current: TaskState)
    | Sourced(current: TaskState, source: Stage)
    | Numbered(current: TaskState, source: Stage, sequence: nat)
    | Judged(plan: Plan)
    | Bound(plan: Plan)
    | CreatingRequest(plan: Plan)
    | Prepared(plan: Plan)
    | WritingResolution(plan: Plan)
    | Committing(plan: Plan)

  /** `history` records what was committed; nobody reads it. */
  datatype System = System(tables: Tables, history: History, queue: Queue, phases: map<Pid, Phase>)

  function PhaseOf(s: System, p: Pid): Phase { if p in s.phases then s.phases[p] else Idle }

  function At(s: System, p: Pid, ph: Phase): System { s.(phases := s.phases[p := ph]) }

  function Initial(): System { System(Empty(), map[], Queue(map[], map[]), map[]) }

  // The parts of a transition.

  /** A human gate turns every target but ABANDONED into a pause. */
  function ActualTarget(evaluation: Policy.Evaluation, requested: Stage): Stage {
    if evaluation.humanGate && requested != Abandoned then WaitingHuman else requested
  }

  function RequestOf(plan: Plan): DecisionRequest
    requires plan.evaluation.requiredHumanTriggers != []
  {
    DecisionRequest(Derived(DecisionKind, plan.current.task, plan.sequence), plan.current.project, plan.current.task,
                    plan.requested, plan.evaluation.requiredHumanTriggers[0], ["RESUME"],
                    seq(|plan.bound|, i requires 0 <= i < |plan.bound| => plan.bound[i].path), plan.createdAt)
  }

  function ProposalOf(plan: Plan): Proposal {
    Proposal(plan.sequence, plan.target, plan.actor, plan.evaluation.authorized, plan.evaluation.humanGate,
             plan.bound, plan.decision, plan.createdAt)
  }

  function BindingOf(x: Resolution): DecisionBinding {
    DecisionBinding(x.decisionId, x.project, x.task, x.resumeState, x.resolvedAt, Some(x))
  }

  /** What the gate says to the files as read, before anything is bound. */
  predicate Judges(bundle: Policy.Bundle, t: Tables, files: map<string, File>, plan: Plan) {
    && !plan.evaluation.FailClosed()
    && plan.target == ActualTarget(plan.evaluation, plan.requested)
    && plan.target in plan.evaluation.authorized
    && (RequiredActor(plan.source, plan.target).Some? ==> plan.actor == RequiredActor(plan.source, plan.target).value)
    && plan.submitted != []
    && GateAccepts(files, LineageOf(EngineWalker, t, plan.current), plan.current, plan.source, plan.target, plan.submitted)
  }

  /** The resume checks against the queue as listed and the stored resolution. */
  predicate Resumes(bundle: Policy.Bundle, t: Tables, q: Queue, listed: seq<DecisionRequest>, plan: Plan, x: Resolution) {
    && Some(x.decisionId) == plan.current.pending
    && RequestFor(q, x).Some?
    && (x.decisionId in q.resolved ==> q.resolved[x.decisionId] == Whole(x))
    && var r := RequestFor(q, x).value;
       && r.project == plan.current.project && r.task == plan.current.task
       && (exists i | 0 <= i < |listed| :: listed[i] == r)
       && (forall i, j :: 0 <= i < j < |listed| && listed[i].decisionId == r.decisionId ==> listed[j].decisionId != r.decisionId)
       && r.stage == plan.target
       && var source := GateSource(plan.current, LineageOf(EngineWalker, t, plan.current));
          source.Some? && plan.target in Targets(bundle.workflow, source.value)
  }

  datatype Action =
    | Intake(task: string, project: string, actor: Actor, createdAt: nat)
    | Load(task: string)
    | FindSource
    | Number
    | Judge(requested: Stage, actor: Actor, input: Policy.Input, files: map<string, File>, submitted: seq<File>, createdAt: nat)
    | Bind(bound: seq<Binding>)
    | OpenRequest(resolution: Option<Resolution>)
    | WriteRequest
    | CheckResolution(answer: Resolution, listed: seq<DecisionRequest>)
    | GoAhead
    | OpenResolution
    | WriteResolution
    | Commit
    | Stop

  /** An atomic commit of an event with its state; the history follows what was written. */
  function Committed(s: System, e: Event): Option<System> {
    match Store.Commit(s.tables, e, StateOf(e))
    case Failure(_) => None
    case Success((t, written)) => Some(s.(tables := t, history := if written then Recorded(s.history, e) else s.history))
  }

  function PlanAt(ph: Phase, a: Action, bundle: Policy.Bundle): Plan
    requires ph.Numbered? && a.Judge?
  {
    var evaluation := Policy.Evaluate(bundle, a.input);
    Plan(ph.current, ph.source, ph.sequence, a.requested, ActualTarget(evaluation, a.requested), a.actor,
         evaluation, a.submitted, [], a.createdAt, None, None)
  }

  predicate Binds(plan: Plan, bound: seq<Binding>) {
    |bound| == |plan.submitted| && BoundAsValidated(GateKind(plan.source, plan.target), plan.submitted, bound)
  }

  /** The pause opens its request file; a resolution handed in with it is kept for later. */
  function OpenedRequest(s: System, p: Pid, plan: Plan, resolution: Option<Resolution>): Option<System> {
    var plan' := plan.(resolution := resolution);
    if plan.target != WaitingHuman || plan.evaluation.requiredHumanTriggers == [] then None
    else
      var r := RequestOf(plan);
      match OpenPending(s.queue, r)
      case Created =>
        Some(At(s.(queue := s.queue.(pending := s.queue.pending[r.decisionId := Torn(p)])), p, CreatingRequest(plan')))
      case AlreadyWritten => Some(At(s, p, Prepared(plan')))
      case Conflict => None
  }

  function WrittenRequest(s: System, p: Pid, plan: Plan): Option<System> {
    if plan.evaluation.requiredHumanTriggers == [] then None
    else
      var r := RequestOf(plan);
      Some(At(s.(queue := s.queue.(pending := s.queue.pending[r.decisionId := Whole(r)])), p, Prepared(plan)))
  }

  function OpenedResolution(s: System, p: Pid, plan: Plan): Option<System> {
    if !ValidRequest(plan.current, ProposalOf(plan)) then None
    else if plan.resolution == None then Some(At(s, p, Committing(plan)))
    else
      var x := plan.resolution.value;
      if RequestFor(s.queue, x) == None then None
      else
        match OpenResolved(s.queue, x)
        case Created =>
          Some(At(s.(queue := s.queue.(resolved := s.queue.resolved[x.decisionId := Torn(p)])), p, WritingResolution(plan)))
        case AlreadyWritten => Some(At(s, p, Committing(plan)))
        case Conflict => None
  }

  function WrittenResolution(s: System, p: Pid, plan: Plan): Option<System> {
    if plan.resolution == None then None
    else
      var x := plan.resolution.value;
      Some(At(s.(queue := s.queue.(resolved := s.queue.resolved[x.decisionId := Whole(x)])), p, Committing(plan)))
  }

  /** One step of one process. A step that would raise is not taken: the process can only stop. */
  function Act(bundle: Policy.Bundle, s: System, p: Pid, a: Action): Option<System> {
    var ph := PhaseOf(s, p);
    match a
    case Intake(task, project, actor, createdAt) =>
      if ph.Idle? then Committed(s, CreationEvent(task, project, actor, createdAt)) else None
    case Load(task) =>
      if !ph.Idle? || ReadState(s.tables, task).Failure? then None
      else Some(At(s, p, Loaded(ReadState(s.tables, task).value)))
    case FindSource =>
      if !ph.Loaded? then None
      else
        var source := GateSource(ph.current, LineageOf(EngineWalker, s.tables, ph.current));
        if source == None then None else Some(At(s, p, Sourced(ph.current, source.value)))
    case Number =>
      if !ph.Sourced? then None
      else
        var events := ReadEvents(s.tables, ph.current.task, ph.current.generation);
        if events.Failure? then None else Some(At(s, p, Numbered(ph.current, ph.source, |events.value| + 1)))
    case Judge(_, _, input, files, _, _) =>
      if !ph.Numbered? || input.currentState != ph.current.current then None
      else
        var plan := PlanAt(ph, a, bundle);
        if Judges(bundle, s.tables, files, plan) then Some(At(s, p, Judged(plan))) else None
    case Bind(bound) =>
      if ph.Judged? && Binds(ph.plan, bound) then Some(At(s, p, Bound(ph.plan.(bound := bound)))) else None
    case OpenRequest(resolution) => if ph.Bound? then OpenedRequest(s, p, ph.plan, resolution) else None
    case WriteRequest => if ph.CreatingRequest? then WrittenRequest(s, p, ph.plan) else None
    case CheckResolution(x, listed) =>
      if ph.Bound? && ph.plan.target != WaitingHuman && ph.plan.current.current == WaitingHuman
         && Resumes(bundle, s.tables, s.queue, listed, ph.plan, x)
      then Some(At(s, p, Prepared(ph.plan.(resolution := Some(x), decision := Some(BindingOf(x)))))) else None
    case GoAhead =>
      if ph.Bound? && ph.plan.target != WaitingHuman && ph.plan.current.current != WaitingHuman
      then Some(At(s, p, Prepared(ph.plan))) else None
    case OpenResolution => if ph.Prepared? then OpenedResolution(s, p, ph.plan) else None
    case WriteResolution => if ph.WritingResolution? then WrittenResolution(s, p, ph.plan) else None
    case Commit =>
      if !ph.Committing? then None
      else
        (match Committed(s, TransitionEvent(ph.plan.current, ProposalOf(ph.plan)))
         case None => None
         case Some(s') => Some(At(s', p, Idle)))
    case Stop => Some(At(s, p, Idle))
  }

  /** The system after a script of steps, if every step was possible. */
  function Execute(bundle: Policy.Bundle, script: seq<(Pid, Action)>): Option<System> {
    if script == [] then Some(Initial())
    else
      match Execute(bundle, DropLast(script))
      case None => None
      case Some(s) => Act(bundle, s, Last(script).0, Last(script).1)
  }

  ghost predicate Reachable(bundle: Policy.Bundle, s: System) {
    exists script :: Execute(bundle, script) == Some(s)
  }
}
