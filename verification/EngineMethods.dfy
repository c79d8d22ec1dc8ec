/** The engine's writing methods on the store and the queue, and their steps in the interleaved machine. */
module EngineMethods {
  import opened Results
  import opened Stages
  import opened Audit
  import opened Store
  import opened Lineage
  import opened Gates
  import opened TaskLog
  import opened Decisions
  import opened Engine
  import Policy

  /** What the decision step leaves: the plan with its decision, and the queue; none when it raises. */
  function Decide(bundle: Policy.Bundle, t: Tables, q: Queue, plan: Plan, resolution: Option<Resolution>, names: seq<Id>)
    : Option<(Plan, Queue)>
  {
    if plan.target == WaitingHuman then
      if plan.evaluation.requiredHumanTriggers == [] || OpenPending(q, RequestOf(plan)) == Conflict then None
      else
        var r := RequestOf(plan);
        Some((plan.(resolution := resolution), q.(pending := q.pending[r.decisionId := Whole(r)])))
    else if plan.current.current == WaitingHuman then
      if resolution == None || ListPending(q, t, names) == None
         || !Resumes(bundle, t, q, ListPending(q, t, names).value, plan, resolution.value)
      then None
      else Some((plan.(resolution := resolution, decision := Some(Engine.BindingOf(resolution.value))), q))
    else if resolution.Some? then None
    else Some((plan, q))
  }

  /** What writing the resolution leaves of the queue. */
  function Resolved(q: Queue, resolution: Option<Resolution>): Option<Queue> {
    if resolution == None then Some(q)
    else
      var x := resolution.value;
      if RequestFor(q, x) == None || OpenResolved(q, x) == Conflict then None
      else Some(q.(resolved := q.resolved[x.decisionId := Whole(x)]))
  }

  datatype Finish = Finish(ok: bool, tables: Tables, queue: Queue)

  /** A prepared transition carried through undisturbed. A refusal leaves the tables as they were, but the
      decision files already written stay. */
  function Finished(bundle: Policy.Bundle, t: Tables, q: Queue, plan: Plan, resolution: Option<Resolution>, names: seq<Id>): Finish {
    match Decide(bundle, t, q, plan, resolution, names)
    case None => Finish(false, t, q)
    case Some((decided, q1)) =>
      if !ValidRequest(decided.current, ProposalOf(decided)) then Finish(false, t, q1)
      else
        match Resolved(q1, decided.resolution)
        case None => Finish(false, t, q1)
        case Some(q2) =>
          var e := TransitionEvent(decided.current, ProposalOf(decided));
          match Store.Commit(t, e, StateOf(e))
          case Failure(_) => Finish(false, t, q2)
          case Success((t', _)) => Finish(true, t', q2)
  }

  class WorkflowEngine {
    const bundle: Policy.Bundle
    const store: WorkflowStore
    const decisions: DecisionQueue

    constructor (bundle: Policy.Bundle, store: WorkflowStore, decisions: DecisionQueue)
      ensures this.bundle == bundle && this.store == store && this.decisions == decisions
    {
      this.bundle, this.store, this.decisions := bundle, store, decisions;
    }

    /** Accepts a task: its first event and its DRAFT state, or nothing. */
    method AcceptIntake(task: string, project: string, actor: Actor, createdAt: nat) returns (ok: bool)
      modifies store
      ensures var e := CreationEvent(task, project, actor, createdAt);
              match Store.Commit(old(store.Db()), e, StateOf(e))
              case Success((t, _)) => ok && store.Db() == t
              case Failure(_) => !ok && store.Db() == old(store.Db())
    {
      hide Store.Commit;
      var e := CreationEvent(task, project, actor, createdAt);
      var r := store.CommitTaskStateAndAudit(e, StateOf(e));
      ok := r.Success?;
    }

    /** Decision file, request validation, resolution file, transaction: in this order. */
    method CommitPreparedTransition(plan: Plan, resolution: Option<Resolution>, names: seq<Id>) returns (ok: bool)
      requires decisions.store == store
      modifies store, decisions
      ensures Finish(ok, store.Db(), decisions.Contents())
           == Finished(bundle, old(store.Db()), old(decisions.Contents()), plan, resolution, names)
    {
      hide Store.Commit, ValidRequest, Answers, ListPending, LineageOf, GateSource;
      ghost var t, q := store.Db(), decisions.Contents();
      var decided := plan;
      if plan.target == WaitingHuman {
        if plan.evaluation.requiredHumanTriggers == [] {
          return false;
        }
        ok := decisions.Create(RequestOf(plan));
        if !ok {
          return false;
        }
        decided := plan.(resolution := resolution);
      } else if plan.current.current == WaitingHuman {
        if resolution == None {
          return false;
        }
        var listed := decisions.List(names);
        if listed == None {
          return false;
        }
        ok := CheckResume(listed.value, plan, resolution.value);
        if !ok {
          return false;
        }
        decided := plan.(resolution := resolution, decision := Some(Engine.BindingOf(resolution.value)));
      } else if resolution.Some? {
        return false;
      }
      assert Decide(bundle, t, q, plan, resolution, names) == Some((decided, decisions.Contents()));
      if !ValidRequest(decided.current, ProposalOf(decided)) {
        return false;
      }
      if decided.resolution.Some? {
        ok := decisions.Resolve(decided.resolution.value);
        if !ok {
          return false;
        }
      }
      var e := TransitionEvent(decided.current, ProposalOf(decided));
      var r := store.CommitTaskStateAndAudit(e, StateOf(e));
      ok := r.Success?;
    }

    /** The resume checks, reading the lineage with the engine's own walk. */
    method CheckResume(listed: seq<DecisionRequest>, plan: Plan, x: Resolution) returns (ok: bool)
      ensures ok == Resumes(bundle, store.Db(), decisions.Contents(), listed, plan, x)
    {
      hide Answers, LineageOf, GateSource;
      if Some(x.decisionId) != plan.current.pending {
        return false;
      }
      if x.decisionId !in decisions.pending || decisions.pending[x.decisionId].Torn?
         || !Answers(x, decisions.pending[x.decisionId].record)
      {
        return false;
      }
      var r := decisions.pending[x.decisionId].record;
      if x.decisionId in decisions.resolved && decisions.resolved[x.decisionId] != Whole(x) {
        return false;
      }
      if r.project != plan.current.project || r.task != plan.current.task {
        return false;
      }
      var found := exists i | 0 <= i < |listed| :: listed[i] == r;
      var unique := forall i, j | 0 <= i < j < |listed| :: listed[i].decisionId == r.decisionId ==> listed[j].decisionId != r.decisionId;
      if !found || !unique || r.stage != plan.target {
        return false;
      }
      var lineage := TrustedAuditLineage(store, plan.current);
      var source := GateSource(plan.current, lineage);
      ok := source.Some? && plan.target in Targets(bundle.workflow, source.value);
    }
  }

  // The undisturbed method is one run of the machine.

  function Steps(bundle: Policy.Bundle, s: System, p: Pid, actions: seq<Action>): Option<System>
    decreases |actions|
  {
    if actions == [] then Some(s)
    else
      match Act(bundle, s, p, actions[0])
      case None => None
      case Some(next) => Steps(bundle, next, p, actions[1..])
  }

  lemma OneStep(bundle: Policy.Bundle, s: System, p: Pid, a: Action, actions: seq<Action>)
    requires Act(bundle, s, p, a).Some?
    ensures Steps(bundle, s, p, [a] + actions) == Steps(bundle, Act(bundle, s, p, a).value, p, actions)
  {
    hide Act;
    assert ([a] + actions)[1..] == actions;
  }

  /** From the decision to the transaction: the resolution file and the commit. */
  lemma ResolutionRuns(bundle: Policy.Bundle, s: System, p: Pid, plan: Plan) returns (actions: seq<Action>)
    requires PhaseOf(s, p) == Prepared(plan) && ValidRequest(plan.current, ProposalOf(plan))
    requires Resolved(s.queue, plan.resolution).Some?
    ensures Steps(bundle, s, p, actions) == Some(At(s.(queue := Resolved(s.queue, plan.resolution).value), p, Committing(plan)))
  {
    hide ValidRequest, Answers, Judges, Committed, OpenedRequest, WrittenRequest, Binds, GateSource, ReadEvents, ReadState, PlanAt;
    if plan.resolution.Some? && OpenResolved(s.queue, plan.resolution.value) == Created {
      var x := plan.resolution.value;
      var begun := Act(bundle, s, p, OpenResolution).value;
      actions := [OpenResolution] + ([WriteResolution] + []);
      OneStep(bundle, s, p, OpenResolution, [WriteResolution] + []);
      OneStep(bundle, begun, p, WriteResolution, []);
      assert s.queue.resolved[x.decisionId := Torn(p)][x.decisionId := Whole(x)] == s.queue.resolved[x.decisionId := Whole(x)];
      assert s.phases[p := WritingResolution(plan)][p := Committing(plan)] == s.phases[p := Committing(plan)];
    } else {
      if plan.resolution.Some? {
        assert s.queue.resolved[plan.resolution.value.decisionId := Whole(plan.resolution.value)] == s.queue.resolved;
      }
      actions := [OpenResolution] + [];
      OneStep(bundle, s, p, OpenResolution, []);
    }
  }

  /** The pause opens and writes its request, or finds it written. */
  lemma PauseRuns(bundle: Policy.Bundle, s: System, p: Pid, plan: Plan, resolution: Option<Resolution>) returns (actions: seq<Action>)
    requires PhaseOf(s, p) == Bound(plan) && plan.target == WaitingHuman
    requires plan.evaluation.requiredHumanTriggers != [] && OpenPending(s.queue, RequestOf(plan)) != Conflict
    ensures var r := RequestOf(plan);
            var q := s.queue.(pending := s.queue.pending[r.decisionId := Whole(r)]);
            Steps(bundle, s, p, actions) == Some(At(s.(queue := q), p, Prepared(plan.(resolution := resolution))))
  {
    hide Judges, Committed, Binds, GateSource, ReadEvents, ReadState, PlanAt, Resumes, OpenedResolution, WrittenResolution;
    var r, plan' := RequestOf(plan), plan.(resolution := resolution);
    if OpenPending(s.queue, r) == Created {
      var begun := Act(bundle, s, p, OpenRequest(resolution)).value;
      assert RequestOf(plan') == r;
      actions := [OpenRequest(resolution)] + ([WriteRequest] + []);
      OneStep(bundle, s, p, OpenRequest(resolution), [WriteRequest] + []);
      OneStep(bundle, begun, p, WriteRequest, []);
      assert s.queue.pending[r.decisionId := Torn(p)][r.decisionId := Whole(r)] == s.queue.pending[r.decisionId := Whole(r)];
      assert s.phases[p := CreatingRequest(plan')][p := Prepared(plan')] == s.phases[p := Prepared(plan')];
    } else {
      assert s.queue.pending[r.decisionId := Whole(r)] == s.queue.pending;
      actions := [OpenRequest(resolution)] + [];
      OneStep(bundle, s, p, OpenRequest(resolution), []);
    }
  }

  /** The decision step, whichever branch it takes. */
  lemma DecisionRuns(bundle: Policy.Bundle, s: System, p: Pid, plan: Plan, resolution: Option<Resolution>, names: seq<Id>)
    returns (actions: seq<Action>)
    requires PhaseOf(s, p) == Bound(plan) && plan.resolution == None && plan.decision == None
    requires Decide(bundle, s.tables, s.queue, plan, resolution, names).Some?
    ensures var decided := Decide(bundle, s.tables, s.queue, plan, resolution, names).value;
            Steps(bundle, s, p, actions) == Some(At(s.(queue := decided.1), p, Prepared(decided.0)))
  {
    hide Resumes, ListPending;
    if plan.target == WaitingHuman {
      hide Steps, Act;
      actions := PauseRuns(bundle, s, p, plan, resolution);
    } else if plan.current.current == WaitingHuman {
      var a := CheckResolution(resolution.value, ListPending(s.queue, s.tables, names).value);
      actions := [a] + [];
      OneStep(bundle, s, p, a, []);
    } else {
      actions := [GoAhead] + [];
      OneStep(bundle, s, p, GoAhead, []);
    }
  }

  lemma {:induction false} StepsJoin(bundle: Policy.Bundle, s: System, p: Pid, first: seq<Action>, second: seq<Action>)
    requires Steps(bundle, s, p, first).Some?
    ensures Steps(bundle, s, p, first + second) == Steps(bundle, Steps(bundle, s, p, first).value, p, second)
    decreases |first|
  {
    hide Act;
    if first == [] {
      assert first + second == second;
    } else {
      StepsJoin(bundle, Act(bundle, s, p, first[0]).value, p, first[1..], second);
      assert (first + second)[1..] == first[1..] + second;
    }
  }

  /** Whenever the method would succeed on a bound plan, the machine has a run of that process alone with
      the same tables and the same queue, and the process ends idle. */
  lemma TheMethodIsARun(bundle: Policy.Bundle, s: System, p: Pid, plan: Plan, resolution: Option<Resolution>, names: seq<Id>)
    returns (actions: seq<Action>)
    requires PhaseOf(s, p) == Bound(plan) && plan.resolution == None && plan.decision == None
    requires Finished(bundle, s.tables, s.queue, plan, resolution, names).ok
    ensures Steps(bundle, s, p, actions).Some?
    ensures var s', done := Steps(bundle, s, p, actions).value, Finished(bundle, s.tables, s.queue, plan, resolution, names);
            s'.tables == done.tables && s'.queue == done.queue && PhaseOf(s', p) == Idle
  {
    hide Decide, Resolved, ValidRequest, Store.Commit;
    var (decided, q1) := Decide(bundle, s.tables, s.queue, plan, resolution, names).value;
    var first := DecisionRuns(bundle, s, p, plan, resolution, names);
    var s1 := At(s.(queue := q1), p, Prepared(decided));
    var second := ResolutionRuns(bundle, s1, p, decided);
    var s2 := At(s1.(queue := Resolved(q1, decided.resolution).value), p, Committing(decided));
    StepsJoin(bundle, s, p, first, second);
    CommitRuns(bundle, s2, p, decided);
    StepsJoin(bundle, s, p, first + second, [Engine.Commit] + []);
    actions := first + second + ([Engine.Commit] + []);
  }

  lemma CommitRuns(bundle: Policy.Bundle, s: System, p: Pid, plan: Plan)
    requires PhaseOf(s, p) == Committing(plan)
    requires var e := TransitionEvent(plan.current, ProposalOf(plan)); Store.Commit(s.tables, e, StateOf(e)).Success?
    ensures Steps(bundle, s, p, [Engine.Commit] + []).Some?
    ensures var e, s' := TransitionEvent(plan.current, ProposalOf(plan)), Steps(bundle, s, p, [Engine.Commit] + []).value;
            s'.tables == Store.Commit(s.tables, e, StateOf(e)).value.0 && s'.queue == s.queue && PhaseOf(s', p) == Idle
  {
    hide Store.Commit, Recorded;
    OneStep(bundle, s, p, Engine.Commit, []);
  }
}
