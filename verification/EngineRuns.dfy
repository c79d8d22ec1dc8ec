/** Undisturbed runs of the engine: a transition whose gate accepts and whose decision is in order commits,
    from any reachable state. */
module EngineRuns {
  import opened Results
  import opened Stages
  import opened Evidence
  import opened Audit
  import opened Store
  import opened Lineage
  import opened TaskLog
  import opened Gates
  import opened Decisions
  import opened Engine
  import opened EngineInvariant
  import opened EngineSteps
  import opened EngineMethods
  import Policy

  lemma {:induction false} StepsAreReachable(bundle: Policy.Bundle, s: System, p: Pid, actions: seq<Action>)
    requires Reachable(bundle, s) && Steps(bundle, s, p, actions).Some?
    ensures Reachable(bundle, Steps(bundle, s, p, actions).value)
    decreases |actions|
  {
    hide Act, Reachable;
    if actions != [] {
      ActIsReachable(bundle, s, p, actions[0]);
      StepsAreReachable(bundle, Act(bundle, s, p, actions[0]).value, p, actions[1..]);
    }
  }

  lemma ActIsReachable(bundle: Policy.Bundle, s: System, p: Pid, a: Action)
    requires Reachable(bundle, s) && Act(bundle, s, p, a).Some?
    ensures Reachable(bundle, Act(bundle, s, p, a).value)
  {
    hide Act;
    var script :| Execute(bundle, script) == Some(s);
    var more := script + [(p, a)];
    assert DropLast(more) == script;
    assert Execute(bundle, more) == Act(bundle, s, p, a);
  }

  /** A task was accepted: its log is its first event, and nothing else happened. */
  lemma IntakeRuns(bundle: Policy.Bundle, task: string, project: string) returns (s: System)
    ensures Reachable(bundle, s) && PhaseOf(s, 0) == Idle && s.queue == Queue(map[], map[])
    ensures s.history == map[task := [CreationEvent(task, project, Controller, 0)]] && s.tables.states.Keys == {task}
  {
    var e, a := CreationEvent(task, project, Controller, 0), Engine.Intake(task, project, Controller, 0);
    assert Execute(bundle, []) == Some(Initial());
    assert Store.Commit(Empty(), e, StateOf(e)).Success? && Store.Commit(Empty(), e, StateOf(e)).value.1;
    assert Recorded(map[], e) == map[task := [] + [e]] && [] + [e] == [e];
    s := Act(bundle, Initial(), 0, a).value;
    ActIsReachable(bundle, Initial(), 0, a);
  }

  function StateAt(s: System, task: string): TaskState
    requires task in s.history && s.history[task] != []
  {
    StateOf(Last(s.history[task]))
  }

  /** The plan of a judgement taken on the task as it stands. */
  function FreshPlan(bundle: Policy.Bundle, s: System, task: string, source: Stage, a: Action): Plan
    requires task in s.history && s.history[task] != [] && a.Judge?
  {
    PlanAt(Numbered(StateAt(s, task), source, |s.history[task]| + 1), a, bundle)
  }

  /** The gate, judged on the log itself. */
  predicate Passes(bundle: Policy.Bundle, s: System, task: string, source: Stage, a: Action)
    requires task in s.history && s.history[task] != [] && a.Judge?
  {
    var plan, cur := FreshPlan(bundle, s, task, source, a), StateAt(s, task);
    && a.input.currentState == cur.current && GateSource(cur, Some(s.history[task])) == Some(source)
    && !plan.evaluation.FailClosed() && plan.target in plan.evaluation.authorized
    && (RequiredActor(source, plan.target).Some? ==> a.actor == RequiredActor(source, plan.target).value)
    && a.submitted != []
    && GateAccepts(a.files, Some(s.history[task]), cur, source, plan.target, a.submitted)
  }

  lemma TaskIsFresh(bundle: Policy.Bundle, s: System, task: string)
    requires Safe(bundle, s) && task in s.history
    ensures s.history[task] != [] && StateAt(s, task).task == task && Fresh(s.history, StateAt(s, task))
    ensures ReadState(s.tables, task) == Success(StateAt(s, task))
    ensures Logged(s.tables, task, s.history[task])
  {
    hide Safe, GoodLog, Gated, Filed, ValidEvent;
    TaskIsLogged(bundle, s, task);
    var log := s.history[task];
    LogEntry(log, task, |log| - 1);
    StateOfFits(Last(log));
  }

  lemma JudgeStep(bundle: Policy.Bundle, s: System, p: Pid, task: string, source: Stage, a: Action)
    requires Safe(bundle, s) && task in s.history && s.history[task] != [] && a.Judge? && Passes(bundle, s, task, source, a)
    requires PhaseOf(s, p) == Numbered(StateAt(s, task), source, |s.history[task]| + 1) && Fresh(s.history, StateAt(s, task))
    ensures StateAt(s, task).task == task ==>
              Act(bundle, s, p, a) == Some(At(s, p, Judged(FreshPlan(bundle, s, task, source, a))))
  {
    hide Safe, GateSource, LineageOf, GateAccepts, Policy.Evaluate;
    if StateAt(s, task).task == task {
      FreshReads(bundle, s, StateAt(s, task));
    }
  }

  lemma AtAgain(s: System, p: Pid, first: Phase, second: Phase)
    ensures At(At(s, p, first), p, second) == At(s, p, second) && PhaseOf(At(s, p, first), p) == first
  {
    assert s.phases[p := first][p := second] == s.phases[p := second];
  }

  lemma ReadingSteps(bundle: Policy.Bundle, s: System, p: Pid, task: string, source: Stage)
    requires Safe(bundle, s) && PhaseOf(s, p) == Idle && task in s.history && s.history[task] != []
    requires StateAt(s, task).task == task && Fresh(s.history, StateAt(s, task))
    requires ReadState(s.tables, task) == Success(StateAt(s, task))
    requires GateSource(StateAt(s, task), Some(s.history[task])) == Some(source)
    ensures var cur := StateAt(s, task);
            var s1, s2, s3 := At(s, p, Loaded(cur)), At(s, p, Sourced(cur, source)), At(s, p, Numbered(cur, source, |s.history[task]| + 1));
            && Act(bundle, s, p, Load(task)) == Some(s1) && Act(bundle, s1, p, FindSource) == Some(s2)
            && Act(bundle, s2, p, Number) == Some(s3)
  {
    hide Safe, GateSource, LineageOf, ReadEvents, ReadState, StateOf;
    var cur := StateAt(s, task);
    FreshReads(bundle, s, cur);
    AtAgain(s, p, Loaded(cur), Sourced(cur, source));
    AtAgain(s, p, Sourced(cur, source), Numbered(cur, source, |s.history[task]| + 1));
  }

  /** Reading, judging and binding, undisturbed. */
  lemma PreparationRuns(bundle: Policy.Bundle, s: System, p: Pid, task: string, source: Stage, a: Action, bound: seq<Binding>)
    returns (actions: seq<Action>)
    requires Safe(bundle, s) && PhaseOf(s, p) == Idle && task in s.history && s.history[task] != []
    requires a.Judge? && Passes(bundle, s, task, source, a) && Binds(FreshPlan(bundle, s, task, source, a), bound)
    ensures Steps(bundle, s, p, actions) == Some(At(s, p, Bound(FreshPlan(bundle, s, task, source, a).(bound := bound))))
  {
    hide Act, Safe, Steps, GateSource, GateAccepts, Policy.Evaluate, Fresh, Logged, Binds, StateOf, ReadState, Passes, FreshPlan;
    TaskIsFresh(bundle, s, task);
    PassesMeans(bundle, s, task, source, a);
    var cur, plan := StateAt(s, task), FreshPlan(bundle, s, task, source, a);
    var s1, s2, s3 := At(s, p, Loaded(cur)), At(s, p, Sourced(cur, source)), At(s, p, Numbered(cur, source, |s.history[task]| + 1));
    var s4, s5 := At(s, p, Judged(plan)), At(s, p, Bound(plan.(bound := bound)));
    ReadingSteps(bundle, s, p, task, source);
    ElsewhereIsSafe(bundle, s, p, task, source);
    AtAgain(s, p, Numbered(cur, source, |s.history[task]| + 1), Judged(plan));
    AtAgain(s, p, Judged(plan), Bound(plan.(bound := bound)));
    SameAt(bundle, s, p, task, source, a);
    JudgeStep(bundle, s3, p, task, source, a);
    BindStep(bundle, s4, p, plan, bound);
    OneStep(bundle, s, p, Load(task), [FindSource] + ([Number] + ([a] + ([Bind(bound)] + []))));
    OneStep(bundle, s1, p, FindSource, [Number] + ([a] + ([Bind(bound)] + [])));
    OneStep(bundle, s2, p, Number, [a] + ([Bind(bound)] + []));
    OneStep(bundle, s3, p, a, [Bind(bound)] + []);
    OneStep(bundle, s4, p, Bind(bound), []);
    NoSteps(bundle, s5, p);
    actions := [Load(task)] + ([FindSource] + ([Number] + ([a] + ([Bind(bound)] + []))));
  }

  lemma NoSteps(bundle: Policy.Bundle, s: System, p: Pid)
    ensures Steps(bundle, s, p, []) == Some(s)
  {
  }

  lemma PassesMeans(bundle: Policy.Bundle, s: System, task: string, source: Stage, a: Action)
    requires task in s.history && s.history[task] != [] && a.Judge? && Passes(bundle, s, task, source, a)
    ensures GateSource(StateAt(s, task), Some(s.history[task])) == Some(source)
  {
    hide GateSource, GateAccepts, Policy.Evaluate;
  }

  /** Where a process stands does not matter to the logs or to the judgement. */
  lemma SameAt(bundle: Policy.Bundle, s: System, p: Pid, task: string, source: Stage, a: Action)
    requires task in s.history && s.history[task] != [] && a.Judge? && Passes(bundle, s, task, source, a)
    requires Fresh(s.history, StateAt(s, task))
    ensures var s' := At(s, p, Numbered(StateAt(s, task), source, |s.history[task]| + 1));
            && Passes(bundle, s', task, source, a) && FreshPlan(bundle, s', task, source, a) == FreshPlan(bundle, s, task, source, a)
            && Fresh(s'.history, StateAt(s', task)) && StateAt(s', task) == StateAt(s, task)
  {
    hide GateSource, GateAccepts, Policy.Evaluate;
  }

  lemma ElsewhereIsSafe(bundle: Policy.Bundle, s: System, p: Pid, task: string, source: Stage)
    requires Safe(bundle, s) && task in s.history && s.history[task] != [] && StateAt(s, task).task == task
    requires GateSource(StateAt(s, task), Some(s.history[task])) == Some(source)
    ensures Safe(bundle, At(s, p, Numbered(StateAt(s, task), source, |s.history[task]| + 1)))
  {
    hide Safe, GateSource;
    var cur := StateAt(s, task);
    assert Last(s.history[task]) in s.history[task];
    assert SeenState(s.history, cur);
    AtKeeps(bundle, s, p, Numbered(cur, source, |s.history[task]| + 1));
  }

  lemma BindStep(bundle: Policy.Bundle, s: System, p: Pid, plan: Plan, bound: seq<Binding>)
    requires PhaseOf(s, p) == Judged(plan) && Binds(plan, bound)
    ensures Act(bundle, s, p, Bind(bound)) == Some(At(s, p, Bound(plan.(bound := bound))))
  {
    hide Binds;
  }

  // The transaction.

  /** A valid request on the newest state is committed, and its event ends the log. */
  lemma FreshRequestCommits(t: Tables, task: string, log: seq<Event>, d: Proposal)
    requires Logged(t, task, log) && d.sequence == |log| + 1 && d.evidence != []
    requires ValidRequest(StateOf(Last(log)), d)
    ensures var e := TransitionEvent(StateOf(Last(log)), d);
            && Store.Commit(t, e, StateOf(e)) == Success((Written(Inserted(t, e), StateOf(e)), true))
            && Logged(Written(Inserted(t, e), StateOf(e)), task, log + [e])
  {
    hide GoodLog, ValidRequest, ValidBody;
    var cur := StateOf(Last(log));
    var e := TransitionEvent(cur, d);
    LogEntry(log, task, |log| - 1);
    StateOfFits(Last(log));
    EngineEventIsValid(cur, d);
    StateOfFits(e);
    RowAtPosition(Rows(t, task, 1), d.sequence, 0);
    LogGrows(log, task, cur, d);
    RowsExtend(t, task, log, e, StateOf(e));
    hide ValidEvent, StateFits, Logged, RowAt;
    Follows(t, task, log, d);
  }

  lemma Follows(t: Tables, task: string, log: seq<Event>, d: Proposal)
    requires Logged(t, task, log) && d.sequence == |log| + 1
    ensures var e := TransitionEvent(StateOf(Last(log)), d); PredecessorOk(t, e, StateOf(e))
  {
    hide GoodLog, ValidBody;
    LogEntry(log, task, |log| - 1);
    StateOfFits(Last(log));
  }

  /** The rows say what the history is. */
  lemma HistoryIsTheRows(bundle: Policy.Bundle, s: System, task: string, log: seq<Event>)
    requires Safe(bundle, s) && Logged(s.tables, task, log)
    ensures task in s.history && s.history[task] == log
  {
    hide Safe, GoodLog, Gated, Filed;
    StateIsInHistory(bundle, s, task);
    TaskIsLogged(bundle, s, task);
  }

  /** A transition of any kind, from a reachable state: judged, bound, decided and committed undisturbed. */
  lemma TransitionRuns(bundle: Policy.Bundle, s: System, p: Pid, task: string, source: Stage, a: Action, bound: seq<Binding>,
                       resolution: Option<Resolution>, names: seq<Id>, decided: Plan, q1: Queue, q2: Queue) returns (t: System)
    requires Reachable(bundle, s) && PhaseOf(s, p) == Idle && task in s.history && s.history[task] != []
    requires a.Judge? && Passes(bundle, s, task, source, a) && Binds(FreshPlan(bundle, s, task, source, a), bound)
    requires var plan := FreshPlan(bundle, s, task, source, a).(bound := bound);
             && Decide(bundle, s.tables, s.queue, plan, resolution, names) == Some((decided, q1))
             && ValidRequest(StateAt(s, task), ProposalOf(decided)) && Resolved(q1, decided.resolution) == Some(q2)
    ensures Reachable(bundle, t) && PhaseOf(t, p) == Idle && t.queue == q2 && task in t.history
    ensures var e := TransitionEvent(StateAt(s, task), ProposalOf(decided));
            t.history[task] == s.history[task] + [e] && t.tables == Written(Inserted(s.tables, e), StateOf(e))
  {
    hide Reachable, Safe, Steps, GateSource, GateAccepts, Policy.Evaluate, Logged, ValidRequest, Resolved, Decide, Passes, ListPending,
         TransitionEvent, Inserted, Written, Fresh;
    ReachableIsSafe(bundle, s);
    TaskIsFresh(bundle, s, task);
    var plan := FreshPlan(bundle, s, task, source, a).(bound := bound);
    var first := PreparationRuns(bundle, s, p, task, source, a, bound);
    var s1 := At(s, p, Bound(plan));
    DecidedPlan(bundle, s.tables, s.queue, plan, resolution, names);
    PassesSubmits(bundle, s, task, source, a);
    FreshRequestCommits(s.tables, task, s.history[task], ProposalOf(decided));
    hide Store.Commit;
    var second := TheMethodIsARun(bundle, s1, p, plan, resolution, names);
    StepsJoin(bundle, s, p, first, second);
    StepsAreReachable(bundle, s, p, first + second);
    t := Steps(bundle, s, p, first + second).value;
    ReachableIsSafe(bundle, t);
    HistoryIsTheRows(bundle, t, task, s.history[task] + [TransitionEvent(StateAt(s, task), ProposalOf(decided))]);
  }

  lemma PassesSubmits(bundle: Policy.Bundle, s: System, task: string, source: Stage, a: Action)
    requires task in s.history && s.history[task] != [] && a.Judge? && Passes(bundle, s, task, source, a)
    ensures a.submitted != []
  {
    hide GateSource, GateAccepts, Policy.Evaluate;
  }

  /** Deciding adds a decision to the plan and changes nothing else of it. */
  lemma DecidedPlan(bundle: Policy.Bundle, t: Tables, q: Queue, plan: Plan, resolution: Option<Resolution>, names: seq<Id>)
    requires Decide(bundle, t, q, plan, resolution, names).Some?
    ensures var decided := Decide(bundle, t, q, plan, resolution, names).value.0;
            decided == plan.(resolution := decided.resolution, decision := decided.decision)
  {
    hide ListPending, Resumes;
  }
}
