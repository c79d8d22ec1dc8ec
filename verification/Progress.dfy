/** Double-collect summaries: what a reader reports while other processes commit between its reads. */
module Progress {
  import opened Results
  import opened Stages
  import opened Audit
  import opened Store
  import opened Lineage
  import opened TaskLog
  import opened Gates

  /** Read `n` of the summary sees the tables of moment `when(n)` of the run. */
  ghost predicate Observed(worlds: seq<World>, builds: seq<Build>, when: nat -> nat) {
    && Run(worlds, builds)
    && (forall n :: when(n) < |worlds|)
    && (forall m, n :: m <= n ==> when(m) <= when(n))
  }

  datatype TaskView = TaskView(
    task: string, project: string, current: Stage, generation: nat, headId: Id, headHash: Hash,
    generations: nat, events: nat)

  function View(s: TaskState, lineage: seq<Event>): TaskView {
    TaskView(s.task, s.project, s.current, s.generation, s.headId, s.headHash,
             |set e | e in lineage :: e.body.generation|, |lineage|)
  }

  predicate SameIdentity(v: TaskView, s: TaskState) {
    && v.task == s.task && v.project == s.project && v.current == s.current
    && v.generation == s.generation && v.headId == s.headId && v.headHash == s.headHash
  }

  datatype Preview = Preview(state: TaskState, source: Stage, targets: seq<Stage>)

  datatype Summary = Summary(tasks: map<string, TaskView>, counts: map<Stage, nat>)

  function ReadStates(t: Tables): Option<map<string, TaskState>> {
    if StatesReadable(t) then Some(t.states) else None
  }

  function OfProject(states: map<string, TaskState>, project: string): map<string, TaskState> {
    map task | task in states && states[task].project == project :: states[task]
  }

  function At(states: map<string, TaskState>, tasks: set<string>, stage: Stage): set<string>
    requires tasks <= states.Keys
  {
    set task | task in tasks && states[task].current == stage
  }

  function StagesOf(states: map<string, TaskState>, tasks: set<string>): set<Stage>
    requires tasks <= states.Keys
  {
    set task | task in tasks :: states[task].current
  }

  /** How many of the tasks are at each stage, for the stages that occur. */
  function Tally(states: map<string, TaskState>, tasks: set<string>): map<Stage, nat>
    requires tasks <= states.Keys
  {
    map stage | stage in StagesOf(states, tasks) :: |At(states, tasks, stage)|
  }

  /** The summary a single store would give: every task of the project, its state, its lineage, the counts. */
  predicate Shows(t: Tables, project: string, summary: Summary) {
    var states := OfProject(t.states, project);
    && summary.tasks.Keys == states.Keys
    && (forall task :: task in states ==>
          (&& LineageOf(EngineWalker, t, states[task]).Some?
           && summary.tasks[task] == View(states[task], LineageOf(EngineWalker, t, states[task]).value)))
    && summary.counts == Tally(states, states.Keys)
  }

  // The reads.

  method AuditLineageVerification(worlds: seq<World>, when: nat -> nat, n: nat, task: string)
    returns (r: Option<TaskView>, m: nat)
    requires forall i :: when(i) < |worlds|
    ensures n <= m
    ensures r.Some? ==> n + 3 < m
    ensures r.Some? ==>
              (var s := ReadState(worlds[when(n)].tables, task);
               && s.Success? && LineageOf(EngineWalker, worlds[when(n + 1)].tables, s.value).Some?
               && r.value == View(s.value, LineageOf(EngineWalker, worlds[when(n + 1)].tables, s.value).value))
  {
    hide LineageOf, ReadState;
    m := n;
    var current := ReadState(worlds[when(n)].tables, task);
    if current.Failure? {
      return None, m;
    }
    var lineage := LineageOf(EngineWalker, worlds[when(n + 1)].tables, current.value);
    if lineage == None {
      return None, m;
    }
    if ReadState(worlds[when(n + 2)].tables, task) != current {
      return None, m;
    }
    if LineageOf(EngineWalker, worlds[when(n + 3)].tables, current.value) != lineage {
      return None, m;
    }
    r, m := Some(View(current.value, lineage.value)), n + 4;
  }

  method NextActionPreview(worlds: seq<World>, when: nat -> nat, n: nat, workflow: Workflow, task: string)
    returns (r: Option<Preview>, m: nat)
    requires forall i :: when(i) < |worlds|
    ensures n <= m
    ensures r.Some? ==> ReadState(worlds[when(n)].tables, task) == Success(r.value.state)
  {
    hide LineageOf, GateSource;
    m := n;
    var current := ReadState(worlds[when(n)].tables, task);
    if current.Failure? || LineageOf(EngineWalker, worlds[when(n + 1)].tables, current.value) == None {
      return None, m;
    }
    var source := GateSource(current.value, LineageOf(EngineWalker, worlds[when(n + 2)].tables, current.value));
    if source == None {
      return None, m;
    }
    r, m := Some(Preview(current.value, source.value, Targets(workflow, current.value.current))), n + 3;
  }

  method TrustedTaskProgressSummary(worlds: seq<World>, when: nat -> nat, n: nat, workflow: Workflow, task: string)
    returns (r: Option<TaskView>, m: nat)
    requires forall i :: when(i) < |worlds|
    ensures n <= m
    ensures r.Some? ==> exists k :: n <= k && k + 1 < m && Collected(worlds, when, k, task, r.value)
  {
    hide LineageOf, ReadState, View, SameIdentity;
    m := n;
    var initialAudit, initialPreview, finalAudit, finalPreview;
    initialAudit, m := AuditLineageVerification(worlds, when, m, task);
    if initialAudit == None {
      return None, m;
    }
    initialPreview, m := NextActionPreview(worlds, when, m, workflow, task);
    if initialPreview == None || !SameIdentity(initialAudit.value, initialPreview.value.state) {
      return None, m;
    }
    ghost var k := m;
    finalAudit, m := AuditLineageVerification(worlds, when, m, task);
    if finalAudit != initialAudit {
      return None, m;
    }
    assert Collected(worlds, when, k, task, finalAudit.value);
    finalPreview, m := NextActionPreview(worlds, when, m, workflow, task);
    if finalPreview == None || !SameIdentity(finalAudit.value, finalPreview.value.state) || finalPreview != initialPreview {
      return None, m;
    }
    r := finalAudit;
  }

  predicate Collected(worlds: seq<World>, when: nat -> nat, k: nat, task: string, v: TaskView)
    requires forall i :: when(i) < |worlds|
  {
    var s := ReadState(worlds[when(k)].tables, task);
    && s.Success? && LineageOf(EngineWalker, worlds[when(k + 1)].tables, s.value).Some?
    && v == View(s.value, LineageOf(EngineWalker, worlds[when(k + 1)].tables, s.value).value)
  }

  /** The project summary. If it returns, every store there was between its first and its last read
      shows exactly what it reports. */
  method TrustedProjectProgressSummary(
    worlds: seq<World>, ghost builds: seq<Build>, when: nat -> nat, workflow: Workflow, project: string)
    returns (r: Option<Summary>, m: nat)
    requires Observed(worlds, builds, when)
    ensures r.Some? ==> forall k :: when(0) <= k <= when(m) ==> Shows(worlds[k].tables, project, r.value)
  {
    hide ReadStates, Run, Collected, Tally, View;
    m := 1;
    var first := ReadStates(worlds[when(0)].tables);
    if first == None {
      return None, m;
    }
    var initial := OfProject(first.value, project);
    var left := initial.Keys;
    var tasks: map<string, TaskView> := map[];
    var counts: map<Stage, nat> := map[];
    TallyOfNothing(initial);
    while left != {}
      invariant 1 <= m && left <= initial.Keys
      invariant tasks.Keys == initial.Keys - left
      invariant counts == Tally(initial, initial.Keys - left)
      invariant forall task :: task in tasks ==>
                  exists k :: 0 <= k && k + 1 < m && Collected(worlds, when, k, task, tasks[task])
    {
      var task :| task in left;
      var view;
      ghost var before := m;
      view, m := TrustedTaskProgressSummary(worlds, when, m, workflow, task);
      if view == None || !SameIdentity(view.value, initial[task]) {
        return None, m;
      }
      tasks := tasks[task := view.value];
      var stage := initial[task].current;
      TallyStep(initial, initial.Keys - left, task);
      counts := counts[stage := (if stage in counts then counts[stage] else 0) + 1];
      assert initial.Keys - left + {task} == initial.Keys - (left - {task});
      left := left - {task};
    }
    assert initial.Keys - left == initial.Keys;
    var last := ReadStates(worlds[when(m)].tables);
    if last == None || OfProject(last.value, project) != initial {
      return None, m;
    }
    r := Some(Summary(tasks, counts));
    ReadStatesAreStates(worlds[when(0)].tables);
    ReadStatesAreStates(worlds[when(m)].tables);
    SummaryIsASnapshot(worlds, builds, when, project, m, r.value);
  }

  lemma ReadStatesAreStates(t: Tables)
    ensures ReadStates(t).Some? ==> ReadStates(t).value == t.states
  {
  }

  lemma TallyOfNothing(states: map<string, TaskState>)
    ensures Tally(states, {}) == map[]
    ensures states.Keys - states.Keys == {}
  {
  }

  lemma AtStep(states: map<string, TaskState>, tasks: set<string>, task: string, stage: Stage)
    requires tasks <= states.Keys && task in states && task !in tasks
    ensures |At(states, tasks + {task}, stage)| == |At(states, tasks, stage)| + if states[task].current == stage then 1 else 0
  {
    var before, after := At(states, tasks, stage), At(states, tasks + {task}, stage);
    forall t ensures t in after <==> t in before || (t == task && states[task].current == stage) {
    }
    if states[task].current == stage {
      assert after == before + {task};
    } else {
      assert after == before;
    }
  }

  lemma AbsentStage(states: map<string, TaskState>, tasks: set<string>, stage: Stage)
    requires tasks <= states.Keys && stage !in StagesOf(states, tasks)
    ensures |At(states, tasks, stage)| == 0
  {
    forall t ensures t !in At(states, tasks, stage) {
    }
  }

  lemma TallyStep(states: map<string, TaskState>, tasks: set<string>, task: string)
    requires tasks <= states.Keys && task in states && task !in tasks
    ensures var stage, counts := states[task].current, Tally(states, tasks);
            Tally(states, tasks + {task}) == counts[stage := (if stage in counts then counts[stage] else 0) + 1]
  {
    hide At, StagesOf;
    var more := tasks + {task};
    assert StagesOf(states, more) == StagesOf(states, tasks) + {states[task].current} by { StagesStep(states, tasks, task); }
    forall stage | stage in StagesOf(states, more)
      ensures |At(states, more, stage)| == |At(states, tasks, stage)| + if states[task].current == stage then 1 else 0
    {
      AtStep(states, tasks, task, stage);
    }
    AtStep(states, tasks, task, states[task].current);
    if states[task].current !in StagesOf(states, tasks) {
      AbsentStage(states, tasks, states[task].current);
    }
  }

  lemma StagesStep(states: map<string, TaskState>, tasks: set<string>, task: string)
    requires tasks <= states.Keys && task in states
    ensures StagesOf(states, tasks + {task}) == StagesOf(states, tasks) + {states[task].current}
  {
  }

  // Why the summary is a snapshot: states never recur, so equal ends mean nothing moved in between.

  lemma NothingMoved(worlds: seq<World>, builds: seq<Build>, project: string, i: nat, k: nat, j: nat)
    requires Run(worlds, builds) && i <= k <= j < |worlds|
    requires OfProject(worlds[i].tables.states, project) == OfProject(worlds[j].tables.states, project)
    ensures OfProject(worlds[k].tables.states, project) == OfProject(worlds[i].tables.states, project)
  {
    hide Run;
    var a, b, c := OfProject(worlds[i].tables.states, project), OfProject(worlds[k].tables.states, project), OfProject(worlds[j].tables.states, project);
    forall task | task in a ensures task in b && b[task] == a[task] {
      assert task in c && c[task] == a[task];
      StatesNeverRecur(worlds, builds, i, k, j, task);
    }
    forall task | task in b ensures task in a {
      ProjectIsKept(worlds, builds, k, j, task);
      assert task in c;
    }
    assert b.Keys == a.Keys;
  }

  lemma ProjectOfLog(t: Tables, task: string, log: seq<Event>)
    requires Logged(t, task, log)
    ensures task in t.states && log != [] && t.states[task].project == log[0].body.project
  {
    hide GoodLog;
    LogEntry(log, task, |log| - 1);
  }

  lemma ProjectIsKept(worlds: seq<World>, builds: seq<Build>, i: nat, j: nat, task: string)
    requires Run(worlds, builds) && i <= j < |worlds| && task in worlds[i].tables.states
    ensures task in worlds[j].tables.states && worlds[j].tables.states[task].project == worlds[i].tables.states[task].project
  {
    hide Run, Logged;
    RunIsConsistent(worlds, builds, i);
    RunIsConsistent(worlds, builds, j);
    HistoryGrows(worlds, builds, i, j, task);
    ProjectOfLog(worlds[i].tables, task, worlds[i].history[task]);
    ProjectOfLog(worlds[j].tables, task, worlds[j].history[task]);
  }

  /** The lineage of a task that has not moved is the same at every moment. */
  lemma SameLineage(worlds: seq<World>, builds: seq<Build>, i: nat, j: nat, task: string)
    requires Run(worlds, builds) && i <= j < |worlds|
    requires task in worlds[i].tables.states && task in worlds[j].tables.states
    requires worlds[i].tables.states[task] == worlds[j].tables.states[task]
    ensures var s := worlds[i].tables.states[task];
            && ReadState(worlds[i].tables, task) == Success(s)
            && LineageOf(EngineWalker, worlds[i].tables, s).Some?
            && LineageOf(EngineWalker, worlds[i].tables, s) == LineageOf(EngineWalker, worlds[j].tables, s)
  {
    hide Run, LineageOf, TailBound, ReadEvents;
    StatesNeverRecur(worlds, builds, i, j, j, task);
    ReachableStoresAreTrusted(worlds, builds, i, EngineWalker, task);
    ReachableStoresAreTrusted(worlds, builds, j, EngineWalker, task);
  }

  lemma SummaryIsASnapshot(worlds: seq<World>, builds: seq<Build>, when: nat -> nat, project: string, m: nat, summary: Summary)
    requires Observed(worlds, builds, when)
    requires OfProject(worlds[when(0)].tables.states, project) == OfProject(worlds[when(m)].tables.states, project)
    requires var initial := OfProject(worlds[when(0)].tables.states, project);
             && summary.tasks.Keys == initial.Keys
             && summary.counts == Tally(initial, initial.Keys)
             && forall task :: task in summary.tasks ==>
                  exists k :: 0 <= k && k + 1 < m && Collected(worlds, when, k, task, summary.tasks[task])
    ensures forall k :: when(0) <= k <= when(m) ==> Shows(worlds[k].tables, project, summary)
  {
    hide Run, Collected, Tally, LineageOf, View;
    forall k | when(0) <= k <= when(m) ensures Shows(worlds[k].tables, project, summary) {
      NothingMoved(worlds, builds, project, when(0), k, when(m));
      var states := OfProject(worlds[k].tables.states, project);
      forall task | task in states
        ensures LineageOf(EngineWalker, worlds[k].tables, states[task]).Some?
        ensures summary.tasks[task] == View(states[task], LineageOf(EngineWalker, worlds[k].tables, states[task]).value)
      {
        var n :| 0 <= n && n + 1 < m && Collected(worlds, when, n, task, summary.tasks[task]);
        CollectedMeans(worlds, builds, when, project, m, n, k, task, summary.tasks[task]);
      }
    }
  }

  lemma CollectedMeans(worlds: seq<World>, builds: seq<Build>, when: nat -> nat, project: string, m: nat, n: nat, k: nat,
                       task: string, v: TaskView)
    requires Observed(worlds, builds, when) && n + 1 < m && when(0) <= k <= when(m)
    requires OfProject(worlds[when(0)].tables.states, project) == OfProject(worlds[when(m)].tables.states, project)
    requires task in OfProject(worlds[k].tables.states, project)
    requires Collected(worlds, when, n, task, v)
    ensures var s := worlds[k].tables.states[task];
            LineageOf(EngineWalker, worlds[k].tables, s).Some? && v == View(s, LineageOf(EngineWalker, worlds[k].tables, s).value)
  {
    hide Run, LineageOf, View;
    NothingMoved(worlds, builds, project, when(0), k, when(m));
    NothingMoved(worlds, builds, project, when(0), when(n), when(m));
    NothingMoved(worlds, builds, project, when(0), when(n + 1), when(m));
    var s := OfProject(worlds[k].tables.states, project)[task];
    assert task in OfProject(worlds[when(n)].tables.states, project);
    assert task in OfProject(worlds[when(n + 1)].tables.states, project);
    if k <= when(n + 1) {
      SameLineage(worlds, builds, k, when(n + 1), task);
    } else {
      SameLineage(worlds, builds, when(n + 1), k, task);
    }
  }
}
