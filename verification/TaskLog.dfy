/** Stores reached by intake and engine commits: the table of a task is its log, and every reader says so. */
module TaskLog {
  import opened Results
  import opened Stages
  import opened Audit
  import opened Store
  import opened Lineage
  import opened LineageLaws

  /** For each task, the events ever committed for it, in order. */
  type History = map<string, seq<Event>>

  /** Any event the engine can seal from a state it once read; intake starts the log. */
  datatype Build = Intake(task: string, project: string, actor: Actor, createdAt: nat) | Transition(seen: TaskState, proposal: Proposal)

  function Built(b: Build): Event {
    match b
    case Intake(task, project, actor, createdAt) => CreationEvent(task, project, actor, createdAt)
    case Transition(seen, proposal) => TransitionEvent(seen, proposal)
  }

  /** A transition starts from a state that some earlier commit wrote. */
  predicate Seen(h: History, b: Build) {
    b.Transition? ==> b.seen.task in h && exists e | e in h[b.seen.task] :: b.seen == StateOf(e)
  }

  function Recorded(h: History, e: Event): History {
    h[e.body.task := (if e.body.task in h then h[e.body.task] else []) + [e]]
  }

  predicate Step(t: Tables, h: History, b: Build, t': Tables, h': History) {
    && Seen(h, b)
    && match Commit(t, Built(b), StateOf(Built(b)))
       case Failure(_) => t' == t && h' == h
       case Success((after, committed)) => t' == after && h' == if committed then Recorded(h, Built(b)) else h
  }

  datatype World = World(tables: Tables, history: History)

  /** A run: any processes, any order, replays and refusals included. */
  predicate Run(worlds: seq<World>, builds: seq<Build>) {
    && |worlds| == |builds| + 1
    && worlds[0] == World(Empty(), map[])
    && forall i :: 0 <= i < |builds| ==>
         Step(worlds[i].tables, worlds[i].history, builds[i], worlds[i + 1].tables, worlds[i + 1].history)
  }

  // The invariant.

  predicate LogEvent(log: seq<Event>, i: nat, o: Origin)
    requires i < |log|
  {
    && ValidEvent(log[i]) && Linked(log, i, o)
    && log[i].body.eventType == (if i == 0 then TaskCreated else TransitionAccepted)
    && (i > 0 ==> log[i].body.source == Some(StateOf(log[i - 1]).current))
  }

  predicate GoodLog(log: seq<Event>, task: string) {
    && log != []
    && var o := Origin(task, log[0].body.project, 1);
       forall i :: 0 <= i < |log| ==> LogEvent(log, i, o)
  }

  predicate RowsAre(rows: seq<Row>, log: seq<Event>) {
    |rows| == |log| && forall i :: 0 <= i < |log| ==> rows[i] == Row(i + 1, log[i])
  }

  ghost predicate Logged(t: Tables, task: string, log: seq<Event>) {
    && log != [] && GoodLog(log, task)
    && task in t.states && t.states[task] == StateOf(Last(log))
    && RowsAre(Rows(t, task, 1), log)
    && forall g :: g != 1 ==> Rows(t, task, g) == []
  }

  ghost predicate Consistent(t: Tables, h: History) {
    && (forall task :: task in t.states ==> task in h)
    && (forall task :: task in h ==> Logged(t, task, h[task]))
    && (forall task, g :: task !in h ==> Rows(t, task, g) == [])
  }

  // Facts about one log.

  lemma LogEntry(log: seq<Event>, task: string, i: nat)
    requires GoodLog(log, task) && i < |log|
    ensures ValidEvent(log[i]) && log[i].body.sequence == i + 1 && log[i].body.generation == 1
    ensures log[i].body.task == task && log[i].body.project == log[0].body.project
    ensures log[i].body.eventType == (if i == 0 then TaskCreated else TransitionAccepted)
    ensures log[i].hash == Digest(log[i].body)
  {
    hide ValidBody;
    assert LogEvent(log, i, Origin(task, log[0].body.project, 1));
  }

  /** No hash, and so no state, occurs twice in a log. */
  lemma LogNeverRepeats(log: seq<Event>, task: string, i: nat, j: nat)
    requires GoodLog(log, task) && i < |log| && j < |log|
    requires log[i].hash == log[j].hash
    ensures i == j
  {
    hide GoodLog;
    LogEntry(log, task, i);
    LogEntry(log, task, j);
  }

  lemma {:induction false} RowAtPosition(rows: seq<Row>, n: nat, base: nat)
    requires forall i :: 0 <= i < |rows| ==> rows[i].sequence == base + i + 1
    ensures RowAt(rows, n) == if base < n <= base + |rows| then Some(rows[n - base - 1].event) else None
    decreases |rows|
  {
    if rows != [] {
      RowAtPosition(rows[1..], n, base + 1);
    }
  }

  lemma {:induction false} InsertAtEnd(rows: seq<Row>, row: Row)
    requires forall i :: 0 <= i < |rows| ==> rows[i].sequence < row.sequence
    ensures Insert(rows, row) == rows + [row]
    decreases |rows|
  {
    if rows != [] {
      InsertAtEnd(rows[1..], row);
      assert [rows[0]] + (rows[1..] + [row]) == rows + [row];
    }
  }

  /** A transition commits a new event exactly from the newest state: its log has not moved on. */
  lemma OnlyTheLatestStateCommits(t: Tables, h: History, b: Build, i: nat)
    requires Consistent(t, h) && b.Transition? && b.seen.task in h && i < |h[b.seen.task]|
    requires b.seen == StateOf(h[b.seen.task][i])
    requires ValidEvent(Built(b)) && PredecessorOk(t, Built(b), StateOf(Built(b)))
    ensures i == |h[b.seen.task]| - 1 && Built(b).body.sequence == |h[b.seen.task]| + 1
  {
    hide GoodLog, ValidEvent;
    var log := h[b.seen.task];
    assert Logged(t, b.seen.task, log);
    LogEntry(log, b.seen.task, i);
    LogEntry(log, b.seen.task, |log| - 1);
    LogNeverRepeats(log, b.seen.task, i, |log| - 1);
  }

  lemma LogGrows(log: seq<Event>, task: string, seen: TaskState, p: Proposal)
    requires GoodLog(log, task) && seen == StateOf(Last(log)) && p.sequence == |log| + 1
    requires ValidEvent(TransitionEvent(seen, p))
    ensures GoodLog(log + [TransitionEvent(seen, p)], task)
  {
    hide ValidBody;
    var more := log + [TransitionEvent(seen, p)];
    var o := Origin(task, log[0].body.project, 1);
    LogEntry(log, task, |log| - 1);
    forall i | 0 <= i < |more| ensures LogEvent(more, i, o) {
      if i < |log| {
        assert LogEvent(log, i, o);
        assert more[i] == log[i] && (i > 0 ==> more[i - 1] == log[i - 1]);
      } else {
        assert more[i - 1] == Last(log);
      }
    }
  }

  lemma CreationStartsLog(task: string, project: string, actor: Actor, createdAt: nat)
    ensures GoodLog([CreationEvent(task, project, actor, createdAt)], task)
  {
    var log := [CreationEvent(task, project, actor, createdAt)];
    assert LogEvent(log, 0, Origin(task, project, 1));
  }

  /** The event of an accepted transition extends the log of its task by one. */
  lemma TransitionFollows(t: Tables, h: History, b: Build)
    requires Consistent(t, h) && Seen(h, b) && b.Transition?
    requires var e := Built(b); ValidEvent(e) && PredecessorOk(t, e, StateOf(e))
    ensures var task, e := b.seen.task, Built(b);
            && task in h && e.body.task == task && e.body.generation == 1 && e.body.sequence == |h[task]| + 1
            && GoodLog(h[task] + [e], task)
  {
    hide GoodLog, ValidEvent, PredecessorOk;
    var task := b.seen.task;
    var log := h[task];
    assert Logged(t, task, log);
    var i :| 0 <= i < |log| && b.seen == StateOf(log[i]);
    LogEntry(log, task, i);
    OnlyTheLatestStateCommits(t, h, b, i);
    LogGrows(log, task, b.seen, b.proposal);
  }

  /** Rows in order, one more at the end. */
  lemma RowsExtend(t: Tables, task: string, log: seq<Event>, e: Event, s: TaskState)
    requires Logged(t, task, log) && GoodLog(log + [e], task) && s == StateOf(e)
    requires e.body.task == task && e.body.generation == 1 && e.body.sequence == |log| + 1
    ensures Logged(Written(Inserted(t, e), s), task, log + [e])
  {
    hide GoodLog;
    var t' := Written(Inserted(t, e), s);
    InsertAtEnd(Rows(t, task, 1), Row(e.body.sequence, e));
    assert Last(log + [e]) == e;
    forall g: nat | g != 1 ensures Rows(t', task, g) == [] {
      assert Rows(t', task, g) == Rows(t, task, g);
    }
  }

  lemma TransitionExtendsLog(t: Tables, h: History, b: Build)
    requires Consistent(t, h) && Seen(h, b) && b.Transition?
    requires var e := Built(b); ValidEvent(e) && PredecessorOk(t, e, StateOf(e))
    ensures var task, e := b.seen.task, Built(b);
            && task in h && e.body.task == task
            && Logged(Written(Inserted(t, e), StateOf(e)), task, h[task] + [e])
  {
    hide GoodLog, ValidEvent, PredecessorOk, Seen;
    TransitionFollows(t, h, b);
    var task := b.seen.task;
    assert Logged(t, task, h[task]);
    hide Logged;
    RowsExtend(t, task, h[task], Built(b), StateOf(Built(b)));
  }

  lemma TransitionKeepsConsistent(t: Tables, h: History, b: Build)
    requires Consistent(t, h) && Seen(h, b) && b.Transition?
    requires var e := Built(b); ValidEvent(e) && PredecessorOk(t, e, StateOf(e))
    ensures var e := Built(b); Consistent(Written(Inserted(t, e), StateOf(e)), Recorded(h, e))
  {
    hide GoodLog, ValidEvent, PredecessorOk, Seen;
    TransitionExtendsLog(t, h, b);
    hide Logged, Built, StateOf;
    OtherLogsAreLogged(t, h, Built(b), StateOf(Built(b)));
  }

  /** A commit for one task leaves the rows and states of the others alone. */
  lemma OtherLogsAreLogged(t: Tables, h: History, e: Event, s: TaskState)
    requires Consistent(t, h) && s.task == e.body.task
    requires Logged(Written(Inserted(t, e), s), s.task, Recorded(h, e)[s.task])
    ensures Consistent(Written(Inserted(t, e), s), Recorded(h, e))
  {
    hide GoodLog, RowsAre, StateOf, Insert;
    var t', h' := Written(Inserted(t, e), s), Recorded(h, e);
    assert forall task, g :: task != s.task ==> Rows(t', task, g) == Rows(t, task, g);
    forall task | task in h' ensures Logged(t', task, h'[task]) {
      if task != s.task {
        assert Logged(t, task, h[task]);
      }
    }
  }

  lemma IntakeKeepsConsistent(t: Tables, h: History, b: Build)
    requires Consistent(t, h) && b.Intake?
    requires var e := Built(b); PredecessorOk(t, e, StateOf(e))
    ensures var e := Built(b); Consistent(Written(Inserted(t, e), StateOf(e)), Recorded(h, e))
  {
    hide GoodLog, ValidEvent;
    var e := Built(b);
    assert b.task !in t.states && b.task !in h;
    CreationStartsLog(b.task, b.project, b.actor, b.createdAt);
    assert Recorded(h, e)[b.task] == [e];
    assert Logged(Written(Inserted(t, e), StateOf(e)), b.task, [e]);
    OtherLogsAreLogged(t, h, e, StateOf(e));
  }

  /** Every step, accepted, replayed or refused, leaves the tables consistent with the history. */
  lemma StepKeepsConsistent(t: Tables, h: History, b: Build, t': Tables, h': History)
    requires Consistent(t, h) && Step(t, h, b, t', h')
    ensures Consistent(t', h')
  {
    hide Consistent, PredecessorOk, ValidEvent;
    var e := Built(b);
    if Commit(t, e, StateOf(e)).Success? && Commit(t, e, StateOf(e)).value.1 {
      if b.Intake? {
        IntakeKeepsConsistent(t, h, b);
      } else {
        TransitionKeepsConsistent(t, h, b);
      }
    }
  }

  lemma {:induction false} RunIsConsistent(worlds: seq<World>, builds: seq<Build>, i: nat)
    requires Run(worlds, builds) && i < |worlds|
    ensures Consistent(worlds[i].tables, worlds[i].history)
  {
    hide Consistent, Step;
    if i == 0 {
      EmptyIsConsistent();
    } else {
      RunIsConsistent(worlds, builds, i - 1);
      StepKeepsConsistent(worlds[i - 1].tables, worlds[i - 1].history, builds[i - 1], worlds[i].tables, worlds[i].history);
    }
  }

  lemma EmptyIsConsistent()
    ensures Consistent(Empty(), map[])
  {
  }

  // The readers on a consistent store.

  lemma GoodLogIsChain(log: seq<Event>, task: string)
    requires GoodLog(log, task)
    ensures Chain(log, Origin(task, log[0].body.project, 1))
  {
    hide ValidEvent, Linked;
    var o := Origin(task, log[0].body.project, 1);
    forall i | 0 <= i < |log| ensures Linked(log, i, o) {
      assert LogEvent(log, i, o);
    }
  }

  lemma LogIsReadable(t: Tables, task: string, log: seq<Event>)
    requires Logged(t, task, log)
    ensures AllReadable(Rows(t, task, 1), task, 1) && Events(Rows(t, task, 1)) == log
  {
    hide GoodLog, ValidEvent;
    forall i | 0 <= i < |log| ensures Readable(Rows(t, task, 1), i, task, 1) {
      LogEntry(log, task, i);
    }
  }

  /** Both walks return the log, from beginning to end. */
  lemma LineageIsTheLog(w: Walker, t: Tables, task: string, log: seq<Event>)
    requires Logged(t, task, log)
    ensures LineageOf(w, t, StateOf(Last(log))) == Some(log)
  {
    hide Readable, Linked, GoodLog;
    var rows, s, n := Rows(t, task, 1), StateOf(Last(log)), |log| - 1;
    var o := Origin(task, log[0].body.project, 1);
    LogEntry(log, task, n);
    LogEntry(log, task, 0);
    assert Origin(s.task, s.project, s.generation) == o;
    GoodLogIsChain(log, task);
    LogIsReadable(t, task, log);
    forall i | 0 <= i < n ensures log[i].hash != s.headHash {
      if log[i].hash == s.headHash { LogNeverRepeats(log, task, i, n); }
    }
    EngineHeadMeans(log, o, s.headHash, 0, n);
    StoreHeadMeans(rows, o, s.headHash, 0, n);
    assert log[..n + 1] == log;
    assert Trusted(w, rows, o, Head(s.headId, None, s.headHash), true) == Some(log);
    CreationEndsTheWalk(log[0]);
  }

  lemma CreationEndsTheWalk(e: Event)
    requires ValidEvent(e) && e.body.eventType == TaskCreated
    ensures Predecessor(e, 1) == Some(Ended)
  {
  }

  /** In every run, at every moment: each task is walkable, its lineage is exactly its history, its
      state passes the tail binding, and the current generation reads back as the same events. */
  lemma ReachableStoresAreTrusted(worlds: seq<World>, builds: seq<Build>, i: nat, w: Walker, task: string)
    requires Run(worlds, builds) && i < |worlds| && task in worlds[i].tables.states
    ensures var t, h := worlds[i].tables, worlds[i].history;
            && task in h
            && ReadState(t, task) == Success(t.states[task])
            && LineageOf(w, t, t.states[task]) == Some(h[task])
            && TailBound(t.states[task], h[task])
            && ReadEvents(t, task, t.states[task].generation) == Success(h[task])
  {
    hide GoodLog, ValidEvent, LineageOf, AllReadable, Run, StateFits;
    RunIsConsistent(worlds, builds, i);
    var t, log := worlds[i].tables, worlds[i].history[task];
    assert Logged(t, task, log);
    LineageIsTheLog(w, t, task, log);
    LogEntry(log, task, |log| - 1);
    StateOfFits(Last(log));
    LogIsReadable(t, task, log);
    TailBindingIsExact(StateOf(Last(log)), log);
  }

  lemma {:induction false} HistoryGrows(worlds: seq<World>, builds: seq<Build>, i: nat, j: nat, task: string)
    requires Run(worlds, builds) && i <= j < |worlds| && task in worlds[i].history
    ensures task in worlds[j].history && worlds[i].history[task] <= worlds[j].history[task]
    decreases j
  {
    hide Commit, Seen;
    if i < j {
      HistoryGrows(worlds, builds, i, j - 1, task);
      assert Step(worlds[j - 1].tables, worlds[j - 1].history, builds[j - 1], worlds[j].tables, worlds[j].history);
    }
  }

  /** What was once trusted stays a prefix of everything trusted later. */
  lemma EarlierLineagesArePrefixes(worlds: seq<World>, builds: seq<Build>, i: nat, j: nat, w: Walker, task: string)
    requires Run(worlds, builds) && i <= j < |worlds| && task in worlds[i].tables.states
    ensures var t, u := worlds[i].tables, worlds[j].tables;
            && task in u.states
            && LineageOf(w, t, t.states[task]).Some? && LineageOf(w, u, u.states[task]).Some?
            && LineageOf(w, t, t.states[task]).value <= LineageOf(w, u, u.states[task]).value
  {
    hide Run, GoodLog, LineageOf, TailBound, ReadEvents;
    ReachableStoresAreTrusted(worlds, builds, i, w, task);
    HistoryGrows(worlds, builds, i, j, task);
    RunIsConsistent(worlds, builds, j);
    assert Logged(worlds[j].tables, task, worlds[j].history[task]);
    ReachableStoresAreTrusted(worlds, builds, j, w, task);
  }

  /** A task's state never recurs: once it has moved on, it is never the same again. */
  lemma StatesNeverRecur(worlds: seq<World>, builds: seq<Build>, i: nat, j: nat, k: nat, task: string)
    requires Run(worlds, builds) && i <= j <= k < |worlds| && task in worlds[i].tables.states
    requires task in worlds[k].tables.states && worlds[k].tables.states[task] == worlds[i].tables.states[task]
    ensures task in worlds[j].tables.states && worlds[j].tables.states[task] == worlds[i].tables.states[task]
    ensures task in worlds[i].history && task in worlds[j].history && worlds[j].history[task] == worlds[i].history[task]
  {
    hide Run, GoodLog;
    RunIsConsistent(worlds, builds, i);
    RunIsConsistent(worlds, builds, k);
    var first, last := worlds[i].history[task], worlds[k].history[task];
    assert Logged(worlds[i].tables, task, first) && Logged(worlds[k].tables, task, last);
    HistoryGrows(worlds, builds, i, k, task);
    LogNeverRepeats(last, task, |first| - 1, |last| - 1);
    HistoryGrows(worlds, builds, i, j, task);
    HistoryGrows(worlds, builds, j, k, task);
    RunIsConsistent(worlds, builds, j);
    assert Logged(worlds[j].tables, task, worlds[j].history[task]);
  }
}
