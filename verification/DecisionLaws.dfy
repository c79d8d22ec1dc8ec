/** The decision protocol: what the files and the log say about each other in every reachable state. */
module DecisionLaws {
  import opened Results
  import opened Stages
  import opened Audit
  import opened Store
  import opened Lineage
  import opened LineageLaws
  import opened TaskLog
  import opened Decisions
  import opened Engine
  import opened EngineInvariant
  import opened EngineSteps
  import opened PauseResume
  import Policy

  /** The pause named by this identity was committed. */
  predicate PauseCommitted(h: History, id: Id) {
    && id.Derived? && id.task in h && 0 < id.sequence <= |h[id.task]|
    && h[id.task][id.sequence - 1].body.target == Some(WaitingHuman)
  }

  /** The listing can read every file it looks at. */
  predicate FilesWhole(q: Queue) {
    forall id :: id in q.pending ==> q.pending[id].Whole? && (id in q.resolved ==> q.resolved[id].Whole?)
  }

  // Reading the store in a reachable state.

  lemma StateReads(bundle: Policy.Bundle, s: System, task: string)
    requires Safe(bundle, s) && task in s.history
    ensures task in s.tables.states && s.tables.states[task] == StateOf(Last(s.history[task]))
    ensures ReadState(s.tables, task) == Success(s.tables.states[task])
    ensures LineageOf(EngineWalker, s.tables, s.tables.states[task]) == Some(s.history[task])
  {
    hide Safe, GoodLog, Gated, Filed, LineageOf, ValidEvent;
    TaskIsLogged(bundle, s, task);
    var log := s.history[task];
    LineageIsTheLog(EngineWalker, s.tables, task, log);
    LogEntry(log, task, |log| - 1);
    StateOfFits(Last(log));
  }

  lemma AllStatesRead(bundle: Policy.Bundle, s: System)
    requires Safe(bundle, s)
    ensures StatesReadable(s.tables)
  {
    hide Safe, ReadState, LineageOf, StateOf;
    forall task | task in s.tables.states ensures ReadState(s.tables, task).Success? {
      StateIsInHistory(bundle, s, task);
      StateReads(bundle, s, task);
    }
  }

  /** A resolution is committed exactly when an event of its task embeds it. */
  lemma CommittedMeansEmbedded(bundle: Policy.Bundle, s: System, x: Resolution)
    requires Safe(bundle, s) && x.task in s.history
    ensures CommittedResolution(s.tables, x) == Some(exists e :: e in s.history[x.task] && Embeds(e, x))
  {
    hide Safe, LineageOf, CommittedResolution, StateOf, ReadState;
    StateReads(bundle, s, x.task);
    ResolutionIsInTheLineage(s.tables, s.tables.states[x.task], s.history[x.task], x);
  }

  /** An embedded resolution belongs to the pause just before its event. */
  lemma EmbeddedNamesItsPause(bundle: Policy.Bundle, s: System, task: string, i: nat, x: Resolution)
    requires Safe(bundle, s) && task in s.history && i < |s.history[task]| && Embeds(s.history[task][i], x)
    ensures i > 0 && x.decisionId == WaitId(task, i) && PauseCommitted(s.history, x.decisionId)
    ensures x.decisionId in s.queue.resolved && s.queue.resolved[x.decisionId] == Whole(x)
  {
    hide Safe, GoodLog, Gated;
    TaskIsLogged(bundle, s, task);
    var log := s.history[task];
    CreationHasNoDecision(log, task);
    assert ResumeFiled(s.queue, task, log, i);
  }

  lemma CreationHasNoDecision(log: seq<Event>, task: string)
    requires log != [] && GoodLog(log, task)
    ensures log[0].body.decision == None
  {
    assert LogEvent(log, 0, Origin(task, log[0].body.project, 1));
  }

  /** A committed pause that is no longer the end of its log was resumed, with its resolution on file. */
  lemma EarlierPauseWasResumed(bundle: Policy.Bundle, s: System, task: string, n: nat)
    requires Safe(bundle, s) && task in s.history && 0 < n < |s.history[task]|
    requires s.history[task][n - 1].body.target == Some(WaitingHuman)
    ensures var d := s.history[task][n].body.decision;
            && d.Some? && d.value.embedded.Some?
            && WaitId(task, n) in s.queue.resolved && s.queue.resolved[WaitId(task, n)] == Whole(d.value.embedded.value)
            && Embeds(s.history[task][n], d.value.embedded.value)
  {
    hide Safe, GoodLog, Gated;
    TaskIsLogged(bundle, s, task);
    var log := s.history[task];
    LogShape(log, task, n);
    assert ResumeFiled(s.queue, task, log, n);
    assert StateOf(log[n - 1]).current == WaitingHuman;
  }

  // One pending file.

  /** The listing skips a decision exactly when its pause was committed and is over. */
  lemma ExamineMeans(bundle: Policy.Bundle, s: System, id: Id)
    requires Safe(bundle, s) && id in s.queue.pending && s.queue.pending[id].Whole?
    requires id in s.queue.resolved ==> s.queue.resolved[id].Whole?
    ensures id.Derived? && id.kind == DecisionKind && id.task in s.history && s.queue.pending[id].record.decisionId == id
    ensures s.queue.pending[id].record.task == id.task
    ensures Examine(s.queue, s.tables, id)
         == if PauseCommitted(s.history, id) && id.sequence < |s.history[id.task]| then Skipped else Kept(s.queue.pending[id].record)
  {
    hide Safe, CommittedResolution, Embeds;
    SafeQueue(bundle, s);
    var task, n := id.task, id.sequence;
    assert id == WaitId(task, n);
    if id in s.queue.resolved {
      var x := s.queue.resolved[id].record;
      CommittedMeansEmbedded(bundle, s, x);
      hide QueueSound, PauseCommitted;
      if e :| e in s.history[task] && Embeds(e, x) {
        var i :| 0 <= i < |s.history[task]| && s.history[task][i] == e;
        EmbeddedNamesItsPause(bundle, s, task, i, x);
        assert i == n;
      }
    }
    if PauseCommitted(s.history, id) && n < |s.history[task]| {
      CommittedPauseIsOver(bundle, s, id);
    }
  }

  lemma CommittedPauseIsOver(bundle: Policy.Bundle, s: System, id: Id)
    requires Safe(bundle, s) && PauseCommitted(s.history, id) && id.kind == DecisionKind && id.sequence < |s.history[id.task]|
    ensures id in s.queue.resolved && s.queue.resolved[id].Whole?
    ensures exists e :: e in s.history[id.task] && Embeds(e, s.queue.resolved[id].record)
  {
    hide Safe, Embeds;
    EarlierPauseWasResumed(bundle, s, id.task, id.sequence);
    assert s.history[id.task][id.sequence] in s.history[id.task];
    assert id == WaitId(id.task, id.sequence);
  }

  // The laws.

  /** Each waiting task has its request on file, and no resolution of it has been committed. */
  lemma WaitingTasksAreFiled(bundle: Policy.Bundle, s: System, task: string)
    requires Reachable(bundle, s) && task in s.tables.states && s.tables.states[task].current == WaitingHuman
    ensures s.tables.states[task].pending.Some?
    ensures var id := s.tables.states[task].pending.value;
            && id in s.queue.pending && s.queue.pending[id].Whole?
            && s.queue.pending[id].record.decisionId == id && s.queue.pending[id].record.task == task
            && s.queue.pending[id].record.project == s.tables.states[task].project
            && (forall x: Resolution :: x.decisionId == id ==> CommittedResolution(s.tables, x) != Some(true))
  {
    hide Reachable, Safe, GoodLog, Gated, CommittedResolution, Embeds;
    ReachableIsSafe(bundle, s);
    StateIsInHistory(bundle, s, task);
    TaskIsLogged(bundle, s, task);
    var log, id := s.history[task], WaitId(task, |s.history[task]|);
    LogEntry(log, task, |log| - 1);
    LogShape(log, task, |log| - 1);
    hide ValidEvent;
    assert PauseFiled(s.queue, task, log, |log|);
    forall x: Resolution | x.decisionId == id ensures CommittedResolution(s.tables, x) != Some(true) {
      UncommittedResolution(bundle, s, x, task, |log|);
    }
  }

  lemma UncommittedResolution(bundle: Policy.Bundle, s: System, x: Resolution, task: string, n: nat)
    requires Safe(bundle, s) && task in s.history && x.decisionId == WaitId(task, n) && n >= |s.history[task]|
    ensures CommittedResolution(s.tables, x) != Some(true)
  {
    hide Safe, Embeds, LineageOf;
    if x.task in s.history {
      CommittedMeansEmbedded(bundle, s, x);
      if e :| e in s.history[x.task] && Embeds(e, x) {
        var i :| 0 <= i < |s.history[x.task]| && s.history[x.task][i] == e;
        EmbeddedNamesItsPause(bundle, s, x.task, i, x);
      }
    } else if x.task in s.tables.states {
      StateIsInHistory(bundle, s, x.task);
    }
  }

  /** Each committed resume has its resolved file, equal to the record it embeds, and the store knows it. */
  lemma ResumesAreOnFile(bundle: Policy.Bundle, s: System, task: string, i: nat)
    requires Reachable(bundle, s) && task in s.history && i < |s.history[task]| && s.history[task][i].body.decision.Some?
    ensures var d := s.history[task][i].body.decision.value;
            && d.embedded.Some? && d.embedded.value.task == task
            && d.decisionId in s.queue.resolved && s.queue.resolved[d.decisionId] == Whole(d.embedded.value)
            && d.decisionId in s.queue.pending && s.queue.pending[d.decisionId].Whole?
            && Answers(d.embedded.value, s.queue.pending[d.decisionId].record)
            && CommittedResolution(s.tables, d.embedded.value) == Some(true)
  {
    hide Reachable, Safe, GoodLog, Gated, CommittedResolution, Answers;
    ReachableIsSafe(bundle, s);
    TaskIsLogged(bundle, s, task);
    var log := s.history[task];
    CreationHasNoDecision(log, task);
    assert ResumeFiled(s.queue, task, log, i);
    var x := log[i].body.decision.value.embedded.value;
    SafeQueue(bundle, s);
    assert RequestFor(s.queue, x).Some?;
    DecisionIsOfItsTask(log, task, i);
    assert log[i] in log && Embeds(log[i], x);
    CommittedMeansEmbedded(bundle, s, x);
  }

  lemma DecisionIsOfItsTask(log: seq<Event>, task: string, i: nat)
    requires GoodLog(log, task) && 0 < i < |log| && log[i].body.decision.Some? && log[i].body.decision.value.embedded.Some?
    ensures log[i].body.decision.value.embedded.value.task == task
  {
    assert LogEvent(log, i, Origin(task, log[0].body.project, 1));
  }

  // The listing.

  lemma {:induction false} CollectedInOrder(q: Queue, t: Tables, names: seq<Id>, i: nat)
    requires Collect(q, t, names).Some? && i < |Collect(q, t, names).value|
    ensures exists a :: 0 <= a < |names| && Examine(q, t, names[a]) == Kept(Collect(q, t, names).value[i])
  {
    hide Examine;
    var records := Collect(q, t, names).value;
    var earlier := Collect(q, t, DropLast(names)).value;
    if i < |earlier| {
      CollectedInOrder(q, t, DropLast(names), i);
      var a :| 0 <= a < |DropLast(names)| && Examine(q, t, DropLast(names)[a]) == Kept(earlier[i]);
      assert Examine(q, t, names[a]) == Kept(records[i]);
    } else {
      assert Examine(q, t, names[|names| - 1]) == Kept(records[i]);
    }
  }

  /** Distinct files give distinct records when each is filed under its own identity. */
  lemma {:induction false} CollectedOnce(q: Queue, t: Tables, names: seq<Id>, i: nat, j: nat)
    requires Collect(q, t, names).Some? && i < j < |Collect(q, t, names).value|
    requires forall a, b :: 0 <= a < b < |names| ==> names[a] != names[b]
    requires forall a :: 0 <= a < |names| && Examine(q, t, names[a]).Kept? ==> Examine(q, t, names[a]).request.decisionId == names[a]
    ensures Collect(q, t, names).value[i].decisionId != Collect(q, t, names).value[j].decisionId
  {
    hide Examine;
    var rest := DropLast(names);
    var records, earlier := Collect(q, t, names).value, Collect(q, t, rest).value;
    assert forall a :: 0 <= a < |rest| ==> rest[a] == names[a];
    if j < |earlier| {
      CollectedOnce(q, t, rest, i, j);
    } else {
      CollectedInOrder(q, t, rest, i);
      var a :| 0 <= a < |rest| && Examine(q, t, rest[a]) == Kept(earlier[i]);
      assert names[a] != names[|names| - 1];
    }
  }

  /** Whatever is listed, every waiting task is covered by the request it waits for. */
  lemma ListingCoversWaiting(bundle: Policy.Bundle, s: System, names: seq<Id>, task: string)
    requires Reachable(bundle, s) && Listing(names, s.queue) && Collect(s.queue, s.tables, names).Some?
    requires task in Waiting(s.tables)
    ensures exists r :: r in Collect(s.queue, s.tables, names).value && r.task == task && r.decisionId == Waiting(s.tables)[task]
  {
    hide Reachable, Examine, Safe, CommittedResolution;
    WaitingTasksAreFiled(bundle, s, task);
    ReachableIsSafe(bundle, s);
    var id := Waiting(s.tables)[task];
    CollectKeeps(s.queue, s.tables, names);
    var a :| 0 <= a < |names| && names[a] == id;
    assert Examine(s.queue, s.tables, names[a]) != Unreadable;
    WaitingIsKept(bundle, s, task, id);
    assert Examine(s.queue, s.tables, names[a]) == Kept(s.queue.pending[id].record);
  }

  lemma WaitingIsKept(bundle: Policy.Bundle, s: System, task: string, id: Id)
    requires Safe(bundle, s) && task in Waiting(s.tables) && id == Waiting(s.tables)[task]
    requires id in s.queue.pending && s.queue.pending[id].Whole? && Examine(s.queue, s.tables, id) != Unreadable
    ensures Examine(s.queue, s.tables, id) == Kept(s.queue.pending[id].record)
    ensures id.task == task && PauseCommitted(s.history, id) && id.sequence == |s.history[task]|
  {
    hide Safe, CommittedResolution, GoodLog, Gated, Filed;
    StateIsInHistory(bundle, s, task);
    TaskIsLogged(bundle, s, task);
    var log := s.history[task];
    LogEntry(log, task, |log| - 1);
    LogShape(log, task, |log| - 1);
    hide ValidEvent;
    SafeQueue(bundle, s);
    QueueKey(s.queue, s.history, id);
    ExamineMeans(bundle, s, id);
  }

  lemma QueueKey(q: Queue, h: History, id: Id)
    requires QueueSound(q, h) && id in q.pending && q.pending[id].Whole?
    ensures q.pending[id].record.decisionId == id
  {
  }

  /** The listing succeeds exactly when every file it reads was written out and every pause on file was
      committed; it then lists the waiting tasks, no more and no fewer. */
  lemma ListPendingExactly(bundle: Policy.Bundle, s: System, names: seq<Id>)
    requires Reachable(bundle, s) && Listing(names, s.queue)
    ensures ListPending(s.queue, s.tables, names).Some?
       <==> FilesWhole(s.queue) && forall id :: id in s.queue.pending ==> PauseCommitted(s.history, id)
    ensures ListPending(s.queue, s.tables, names).Some? ==>
              MatchesWaiting(ListPending(s.queue, s.tables, names).value, Waiting(s.tables))
  {
    hide Reachable, Safe, Examine, MatchesWaiting, PauseCommitted, Waiting, Collect, StatesReadable;
    ReachableIsSafe(bundle, s);
    AllStatesRead(bundle, s);
    if FilesWhole(s.queue) && forall id :: id in s.queue.pending ==> PauseCommitted(s.history, id) {
      CommittedQueueMatches(bundle, s, names);
    }
    if ListPending(s.queue, s.tables, names).Some? {
      ReadableFilesAreWhole(bundle, s, names);
      forall id | id in s.queue.pending ensures PauseCommitted(s.history, id) {
        MatchedPauseIsCommitted(bundle, s, names, id);
      }
    }
  }

  lemma ReadableFilesAreWhole(bundle: Policy.Bundle, s: System, names: seq<Id>)
    requires Safe(bundle, s) && Listing(names, s.queue) && Collect(s.queue, s.tables, names).Some?
    ensures FilesWhole(s.queue)
  {
    hide Safe, CommittedResolution, Collect, Answers;
    CollectKeeps(s.queue, s.tables, names);
    SafeQueue(bundle, s);
    forall id | id in s.queue.pending ensures s.queue.pending[id].Whole? && (id in s.queue.resolved ==> s.queue.resolved[id].Whole?) {
      var a :| 0 <= a < |names| && names[a] == id;
      assert Examine(s.queue, s.tables, names[a]) != Unreadable;
    }
  }

  lemma MatchedPauseIsCommitted(bundle: Policy.Bundle, s: System, names: seq<Id>, id: Id)
    requires Safe(bundle, s) && Listing(names, s.queue) && FilesWhole(s.queue)
    requires ListPending(s.queue, s.tables, names).Some? && id in s.queue.pending
    ensures PauseCommitted(s.history, id)
  {
    hide Safe, Examine, CommittedResolution, Collect, PauseCommitted;
    ExamineMeans(bundle, s, id);
    if !PauseCommitted(s.history, id) {
      var records := Collect(s.queue, s.tables, names).value;
      CollectKeeps(s.queue, s.tables, names);
      var a :| 0 <= a < |names| && names[a] == id;
      var r := s.queue.pending[id].record;
      assert Examine(s.queue, s.tables, names[a]) == Kept(r);
      assert r in records;
      var i :| 0 <= i < |records| && records[i] == r;
      assert r.task in Waiting(s.tables) && Waiting(s.tables)[r.task] == id;
      WaitingIsCommitted(bundle, s, r.task);
    }
  }

  lemma WaitingIsCommitted(bundle: Policy.Bundle, s: System, task: string)
    requires Safe(bundle, s) && task in Waiting(s.tables)
    ensures PauseCommitted(s.history, Waiting(s.tables)[task])
    ensures Waiting(s.tables)[task] == WaitId(task, |s.history[task]|) && task in s.history
  {
    hide Safe, GoodLog, Gated, Filed;
    StateIsInHistory(bundle, s, task);
    TaskIsLogged(bundle, s, task);
    var log := s.history[task];
    LogEntry(log, task, |log| - 1);
    LogShape(log, task, |log| - 1);
    hide ValidEvent;
  }

  lemma CommittedAndOpenIsWaiting(bundle: Policy.Bundle, s: System, id: Id)
    requires Safe(bundle, s) && PauseCommitted(s.history, id) && id.sequence == |s.history[id.task]|
    requires id.kind == DecisionKind
    ensures id.task in Waiting(s.tables) && Waiting(s.tables)[id.task] == id
  {
    hide Safe, LineageOf;
    StateReads(bundle, s, id.task);
    TaskIsLogged(bundle, s, id.task);
    hide GoodLog, Gated, Filed;
    var log := s.history[id.task];
    LogEntry(log, id.task, |log| - 1);
    LogShape(log, id.task, |log| - 1);
  }

  /** When every pause on file was committed, the kept records are exactly the waiting tasks. */
  lemma CommittedQueueMatches(bundle: Policy.Bundle, s: System, names: seq<Id>)
    requires Safe(bundle, s) && Listing(names, s.queue) && FilesWhole(s.queue) && StatesReadable(s.tables)
    requires forall id :: id in s.queue.pending ==> PauseCommitted(s.history, id)
    ensures ListPending(s.queue, s.tables, names).Some?
  {
    hide Safe, Examine, Collect, PauseCommitted, Waiting, StatesReadable;
    forall a | 0 <= a < |names| ensures Examine(s.queue, s.tables, names[a]) != Unreadable {
      ExamineMeans(bundle, s, names[a]);
    }
    CollectKeeps(s.queue, s.tables, names);
    var records := Collect(s.queue, s.tables, names).value;
    forall i | 0 <= i < |records|
      ensures records[i].task in Waiting(s.tables) && Waiting(s.tables)[records[i].task] == records[i].decisionId
    {
      KeptIsWaiting(bundle, s, names, i);
    }
    forall i, j | 0 <= i < j < |records| ensures records[i].task != records[j].task {
      KeptOnce(bundle, s, names, i, j);
    }
    forall task | task in Waiting(s.tables) ensures exists i :: 0 <= i < |records| && records[i].task == task {
      WaitingIsListed(bundle, s, names, task);
    }
  }

  lemma KeptIsWaiting(bundle: Policy.Bundle, s: System, names: seq<Id>, i: nat)
    requires Safe(bundle, s) && Listing(names, s.queue) && FilesWhole(s.queue)
    requires forall id :: id in s.queue.pending ==> PauseCommitted(s.history, id)
    requires Collect(s.queue, s.tables, names).Some? && i < |Collect(s.queue, s.tables, names).value|
    ensures var r := Collect(s.queue, s.tables, names).value[i];
            r.task in Waiting(s.tables) && Waiting(s.tables)[r.task] == r.decisionId
  {
    hide Safe, Examine, Collect, Waiting;
    CollectedInOrder(s.queue, s.tables, names, i);
    var r := Collect(s.queue, s.tables, names).value[i];
    var a :| 0 <= a < |names| && Examine(s.queue, s.tables, names[a]) == Kept(r);
    var id := names[a];
    ExamineMeans(bundle, s, id);
    assert PauseCommitted(s.history, id);
    CommittedAndOpenIsWaiting(bundle, s, id);
  }

  lemma KeptOnce(bundle: Policy.Bundle, s: System, names: seq<Id>, i: nat, j: nat)
    requires Safe(bundle, s) && Listing(names, s.queue) && FilesWhole(s.queue)
    requires forall id :: id in s.queue.pending ==> PauseCommitted(s.history, id)
    requires Collect(s.queue, s.tables, names).Some? && i < j < |Collect(s.queue, s.tables, names).value|
    ensures Collect(s.queue, s.tables, names).value[i].task != Collect(s.queue, s.tables, names).value[j].task
  {
    hide Safe, Examine, Collect, Waiting, PauseCommitted;
    forall a | 0 <= a < |names| && Examine(s.queue, s.tables, names[a]).Kept?
      ensures Examine(s.queue, s.tables, names[a]).request.decisionId == names[a]
    {
      ExamineMeans(bundle, s, names[a]);
    }
    CollectedOnce(s.queue, s.tables, names, i, j);
    KeptIsWaiting(bundle, s, names, i);
    KeptIsWaiting(bundle, s, names, j);
  }

  lemma WaitingIsListed(bundle: Policy.Bundle, s: System, names: seq<Id>, task: string)
    requires Safe(bundle, s) && Listing(names, s.queue) && Collect(s.queue, s.tables, names).Some? && task in Waiting(s.tables)
    requires FilesWhole(s.queue)
    ensures exists i :: 0 <= i < |Collect(s.queue, s.tables, names).value| && Collect(s.queue, s.tables, names).value[i].task == task
  {
    hide Safe, Examine, Collect, Waiting, PauseCommitted;
    WaitingIsCommitted(bundle, s, task);
    var id := Waiting(s.tables)[task];
    PauseIsFiled(bundle, s, task);
    CollectKeeps(s.queue, s.tables, names);
    var a :| 0 <= a < |names| && names[a] == id;
    WaitingIsKept(bundle, s, task, id);
    var records := Collect(s.queue, s.tables, names).value;
    assert Examine(s.queue, s.tables, names[a]) == Kept(s.queue.pending[id].record);
    assert s.queue.pending[id].record in records;
    ExamineMeans(bundle, s, id);
  }

  lemma PauseIsFiled(bundle: Policy.Bundle, s: System, task: string)
    requires Safe(bundle, s) && task in Waiting(s.tables)
    ensures Waiting(s.tables)[task] in s.queue.pending
  {
    hide Safe, GoodLog, Gated, Waiting;
    WaitingIsCommitted(bundle, s, task);
    TaskIsLogged(bundle, s, task);
    assert PauseFiled(s.queue, task, s.history[task], |s.history[task]|);
  }
}
