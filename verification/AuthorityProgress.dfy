/** What a process running alone can do from any reachable state: which free tasks it can lock, how a failed
    release is made good, and when the reconcile of a connection refuses. */
module AuthorityProgress {
  import opened Results
  import opened Authority
  import opened AuthorityLaws
  import opened LockLaws
  import opened RegisterLaws

  function Solo(s: System, p: Pid, actions: seq<Action>): Option<System>
    decreases |actions|
  {
    if actions == [] then Some(s)
    else
      match Act(s, p, actions[0])
      case None => None
      case Some(next) => Solo(next, p, actions[1..])
  }

  lemma {:induction false} SoloJoins(s: System, p: Pid, first: seq<Action>, second: seq<Action>)
    requires Solo(s, p, first).Some?
    ensures Solo(s, p, first + second) == Solo(Solo(s, p, first).value, p, second)
    decreases |first|
  {
    hide Act;
    if first == [] {
      assert first + second == second;
    } else {
      SoloJoins(Act(s, p, first[0]).value, p, first[1..], second);
      assert (first + second)[1..] == first[1..] + second;
    }
  }

  lemma {:induction false} SoloIsReachable(s: System, p: Pid, actions: seq<Action>)
    requires Reachable(s) && Solo(s, p, actions).Some?
    ensures Reachable(Solo(s, p, actions).value)
    decreases |actions|
  {
    hide Act, Reachable;
    if actions != [] {
      ReachableStep(s, p, actions[0]);
      SoloIsReachable(Act(s, p, actions[0]).value, p, actions[1..]);
    }
  }

  lemma AtTwice(s: System, p: Pid, first: Phase, second: Phase)
    ensures At(At(s, p, first), p, second) == At(s, p, second)
    ensures PhaseOf(At(s, p, first), p) == first
  {
    assert s.phases[p := first][p := second] == s.phases[p := second];
  }

  function Level(s: System): System { s.(marker := Actual(s)) }

  /** The three looks outside a transaction, undisturbed, see the database as it is. */
  lemma ReadsAlone(s: System, p: Pid, goal: Goal)
    requires PhaseOf(s, p) == Reading(goal)
    ensures Solo(s, p, [ReadGeneration, ReadRow, ReadLocks]) == Some(At(s, p, HasDigest(goal, Actual(s))))
  {
    var g := s.generation;
    var s1, s2 := At(s, p, HasGeneration(goal, g)), At(s, p, HasRow(goal, g, g));
    var s3 := At(s, p, HasDigest(goal, Actual(s)));
    AtTwice(s, p, HasGeneration(goal, g), HasRow(goal, g, g));
    AtTwice(s, p, HasRow(goal, g, g), HasDigest(goal, Actual(s)));
    assert Act(s, p, ReadGeneration) == Some(s1);
    assert Act(s1, p, ReadRow) == Some(s2);
    assert Act(s2, p, ReadLocks) == Some(s3);
    hide Act, At;
    assert Solo(s2, p, [ReadLocks]) == Some(s3);
    assert [ReadRow, ReadLocks][1..] == [ReadLocks];
    assert Solo(s1, p, [ReadRow, ReadLocks]) == Some(s3);
    assert [ReadGeneration, ReadRow, ReadLocks][1..] == [ReadRow, ReadLocks];
  }

  /** A connection alone ends connected, with the marker brought level. */
  lemma ConnectAlone(s: System, p: Pid, op: Op) returns (actions: seq<Action>)
    requires PhaseOf(s, p) == Reading(Connecting(op, s.marker)) && Honest(s, s.marker)
    ensures Solo(s, p, actions) == Some(At(Level(s), p, Connected(op)))
  {
    var goal := Connecting(op, s.marker);
    var looks := [ReadGeneration, ReadRow, ReadLocks];
    ReadsAlone(s, p, goal);
    var read := At(s, p, HasDigest(goal, Actual(s)));
    AtTwice(s, p, HasDigest(goal, Actual(s)), Connected(op));
    AtTwice(s, p, HasDigest(goal, Actual(s)), Refreshing(op, Actual(s)));
    AtTwice(s, p, Refreshing(op, Actual(s)), Connected(op));
    var decisions;
    if s.marker == Actual(s) {
      decisions := [Decide];
      assert Solo(read, p, decisions) == Some(At(s, p, Connected(op)));
      assert Level(s) == s;
    } else {
      decisions := [Decide, Refresh(true)];
      var behind := At(s, p, Refreshing(op, Actual(s)));
      assert Act(read, p, Decide) == Some(behind);
      assert Solo(behind, p, [Refresh(true)]) == Some(At(Level(s), p, Connected(op)));
      assert decisions[1..] == [Refresh(true)];
    }
    SoloJoins(s, p, looks, decisions);
    actions := looks + decisions;
  }

  /** The transaction's opening, with a level marker and nobody else writing. */
  lemma PrepareAlone(s: System, p: Pid, op: Op)
    requires PhaseOf(s, p) == Connected(op) && (op.Acquire? || op.Release?) && s.writer == None && s.marker == Actual(s)
    ensures Solo(s, p, [Begin, ReadMarker, DecideLocked]) == Some(At(s.(writer := Some(p)), p, Prepared(op, Actual(s))))
  {
    var w := s.(writer := Some(p));
    var s1, s2 := At(w, p, InTransaction(op)), At(w, p, HasMarker(op, s.marker));
    AtTwice(w, p, InTransaction(op), HasMarker(op, s.marker));
    AtTwice(w, p, HasMarker(op, s.marker), Prepared(op, Actual(s)));
    assert Act(s, p, Begin) == Some(s1);
    assert Act(s1, p, ReadMarker) == Some(s2);
    assert Act(s2, p, DecideLocked) == Some(At(w, p, Prepared(op, Actual(s))));
    hide Act, At;
    assert [Begin, ReadMarker, DecideLocked][1..] == [ReadMarker, DecideLocked];
    assert [ReadMarker, DecideLocked][1..] == [DecideLocked];
    assert Solo(s2, p, [DecideLocked]).Some?;
  }

  /** The database after an insertion or a deletion, with the write lock given back. */
  function After(s: System, op: Op, locks: map<string, Instance>): System {
    s.(generation := s.generation + 1, locks := locks, writer := None,
       deleted := s.deleted + if op.Release? then {op.instance} else {})
  }

  lemma CommitAlone(s: System, p: Pid, op: Op, locks: map<string, Instance>)
    requires s.writer == None && LocksAfter(s, op) == Some(locks)
    ensures Act(At(s.(writer := Some(p)), p, Prepared(op, Actual(s))), p, Commit)
         == Some(At(After(s, op, locks), p, Reading(ReadingBack(op, Actual(s), Actual(After(s, op, locks))))))
  {
    var w := At(s.(writer := Some(p)), p, Prepared(op, Actual(s)));
    var goal := Reading(ReadingBack(op, Actual(s), Actual(After(s, op, locks))));
    AtTwice(s, p, Prepared(op, Actual(s)), goal);
    assert LocksAfter(w, op) == Some(locks);
  }

  lemma CheckStep(s: System, p: Pid, op: Op, before: Marker)
    requires PhaseOf(s, p) == HasDigest(ReadingBack(op, before, Actual(s)), Actual(s))
    ensures Act(s, p, Decide) == Some(At(s, p, Comparing(op, before, Actual(s))))
  {
  }

  lemma CompareStep(s: System, p: Pid, op: Op)
    requires PhaseOf(s, p) == Comparing(op, s.marker, Actual(s))
    ensures Act(s, p, Compare) == Some(At(s, p, Rewriting(op, Actual(s))))
  {
  }

  lemma PublishStep(s: System, p: Pid, op: Op)
    ensures Act(At(s, p, Rewriting(op, Actual(s))), p, Publish(true)) == Some(Published(Level(s), p, op))
  {
    hide Published;
    AtTwice(s, p, Rewriting(op, Actual(s)), Idle);
    PublishedTwice(s, p, op);
  }

  /** The check after the commit and the publication, undisturbed. */
  lemma PublishAlone(s: System, p: Pid, op: Op, before: Marker)
    requires PhaseOf(s, p) == Reading(ReadingBack(op, before, Actual(s))) && s.marker == before
    ensures Solo(s, p, [ReadGeneration, ReadRow, ReadLocks, Decide, Compare, Publish(true)]) == Some(Published(Level(s), p, op))
  {
    hide Act, At, Published;
    var goal := ReadingBack(op, before, Actual(s));
    var s1, s2, s3 := At(s, p, HasDigest(goal, Actual(s))), At(s, p, Comparing(op, before, Actual(s))), At(s, p, Rewriting(op, Actual(s)));
    ReadsAlone(s, p, goal);
    AtTwice(s, p, HasDigest(goal, Actual(s)), Comparing(op, before, Actual(s)));
    AtTwice(s, p, Comparing(op, before, Actual(s)), Rewriting(op, Actual(s)));
    AtKeepsActual(s, p, HasDigest(goal, Actual(s)));
    AtKeepsActual(s, p, Comparing(op, before, Actual(s)));
    CheckStep(s1, p, op, before);
    CompareStep(s2, p, op);
    PublishStep(s, p, op);
    SoloOne(s1, p, Decide);
    SoloOne(s2, p, Compare);
    SoloOne(s3, p, Publish(true));
    SoloThen(s, p, [ReadGeneration, ReadRow, ReadLocks], s1, [Decide], s2);
    SoloThen(s, p, [ReadGeneration, ReadRow, ReadLocks] + [Decide], s2, [Compare], s3);
    SoloThen(s, p, [ReadGeneration, ReadRow, ReadLocks] + [Decide] + [Compare], s3, [Publish(true)], Published(Level(s), p, op));
    assert [ReadGeneration, ReadRow, ReadLocks] + [Decide] + [Compare] + [Publish(true)]
        == [ReadGeneration, ReadRow, ReadLocks, Decide, Compare, Publish(true)];
  }

  lemma AtKeepsActual(s: System, p: Pid, ph: Phase)
    ensures Actual(At(s, p, ph)) == Actual(s) && At(s, p, ph).marker == s.marker
  {
  }

  lemma PublishedTwice(s: System, p: Pid, op: Op)
    ensures Published(Written(At(s, p, Rewriting(op, Actual(s))), true, Actual(s)), p, op) == Published(Level(s), p, op)
  {
    forall ph { AtTwice(s, p, Rewriting(op, Actual(s)), ph); }
  }

  lemma SoloThen(s: System, p: Pid, actions: seq<Action>, t: System, more: seq<Action>, u: System)
    requires Solo(s, p, actions) == Some(t) && Solo(t, p, more) == Some(u)
    ensures Solo(s, p, actions + more) == Some(u)
  {
    SoloJoins(s, p, actions, more);
  }

  lemma SoloOne(s: System, p: Pid, a: Action)
    requires Act(s, p, a).Some?
    ensures Solo(s, p, [a]) == Act(s, p, a)
  {
    hide Act;
    assert [a][1..] == [];
  }

  /** From the start of an operation to the moment after its commit. */
  lemma TransactAlone(s: System, p: Pid, op: Op, locks: map<string, Instance>) returns (actions: seq<Action>, t: System)
    requires Honest(s, s.marker) && s.writer == None && MayStart(s, p, op) && LocksAfter(s, op) == Some(locks)
    ensures Solo(s, p, actions) == Some(t) && actions != [] && actions[0] == Start(op)
    ensures var issued := Started(s, p, op).issued;
            var level := Level(s.(issued := issued));
            t == At(After(level, op, locks), p, Reading(ReadingBack(op, Actual(s), Actual(t))))
  {
    var s1 := Started(s, p, op);
    var base := Level(s.(issued := s1.issued));
    var s2 := At(base, p, Connected(op));
    var s3 := At(base.(writer := Some(p)), p, Prepared(op, Actual(s)));
    var connect := ConnectAlone(s1, p, op);
    AtTwice(base, p, Reading(Connecting(op, s.marker)), Connected(op));
    assert Level(s1) == At(base, p, Reading(Connecting(op, s.marker)));
    SoloOne(s, p, Start(op));
    SoloThen(s, p, [Start(op)], s1, connect, s2);
    PrepareAlone(s2, p, op);
    AtTwice(base.(writer := Some(p)), p, Connected(op), Prepared(op, Actual(s)));
    assert At(s2.(writer := Some(p)), p, Prepared(op, Actual(s))) == s3;
    actions := [Start(op)] + connect + [Begin, ReadMarker, DecideLocked];
    SoloThen(s, p, [Start(op)] + connect, s2, [Begin, ReadMarker, DecideLocked], s3);
    CommitAlone(base, p, op, locks);
    t := Act(s3, p, Commit).value;
    SoloOne(s3, p, Commit);
    SoloThen(s, p, actions, s3, [Commit], t);
    actions := actions + [Commit];
  }

  lemma NewInstanceIsUndeleted(s: System, i: Instance)
    requires Reachable(s) && i !in s.issued
    ensures i !in s.deleted
  {
    hide Reachable;
    ReachableIsLocksSafe(s);
  }

  /** In every reachable state in which nobody is writing, an idle process that has no unreleased object of a
      free task can lock it, whatever the marker has missed; afterwards its object guards the task and the
      marker is level. */
  lemma LockFreeTask(s: System, p: Pid, task: string, i: Instance) returns (actions: seq<Action>, t: System)
    requires Reachable(s) && s.writer == None && PhaseOf(s, p) == Idle && i !in s.issued && task !in s.locks
    requires (p, task) !in s.held
    ensures Attempts(actions, task, i) && Solo(s, p, actions) == Some(t) && Reachable(t)
    ensures PhaseOf(t, p) == Holding(task, i, None) && Guards(t, i) && IssuedTo(t, p, task, i)
    ensures t.locks == s.locks[task := i] && t.marker == Actual(t) && t.generation == s.generation + 1 && t.writer == None
    ensures t.objects == s.objects + {i} && t.deleted == s.deleted && t.issued == s.issued[i := Issue(task, p)]
    ensures t.held == s.held + {(p, task)} && t.phases == s.phases[p := Holding(task, i, None)]
  {
    hide Act, Reachable, Solo, Honest;
    ReachableMarkerIsHonest(s);
    NewInstanceIsUndeleted(s, i);
    var op := Acquire(task, i);
    var first, s4 := TransactAlone(s, p, op, s.locks[task := i]);
    PublishAlone(s4, p, op, Actual(s));
    var publish := [ReadGeneration, ReadRow, ReadLocks, Decide, Compare, Publish(true)];
    var s5 := Published(Level(s4), p, op);
    SoloThen(s, p, first, s4, publish, s5);
    var confirmed := ConfirmAlone(s5, p, task, i);
    t := At(s5.(objects := s5.objects + {i}, held := s5.held + {(p, task)}), p, Holding(task, i, None));
    actions := first + publish + confirmed;
    SoloThen(s, p, first + publish, s5, confirmed, t);
    SoloIsReachable(s, p, actions);
  }

  /** A run that begins with one call for the lock. */
  predicate Attempts(actions: seq<Action>, task: string, i: Instance) {
    actions != [] && actions[0] == Start(Acquire(task, i))
  }

  /** The call, undisturbed, ends with the lock. */
  predicate Locks(s: System, p: Pid, task: string, i: Instance, actions: seq<Action>) {
    && Attempts(actions, task, i)
    && Solo(s, p, actions).Some? && PhaseOf(Solo(s, p, actions).value, p) == Holding(task, i, None)
  }

  lemma RegisteredIsRefused(s: System, p: Pid, task: string, i: Instance, actions: seq<Action>)
    requires (p, task) in s.held && Attempts(actions, task, i)
    ensures Solo(s, p, actions) == None
  {
  }

  /** In every reachable state in which nobody is writing, an idle process running alone can lock a free task
      if and only if it has no unreleased lock object of that task. */
  lemma FreeTaskCanBeLocked(s: System, p: Pid, task: string, i: Instance)
    requires Reachable(s) && s.writer == None && PhaseOf(s, p) == Idle && i !in s.issued && task !in s.locks
    ensures (exists actions :: Locks(s, p, task, i, actions)) <==> !Unreleased(s, p, task)
  {
    hide Act, Reachable, Solo;
    RegisterIsExact(s, p, task, i, i);
    if Unreleased(s, p, task) {
      forall actions ensures !Locks(s, p, task, i, actions) {
        if Attempts(actions, task, i) { RegisteredIsRefused(s, p, task, i, actions); }
      }
    } else {
      var actions, t := LockFreeTask(s, p, task, i);
      assert Locks(s, p, task, i, actions);
    }
  }

  /** A release that failed, before or after its commit, can always be called again: alone it completes, its
      row goes if it is still there, and the process can try for the task again. */
  lemma RetriedReleaseCompletes(s: System, p: Pid, task: string, i: Instance) returns (actions: seq<Action>, t: System)
    requires Reachable(s) && s.writer == None && PhaseOf(s, p) == Idle && i in s.objects && IssuedTo(s, p, task, i)
    ensures Solo(s, p, actions) == Some(t) && Reachable(t) && PhaseOf(t, p) == Idle && t.writer == None && t.marker == Actual(t)
    ensures t.objects == s.objects - {i} && !Unreleased(t, p, task)
    ensures t.locks == if Row(s, task, i) then s.locks - {task} else s.locks
  {
    hide Act, Reachable, Solo;
    ReachableMarkerIsHonest(s);
    var op := Release(task, i);
    var locks := if Row(s, task, i) then s.locks - {task} else s.locks;
    var first, s4 := TransactAlone(s, p, op, locks);
    PublishAlone(s4, p, op, Actual(s));
    var publish := [ReadGeneration, ReadRow, ReadLocks, Decide, Compare, Publish(true)];
    t := Published(Level(s4), p, op);
    SoloThen(s, p, first, s4, publish, t);
    actions := first + publish;
    SoloIsReachable(s, p, actions);
    RegisterIsExact(t, p, task, i, i);
  }

  /** The second connection, after the commit: the row is there, and the caller gets its object. */
  lemma ConfirmAlone(s: System, p: Pid, task: string, i: Instance) returns (actions: seq<Action>)
    requires PhaseOf(s, p) == Reopening(task, i) && Row(s, task, i) && s.marker == Actual(s)
    ensures Solo(s, p, actions) == Some(At(s.(objects := s.objects + {i}, held := s.held + {(p, task)}), p, Holding(task, i, None)))
  {
    hide Act, Solo;
    var confirm := Confirm(task, i);
    var s1, s2 := At(s, p, Reading(Connecting(confirm, s.marker))), At(s, p, Connected(confirm));
    ReopenStep(s, p, task, i);
    var again := ConnectAlone(s1, p, confirm);
    AtTwice(s, p, Reading(Connecting(confirm, s.marker)), Connected(confirm));
    assert Level(s1) == s1;
    SoloThen(s, p, [Reopen], s1, again, s2);
    FinishStep(s2, p, task, i);
    var locked := s.(objects := s.objects + {i}, held := s.held + {(p, task)});
    var t := At(locked, p, Holding(task, i, None));
    AtTwice(locked, p, Connected(confirm), Holding(task, i, None));
    assert At(s2.(objects := s2.objects + {i}, held := s2.held + {(p, task)}), p, Holding(task, i, None)) == t;
    SoloThen(s, p, [Reopen] + again, s2, [Finish], t);
    actions := [Reopen] + again + [Finish];
  }

  lemma ReachableMarkerIsHonest(s: System)
    requires Reachable(s)
    ensures Honest(s, s.marker)
  {
    MarkerIsNeverAhead(s);
  }

  lemma ReopenStep(s: System, p: Pid, task: string, i: Instance)
    requires PhaseOf(s, p) == Reopening(task, i)
    ensures Solo(s, p, [Reopen]) == Some(At(s, p, Reading(Connecting(Confirm(task, i), s.marker))))
  {
    SoloOne(s, p, Reopen);
  }

  lemma FinishStep(s: System, p: Pid, task: string, i: Instance)
    requires PhaseOf(s, p) == Connected(Confirm(task, i)) && Row(s, task, i)
    ensures Solo(s, p, [Finish]) == Some(At(s.(objects := s.objects + {i}, held := s.held + {(p, task)}), p, Holding(task, i, None)))
  {
    SoloOne(s, p, Finish);
  }

  lemma ReleaseFailsAfterItsCommit(s: System, p: Pid, task: string, i: Instance) returns (t: System)
    requires Reachable(s) && s.writer == None && PhaseOf(s, p) == Holding(task, i, None) && Row(s, task, i)
    ensures Reachable(t) && t.writer == None && task !in t.locks && t.issued == s.issued && t.held == s.held && PhaseOf(t, p) == Idle
    ensures i in t.objects && t.objects == s.objects && i in t.deleted && t.phases.Keys == s.phases.Keys + {p}
  {
    hide Act, Reachable, Solo;
    ReachableMarkerIsHonest(s);
    ReachableIsLocksSafe(s);
    assert PhaseSound(s, p, PhaseOf(s, p));
    var op := Release(task, i);
    var actions, committed := TransactAlone(s, p, op, s.locks - {task});
    t := Raised(committed, p);
    FailStep(committed, p);
    SoloThen(s, p, actions, committed, [Fail], t);
    SoloIsReachable(s, p, actions + [Fail]);
  }

  lemma FailStep(s: System, p: Pid)
    requires PhaseOf(s, p).Reading?
    ensures Solo(s, p, [Fail]) == Some(Raised(s, p))
  {
    SoloOne(s, p, Fail);
  }

  /** The lock is taken, and the release fails after its commit. */
  lemma FailedRelease(task: string) returns (s: System)
    ensures Reachable(s) && s.writer == None && task !in s.locks && PhaseOf(s, 0) == Idle && PhaseOf(s, 1) == Idle
    ensures s.objects == {0} && 0 in s.deleted && s.issued == map[0 := Issue(task, 0)] && s.held == {(0, task)}
  {
    hide Act, Reachable, Solo;
    InitialIsReachable();
    var _, a := LockFreeTask(Initial(), 0, task, 0);
    s := ReleaseFailsAfterItsCommit(a, 0, task, 0);
  }

  /** A release that fails after its commit: the row is gone and nobody writes, yet the same idle process is
      refused the free task, under whatever instance it asks for it. */
  lemma IdleHolderIsRefused(task: string)
    ensures exists s: System, p: Pid ::
              && Reachable(s) && s.writer == None && PhaseOf(s, p) == Idle && task !in s.locks && Unreleased(s, p, task)
              && forall i: Instance, actions :: !Locks(s, p, task, i, actions)
  {
    hide Act, Reachable, Solo;
    var s := FailedRelease(task);
    assert IssuedTo(s, 0, task, 0);
    forall i: Instance, actions ensures !Locks(s, 0, task, i, actions) {
      if Attempts(actions, task, i) { RegisteredIsRefused(s, 0, task, i, actions); }
    }
  }

  /** A release that fails after its commit: the row is gone, the object is still unreleased, and another
      process takes the lock. Two unreleased objects then exist for one task; only the second guards it. */
  lemma TwoUnreleasedObjects(task: string)
    ensures exists s: System, i: Instance, j: Instance ::
              && Reachable(s) && i != j && i in s.objects && j in s.objects && i in s.issued && j in s.issued
              && s.issued[i].task == task && s.issued[j].task == task
              && !Guards(s, i) && Guards(s, j)
  {
    hide Act, Reachable, Solo;
    var b := FailedRelease(task);
    var _, c := LockFreeTask(b, 1, task, 1);
    assert c.issued[0] == Issue(task, 0) && c.issued[1] == Issue(task, 1);
  }

  lemma InitialIsReachable()
    ensures Reachable(Initial())
  {
    assert Execute([]) == Some(Initial());
  }

  // When the reconcile of a connection refuses.

  lemma {:induction false} OthersKeepMyPhase(s: System, p: Pid, script: seq<(Pid, Action)>)
    requires Reachable(s) && Continue(s, script).Some? && forall k :: 0 <= k < |script| ==> script[k].0 != p
    ensures Reachable(Continue(s, script).value) && PhaseOf(Continue(s, script).value, p) == PhaseOf(s, p)
    decreases |script|
  {
    hide Act, Reachable;
    if script != [] {
      var next := Act(s, script[0].0, script[0].1).value;
      OneStepKeepsOthers(s, script[0].0, script[0].1, p);
      ReachableStep(s, script[0].0, script[0].1);
      OthersKeepMyPhase(next, p, script[1..]);
    }
  }

  lemma OneStepKeepsOthers(s: System, q: Pid, a: Action, p: Pid)
    requires Reachable(s) && Act(s, q, a).Some? && q != p
    ensures PhaseOf(Act(s, q, a).value, p) == PhaseOf(s, p)
  {
    hide Act, MarkerSafe, Execute;
    var script :| Execute(script) == Some(s);
    ReachableIsMarkerSafe(s, script);
    OwnPhase(s, q);
    StepMoves(s, q, a);
  }

  /** A connection reads the generation in one query and the row and the locks in two more, while others go
      on in between. It is refused if and only if the marker it had read was level with the generation it
      then read, and at its later queries the row had moved on or the locks were other ones. */
  lemma ConnectRefusesExactly(s: System, p: Pid, first: seq<(Pid, Action)>, second: seq<(Pid, Action)>)
    requires Reachable(s) && PhaseOf(s, p).Reading? && PhaseOf(s, p).goal.Connecting?
    requires forall k :: 0 <= k < |first| ==> first[k].0 != p
    requires forall k :: 0 <= k < |second| ==> second[k].0 != p
    requires Continue(At(s, p, HasGeneration(PhaseOf(s, p).goal, s.generation)), first).Some?
    requires var t := Continue(At(s, p, HasGeneration(PhaseOf(s, p).goal, s.generation)), first).value;
             Continue(At(t, p, HasRow(PhaseOf(s, p).goal, s.generation, t.generation)), second).Some?
    ensures var goal := PhaseOf(s, p).goal;
            var t := Continue(At(s, p, HasGeneration(goal, s.generation)), first).value;
            var u := Continue(At(t, p, HasRow(goal, s.generation, t.generation)), second).value;
            var looked := Act(u, p, ReadLocks);
            && looked.Some? && PhaseOf(looked.value, p).HasDigest? && PhaseOf(looked.value, p).goal == goal
            && (Reconcile(goal.marker, PhaseOf(looked.value, p).seen) == Unrecoverable
                <==> goal.marker.generation == s.generation && (t.generation != s.generation || u.locks != s.locks))
  {
    hide Act, Continue, Reachable, Actual, Honest;
    var goal := PhaseOf(s, p).goal;
    var s1 := At(s, p, HasGeneration(goal, s.generation));
    GenerationStep(s, p);
    ReachableStep(s, p, ReadGeneration);
    OthersKeepMyPhase(s1, p, first);
    var t := Continue(s1, first).value;
    var t1 := At(t, p, HasRow(goal, s.generation, t.generation));
    RowStep(t, p);
    ReachableStep(t, p, ReadRow);
    OthersKeepMyPhase(t1, p, second);
    var u := Continue(t1, second).value;
    LocksStep(u, p);
    HonestReader(s, p);
    RefusedExactly(s, goal.marker, t.generation, u.locks);
  }

  lemma GenerationStep(s: System, p: Pid)
    requires PhaseOf(s, p).Reading?
    ensures Act(s, p, ReadGeneration) == Some(At(s, p, HasGeneration(PhaseOf(s, p).goal, s.generation)))
    ensures PhaseOf(At(s, p, HasGeneration(PhaseOf(s, p).goal, s.generation)), p) == HasGeneration(PhaseOf(s, p).goal, s.generation)
  {
  }

  lemma RowStep(s: System, p: Pid)
    requires PhaseOf(s, p).HasGeneration?
    ensures var row := HasRow(PhaseOf(s, p).goal, PhaseOf(s, p).generation, s.generation);
            Act(s, p, ReadRow) == Some(At(s, p, row)) && PhaseOf(At(s, p, row), p) == row
  {
  }

  lemma LocksStep(s: System, p: Pid)
    requires PhaseOf(s, p).HasRow?
    ensures var seen := Marker(PhaseOf(s, p).generation, DigestOf(PhaseOf(s, p).row, s.locks));
            Act(s, p, ReadLocks).Some? && PhaseOf(Act(s, p, ReadLocks).value, p) == HasDigest(PhaseOf(s, p).goal, seen)
  {
  }

  lemma HonestReader(s: System, p: Pid)
    requires Reachable(s) && PhaseOf(s, p).Reading? && PhaseOf(s, p).goal.Connecting?
    ensures Honest(s, PhaseOf(s, p).goal.marker)
  {
    hide MarkerSafe, Execute;
    var script :| Execute(script) == Some(s);
    ReachableIsMarkerSafe(s, script);
    OwnPhase(s, p);
  }

  /** The decision itself, for an honest marker. */
  lemma RefusedExactly(s: System, marker: Marker, row: nat, locks: map<string, Instance>)
    requires Honest(s, marker)
    ensures Reconcile(marker, Marker(s.generation, DigestOf(row, locks))) == Unrecoverable
       <==> marker.generation == s.generation && (row != s.generation || locks != s.locks)
  {
  }

  /** The race of the connecting reconcile does happen: the database is sound, the reader is refused. */
  lemma ConnectCanRefuse(task: string)
    ensures exists s: System, p: Pid ::
              && Reachable(s) && PhaseOf(s, p).HasDigest? && PhaseOf(s, p).goal.Connecting?
              && Reconcile(PhaseOf(s, p).goal.marker, PhaseOf(s, p).seen) == Unrecoverable
  {
    hide Reachable, Solo;
    InitialIsReachable();
    var zero := Marker(0, DigestOf(0, map[]));
    var goal := Connecting(Open, zero);
    var opening := Act(Initial(), 0, Start(Open)).value;
    ReachableStep(Initial(), 0, Start(Open));
    ReachableStep(opening, 0, ReadGeneration);
    var reading := Act(opening, 0, ReadGeneration).value;
    assert PhaseOf(reading, 0) == HasGeneration(goal, 0);
    var _, moved := LockFreeTask(reading, 1, task, 0);
    ReachableStep(moved, 0, ReadRow);
    var row := Act(moved, 0, ReadRow).value;
    ReachableStep(row, 0, ReadLocks);
    var last := Act(row, 0, ReadLocks).value;
    assert PhaseOf(last, 0).goal == goal && PhaseOf(last, 0).seen.digest.generation == 1;
  }
}
