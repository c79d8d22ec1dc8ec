/** Each process's own register of the tasks it has locked: it names exactly the tasks of its unreleased
    lock objects, whatever failed in between. */
module RegisterLaws {
  import opened Results
  import opened CodingSlot
  import opened Authority
  import opened LockLaws

  /** The process has a lock object of the task that is not yet released, whether or not it still guards. */
  predicate Unreleased(s: System, p: Pid, task: string) {
    exists i | i in s.objects :: IssuedTo(s, p, task, i)
  }

  ghost predicate RegisterSound(s: System) {
    && (forall i :: i in s.objects ==> i in s.issued && (s.issued[i].pid, s.issued[i].task) in s.held)
    && (forall i, j :: i in s.objects && j in s.objects && i in s.issued && j in s.issued && s.issued[i] == s.issued[j] ==> i == j)
    && (forall p: Pid, task: string :: (p, task) in s.held ==> Unreleased(s, p, task))
  }

  predicate Trying(ph: Phase, task: string) {
    var op := OpOf(ph);
    (op.Acquire? || op.Confirm?) && op.task == task
  }

  ghost predicate Registered(s: System) {
    RegisterSound(s) && forall p: Pid, task: string :: Trying(PhaseOf(s, p), task) ==> (p, task) !in s.held
  }

  /** A step that touches neither objects nor register, and starts no new attempt. */
  ghost predicate SameRegister(s: System, p: Pid, s': System) {
    && s'.objects == s.objects && s'.held == s.held && s'.issued == s.issued
    && s'.phases == s.phases[p := PhaseOf(s', p)]
    && forall task :: Trying(PhaseOf(s', p), task) ==> Trying(PhaseOf(s, p), task)
  }

  lemma SameRegisterKeeps(s: System, p: Pid, s': System)
    requires Registered(s) && SameRegister(s, p, s')
    ensures Registered(s')
  {
    hide Trying;
    assert forall q: Pid, task :: Unreleased(s', q, task) == Unreleased(s, q, task);
    forall q: Pid, task | Trying(PhaseOf(s', q), task) ensures (q, task) !in s'.held {
      if q != p { assert PhaseOf(s', q) == PhaseOf(s, q); }
      assert Trying(PhaseOf(s, q), task);
    }
  }

  lemma QuietKeepsRegister(s: System, p: Pid, a: Action)
    requires QuietAction(a) && Act(s, p, a).Some?
    ensures SameRegister(s, p, Act(s, p, a).value)
  {
    hide Act, Quiet;
    QuietStep(s, p, a);
    QuietIsQuiet(s, p, Act(s, p, a).value);
  }

  lemma CommitKeepsRegister(s: System, p: Pid)
    requires Act(s, p, Commit).Some?
    ensures SameRegister(s, p, Act(s, p, Commit).value)
  {
    hide LocksAfter;
  }

  lemma SlotStepKeepsRegister(s: System, p: Pid, a: Action)
    requires a.LoadSlot? || a.StoreSlot?
    requires Act(s, p, a).Some?
    ensures SameRegister(s, p, Act(s, p, a).value)
  {
    hide Apply, HistoryOf, Recorded;
  }

  lemma OtherStartsKeepRegister(s: System, p: Pid, op: Op)
    requires !op.Acquire? && Act(s, p, Start(op)).Some?
    ensures SameRegister(s, p, Act(s, p, Start(op)).value)
  {
  }

  lemma AcquiringKeepsRegister(s: System, p: Pid, op: Op)
    requires Registered(s) && LocksSafe(s) && op.Acquire? && Act(s, p, Start(op)).Some?
    ensures Registered(Act(s, p, Start(op)).value)
  {
    var s' := Act(s, p, Start(op)).value;
    forall q: Pid, task | (q, task) in s'.held ensures Unreleased(s', q, task) {
      var i :| i in s.objects && IssuedTo(s, q, task, i);
      assert IssuedTo(s', q, task, i);
    }
    forall q: Pid, task | Trying(PhaseOf(s', q), task) ensures (q, task) !in s'.held {
      if q != p { assert PhaseOf(s', q) == PhaseOf(s, q); }
    }
  }

  /** The confirmed lock: its object and its entry appear together. */
  lemma ConfirmedIsRegistered(s: System, p: Pid, task: string, i: Instance)
    requires Registered(s) && LocksSafe(s) && PhaseOf(s, p) == Connected(Confirm(task, i))
    ensures Registered(At(s.(objects := s.objects + {i}, held := s.held + {(p, task)}), p, Holding(task, i, None)))
  {
    var s' := At(s.(objects := s.objects + {i}, held := s.held + {(p, task)}), p, Holding(task, i, None));
    assert PhaseSound(s, p, PhaseOf(s, p));
    assert Trying(PhaseOf(s, p), task);
    assert IssuedTo(s', p, task, i);
    forall q: Pid, t: string | (q, t) in s'.held ensures Unreleased(s', q, t) {
      if (q, t) != (p, task) {
        var j :| j in s.objects && IssuedTo(s, q, t, j);
        assert IssuedTo(s', q, t, j);
      }
    }
    forall q: Pid, t: string | Trying(PhaseOf(s', q), t) ensures (q, t) !in s'.held {
      if q != p { assert PhaseOf(s', q) == PhaseOf(s, q); }
    }
  }

  lemma FinishKeepsRegister(s: System, p: Pid)
    requires Registered(s) && LocksSafe(s) && Act(s, p, Finish).Some?
    ensures Registered(Act(s, p, Finish).value)
  {
    hide Registered, LocksSafe;
    var op, s' := PhaseOf(s, p).op, Act(s, p, Finish).value;
    if op.Confirm? && s' != At(s, p, Idle) {
      ConfirmedIsRegistered(s, p, op.task, op.instance);
    } else {
      SameRegisterKeeps(s, p, s');
    }
  }

  /** The completed release: its object and its entry go together. */
  lemma ReleasedIsUnregistered(s: System, p: Pid, task: string, i: Instance)
    requires Registered(s) && LocksSafe(s) && (PhaseOf(s, p).Comparing? || PhaseOf(s, p).Rewriting?)
    requires PhaseOf(s, p).op == Release(task, i)
    ensures Registered(At(s.(objects := s.objects - {i}, held := s.held - {(p, task)}), p, Idle))
  {
    var s' := At(s.(objects := s.objects - {i}, held := s.held - {(p, task)}), p, Idle);
    assert PhaseSound(s, p, PhaseOf(s, p));
    forall q: Pid, t: string | (q, t) in s'.held ensures Unreleased(s', q, t) {
      var j :| j in s.objects && IssuedTo(s, q, t, j);
      assert j != i && IssuedTo(s', q, t, j);
    }
    forall q: Pid, t: string | Trying(PhaseOf(s', q), t) ensures (q, t) !in s'.held {
      if q != p { assert PhaseOf(s', q) == PhaseOf(s, q); }
    }
  }

  lemma WrittenKeepsRegister(s: System, landed: bool, m: Marker)
    requires Registered(s)
    ensures Registered(Written(s, landed, m))
  {
    hide Trying;
    var s' := Written(s, landed, m);
    assert forall q: Pid, task :: Unreleased(s', q, task) == Unreleased(s, q, task);
    assert forall q: Pid :: PhaseOf(s', q) == PhaseOf(s, q);
  }

  lemma PublishedKeepsRegister(s: System, landed: bool, m: Marker, p: Pid, op: Op)
    requires Registered(s) && LocksSafe(s) && (PhaseOf(s, p).Comparing? || PhaseOf(s, p).Rewriting?) && op == PhaseOf(s, p).op
    ensures Registered(Published(Written(s, landed, m), p, op))
  {
    assert Published(Written(s, landed, m), p, op) == Written(Published(s, p, op), landed, m);
    hide Registered, LocksSafe;
    if op.Release? {
      ReleasedIsUnregistered(s, p, op.task, op.instance);
    } else {
      SameRegisterKeeps(s, p, Published(s, p, op));
    }
    WrittenKeepsRegister(Published(s, p, op), landed, m);
  }

  lemma PublicationKeepsRegister(s: System, p: Pid, a: Action)
    requires a.Compare? || a.Publish?
    requires Registered(s) && LocksSafe(s) && Act(s, p, a).Some?
    ensures Registered(Act(s, p, a).value)
  {
    hide Registered, LocksSafe, Published;
    var ph := PhaseOf(s, p);
    PublishedKeepsRegister(s, a.Publish? && a.landed, ph.after, p, ph.op);
    if a.Compare? && s.marker == ph.before {
      SameRegisterKeeps(s, p, At(s, p, Rewriting(ph.op, ph.after)));
    }
  }

  lemma CrashKeepsRegister(s: System, p: Pid)
    requires Registered(s) && LocksSafe(s)
    ensures Registered(Crashed(s, p))
  {
    var s' := Crashed(s, p);
    forall q: Pid, t: string | (q, t) in s'.held ensures Unreleased(s', q, t) {
      var j :| j in s.objects && IssuedTo(s, q, t, j);
      assert j in s'.objects && IssuedTo(s', q, t, j);
    }
    forall q: Pid, t: string | Trying(PhaseOf(s', q), t) ensures (q, t) !in s'.held {
      if q != p { assert PhaseOf(s', q) == PhaseOf(s, q); }
    }
  }

  lemma ActKeepsRegister(s: System, p: Pid, a: Action)
    requires Registered(s) && LocksSafe(s) && Act(s, p, a).Some?
    ensures Registered(Act(s, p, a).value)
  {
    hide Registered, LocksSafe, Act, SameRegister;
    match a {
      case Start(op) =>
        if op.Acquire? {
          AcquiringKeepsRegister(s, p, op);
        } else {
          OtherStartsKeepRegister(s, p, op);
          SameRegisterKeeps(s, p, Act(s, p, a).value);
        }
      case Finish => FinishKeepsRegister(s, p);
      case Compare => PublicationKeepsRegister(s, p, a);
      case Publish(_) => PublicationKeepsRegister(s, p, a);
      case Crash => CrashStep(s, p); CrashKeepsRegister(s, p);
      case Commit => CommitKeepsRegister(s, p); SameRegisterKeeps(s, p, Act(s, p, a).value);
      case LoadSlot => SlotStepKeepsRegister(s, p, a); SameRegisterKeeps(s, p, Act(s, p, a).value);
      case StoreSlot(_) => SlotStepKeepsRegister(s, p, a); SameRegisterKeeps(s, p, Act(s, p, a).value);
      case _ => QuietKeepsRegister(s, p, a); SameRegisterKeeps(s, p, Act(s, p, a).value);
    }
  }

  lemma CrashStep(s: System, p: Pid)
    ensures Act(s, p, Crash) == Some(Crashed(s, p))
  {
  }

  lemma {:induction false} ScriptIsRegistered(s: System, script: seq<(Pid, Action)>)
    requires Execute(script) == Some(s)
    ensures Registered(s)
    decreases |script|
  {
    hide Registered, LocksSafe, Act;
    if script == [] {
      InitialIsRegistered();
    } else {
      var before := Execute(DropLast(script)).value;
      ScriptIsRegistered(before, DropLast(script));
      ScriptIsLocksSafe(before, DropLast(script));
      ActKeepsRegister(before, Last(script).0, Last(script).1);
    }
  }

  lemma InitialIsRegistered()
    ensures Registered(Initial())
  {
  }

  /** In every reachable state a process has a task on its register exactly while it has an unreleased lock
      object of that task, and it never has two. */
  lemma RegisterIsExact(s: System, p: Pid, task: string, i: Instance, j: Instance)
    requires Reachable(s)
    ensures (p, task) in s.held <==> Unreleased(s, p, task)
    ensures i in s.objects && j in s.objects && IssuedTo(s, p, task, i) && IssuedTo(s, p, task, j) ==> i == j
  {
    hide Execute;
    var script :| Execute(script) == Some(s);
    ScriptIsRegistered(s, script);
  }
}
