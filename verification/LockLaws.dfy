/** Lock rows and lock objects: who holds what, and the slots worked on under the locks. */
module LockLaws {
  import opened Results
  import opened CodingSlot
  import opened CodingSlotLaws
  import opened Authority

  predicate Row(s: System, task: string, i: Instance) { task in s.locks && s.locks[task] == i }

  predicate IssuedTo(s: System, p: Pid, task: string, i: Instance) { i in s.issued && s.issued[i] == Issue(task, p) }

  /** Before its commit an operation has changed nothing. */
  predicate BeforeCommit(ph: Phase) {
    match ph
    case Reading(goal) => goal.Connecting?
    case HasGeneration(goal, _) => goal.Connecting?
    case HasRow(goal, _, _) => goal.Connecting?
    case HasDigest(goal, _) => goal.Connecting?
    case Comparing(_, _, _) => false
    case Rewriting(_, _) => false
    case _ => true
  }

  function OpOf(ph: Phase): Op {
    match ph
    case Idle => Open
    case Reading(goal) => goal.op
    case HasGeneration(goal, _) => goal.op
    case HasRow(goal, _, _) => goal.op
    case HasDigest(goal, _) => goal.op
    case Refreshing(op, _) => op
    case Connected(op) => op
    case InTransaction(op) => op
    case HasMarker(op, _) => op
    case RefreshingLocked(op, _) => op
    case Prepared(op, _) => op
    case Comparing(op, _, _) => op
    case Rewriting(op, _) => op
    case Reopening(task, i) => Confirm(task, i)
    case Holding(_, _, _) => Open
  }

  /** What an operation in progress says about its instance. */
  predicate OpSound(s: System, p: Pid, op: Op, before: bool) {
    match op
    case Open => true
    case Acquire(task, i) =>
      && IssuedTo(s, p, task, i) && i !in s.objects && i !in s.deleted
      && (if before then !Row(s, task, i) else Row(s, task, i))
    case Confirm(task, i) => IssuedTo(s, p, task, i) && i !in s.objects && i !in s.deleted && Row(s, task, i)
    case Release(task, i) =>
      && IssuedTo(s, p, task, i) && i in s.objects
      && (if before then i in s.deleted || Row(s, task, i) else i in s.deleted)
  }

  predicate PhaseSound(s: System, p: Pid, ph: Phase) {
    && OpSound(s, p, OpOf(ph), BeforeCommit(ph))
    && (ph.Holding? ==>
          && IssuedTo(s, p, ph.task, ph.instance) && ph.instance in s.objects && ph.instance !in s.deleted
          && Row(s, ph.task, ph.instance)
          && (ph.loaded.Some? ==> ph.loaded.value == SlotOf(s, ph.task)))
  }

  predicate LedgerSound(s: System) {
    && (forall t :: t in s.locks ==> s.locks[t] in s.issued && s.issued[s.locks[t]].task == t && s.locks[t] !in s.deleted)
    && (forall i :: i in s.objects ==> i in s.issued && (i in s.deleted || Row(s, s.issued[i].task, i)))
    && (forall i :: i in s.deleted ==> i in s.issued)
  }

  ghost predicate LocksSafe(s: System) {
    LedgerSound(s) && forall p: Pid :: PhaseSound(s, p, PhaseOf(s, p))
  }

  // Preservation. A step of `p` keeps what the others rely on.

  /** Nothing another process relies on has changed: its instances keep their rows, objects and marks. */
  predicate Leaves(s: System, p: Pid, s': System) {
    && (forall i :: i in s.issued ==> i in s'.issued && s'.issued[i] == s.issued[i])
    && (forall i :: i in s.issued && s.issued[i].pid != p ==>
          (&& (i in s'.objects <==> i in s.objects)
           && (i in s'.deleted <==> i in s.deleted)
           && (Row(s', s.issued[i].task, i) <==> Row(s, s.issued[i].task, i))))
    && (forall gate :: gate in s.locks && s.locks[gate] in s.issued && s.issued[s.locks[gate]].pid != p ==>
          SlotOf(s', gate) == SlotOf(s, gate))
    && s'.phases == s.phases[p := PhaseOf(s', p)]
  }

  lemma OthersStaySound(s: System, p: Pid, s': System, q: Pid)
    requires LocksSafe(s) && Leaves(s, p, s') && q != p
    ensures PhaseSound(s', q, PhaseOf(s', q))
  {
    assert PhaseSound(s, q, PhaseOf(s, q));
    assert PhaseOf(s', q) == PhaseOf(s, q);
  }

  predicate SameLedger(s: System, s': System) {
    && s'.locks == s.locks && s'.issued == s.issued && s'.held == s.held && s'.objects == s.objects && s'.deleted == s.deleted
    && s'.slots == s.slots && s'.histories == s.histories
  }

  /** A step that moves on inside one operation, or abandons it. */
  predicate Quiet(s: System, p: Pid, s': System) {
    && SameLedger(s, s')
    && s'.phases == s.phases[p := PhaseOf(s', p)]
    && var ph, ph' := PhaseOf(s, p), PhaseOf(s', p);
       ph' == Idle || (!ph'.Holding? && OpOf(ph') == OpOf(ph) && BeforeCommit(ph') == BeforeCommit(ph))
  }

  predicate Kept(s: System, p: Pid, s': System) {
    LedgerSound(s') && PhaseSound(s', p, PhaseOf(s', p)) && Leaves(s, p, s')
  }

  lemma QuietKeeps(s: System, p: Pid, s': System)
    requires LocksSafe(s) && Quiet(s, p, s')
    ensures Kept(s, p, s')
  {
    assert PhaseSound(s, p, PhaseOf(s, p));
  }

  lemma AtIsQuiet(s: System, p: Pid, ph: Phase)
    requires ph == Idle || (!ph.Holding? && OpOf(ph) == OpOf(PhaseOf(s, p)) && BeforeCommit(ph) == BeforeCommit(PhaseOf(s, p)))
    ensures Quiet(s, p, At(s, p, ph))
  {
  }

  lemma RaisedIsQuiet(s: System, p: Pid)
    ensures Quiet(s, p, Raised(s, p))
  {
  }

  lemma ReadsAreQuiet(s: System, p: Pid, a: Action)
    requires a.ReadGeneration? || a.ReadRow? || a.ReadLocks? || a.ReadMarker? || a.Reopen?
    requires Act(s, p, a).Some?
    ensures Quiet(s, p, Act(s, p, a).value)
  {
    hide Quiet, At;
    var ph := PhaseOf(s, p);
    match a
    case ReadGeneration => AtIsQuiet(s, p, HasGeneration(ph.goal, s.generation));
    case ReadRow => AtIsQuiet(s, p, HasRow(ph.goal, ph.generation, s.generation));
    case ReadLocks => AtIsQuiet(s, p, HasDigest(ph.goal, Marker(ph.generation, DigestOf(ph.row, s.locks))));
    case ReadMarker => AtIsQuiet(s, p, HasMarker(ph.op, s.marker));
    case Reopen => AtIsQuiet(s, p, Reading(Connecting(Confirm(ph.task, ph.instance), s.marker)));
  }

  /** The marker and the write lock are no business of the ledger. */
  lemma MovedIsQuiet(s: System, w: System, p: Pid, ph: Phase)
    requires SameLedger(s, w) && w.phases == s.phases
    requires !ph.Holding? && OpOf(ph) == OpOf(PhaseOf(s, p)) && BeforeCommit(ph) == BeforeCommit(PhaseOf(s, p))
    ensures Quiet(s, p, At(w, p, ph))
  {
  }

  lemma MarkerStepsAreQuiet(s: System, p: Pid, a: Action)
    requires a.Begin? || a.Refresh? || a.RefreshLocked? || a.Fail?
    requires Act(s, p, a).Some?
    ensures Quiet(s, p, Act(s, p, a).value)
  {
    hide Quiet, At, Raised;
    var ph := PhaseOf(s, p);
    match a
    case Begin => MovedIsQuiet(s, s.(writer := Some(p)), p, InTransaction(ph.op));
    case Refresh(landed) => MovedIsQuiet(s, Written(s, landed, ph.seen), p, Connected(ph.op));
    case RefreshLocked(landed) => MovedIsQuiet(s, Written(s, landed, ph.actual), p, Prepared(ph.op, ph.actual));
    case Fail => RaisedIsQuiet(s, p);
  }

  lemma DecisionsAreQuiet(s: System, p: Pid, a: Action)
    requires a.Decide? || a.DecideLocked?
    requires Act(s, p, a).Some?
    ensures Quiet(s, p, Act(s, p, a).value)
  {
    hide Reconcile, At, Raised, Quiet;
    var ph := PhaseOf(s, p);
    RaisedIsQuiet(s, p);
    if a.DecideLocked? {
      AtIsQuiet(s, p, Prepared(ph.op, Actual(s)));
      AtIsQuiet(s, p, RefreshingLocked(ph.op, Actual(s)));
    } else if ph.goal.Connecting? {
      AtIsQuiet(s, p, Connected(ph.goal.op));
      AtIsQuiet(s, p, Refreshing(ph.goal.op, ph.seen));
    } else {
      AtIsQuiet(s, p, Comparing(ph.goal.op, ph.goal.before, ph.goal.after));
    }
  }

  predicate QuietAction(a: Action) {
    !(a.Start? || a.Finish? || a.Commit? || a.Compare? || a.Publish? || a.LoadSlot? || a.StoreSlot? || a.Crash?)
  }

  lemma QuietStep(s: System, p: Pid, a: Action)
    requires QuietAction(a) && Act(s, p, a).Some?
    ensures Quiet(s, p, Act(s, p, a).value)
  {
    hide Quiet, Act;
    match a
    case Decide | DecideLocked => DecisionsAreQuiet(s, p, a);
    case Begin | Refresh(_) | RefreshLocked(_) | Fail => MarkerStepsAreQuiet(s, p, a);
    case ReadGeneration | ReadRow | ReadLocks | ReadMarker | Reopen => ReadsAreQuiet(s, p, a);
  }

  lemma BeginningKeeps(s: System, p: Pid, op: Op)
    requires LocksSafe(s) && MayStart(s, p, op) && (op.Open? || op.Release?)
    ensures Kept(s, p, At(s, p, Reading(Connecting(op, s.marker))))
  {
    assert PhaseSound(s, p, PhaseOf(s, p));
  }

  lemma AcquiringKeeps(s: System, p: Pid, task: string, i: Instance)
    requires LocksSafe(s) && i !in s.issued
    ensures Kept(s, p, At(s.(issued := s.issued[i := Issue(task, p)]), p, Reading(Connecting(Acquire(task, i), s.marker))))
  {
  }

  lemma StartKeeps(s: System, p: Pid, op: Op)
    requires LocksSafe(s) && Act(s, p, Start(op)).Some?
    ensures Kept(s, p, Act(s, p, Start(op)).value)
  {
    hide LocksSafe, Kept, At;
    if op.Acquire? {
      AcquiringKeeps(s, p, op.task, op.instance);
    } else {
      BeginningKeeps(s, p, op);
    }
  }

  lemma ConfirmedKeeps(s: System, p: Pid, task: string, i: Instance)
    requires LocksSafe(s) && PhaseOf(s, p) == Connected(Confirm(task, i))
    ensures Kept(s, p, At(s.(objects := s.objects + {i}, held := s.held + {(p, task)}), p, Holding(task, i, None)))
  {
    assert PhaseSound(s, p, PhaseOf(s, p));
  }

  lemma FinishKeeps(s: System, p: Pid)
    requires LocksSafe(s) && Act(s, p, Finish).Some?
    ensures Kept(s, p, Act(s, p, Finish).value)
  {
    hide LocksSafe, Kept, At, Quiet;
    var op := PhaseOf(s, p).op;
    AtIsQuiet(s, p, Idle);
    QuietKeeps(s, p, At(s, p, Idle));
    if op.Confirm? {
      ConfirmedKeeps(s, p, op.task, op.instance);
    }
  }

  /** What an insertion or a deletion changes: the row of one task, the mark of a deletion, the phase. */
  predicate Commits(s: System, p: Pid, s': System, locks: map<string, Instance>, deleted: set<Instance>) {
    && s'.locks == locks && s'.deleted == deleted
    && s'.issued == s.issued && s'.held == s.held && s'.objects == s.objects && s'.slots == s.slots && s'.histories == s.histories
    && s'.phases == s.phases[p := PhaseOf(s', p)]
    && OpOf(PhaseOf(s', p)) == OpOf(PhaseOf(s, p)) && !BeforeCommit(PhaseOf(s', p)) && !PhaseOf(s', p).Holding?
  }

  lemma CommitCommits(s: System, p: Pid)
    requires Act(s, p, Commit).Some? && LocksAfter(s, PhaseOf(s, p).op).Some?
    ensures var op := PhaseOf(s, p).op;
            && OpOf(PhaseOf(s, p)) == op && BeforeCommit(PhaseOf(s, p)) && !PhaseOf(s, p).Holding?
            && Commits(s, p, Act(s, p, Commit).value, LocksAfter(s, op).value, s.deleted + if op.Release? then {op.instance} else {})
  {
    hide LocksAfter;
  }

  lemma InsertKeeps(s: System, p: Pid, s': System, task: string, i: Instance)
    requires LocksSafe(s) && OpOf(PhaseOf(s, p)) == Acquire(task, i) && BeforeCommit(PhaseOf(s, p)) && task !in s.locks
    requires Commits(s, p, s', s.locks[task := i], s.deleted)
    ensures Kept(s, p, s')
  {
    assert PhaseSound(s, p, PhaseOf(s, p));
  }

  lemma DeleteKeeps(s: System, p: Pid, s': System, task: string, i: Instance)
    requires LocksSafe(s) && OpOf(PhaseOf(s, p)) == Release(task, i) && BeforeCommit(PhaseOf(s, p))
    requires Commits(s, p, s', if task in s.locks && s.locks[task] == i then s.locks - {task} else s.locks, s.deleted + {i})
    ensures Kept(s, p, s')
  {
    assert PhaseSound(s, p, PhaseOf(s, p));
  }

  lemma CommitKeeps(s: System, p: Pid)
    requires LocksSafe(s) && Act(s, p, Commit).Some?
    ensures Kept(s, p, Act(s, p, Commit).value)
  {
    hide LocksSafe, Kept, Raised, Quiet;
    var op := PhaseOf(s, p).op;
    if LocksAfter(s, op) == None {
      RaisedIsQuiet(s, p);
      QuietKeeps(s, p, Raised(s, p));
    } else {
      CommitCommits(s, p);
      hide Act, Commits;
      match op
      case Acquire(task, i) => InsertKeeps(s, p, Act(s, p, Commit).value, task, i);
      case Release(task, i) => DeleteKeeps(s, p, Act(s, p, Commit).value, task, i);
    }
  }

  lemma ReleasedKeeps(s: System, p: Pid, task: string, i: Instance)
    requires LocksSafe(s) && (PhaseOf(s, p).Comparing? || PhaseOf(s, p).Rewriting?)
    requires PhaseOf(s, p).op == Release(task, i)
    ensures Kept(s, p, At(s.(objects := s.objects - {i}, held := s.held - {(p, task)}), p, Idle))
  {
    assert PhaseSound(s, p, PhaseOf(s, p));
  }

  lemma AcquiredKeeps(s: System, p: Pid, task: string, i: Instance)
    requires LocksSafe(s) && (PhaseOf(s, p).Comparing? || PhaseOf(s, p).Rewriting?)
    requires PhaseOf(s, p).op == Acquire(task, i)
    ensures Kept(s, p, At(s, p, Reopening(task, i)))
  {
    assert PhaseSound(s, p, PhaseOf(s, p));
  }

  lemma MarkerKeeps(s: System, landed: bool, m: Marker, p: Pid, s': System)
    requires Kept(s, p, s')
    ensures Kept(s, p, Written(s', landed, m))
  {
  }

  lemma PublishedKeeps(s: System, landed: bool, m: Marker, p: Pid, op: Op)
    requires LocksSafe(s) && (PhaseOf(s, p).Comparing? || PhaseOf(s, p).Rewriting?) && op == PhaseOf(s, p).op
    ensures Kept(s, p, Published(Written(s, landed, m), p, op))
  {
    hide LocksSafe, Kept;
    assert Published(Written(s, landed, m), p, op) == Written(Published(s, p, op), landed, m);
    match op {
      case Acquire(task, i) => AcquiredKeeps(s, p, task, i);
      case Release(task, i) => ReleasedKeeps(s, p, task, i);
      case _ =>
        AtIsQuiet(s, p, Idle);
        QuietKeeps(s, p, At(s, p, Idle));
    }
    MarkerKeeps(s, landed, m, p, Published(s, p, op));
  }

  lemma CompareKeeps(s: System, p: Pid)
    requires LocksSafe(s) && Act(s, p, Compare).Some?
    ensures Kept(s, p, Act(s, p, Compare).value)
  {
    hide Kept, LocksSafe, Published, At, Quiet;
    var ph := PhaseOf(s, p);
    PublishedKeeps(s, false, ph.after, p, ph.op);
    AtIsQuiet(s, p, Rewriting(ph.op, ph.after));
    QuietKeeps(s, p, At(s, p, Rewriting(ph.op, ph.after)));
  }

  lemma LoadKeeps(s: System, p: Pid)
    requires LocksSafe(s) && PhaseOf(s, p).Holding?
    ensures var ph := PhaseOf(s, p); Kept(s, p, At(s, p, Holding(ph.task, ph.instance, Some(SlotOf(s, ph.task)))))
  {
    assert PhaseSound(s, p, PhaseOf(s, p));
  }

  /** A write to the slot of the gate whose lock the process holds. */
  lemma WriteKeeps(s: System, p: Pid, v: Slot, histories: map<string, SlotHistory>)
    requires LocksSafe(s) && PhaseOf(s, p).Holding?
    ensures var ph := PhaseOf(s, p);
            Kept(s, p, At(s.(slots := s.slots[ph.task := v], histories := histories), p, Holding(ph.task, ph.instance, None)))
  {
    assert PhaseSound(s, p, PhaseOf(s, p));
  }

  lemma SlotStepKeeps(s: System, p: Pid, a: Action)
    requires a.LoadSlot? || a.StoreSlot?
    requires LocksSafe(s) && Act(s, p, a).Some?
    ensures Kept(s, p, Act(s, p, a).value)
  {
    hide Apply, Recorded, HistoryOf, LocksSafe, Kept, At;
    var ph := PhaseOf(s, p);
    if a.LoadSlot? {
      LoadKeeps(s, p);
    } else {
      var v := Apply(ph.loaded.value, ph.task, a.request).value;
      WriteKeeps(s, p, v, s.histories[ph.task := Recorded(HistoryOf(s, ph.task), a.request, v)]);
    }
  }

  lemma CrashKeepsTheLedger(s: System, p: Pid)
    requires LedgerSound(s)
    ensures LedgerSound(Crashed(s, p)) && PhaseOf(Crashed(s, p), p) == Idle
  {
  }

  lemma CrashLeavesTheOthers(s: System, p: Pid)
    requires LedgerSound(s)
    ensures Leaves(s, p, Crashed(s, p))
  {
  }

  lemma CrashKeeps(s: System, p: Pid)
    requires LocksSafe(s)
    ensures Kept(s, p, Crashed(s, p))
  {
    hide LedgerSound, Leaves, Crashed;
    CrashKeepsTheLedger(s, p);
    CrashLeavesTheOthers(s, p);
  }

  lemma StepKeeps(s: System, p: Pid, a: Action)
    requires LocksSafe(s) && Act(s, p, a).Some?
    ensures Kept(s, p, Act(s, p, a).value)
  {
    hide LocksSafe, Kept, Quiet, Act, Crashed;
    match a
    case Start(op) => StartKeeps(s, p, op);
    case Finish => FinishKeeps(s, p);
    case Commit => CommitKeeps(s, p);
    case Compare => CompareKeeps(s, p);
    case Publish(landed) => PublishKeeps(s, p, landed);
    case LoadSlot | StoreSlot(_) => SlotStepKeeps(s, p, a);
    case Crash =>
      CrashIsCrashed(s, p);
      CrashKeeps(s, p);
    case _ =>
      QuietStep(s, p, a);
      QuietKeeps(s, p, Act(s, p, a).value);
  }

  lemma CrashIsCrashed(s: System, p: Pid)
    ensures Act(s, p, Crash) == Some(Crashed(s, p))
  {
  }

  lemma PublishKeeps(s: System, p: Pid, landed: bool)
    requires LocksSafe(s) && Act(s, p, Publish(landed)).Some?
    ensures Kept(s, p, Act(s, p, Publish(landed)).value)
  {
    hide Kept, LocksSafe, Published, Written;
    var ph := PhaseOf(s, p);
    PublishedKeeps(s, landed, ph.after, p, ph.op);
  }

  lemma ActKeepsLocksSafe(s: System, p: Pid, a: Action)
    requires LocksSafe(s) && Act(s, p, a).Some?
    ensures LocksSafe(Act(s, p, a).value)
  {
    StepKeeps(s, p, a);
    hide Act, Leaves, LedgerSound, PhaseSound;
    var s' := Act(s, p, a).value;
    forall q: Pid ensures PhaseSound(s', q, PhaseOf(s', q)) {
      if q != p { OthersStaySound(s, p, s', q); }
    }
  }

  lemma InitialIsLocksSafe()
    ensures LocksSafe(Initial())
  {
  }

  lemma {:induction false} ScriptIsLocksSafe(s: System, script: seq<(Pid, Action)>)
    requires Execute(script) == Some(s)
    ensures LocksSafe(s)
    decreases |script|
  {
    hide LocksSafe, Act;
    if script == [] {
      InitialIsLocksSafe();
    } else {
      var before := Execute(DropLast(script)).value;
      ScriptIsLocksSafe(before, DropLast(script));
      ActKeepsLocksSafe(before, Last(script).0, Last(script).1);
    }
  }

  lemma ReachableIsLocksSafe(s: System)
    requires Reachable(s)
    ensures LocksSafe(s)
  {
    hide LocksSafe, Execute;
    var script :| Execute(script) == Some(s);
    ScriptIsLocksSafe(s, script);
  }

  // The laws.

  /** A lock object guards its task until its deletion commits. */
  predicate Guards(s: System, i: Instance) { i in s.objects && i !in s.deleted }

  /** At most one object guards a task, and the row of the task is its instance. An unreleased object
      fails to guard exactly when the deletion of its row has already committed. */
  lemma MutualExclusion(s: System, i: Instance, j: Instance)
    requires Reachable(s) && i in s.objects && i in s.issued
    ensures Row(s, s.issued[i].task, i) <==> Guards(s, i)
    ensures Guards(s, i) && Guards(s, j) && j in s.issued && s.issued[j].task == s.issued[i].task ==> i == j
  {
    ReachableIsLocksSafe(s);
  }

  /** Two processes never work under the same gate at the same time. */
  lemma OneHolder(s: System, p: Pid, q: Pid)
    requires Reachable(s) && PhaseOf(s, p).Holding? && PhaseOf(s, q).Holding?
    requires PhaseOf(s, p).task == PhaseOf(s, q).task
    ensures p == q
  {
    hide Execute;
    ReachableIsLocksSafe(s);
    assert PhaseSound(s, p, PhaseOf(s, p)) && PhaseSound(s, q, PhaseOf(s, q));
  }

  /** A row disappears only when the release of that very instance commits; nothing ever replaces it
      directly, however old it is. */
  lemma RowsGoOnlyByTheirOwnRelease(s: System, p: Pid, a: Action, task: string)
    requires Reachable(s) && Act(s, p, a).Some? && task in s.locks
    ensures var s' := Act(s, p, a).value;
            Row(s', task, s.locks[task]) || (task !in s'.locks && a == Commit && PhaseOf(s, p).Prepared?
                                             && PhaseOf(s, p).op == Release(task, s.locks[task])
                                             && IssuedTo(s, p, task, s.locks[task]))
  {
    hide Execute;
    ReachableIsLocksSafe(s);
    assert PhaseSound(s, p, PhaseOf(s, p));
    if a == Commit {
      CommitEffect(s, p);
    } else {
      OnlyCommitChangesLocks(s, p, a);
    }
  }

  lemma CommitEffect(s: System, p: Pid)
    requires Act(s, p, Commit).Some?
    ensures PhaseOf(s, p).Prepared?
    ensures Act(s, p, Commit).value.locks
         == match LocksAfter(s, PhaseOf(s, p).op) case None => s.locks case Some(locks) => locks
  {
  }

  lemma OnlyCommitChangesLocks(s: System, p: Pid, a: Action)
    requires a != Commit && Act(s, p, a).Some?
    ensures Act(s, p, a).value.locks == s.locks
  {
    hide Apply, HistoryOf, Recorded, Quiet;
    if QuietAction(a) {
      QuietStep(s, p, a);
      hide Act;
      QuietIsQuiet(s, p, Act(s, p, a).value);
    }
  }

  lemma QuietIsQuiet(s: System, p: Pid, s': System)
    requires Quiet(s, p, s')
    ensures SameLedger(s, s') && s'.phases == s.phases[p := PhaseOf(s', p)]
    ensures PhaseOf(s', p) == Idle || (!PhaseOf(s', p).Holding? && OpOf(PhaseOf(s', p)) == OpOf(PhaseOf(s, p)))
  {
  }

  // Rows without an owner.

  predicate Carries(ph: Phase, i: Instance) {
    || (ph.Holding? && ph.instance == i)
    || (match OpOf(ph)
        case Open => false
        case Acquire(_, j) => j == i
        case Confirm(_, j) => j == i
        case Release(_, j) => j == i)
  }

  /** The row is there, and nobody is left who could release it. */
  ghost predicate Orphaned(s: System, task: string, i: Instance) {
    Row(s, task, i) && i in s.issued && i !in s.objects && forall p: Pid :: !Carries(PhaseOf(s, p), i)
  }

  /** A crash of the holder, or an acquisition that fails after its own commit, leaves an orphaned row. */
  lemma CrashOrphansTheRow(s: System, p: Pid, task: string, i: Instance)
    requires Reachable(s) && Row(s, task, i)
    requires Carries(PhaseOf(s, p), i)
    ensures Orphaned(Crashed(s, p), task, i)
  {
    hide Execute;
    ReachableIsLocksSafe(s);
    assert PhaseSound(s, p, PhaseOf(s, p));
    forall q: Pid ensures !Carries(PhaseOf(Crashed(s, p), q), i) {
      assert PhaseSound(s, q, PhaseOf(s, q));
    }
  }

  lemma FailedAcquisitionOrphansTheRow(s: System, p: Pid, task: string, i: Instance)
    requires Reachable(s) && OpOf(PhaseOf(s, p)) == Acquire(task, i) && !BeforeCommit(PhaseOf(s, p))
    ensures Act(s, p, Fail).Some? && Orphaned(Act(s, p, Fail).value, task, i)
  {
    hide Execute;
    ReachableIsLocksSafe(s);
    assert PhaseSound(s, p, PhaseOf(s, p));
    var s' := Act(s, p, Fail).value;
    forall q: Pid ensures !Carries(PhaseOf(s', q), i) {
      assert PhaseSound(s, q, PhaseOf(s, q));
    }
  }

  predicate Unpicked(s: System, p: Pid, i: Instance) {
    i in s.issued && i !in s.objects && !Carries(PhaseOf(s, p), i)
  }

  lemma ConnectionPicksUpNoOrphan(s: System, p: Pid, a: Action, i: Instance)
    requires a.Start? || a.Finish?
    requires Act(s, p, a).Some? && Unpicked(s, p, i)
    ensures var s' := Act(s, p, a).value; Unpicked(s', p, i) && s'.phases == s.phases[p := PhaseOf(s', p)]
  {
  }

  lemma LockStepsPickUpNoOrphan(s: System, p: Pid, a: Action, i: Instance)
    requires a.Commit? || a.Crash?
    requires Act(s, p, a).Some? && Unpicked(s, p, i)
    ensures var s' := Act(s, p, a).value; Unpicked(s', p, i) && s'.phases == s.phases[p := PhaseOf(s', p)]
  {
    hide LocksAfter;
  }

  lemma PublishedPicksUpNoOrphan(s: System, landed: bool, m: Marker, p: Pid, i: Instance)
    requires PhaseOf(s, p).Comparing? || PhaseOf(s, p).Rewriting?
    requires Unpicked(s, p, i)
    ensures var s' := Published(Written(s, landed, m), p, PhaseOf(s, p).op);
            Unpicked(s', p, i) && s'.phases == s.phases[p := PhaseOf(s', p)]
  {
  }

  lemma PublishPicksUpNoOrphan(s: System, p: Pid, a: Action, i: Instance)
    requires a.Compare? || a.Publish?
    requires Act(s, p, a).Some? && Unpicked(s, p, i)
    ensures var s' := Act(s, p, a).value; Unpicked(s', p, i) && s'.phases == s.phases[p := PhaseOf(s', p)]
  {
    hide Published, Unpicked, At, Quiet;
    var ph := PhaseOf(s, p);
    PublishedPicksUpNoOrphan(s, if a.Publish? then a.landed else false, ph.after, p, i);
    if a.Compare? && s.marker == ph.before {
      var s' := At(s, p, Rewriting(ph.op, ph.after));
      AtIsQuiet(s, p, Rewriting(ph.op, ph.after));
      QuietPicksUpNoOrphan(s, p, s', i);
    }
  }

  lemma QuietPicksUpNoOrphan(s: System, p: Pid, s': System, i: Instance)
    requires Quiet(s, p, s') && Unpicked(s, p, i)
    ensures Unpicked(s', p, i) && s'.phases == s.phases[p := PhaseOf(s', p)]
  {
  }

  lemma SlotStepsPickUpNoOrphan(s: System, p: Pid, a: Action, i: Instance)
    requires a.LoadSlot? || a.StoreSlot?
    requires Act(s, p, a).Some? && Unpicked(s, p, i)
    ensures var s' := Act(s, p, a).value; Unpicked(s', p, i) && s'.phases == s.phases[p := PhaseOf(s', p)]
  {
    hide Apply, HistoryOf, Recorded;
  }

  lemma NobodyPicksUpAnOrphan(s: System, p: Pid, a: Action, i: Instance)
    requires Act(s, p, a).Some? && Unpicked(s, p, i)
    ensures var s' := Act(s, p, a).value; Unpicked(s', p, i) && s'.phases == s.phases[p := PhaseOf(s', p)]
  {
    hide Act, Quiet;
    if QuietAction(a) {
      QuietStep(s, p, a);
      QuietIsQuiet(s, p, Act(s, p, a).value);
    } else if a.Start? || a.Finish? {
      ConnectionPicksUpNoOrphan(s, p, a, i);
    } else if a.Commit? || a.Crash? {
      LockStepsPickUpNoOrphan(s, p, a, i);
    } else if a.LoadSlot? || a.StoreSlot? {
      SlotStepsPickUpNoOrphan(s, p, a, i);
    } else {
      PublishPicksUpNoOrphan(s, p, a, i);
    }
  }

  lemma OrphanStays(s: System, p: Pid, a: Action, task: string, i: Instance)
    requires Reachable(s) && Orphaned(s, task, i) && Act(s, p, a).Some?
    ensures Orphaned(Act(s, p, a).value, task, i)
  {
    NobodyPicksUpAnOrphan(s, p, a, i);
    RowsGoOnlyByTheirOwnRelease(s, p, a, task);
    hide Act, Execute;
    var s' := Act(s, p, a).value;
    forall q: Pid ensures !Carries(PhaseOf(s', q), i) {
      if q != p { assert PhaseOf(s', q) == PhaseOf(s, q); }
    }
  }

  function Continue(s: System, script: seq<(Pid, Action)>): Option<System>
    decreases |script|
  {
    if script == [] then Some(s)
    else
      match Act(s, script[0].0, script[0].1)
      case None => None
      case Some(next) => Continue(next, script[1..])
  }

  lemma ReachableStep(s: System, p: Pid, a: Action)
    requires Reachable(s) && Act(s, p, a).Some?
    ensures Reachable(Act(s, p, a).value)
  {
    hide Act;
    var script :| Execute(script) == Some(s);
    var more := script + [(p, a)];
    assert DropLast(more) == script;
    assert Execute(more) == Act(s, p, a);
  }

  /** Staleness never steals a lock: an orphaned row outlives every continuation, so its task can never
      be locked again. */
  lemma {:induction false} OrphansAreForever(s: System, script: seq<(Pid, Action)>, task: string, i: Instance)
    requires Reachable(s) && Orphaned(s, task, i) && Continue(s, script).Some?
    ensures Orphaned(Continue(s, script).value, task, i)
    decreases |script|
  {
    hide Act, Orphaned, Reachable;
    if script != [] {
      var p, a := script[0].0, script[0].1;
      OrphanStays(s, p, a, task, i);
      ReachableStep(s, p, a);
      OrphansAreForever(Act(s, p, a).value, script[1..], task, i);
    }
  }

  // The slots.

  /** What was written to each gate is one run of its slot, and ends in what is there now. */
  ghost predicate SlotsSafe(s: System) {
    && s.slots.Keys == s.histories.Keys
    && forall gate :: gate in s.slots ==>
         (var h := s.histories[gate];
          && SlotRun(gate, h.versions, h.requests) && Last(h.versions) == s.slots[gate])
  }

  lemma OnlyInitializationCreates(gate: string, q: Request)
    requires Apply(None, gate, q).Success?
    ensures q.Initializing? && Initialize(None, gate, q.task) == Apply(None, gate, q)
  {
    hide ValidSlot;
  }

  lemma RunExtends(gate: string, h: SlotHistory, q: Request, v: Slot)
    requires SlotRun(gate, h.versions, h.requests) && Apply(Some(Last(h.versions)), gate, q) == Success(v)
    ensures SlotRun(gate, h.versions + [v], h.requests + [q])
  {
    hide Apply, Initialize;
  }

  lemma RunBegins(gate: string, task: string, v: Slot)
    requires Initialize(None, gate, task) == Success(v)
    ensures SlotRun(gate, [v], [])
  {
    hide Initialize;
  }

  lemma StoreKeepsSlots(s: System, p: Pid, q: Request)
    requires LocksSafe(s) && SlotsSafe(s) && Stored(s, p, q).Some?
    ensures SlotsSafe(Stored(s, p, q).value)
  {
    hide Apply, SlotRun, LedgerSound;
    var ph := PhaseOf(s, p);
    assert PhaseSound(s, p, ph);
    var v := Apply(ph.loaded.value, ph.task, q).value;
    if ph.task in s.slots {
      RunExtends(ph.task, s.histories[ph.task], q, v);
      assert Last(s.histories[ph.task].versions + [v]) == v;
      assert s.histories[ph.task].versions != [] by { RunIsNonempty(ph.task, s.histories[ph.task]); }
    } else {
      OnlyInitializationCreates(ph.task, q);
      RunBegins(ph.task, q.task, v);
    }
  }

  lemma RunIsNonempty(gate: string, h: SlotHistory)
    requires SlotRun(gate, h.versions, h.requests)
    ensures h.versions != []
  {
    hide Apply, Initialize;
  }

  lemma ConnectionKeepsSlots(s: System, p: Pid, a: Action)
    requires a.Start? || a.Finish?
    requires Act(s, p, a).Some?
    ensures Act(s, p, a).value.slots == s.slots && Act(s, p, a).value.histories == s.histories
  {
  }

  lemma LockStepsKeepSlots(s: System, p: Pid, a: Action)
    requires a.Commit? || a.Crash? || a.LoadSlot?
    requires Act(s, p, a).Some?
    ensures Act(s, p, a).value.slots == s.slots && Act(s, p, a).value.histories == s.histories
  {
    hide LocksAfter;
  }

  lemma PublicationKeepsSlots(s: System, p: Pid, a: Action)
    requires a.Compare? || a.Publish?
    requires Act(s, p, a).Some?
    ensures Act(s, p, a).value.slots == s.slots && Act(s, p, a).value.histories == s.histories
  {
  }

  lemma OtherStepsKeepSlots(s: System, p: Pid, a: Action)
    requires !a.StoreSlot? && Act(s, p, a).Some?
    ensures Act(s, p, a).value.slots == s.slots && Act(s, p, a).value.histories == s.histories
  {
    hide Act, Quiet;
    if QuietAction(a) {
      QuietStep(s, p, a);
      QuietIsQuiet(s, p, Act(s, p, a).value);
    } else if a.Compare? || a.Publish? {
      PublicationKeepsSlots(s, p, a);
    } else if a.Start? || a.Finish? {
      ConnectionKeepsSlots(s, p, a);
    } else {
      LockStepsKeepSlots(s, p, a);
    }
  }

  lemma {:induction false} ScriptKeepsSlots(s: System, script: seq<(Pid, Action)>)
    requires Execute(script) == Some(s)
    ensures SlotsSafe(s)
    decreases |script|
  {
    hide SlotRun, LocksSafe, Act;
    if script != [] {
      var before := Execute(DropLast(script)).value;
      var p, a := Last(script).0, Last(script).1;
      ScriptKeepsSlots(before, DropLast(script));
      ScriptIsLocksSafe(before, DropLast(script));
      if a.StoreSlot? {
        StoreIsStored(before, p, a.request);
        StoreKeepsSlots(before, p, a.request);
      } else {
        OtherStepsKeepSlots(before, p, a);
      }
    }
  }

  lemma StoreIsStored(s: System, p: Pid, q: Request)
    ensures Act(s, p, StoreSlot(q)) == Stored(s, p, q)
  {
    hide Stored, MayStart, Committed, Decided, DecidedLocked, Finished, Published, Crashed, Raised, At, PhaseOf;
  }

  /** Over all interleavings, crashes included: every version ever written to a gate keeps the budget, and
      the gate grants at most two reservations, numbered 1 and then 2. */
  lemma BudgetInEveryInterleaving(s: System, gate: string, i: nat)
    requires Reachable(s) && gate in s.slots
    ensures gate in s.histories
    ensures var h := s.histories[gate];
            && |h.versions| == |h.requests| + 1
            && SlotRun(gate, h.versions, h.requests) && Last(h.versions) == s.slots[gate]
            && (i < |h.versions| ==> Budget(h.versions[i]) && Grows(h.versions[i], s.slots[gate]))
            && Last(h.versions).remaining <= 2
            && Granted(h.versions, h.requests) == [1, 2][..2 - Last(h.versions).remaining]
  {
    hide Execute, Apply, Initialize, Budget, Grows, Granted;
    var script :| Execute(script) == Some(s);
    ScriptKeepsSlots(s, script);
    var h := s.histories[gate];
    AtMostTwoReservations(gate, h.versions, h.requests);
    if i < |h.versions| {
      RunGrows(gate, h.versions, h.requests, i, |h.versions| - 1);
    }
  }
}
