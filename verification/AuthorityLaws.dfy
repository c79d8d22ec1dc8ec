/** What every interleaving keeps: the marker is never ahead of the database, the reconcile under the write
    lock never refuses, and a lock row goes only by the release of its own instance. */
module AuthorityLaws {
  import opened Results
  import opened CodingSlot
  import opened Authority

  // The marker.

  /** Not ahead of the database, and exact when level with it. */
  predicate Honest(s: System, m: Marker) {
    m.generation <= s.generation && (m.generation == s.generation ==> m == Actual(s))
  }

  predicate HonestGoal(s: System, goal: Goal) {
    match goal
    case Connecting(_, marker) => Honest(s, marker)
    case ReadingBack(_, _, after) => Honest(s, after)
  }

  /** Whatever a process has read or is about to write is honest. */
  predicate HonestPhase(s: System, ph: Phase) {
    match ph
    case Reading(goal) => HonestGoal(s, goal)
    case HasGeneration(goal, g) => HonestGoal(s, goal) && GoalGeneration(goal) <= g <= s.generation
    case HasRow(goal, g, row) => HonestGoal(s, goal) && GoalGeneration(goal) <= g <= row <= s.generation
    case HasDigest(goal, seen) => HonestGoal(s, goal) && GoalGeneration(goal) <= seen.generation && Honest(s, seen)
    case Refreshing(_, seen) => Honest(s, seen)
    case HasMarker(_, marker) => Honest(s, marker)
    case RefreshingLocked(_, actual) => actual == Actual(s)
    case Prepared(_, previous) => previous == Actual(s)
    case Comparing(_, _, after) => Honest(s, after)
    case Rewriting(_, after) => Honest(s, after)
    case _ => true
  }

  /** The generation a reader starts from: the marker it read, or its own commit. */
  function GoalGeneration(goal: Goal): nat {
    match goal
    case Connecting(_, marker) => marker.generation
    case ReadingBack(_, _, after) => after.generation
  }

  predicate Writes(ph: Phase) {
    ph.InTransaction? || ph.HasMarker? || ph.RefreshingLocked? || ph.Prepared?
  }

  ghost predicate MarkerSafe(s: System) {
    && Honest(s, s.marker)
    && (forall p: Pid :: HonestPhase(s, PhaseOf(s, p)))
    && (forall p: Pid :: Writes(PhaseOf(s, p)) <==> s.writer == Some(p))
  }

  /** Honesty survives anything another process does, and any commit. */
  lemma HonestPhasePersists(s: System, s': System, ph: Phase)
    requires HonestPhase(s, ph)
    requires s'.generation > s.generation || (s'.generation == s.generation && s'.locks == s.locks)
    requires Writes(ph) ==> s'.generation == s.generation && s'.locks == s.locks
    ensures HonestPhase(s', ph)
  {
  }

  /** The database moves on only by a commit of the writer; other processes stay where they are. */
  predicate Moves(s: System, p: Pid, s': System) {
    && (s'.generation > s.generation || (s'.generation == s.generation && s'.locks == s.locks))
    && (s'.generation > s.generation ==> s.writer == Some(p))
    && (s'.writer == s.writer || (s.writer == Some(p) && s'.writer == None) || (s.writer == None && s'.writer == Some(p)))
    && s'.phases == s.phases[p := PhaseOf(s', p)]
  }

  lemma CommitMoves(s: System, p: Pid)
    requires Act(s, p, Commit).Some? && s.writer == Some(p)
    ensures var s' := Act(s, p, Commit).value; Moves(s, p, s') && s'.writer == None && !Writes(PhaseOf(s', p))
  {
    hide LocksAfter;
  }

  lemma AtMoves(s: System, p: Pid, ph: Phase)
    ensures Moves(s, p, At(s, p, ph)) && PhaseOf(At(s, p, ph), p) == ph && At(s, p, ph).writer == s.writer
  {
  }

  lemma RaisedMoves(s: System, p: Pid)
    ensures Moves(s, p, Raised(s, p)) && PhaseOf(Raised(s, p), p) == Idle && Raised(s, p).writer != Some(p)
  {
  }

  lemma DecideMoves(s: System, p: Pid)
    requires Act(s, p, Decide).Some? && s.writer != Some(p)
    ensures var s' := Act(s, p, Decide).value; Moves(s, p, s') && !Writes(PhaseOf(s', p)) && s'.writer != Some(p)
  {
    hide Reconcile, At, Raised, Moves, PhaseOf;
    var ph := PhaseOf(s, p);
    RaisedMoves(s, p);
    if ph.goal.Connecting? {
      AtMoves(s, p, Connected(ph.goal.op));
      AtMoves(s, p, Refreshing(ph.goal.op, ph.seen));
    } else {
      AtMoves(s, p, Comparing(ph.goal.op, ph.goal.before, ph.goal.after));
    }
  }

  lemma DecideLockedMoves(s: System, p: Pid)
    requires Act(s, p, DecideLocked).Some? && s.writer == Some(p)
    ensures var s' := Act(s, p, DecideLocked).value; Moves(s, p, s') && (Writes(PhaseOf(s', p)) <==> s'.writer == Some(p))
  {
    hide Reconcile, At, Raised, Moves, PhaseOf;
    var ph := PhaseOf(s, p);
    RaisedMoves(s, p);
    AtMoves(s, p, Prepared(ph.op, Actual(s)));
    AtMoves(s, p, RefreshingLocked(ph.op, Actual(s)));
  }

  lemma PublishedMoves(s: System, landed: bool, m: Marker, p: Pid, op: Op)
    ensures var s' := Published(Written(s, landed, m), p, op);
            Moves(s, p, s') && !Writes(PhaseOf(s', p)) && s'.writer == s.writer
  {
  }

  lemma PublishMoves(s: System, p: Pid, a: Action)
    requires a.Compare? || a.Publish?
    requires Act(s, p, a).Some? && s.writer != Some(p)
    ensures var s' := Act(s, p, a).value; Moves(s, p, s') && !Writes(PhaseOf(s', p)) && s'.writer != Some(p)
  {
    hide Published, At, Moves, PhaseOf;
    var ph := PhaseOf(s, p);
    if a.Publish? {
      PublishedMoves(s, a.landed, ph.after, p, ph.op);
    } else {
      PublishedMoves(s, false, ph.after, p, ph.op);
      AtMoves(s, p, Rewriting(ph.op, ph.after));
    }
  }

  lemma StopMoves(s: System, p: Pid, a: Action)
    requires a.Fail? || a.Crash?
    requires Act(s, p, a).Some?
    ensures var s' := Act(s, p, a).value; Moves(s, p, s') && !Writes(PhaseOf(s', p)) && s'.writer != Some(p)
  {
  }

  lemma MarkerStepMoves(s: System, p: Pid, a: Action)
    requires a.Refresh? || a.RefreshLocked? || a.Begin? || a.ReadMarker?
    requires Act(s, p, a).Some?
    requires Writes(PhaseOf(s, p)) <==> s.writer == Some(p)
    ensures var s' := Act(s, p, a).value; Moves(s, p, s') && (Writes(PhaseOf(s', p)) <==> s'.writer == Some(p))
  {
  }

  lemma ReadMoves(s: System, p: Pid, a: Action)
    requires a.ReadGeneration? || a.ReadRow? || a.ReadLocks? || a.Reopen?
    requires Act(s, p, a).Some?
    requires Writes(PhaseOf(s, p)) <==> s.writer == Some(p)
    ensures var s' := Act(s, p, a).value; Moves(s, p, s') && (Writes(PhaseOf(s', p)) <==> s'.writer == Some(p))
  {
    hide At, Moves;
    var ph := PhaseOf(s, p);
    match a
    case ReadGeneration => AtMoves(s, p, HasGeneration(ph.goal, s.generation));
    case ReadRow => AtMoves(s, p, HasRow(ph.goal, ph.generation, s.generation));
    case ReadLocks => AtMoves(s, p, HasDigest(ph.goal, Marker(ph.generation, DigestOf(ph.row, s.locks))));
    case Reopen => AtMoves(s, p, Reading(Connecting(Confirm(ph.task, ph.instance), s.marker)));
  }

  lemma StartMoves(s: System, p: Pid, op: Op)
    requires Act(s, p, Start(op)).Some?
    requires Writes(PhaseOf(s, p)) <==> s.writer == Some(p)
    ensures var s' := Act(s, p, Start(op)).value; Moves(s, p, s') && (Writes(PhaseOf(s', p)) <==> s'.writer == Some(p))
  {
  }

  lemma FinishMoves(s: System, p: Pid)
    requires Act(s, p, Finish).Some?
    requires Writes(PhaseOf(s, p)) <==> s.writer == Some(p)
    ensures var s' := Act(s, p, Finish).value; Moves(s, p, s') && (Writes(PhaseOf(s', p)) <==> s'.writer == Some(p))
  {
  }

  lemma SlotStepMoves(s: System, p: Pid, a: Action)
    requires a.LoadSlot? || a.StoreSlot?
    requires Act(s, p, a).Some?
    requires Writes(PhaseOf(s, p)) <==> s.writer == Some(p)
    ensures var s' := Act(s, p, a).value; Moves(s, p, s') && (Writes(PhaseOf(s', p)) <==> s'.writer == Some(p))
  {
    hide Apply, HistoryOf, Recorded;
  }

  lemma StepMoves(s: System, p: Pid, a: Action)
    requires Act(s, p, a).Some?
    requires Writes(PhaseOf(s, p)) <==> s.writer == Some(p)
    ensures var s' := Act(s, p, a).value; Moves(s, p, s') && (Writes(PhaseOf(s', p)) <==> s'.writer == Some(p))
  {
    hide Moves, Committed, Decided, DecidedLocked, Crashed, Stored;
    match a
    case Commit => CommitMoves(s, p);
    case Decide => DecideMoves(s, p);
    case DecideLocked => DecideLockedMoves(s, p);
    case Compare | Publish(_) => PublishMoves(s, p, a);
    case Fail | Crash => StopMoves(s, p, a);
    case Refresh(_) | RefreshLocked(_) | Begin | ReadMarker => MarkerStepMoves(s, p, a);
    case ReadGeneration | ReadRow | ReadLocks | Reopen => ReadMoves(s, p, a);
    case Start(op) => StartMoves(s, p, op);
    case Finish => FinishMoves(s, p);
    case LoadSlot | StoreSlot(_) => SlotStepMoves(s, p, a);
  }

  // The next marker and the next phase are honest, step by step.

  lemma ReadsAreHonest(s: System, p: Pid, a: Action)
    requires a.ReadGeneration? || a.ReadRow? || a.ReadLocks? || a.ReadMarker? || a.Reopen? || a.Start?
    requires Act(s, p, a).Some? && Honest(s, s.marker) && HonestPhase(s, PhaseOf(s, p))
    ensures var s' := Act(s, p, a).value; Honest(s', s'.marker) && HonestPhase(s', PhaseOf(s', p))
  {
    hide Apply, MayStart, HistoryOf, Recorded, LocksAfter;
  }

  lemma CommitIsHonest(s: System, p: Pid)
    requires Act(s, p, Commit).Some? && Honest(s, s.marker) && HonestPhase(s, PhaseOf(s, p))
    ensures var s' := Act(s, p, Commit).value; Honest(s', s'.marker) && HonestPhase(s', PhaseOf(s', p))
  {
    hide LocksAfter;
  }

  lemma AtIsHonest(s: System, p: Pid, ph: Phase)
    requires Honest(s, s.marker) && HonestPhase(s, ph)
    ensures Honest(At(s, p, ph), At(s, p, ph).marker) && HonestPhase(At(s, p, ph), PhaseOf(At(s, p, ph), p))
  {
  }

  lemma RaisedIsHonest(s: System, p: Pid)
    requires Honest(s, s.marker)
    ensures Honest(Raised(s, p), Raised(s, p).marker) && PhaseOf(Raised(s, p), p) == Idle
  {
  }

  lemma DecideIsHonest(s: System, p: Pid)
    requires Act(s, p, Decide).Some? && Honest(s, s.marker) && HonestPhase(s, PhaseOf(s, p))
    ensures var s' := Act(s, p, Decide).value; Honest(s', s'.marker) && HonestPhase(s', PhaseOf(s', p))
  {
    hide Reconcile, At, Raised, PhaseOf, Honest;
    var ph := PhaseOf(s, p);
    RaisedIsHonest(s, p);
    if ph.goal.Connecting? {
      AtIsHonest(s, p, Connected(ph.goal.op));
      AtIsHonest(s, p, Refreshing(ph.goal.op, ph.seen));
    } else {
      AtIsHonest(s, p, Comparing(ph.goal.op, ph.goal.before, ph.goal.after));
    }
  }

  lemma DecideLockedIsHonest(s: System, p: Pid)
    requires Act(s, p, DecideLocked).Some? && Honest(s, s.marker) && HonestPhase(s, PhaseOf(s, p))
    ensures var s' := Act(s, p, DecideLocked).value; Honest(s', s'.marker) && HonestPhase(s', PhaseOf(s', p))
  {
    hide Reconcile, At, Raised, PhaseOf, Honest;
    var ph := PhaseOf(s, p);
    RaisedIsHonest(s, p);
    AtIsHonest(s, p, Prepared(ph.op, Actual(s)));
    AtIsHonest(s, p, RefreshingLocked(ph.op, Actual(s)));
  }

  lemma PublishedIsHonest(s: System, landed: bool, m: Marker, p: Pid, op: Op)
    requires Honest(s, s.marker) && Honest(s, m)
    ensures var s' := Published(Written(s, landed, m), p, op); Honest(s', s'.marker) && HonestPhase(s', PhaseOf(s', p))
  {
  }

  lemma PublicationIsHonest(s: System, p: Pid, a: Action)
    requires a.Compare? || a.Publish?
    requires Act(s, p, a).Some? && Honest(s, s.marker) && HonestPhase(s, PhaseOf(s, p))
    ensures var s' := Act(s, p, a).value; Honest(s', s'.marker) && HonestPhase(s', PhaseOf(s', p))
  {
    hide Published, At, Honest;
    var ph := PhaseOf(s, p);
    PublishedIsHonest(s, a.Publish? && a.landed, ph.after, p, ph.op);
    if a.Compare? { AtIsHonest(s, p, Rewriting(ph.op, ph.after)); }
  }

  lemma WrittenIsHonest(s: System, landed: bool, m: Marker, p: Pid, ph: Phase)
    requires Honest(s, s.marker) && Honest(s, m) && HonestPhase(s, ph)
    ensures var s' := At(Written(s, landed, m), p, ph); Honest(s', s'.marker) && HonestPhase(s', PhaseOf(s', p))
  {
  }

  lemma RefreshesAreHonest(s: System, p: Pid, a: Action)
    requires a.Refresh? || a.RefreshLocked?
    requires Act(s, p, a).Some? && Honest(s, s.marker) && HonestPhase(s, PhaseOf(s, p))
    ensures var s' := Act(s, p, a).value; Honest(s', s'.marker) && HonestPhase(s', PhaseOf(s', p))
  {
    hide At, Written;
    var ph := PhaseOf(s, p);
    if a.Refresh? {
      WrittenIsHonest(s, a.landed, ph.seen, p, Connected(ph.op));
    } else {
      WrittenIsHonest(s, a.landed, ph.actual, p, Prepared(ph.op, ph.actual));
    }
  }

  /** Database and marker as they were, and a phase that carries neither. */
  predicate Untouched(s: System, p: Pid, s': System) {
    && s'.generation == s.generation && s'.locks == s.locks && s'.marker == s.marker
    && (PhaseOf(s', p).Idle? || PhaseOf(s', p).InTransaction? || PhaseOf(s', p).Holding?)
  }

  lemma UntouchedIsHonest(s: System, p: Pid, s': System)
    requires Honest(s, s.marker) && Untouched(s, p, s')
    ensures Honest(s', s'.marker) && HonestPhase(s', PhaseOf(s', p))
  {
  }

  lemma StopsTouchNothing(s: System, p: Pid, a: Action)
    requires a.Begin? || a.Fail? || a.Crash?
    requires Act(s, p, a).Some?
    ensures Untouched(s, p, Act(s, p, a).value)
  {
  }

  lemma FinishTouchesNothing(s: System, p: Pid)
    requires Act(s, p, Finish).Some?
    ensures Untouched(s, p, Act(s, p, Finish).value)
  {
  }

  lemma SlotStepsTouchNothing(s: System, p: Pid, a: Action)
    requires a.LoadSlot? || a.StoreSlot?
    requires Act(s, p, a).Some?
    ensures Untouched(s, p, Act(s, p, a).value)
  {
    hide Apply, HistoryOf, Recorded;
  }

  lemma OtherStepsAreHonest(s: System, p: Pid, a: Action)
    requires a.Begin? || a.Finish? || a.LoadSlot? || a.StoreSlot? || a.Fail? || a.Crash?
    requires Act(s, p, a).Some? && Honest(s, s.marker)
    ensures var s' := Act(s, p, a).value; Honest(s', s'.marker) && HonestPhase(s', PhaseOf(s', p))
  {
    hide Act, Honest, HonestPhase, Untouched;
    match a {
      case Finish => FinishTouchesNothing(s, p);
      case LoadSlot => SlotStepsTouchNothing(s, p, a);
      case StoreSlot(_) => SlotStepsTouchNothing(s, p, a);
      case _ => StopsTouchNothing(s, p, a);
    }
    UntouchedIsHonest(s, p, Act(s, p, a).value);
  }

  lemma StepIsHonest(s: System, p: Pid, a: Action)
    requires Act(s, p, a).Some? && Honest(s, s.marker) && HonestPhase(s, PhaseOf(s, p))
    ensures var s' := Act(s, p, a).value; Honest(s', s'.marker) && HonestPhase(s', PhaseOf(s', p))
  {
    hide Act, Honest, HonestPhase;
    match a
    case ReadGeneration | ReadRow | ReadLocks | ReadMarker | Reopen | Start(_) => ReadsAreHonest(s, p, a);
    case Commit => CommitIsHonest(s, p);
    case Decide => DecideIsHonest(s, p);
    case DecideLocked => DecideLockedIsHonest(s, p);
    case Compare | Publish(_) => PublicationIsHonest(s, p, a);
    case Refresh(_) | RefreshLocked(_) => RefreshesAreHonest(s, p, a);
    case _ => OtherStepsAreHonest(s, p, a);
  }

  lemma ActKeepsMarkerSafe(s: System, p: Pid, a: Action)
    requires MarkerSafe(s) && Act(s, p, a).Some?
    ensures MarkerSafe(Act(s, p, a).value)
  {
    var s' := Act(s, p, a).value;
    OwnPhase(s, p);
    StepMoves(s, p, a);
    StepIsHonest(s, p, a);
    hide Act, HonestPhase, Honest, Writes;
    forall q: Pid ensures HonestPhase(s', PhaseOf(s', q)) && (Writes(PhaseOf(s', q)) <==> s'.writer == Some(q)) {
      OwnPhase(s, q);
      if q != p {
        assert PhaseOf(s', q) == PhaseOf(s, q);
        HonestPhasePersists(s, s', PhaseOf(s, q));
      }
    }
  }

  lemma OwnPhase(s: System, p: Pid)
    requires MarkerSafe(s)
    ensures HonestPhase(s, PhaseOf(s, p)) && (Writes(PhaseOf(s, p)) <==> s.writer == Some(p))
  {
  }

  lemma {:induction false} ReachableIsMarkerSafe(s: System, script: seq<(Pid, Action)>)
    requires Execute(script) == Some(s)
    ensures MarkerSafe(s)
    decreases |script|
  {
    hide MarkerSafe, Act;
    if script == [] {
      InitialIsMarkerSafe();
    } else {
      var before := Execute(DropLast(script)).value;
      ReachableIsMarkerSafe(before, DropLast(script));
      ActKeepsMarkerSafe(before, Last(script).0, Last(script).1);
    }
  }

  lemma InitialIsMarkerSafe()
    ensures MarkerSafe(Initial())
  {
  }

  /** In every reachable state the marker's generation is at most the database's, and equal generations mean equal digests. */
  lemma MarkerIsNeverAhead(s: System)
    requires Reachable(s)
    ensures s.marker.generation <= s.generation
    ensures s.marker.generation == s.generation ==> s.marker.digest == DigestOf(s.generation, s.locks)
  {
    hide MarkerSafe, Execute;
    var script :| Execute(script) == Some(s);
    ReachableIsMarkerSafe(s, script);
    MarkerOfSafe(s);
  }

  lemma MarkerOfSafe(s: System)
    requires MarkerSafe(s)
    ensures Honest(s, s.marker)
  {
  }

  /** Whoever holds the write lock and has read the marker can always go on: the reconcile never refuses,
      and what it then prepares is the true generation and digest. */
  lemma LockedReconcileNeverRefuses(s: System, p: Pid)
    requires Reachable(s) && PhaseOf(s, p).HasMarker?
    ensures Reconcile(PhaseOf(s, p).marker, Actual(s)) != Unrecoverable
    ensures var after := Act(s, p, DecideLocked).value;
            PhaseOf(after, p) == Prepared(PhaseOf(s, p).op, Actual(s)) || PhaseOf(after, p) == RefreshingLocked(PhaseOf(s, p).op, Actual(s))
  {
    hide Execute;
    var script :| Execute(script) == Some(s);
    ReachableIsMarkerSafe(s, script);
    assert HonestPhase(s, PhaseOf(s, p));
  }

  /** The reconcile outside a transaction refuses only when another process committed after the
      generation was read; the database and the marker are then both sound. */
  lemma ConnectRefusesOnlyInARace(s: System, p: Pid)
    requires Reachable(s) && PhaseOf(s, p).HasDigest? && PhaseOf(s, p).goal.Connecting?
    requires Reconcile(PhaseOf(s, p).goal.marker, PhaseOf(s, p).seen) == Unrecoverable
    ensures PhaseOf(s, p).seen.generation == PhaseOf(s, p).goal.marker.generation < s.generation
  {
    hide Execute;
    var script :| Execute(script) == Some(s);
    ReachableIsMarkerSafe(s, script);
    assert HonestPhase(s, PhaseOf(s, p));
  }
}
