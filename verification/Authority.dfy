/** The control-store authority: processes that connect, lock, release and work on gate slots, interleaved
    at every database statement and every marker access, failing or crashing anywhere. */
module Authority {
  import opened Results
  import opened CodingSlot

  type Pid = nat
  type Instance = nat

  /** SHA-256 of the authority row and the lock rows, as a free function. An instance stands for the
      whole row that carries it. */
  datatype Digest = DigestOf(generation: nat, locks: map<string, Instance>)

  datatype Marker = Marker(generation: nat, digest: Digest)

  datatype Op =
    | Open
    | Acquire(task: string, instance: Instance)
    | Confirm(task: string, instance: Instance)
    | Release(task: string, instance: Instance)

  /** Why the generation and the digest are being read outside a transaction. */
  datatype Goal = Connecting(op: Op, marker: Marker) | ReadingBack(op: Op, before: Marker, after: Marker)

  datatype Phase =
    | Idle
    | Reading(goal: Goal)
    | HasGeneration(goal: Goal, generation: nat)
    | HasRow(goal: Goal, generation: nat, row: nat)
    | HasDigest(goal: Goal, seen: Marker)
    | Refreshing(op: Op, seen: Marker)
    | Connected(op: Op)
    | InTransaction(op: Op)
    | HasMarker(op: Op, marker: Marker)
    | RefreshingLocked(op: Op, actual: Marker)
    | Prepared(op: Op, previous: Marker)
    | Comparing(op: Op, before: Marker, after: Marker)
    | Rewriting(op: Op, after: Marker)
    | Reopening(task: string, instance: Instance)
    | Holding(task: string, instance: Instance, loaded: Option<Option<Slot>>)

  datatype Issue = Issue(task: string, pid: Pid)

  datatype SlotHistory = SlotHistory(versions: seq<Slot>, requests: seq<Request>)

  /** `held` is each process's own register of the tasks it has locked; `objects` are the lock objects not
      yet released; `deleted` the instances whose deletion committed; `histories` what was ever written to
      the slot of each gate. */
  datatype System = System(
    generation: nat,
    locks: map<string, Instance>,
    marker: Marker,
    writer: Option<Pid>,
    phases: map<Pid, Phase>,
    issued: map<Instance, Issue>,
    held: set<(Pid, string)>,
    objects: set<Instance>,
    deleted: set<Instance>,
    slots: map<string, Slot>,
    histories: map<string, SlotHistory>)

  function PhaseOf(s: System, p: Pid): Phase { if p in s.phases then s.phases[p] else Idle }

  function Actual(s: System): Marker { Marker(s.generation, DigestOf(s.generation, s.locks)) }

  function SlotOf(s: System, gate: string): Option<Slot> { if gate in s.slots then Some(s.slots[gate]) else None }

  function Initial(): System {
    System(0, map[], Marker(0, DigestOf(0, map[])), None, map[], map[], {}, {}, {}, map[], map[])
  }

  // The reconcile decision.

  datatype Verdict = Agrees | Behind | Unrecoverable

  function Reconcile(marker: Marker, seen: Marker): Verdict {
    if seen == marker then Agrees else if seen.generation > marker.generation then Behind else Unrecoverable
  }

  // Steps.

  datatype Action =
    | Start(op: Op)
    | ReadGeneration
    | ReadRow
    | ReadLocks
    | Decide
    | Refresh(landed: bool)
    | Begin
    | Finish
    | ReadMarker
    | DecideLocked
    | RefreshLocked(landed: bool)
    | Commit
    | Compare
    | Publish(landed: bool)
    | Reopen
    | LoadSlot
    | StoreSlot(request: Request)
    | Fail
    | Crash

  function At(s: System, p: Pid, ph: Phase): System { s.(phases := s.phases[p := ph]) }

  function Unlocked(s: System, p: Pid): System { if s.writer == Some(p) then s.(writer := None) else s }

  /** An exception: the transaction rolls back and the caller is left with what it had. */
  function Raised(s: System, p: Pid): System { At(Unlocked(s, p), p, Idle) }

  /** The end of an operation once its marker publication is over, whatever became of it. */
  function Published(s: System, p: Pid, op: Op): System {
    match op
    case Acquire(task, i) => At(s, p, Reopening(task, i))
    case Release(task, i) => At(s.(objects := s.objects - {i}, held := s.held - {(p, task)}), p, Idle)
    case _ => At(s, p, Idle)
  }

  /** A process does not try for a task on its own register. */
  predicate MayStart(s: System, p: Pid, op: Op) {
    match op
    case Open => PhaseOf(s, p) == Idle
    case Acquire(task, i) => PhaseOf(s, p) == Idle && i !in s.issued && (p, task) !in s.held
    case Confirm(_, _) => false
    case Release(task, i) =>
      && i in s.objects && i in s.issued && s.issued[i] == Issue(task, p)
      && (PhaseOf(s, p) == Idle || (PhaseOf(s, p).Holding? && PhaseOf(s, p).instance == i))
  }

  function Started(s: System, p: Pid, op: Op): System {
    var s' := if op.Acquire? then s.(issued := s.issued[op.instance := Issue(op.task, p)]) else s;
    At(s', p, Reading(Connecting(op, s.marker)))
  }

  /** The locks after the statement of a prepared transaction; an occupied row refuses the insert. */
  function LocksAfter(s: System, op: Op): Option<map<string, Instance>> {
    match op
    case Acquire(task, i) => if task in s.locks then None else Some(s.locks[task := i])
    case Release(task, i) => Some(if task in s.locks && s.locks[task] == i then s.locks - {task} else s.locks)
    case _ => None
  }

  function Committed(s: System, p: Pid, op: Op, previous: Marker): System {
    match LocksAfter(s, op)
    case None => Raised(s, p)
    case Some(locks) =>
      var s' := s.(generation := s.generation + 1, locks := locks, writer := None,
                   deleted := s.deleted + if op.Release? then {op.instance} else {});
      At(s', p, Reading(ReadingBack(op, previous, Actual(s'))))
  }

  function Decided(s: System, p: Pid, goal: Goal, seen: Marker): System {
    match goal
    case Connecting(op, marker) =>
      (match Reconcile(marker, seen)
       case Agrees => At(s, p, Connected(op))
       case Behind => At(s, p, Refreshing(op, seen))
       case Unrecoverable => Raised(s, p))
    case ReadingBack(op, before, after) =>
      if seen == after then At(s, p, Comparing(op, before, after)) else Raised(s, p)
  }

  function DecidedLocked(s: System, p: Pid, op: Op, marker: Marker): System {
    match Reconcile(marker, Actual(s))
    case Agrees => At(s, p, Prepared(op, Actual(s)))
    case Behind => At(s, p, RefreshingLocked(op, Actual(s)))
    case Unrecoverable => Raised(s, p)
  }

  function Written(s: System, landed: bool, m: Marker): System { if landed then s.(marker := m) else s }

  function Recorded(h: SlotHistory, q: Request, v: Slot): SlotHistory {
    if h.versions == [] then SlotHistory([v], []) else SlotHistory(h.versions + [v], h.requests + [q])
  }

  function HistoryOf(s: System, gate: string): SlotHistory {
    if gate in s.histories then s.histories[gate] else SlotHistory([], [])
  }

  /** The end of a connection that wanted no transaction: the opened store, or the confirmed lock. */
  function Finished(s: System, p: Pid, op: Op): Option<System> {
    match op
    case Open => Some(At(s, p, Idle))
    case Confirm(task, i) =>
      Some(if task in s.locks && s.locks[task] == i
           then At(s.(objects := s.objects + {i}, held := s.held + {(p, task)}), p, Holding(task, i, None))
           else At(s, p, Idle))
    case _ => None
  }

  /** The write of the slot operation to the file it loaded. */
  function Stored(s: System, p: Pid, q: Request): Option<System> {
    var ph := PhaseOf(s, p);
    if !ph.Holding? || ph.loaded == None then None
    else
      match Apply(ph.loaded.value, ph.task, q)
      case Failure(_) => None
      case Success(v) =>
        var histories := s.histories[ph.task := Recorded(HistoryOf(s, ph.task), q, v)];
        Some(At(s.(slots := s.slots[ph.task := v], histories := histories), p, Holding(ph.task, ph.instance, None)))
  }

  function Crashed(s: System, p: Pid): System {
    Raised(s, p).(objects := (set i | i in s.objects && !(i in s.issued && s.issued[i].pid == p)),
                  held := (set h | h in s.held && h.0 != p))
  }

  /** One step of one process; none when the process is not at that point. */
  function Act(s: System, p: Pid, a: Action): Option<System> {
    var ph := PhaseOf(s, p);
    match a
    case Start(op) => if MayStart(s, p, op) then Some(Started(s, p, op)) else None
    case ReadGeneration => if ph.Reading? then Some(At(s, p, HasGeneration(ph.goal, s.generation))) else None
    case ReadRow => if ph.HasGeneration? then Some(At(s, p, HasRow(ph.goal, ph.generation, s.generation))) else None
    case ReadLocks =>
      if ph.HasRow? then Some(At(s, p, HasDigest(ph.goal, Marker(ph.generation, DigestOf(ph.row, s.locks))))) else None
    case Decide => if ph.HasDigest? then Some(Decided(s, p, ph.goal, ph.seen)) else None
    case Refresh(landed) => if ph.Refreshing? then Some(At(Written(s, landed, ph.seen), p, Connected(ph.op))) else None
    case Begin =>
      if ph.Connected? && (ph.op.Acquire? || ph.op.Release?) && s.writer == None
      then Some(At(s.(writer := Some(p)), p, InTransaction(ph.op))) else None
    case Finish => if ph.Connected? then Finished(s, p, ph.op) else None
    case ReadMarker => if ph.InTransaction? then Some(At(s, p, HasMarker(ph.op, s.marker))) else None
    case DecideLocked => if ph.HasMarker? then Some(DecidedLocked(s, p, ph.op, ph.marker)) else None
    case RefreshLocked(landed) =>
      if ph.RefreshingLocked? then Some(At(Written(s, landed, ph.actual), p, Prepared(ph.op, ph.actual))) else None
    case Commit => if ph.Prepared? then Some(Committed(s, p, ph.op, ph.previous)) else None
    case Compare =>
      if !ph.Comparing? then None
      else Some(if s.marker == ph.before then At(s, p, Rewriting(ph.op, ph.after)) else Published(s, p, ph.op))
    case Publish(landed) => if ph.Rewriting? then Some(Published(Written(s, landed, ph.after), p, ph.op)) else None
    case Reopen =>
      if ph.Reopening? then Some(At(s, p, Reading(Connecting(Confirm(ph.task, ph.instance), s.marker)))) else None
    case LoadSlot => if ph.Holding? then Some(At(s, p, Holding(ph.task, ph.instance, Some(SlotOf(s, ph.task))))) else None
    case StoreSlot(q) => Stored(s, p, q)
    case Fail => if ph.Idle? || ph.Holding? then None else Some(Raised(s, p))
    case Crash => Some(Crashed(s, p))
  }

  /** The system after a script of steps, if every step was possible. */
  function Execute(script: seq<(Pid, Action)>): Option<System> {
    if script == [] then Some(Initial())
    else
      match Execute(DropLast(script))
      case None => None
      case Some(s) => Act(s, Last(script).0, Last(script).1)
  }

  ghost predicate Reachable(s: System) {
    exists script :: Execute(script) == Some(s)
  }
}
