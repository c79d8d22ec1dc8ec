/** The authoritative tables and the operations that read and write them. */
module Store {
  import opened Results
  import opened Stages
  import opened Audit

  datatype Row = Row(sequence: nat, event: Event)

  type Generation = (string, nat)

  /** The tables `task_states` and `audit_events`; the rows of a generation in order of sequence. */
  datatype Tables = Tables(states: map<string, TaskState>, audit: map<Generation, seq<Row>>)

  datatype StoreError = InvalidInput | StateCorrupt | AuditCorrupt

  function Empty(): Tables { Tables(map[], map[]) }

  function Rows(t: Tables, task: string, generation: nat): seq<Row> {
    if (task, generation) in t.audit then t.audit[(task, generation)] else []
  }

  predicate HasRows(t: Tables, task: string) {
    exists k | k in t.audit :: k.0 == task && t.audit[k] != []
  }

  function RowAt(rows: seq<Row>, sequence: nat): Option<Event>
    decreases |rows|
  {
    if rows == [] then None else if rows[0].sequence == sequence then Some(rows[0].event) else RowAt(rows[1..], sequence)
  }

  /** Insertion keeps the rows in order of sequence. */
  function Insert(rows: seq<Row>, row: Row): seq<Row>
    decreases |rows|
  {
    if rows == [] || row.sequence < rows[0].sequence then [row] + rows else [rows[0]] + Insert(rows[1..], row)
  }

  function Inserted(t: Tables, e: Event): Tables {
    var key := (e.body.task, e.body.generation);
    t.(audit := t.audit[key := Insert(Rows(t, e.body.task, e.body.generation), Row(e.body.sequence, e))])
  }

  function Written(t: Tables, s: TaskState): Tables { t.(states := t.states[s.task := s]) }

  // The transaction that appends an event and replaces the state.

  predicate StartsTask(t: Tables, e: Event) {
    !HasRows(t, e.body.task) && e.body.eventType == TaskCreated && e.body.generation == 1 && e.body.sequence == 1
  }

  /** The event continues the authoritative head of the current state. */
  predicate Succeeds(t: Tables, e: Event, s: TaskState, current: TaskState) {
    && ValidState(current)
    && var rows := Rows(t, e.body.task, current.generation);
       && rows != []
       && var latest := rows[|rows| - 1];
          && ValidEvent(latest.event)
          && e.body.eventType == TransitionAccepted
          && e.body.generation == current.generation
          && e.body.sequence == latest.sequence + 1
          && e.body.previous == Some(current.headHash)
          && latest.event.body.id == current.headId
          && latest.event.hash == current.headHash
          && e.body.source == Some(current.current)
          && s.previous == Some(current.current)
  }

  predicate PredecessorOk(t: Tables, e: Event, s: TaskState) {
    if e.body.task in t.states then Succeeds(t, e, s, t.states[e.body.task]) else StartsTask(t, e)
  }

  /** The committed tables, and whether anything was written; a replay of the same pair writes nothing. */
  function Commit(t: Tables, e: Event, s: TaskState): Result<(Tables, bool), StoreError> {
    if !ValidEvent(e) then Failure(AuditCorrupt)
    else if !ValidState(s) then Failure(StateCorrupt)
    else if !StateFits(e, s) then Failure(StateCorrupt)
    else
      match RowAt(Rows(t, e.body.task, e.body.generation), e.body.sequence)
      case Some(existing) =>
        if existing == e && s.task in t.states && t.states[s.task] == s then Success((t, false)) else Failure(AuditCorrupt)
      case None =>
        if e.body.task in t.states && !ValidState(t.states[e.body.task]) then Failure(StateCorrupt)
        else if PredecessorOk(t, e, s) then Success((Written(Inserted(t, e), s), true)) else Failure(AuditCorrupt)
  }

  /** The direct append, which only recovery uses. */
  function Append(t: Tables, e: Event): Result<Tables, StoreError> {
    if !ValidEvent(e) then Failure(AuditCorrupt)
    else if RowAt(Rows(t, e.body.task, e.body.generation), e.body.sequence).Some? then Failure(AuditCorrupt)
    else Success(Inserted(t, e))
  }

  function WriteState(t: Tables, s: TaskState): Result<Tables, StoreError> {
    if ValidState(s) then Success(Written(t, s)) else Failure(StateCorrupt)
  }

  function ReadState(t: Tables, task: string): Result<TaskState, StoreError> {
    if task !in t.states then Failure(StateCorrupt)
    else if !ValidState(t.states[task]) || t.states[task].task != task then Failure(StateCorrupt)
    else Success(t.states[task])
  }

  /** Row `i` holds a valid event of its own coordinate. */
  predicate Readable(rows: seq<Row>, i: nat, task: string, generation: nat)
    requires i < |rows|
  {
    && rows[i].sequence == i + 1
    && ValidEvent(rows[i].event)
    && rows[i].event.body.task == task
    && rows[i].event.body.generation == generation
    && rows[i].event.body.sequence == i + 1
  }

  predicate AllReadable(rows: seq<Row>, task: string, generation: nat) {
    forall i :: 0 <= i < |rows| ==> Readable(rows, i, task, generation)
  }

  function Events(rows: seq<Row>): (events: seq<Event>)
    ensures |events| == |rows|
  {
    seq(|rows|, i requires 0 <= i < |rows| => rows[i].event)
  }

  function ReadEvents(t: Tables, task: string, generation: nat): Result<seq<Event>, StoreError> {
    var rows := Rows(t, task, generation);
    if generation < 1 then Failure(InvalidInput)
    else if AllReadable(rows, task, generation) then Success(Events(rows))
    else Failure(AuditCorrupt)
  }

  /** The readers of all states refuse the lot if one row is invalid. */
  predicate StatesReadable(t: Tables) {
    forall task :: task in t.states ==> ReadState(t, task).Success?
  }

  function Waiting(t: Tables): map<string, Id> {
    map task | task in t.states && t.states[task].current == WaitingHuman && t.states[task].pending.Some? ::
      t.states[task].pending.value
  }

  /** The store as the program holds it: its methods change the two tables. */
  class WorkflowStore {
    var states: map<string, TaskState>
    var audit: map<Generation, seq<Row>>

    ghost function Db(): Tables
      reads this
    {
      Tables(states, audit)
    }

    constructor ()
      ensures Db() == Empty()
    {
      states, audit := map[], map[];
    }

    function RowsOf(task: string, generation: nat): (rows: seq<Row>)
      reads this
      ensures rows == Rows(Db(), task, generation)
    {
      if (task, generation) in audit then audit[(task, generation)] else []
    }

    /** Appends one event and replaces the state of its task, or changes nothing. */
    method CommitTaskStateAndAudit(e: Event, s: TaskState) returns (r: Result<bool, StoreError>)
      modifies this
      ensures match Commit(old(Db()), e, s)
              case Success(committed) => r == Success(committed.1) && Db() == committed.0
              case Failure(error) => r == Failure(error) && Db() == old(Db())
    {
      if !ValidEvent(e) {
        return Failure(AuditCorrupt);
      }
      if !ValidState(s) {
        return Failure(StateCorrupt);
      }
      if !StateFits(e, s) {
        return Failure(StateCorrupt);
      }
      var key := (e.body.task, e.body.generation);
      var existing := RowAt(RowsOf(key.0, key.1), e.body.sequence);
      if existing.Some? {
        if existing.value != e || s.task !in states || states[s.task] != s {
          return Failure(AuditCorrupt);
        }
        return Success(false);
      }
      if e.body.task !in states {
        var stray := exists k | k in audit :: k.0 == e.body.task && audit[k] != [];
        if stray || e.body.eventType != TaskCreated || e.body.generation != 1 || e.body.sequence != 1 {
          return Failure(AuditCorrupt);
        }
      } else {
        var current := states[e.body.task];
        if !ValidState(current) {
          return Failure(StateCorrupt);
        }
        var rows := RowsOf(e.body.task, current.generation);
        if rows == [] {
          return Failure(AuditCorrupt);
        }
        var latest := rows[|rows| - 1];
        if !ValidEvent(latest.event) {
          return Failure(AuditCorrupt);
        }
        if || e.body.eventType != TransitionAccepted
           || e.body.generation != current.generation
           || e.body.sequence != latest.sequence + 1
           || e.body.previous != Some(current.headHash)
           || latest.event.body.id != current.headId
           || latest.event.hash != current.headHash
           || e.body.source != Some(current.current)
           || s.previous != Some(current.current)
        {
          return Failure(AuditCorrupt);
        }
      }
      audit := audit[key := Insert(RowsOf(key.0, key.1), Row(e.body.sequence, e))];
      states := states[s.task := s];
      r := Success(true);
    }

    method AppendAuditEvent(e: Event) returns (r: Result<(), StoreError>)
      modifies this`audit
      ensures match Append(old(Db()), e)
              case Success(t) => r == Success(()) && Db() == t
              case Failure(error) => r == Failure(error) && Db() == old(Db())
    {
      if !ValidEvent(e) {
        return Failure(AuditCorrupt);
      }
      var key := (e.body.task, e.body.generation);
      if RowAt(RowsOf(key.0, key.1), e.body.sequence).Some? {
        return Failure(AuditCorrupt);
      }
      audit := audit[key := Insert(RowsOf(key.0, key.1), Row(e.body.sequence, e))];
      r := Success(());
    }

    method WriteTaskState(s: TaskState) returns (r: Result<(), StoreError>)
      modifies this`states
      ensures match WriteState(old(Db()), s)
              case Success(t) => r == Success(()) && Db() == t
              case Failure(error) => r == Failure(error) && Db() == old(Db())
    {
      if !ValidState(s) {
        return Failure(StateCorrupt);
      }
      states := states[s.task := s];
      r := Success(());
    }

    /** One pass over the rows of a generation. */
    method ReadAuditEvents(task: string, generation: nat) returns (r: Result<seq<Event>, StoreError>)
      ensures r == ReadEvents(Db(), task, generation)
    {
      if generation < 1 {
        return Failure(InvalidInput);
      }
      var rows := RowsOf(task, generation);
      var events: seq<Event> := [];
      var n := 0;
      while n < |rows|
        invariant 0 <= n <= |rows| && |events| == n
        invariant forall i :: 0 <= i < n ==> Readable(rows, i, task, generation) && events[i] == rows[i].event
      {
        assert AllReadable(rows, task, generation) ==> Readable(rows, n, task, generation);
        if rows[n].sequence != n + 1 {
          return Failure(AuditCorrupt);
        }
        var event := rows[n].event;
        if !ValidEvent(event) {
          return Failure(AuditCorrupt);
        }
        if event.body.task != task || event.body.generation != generation || event.body.sequence != rows[n].sequence {
          return Failure(AuditCorrupt);
        }
        events := events + [event];
        n := n + 1;
      }
      assert events == Events(rows);
      r := Success(events);
    }
  }
}
