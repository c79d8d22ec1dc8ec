/** The two walks over the audit generations of a task: the engine's and the store's. */
module Lineage {
  import opened Results
  import opened Audit
  import opened Store

  datatype Origin = Origin(task: string, project: string, generation: nat)

  /** The event a walk must end a generation with; the sequence is known only for a predecessor. */
  datatype Head = Head(id: Id, sequence: Option<nat>, hash: Hash)

  datatype Link = Ended | Continues(generation: nat, head: Head)

  datatype Walker = EngineWalker | StoreWalker

  /** Event `i` belongs to the generation and continues its hash chain. */
  predicate Linked(events: seq<Event>, i: nat, o: Origin)
    requires i < |events|
  {
    var b := events[i].body;
    && b.project == o.project && b.task == o.task && b.generation == o.generation && b.sequence == i + 1
    && b.previous == (if i == 0 then None else Some(events[i - 1].hash))
    && events[i].hash == Digest(b)
  }

  /** The index of the head: every event up to it is linked, and none before it has its hash. */
  function EngineHead(events: seq<Event>, o: Origin, head: Hash, i: nat): Option<nat>
    requires i <= |events|
    decreases |events| - i
  {
    if i == |events| || !Linked(events, i, o) then None
    else if events[i].hash == head then Some(i)
    else EngineHead(events, o, head, i + 1)
  }

  /** The store's scan validates each row as it meets it, and stops at the head. */
  function StoreHead(rows: seq<Row>, o: Origin, head: Hash, i: nat): Option<nat>
    requires i <= |rows|
    decreases |rows| - i
  {
    if i == |rows| || !Readable(rows, i, o.task, o.generation) || !Linked(Events(rows), i, o) then None
    else if rows[i].event.hash == head then Some(i)
    else StoreHead(rows, o, head, i + 1)
  }

  function HeadIndex(w: Walker, rows: seq<Row>, o: Origin, head: Hash): Option<nat> {
    match w
    case EngineWalker => if AllReadable(rows, o.task, o.generation) then EngineHead(Events(rows), o, head, 0) else None
    case StoreWalker => StoreHead(rows, o, head, 0)
  }

  predicate HeadFits(e: Event, head: Head) {
    e.body.id == head.id && (head.sequence.Some? ==> e.body.sequence == head.sequence.value)
  }

  /** The trusted part of one generation; the current generation is trusted to its tail. */
  function Trusted(w: Walker, rows: seq<Row>, o: Origin, head: Head, current: bool): Option<seq<Event>> {
    match HeadIndex(w, rows, o, head.hash)
    case None => None
    case Some(h) =>
      if h < |rows| && HeadFits(rows[h].event, head) && (current ==> h == |rows| - 1)
      then Some(Events(rows)[..h + 1]) else None
  }

  /** Where the first event of a generation says the generation came from. */
  function Predecessor(first: Event, generation: nat): (link: Option<Link>)
    ensures link.Some? && link.value.Continues? ==> link.value.generation < generation
  {
    var details := first.body.details;
    if details.generation == None || details.generation.value.generation != generation then None
    else
      var record := details.generation.value;
      match record.predecessor
      case None => if generation != 1 || record.predecessorHash.Some? then None else Some(Ended)
      case Some(predecessor) =>
        if predecessor >= generation || details.recovery == None then None
        else
          var prefix := details.recovery.value.prefix;
          if prefix.generation != predecessor || record.predecessorHash != Some(prefix.eventHash) then None
          else Some(Continues(predecessor, Head(prefix.eventId, Some(prefix.sequence), prefix.eventHash)))
  }

  /** The trusted events of the generations from the first to `o.generation`. */
  function Walk(w: Walker, t: Tables, o: Origin, current: nat, head: Head): Option<seq<Event>>
    decreases o.generation
  {
    if o.generation < 1 || o.generation > current then None
    else
      match Trusted(w, Rows(t, o.task, o.generation), o, head, o.generation == current)
      case None => None
      case Some(prefix) =>
        if prefix == [] then None
        else
          match Predecessor(prefix[0], o.generation)
          case None => None
          case Some(Ended) => Some(prefix)
          case Some(Continues(g, h)) =>
            match Walk(w, t, o.(generation := g), current, h)
            case None => None
            case Some(earlier) => Some(earlier + prefix)
  }

  function LineageOf(w: Walker, t: Tables, s: TaskState): Option<seq<Event>> {
    Walk(w, t, Origin(s.task, s.project, s.generation), s.generation, Head(s.headId, None, s.headHash))
  }

  predicate Embeds(e: Event, r: Resolution) {
    e.body.decision.Some? && e.body.decision.value.embedded == Some(r)
  }

  /** Whether the store's walk finds the resolution in the lineage of its task. */
  function CommittedResolution(t: Tables, r: Resolution): Option<bool> {
    match ReadState(t, r.task)
    case Failure(_) => None
    case Success(s) =>
      match LineageOf(StoreWalker, t, s)
      case None => None
      case Some(lineage) => Some(exists e :: e in lineage && Embeds(e, r))
  }

  // The walks as loops.

  function Joined(earlier: Option<seq<Event>>, later: seq<Event>): Option<seq<Event>> {
    if earlier == None then None else Some(earlier.value + later)
  }

  method TrustedPrefixOfEngine(store: WorkflowStore, o: Origin, head: Head, current: bool)
    returns (r: Option<seq<Event>>)
    requires o.generation >= 1
    ensures r == Trusted(EngineWalker, Rows(store.Db(), o.task, o.generation), o, head, current)
  {
    var read := store.ReadAuditEvents(o.task, o.generation);
    if read.Failure? {
      return None;
    }
    var events := read.value;
    var prefix: seq<Event> := [];
    var previous: Option<Hash> := None;
    var n := 0;
    while n < |events|
      invariant 0 <= n <= |events| && prefix == events[..n]
      invariant previous == (if n == 0 then None else Some(events[n - 1].hash))
      invariant EngineHead(events, o, head.hash, 0) == EngineHead(events, o, head.hash, n)
    {
      var b := events[n].body;
      if || b.project != o.project || b.task != o.task || b.generation != o.generation
         || b.sequence != |prefix| + 1 || b.previous != previous || events[n].hash != Digest(b)
      {
        return None;
      }
      prefix := prefix + [events[n]];
      assert prefix == events[..n + 1];
      previous := Some(events[n].hash);
      if events[n].hash == head.hash {
        if !HeadFits(events[n], head) || (current && n != |events| - 1) {
          return None;
        }
        return Some(prefix);
      }
      n := n + 1;
    }
    r := None;
  }

  method TrustedPrefixOfStore(store: WorkflowStore, o: Origin, head: Head, current: bool)
    returns (r: Option<seq<Event>>)
    ensures r == Trusted(StoreWalker, Rows(store.Db(), o.task, o.generation), o, head, current)
  {
    hide ValidEvent, Readable, Linked;
    var rows := store.RowsOf(o.task, o.generation);
    var prefix: seq<Event> := [];
    var previous: Option<Hash> := None;
    var n := 0;
    while n < |rows|
      invariant 0 <= n <= |rows| && prefix == Events(rows)[..n]
      invariant previous == (if n == 0 then None else Some(rows[n - 1].event.hash))
      invariant StoreHead(rows, o, head.hash, 0) == StoreHead(rows, o, head.hash, n)
    {
      RowAccepted(rows, n, o);
      var event := rows[n].event;
      if rows[n].sequence != n + 1 || !ValidEvent(event) {
        return None;
      }
      var b := event.body;
      if || b.task != o.task || b.project != o.project || b.generation != o.generation
         || b.sequence != n + 1 || b.previous != previous
      {
        return None;
      }
      prefix := prefix + [event];
      assert prefix == Events(rows)[..n + 1];
      previous := Some(event.hash);
      if event.hash == head.hash {
        if !HeadFits(event, head) || (current && n != |rows| - 1) {
          return None;
        }
        return Some(prefix);
      }
      n := n + 1;
    }
    r := None;
  }

  /** A row the store's scan accepts: readable and linked, tested once each. */
  lemma RowAccepted(rows: seq<Row>, n: nat, o: Origin)
    requires n < |rows|
    ensures Readable(rows, n, o.task, o.generation) && Linked(Events(rows), n, o)
       <==> (&& rows[n].sequence == n + 1 && ValidEvent(rows[n].event)
             && var b := rows[n].event.body;
                && b.task == o.task && b.project == o.project && b.generation == o.generation && b.sequence == n + 1
                && b.previous == (if n == 0 then None else Some(rows[n - 1].event.hash)))
  {
    hide ValidBody;
  }

  /** The engine's walk, generation by generation, newest first. */
  method TrustedAuditLineage(store: WorkflowStore, s: TaskState) returns (r: Option<seq<Event>>)
    ensures r == LineageOf(EngineWalker, store.Db(), s)
  {
    hide Trusted, Predecessor;
    var o := Origin(s.task, s.project, s.generation);
    var head := Head(s.headId, None, s.headHash);
    var visited: set<nat> := {};
    var trusted: seq<Event> := [];
    ghost var goal := Walk(EngineWalker, store.Db(), o, s.generation, head);
    assert goal.Some? ==> goal.value + [] == goal.value;
    while true
      invariant forall g :: g in visited ==> o.generation < g
      invariant goal == Joined(Walk(EngineWalker, store.Db(), o, s.generation, head), trusted)
      decreases o.generation
    {
      if o.generation in visited || o.generation < 1 || o.generation > s.generation {
        return None;
      }
      visited := visited + {o.generation};
      var prefix := TrustedPrefixOfEngine(store, o, head, o.generation == s.generation);
      if prefix == None || prefix.value == [] {
        return None;
      }
      var link := Predecessor(prefix.value[0], o.generation);
      if link == None {
        return None;
      }
      ghost var later := trusted;
      trusted := prefix.value + trusted;
      if link.value.Ended? {
        return Some(trusted);
      }
      ghost var earlier := Walk(EngineWalker, store.Db(), o.(generation := link.value.generation), s.generation, link.value.head);
      assert earlier.Some? ==> (earlier.value + prefix.value) + later == earlier.value + trusted;
      o := o.(generation := link.value.generation);
      head := link.value.head;
    }
  }

  /** The store's walk, which looks for one resolution on the way. */
  method HasCommittedDecisionResolution(store: WorkflowStore, resolution: Resolution) returns (r: Option<bool>)
    ensures r == CommittedResolution(store.Db(), resolution)
  {
    hide Trusted, Predecessor, ValidState;
    if resolution.task !in store.states {
      return None;
    }
    var s := store.states[resolution.task];
    if !ValidState(s) || s.task != resolution.task {
      return None;
    }
    var o := Origin(s.task, s.project, s.generation);
    var head := Head(s.headId, None, s.headHash);
    var visited: set<nat> := {};
    var found := false;
    ghost var later: seq<Event> := [];
    ghost var goal := Walk(StoreWalker, store.Db(), o, s.generation, head);
    assert goal.Some? ==> goal.value + [] == goal.value;
    while true
      invariant forall g :: g in visited ==> o.generation < g
      invariant goal == Joined(Walk(StoreWalker, store.Db(), o, s.generation, head), later)
      invariant found <==> exists e :: e in later && Embeds(e, resolution)
      decreases o.generation
    {
      if o.generation in visited || o.generation < 1 || o.generation > s.generation {
        return None;
      }
      visited := visited + {o.generation};
      var prefix := TrustedPrefixOfStore(store, o, head, o.generation == s.generation);
      if prefix == None || prefix.value == [] {
        return None;
      }
      found := found || exists e | e in prefix.value :: Embeds(e, resolution);
      var link := Predecessor(prefix.value[0], o.generation);
      if link == None {
        return None;
      }
      ghost var before := later;
      later := prefix.value + before;
      assert found <==> exists e :: e in later && Embeds(e, resolution);
      if link.value.Ended? {
        return Some(found);
      }
      ghost var earlier := Walk(StoreWalker, store.Db(), o.(generation := link.value.generation), s.generation, link.value.head);
      assert earlier.Some? ==> (earlier.value + prefix.value) + before == earlier.value + later;
      o := o.(generation := link.value.generation);
      head := link.value.head;
    }
  }
}
