/** What a successful walk proves: the head hash fixes the history, and when the two walkers agree. */
module LineageLaws {
  import opened Results
  import opened Audit
  import opened Store
  import opened Lineage

  /** Consecutive linked events from the start of a generation. */
  predicate Chain(events: seq<Event>, o: Origin) {
    events != [] && forall i :: 0 <= i < |events| ==> Linked(events, i, o)
  }

  lemma {:induction false} EngineHeadMeans(events: seq<Event>, o: Origin, head: Hash, i: nat, h: nat)
    requires i <= h < |events|
    ensures EngineHead(events, o, head, i) == Some(h)
       <==> (&& (forall j :: i <= j <= h ==> Linked(events, j, o))
             && events[h].hash == head && (forall j :: i <= j < h ==> events[j].hash != head))
    decreases |events| - i
  {
    hide Linked;
    if i < h {
      EngineHeadMeans(events, o, head, i + 1, h);
    }
    EngineHeadInRange(events, o, head, i + 1);
  }

  lemma {:induction false} EngineHeadInRange(events: seq<Event>, o: Origin, head: Hash, i: nat)
    requires i <= |events|
    ensures var h := EngineHead(events, o, head, i); h.Some? ==> i <= h.value < |events|
    decreases |events| - i
  {
    hide Linked;
    if i < |events| {
      EngineHeadInRange(events, o, head, i + 1);
    }
  }

  lemma {:induction false} StoreHeadMeans(rows: seq<Row>, o: Origin, head: Hash, i: nat, h: nat)
    requires i <= h < |rows|
    ensures StoreHead(rows, o, head, i) == Some(h)
       <==> (&& EngineHead(Events(rows), o, head, i) == Some(h)
             && (forall j :: i <= j <= h ==> Readable(rows, j, o.task, o.generation)))
    decreases |rows| - i
  {
    hide Linked, Readable;
    if i < h {
      StoreHeadMeans(rows, o, head, i + 1, h);
    }
    StoreHeadInRange(rows, o, head, i + 1);
    EngineHeadInRange(Events(rows), o, head, i + 1);
  }

  lemma {:induction false} StoreHeadInRange(rows: seq<Row>, o: Origin, head: Hash, i: nat)
    requires i <= |rows|
    ensures var h := StoreHead(rows, o, head, i); h.Some? ==> i <= h.value < |rows|
    decreases |rows| - i
  {
    hide Linked, Readable;
    if i < |rows| {
      StoreHeadInRange(rows, o, head, i + 1);
    }
  }

  /** A trusted prefix is a chain that ends in the expected head. */
  lemma TrustedIsChain(w: Walker, rows: seq<Row>, o: Origin, head: Head, current: bool)
    requires Trusted(w, rows, o, head, current).Some?
    ensures var p := Trusted(w, rows, o, head, current).value;
            Chain(p, o) && Last(p).hash == head.hash && p <= Events(rows)
  {
    hide Readable, Linked;
    var events := Events(rows);
    var h := HeadIndex(w, rows, o, head.hash).value;
    if w == StoreWalker {
      StoreHeadMeans(rows, o, head.hash, 0, h);
    }
    EngineHeadMeans(events, o, head.hash, 0, h);
    var p := events[..h + 1];
    forall i | 0 <= i < |p| ensures Linked(p, i, o) {
      LinkedInPrefix(events, h + 1, i, o);
    }
  }

  lemma LinkedInPrefix(events: seq<Event>, n: nat, i: nat, o: Origin)
    requires i < n <= |events|
    ensures Linked(events[..n], i, o) == Linked(events, i, o)
  {
  }

  /** Two chains with the same last hash are the same chain, of the same task, project and generation. */
  lemma {:induction false} ChainsAgree(p: seq<Event>, o1: Origin, q: seq<Event>, o2: Origin)
    requires Chain(p, o1) && Chain(q, o2) && Last(p).hash == Last(q).hash
    ensures p == q && o1 == o2
    decreases |p|
  {
    var n := |p| - 1;
    assert Linked(p, n, o1) && Linked(q, |q| - 1, o2);
    assert |p| == |q| && Last(p) == Last(q);
    if n > 0 {
      ChainPrefix(p, o1);
      ChainPrefix(q, o2);
      assert p[n - 1].hash == q[n - 1].hash;
      ChainsAgree(DropLast(p), o1, DropLast(q), o2);
      assert p == DropLast(p) + [Last(p)] && q == DropLast(q) + [Last(q)];
    }
  }

  lemma ChainPrefix(p: seq<Event>, o: Origin)
    requires Chain(p, o) && |p| > 1
    ensures Chain(DropLast(p), o)
  {
    hide Linked;
    forall i | 0 <= i < |p| - 1 ensures Linked(DropLast(p), i, o) {
      LinkedInPrefix(p, |p| - 1, i, o);
    }
  }

  /** The head hash alone determines the lineage, whatever the store, the walker or the rest of the request. */
  lemma {:induction false} HeadDeterminesHistory(
    w1: Walker, t1: Tables, o1: Origin, c1: nat, h1: Head, w2: Walker, t2: Tables, o2: Origin, c2: nat, h2: Head)
    requires h1.hash == h2.hash
    requires Walk(w1, t1, o1, c1, h1).Some? && Walk(w2, t2, o2, c2, h2).Some?
    ensures Walk(w1, t1, o1, c1, h1) == Walk(w2, t2, o2, c2, h2) && o1 == o2
    decreases o1.generation
  {
    hide Trusted, Predecessor, Linked;
    var current1, current2 := o1.generation == c1, o2.generation == c2;
    var rows1, rows2 := Rows(t1, o1.task, o1.generation), Rows(t2, o2.task, o2.generation);
    TrustedIsChain(w1, rows1, o1, h1, current1);
    TrustedIsChain(w2, rows2, o2, h2, current2);
    var prefix := Trusted(w1, rows1, o1, h1, current1).value;
    ChainsAgree(prefix, o1, Trusted(w2, rows2, o2, h2, current2).value, o2);
    var link := Predecessor(prefix[0], o1.generation).value;
    if link.Continues? {
      var earlier := o1.(generation := link.generation);
      HeadDeterminesHistory(w1, t1, earlier, c1, link.head, w2, t2, earlier, c2, link.head);
    }
  }

  // Agreement of the walkers.

  /** What the engine asks of one generation is what the store asks, and that the rows past the head are readable. */
  lemma TrustedAgrees(rows: seq<Row>, o: Origin, head: Head, current: bool)
    ensures var strict, lax := Trusted(EngineWalker, rows, o, head, current), Trusted(StoreWalker, rows, o, head, current);
            strict == if AllReadable(rows, o.task, o.generation) then lax else None
  {
    hide Readable, Linked;
    var events := Events(rows);
    var e, s := EngineHead(events, o, head.hash, 0), StoreHead(rows, o, head.hash, 0);
    EngineHeadInRange(events, o, head.hash, 0);
    StoreHeadInRange(rows, o, head.hash, 0);
    if AllReadable(rows, o.task, o.generation) {
      if e.Some? { StoreHeadMeans(rows, o, head.hash, 0, e.value); }
      if s.Some? { StoreHeadMeans(rows, o, head.hash, 0, s.value); }
      assert e == s;
    }
  }

  /** Every generation the lineage draws on is readable to its end. */
  predicate TailsReadable(t: Tables, task: string, lineage: seq<Event>) {
    forall i :: 0 <= i < |lineage| ==>
      AllReadable(Rows(t, task, lineage[i].body.generation), task, lineage[i].body.generation)
  }

  lemma FirstOfChain(p: seq<Event>, o: Origin)
    requires Chain(p, o)
    ensures forall i :: 0 <= i < |p| ==> p[i].body.generation == o.generation && p[i].body.task == o.task
  {
    forall i | 0 <= i < |p| ensures p[i].body.generation == o.generation && p[i].body.task == o.task {
      assert Linked(p, i, o);
    }
  }

  /** The engine's walk succeeds exactly when the store's does and no row past a trusted head is
      unreadable; the lineages are then the same. */
  lemma {:induction false} WalkersAgree(t: Tables, o: Origin, current: nat, head: Head)
    ensures var strict, lax := Walk(EngineWalker, t, o, current, head), Walk(StoreWalker, t, o, current, head);
            strict == if lax.Some? && TailsReadable(t, o.task, lax.value) then lax else None
    decreases o.generation
  {
    hide Trusted, Predecessor, AllReadable;
    var rows := Rows(t, o.task, o.generation);
    TrustedAgrees(rows, o, head, o.generation == current);
    var prefix := Trusted(StoreWalker, rows, o, head, o.generation == current);
    var lax := Walk(StoreWalker, t, o, current, head);
    if 1 <= o.generation <= current && prefix.Some? && prefix.value != [] {
      TrustedIsChain(StoreWalker, rows, o, head, o.generation == current);
      FirstOfChain(prefix.value, o);
      var link := Predecessor(prefix.value[0], o.generation);
      if link.Some? && link.value.Continues? {
        var before := o.(generation := link.value.generation);
        WalkersAgree(t, before, current, link.value.head);
        var earlier := Walk(StoreWalker, t, before, current, link.value.head);
        if earlier.Some? {
          TailsJoin(t, o, earlier.value, prefix.value);
        }
      } else if link.Some? {
        TailsJoin(t, o, [], prefix.value);
        assert [] + prefix.value == prefix.value;
      }
    }
  }

  lemma TailsJoin(t: Tables, o: Origin, earlier: seq<Event>, prefix: seq<Event>)
    requires prefix != [] && forall i :: 0 <= i < |prefix| ==> prefix[i].body.generation == o.generation
    ensures TailsReadable(t, o.task, earlier + prefix)
       <==> TailsReadable(t, o.task, earlier) && AllReadable(Rows(t, o.task, o.generation), o.task, o.generation)
  {
    hide AllReadable;
    var all := earlier + prefix;
    assert forall i :: 0 <= i < |earlier| ==> all[i] == earlier[i];
    assert forall i :: 0 <= i < |prefix| ==> all[|earlier| + i] == prefix[i];
    assert all[|earlier|] == prefix[0];
  }

  /** Whenever the engine trusts a lineage, the store answers about resolutions from that lineage. */
  lemma ResolutionIsInTheLineage(t: Tables, s: TaskState, lineage: seq<Event>, r: Resolution)
    requires ReadState(t, r.task) == Success(s) && LineageOf(EngineWalker, t, s) == Some(lineage)
    ensures CommittedResolution(t, r) == Some(exists e :: e in lineage && Embeds(e, r))
  {
    hide TailsReadable, Walk;
    WalkersAgree(t, Origin(s.task, s.project, s.generation), s.generation, Head(s.headId, None, s.headHash));
  }

  // The converse fails: a generation left behind by a recovery may hold an unreadable row past its
  // trusted head, which only the engine reads.

  function FirstEvent(): Event { CreationEvent("T", "P", Stages.Planner, 0) }

  function FirstHead(): Head { Head(FirstEvent().body.id, Some(1), FirstEvent().hash) }

  function RestartEvent(): Event {
    var id := Named("R");
    var prefix := TrustedPrefix(1, 1, FirstEvent().body.id, FirstEvent().hash);
    Sealed(Body(id, 2, 1, "P", "T", RecoveryRecorded, Stages.Human, None, None, None, None, [], None, None, 1,
      Details(Some(GenerationRecord(2, "T", id, RecoveryRecorded, Some(1), Some(FirstEvent().hash), Some("q"))),
              Some(RecoveryDetails("R", QuarantineAndStartGeneration, "X", prefix, "q")))))
  }

  /** The second row of generation one repeats the first event under the wrong sequence. */
  function TornTables(): Tables {
    Tables(map[], map[("T", 1) := [Row(1, FirstEvent()), Row(2, FirstEvent())], ("T", 2) := [Row(1, RestartEvent())]])
  }

  lemma SoleHead(rows: seq<Row>, o: Origin, head: Head, current: bool)
    requires rows != [] && Readable(rows, 0, o.task, o.generation) && Linked(Events(rows), 0, o)
    requires rows[0].event.hash == head.hash && HeadFits(rows[0].event, head) && (current ==> |rows| == 1)
    ensures Trusted(StoreWalker, rows, o, head, current) == Some([rows[0].event])
  {
    hide Readable, Linked;
    assert StoreHead(rows, o, head.hash, 0) == Some(0);
    assert Events(rows)[..1] == [rows[0].event];
  }

  lemma TornTablesWalk()
    ensures Walk(StoreWalker, TornTables(), Origin("T", "P", 1), 2, FirstHead()) == Some([FirstEvent()])
    ensures LineageOf(StoreWalker, TornTables(), StateOf(RestartEvent())) == Some([FirstEvent(), RestartEvent()])
  {
    hide Trusted;
    var t := TornTables();
    var o1, o2 := Origin("T", "P", 1), Origin("T", "P", 2);
    SoleHead(Rows(t, "T", 1), o1, FirstHead(), false);
    SoleHead(Rows(t, "T", 2), o2, Head(RestartEvent().body.id, None, RestartEvent().hash), true);
    assert Predecessor(FirstEvent(), 1) == Some(Ended);
    assert Predecessor(RestartEvent(), 2) == Some(Continues(1, FirstHead()));
    assert [FirstEvent()] + [RestartEvent()] == [FirstEvent(), RestartEvent()];
  }

  lemma StoreWalkerIsLaxer()
    ensures exists t: Tables, s: TaskState ::
              LineageOf(StoreWalker, t, s).Some? && LineageOf(EngineWalker, t, s) == None
  {
    hide Walk, Trusted, Predecessor;
    var t, s := TornTables(), StateOf(RestartEvent());
    TornTablesWalk();
    WalkersAgree(t, Origin("T", "P", 2), 2, Head(s.headId, None, s.headHash));
    assert !Readable(Rows(t, "T", 1), 1, "T", 1);
    var lineage := LineageOf(StoreWalker, t, s).value;
    assert lineage[0].body.generation == 1;
    assert !TailsReadable(t, "T", lineage);
    assert LineageOf(StoreWalker, t, s).Some? && LineageOf(EngineWalker, t, s) == None;
  }
}
