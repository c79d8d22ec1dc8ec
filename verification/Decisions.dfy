/** The decision queue: pending and resolved files written once, and the listing that consults the store. */
module Decisions {
  import opened Results
  import opened Stages
  import opened Audit
  import opened Store
  import opened Lineage

  datatype DecisionRequest = DecisionRequest(
    decisionId: Id, project: string, task: string, stage: Stage, trigger: string, options: seq<string>,
    evidence: seq<string>, createdAt: nat)

  /** A file between its exclusive creation and its write is torn; if its writer dies it stays so. */
  datatype QueueFile<T> = Torn(writer: nat) | Whole(record: T)

  datatype Queue = Queue(pending: map<Id, QueueFile<DecisionRequest>>, resolved: map<Id, QueueFile<Resolution>>)

  predicate Answers(x: Resolution, r: DecisionRequest) {
    && x.decisionId == r.decisionId && x.project == r.project && x.task == r.task
    && x.resumeState == r.stage && x.option in r.options
  }

  /** The pending request a resolution answers. */
  function RequestFor(q: Queue, x: Resolution): Option<DecisionRequest> {
    if x.decisionId in q.pending && q.pending[x.decisionId].Whole? && Answers(x, q.pending[x.decisionId].record)
    then Some(q.pending[x.decisionId].record) else None
  }

  // Writing once.

  datatype Opening = Created | AlreadyWritten | Conflict

  function OpenPending(q: Queue, r: DecisionRequest): Opening {
    if r.decisionId !in q.pending then Created
    else if q.pending[r.decisionId] == Whole(r) then AlreadyWritten
    else Conflict
  }

  function OpenResolved(q: Queue, x: Resolution): Opening {
    if x.decisionId !in q.resolved then Created
    else if q.resolved[x.decisionId] == Whole(x) then AlreadyWritten
    else Conflict
  }

  // Listing.

  datatype Listed = Skipped | Kept(request: DecisionRequest) | Unreadable

  /** What the listing makes of one pending file. */
  function Examine(q: Queue, t: Tables, name: Id): Listed {
    if name !in q.pending || q.pending[name].Torn? then Unreadable
    else
      var request := q.pending[name].record;
      if request.decisionId !in q.resolved then Kept(request)
      else if q.resolved[request.decisionId].Torn? then Unreadable
      else
        var resolution := q.resolved[request.decisionId].record;
        if !Answers(resolution, request) then Unreadable
        else
          match CommittedResolution(t, resolution)
          case None => Unreadable
          case Some(committed) => if committed then Skipped else Kept(request)
  }

  function Collect(q: Queue, t: Tables, names: seq<Id>): Option<seq<DecisionRequest>> {
    if names == [] then Some([])
    else
      match Collect(q, t, DropLast(names))
      case None => None
      case Some(earlier) =>
        match Examine(q, t, Last(names))
        case Unreadable => None
        case Skipped => Some(earlier)
        case Kept(request) => Some(earlier + [request])
  }

  /** The records list exactly the tasks that wait, each once, under the decision it waits for. */
  predicate MatchesWaiting(records: seq<DecisionRequest>, waiting: map<string, Id>) {
    && (forall i, j :: 0 <= i < j < |records| ==> records[i].task != records[j].task)
    && (forall i :: 0 <= i < |records| ==> records[i].task in waiting && waiting[records[i].task] == records[i].decisionId)
    && (forall task :: task in waiting ==> exists i :: 0 <= i < |records| && records[i].task == task)
  }

  function ListPending(q: Queue, t: Tables, names: seq<Id>): Option<seq<DecisionRequest>> {
    match Collect(q, t, names)
    case None => None
    case Some(records) => if StatesReadable(t) && MatchesWaiting(records, Waiting(t)) then Some(records) else None
  }

  /** The names of a directory, each once. */
  ghost predicate Listing(names: seq<Id>, q: Queue) {
    && (forall i, j :: 0 <= i < j < |names| ==> names[i] != names[j])
    && (forall name :: name in names <==> name in q.pending)
  }

  class DecisionQueue {
    var pending: map<Id, QueueFile<DecisionRequest>>
    var resolved: map<Id, QueueFile<Resolution>>
    const store: WorkflowStore

    constructor (store: WorkflowStore)
      ensures Contents() == Queue(map[], map[]) && this.store == store
    {
      pending, resolved := map[], map[];
      this.store := store;
    }

    ghost function Contents(): Queue
      reads this
    {
      Queue(pending, resolved)
    }

    /** Writes the request once; an identical request is already there. */
    method Create(r: DecisionRequest) returns (ok: bool)
      modifies this`pending
      ensures ok <==> OpenPending(old(Contents()), r) != Conflict
      ensures pending == if ok then old(pending)[r.decisionId := Whole(r)] else old(pending)
    {
      if r.decisionId in pending {
        ok := pending[r.decisionId] == Whole(r);
        assert ok ==> pending[r.decisionId := Whole(r)] == pending;
        return;
      }
      pending := pending[r.decisionId := Whole(r)];
      ok := true;
    }

    /** Writes a resolution that answers its pending request, once. */
    method Resolve(x: Resolution) returns (ok: bool)
      modifies this`resolved
      ensures ok <==> RequestFor(old(Contents()), x).Some? && OpenResolved(old(Contents()), x) != Conflict
      ensures resolved == if ok then old(resolved)[x.decisionId := Whole(x)] else old(resolved)
    {
      if x.decisionId !in pending || pending[x.decisionId].Torn? || !Answers(x, pending[x.decisionId].record) {
        return false;
      }
      if x.decisionId in resolved {
        ok := resolved[x.decisionId] == Whole(x);
        assert ok ==> resolved[x.decisionId := Whole(x)] == resolved;
        return;
      }
      resolved := resolved[x.decisionId := Whole(x)];
      ok := true;
    }

    /** One pass over the directory, consulting the store about every resolved decision. */
    method List(names: seq<Id>) returns (r: Option<seq<DecisionRequest>>)
      ensures r == ListPending(Contents(), store.Db(), names)
    {
      hide CommittedResolution, MatchesWaiting, Answers, Waiting;
      ghost var q, t := Contents(), store.Db();
      var records: seq<DecisionRequest> := [];
      var n := 0;
      while n < |names|
        invariant 0 <= n <= |names|
        invariant Collect(q, t, names[..n]) == Some(records)
        invariant Collect(q, t, names).Some? ==> Collect(q, t, names[..n]).Some?
      {
        assert DropLast(names[..n + 1]) == names[..n] && Last(names[..n + 1]) == names[n];
        CollectPrefix(q, t, names, n + 1);
        var name := names[n];
        n := n + 1;
        if name !in pending || pending[name].Torn? {
          return None;
        }
        var request := pending[name].record;
        if request.decisionId in resolved {
          if resolved[request.decisionId].Torn? {
            return None;
          }
          var resolution := resolved[request.decisionId].record;
          if !Answers(resolution, request) {
            return None;
          }
          var committed := HasCommittedDecisionResolution(store, resolution);
          if committed == None {
            return None;
          }
          if committed.value {
            continue;
          }
        }
        records := records + [request];
      }
      assert names[..n] == names;
      var waiting := ReadWaiting(store);
      r := if waiting.Some? && MatchesWaiting(records, waiting.value) then Some(records) else None;
    }
  }

  /** Every waiting task with the decision it waits for. */
  method ReadWaiting(store: WorkflowStore) returns (r: Option<map<string, Id>>)
    ensures r == if StatesReadable(store.Db()) then Some(Waiting(store.Db())) else None
  {
    hide ValidState;
    var waiting: map<string, Id> := map[];
    var left := store.states.Keys;
    while left != {}
      invariant left <= store.states.Keys
      invariant forall task :: task in store.states && task !in left ==> ReadState(store.Db(), task).Success?
      invariant forall task :: task in waiting <==>
                  (&& task in store.states && task !in left && store.states[task].current == WaitingHuman
                   && store.states[task].pending.Some?)
      invariant forall task :: task in waiting ==> waiting[task] == store.states[task].pending.value
    {
      var task :| task in left;
      var s := store.states[task];
      if !ValidState(s) || s.task != task {
        return None;
      }
      if s.current == WaitingHuman && s.pending.Some? {
        waiting := waiting[task := s.pending.value];
      }
      left := left - {task};
    }
    assert waiting == Waiting(store.Db());
    r := Some(waiting);
  }

  lemma {:induction false} CollectPrefix(q: Queue, t: Tables, names: seq<Id>, n: nat)
    requires n <= |names|
    ensures Collect(q, t, names).Some? ==> Collect(q, t, names[..n]).Some?
    decreases |names|
  {
    hide Examine;
    if n < |names| {
      CollectPrefix(q, t, DropLast(names), n);
      assert DropLast(names)[..n] == names[..n];
    } else {
      assert names[..n] == names;
    }
  }

  /** The listing reads every file: it keeps the requests of the files it does not skip, in order. */
  lemma {:induction false} CollectKeeps(q: Queue, t: Tables, names: seq<Id>)
    ensures Collect(q, t, names).Some? <==> forall i :: 0 <= i < |names| ==> Examine(q, t, names[i]) != Unreadable
    ensures Collect(q, t, names).Some? ==>
              forall r :: r in Collect(q, t, names).value
                <==> exists i :: 0 <= i < |names| && Examine(q, t, names[i]) == Kept(r)
  {
    hide Examine;
    if names != [] {
      var rest := DropLast(names);
      CollectKeeps(q, t, rest);
      assert forall i :: 0 <= i < |rest| ==> rest[i] == names[i];
    }
  }
}
