/** The invariant of the engine, step by step. */
module EngineSteps {
  import opened Results
  import opened Stages
  import opened Evidence
  import opened Audit
  import opened Store
  import opened Lineage
  import opened TaskLog
  import opened Gates
  import opened Decisions
  import opened Engine
  import opened EngineInvariant
  import Policy

  /** A step that only moves the process itself. */
  lemma AtKeeps(bundle: Policy.Bundle, s: System, p: Pid, ph: Phase)
    requires Safe(bundle, s) && PhaseSound(bundle, s.history, s.queue, p, ph)
    ensures Safe(bundle, At(s, p, ph))
  {
    hide LogsSound, PhaseSound;
    var s' := At(s, p, ph);
    forall o: Pid ensures PhaseSound(bundle, s'.history, s'.queue, o, PhaseOf(s', o)) {
      assert PhaseSound(bundle, s.history, s.queue, o, PhaseOf(s, o));
    }
  }

  lemma OwnPhase(bundle: Policy.Bundle, s: System, p: Pid)
    requires Safe(bundle, s)
    ensures PhaseSound(bundle, s.history, s.queue, p, PhaseOf(s, p)) && LogsSound(bundle, s.tables, s.history, s.queue)
  {
    hide PhaseSound, LogsSound;
  }

  lemma TaskIsLogged(bundle: Policy.Bundle, s: System, task: string)
    requires Safe(bundle, s) && task in s.history
    ensures Logged(s.tables, task, s.history[task]) && Gated(bundle, s.history[task]) && Filed(s.queue, task, s.history[task])
    ensures s.history[task] != []
  {
    hide PhaseSound, GoodLog, Gated, Filed, QueueSound;
  }

  lemma StateIsInHistory(bundle: Policy.Bundle, s: System, task: string)
    requires Safe(bundle, s) && task in s.tables.states
    ensures task in s.history
  {
    hide PhaseSound, Gated, Filed, QueueSound, Logged;
  }

  // Reading and judging.

  lemma LoadKeeps(bundle: Policy.Bundle, s: System, p: Pid, task: string)
    requires Safe(bundle, s) && Act(bundle, s, p, Load(task)).Some?
    ensures Safe(bundle, Act(bundle, s, p, Load(task)).value)
  {
    hide Safe, GoodLog, Gated, Filed;
    StateIsInHistory(bundle, s, task);
    TaskIsLogged(bundle, s, task);
    var cur := ReadState(s.tables, task).value;
    var log := s.history[task];
    assert cur == StateOf(Last(log)) && Last(log) in log;
    LogTask(log, task);
    AtKeeps(bundle, s, p, Loaded(cur));
  }

  lemma LogTask(log: seq<Event>, task: string)
    requires log != [] && GoodLog(log, task)
    ensures Last(log).body.task == task
  {
    hide ValidEvent;
    LogEntry(log, task, |log| - 1);
  }

  /** From a fresh state the walk is the log, and so is the current generation. */
  lemma FreshReads(bundle: Policy.Bundle, s: System, cur: TaskState)
    requires Safe(bundle, s) && Fresh(s.history, cur)
    ensures LineageOf(EngineWalker, s.tables, cur) == Some(s.history[cur.task])
    ensures ReadEvents(s.tables, cur.task, cur.generation) == Success(s.history[cur.task])
  {
    hide Safe, GoodLog, Gated, Filed, LineageOf, AllReadable;
    TaskIsLogged(bundle, s, cur.task);
    var log := s.history[cur.task];
    LineageIsTheLog(EngineWalker, s.tables, cur.task, log);
    LogIsReadable(s.tables, cur.task, log);
    LogEntry(log, cur.task, |log| - 1);
  }

  lemma SourceKeeps(bundle: Policy.Bundle, s: System, p: Pid)
    requires Safe(bundle, s) && Act(bundle, s, p, FindSource).Some?
    ensures Safe(bundle, Act(bundle, s, p, FindSource).value)
  {
    hide Safe, GateSource, LineageOf, Justified;
    OwnPhase(bundle, s, p);
    hide LogsSound;
    var cur := PhaseOf(s, p).current;
    if Fresh(s.history, cur) { FreshReads(bundle, s, cur); }
    AtKeeps(bundle, s, p, Sourced(cur, GateSource(cur, LineageOf(EngineWalker, s.tables, cur)).value));
  }

  lemma NumberKeeps(bundle: Policy.Bundle, s: System, p: Pid)
    requires Safe(bundle, s) && Act(bundle, s, p, Number).Some?
    ensures Safe(bundle, Act(bundle, s, p, Number).value)
  {
    hide Safe, GateSource, LineageOf, Justified, ReadEvents, Judges, Committed, Binds, ReadState,
         PlanAt, Resumes, OpenedRequest, WrittenRequest, OpenedResolution, WrittenResolution;
    OwnPhase(bundle, s, p);
    hide LogsSound;
    var ph := PhaseOf(s, p);
    if Fresh(s.history, ph.current) { FreshReads(bundle, s, ph.current); }
    AtKeeps(bundle, s, p, Numbered(ph.current, ph.source, |ReadEvents(s.tables, ph.current.task, ph.current.generation).value| + 1));
  }

  /** A plan the gate accepted on the fresh lineage is justified by it. */
  lemma JudgedIsJustified(bundle: Policy.Bundle, s: System, files: map<string, File>, input: Policy.Input, plan: Plan)
    requires Safe(bundle, s) && Judges(bundle, s.tables, files, plan)
    requires input.currentState == plan.current.current && plan.evaluation == Policy.Evaluate(bundle, input)
    requires SeenState(s.history, plan.current)
    requires Fresh(s.history, plan.current) ==>
               (&& GateSource(plan.current, Some(s.history[plan.current.task])) == Some(plan.source)
                && plan.sequence == |s.history[plan.current.task]| + 1)
    ensures PlanSound(bundle, s.history, plan)
  {
    hide Safe, GateSource, LineageOf, GateAccepts, Policy.Evaluate, SeenState, RequiredActor;
    if Fresh(s.history, plan.current) {
      FreshReads(bundle, s, plan.current);
      assert GateAccepts(files, Some(s.history[plan.current.task]), plan.current, plan.source, plan.target, plan.submitted);
    }
  }

  lemma JudgeKeeps(bundle: Policy.Bundle, s: System, p: Pid, a: Action)
    requires a.Judge? && Safe(bundle, s) && Act(bundle, s, p, a).Some?
    ensures Safe(bundle, Act(bundle, s, p, a).value)
  {
    hide Safe, GateSource, Judges, Policy.Evaluate, Justified, PlanSound, SeenState;
    OwnPhase(bundle, s, p);
    hide LogsSound;
    var plan := PlanAt(PhaseOf(s, p), a, bundle);
    JudgedIsJustified(bundle, s, a.files, a.input, plan);
    AtKeeps(bundle, s, p, Judged(plan));
  }

  lemma PlanWith(bundle: Policy.Bundle, h: History, plan: Plan, plan': Plan)
    requires PlanSound(bundle, h, plan)
    requires plan' == plan.(bound := plan'.bound, resolution := plan'.resolution, decision := plan'.decision)
    ensures PlanSound(bundle, h, plan')
  {
    hide Justified, SeenState;
  }

  lemma BindKeeps(bundle: Policy.Bundle, s: System, p: Pid, bound: seq<Binding>)
    requires Safe(bundle, s) && Act(bundle, s, p, Bind(bound)).Some?
    ensures Safe(bundle, Act(bundle, s, p, Bind(bound)).value)
  {
    hide Safe, PlanSound, BoundAsValidated, GateKind;
    OwnPhase(bundle, s, p);
    hide LogsSound;
    var plan := PhaseOf(s, p).plan;
    PlanWith(bundle, s.history, plan, plan.(bound := bound));
    AtKeeps(bundle, s, p, Bound(plan.(bound := bound)));
  }

  // The decision step.

  lemma PlainPlanIsReady(bundle: Policy.Bundle, p: Pid, h: History, q: Queue, plan: Plan)
    requires PhaseSound(bundle, h, q, p, Bound(plan)) && plan.target != WaitingHuman && plan.current.current != WaitingHuman
    ensures PhaseSound(bundle, h, q, p, Prepared(plan))
  {
    hide PlanSound, BoundTo;
  }

  lemma GoAheadKeeps(bundle: Policy.Bundle, s: System, p: Pid)
    requires Safe(bundle, s) && Act(bundle, s, p, GoAhead).Some?
    ensures Safe(bundle, Act(bundle, s, p, GoAhead).value)
  {
    hide Safe, PhaseSound;
    OwnPhase(bundle, s, p);
    hide LogsSound;
    var plan := PhaseOf(s, p).plan;
    PlainPlanIsReady(bundle, p, s.history, s.queue, plan);
    AtKeeps(bundle, s, p, Prepared(plan));
  }

  /** A resolution that passed the resume checks answers the pause, and its target is legal from there. */
  lemma ResumeIsSound(bundle: Policy.Bundle, s: System, listed: seq<DecisionRequest>, plan: Plan, x: Resolution)
    requires Safe(bundle, s) && PlanSound(bundle, s.history, plan) && plan.decision == None
    requires plan.target != WaitingHuman && plan.current.current == WaitingHuman
    requires Resumes(bundle, s.tables, s.queue, listed, plan, x)
    ensures var plan' := plan.(resolution := Some(x), decision := Some(Engine.BindingOf(x)));
            PlanSound(bundle, s.history, plan') && DecisionSound(bundle, s.history, s.queue, plan')
  {
    hide Safe, GateSource, LineageOf, GateAccepts, Policy.Evaluate, Answers;
    var plan' := plan.(resolution := Some(x), decision := Some(Engine.BindingOf(x)));
    PlanWith(bundle, s.history, plan, plan');
    if Fresh(s.history, plan.current) { FreshReads(bundle, s, plan.current); }
  }

  lemma CheckKeeps(bundle: Policy.Bundle, s: System, p: Pid, a: Action)
    requires a.CheckResolution? && Safe(bundle, s) && Act(bundle, s, p, a).Some?
    ensures Safe(bundle, Act(bundle, s, p, a).value)
  {
    hide Safe, BoundTo, Resumes, PlanSound, DecisionSound, Judges, Committed, Binds, GateSource, ReadEvents, ReadState, PlanAt,
         OpenedRequest, WrittenRequest, OpenedResolution, WrittenResolution;
    OwnPhase(bundle, s, p);
    hide LogsSound;
    var plan := PhaseOf(s, p).plan;
    ResumeIsSound(bundle, s, a.listed, plan, a.answer);
    AtKeeps(bundle, s, p, Prepared(plan.(resolution := Some(a.answer), decision := Some(Engine.BindingOf(a.answer)))));
  }

  /** An update of the queue by its writer, at one identity. */
  lemma QueueStepKeeps(bundle: Policy.Bundle, s: System, p: Pid, q': Queue, ph: Phase)
    requires Safe(bundle, s) && QueueGrows(p, s.queue, q') && QueueSound(q', s.history)
    requires PhaseSound(bundle, s.history, q', p, ph)
    ensures Safe(bundle, At(s.(queue := q'), p, ph))
  {
    hide PhaseSound, Consistent, Gated, QueueSound, QueueGrows, Filed;
    var s' := At(s.(queue := q'), p, ph);
    forall task | task in s.history ensures Filed(q', task, s.history[task]) {
      FiledPersists(p, s.queue, q', task, s.history[task]);
    }
    forall o: Pid ensures PhaseSound(bundle, s'.history, s'.queue, o, PhaseOf(s', o)) {
      if o != p {
        assert PhaseSound(bundle, s.history, s.queue, o, PhaseOf(s, o));
        OthersStaySound(bundle, s.tables, p, s.history, s.history, s.queue, q', o, PhaseOf(s, o));
      }
    }
  }

  lemma FiledPersists(p: Pid, q: Queue, q': Queue, task: string, log: seq<Event>)
    requires QueueGrows(p, q, q') && Filed(q, task, log)
    ensures Filed(q', task, log)
  {
    forall n | 0 < n <= |log| ensures PauseFiled(q', task, log, n) {
      assert PauseFiled(q, task, log, n);
    }
    forall i | 0 < i < |log| ensures ResumeFiled(q', task, log, i) {
      assert ResumeFiled(q, task, log, i);
    }
  }

  function WithPending(q: Queue, id: Id, f: QueueFile<DecisionRequest>): Queue { q.(pending := q.pending[id := f]) }

  function WithResolved(q: Queue, id: Id, f: QueueFile<Resolution>): Queue { q.(resolved := q.resolved[id := f]) }

  predicate Writable<T>(files: map<Id, QueueFile<T>>, id: Id, p: Pid) {
    id in files ==> files[id].Torn? && files[id].writer == p
  }

  lemma PendingGrows(p: Pid, q: Queue, h: History, id: Id, f: QueueFile<DecisionRequest>)
    requires QueueSound(q, h) && Writable(q.pending, id, p)
    requires f.Whole? ==> f.record.decisionId == id && id.Derived? && id.kind == DecisionKind && id.task == f.record.task && id.task in h
    ensures QueueGrows(p, q, WithPending(q, id, f)) && QueueSound(WithPending(q, id, f), h)
  {
    hide Answers;
    var q' := WithPending(q, id, f);
    forall k | k in q'.resolved && q'.resolved[k].Whole?
      ensures q'.resolved[k].record.decisionId == k && RequestFor(q', q'.resolved[k].record).Some?
    {
      assert RequestFor(q, q.resolved[k].record).Some?;
    }
  }

  lemma ResolvedGrows(p: Pid, q: Queue, h: History, id: Id, f: QueueFile<Resolution>)
    requires QueueSound(q, h) && Writable(q.resolved, id, p)
    requires f.Whole? ==> f.record.decisionId == id && RequestFor(q, f.record).Some?
    ensures QueueGrows(p, q, WithResolved(q, id, f)) && QueueSound(WithResolved(q, id, f), h)
  {
    hide Answers;
    var q' := WithResolved(q, id, f);
    assert forall x :: RequestFor(q', x) == RequestFor(q, x);
  }

  lemma SafeQueue(bundle: Policy.Bundle, s: System)
    requires Safe(bundle, s)
    ensures QueueSound(s.queue, s.history)
  {
    hide PhaseSound, Consistent, Gated, QueueSound, Filed;
  }

  lemma OpenRequestKeeps(bundle: Policy.Bundle, s: System, p: Pid, resolution: Option<Resolution>)
    requires Safe(bundle, s) && Act(bundle, s, p, OpenRequest(resolution)).Some?
    ensures Safe(bundle, Act(bundle, s, p, OpenRequest(resolution)).value)
  {
    hide Safe, PlanSound, BoundTo, QueueSound, QueueGrows, Judges, Committed, Binds, GateSource, ReadEvents, ReadState, PlanAt,
         Resumes, OpenedResolution, WrittenResolution;
    OwnPhase(bundle, s, p);
    SafeQueue(bundle, s);
    hide LogsSound;
    var plan := PhaseOf(s, p).plan;
    var plan' := plan.(resolution := resolution);
    var id := WaitId(plan.current.task, plan.sequence);
    PlanWith(bundle, s.history, plan, plan');
    assert RequestOf(plan') == RequestOf(plan);
    if OpenPending(s.queue, RequestOf(plan)) == Created {
      PendingGrows(p, s.queue, s.history, id, Torn(p));
      QueueStepKeeps(bundle, s, p, WithPending(s.queue, id, Torn(p)), CreatingRequest(plan'));
    } else {
      AtKeeps(bundle, s, p, Prepared(plan'));
    }
  }

  lemma FiledRequestIsReady(bundle: Policy.Bundle, p: Pid, h: History, q: Queue, plan: Plan)
    requires PhaseSound(bundle, h, q, p, CreatingRequest(plan)) && QueueSound(q, h)
    ensures var id, r := WaitId(plan.current.task, plan.sequence), RequestOf(plan);
            && QueueGrows(p, q, WithPending(q, id, Whole(r))) && QueueSound(WithPending(q, id, Whole(r)), h)
            && ReadySound(bundle, h, WithPending(q, id, Whole(r)), plan)
  {
    hide BoundTo, QueueSound, QueueGrows, Justified;
    PendingGrows(p, q, h, WaitId(plan.current.task, plan.sequence), Whole(RequestOf(plan)));
  }

  lemma WriteRequestKeeps(bundle: Policy.Bundle, s: System, p: Pid)
    requires Safe(bundle, s) && Act(bundle, s, p, WriteRequest).Some?
    ensures Safe(bundle, Act(bundle, s, p, WriteRequest).value)
  {
    hide Safe, QueueSound, QueueGrows, ReadySound, PlanSound, BoundTo;
    OwnPhase(bundle, s, p);
    SafeQueue(bundle, s);
    hide LogsSound;
    var plan := PhaseOf(s, p).plan;
    FiledRequestIsReady(bundle, p, s.history, s.queue, plan);
    hide PhaseSound;
    var q' := WithPending(s.queue, WaitId(plan.current.task, plan.sequence), Whole(RequestOf(plan)));
    PreparedIsSound(bundle, p, s.history, q', plan);
    QueueStepKeeps(bundle, s, p, q', Prepared(plan));
  }

  lemma PreparedIsSound(bundle: Policy.Bundle, p: Pid, h: History, q: Queue, plan: Plan)
    requires ReadySound(bundle, h, q, plan)
    ensures PhaseSound(bundle, h, q, p, Prepared(plan))
  {
    hide ReadySound;
  }

  lemma OpenResolutionKeeps(bundle: Policy.Bundle, s: System, p: Pid)
    requires Safe(bundle, s) && Act(bundle, s, p, OpenResolution).Some?
    ensures Safe(bundle, Act(bundle, s, p, OpenResolution).value)
  {
    hide Safe, ReadySound, QueueSound, QueueGrows, ValidRequest, Answers, Judges, Committed, Binds, GateSource, ReadEvents, ReadState, PlanAt,
         Resumes, OpenedRequest, WrittenRequest;
    OwnPhase(bundle, s, p);
    SafeQueue(bundle, s);
    hide LogsSound;
    var plan := PhaseOf(s, p).plan;
    if plan.resolution.Some? && OpenResolved(s.queue, plan.resolution.value) == Created {
      var id := plan.resolution.value.decisionId;
      var q' := WithResolved(s.queue, id, Torn(p));
      ResolvedGrows(p, s.queue, s.history, id, Torn(p));
      SafeConsistent(bundle, s);
      ReadyPersists(bundle, s.tables, p, s.history, s.history, s.queue, q', plan);
      QueueStepKeeps(bundle, s, p, q', WritingResolution(plan));
    } else {
      AtKeeps(bundle, s, p, Committing(plan));
    }
  }

  lemma SafeConsistent(bundle: Policy.Bundle, s: System)
    requires Safe(bundle, s)
    ensures Consistent(s.tables, s.history) && HistoryExtends(s.history, s.history)
  {
    hide PhaseSound, Consistent, Gated, QueueSound, Filed;
  }

  lemma WriteResolutionKeeps(bundle: Policy.Bundle, s: System, p: Pid)
    requires Safe(bundle, s) && Act(bundle, s, p, WriteResolution).Some?
    ensures Safe(bundle, Act(bundle, s, p, WriteResolution).value)
  {
    hide Safe, ReadySound, QueueSound, QueueGrows, ValidRequest, Answers;
    OwnPhase(bundle, s, p);
    SafeQueue(bundle, s);
    hide LogsSound;
    var plan := PhaseOf(s, p).plan;
    var x := plan.resolution.value;
    var q' := WithResolved(s.queue, x.decisionId, Whole(x));
    ResolvedGrows(p, s.queue, s.history, x.decisionId, Whole(x));
    SafeConsistent(bundle, s);
    ReadyPersists(bundle, s.tables, p, s.history, s.history, s.queue, q', plan);
    QueueStepKeeps(bundle, s, p, q', Committing(plan));
  }

  // The commits.

  /** One more event for one task: the history it belongs to, and the histories it leaves alone. */
  lemma RecordedExtends(h: History, e: Event)
    ensures HistoryExtends(h, Recorded(h, e))
    ensures forall task :: task in h && task != e.body.task ==> Recorded(h, e)[task] == h[task]
  {
  }

  lemma CommitStepKeeps(bundle: Policy.Bundle, s: System, p: Pid, t': Tables, e: Event, log: seq<Event>)
    requires Safe(bundle, s) && Consistent(t', Recorded(s.history, e))
    requires log == Recorded(s.history, e)[e.body.task] && Gated(bundle, log) && Filed(s.queue, e.body.task, log)
    ensures Safe(bundle, At(s.(tables := t', history := Recorded(s.history, e)), p, Idle))
  {
    hide PhaseSound, Consistent, Gated, Filed, HistoryExtends;
    var h' := Recorded(s.history, e);
    var s' := At(s.(tables := t', history := h'), p, Idle);
    RecordedExtends(s.history, e);
    forall task | task in h' ensures Gated(bundle, h'[task]) && Filed(s.queue, task, h'[task]) {
      if task != e.body.task { TaskIsLogged(bundle, s, task); }
    }
    QueueSoundExtends(s.queue, s.history, h');
    QueueUnchanged(p, s.queue);
    forall o: Pid ensures PhaseSound(bundle, h', s.queue, o, PhaseOf(s', o)) {
      if o != p {
        assert PhaseSound(bundle, s.history, s.queue, o, PhaseOf(s, o));
        OthersStaySound(bundle, t', p, s.history, h', s.queue, s.queue, o, PhaseOf(s, o));
      } else {
        IdleIsSound(bundle, h', s.queue, p);
      }
    }
  }

  lemma IdleIsSound(bundle: Policy.Bundle, h: History, q: Queue, p: Pid)
    ensures PhaseSound(bundle, h, q, p, Idle)
  {
  }

  lemma QueueUnchanged(p: Pid, q: Queue)
    ensures QueueGrows(p, q, q)
  {
  }

  lemma QueueSoundExtends(q: Queue, h: History, h': History)
    requires QueueSound(q, h) && HistoryExtends(h, h')
    ensures QueueSound(q, h')
  {
    hide Answers;
  }

  lemma CommittedKeepsConsistent(bundle: Policy.Bundle, s: System, b: Build)
    requires Safe(bundle, s) && Seen(s.history, b) && Committed(s, Built(b)).Some?
    ensures var s' := Committed(s, Built(b)).value; Consistent(s'.tables, s'.history)
  {
    hide Safe, Consistent, Store.Commit, Seen;
    SafeConsistent(bundle, s);
    var s' := Committed(s, Built(b)).value;
    StepKeepsConsistent(s.tables, s.history, b, s'.tables, s'.history);
  }

  lemma IntakeKeeps(bundle: Policy.Bundle, s: System, p: Pid, a: Action)
    requires a.Intake? && Safe(bundle, s) && Act(bundle, s, p, a).Some?
    ensures Safe(bundle, Act(bundle, s, p, a).value)
  {
    hide Safe, Consistent, ValidEvent, Gated, Filed;
    var b := TaskLog.Intake(a.task, a.project, a.actor, a.createdAt);
    var e := Built(b);
    CommittedKeepsConsistent(bundle, s, b);
    var s' := Act(bundle, s, p, a).value;
    if s' != s {
      NewTask(bundle, s, e);
      FirstEventIsSound(bundle, s.queue, e);
      CommitStepKeeps(bundle, s, p, s'.tables, e, [e]);
      IdleStays(bundle, s', p);
    }
  }

  /** Recording the phase of a process that has none changes nothing that is looked at. */
  lemma IdleStays(bundle: Policy.Bundle, s: System, p: Pid)
    requires PhaseOf(s, p) == Idle && Safe(bundle, At(s, p, Idle))
    ensures Safe(bundle, s)
  {
    hide PhaseSound, LogsSound;
    forall o: Pid ensures PhaseSound(bundle, s.history, s.queue, o, PhaseOf(s, o)) {
      assert PhaseOf(At(s, p, Idle), o) == PhaseOf(s, o);
      assert PhaseSound(bundle, s.history, s.queue, o, PhaseOf(At(s, p, Idle), o));
    }
  }

  lemma NewTask(bundle: Policy.Bundle, s: System, e: Event)
    requires Safe(bundle, s) && e.body.eventType == TaskCreated
    requires Store.Commit(s.tables, e, StateOf(e)).Success? && Store.Commit(s.tables, e, StateOf(e)).value.1
    ensures Recorded(s.history, e)[e.body.task] == [e]
  {
    hide PhaseSound, ValidEvent, Gated, Filed, QueueSound, GoodLog;
  }

  lemma FirstEventIsSound(bundle: Policy.Bundle, q: Queue, e: Event)
    requires e.body.target == None
    ensures Gated(bundle, [e]) && Filed(q, e.body.task, [e])
  {
    hide EventGate;
  }

  lemma GatesExtend(bundle: Policy.Bundle, log: seq<Event>, e: Event)
    requires Gated(bundle, log) && log != [] && EventGate(bundle, log + [e], |log|)
    ensures Gated(bundle, log + [e])
  {
    hide Justified, BoundTo, Ruled;
    var more := log + [e];
    forall i | 0 < i < |more| ensures EventGate(bundle, more, i) {
      if i < |log| {
        assert EventGate(bundle, log, i);
        assert more[..i] == log[..i] && more[i] == log[i] && more[i - 1] == log[i - 1];
      }
    }
  }

  lemma FilesExtend(q: Queue, task: string, log: seq<Event>, e: Event)
    requires Filed(q, task, log) && log != []
    requires PauseFiled(q, task, log + [e], |log| + 1) && ResumeFiled(q, task, log + [e], |log|)
    ensures Filed(q, task, log + [e])
  {
    var more := log + [e];
    forall n | 0 < n <= |more| ensures PauseFiled(q, task, more, n) {
      if n <= |log| {
        assert PauseFiled(q, task, log, n);
        assert more[n - 1] == log[n - 1];
      }
    }
    forall i | 0 < i < |more| ensures ResumeFiled(q, task, more, i) {
      if i < |log| {
        assert ResumeFiled(q, task, log, i);
        assert more[i] == log[i] && more[i - 1] == log[i - 1];
      }
    }
  }

  /** The event of a plan that is still fresh passes its gate. */
  lemma NewEventIsGated(bundle: Policy.Bundle, h: History, q: Queue, plan: Plan, log: seq<Event>, e: Event)
    requires ReadySound(bundle, h, q, plan) && Fresh(h, plan.current) && log == h[plan.current.task]
    requires e == TransitionEvent(plan.current, ProposalOf(plan))
    ensures EventGate(bundle, log + [e], |log|)
  {
    hide Justified, BoundTo, SeenState;
    var more := log + [e];
    assert more[..|log|] == log && more[|log|] == e && more[|log| - 1] == Last(log);
    assert Ruled(bundle, plan.current, plan.source, plan.target, plan.evaluation);
  }

  lemma NewEventIsFiled(bundle: Policy.Bundle, s: System, p: Pid, plan: Plan, log: seq<Event>, e: Event)
    requires Safe(bundle, s) && PhaseSound(bundle, s.history, s.queue, p, Committing(plan))
    requires Fresh(s.history, plan.current) && log == s.history[plan.current.task]
    requires e == TransitionEvent(plan.current, ProposalOf(plan))
    ensures PauseFiled(s.queue, plan.current.task, log + [e], |log| + 1)
    ensures ResumeFiled(s.queue, plan.current.task, log + [e], |log|)
  {
    hide Safe, Justified, BoundTo, SeenState, ValidRequest;
    TaskIsLogged(bundle, s, plan.current.task);
    hide GoodLog, Gated, Filed;
    LogEntry(log, plan.current.task, |log| - 1);
    var more := log + [e];
    assert more[|log|] == e && more[|log| - 1] == Last(log) && more[0] == log[0];
  }

  lemma WrittenIsSuccessor(t: Tables, e: Event)
    requires Store.Commit(t, e, StateOf(e)).Success? && Store.Commit(t, e, StateOf(e)).value.1
    ensures ValidEvent(e) && PredecessorOk(t, e, StateOf(e))
  {
    hide ValidEvent, PredecessorOk;
  }

  lemma BuiltForItsTask(b: Build)
    requires b.Transition?
    ensures Built(b).body.task == b.seen.task
  {
  }

  lemma WrittenFromFresh(bundle: Policy.Bundle, s: System, b: Build)
    requires Safe(bundle, s) && Seen(s.history, b) && b.Transition?
    requires var e := Built(b); Store.Commit(s.tables, e, StateOf(e)).Success? && Store.Commit(s.tables, e, StateOf(e)).value.1
    ensures Fresh(s.history, b.seen)
    ensures Recorded(s.history, Built(b))[b.seen.task] == s.history[b.seen.task] + [Built(b)]
  {
    hide Safe, GoodLog, ValidEvent, PredecessorOk, Store.Commit, StateFits, Built, StateOf;
    BuiltForItsTask(b);
    SafeConsistent(bundle, s);
    WrittenIsSuccessor(s.tables, Built(b));
    hide Consistent;
    var log := s.history[b.seen.task];
    TaskIsLogged(bundle, s, b.seen.task);
    var i :| 0 <= i < |log| && b.seen == StateOf(log[i]);
    OnlyTheLatestStateCommits(s.tables, s.history, b, i);
  }

  lemma CommitKeeps(bundle: Policy.Bundle, s: System, p: Pid)
    requires Safe(bundle, s) && Act(bundle, s, p, Engine.Commit).Some?
    ensures Safe(bundle, Act(bundle, s, p, Engine.Commit).value)
  {
    hide Safe, Consistent, PlanSound, DecisionSound, BoundTo, ValidRequest, Store.Commit, Gated, Filed, Fresh;
    OwnPhase(bundle, s, p);
    hide LogsSound;
    var plan := PhaseOf(s, p).plan;
    var b := Transition(plan.current, ProposalOf(plan));
    var e := Built(b);
    PlanIsSeen(bundle, s.history, s.queue, plan, b);
    CommittedKeepsConsistent(bundle, s, b);
    var after := Committed(s, e).value;
    if Store.Commit(s.tables, e, StateOf(e)).value.1 {
      WrittenFromFresh(bundle, s, b);
      var log := s.history[plan.current.task];
      FreshIsNonempty(s.history, plan.current);
      TaskIsLogged(bundle, s, plan.current.task);
      NewEventIsGated(bundle, s.history, s.queue, plan, log, e);
      NewEventIsFiled(bundle, s, p, plan, log, e);
      GatesExtend(bundle, log, e);
      FilesExtend(s.queue, plan.current.task, log, e);
      CommitStepKeeps(bundle, s, p, after.tables, e, log + [e]);
    } else {
      ReplayWritesNothing(s.tables, e);
      IdleIsSound(bundle, s.history, s.queue, p);
      AtKeeps(bundle, s, p, Idle);
    }
  }

  lemma FreshIsNonempty(h: History, cur: TaskState)
    requires Fresh(h, cur)
    ensures cur.task in h && h[cur.task] != []
  {
  }

  lemma ReplayWritesNothing(t: Tables, e: Event)
    requires Store.Commit(t, e, StateOf(e)).Success? && !Store.Commit(t, e, StateOf(e)).value.1
    ensures Store.Commit(t, e, StateOf(e)).value.0 == t
  {
    hide ValidEvent, PredecessorOk;
  }

  lemma PlanIsSeen(bundle: Policy.Bundle, h: History, q: Queue, plan: Plan, b: Build)
    requires ReadySound(bundle, h, q, plan) && b == Transition(plan.current, ProposalOf(plan))
    ensures Seen(h, b) && b.seen.task in h
  {
    hide Justified, BoundTo, DecisionSound;
  }

  // The invariant.

  lemma ActKeepsSafe(bundle: Policy.Bundle, s: System, p: Pid, a: Action)
    requires Safe(bundle, s) && Act(bundle, s, p, a).Some?
    ensures Safe(bundle, Act(bundle, s, p, a).value)
  {
    hide Act, Safe;
    match a
    case Intake(_, _, _, _) => IntakeKeeps(bundle, s, p, a);
    case Load(task) => LoadKeeps(bundle, s, p, task);
    case FindSource => SourceKeeps(bundle, s, p);
    case Number => NumberKeeps(bundle, s, p);
    case Judge(_, _, _, _, _, _) => JudgeKeeps(bundle, s, p, a);
    case Bind(bound) => BindKeeps(bundle, s, p, bound);
    case OpenRequest(resolution) => OpenRequestKeeps(bundle, s, p, resolution);
    case WriteRequest => WriteRequestKeeps(bundle, s, p);
    case CheckResolution(_, _) => CheckKeeps(bundle, s, p, a);
    case GoAhead => GoAheadKeeps(bundle, s, p);
    case OpenResolution => OpenResolutionKeeps(bundle, s, p);
    case WriteResolution => WriteResolutionKeeps(bundle, s, p);
    case Commit => CommitKeeps(bundle, s, p);
    case Stop => StopKeeps(bundle, s, p);
  }

  lemma StopKeeps(bundle: Policy.Bundle, s: System, p: Pid)
    requires Safe(bundle, s)
    ensures Act(bundle, s, p, Stop).Some? && Safe(bundle, Act(bundle, s, p, Stop).value)
  {
    hide Safe;
    IdleIsSound(bundle, s.history, s.queue, p);
    AtKeeps(bundle, s, p, Idle);
  }

  lemma InitialIsSafe(bundle: Policy.Bundle)
    ensures Safe(bundle, Initial())
  {
    EmptyIsConsistent();
    hide Consistent, Gated, Filed;
  }

  lemma {:induction false} ScriptIsSafe(bundle: Policy.Bundle, script: seq<(Pid, Action)>, s: System)
    requires Execute(bundle, script) == Some(s)
    ensures Safe(bundle, s)
    decreases |script|
  {
    hide Act, Safe;
    if script == [] {
      InitialIsSafe(bundle);
    } else {
      var before := Execute(bundle, DropLast(script)).value;
      ScriptIsSafe(bundle, DropLast(script), before);
      ActKeepsSafe(bundle, before, Last(script).0, Last(script).1);
    }
  }

  /** Whatever the processes did, in whatever order, wherever they stopped. */
  lemma ReachableIsSafe(bundle: Policy.Bundle, s: System)
    requires Reachable(bundle, s)
    ensures Safe(bundle, s)
  {
    hide Safe, Execute;
    var script :| Execute(bundle, script) == Some(s);
    ScriptIsSafe(bundle, script, s);
  }
}
