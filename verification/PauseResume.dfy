/** Pauses and resumes: erased from any accepted run, they leave a legal path of the workflow. */
module PauseResume {
  import opened Results
  import opened Stages
  import opened Audit
  import opened Lineage
  import opened TaskLog
  import opened Gates
  import opened Decisions
  import opened Engine
  import opened EngineInvariant
  import opened EngineSteps
  import Policy

  datatype Move = Move(source: Stage, target: Stage, actor: Actor)

  /** The stage a transition really leaves: a resume leaves the stage that was paused. */
  function Leaves(log: seq<Event>, i: nat): Option<Stage>
    requires 0 < i < |log|
  {
    if log[i].body.source == Some(WaitingHuman) then log[i - 1].body.source else log[i].body.source
  }

  predicate Pauses(e: Event) { e.body.target == Some(WaitingHuman) }

  /** The moves of a log with its pauses erased and its resumes judged from where they paused. */
  function Erased(log: seq<Event>): seq<Move> {
    if |log| <= 1 then []
    else
      var e := Last(log).body;
      var source := Leaves(log, |log| - 1);
      Erased(DropLast(log)) +
      (if Pauses(Last(log)) || source == None || e.target == None then [] else [Move(source.value, e.target.value, e.actor)])
  }

  /** Where the erased path stands: the current stage, or the paused one. */
  function Standing(log: seq<Event>): Stage
    requires log != []
  {
    var e := Last(log).body;
    if Pauses(Last(log)) then (if e.source.Some? then e.source.value else Draft)
    else if e.target.Some? then e.target.value else Draft
  }

  /** A path from DRAFT along the workflow, every step by the actor its pair of stages requires. */
  predicate Path(workflow: Workflow, moves: seq<Move>, end: Stage)
    decreases |moves|
  {
    if moves == [] then end == Draft
    else
      var m := Last(moves);
      && m.target == end && m.target != WaitingHuman && m.source != WaitingHuman
      && m.target in Targets(workflow, m.source)
      && (RequiredActor(m.source, m.target).Some? ==> m.actor == RequiredActor(m.source, m.target).value)
      && Path(workflow, DropLast(moves), m.source)
  }

  // What the invariant says about one event.

  lemma {:induction false} OnlyGateTargets(legal: seq<Stage>, x: Stage)
    requires x in Policy.GateTargets(legal)
    ensures x in legal
  {
    if legal != [] {
      if x in Policy.GateTargets(legal[1..]) {
        OnlyGateTargets(legal[1..], x);
      }
    }
  }

  /** Authorized targets are legal ones, whatever was asked. */
  lemma AuthorizedIsLegal(bundle: Policy.Bundle, input: Policy.Input, x: Stage)
    requires x in Policy.Evaluate(bundle, input).authorized
    ensures x in Targets(bundle.workflow, input.currentState)
  {
    hide Policy.Prevalidate, Policy.FirstUnknown, Policy.RiskFrom, Policy.CanonicalOrder, Policy.Deduplicated, Policy.Features,
         Policy.RequiredSkills, Policy.ModelRoles, Policy.Tags, Policy.AllRiskSources, Policy.DeclarationOrder;
    var evaluation := Policy.Evaluate(bundle, input);
    if evaluation.humanGate {
      OnlyGateTargets(Targets(bundle.workflow, input.currentState), x);
    }
  }

  /** One accepted event: a pause never follows a pause, a resume follows one and carries its decision. */
  lemma EventShape(bundle: Policy.Bundle, q: Queue, task: string, log: seq<Event>, i: nat)
    requires GoodLog(log, task) && Gated(bundle, log) && Filed(q, task, log) && 0 < i < |log|
    ensures log[i].body.source.Some? && log[i].body.target.Some?
    ensures log[i].body.source.value == (if log[i - 1].body.target.Some? then log[i - 1].body.target.value else Draft)
    ensures Pauses(log[i]) ==> log[i].body.source != Some(WaitingHuman)
    ensures log[i].body.source == Some(WaitingHuman) ==>
              (&& i > 1 && Pauses(log[i - 1]) && log[i].body.decision.Some?
               && log[i].body.decision.value.decisionId == WaitId(task, i)
               && log[i - 1].body.source.Some? && log[i - 1].body.source != Some(WaitingHuman))
  {
    hide GoodLog, Justified, BoundTo, Ruled;
    LogShape(log, task, i);
    assert EventGate(bundle, log, i) && ResumeFiled(q, task, log, i);
    if log[i].body.source == Some(WaitingHuman) {
      LogShape(log, task, i - 1);
      assert i > 1;
      assert EventGate(bundle, log, i - 1);
    }
  }

  lemma LogShape(log: seq<Event>, task: string, i: nat)
    requires GoodLog(log, task) && i < |log|
    ensures i == 0 ==> log[i].body.target == None && log[i].body.source == None
    ensures i > 0 ==>
              (&& log[i].body.source.Some? && log[i].body.target.Some?
               && log[i].body.source == Some(StateOf(log[i - 1]).current)
               && (log[i].body.source == Some(WaitingHuman) <==> log[i].body.decision.Some?))
  {
    assert LogEvent(log, i, Origin(task, log[0].body.project, 1));
  }

  /** The gate of the pair accepted files on the lineage before the event: the very files the event binds for
      the kinds that hand back snapshots, as many files for the others. */
  ghost predicate PassedGate(log: seq<Event>, i: nat, source: Stage, target: Stage)
    requires 0 < i < |log|
  {
    exists submitted ::
      && BoundTo(source, target, submitted, log[i].body.evidence)
      && GatePassed(log[..i], StateOf(log[i - 1]), source, target, submitted)
  }

  /** The stage the gate used is the one the transition leaves, and its target is legal from there. */
  lemma MoveIsLegal(bundle: Policy.Bundle, q: Queue, task: string, log: seq<Event>, i: nat)
    requires GoodLog(log, task) && Gated(bundle, log) && Filed(q, task, log) && 0 < i < |log| && !Pauses(log[i])
    ensures Leaves(log, i).Some? && log[i].body.target.Some?
    ensures var source, target := Leaves(log, i).value, log[i].body.target.value;
            && target in Targets(bundle.workflow, source)
            && (RequiredActor(source, target).Some? ==> log[i].body.actor == RequiredActor(source, target).value)
            && PassedGate(log, i, source, target)
  {
    hide GoodLog, Filed, GatePassed, BoundTo, Policy.Evaluate, RequiredActor;
    EventShape(bundle, q, task, log, i);
    assert EventGate(bundle, log, i);
    var e, prior := log[i].body, StateOf(log[i - 1]);
    LogShape(log, task, i);
    var source, evaluation, submitted :|
      && Justified(bundle, log[..i], prior, source, e.target.value, e.actor, evaluation, submitted)
      && BoundTo(source, e.target.value, submitted, e.evidence)
      && Ruled(bundle, prior, source, e.target.value, evaluation);
    GateSourceIsLeft(bundle, q, task, log, i, source);
    var input: Policy.Input :| input.currentState == prior.current && evaluation == Policy.Evaluate(bundle, input);
    AuthorizedIsLegal(bundle, input, e.target.value);
  }

  lemma GateSourceIsLeft(bundle: Policy.Bundle, q: Queue, task: string, log: seq<Event>, i: nat, source: Stage)
    requires GoodLog(log, task) && Gated(bundle, log) && Filed(q, task, log) && 0 < i < |log|
    requires GateSource(StateOf(log[i - 1]), Some(log[..i])) == Some(source)
    ensures Leaves(log, i) == Some(source)
  {
    hide GoodLog, Gated, Filed, LastTransition;
    EventShape(bundle, q, task, log, i);
    LogShape(log, task, i);
  }

  // The theorem.

  lemma GoodPrefix(bundle: Policy.Bundle, q: Queue, task: string, log: seq<Event>)
    requires GoodLog(log, task) && Gated(bundle, log) && Filed(q, task, log) && |log| > 1
    ensures var less := DropLast(log); GoodLog(less, task) && Gated(bundle, less) && Filed(q, task, less)
  {
    hide Justified, BoundTo, Ruled, ValidEvent;
    var less := DropLast(log);
    forall i | 0 <= i < |less| ensures LogEvent(less, i, Origin(task, less[0].body.project, 1)) {
      assert LogEvent(log, i, Origin(task, log[0].body.project, 1));
    }
    forall i | 0 < i < |less| ensures EventGate(bundle, less, i) {
      assert EventGate(bundle, log, i);
      assert less[..i] == log[..i];
    }
    forall n | 0 < n <= |less| ensures PauseFiled(q, task, less, n) {
      assert PauseFiled(q, task, log, n);
    }
    forall i | 0 < i < |less| ensures ResumeFiled(q, task, less, i) {
      assert ResumeFiled(q, task, log, i);
    }
  }

  lemma {:induction false} ErasedIsPath(bundle: Policy.Bundle, q: Queue, task: string, log: seq<Event>)
    requires GoodLog(log, task) && Gated(bundle, log) && Filed(q, task, log) && log != []
    ensures Path(bundle.workflow, Erased(log), Standing(log)) && Standing(log) != WaitingHuman
    decreases |log|
  {
    hide GoodLog, Gated, Filed, GateAccepts, RequiredActor;
    var n := |log| - 1;
    LogShape(log, task, n);
    if n > 0 {
      var less, i := DropLast(log), n;
      GoodPrefix(bundle, q, task, log);
      ErasedIsPath(bundle, q, task, less);
      EventShape(bundle, q, task, log, i);
      if !Pauses(log[i]) {
        MoveIsLegal(bundle, q, task, log, i);
        var move := Move(Leaves(log, i).value, log[i].body.target.value, log[i].body.actor);
        assert Erased(log) == Erased(less) + [move];
        assert DropLast(Erased(log)) == Erased(less);
      } else {
        assert Erased(log) == Erased(less);
      }
    }
  }

  /** In every reachable state, erasing the pauses and resumes of a task leaves a path of the workflow from
      DRAFT to where the task stands; no step of it touches WAITING_HUMAN, and each has its required actor. */
  lemma AcceptedRunsAreWorkflowPaths(bundle: Policy.Bundle, s: System, task: string)
    requires Reachable(bundle, s) && task in s.tables.states
    ensures task in s.history && s.history[task] != []
    ensures Path(bundle.workflow, Erased(s.history[task]), Standing(s.history[task]))
    ensures var state := s.tables.states[task];
            Some(Standing(s.history[task])) == if state.current == WaitingHuman then state.previous else Some(state.current)
  {
    hide Reachable, Safe, GoodLog, Gated, Filed, Path;
    ReachableIsSafe(bundle, s);
    StateIsInHistory(bundle, s, task);
    TaskIsLogged(bundle, s, task);
    var log := s.history[task];
    ErasedIsPath(bundle, s.queue, task, log);
    LogShape(log, task, |log| - 1);
  }

  /** No pause is ever taken from a pause, and every resume follows its own pause and carries the decision
      identity derived from it. */
  lemma PausesAlternate(bundle: Policy.Bundle, s: System, task: string, i: nat)
    requires Reachable(bundle, s) && task in s.history && 0 < i < |s.history[task]|
    ensures var log := s.history[task];
            && !(log[i].body.source == Some(WaitingHuman) && log[i].body.target == Some(WaitingHuman))
            && (log[i].body.source == Some(WaitingHuman) <==> Pauses(log[i - 1]))
            && (log[i].body.source == Some(WaitingHuman) <==> log[i].body.decision.Some?)
            && (log[i].body.decision.Some? ==> Some(log[i].body.decision.value.decisionId) == StateOf(log[i - 1]).pending)
  {
    hide Reachable, Safe, GoodLog, Gated, Filed;
    ReachableIsSafe(bundle, s);
    TaskIsLogged(bundle, s, task);
    EventShape(bundle, s.queue, task, s.history[task], i);
    LogShape(s.history[task], task, i);
    LogEntry(s.history[task], task, i - 1);
    if i - 1 > 0 { LogShape(s.history[task], task, i - 1); }
    hide ValidEvent;
  }

  /** Each erased step passed the gate of its own pair of stages, on the lineage it extended. */
  lemma StepsPassTheirGates(bundle: Policy.Bundle, s: System, task: string, i: nat)
    requires Reachable(bundle, s) && task in s.history && 0 < i < |s.history[task]| && !Pauses(s.history[task][i])
    ensures var log := s.history[task];
            && Leaves(log, i).Some? && log[i].body.target.Some?
            && PassedGate(log, i, Leaves(log, i).value, log[i].body.target.value)
  {
    hide Reachable, Safe, GoodLog, Gated, Filed, GateAccepts;
    ReachableIsSafe(bundle, s);
    TaskIsLogged(bundle, s, task);
    MoveIsLegal(bundle, s.queue, task, s.history[task], i);
  }

  /** Who may take a stage of the review: the coder submits, and only the reviewer or the verifier judges. */
  lemma ActorOf(bundle: Policy.Bundle, s: System, task: string, i: nat)
    requires Reachable(bundle, s) && task in s.history && 0 < i < |s.history[task]|
    ensures var body := s.history[task][i].body;
            && (body.target == Some(TaskReview) ==> body.actor == Coder)
            && (body.target in {Some(Integrating), Some(FixRequired), Some(Verified)} ==> body.actor in {Reviewer, Verifier})
  {
    hide Reachable, Safe, GoodLog, Gated, Filed, GateAccepts, PassedGate;
    ReachableIsSafe(bundle, s);
    TaskIsLogged(bundle, s, task);
    if !Pauses(s.history[task][i]) {
      MoveIsLegal(bundle, s.queue, task, s.history[task], i);
    }
  }

  /** No role approves its own work: the role that submits a task for review is never the one that integrates
      it, sends it back or verifies it, whatever the transition table allows. Identities are not compared. */
  lemma NoSelfApproval(bundle: Policy.Bundle, s: System, task: string, i: nat, j: nat)
    requires Reachable(bundle, s) && task in s.history && 0 < i < |s.history[task]| && 0 < j < |s.history[task]|
    requires s.history[task][i].body.target == Some(TaskReview)
    requires s.history[task][j].body.target in {Some(Integrating), Some(FixRequired), Some(Verified)}
    ensures s.history[task][i].body.actor != s.history[task][j].body.actor
  {
    hide Reachable;
    ActorOf(bundle, s, task, i);
    ActorOf(bundle, s, task, j);
  }
}
