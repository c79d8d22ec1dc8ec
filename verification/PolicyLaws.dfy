/** Laws of the policy evaluator, over every bundle and every request. */
module PolicyLaws {
  import opened Results
  import opened Stages
  import opened Policy
  import opened PolicyContract

  lemma OverridesAreValid(b: Bundle, id: Option<string>)
    requires ValidBundle(b)
    ensures Overrides(b, id).Valid()
  {
    if ProfileOf(b, id).Some? {
      assert id.value in b.profiles;
    }
  }

  // Canonical order depends on the members only.

  lemma {:induction false} CanonicalSame(v1: seq<string>, v2: seq<string>, order: seq<string>)
    requires forall x :: x in v1 <==> x in v2
    ensures CanonicalOrder(v1, order) == CanonicalOrder(v2, order)
  {
    if order != [] {
      CanonicalSame(v1, v2, order[1..]);
    }
  }

  lemma {:induction false} WithoutMembers(keys: seq<string>, known: map<string, RiskLevel>, x: string)
    ensures x in Without(keys, known) <==> x in keys && x !in known
  {
    if keys != [] {
      WithoutMembers(keys[1..], known, x);
      assert x in keys <==> x == keys[0] || x in keys[1..];
    }
  }

  /** The evaluated triggers are exactly the known ones of the request. */
  lemma OrderedMembers(b: Bundle, input: Input, x: string)
    requires ValidBundle(b)
    ensures x in CanonicalOrder(input.riskTriggers, DeclarationOrder(b, input.profileId))
       <==> x in input.riskTriggers && Known(b, input.profileId, x)
  {
    var o := Overrides(b, input.profileId);
    OverridesAreValid(b, input.profileId);
    CanonicalMembers(input.riskTriggers, DeclarationOrder(b, input.profileId), x);
    WithoutMembers(o.order, b.risk.values, x);
    assert x in b.risk.order <==> x in b.risk.values;
    assert x in o.order <==> x in o.values;
  }

  // First offenders, and the sets they speak about.

  lemma {:induction false} FirstRepeatedNone(values: seq<string>, i: nat)
    requires i <= |values|
    ensures FirstRepeated(values, i) == None <==> forall j :: i <= j < |values| ==> !RepeatedAt(values, j)
    decreases |values| - i
  {
    if i < |values| {
      FirstRepeatedNone(values, i + 1);
    }
  }

  lemma {:induction false} RepetitionIsCount(values: seq<string>)
    ensures (forall j :: 0 <= j < |values| ==> !RepeatedAt(values, j)) <==> (forall x :: multiset(values)[x] <= 1)
  {
    if values != [] {
      var front, last := DropLast(values), Last(values);
      assert values == front + [last];
      RepetitionIsCount(front);
      forall j | 0 <= j < |front| ensures RepeatedAt(values, j) == RepeatedAt(front, j) {
        assert values[..j] == front[..j];
      }
      assert values[..|front|] == front;
      assert RepeatedAt(values, |front|) <==> last in front;
      assert last in front <==> multiset(front)[last] >= 1;
      assert forall x :: multiset(values)[x] == multiset(front)[x] + (if x == last then 1 else 0);
      if forall x :: multiset(values)[x] <= 1 {
        assert multiset(values)[last] <= 1;
        forall x ensures multiset(front)[x] <= 1 {
          assert multiset(values)[x] <= 1;
        }
      } else {
        var x :| multiset(values)[x] > 1;
        if x == last { assert multiset(front)[last] >= 1; } else { assert multiset(front)[x] > 1; }
      }
    }
  }

  lemma RepeatedIsCount(values: seq<string>)
    ensures FirstRepeated(values, 0) == None <==> forall x :: multiset(values)[x] <= 1
  {
    FirstRepeatedNone(values, 0);
    RepetitionIsCount(values);
  }

  lemma {:induction false} FirstUnknownNone(b: Bundle, id: Option<string>, triggers: seq<string>, i: nat)
    requires i <= |triggers|
    ensures FirstUnknown(b, id, triggers, i) == None <==> forall j :: i <= j < |triggers| ==> Known(b, id, triggers[j])
    decreases |triggers| - i
  {
    if i < |triggers| {
      FirstUnknownNone(b, id, triggers, i + 1);
    }
  }

  lemma {:induction false} FirstUndeclaredNone(values: seq<string>, declared: seq<string>, i: nat)
    requires i <= |values|
    ensures FirstUndeclared(values, declared, i) == None <==> forall j :: i <= j < |values| ==> values[j] in declared
    decreases |values| - i
  {
    if i < |values| {
      FirstUndeclaredNone(values, declared, i + 1);
    }
  }

  // The risk fold.

  lemma {:induction false} RiskFromIsMaximum(b: Bundle, id: Option<string>, level: RiskLevel, triggers: seq<string>)
    requires RiskFrom(b, id, level, triggers).Success?
    ensures var risk := RiskFrom(b, id, level, triggers).value;
            && Rank(level) <= Rank(risk)
            && (forall t :: t in triggers ==>
                  (!Downgrades(b, id, t) && EffectiveLevel(b, id, t).Some?
                   && Rank(EffectiveLevel(b, id, t).value) <= Rank(risk)))
            && (risk == level || exists t :: t in triggers && EffectiveLevel(b, id, t) == Some(risk))
    decreases |triggers|
  {
    if triggers != [] {
      RiskFromIsMaximum(b, id, Higher(level, EffectiveLevel(b, id, triggers[0]).value), triggers[1..]);
      assert forall t :: t in triggers <==> t == triggers[0] || t in triggers[1..];
    }
  }

  lemma {:induction false} RiskFromFails(b: Bundle, id: Option<string>, level: RiskLevel, triggers: seq<string>)
    requires forall t :: t in triggers ==> Known(b, id, t)
    ensures RiskFrom(b, id, level, triggers).Failure? <==> exists t :: t in triggers && Downgrades(b, id, t)
    decreases |triggers|
  {
    if triggers != [] {
      assert forall t :: t in triggers <==> t == triggers[0] || t in triggers[1..];
      assert Known(b, id, triggers[0]);
      if !Downgrades(b, id, triggers[0]) {
        RiskFromFails(b, id, Higher(level, EffectiveLevel(b, id, triggers[0]).value), triggers[1..]);
      }
    }
  }

  /** A request the evaluator can answer: nothing repeated, nothing unknown. */
  ghost predicate WellFormed(b: Bundle, input: Input) {
    Prevalidate(b, input) == None && FirstUnknown(b, input.profileId, input.riskTriggers, 0) == None
  }

  ghost predicate Repeats(values: seq<string>) { exists x :: multiset(values)[x] > 1 }

  ghost predicate BadContext(b: Bundle, input: Input) {
    || (exists k :: k in input.attributes && (k, input.attributes[k]) !in b.routing.attributeFeatures)
    || (input.profileId.Some? && input.profileId.value !in b.profiles)
  }

  ghost predicate BadTrigger(b: Bundle, input: Input) {
    || (exists x :: x in input.humanTriggers && x !in b.human)
    || (exists t :: t in input.riskTriggers && !Known(b, input.profileId, t))
    || (exists t :: t in input.riskTriggers && Downgrades(b, input.profileId, t))
  }

  /** The evaluation succeeds, but a list of its answer is out of order at the level it found. */
  predicate Withheld(b: Bundle, input: Input) {
    Prevalidate(b, input) == None && Evaluated(b, input).Success? && Disordered(b, input, Evaluated(b, input).value.riskLevel)
  }

  /** The canonical triggers of a request that can be answered are its own. */
  lemma CanonicalTriggers(b: Bundle, input: Input)
    requires ValidBundle(b) && WellFormed(b, input)
    ensures var triggers := CanonicalOrder(input.riskTriggers, DeclarationOrder(b, input.profileId));
            forall t :: t in triggers <==> t in input.riskTriggers
    ensures forall t :: t in input.riskTriggers ==> Known(b, input.profileId, t)
  {
    FirstUnknownNone(b, input.profileId, input.riskTriggers, 0);
    forall t ensures t in CanonicalOrder(input.riskTriggers, DeclarationOrder(b, input.profileId)) <==> t in input.riskTriggers {
      OrderedMembers(b, input, t);
    }
  }

  /** When the evaluation itself refuses, told without the order of the lists. */
  lemma EvaluationFailsExactly(b: Bundle, input: Input)
    requires ValidBundle(b)
    ensures (Prevalidate(b, input).Some? || Evaluated(b, input).Failure?) <==>
            Repeats(input.riskTriggers) || Repeats(input.humanTriggers) || BadContext(b, input) || BadTrigger(b, input)
  {
    hide ValidBundle, Assemble, DeclarationOrder, CanonicalOrder;
    RepeatedIsCount(input.riskTriggers);
    RepeatedIsCount(input.humanTriggers);
    FirstUndeclaredNone(input.humanTriggers, b.human, 0);
    FirstUnknownNone(b, input.profileId, input.riskTriggers, 0);
    if WellFormed(b, input) {
      CanonicalTriggers(b, input);
      var triggers := CanonicalOrder(input.riskTriggers, DeclarationOrder(b, input.profileId));
      RiskFromFails(b, input.profileId, b.defaultLevel, triggers);
    }
  }

  lemma SuccessIsAssembled(b: Bundle, input: Input)
    requires Prevalidate(b, input) == None && Evaluated(b, input).Success?
    ensures WellFormed(b, input)
    ensures var triggers := CanonicalOrder(input.riskTriggers, DeclarationOrder(b, input.profileId));
            var e := Evaluated(b, input).value;
            e == Assemble(b, input, triggers, e.riskLevel) && !e.FailClosed()
  {
    hide RequiredSkills, Features, ModelRoles, Deduplicated, AllRiskSources, Tags, GateTargets, CanonicalOrder, DeclarationOrder, RiskFrom;
  }

  /** The causes of a refusal, none of which looks at the answer. */
  ghost predicate Refused(b: Bundle, input: Input) {
    || Repeats(input.riskTriggers) || Repeats(input.humanTriggers) || BadContext(b, input) || BadTrigger(b, input)
    || Misnamed(b, input) || Withheld(b, input)
  }

  /** Every way to fail closed, told without the order of the lists. */
  lemma FailsClosedExactly(b: Bundle, input: Input)
    requires ValidBundle(b)
    ensures Evaluate(b, input).FailClosed() <==> Refused(b, input)
  {
    hide ValidBundle, Prevalidate, Evaluated, Assemble, DeclarationOrder, CanonicalOrder, BadContext, BadTrigger, Repeats, WellFormed,
         WellNamed, Disordered, MeetsContract, Known;
    EvaluationFailsExactly(b, input);
    if Prevalidate(b, input) == None && Evaluated(b, input).Success? {
      SuccessIsAssembled(b, input);
      CanonicalTriggers(b, input);
      var triggers := CanonicalOrder(input.riskTriggers, DeclarationOrder(b, input.profileId));
      AnswerMeetsContractExactly(b, input, triggers, Evaluated(b, input).value.riskLevel);
    }
  }

  /** The risk of an answered request is the highest of the default and the effective levels of its triggers. */
  lemma RiskIsMaximum(b: Bundle, input: Input)
    requires ValidBundle(b) && !Evaluate(b, input).FailClosed()
    ensures var risk := Evaluate(b, input).riskLevel;
            && Rank(b.defaultLevel) <= Rank(risk)
            && (forall t :: t in input.riskTriggers ==>
                  (EffectiveLevel(b, input.profileId, t).Some?
                   && Rank(EffectiveLevel(b, input.profileId, t).value) <= Rank(risk)))
            && (risk == b.defaultLevel
                || exists t :: t in input.riskTriggers && EffectiveLevel(b, input.profileId, t) == Some(risk))
  {
    var triggers := CanonicalOrder(input.riskTriggers, DeclarationOrder(b, input.profileId));
    FailsClosedExactly(b, input);
    forall t ensures t in triggers <==> t in input.riskTriggers {
      OrderedMembers(b, input, t);
    }
    RiskFromIsMaximum(b, input.profileId, b.defaultLevel, triggers);
  }

  ghost predicate SameContext(i1: Input, i2: Input) {
    i1.currentState == i2.currentState && i1.attributes == i2.attributes && i1.profileId == i2.profileId
  }

  lemma SameAnswer(b: Bundle, i1: Input, i2: Input)
    requires SameContext(i1, i2) && WellFormed(b, i1) && WellFormed(b, i2)
    requires forall order :: CanonicalOrder(i1.riskTriggers, order) == CanonicalOrder(i2.riskTriggers, order)
    requires CanonicalOrder(i1.humanTriggers, b.human) == CanonicalOrder(i2.humanTriggers, b.human)
    ensures Evaluate(b, i1) == Evaluate(b, i2)
  {
    hide CanonicalOrder, Prevalidate, FirstUnknown, MeetsContract, RiskFrom, Deduplicated, AllRiskSources, Tags, Features,
         RequiredSkills, ModelRoles, DeclarationOrder;
  }

  /** Permuting either trigger list of a well-formed request changes no part of the result. */
  lemma PermutationInvariant(b: Bundle, i1: Input, i2: Input)
    requires ValidBundle(b) && SameContext(i1, i2) && WellFormed(b, i1)
    requires multiset(i1.riskTriggers) == multiset(i2.riskTriggers)
    requires multiset(i1.humanTriggers) == multiset(i2.humanTriggers)
    ensures Evaluate(b, i1) == Evaluate(b, i2)
  {
    hide ValidBundle, Evaluate, CanonicalOrder;
    SameMembers(i1.riskTriggers, i2.riskTriggers);
    SameMembers(i1.humanTriggers, i2.humanTriggers);
    PermutedIsWellFormed(b, i1, i2);
    forall order { CanonicalSame(i1.riskTriggers, i2.riskTriggers, order); }
    CanonicalSame(i1.humanTriggers, i2.humanTriggers, b.human);
    SameAnswer(b, i1, i2);
  }

  lemma PermutedIsWellFormed(b: Bundle, i1: Input, i2: Input)
    requires SameContext(i1, i2) && WellFormed(b, i1)
    requires multiset(i1.riskTriggers) == multiset(i2.riskTriggers)
    requires multiset(i1.humanTriggers) == multiset(i2.humanTriggers)
    ensures WellFormed(b, i2)
  {
    hide FirstRepeated, FirstUndeclared, FirstUnknown, Known;
    SameMembers(i1.riskTriggers, i2.riskTriggers);
    SameMembers(i1.humanTriggers, i2.humanTriggers);
    RepeatedIsCount(i1.riskTriggers);
    RepeatedIsCount(i2.riskTriggers);
    RepeatedIsCount(i1.humanTriggers);
    RepeatedIsCount(i2.humanTriggers);
    FirstUndeclaredNone(i1.humanTriggers, b.human, 0);
    FirstUndeclaredNone(i2.humanTriggers, b.human, 0);
    FirstUnknownNone(b, i1.profileId, i1.riskTriggers, 0);
    FirstUnknownNone(b, i2.profileId, i2.riskTriggers, 0);
    assert forall j :: 0 <= j < |i2.riskTriggers| ==> i2.riskTriggers[j] in i1.riskTriggers;
    assert forall j :: 0 <= j < |i2.humanTriggers| ==> i2.humanTriggers[j] in i1.humanTriggers;
  }

  lemma SameMembers(s: seq<string>, t: seq<string>)
    requires multiset(s) <= multiset(t)
    ensures forall x :: x in s ==> x in t
    ensures multiset(s) == multiset(t) ==> forall x :: x in t ==> x in s
  {
    forall x | x in s ensures x in t {
      assert x in multiset(s);
    }
    if multiset(s) == multiset(t) {
      forall x | x in t ensures x in s {
        assert x in multiset(t);
      }
    }
  }

  /** The second answer is at least as strict: a refusal stays one, the risk is no lower, a human gate stays,
      and nothing new is authorized. */
  ghost predicate AtLeastAsStrict(first: Evaluation, second: Evaluation) {
    && (first.FailClosed() ==> second.FailClosed())
    && Rank(first.riskLevel) <= Rank(second.riskLevel)
    && (first.humanGate ==> second.humanGate)
    && forall s :: s in second.authorized ==> s in first.authorized
  }

  ghost predicate AddsTriggers(i1: Input, i2: Input) {
    && SameContext(i1, i2)
    && multiset(i1.riskTriggers) <= multiset(i2.riskTriggers)
    && multiset(i1.humanTriggers) <= multiset(i2.humanTriggers)
  }

  /** Adding triggers to a request, answered or refused, never relaxes the answer, except where the first
      answer was only withheld for the order of its lists and there is no cause to refuse the second. */
  lemma AddingTriggersNeverRelaxes(b: Bundle, i1: Input, i2: Input)
    requires ValidBundle(b) && AddsTriggers(i1, i2)
    ensures AtLeastAsStrict(Evaluate(b, i1), Evaluate(b, i2)) <==> !Withheld(b, i1) || Refused(b, i2)
    ensures Orderly(b) ==> AtLeastAsStrict(Evaluate(b, i1), Evaluate(b, i2))
  {
    hide ValidBundle, Evaluate, Withheld, Orderly;
    SameMembers(i1.riskTriggers, i2.riskTriggers);
    SameMembers(i1.humanTriggers, i2.humanTriggers);
    FailsClosedExactly(b, i1);
    FailsClosedExactly(b, i2);
    if Orderly(b) { OrderlyBundlesNeverWithhold(b, i1); }
    if Evaluate(b, i2).FailClosed() {
      RefusedResult(b, i2);
    } else if Evaluate(b, i1).FailClosed() {
      if !Withheld(b, i1) { RefusalPersists(b, i1, i2); }
    } else {
      AnsweredRequestsAreMonotone(b, i1, i2);
    }
  }

  lemma OrderlyBundlesNeverWithhold(b: Bundle, input: Input)
    requires ValidBundle(b) && Orderly(b)
    ensures !Withheld(b, input)
  {
    hide ValidBundle, Orderly, Disordered, Evaluated;
    if Withheld(b, input) {
      OrderlyBundlesAreNeverDisordered(b, input, Evaluated(b, input).value.riskLevel);
    }
  }

  lemma RefusedResult(b: Bundle, input: Input)
    requires Evaluate(b, input).FailClosed()
    ensures Evaluate(b, input) == FailClosedResult(Evaluate(b, input).error.value)
  {
    hide MeetsContract, Assemble, Evaluated;
    if Prevalidate(b, input) == None && Evaluated(b, input).Success? {
      SuccessIsAssembled(b, input);
    }
  }

  lemma AnswerShape(b: Bundle, input: Input)
    requires !Evaluate(b, input).FailClosed()
    ensures var e := Evaluate(b, input);
            && e.requiredHumanTriggers == CanonicalOrder(input.humanTriggers, b.human)
            && e.humanGate == (e.requiredHumanTriggers != [] || e.riskLevel == R3)
            && e.legal == Targets(b.workflow, input.currentState) && e.authorized == Authorized(e.legal, e.humanGate)
  {
    hide MeetsContract, Evaluated, CanonicalOrder, RequiredSkills, Features, ModelRoles, Deduplicated, AllRiskSources, Tags,
         DeclarationOrder;
    SuccessIsAssembled(b, input);
  }

  lemma RefusalPersists(b: Bundle, i1: Input, i2: Input)
    requires ValidBundle(b) && AddsTriggers(i1, i2) && Evaluate(b, i1).FailClosed() && !Withheld(b, i1)
    ensures Evaluate(b, i2).FailClosed()
  {
    hide ValidBundle, Evaluate, Withheld, Repeats, Known, Downgrades, WellNamed;
    SameMembers(i1.riskTriggers, i2.riskTriggers);
    SameMembers(i1.humanTriggers, i2.humanTriggers);
    FailsClosedExactly(b, i1);
    RepeatsPersist(i1.riskTriggers, i2.riskTriggers);
    RepeatsPersist(i1.humanTriggers, i2.humanTriggers);
    FailsClosedExactly(b, i2);
  }

  lemma RepeatsPersist(s: seq<string>, t: seq<string>)
    requires multiset(s) <= multiset(t)
    ensures Repeats(s) ==> Repeats(t)
  {
    if Repeats(s) {
      var x :| multiset(s)[x] > 1;
      assert multiset(t)[x] > 1;
    }
  }

  lemma AnsweredRequestsAreMonotone(b: Bundle, i1: Input, i2: Input)
    requires ValidBundle(b) && SameContext(i1, i2)
    requires !Evaluate(b, i1).FailClosed() && !Evaluate(b, i2).FailClosed()
    requires forall t :: t in i1.riskTriggers ==> t in i2.riskTriggers
    requires forall t :: t in i1.humanTriggers ==> t in i2.humanTriggers
    ensures AtLeastAsStrict(Evaluate(b, i1), Evaluate(b, i2))
  {
    hide ValidBundle, Evaluate, CanonicalOrder;
    var e1, e2 := Evaluate(b, i1), Evaluate(b, i2);
    RiskIsMaximum(b, i1);
    RiskIsMaximum(b, i2);
    AnswerShape(b, i1);
    AnswerShape(b, i2);
    if e1.humanGate && e1.riskLevel != R3 {
      var h := e1.requiredHumanTriggers[0];
      CanonicalMembers(i1.humanTriggers, b.human, h);
      CanonicalMembers(i2.humanTriggers, b.human, h);
    }
    forall s | s in e2.authorized ensures s in e1.authorized {
      GateTargetsSubset(e1.legal, s);
    }
  }

  /** A profile that is accepted can only raise the level of a request that needs no profile. */
  lemma ProfileNeverLowersRisk(b: Bundle, input: Input)
    requires ValidBundle(b) && !Evaluate(b, input).FailClosed()
    ensures forall t :: t in input.riskTriggers && GlobalLevel(b, t).Some? ==>
              Rank(GlobalLevel(b, t).value) <= Rank(EffectiveLevel(b, input.profileId, t).value)
    ensures var bare := input.(profileId := None);
            !Evaluate(b, bare).FailClosed() ==>
              Rank(Evaluate(b, bare).riskLevel) <= Rank(Evaluate(b, input).riskLevel)
  {
    var bare := input.(profileId := None);
    FailsClosedExactly(b, input);
    RiskIsMaximum(b, input);
    if !Evaluate(b, bare).FailClosed() {
      RiskIsMaximum(b, bare);
      var risk := Evaluate(b, bare).riskLevel;
      if risk != b.defaultLevel {
        var t :| t in input.riskTriggers && EffectiveLevel(b, None, t) == Some(risk);
        assert !Downgrades(b, input.profileId, t);
      }
    }
  }

  /** Every result meets its contract, authorizes only legal moves, and only pauses or abandons under a gate. */
  lemma ResultsMeetTheContract(b: Bundle, input: Input)
    ensures var e := Evaluate(b, input);
            && MeetsContract(b, e)
            && (forall s :: s in e.authorized ==> s in Targets(b.workflow, input.currentState))
            && (!e.FailClosed() && !e.humanGate ==> e.authorized == Targets(b.workflow, input.currentState))
  {
    hide CanonicalOrder, RequiredSkills, Features, ModelRoles, Deduplicated, AllRiskSources, Tags, RiskFrom, DeclarationOrder,
         ValidProvenance, Distinct;
    var e := Evaluate(b, input);
    forall s | s in e.authorized ensures s in Targets(b.workflow, input.currentState) {
      GateTargetsSubset(e.legal, s);
    }
  }

  // An answer that is withheld at one level and given at the next.

  function Untidy(): Bundle {
    var check, review := "focused_check", "lightweight_review";
    Bundle(Vocabulary([], [], [check, review]), map[Draft := [Abandoned], Abandoned := []], R0, Declared(["t"], map["t" := R1]),
           map[R0 := [review, check], R1 := [check], R2 := [check], R3 := [check]], [], Routing(map[], map[], [], []), map[])
  }

  lemma UntidyIsValid()
    ensures ValidBundle(Untidy())
  {
    forall level: RiskLevel ensures level in Untidy().gates && Distinct(Untidy().gates[level]) {
      match level case R0 => case R1 => case R2 => case R3 =>
    }
  }

  lemma UntidyLists(input: Input)
    requires input.humanTriggers == [] && input.attributes == map[]
    ensures Disordered(Untidy(), input, R0) && !Disordered(Untidy(), input, R1)
  {
    TwoInOrder("focused_check", "lightweight_review");
  }

  lemma TwoInOrder(first: string, second: string)
    requires first != second
    ensures CanonicalOrder([second, first], [first, second]) == [first, second]
    ensures CanonicalOrder([first], [first, second]) == [first]
  {
    var vocabulary := [first, second];
    assert vocabulary[1..] == [second] && [second][1..] == [] && second !in [first];
    assert CanonicalOrder([first], [second]) == [] + CanonicalOrder([first], []) == [];
    assert CanonicalOrder([second, first], [second]) == [second] + CanonicalOrder([second, first], []) == [second];
    assert CanonicalOrder([second, first], vocabulary) == [first] + [second];
    assert CanonicalOrder([first], vocabulary) == [first] + [];
  }

  function UntidyInput(triggers: seq<string>): Input { Input(Draft, triggers, [], map[], None) }

  lemma UntidyLevel(triggers: seq<string>, level: RiskLevel)
    requires (triggers == [] && level == R0) || (triggers == ["t"] && level == R1)
    ensures var b, input := Untidy(), UntidyInput(triggers);
            && Prevalidate(b, input) == None && Evaluated(b, input).Success? && Evaluated(b, input).value.riskLevel == level
            && !Misnamed(b, input)
  {
    hide Deduplicated, AllRiskSources, Tags, Features, ModelRoles, RequiredSkills;
    var b, input := Untidy(), UntidyInput(triggers);
    assert DeclarationOrder(b, None) == ["t"] + [] == ["t"];
    assert CanonicalOrder(triggers, ["t"][1..]) == [];
    assert CanonicalOrder(triggers, ["t"]) == triggers + [] == triggers;
    if triggers == ["t"] {
      assert triggers[..0] == [] && triggers[1..] == [];
      assert RiskFrom(b, None, R1, []) == Success(R1);
      assert RiskFrom(b, None, R0, triggers) == Success(R1);
    }
  }

  lemma AnswerIsEvaluated(b: Bundle, input: Input)
    requires !Evaluate(b, input).FailClosed()
    ensures Evaluated(b, input) == Success(Evaluate(b, input))
  {
    hide Evaluated, MeetsContract, Prevalidate;
  }

  lemma UntidyAnswers(triggers: seq<string>, level: RiskLevel)
    requires (triggers == [] && level == R0) || (triggers == ["t"] && level == R1)
    ensures ValidBundle(Untidy())
    ensures Evaluate(Untidy(), UntidyInput(triggers)).riskLevel == if level == R0 then R3 else level
  {
    var b, input := Untidy(), UntidyInput(triggers);
    UntidyIsValid();
    UntidyLists(input);
    UntidyLevel(triggers, level);
    hide Evaluate, Evaluated, Prevalidate, Disordered, Untidy, ValidBundle, Misnamed, UntidyInput, Repeats, BadContext, BadTrigger;
    EvaluationFailsExactly(b, input);
    FailsClosedExactly(b, input);
    if level == R0 { RefusedResult(b, input); } else { AnswerIsEvaluated(b, input); }
  }

  /** Gates listed out of order for one level: its requests are refused, and a trigger of the next level
      has them answered at that level. */
  lemma AddingATriggerCanRelax()
    ensures var i1, i2 := UntidyInput([]), UntidyInput(["t"]);
            && ValidBundle(Untidy()) && AddsTriggers(i1, i2)
            && Evaluate(Untidy(), i1).riskLevel == R3 && Evaluate(Untidy(), i2).riskLevel == R1
  {
    hide Evaluate, Untidy, ValidBundle;
    UntidyAnswers([], R0);
    UntidyAnswers(["t"], R1);
    assert multiset([]) <= multiset(["t"]);
  }
}
