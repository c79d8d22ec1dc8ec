/** What the result contract asks of an assembled answer, and when an answer is withheld for it. */
module PolicyContract {
  import opened Results
  import opened Stages
  import opened Policy

  /** What the loader leaves of a bundle: no list repeats itself, every level has its gates, and everything
      but the risk triggers and the profiles comes from vocabularies of printable names. */
  ghost predicate ValidBundle(b: Bundle) {
    && b.risk.Valid() && (forall p :: p in b.profiles ==> b.profiles[p].overrides.Valid())
    && (forall p :: p in b.profiles ==> "project_profiles/" <= b.profiles[p].sourcePath)
    && Distinct(b.human) && (forall s: Stage :: Distinct(Targets(b.workflow, s)))
    && (forall i, j :: 0 <= i < j < |b.routing.skillRules| ==> b.routing.skillRules[i].id != b.routing.skillRules[j].id)
    && (forall level: RiskLevel :: level in b.gates && Distinct(b.gates[level]))
    && (forall x :: x in b.human ==> PrintableName(x))
    && (forall i :: 0 <= i < |b.routing.skillRules| ==> PrintableName(b.routing.skillRules[i].id))
    && (forall i :: 0 <= i < |b.routing.roleRules| ==> PrintableRole(b.routing.roleRules[i]))
  }

  predicate PrintableRole(r: RoleRule) {
    && (r.always.Some? ==> PrintableName(r.always.value))
    && (forall level :: level in r.byLevel ==> PrintableName(r.byLevel[level]))
  }

  // Lists without repetition.

  lemma {:induction false} CanonicalMembers(values: seq<string>, order: seq<string>, x: string)
    ensures x in CanonicalOrder(values, order) <==> x in order && x in values
  {
    if order != [] {
      CanonicalMembers(values, order[1..], x);
      assert x in order <==> x == order[0] || x in order[1..];
    }
  }

  lemma {:induction false} CanonicalIsDistinct(values: seq<string>, order: seq<string>)
    requires Distinct(order)
    ensures Distinct(CanonicalOrder(values, order))
  {
    if order != [] {
      CanonicalIsDistinct(values, order[1..]);
      CanonicalMembers(values, order[1..], order[0]);
    }
  }

  lemma {:induction false} SkillsComeFromRules(features: set<string>, rules: seq<SkillRule>, x: string)
    requires x in RequiredSkills(features, rules)
    ensures exists i :: 0 <= i < |rules| && rules[i].id == x
  {
    if x in RequiredSkills(features, rules[1..]) {
      SkillsComeFromRules(features, rules[1..], x);
      var i :| 0 <= i < |rules[1..]| && rules[1..][i].id == x;
      assert rules[i + 1].id == x;
    } else {
      assert rules[0].id == x;
    }
  }

  lemma {:induction false} SkillsAreDistinct(features: set<string>, rules: seq<SkillRule>)
    requires forall i, j :: 0 <= i < j < |rules| ==> rules[i].id != rules[j].id
    ensures Distinct(RequiredSkills(features, rules))
  {
    if rules != [] {
      SkillsAreDistinct(features, rules[1..]);
      if rules[0].id in RequiredSkills(features, rules[1..]) {
        SkillsComeFromRules(features, rules[1..], rules[0].id);
      }
    }
  }

  lemma {:induction false} GateTargetsSubset(legal: seq<Stage>, x: Stage)
    ensures x in GateTargets(legal) <==> x in legal && (x == WaitingHuman || x == Abandoned)
  {
    if legal != [] {
      GateTargetsSubset(legal[1..], x);
      assert x in legal <==> x == legal[0] || x in legal[1..];
    }
  }

  lemma {:induction false} GateTargetsAreDistinct(legal: seq<Stage>)
    requires Distinct(legal)
    ensures Distinct(GateTargets(legal))
  {
    if legal != [] {
      GateTargetsAreDistinct(legal[1..]);
      GateTargetsSubset(legal[1..], legal[0]);
    }
  }

  lemma {:induction false} RolesArePrintable(level: RiskLevel, rules: seq<RoleRule>)
    requires forall i :: 0 <= i < |rules| ==> PrintableRole(rules[i])
    ensures forall i :: 0 <= i < |ModelRoles(level, rules)| ==> PrintableName(ModelRoles(level, rules)[i].1)
  {
    hide PrintableName;
    if rules != [] {
      RolesArePrintable(level, rules[1..]);
      assert PrintableRole(rules[0]);
    }
  }

  // Provenance: without repetition, in the order of its groups, and printable when its triggers are.

  predicate Rising(values: seq<Source>) {
    forall i, j :: 0 <= i < j < |values| ==> Group(values[i]) <= Group(values[j])
  }

  lemma {:induction false} DeduplicatedKeeps(values: seq<Source>)
    ensures Distinct(Deduplicated(values)) && forall x :: x in Deduplicated(values) <==> x in values
  {
    if values != [] {
      DeduplicatedKeeps(DropLast(values));
      assert values == DropLast(values) + [Last(values)];
    }
  }

  lemma {:induction false} DeduplicatedRises(values: seq<Source>)
    requires Rising(values)
    ensures Rising(Deduplicated(values))
  {
    hide Group;
    if values != [] {
      var front := DropLast(values);
      DeduplicatedRises(front);
      DeduplicatedKeeps(front);
      forall i | 0 <= i < |Deduplicated(front)| ensures Group(Deduplicated(front)[i]) <= Group(Last(values)) {
        assert Deduplicated(front)[i] in front;
      }
    }
  }

  lemma {:induction false} RiskSourcesOf(b: Bundle, id: Option<string>, triggers: seq<string>, x: Source)
    ensures x in AllRiskSources(b, id, triggers) <==> exists t :: t in triggers && x in RiskSources(b, id, t)
  {
    hide RiskSources;
    if triggers != [] {
      RiskSourcesOf(b, id, triggers[1..], x);
      assert forall t :: t in triggers <==> t == triggers[0] || t in triggers[1..];
    }
  }

  /** A trigger whose sources the contract's expression accepts. */
  predicate WellNamed(b: Bundle, id: Option<string>, t: string) {
    && PrintableName(t)
    && var p := ProfileOf(b, id);
       p.Some? && t in p.value.overrides.values ==> PrintablePath(p.value.sourcePath)
  }

  lemma SourcesOfOne(b: Bundle, id: Option<string>, t: string)
    requires ValidBundle(b)
    ensures forall x :: x in RiskSources(b, id, t) ==> Group(x) == 0
    ensures Known(b, id, t) ==> ((forall x :: x in RiskSources(b, id, t) ==> Printable(x)) <==> WellNamed(b, id, t))
  {
    hide PrintableName, PrintablePath;
    var p := ProfileOf(b, id);
    if t in b.risk.values {
      assert RiskTrigger(t) in RiskSources(b, id, t);
    }
    if p.Some? && t in p.value.overrides.values {
      assert ProfileOverride(p.value.sourcePath, t) in RiskSources(b, id, t);
      assert b.profiles[id.value] == p.value;
    }
  }

  function SourcesOf(b: Bundle, input: Input, triggers: seq<string>, e: Evaluation): seq<Source> {
    (if triggers == [] then [DefaultLevel] else []) + AllRiskSources(b, input.profileId, triggers)
    + Tags(e.requiredHumanTriggers, e.requiredSkills, e.modelRoles) + [TransitionSource(input.currentState)]
  }

  lemma TagsRise(human: seq<string>, skills: seq<string>, roles: seq<(string, string)>)
    ensures var tags := Tags(human, skills, roles);
            Rising(tags) && forall i :: 0 <= i < |tags| ==> 1 <= Group(tags[i]) <= 3
  {
  }

  lemma SourcesRise(b: Bundle, input: Input, triggers: seq<string>, e: Evaluation)
    requires ValidBundle(b)
    ensures Rising(SourcesOf(b, input, triggers, e))
  {
    hide RiskSources, AllRiskSources, ValidBundle, Group;
    var risk := AllRiskSources(b, input.profileId, triggers);
    forall i | 0 <= i < |risk| ensures Group(risk[i]) == 0 {
      RiskSourcesOf(b, input.profileId, triggers, risk[i]);
      var t :| t in triggers && risk[i] in RiskSources(b, input.profileId, t);
      SourcesOfOne(b, input.profileId, t);
    }
    TagsRise(e.requiredHumanTriggers, e.requiredSkills, e.modelRoles);
    LiteralGroups(input.currentState);
  }

  lemma LiteralGroups(s: Stage)
    ensures Group(DefaultLevel) == 0 && Group(TransitionSource(s)) == 4
  {
  }

  lemma TagsArePrintable(human: seq<string>, skills: seq<string>, roles: seq<(string, string)>)
    requires forall x :: x in human ==> PrintableName(x)
    requires forall x :: x in skills ==> PrintableName(x)
    requires forall i :: 0 <= i < |roles| ==> PrintableName(roles[i].1)
    ensures forall x :: x in Tags(human, skills, roles) ==> Printable(x)
  {
    hide PrintableName;
  }

  lemma SourcesArePrintable(b: Bundle, input: Input, triggers: seq<string>, e: Evaluation)
    requires ValidBundle(b) && forall t :: t in triggers ==> Known(b, input.profileId, t)
    requires forall x :: x in Tags(e.requiredHumanTriggers, e.requiredSkills, e.modelRoles) ==> Printable(x)
    ensures (forall x :: x in SourcesOf(b, input, triggers, e) ==> Printable(x))
       <==> (forall t :: t in triggers ==> WellNamed(b, input.profileId, t))
  {
    hide RiskSources, AllRiskSources, ValidBundle, PrintableName, PrintablePath, WellNamed, Tags, Known;
    var id := input.profileId;
    var risk, tags := AllRiskSources(b, id, triggers), Tags(e.requiredHumanTriggers, e.requiredSkills, e.modelRoles);
    forall x { RiskSourcesOf(b, id, triggers, x); }
    forall t | t in triggers { SourcesOfOne(b, id, t); }
    var sources := SourcesOf(b, input, triggers, e);
    assert forall x :: x in risk ==> x in sources;
    assert forall x :: x in sources ==> x in risk || x in tags || x == DefaultLevel || x == TransitionSource(input.currentState);
  }

  // The answer as a whole.

  /** A list of the answer does not follow the order of its vocabulary. */
  predicate Disordered(b: Bundle, input: Input, level: RiskLevel) {
    || !InOrder(CanonicalOrder(input.humanTriggers, b.human), b.vocabulary.human)
    || !InOrder(RequiredSkills(Features(input.attributes, level, b.routing), b.routing.skillRules), b.vocabulary.skills)
    || (level in b.gates && !InOrder(b.gates[level], b.vocabulary.gates))
  }

  predicate Misnamed(b: Bundle, input: Input) {
    exists t | t in input.riskTriggers :: !WellNamed(b, input.profileId, t)
  }

  lemma AssembledLists(b: Bundle, input: Input, triggers: seq<string>, level: RiskLevel)
    requires ValidBundle(b)
    ensures var e := Assemble(b, input, triggers, level);
            && Distinct(e.requiredHumanTriggers) && Distinct(e.requiredSkills) && Distinct(e.mandatoryGates)
            && Distinct(e.legal) && Distinct(e.authorized)
            && (forall s :: s in e.authorized ==> s in e.legal)
            && (e.humanGate ==> forall s :: s in e.authorized ==> s == WaitingHuman || s == Abandoned)
  {
    hide PrintableName, Declared<RiskLevel>.Valid, Deduplicated, AllRiskSources, Features, ModelRoles;
    var e := Assemble(b, input, triggers, level);
    CanonicalIsDistinct(input.humanTriggers, b.human);
    SkillsAreDistinct(Features(input.attributes, level, b.routing), b.routing.skillRules);
    GateTargetsAreDistinct(e.legal);
    forall s { GateTargetsSubset(e.legal, s); }
  }

  lemma AssembledTags(b: Bundle, input: Input, triggers: seq<string>, level: RiskLevel)
    requires ValidBundle(b)
    ensures var e := Assemble(b, input, triggers, level);
            forall x :: x in Tags(e.requiredHumanTriggers, e.requiredSkills, e.modelRoles) ==> Printable(x)
  {
    hide PrintableName, Declared<RiskLevel>.Valid, Deduplicated, AllRiskSources, Features, Distinct, Tags, Printable;
    var e := Assemble(b, input, triggers, level);
    forall x | x in e.requiredHumanTriggers ensures PrintableName(x) {
      CanonicalMembers(input.humanTriggers, b.human, x);
    }
    forall x | x in e.requiredSkills ensures PrintableName(x) {
      SkillsComeFromRules(Features(input.attributes, level, b.routing), b.routing.skillRules, x);
    }
    RolesArePrintable(level, b.routing.roleRules);
    TagsArePrintable(e.requiredHumanTriggers, e.requiredSkills, e.modelRoles);
  }

  lemma AssembledProvenance(b: Bundle, input: Input, triggers: seq<string>, level: RiskLevel)
    requires ValidBundle(b) && forall t :: t in triggers ==> Known(b, input.profileId, t)
    ensures ValidProvenance(Assemble(b, input, triggers, level).provenance)
       <==> (forall t :: t in triggers ==> WellNamed(b, input.profileId, t))
  {
    hide Tags, Printable, Group, AllRiskSources, Deduplicated, Features, ModelRoles, RequiredSkills, ValidBundle, WellNamed, Known;
    var e := Assemble(b, input, triggers, level);
    var sources := SourcesOf(b, input, triggers, e);
    assert e.provenance == Deduplicated(sources);
    AssembledTags(b, input, triggers, level);
    SourcesArePrintable(b, input, triggers, e);
    SourcesRise(b, input, triggers, e);
    DeduplicatedKeeps(sources);
    DeduplicatedRises(sources);
    assert (forall i :: 0 <= i < |e.provenance| ==> Printable(e.provenance[i])) <==> (forall x :: x in sources ==> Printable(x));
  }

  /** An assembled answer keeps every rule of its contract but two, whatever the bundle and the request: it
      meets the contract exactly when its lists follow their vocabularies and its triggers can be printed. */
  lemma AnswerMeetsContractExactly(b: Bundle, input: Input, triggers: seq<string>, level: RiskLevel)
    requires ValidBundle(b) && forall t :: t in triggers ==> Known(b, input.profileId, t)
    ensures MeetsContract(b, Assemble(b, input, triggers, level))
       <==> !Disordered(b, input, level) && forall t :: t in triggers ==> WellNamed(b, input.profileId, t)
  {
    AssembledLists(b, input, triggers, level);
    AssembledProvenance(b, input, triggers, level);
    assert level in b.gates;
    hide ValidProvenance, ValidBundle, WellNamed, Known, Distinct, CanonicalOrder, RequiredSkills, Features, ModelRoles, Deduplicated,
         AllRiskSources, Tags, GateTargets;
  }

  // Bundles whose lists follow the vocabularies throughout.

  function SkillIds(rules: seq<SkillRule>): seq<string> {
    if rules == [] then [] else [rules[0].id] + SkillIds(rules[1..])
  }

  /** Human triggers, skill rules and the gates of every level are declared in the order of the vocabulary. */
  predicate Orderly(b: Bundle) {
    && InOrder(b.human, b.vocabulary.human)
    && InOrder(SkillIds(b.routing.skillRules), b.vocabulary.skills)
    && forall level :: level in b.gates ==> InOrder(b.gates[level], b.vocabulary.gates)
  }

  lemma {:induction false} SelectionsCompose(values: seq<string>, declared: seq<string>, vocabulary: seq<string>, both: seq<string>)
    requires forall x :: x in both <==> x in values && x in declared
    ensures CanonicalOrder(values, CanonicalOrder(declared, vocabulary)) == CanonicalOrder(both, vocabulary)
  {
    if vocabulary != [] {
      var rest := CanonicalOrder(declared, vocabulary[1..]);
      SelectionsCompose(values, declared, vocabulary[1..], both);
      var selected := CanonicalOrder(declared, vocabulary);
      if vocabulary[0] in declared {
        assert selected == [vocabulary[0]] + rest && selected[1..] == rest;
      } else {
        assert selected == [] + rest == rest && vocabulary[0] !in both;
        assert CanonicalOrder(both, vocabulary) == [] + CanonicalOrder(both, vocabulary[1..]);
      }
    }
  }

  /** What is selected from an ordered list is in order. */
  lemma SelectionIsInOrder(values: seq<string>, declared: seq<string>, vocabulary: seq<string>)
    requires InOrder(declared, vocabulary)
    ensures InOrder(CanonicalOrder(values, declared), vocabulary)
  {
    var both := CanonicalOrder(values, declared);
    forall x { CanonicalMembers(values, declared, x); }
    SelectionsCompose(values, declared, vocabulary, both);
  }

  lemma {:induction false} OutsideChangesNothing(values: seq<string>, more: seq<string>, order: seq<string>)
    requires forall x :: x in order ==> (x in values <==> x in more)
    ensures CanonicalOrder(values, order) == CanonicalOrder(more, order)
  {
    if order != [] {
      OutsideChangesNothing(values, more, order[1..]);
    }
  }

  lemma {:induction false} SkillsAreSelected(features: set<string>, rules: seq<SkillRule>)
    requires forall i, j :: 0 <= i < j < |rules| ==> rules[i].id != rules[j].id
    ensures RequiredSkills(features, rules) == CanonicalOrder(RequiredSkills(features, rules), SkillIds(rules))
  {
    if rules != [] {
      var all, rest := RequiredSkills(features, rules), RequiredSkills(features, rules[1..]);
      SkillsAreSelected(features, rules[1..]);
      if rules[0].id in rest { SkillsComeFromRules(features, rules[1..], rules[0].id); }
      assert SkillIds(rules)[1..] == SkillIds(rules[1..]);
      forall x | x in SkillIds(rules[1..]) ensures x in all <==> x in rest {
        IdsAreIds(rules[1..], x);
      }
      OutsideChangesNothing(all, rest, SkillIds(rules[1..]));
    }
  }

  lemma {:induction false} IdsAreIds(rules: seq<SkillRule>, x: string)
    requires x in SkillIds(rules)
    ensures exists i :: 0 <= i < |rules| && rules[i].id == x
  {
    if rules[0].id != x {
      IdsAreIds(rules[1..], x);
      var i :| 0 <= i < |rules[1..]| && rules[1..][i].id == x;
      assert rules[i + 1].id == x;
    }
  }

  lemma OrderlyBundlesAreNeverDisordered(b: Bundle, input: Input, level: RiskLevel)
    requires ValidBundle(b) && Orderly(b)
    ensures !Disordered(b, input, level)
  {
    hide PrintableName, Features, CanonicalOrder, RequiredSkills;
    SelectionIsInOrder(input.humanTriggers, b.human, b.vocabulary.human);
    var features := Features(input.attributes, level, b.routing);
    SkillsAreSelected(features, b.routing.skillRules);
    SelectionIsInOrder(RequiredSkills(features, b.routing.skillRules), SkillIds(b.routing.skillRules), b.vocabulary.skills);
  }
}
