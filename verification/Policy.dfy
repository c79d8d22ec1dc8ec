/** The policy evaluator: risk level, human gate and authorized transitions of a request. */
module Policy {
  import opened Results
  import opened Stages

  datatype RiskLevel = R0 | R1 | R2 | R3

  function Rank(level: RiskLevel): nat {
    match level case R0 => 0 case R1 => 1 case R2 => 2 case R3 => 3
  }

  /** An ordered mapping of a configuration file. */
  datatype Declared<V> = Declared(order: seq<string>, values: map<string, V>) {
    ghost predicate Valid() {
      && (forall i, j :: 0 <= i < j < |order| ==> order[i] != order[j])
      && (forall k :: k in order <==> k in values)
    }
  }

  datatype SkillRule = SkillRule(id: string, always: bool, whenAny: seq<string>)
  datatype RoleRule = RoleRule(actor: string, always: Option<string>, byLevel: map<RiskLevel, string>)

  datatype Routing = Routing(
    riskConditions: map<RiskLevel, set<string>>,
    attributeFeatures: map<(string, string), set<string>>,
    skillRules: seq<SkillRule>,
    roleRules: seq<RoleRule>)

  /** `overrides.order` lists the keys sorted, as the evaluator sorts them. */
  datatype Profile = Profile(sourcePath: string, overrides: Declared<RiskLevel>)

  /** The lists of the result contract, in their canonical order. */
  datatype Vocabulary = Vocabulary(human: seq<string>, skills: seq<string>, gates: seq<string>)

  datatype Bundle = Bundle(
    vocabulary: Vocabulary,
    workflow: Workflow,
    defaultLevel: RiskLevel,
    risk: Declared<RiskLevel>,
    gates: map<RiskLevel, seq<string>>,
    human: seq<string>,
    routing: Routing,
    profiles: map<string, Profile>)

  datatype Input = Input(
    currentState: Stage,
    riskTriggers: seq<string>,
    humanTriggers: seq<string>,
    attributes: map<string, string>,
    profileId: Option<string>)

  /** Where a part of the result comes from. */
  datatype Source =
    | DefaultLevel
    | RiskTrigger(trigger: string)
    | ProfileOverride(path: string, trigger: string)
    | HumanTrigger(trigger: string)
    | SkillSource(id: string)
    | RoleSource(role: string)
    | TransitionSource(state: Stage)

  datatype PolicyError =
    | DuplicateRiskTrigger(index: nat)
    | DuplicateHumanTrigger(index: nat)
    | UnknownAttribute
    | UnknownHumanTrigger(index: nat)
    | UnknownProfile
    | UnknownRiskTrigger(index: nat)
    | ProfileDowngradeForbidden(trigger: string)
    | UnknownOrderedTrigger(trigger: string)
    | MalformedResult

  datatype Evaluation = Evaluation(
    riskLevel: RiskLevel,
    humanGate: bool,
    requiredHumanTriggers: seq<string>,
    requiredSkills: seq<string>,
    modelRoles: seq<(string, string)>,
    mandatoryGates: seq<string>,
    legal: seq<Stage>,
    authorized: seq<Stage>,
    provenance: seq<Source>,
    error: Option<PolicyError>)
  {
    predicate FailClosed() { error.Some? }
  }

  // Canonical orders.

  function CanonicalOrder(values: seq<string>, order: seq<string>): seq<string> {
    if order == [] then []
    else (if order[0] in values then [order[0]] else []) + CanonicalOrder(values, order[1..])
  }

  function Without(keys: seq<string>, known: map<string, RiskLevel>): seq<string> {
    if keys == [] then [] else (if keys[0] in known then [] else [keys[0]]) + Without(keys[1..], known)
  }

  function NoOverrides(): Declared<RiskLevel> { Declared([], map[]) }

  function ProfileOf(b: Bundle, id: Option<string>): Option<Profile> {
    if id.Some? && id.value in b.profiles then Some(b.profiles[id.value]) else None
  }

  function Overrides(b: Bundle, id: Option<string>): Declared<RiskLevel> {
    var p := ProfileOf(b, id);
    if p.Some? then p.value.overrides else NoOverrides()
  }

  function DeclarationOrder(b: Bundle, id: Option<string>): seq<string> {
    b.risk.order + Without(Overrides(b, id).order, b.risk.values)
  }

  // Levels of one trigger.

  function GlobalLevel(b: Bundle, t: string): Option<RiskLevel> {
    if t in b.risk.values then Some(b.risk.values[t]) else None
  }

  function EffectiveLevel(b: Bundle, id: Option<string>, t: string): Option<RiskLevel> {
    var o := Overrides(b, id);
    if t in o.values then Some(o.values[t]) else GlobalLevel(b, t)
  }

  predicate Downgrades(b: Bundle, id: Option<string>, t: string) {
    var o := Overrides(b, id);
    t in o.values && t in b.risk.values && Rank(o.values[t]) < Rank(b.risk.values[t])
  }

  predicate Known(b: Bundle, id: Option<string>, t: string) {
    t in b.risk.values || t in Overrides(b, id).values
  }

  function Higher(level: RiskLevel, candidate: RiskLevel): RiskLevel {
    if Rank(candidate) > Rank(level) then candidate else level
  }

  /** The level after the ordered triggers, starting from `level`. */
  function RiskFrom(b: Bundle, id: Option<string>, level: RiskLevel, triggers: seq<string>): Result<RiskLevel, PolicyError>
    decreases |triggers|
  {
    if triggers == [] then Success(level)
    else
      var t := triggers[0];
      if Downgrades(b, id, t) then Failure(ProfileDowngradeForbidden(t))
      else
        match EffectiveLevel(b, id, t)
        case None => Failure(UnknownOrderedTrigger(t))
        case Some(candidate) => RiskFrom(b, id, Higher(level, candidate), triggers[1..])
  }

  function RiskSources(b: Bundle, id: Option<string>, t: string): seq<Source> {
    (if t in b.risk.values then [RiskTrigger(t)] else []) +
    (var p := ProfileOf(b, id);
     if p.Some? && t in p.value.overrides.values then [ProfileOverride(p.value.sourcePath, t)] else [])
  }

  function AllRiskSources(b: Bundle, id: Option<string>, triggers: seq<string>): seq<Source> {
    if triggers == [] then [] else RiskSources(b, id, triggers[0]) + AllRiskSources(b, id, triggers[1..])
  }

  function FirstUnknown(b: Bundle, id: Option<string>, triggers: seq<string>, i: nat): Option<nat>
    requires i <= |triggers|
    decreases |triggers| - i
  {
    if i == |triggers| then None
    else if !Known(b, id, triggers[i]) then Some(i)
    else FirstUnknown(b, id, triggers, i + 1)
  }

  // Routing.

  function AttributeFeatures(attributes: map<string, string>, r: Routing): set<string> {
    set k, f | k in attributes && (k, attributes[k]) in r.attributeFeatures
               && f in r.attributeFeatures[(k, attributes[k])] :: f
  }

  function Features(attributes: map<string, string>, level: RiskLevel, r: Routing): set<string> {
    (if level in r.riskConditions then r.riskConditions[level] else {}) + AttributeFeatures(attributes, r)
  }

  function RequiredSkills(features: set<string>, rules: seq<SkillRule>): seq<string> {
    if rules == [] then []
    else
      (if rules[0].always || exists i :: 0 <= i < |rules[0].whenAny| && rules[0].whenAny[i] in features
       then [rules[0].id] else []) + RequiredSkills(features, rules[1..])
  }

  function ModelRoles(level: RiskLevel, rules: seq<RoleRule>): seq<(string, string)> {
    if rules == [] then []
    else
      (if rules[0].always.Some? then [(rules[0].actor, rules[0].always.value)]
       else if level in rules[0].byLevel then [(rules[0].actor, rules[0].byLevel[level])]
       else []) + ModelRoles(level, rules[1..])
  }

  /** Later repetitions dropped, first occurrences kept in order. */
  function Deduplicated(values: seq<Source>): seq<Source> {
    if values == [] then []
    else
      var rest := Deduplicated(DropLast(values));
      if Last(values) in DropLast(values) then rest else rest + [Last(values)]
  }

  function GateTargets(legal: seq<Stage>): seq<Stage> {
    if legal == [] then []
    else (if legal[0] == WaitingHuman || legal[0] == Abandoned then [legal[0]] else []) + GateTargets(legal[1..])
  }

  function Authorized(legal: seq<Stage>, humanGate: bool): seq<Stage> {
    if humanGate then GateTargets(legal) else legal
  }

  function Tags(humanTriggers: seq<string>, skills: seq<string>, roles: seq<(string, string)>): seq<Source> {
    seq(|humanTriggers|, i requires 0 <= i < |humanTriggers| => HumanTrigger(humanTriggers[i])) +
    seq(|skills|, i requires 0 <= i < |skills| => SkillSource(skills[i])) +
    seq(|roles|, i requires 0 <= i < |roles| => RoleSource(roles[i].1))
  }

  function Assemble(b: Bundle, input: Input, triggers: seq<string>, level: RiskLevel): Evaluation {
    var humanTriggers := CanonicalOrder(input.humanTriggers, b.human);
    var humanGate := humanTriggers != [] || level == R3;
    var legal := Targets(b.workflow, input.currentState);
    var skills := RequiredSkills(Features(input.attributes, level, b.routing), b.routing.skillRules);
    var roles := ModelRoles(level, b.routing.roleRules);
    var sources := (if triggers == [] then [DefaultLevel] else []) + AllRiskSources(b, input.profileId, triggers)
                   + Tags(humanTriggers, skills, roles) + [TransitionSource(input.currentState)];
    Evaluation(level, humanGate, humanTriggers, skills, roles,
               if level in b.gates then b.gates[level] else [],
               legal, Authorized(legal, humanGate), Deduplicated(sources), None)
  }

  /** What evaluation of a validated input amounts to. */
  function Evaluated(b: Bundle, input: Input): Result<Evaluation, PolicyError> {
    match FirstUnknown(b, input.profileId, input.riskTriggers, 0)
    case Some(index) => Failure(UnknownRiskTrigger(index))
    case None =>
      var triggers := CanonicalOrder(input.riskTriggers, DeclarationOrder(b, input.profileId));
      var level :- RiskFrom(b, input.profileId, b.defaultLevel, triggers);
      Success(Assemble(b, input, triggers, level))
  }

  /** The evaluator's two risk loops: reject unknown triggers, then take the highest level in canonical order. */
  method EvaluateNormalized(b: Bundle, input: Input) returns (r: Result<Evaluation, PolicyError>)
    ensures r == Evaluated(b, input)
  {
    hide CanonicalOrder, DeclarationOrder, Known, Downgrades, RiskSources, Features, RequiredSkills, ModelRoles, Tags, GateTargets,
         Deduplicated;
    var id := input.profileId;
    var index := 0;
    while index < |input.riskTriggers|
      invariant 0 <= index <= |input.riskTriggers|
      invariant FirstUnknown(b, id, input.riskTriggers, 0) == FirstUnknown(b, id, input.riskTriggers, index)
    {
      if !Known(b, id, input.riskTriggers[index]) {
        return Failure(UnknownRiskTrigger(index));
      }
      index := index + 1;
    }
    var triggers := CanonicalOrder(input.riskTriggers, DeclarationOrder(b, id));
    var level := b.defaultLevel;
    var provenance := if triggers == [] then [DefaultLevel] else [];
    var n := 0;
    while n < |triggers|
      invariant 0 <= n <= |triggers|
      invariant RiskFrom(b, id, b.defaultLevel, triggers) == RiskFrom(b, id, level, triggers[n..])
      invariant (if triggers == [] then [DefaultLevel] else []) + AllRiskSources(b, id, triggers)
             == provenance + AllRiskSources(b, id, triggers[n..])
    {
      var t := triggers[n];
      assert triggers[n..][0] == t && triggers[n..][1..] == triggers[n + 1..];
      if Downgrades(b, id, t) {
        return Failure(ProfileDowngradeForbidden(t));
      }
      var candidate := EffectiveLevel(b, id, t);
      if candidate == None {
        return Failure(UnknownOrderedTrigger(t));
      }
      assert provenance + (RiskSources(b, id, t) + AllRiskSources(b, id, triggers[n + 1..]))
          == (provenance + RiskSources(b, id, t)) + AllRiskSources(b, id, triggers[n + 1..]);
      provenance := provenance + RiskSources(b, id, t);
      level := Higher(level, candidate.value);
      n := n + 1;
    }
    assert triggers[n..] == [];
    assert provenance == (if triggers == [] then [DefaultLevel] else []) + AllRiskSources(b, id, triggers);
    var humanTriggers := CanonicalOrder(input.humanTriggers, b.human);
    var humanGate := humanTriggers != [] || level == R3;
    var legal := Targets(b.workflow, input.currentState);
    var skills := RequiredSkills(Features(input.attributes, level, b.routing), b.routing.skillRules);
    var roles := ModelRoles(level, b.routing.roleRules);
    provenance := provenance + Tags(humanTriggers, skills, roles) + [TransitionSource(input.currentState)];
    r := Success(Evaluation(level, humanGate, humanTriggers, skills, roles,
                            if level in b.gates then b.gates[level] else [],
                            legal, Authorized(legal, humanGate), Deduplicated(provenance), None));
  }

  // Validation before evaluation, and the fail-closed result.

  predicate RepeatedAt(values: seq<string>, i: nat)
    requires i < |values|
  {
    values[i] in values[..i]
  }

  function FirstRepeated(values: seq<string>, i: nat): Option<nat>
    requires i <= |values|
    decreases |values| - i
  {
    if i == |values| then None
    else if RepeatedAt(values, i) then Some(i)
    else FirstRepeated(values, i + 1)
  }

  function FirstUndeclared(values: seq<string>, declared: seq<string>, i: nat): Option<nat>
    requires i <= |values|
    decreases |values| - i
  {
    if i == |values| then None
    else if values[i] !in declared then Some(i)
    else FirstUndeclared(values, declared, i + 1)
  }

  function Prevalidate(b: Bundle, input: Input): Option<PolicyError> {
    var risk := FirstRepeated(input.riskTriggers, 0);
    if risk.Some? then Some(DuplicateRiskTrigger(risk.value))
    else
      var human := FirstRepeated(input.humanTriggers, 0);
      if human.Some? then Some(DuplicateHumanTrigger(human.value))
      else if !(forall k | k in input.attributes :: (k, input.attributes[k]) in b.routing.attributeFeatures) then Some(UnknownAttribute)
      else
        var unknown := FirstUndeclared(input.humanTriggers, b.human, 0);
        if unknown.Some? then Some(UnknownHumanTrigger(unknown.value))
        else if input.profileId.Some? && input.profileId.value !in b.profiles then Some(UnknownProfile)
        else None
  }

  function FailClosedResult(error: PolicyError): Evaluation {
    Evaluation(R3, true, [], [], [], [], [], [], [], Some(error))
  }

  // The contract every answer is checked against before it is handed out.

  predicate Distinct<T(==)>(values: seq<T>) {
    forall i, j :: 0 <= i < j < |values| ==> values[i] != values[j]
  }

  /** The list follows the order of the vocabulary, and holds nothing else. */
  predicate InOrder(values: seq<string>, vocabulary: seq<string>) {
    values == CanonicalOrder(values, vocabulary)
  }

  predicate Letter(c: char) { 'a' <= c <= 'z' || 'A' <= c <= 'Z' || '0' <= c <= '9' || c == '_' || c == '.' || c == '-' }

  /** The end of a provenance path; the expression lets one final line break pass. */
  predicate PrintableName(name: string) {
    var n := if name != "" && Last(name) == '\n' then |name| - 1 else |name|;
    forall i :: 0 <= i < n ==> Letter(name[i]) || name[i] == '[' || name[i] == ']'
  }

  predicate PrintablePath(path: string) {
    && (forall i :: 0 <= i < |path| ==> Letter(path[i]) || path[i] == '/')
    && ((|path| > 5 && path[|path| - 5..] == ".yaml") || (|path| > 4 && path[|path| - 4..] == ".yml"))
  }

  predicate Printable(source: Source) {
    match source
    case RiskTrigger(t) => PrintableName(t)
    case ProfileOverride(path, t) => PrintablePath(path) && PrintableName(t)
    case HumanTrigger(t) => PrintableName(t)
    case SkillSource(id) => PrintableName(id)
    case RoleSource(role) => PrintableName(role)
    case _ => true
  }

  function Group(source: Source): nat {
    match source
    case DefaultLevel => 0
    case RiskTrigger(_) => 0
    case ProfileOverride(path, _) => if "project_profiles/" <= path then 0 else 99
    case HumanTrigger(_) => 1
    case SkillSource(_) => 2
    case RoleSource(_) => 3
    case TransitionSource(_) => 4
  }

  predicate ValidProvenance(provenance: seq<Source>) {
    && Distinct(provenance)
    && (forall i :: 0 <= i < |provenance| ==> Printable(provenance[i]))
    && (forall i :: 0 < i < |provenance| ==> Group(provenance[i - 1]) <= Group(provenance[i]))
  }

  predicate MeetsContract(b: Bundle, e: Evaluation) {
    if e.FailClosed() then
      && e.riskLevel == R3 && e.humanGate
      && e.requiredHumanTriggers == [] && e.requiredSkills == [] && e.modelRoles == [] && e.mandatoryGates == []
      && e.legal == [] && e.authorized == [] && e.provenance == []
    else
      && (e.riskLevel == R3 ==> e.humanGate)
      && (e.requiredHumanTriggers != [] ==> e.humanGate)
      && Distinct(e.requiredHumanTriggers) && InOrder(e.requiredHumanTriggers, b.vocabulary.human)
      && Distinct(e.requiredSkills) && InOrder(e.requiredSkills, b.vocabulary.skills)
      && Distinct(e.mandatoryGates) && InOrder(e.mandatoryGates, b.vocabulary.gates)
      && Distinct(e.legal) && Distinct(e.authorized)
      && ValidProvenance(e.provenance)
      && (forall s :: s in e.authorized ==> s in e.legal)
      && (e.humanGate ==> forall s :: s in e.authorized ==> s == WaitingHuman || s == Abandoned)
      && e.riskLevel in b.gates && e.mandatoryGates == b.gates[e.riskLevel]
  }

  /** The evaluator's answer: every refusal, and every answer outside its contract, becomes the fail-closed
      result. */
  function Evaluate(b: Bundle, input: Input): Evaluation {
    match Prevalidate(b, input)
    case Some(error) => FailClosedResult(error)
    case None =>
      match Evaluated(b, input)
      case Failure(error) => FailClosedResult(error)
      case Success(e) => if MeetsContract(b, e) then e else FailClosedResult(MalformedResult)
  }

  method EvaluatePolicy(b: Bundle, input: Input) returns (e: Evaluation)
    ensures e == Evaluate(b, input)
  {
    var error := Prevalidate(b, input);
    if error.Some? {
      return FailClosedResult(error.value);
    }
    var r := EvaluateNormalized(b, input);
    if r.Failure? {
      return FailClosedResult(r.error);
    }
    e := if MeetsContract(b, r.value) then r.value else FailClosedResult(MalformedResult);
  }
}
