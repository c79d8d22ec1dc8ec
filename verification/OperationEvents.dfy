/** Reconciliation of an executor's claimed operations with the controller's own observations. */
module OperationEvents {
  import opened Results
  import opened Identifiers

  datatype OperationClass =
    | WorkspaceRead | TargetedTextSearch | ApprovedFilePatch | LocalCheckProcess | GitReadOnlyInspection
    | UnknownClass(name: string)

  datatype Origin = ControllerEvent | ProcessObservation | FilesystemDiff | GitDiff | UnknownOrigin(name: string)

  predicate ProcessClass(c: OperationClass) { c.LocalCheckProcess? || c.GitReadOnlyInspection? }

  /** A final response: its digest, and whether it is a valid agent result in canonical form. */
  datatype Response = Response(digest: Sha, canonicalResult: bool)

  /** One line of the event stream after JSON parsing. `exactKeys` says that the object has
      exactly the keys of its kind; an absent option is a value of the wrong type. */
  datatype Line =
    | Blank
    | NotJson
    | NotMapping
    | FinalResponse(exactKeys: bool, response: Option<Response>)
    | Prohibited
    | Operation(kind: OperationClass, exactKeys: bool, paths: Option<seq<string>>, eventId: Option<string>,
                evidence: Option<Sha>, executable: Option<string>, argv: Option<seq<string>>, cwd: Option<string>)

  datatype Claim = Claim(
    kind: OperationClass, eventId: string, executable: Option<string>, argv: seq<string>,
    cwd: Option<string>, paths: seq<string>, evidence: Sha)

  datatype Observation = Observation(
    kind: OperationClass, origin: Origin, eventId: Option<string>, executable: Option<string>,
    argv: seq<string>, cwd: Option<string>, paths: seq<string>, evidence: string)

  datatype Row = Row(
    sequence: nat, kind: OperationClass, origin: Origin, eventId: Option<string>, executable: Option<string>,
    argv: seq<string>, cwd: Option<string>, paths: seq<string>, pass: bool, evidence: Sha)

  datatype Parsed = Parsed(
    parsedCount: nat, unknownCount: nat, prohibitedCount: nat, finalResponse: Option<Sha>, rows: seq<Row>)

  predicate NonemptyArguments(argv: seq<string>) {
    argv != [] && forall i :: 0 <= i < |argv| ==> argv[i] != ""
  }

  /** A line that claims an operation in the shape of its class. */
  predicate WellShaped(l: Line) {
    && l.Operation? && !l.kind.UnknownClass? && l.exactKeys
    && l.paths.Some? && SafePaths(l.paths.value)
    && l.eventId.Some? && CodingSafeId(l.eventId.value)
    && l.evidence.Some?
    && (ProcessClass(l.kind) ==>
          l.executable.Some? && l.argv.Some? && NonemptyArguments(l.argv.value) && l.cwd.Some?)
  }

  /** The claim a line makes, if it is well shaped. */
  function Claimed(l: Line): Option<Claim> {
    if !WellShaped(l) then None
    else if ProcessClass(l.kind)
    then Some(Claim(l.kind, l.eventId.value, l.executable, l.argv.value, l.cwd, l.paths.value, l.evidence.value))
    else Some(Claim(l.kind, l.eventId.value, None, [], None, l.paths.value, l.evidence.value))
  }

  /** An operation line becomes a claim unless an earlier claim has its identity. */
  predicate Claims(lines: seq<Line>, i: nat)
    requires i < |lines|
    decreases i
  {
    && Claimed(lines[i]).Some?
    && forall j :: 0 <= j < i && Claims(lines, j) ==> Claimed(lines[j]).value.eventId != Claimed(lines[i]).value.eventId
  }

  predicate GoodResponse(l: Line) {
    l.FinalResponse? && l.exactKeys && l.response.Some? && l.response.value.canonicalResult
  }

  /** The first good final response is accepted, and no other. */
  predicate Responds(lines: seq<Line>, i: nat)
    requires i < |lines|
  {
    GoodResponse(lines[i]) && forall j :: 0 <= j < i ==> !GoodResponse(lines[j])
  }

  predicate Rejected(lines: seq<Line>, i: nat)
    requires i < |lines|
  {
    match lines[i]
    case Blank => false
    case Prohibited => false
    case NotJson => true
    case NotMapping => true
    case FinalResponse(_, _) => !Responds(lines, i)
    case Operation(_, _, _, _, _, _, _, _) => !Claims(lines, i)
  }

  ghost function ProhibitedLines(lines: seq<Line>): set<nat> {
    set i: nat | i < |lines| && lines[i].Prohibited?
  }

  /** A line that is a JSON mapping, whatever becomes of it. */
  predicate IsMapping(l: Line) { l.FinalResponse? || l.Prohibited? || l.Operation? }

  ghost function MappingLines(lines: seq<Line>): set<nat> {
    set i: nat | i < |lines| && IsMapping(lines[i])
  }

  function Count(b: bool): nat { if b then 1 else 0 }

  ghost function RejectedLines(lines: seq<Line>): set<nat> {
    set i: nat | i < |lines| && Rejected(lines, i)
  }

  /** The claim an observation with an event identity must find. */
  function ExpectedClaim(o: Observation): Claim
    requires o.eventId.Some?
  {
    Claim(o.kind, o.eventId.value, o.executable, o.argv, o.cwd, o.paths, Sha256(o.evidence))
  }

  predicate Matches(claims: map<string, Claim>, o: Observation) {
    o.eventId.Some? && o.eventId.value in claims && claims[o.eventId.value] == ExpectedClaim(o)
  }

  predicate ValidShape(o: Observation) {
    && !o.kind.UnknownClass? && !o.origin.UnknownOrigin? && SafePaths(o.paths) && o.evidence != ""
    && (if ProcessClass(o.kind)
        then o.executable.Some? && NonemptyArguments(o.argv) && o.cwd.Some?
        else o.executable == None && o.argv == [] && o.cwd == None)
  }

  /** An observation passes when it is well shaped and either matches a claim or is the controller's own. */
  predicate Passes(claims: map<string, Claim>, o: Observation) {
    ValidShape(o) && (if o.eventId.Some? then Matches(claims, o) else o.origin != ControllerEvent)
  }

  function RowOf(claims: map<string, Claim>, o: Observation, sequence: nat): Row {
    Row(sequence, o.kind, o.origin, o.eventId, o.executable, o.argv, o.cwd, o.paths, Passes(claims, o), Sha256(o.evidence))
  }

  ghost function Invalid(claims: map<string, Claim>, observations: seq<Observation>): set<nat> {
    set k: nat | k < |observations| && !Passes(claims, observations[k])
  }

  /** The claim identity an observation finds. */
  function Match(claims: map<string, Claim>, o: Observation): Option<string> {
    if Matches(claims, o) then o.eventId else None
  }

  ghost function Matched(claims: map<string, Claim>, observations: seq<Observation>): set<string> {
    set k | 0 <= k < |observations| && Match(claims, observations[k]).Some? :: Match(claims, observations[k]).value
  }

  ghost predicate ClaimedBy(lines: seq<Line>, claim: Claim) {
    exists i :: 0 <= i < |lines| && Claims(lines, i) && Claimed(lines[i]) == Some(claim)
  }

  /** The claims are those the lines make, filed under their identities. */
  ghost predicate ClaimsOfLines(lines: seq<Line>, claims: map<string, Claim>) {
    && (forall i :: 0 <= i < |lines| && Claims(lines, i) ==> Claimed(lines[i]).value.eventId in claims)
    && (forall id :: id in claims ==> claims[id].eventId == id && ClaimedBy(lines, claims[id]))
  }

  ghost predicate Observed(observations: seq<Observation>, claim: Claim) {
    exists k :: 0 <= k < |observations| && observations[k].eventId.Some? && ExpectedClaim(observations[k]) == claim
  }

  ghost predicate ResponseOfLines(lines: seq<Line>, response: Option<Sha>) {
    match response
    case None => forall i :: 0 <= i < |lines| ==> !GoodResponse(lines[i])
    case Some(digest) => exists i :: 0 <= i < |lines| && Responds(lines, i) && lines[i].response.value.digest == digest
  }

  // Adding one line changes nothing about the lines before it.

  lemma {:induction false} ClaimsExtends(lines: seq<Line>, line: Line, i: nat)
    requires i < |lines|
    ensures Claims(lines + [line], i) == Claims(lines, i)
    decreases i
  {
    forall j | 0 <= j < i ensures Claims(lines + [line], j) == Claims(lines, j) {
      ClaimsExtends(lines, line, j);
    }
  }

  lemma RejectedExtends(lines: seq<Line>, line: Line)
    ensures |RejectedLines(lines + [line])| == |RejectedLines(lines)| + Count(Rejected(lines + [line], |lines|))
  {
    hide Claimed, GoodResponse;
    var more := lines + [line];
    forall i: nat | i < |lines| ensures Rejected(more, i) == Rejected(lines, i) {
      assert more[i] == lines[i];
      ClaimsExtends(lines, line, i);
      assert forall j :: 0 <= j < i ==> more[j] == lines[j];
    }
    assert RejectedLines(more) == RejectedLines(lines) + (if Rejected(more, |lines|) then {|lines|} else {});
  }

  lemma ProhibitedExtends(lines: seq<Line>, line: Line)
    ensures |ProhibitedLines(lines + [line])| == |ProhibitedLines(lines)| + Count(line.Prohibited?)
  {
    var more := lines + [line];
    assert forall i :: 0 <= i < |lines| ==> more[i] == lines[i];
    assert ProhibitedLines(more) == ProhibitedLines(lines) + (if line.Prohibited? then {|lines|} else {});
  }

  lemma MappingExtends(lines: seq<Line>, line: Line)
    ensures |MappingLines(lines + [line])| == |MappingLines(lines)| + Count(IsMapping(line))
  {
    hide IsMapping;
    var more := lines + [line];
    assert forall i :: 0 <= i < |lines| ==> more[i] == lines[i];
    assert MappingLines(more) == MappingLines(lines) + (if IsMapping(line) then {|lines|} else {});
  }

  /** An operation line claims exactly when it is well shaped and its identity is new. */
  lemma ClaimsIffNew(lines: seq<Line>, line: Line, claims: map<string, Claim>)
    requires ClaimsOfLines(lines, claims)
    ensures Claims(lines + [line], |lines|) <==> New(line, claims)
  {
    hide Claimed;
    var more := lines + [line];
    assert more[|lines|] == line;
    if Claimed(line).Some? {
      var id := Claimed(line).value.eventId;
      if id in claims {
        var i :| 0 <= i < |lines| && Claims(lines, i) && Claimed(lines[i]) == Some(claims[id]);
        ClaimsExtends(lines, line, i);
        assert Claims(more, i) && Claimed(more[i]) == Some(claims[id]);
      } else {
        forall j: nat | j < |lines| && Claims(more, j) ensures Claimed(more[j]).value.eventId != id {
          ClaimsExtends(lines, line, j);
          assert Claims(lines, j) && more[j] == lines[j];
        }
      }
    }
  }

  lemma ClaimedExtends(lines: seq<Line>, line: Line, claim: Claim)
    requires ClaimedBy(lines, claim)
    ensures ClaimedBy(lines + [line], claim)
  {
    hide Claimed;
    var more := lines + [line];
    var i :| 0 <= i < |lines| && Claims(lines, i) && Claimed(lines[i]) == Some(claim);
    ClaimsExtends(lines, line, i);
    assert Claims(more, i) && Claimed(more[i]) == Some(claim);
  }

  predicate New(line: Line, claims: map<string, Claim>) {
    Claimed(line).Some? && Claimed(line).value.eventId !in claims
  }

  function AddClaim(claims: map<string, Claim>, line: Line): map<string, Claim> {
    if New(line, claims) then claims[Claimed(line).value.eventId := Claimed(line).value] else claims
  }

  lemma ClaimsExtend(lines: seq<Line>, line: Line, claims: map<string, Claim>)
    requires ClaimsOfLines(lines, claims)
    ensures ClaimsOfLines(lines + [line], AddClaim(claims, line))
  {
    hide Claimed, ClaimedBy;
    var more, after := lines + [line], AddClaim(claims, line);
    ClaimsIffNew(lines, line, claims);
    forall i: nat | i < |more| && Claims(more, i) ensures Claimed(more[i]).value.eventId in after {
      if i < |lines| {
        ClaimsExtends(lines, line, i);
        assert more[i] == lines[i];
      }
    }
    forall id | id in after ensures after[id].eventId == id && ClaimedBy(more, after[id]) {
      if id in claims {
        ClaimedExtends(lines, line, claims[id]);
      } else {
        NewClaimIsClaimed(lines, line, claims);
      }
    }
  }

  lemma NewClaimIsClaimed(lines: seq<Line>, line: Line, claims: map<string, Claim>)
    requires ClaimsOfLines(lines, claims) && New(line, claims)
    ensures ClaimedBy(lines + [line], Claimed(line).value)
  {
    hide Claimed;
    ClaimsIffNew(lines, line, claims);
    assert Claims(lines + [line], |lines|);
  }

  lemma ResponseExtends(lines: seq<Line>, line: Line, response: Option<Sha>)
    requires ResponseOfLines(lines, response)
    ensures Responds(lines + [line], |lines|) <==> GoodResponse(line) && response == None
    ensures ResponseOfLines(lines + [line],
              if Responds(lines + [line], |lines|) then Some(line.response.value.digest) else response)
  {
    var more := lines + [line];
    if response.Some? {
      var i :| 0 <= i < |lines| && Responds(lines, i) && lines[i].response.value.digest == response.value;
      assert more[i] == lines[i] && Responds(more, i);
    } else {
      assert forall i :: 0 <= i < |lines| ==> more[i] == lines[i];
    }
  }

  /** What the loop decides about its next line, from the claims and response so far. */
  predicate Refused(line: Line, claims: map<string, Claim>, response: Option<Sha>) {
    match line
    case Blank => false
    case Prohibited => false
    case NotJson => true
    case NotMapping => true
    case FinalResponse(_, _) => !(GoodResponse(line) && response == None)
    case Operation(_, _, _, _, _, _, _, _) => !New(line, claims)
  }

  ghost predicate Reads(lines: seq<Line>, claims: map<string, Claim>, response: Option<Sha>, parsed: nat, unknown: nat, prohibited: nat) {
    && ClaimsOfLines(lines, claims) && ResponseOfLines(lines, response) && parsed == |MappingLines(lines)|
    && unknown == |RejectedLines(lines)| && prohibited == |ProhibitedLines(lines)|
  }

  function Answer(line: Line, response: Option<Sha>): Option<Sha> {
    if GoodResponse(line) && response == None then Some(line.response.value.digest) else response
  }

  lemma ReadStep(lines: seq<Line>, line: Line, claims: map<string, Claim>, response: Option<Sha>, parsed: nat, unknown: nat, prohibited: nat)
    requires Reads(lines, claims, response, parsed, unknown, prohibited)
    ensures Reads(lines + [line], AddClaim(claims, line), Answer(line, response), parsed + Count(IsMapping(line)),
                  unknown + Count(Refused(line, claims, response)), prohibited + Count(line.Prohibited?))
  {
    hide Claimed, GoodResponse, Claims, ClaimsOfLines, ResponseOfLines, RejectedLines, ProhibitedLines, MappingLines;
    var more := lines + [line];
    assert more[|lines|] == line;
    RejectedExtends(lines, line);
    ProhibitedExtends(lines, line);
    MappingExtends(lines, line);
    ClaimsIffNew(lines, line, claims);
    ClaimsExtend(lines, line, claims);
    ResponseExtends(lines, line, response);
  }

  lemma ReadsMeans(lines: seq<Line>, claims: map<string, Claim>, response: Option<Sha>, parsed: nat, unknown: nat, prohibited: nat)
    requires Reads(lines, claims, response, parsed, unknown, prohibited)
    ensures ClaimsOfLines(lines, claims) && ResponseOfLines(lines, response) && parsed == |MappingLines(lines)|
    ensures unknown == |RejectedLines(lines)| && prohibited == |ProhibitedLines(lines)|
  {
  }

  /** The first loop: claims and counters of the executor's own stream. */
  method ReadLines(lines: seq<Line>)
    returns (parsed: nat, unknown: nat, prohibited: nat, response: Option<Sha>, claims: map<string, Claim>)
    ensures ClaimsOfLines(lines, claims) && ResponseOfLines(lines, response) && parsed == |MappingLines(lines)|
    ensures unknown == |RejectedLines(lines)| && prohibited == |ProhibitedLines(lines)|
  {
    parsed, unknown, prohibited, response, claims := 0, 0, 0, None, map[];
    assert Reads([], map[], None, 0, 0, 0);
    hide Claimed, Reads;
    var n := 0;
    while n < |lines|
      invariant 0 <= n <= |lines|
      invariant Reads(lines[..n], claims, response, parsed, unknown, prohibited)
    {
      var line := lines[n];
      ReadStep(lines[..n], line, claims, response, parsed, unknown, prohibited);
      assert lines[..n + 1] == lines[..n] + [line];
      n := n + 1;
      if line.Blank? {
        continue;
      }
      if line.NotJson? || line.NotMapping? {
        unknown := unknown + 1;
        continue;
      }
      parsed := parsed + 1;
      if line.FinalResponse? {
        if line.exactKeys && line.response.Some? && response == None && line.response.value.canonicalResult {
          response := Some(line.response.value.digest);
        } else {
          unknown := unknown + 1;
        }
        continue;
      }
      if line.Prohibited? {
        prohibited := prohibited + 1;
        continue;
      }
      var claim := Claimed(line);
      if claim == None || claim.value.eventId in claims {
        unknown := unknown + 1;
        continue;
      }
      claims := claims[claim.value.eventId := claim.value];
    }
    assert lines[..n] == lines;
    ReadsMeans(lines, claims, response, parsed, unknown, prohibited);
  }

  lemma NothingObserved(claims: map<string, Claim>)
    ensures Matched(claims, []) == {} && Invalid(claims, []) == {}
  {
  }

  /** The second loop: one row for each observation, and the claims that found an observation. */
  method ReconcileObservations(claims: map<string, Claim>, observations: seq<Observation>)
    returns (unknown: nat, rows: seq<Row>, matched: set<string>)
    ensures unknown == |Invalid(claims, observations)| && matched == Matched(claims, observations)
    ensures |rows| == |observations|
    ensures forall k :: 0 <= k < |rows| ==> rows[k] == RowOf(claims, observations[k], k)
  {
    hide SafePaths, NonemptyArguments, ExpectedClaim, Matched, Invalid;
    unknown, rows, matched := 0, [], {};
    NothingObserved(claims);
    var k := 0;
    while k < |observations|
      invariant 0 <= k <= |observations| && |rows| == k
      invariant forall j :: 0 <= j < k ==> rows[j] == RowOf(claims, observations[j], j)
      invariant matched == Matched(claims, observations[..k])
      invariant unknown == |Invalid(claims, observations[..k])|
    {
      var o := observations[k];
      MatchStep(claims, observations[..k], o);
      InvalidStep(claims, observations[..k], o);
      assert observations[..k + 1] == observations[..k] + [o];
      var valid := ValidShape(o);
      if o.eventId.Some? {
        var matches := Matches(claims, o);
        valid := valid && matches;
        if matches {
          matched := matched + {o.eventId.value};
        }
      } else if !(o.origin == ProcessObservation || o.origin == FilesystemDiff || o.origin == GitDiff) {
        valid := false;
      }
      if !valid {
        unknown := unknown + 1;
      }
      rows := rows + [Row(|rows|, o.kind, o.origin, o.eventId, o.executable, o.argv, o.cwd, o.paths, valid, Sha256(o.evidence))];
      k := k + 1;
    }
    assert observations[..k] == observations;
  }

  /** What the parser reports of a stream and the observations beside it: the claims of the lines, the final
      response, three exact counts and one row for each observation. */
  ghost predicate Reports(lines: seq<Line>, observations: seq<Observation>, claims: map<string, Claim>, p: Parsed) {
    && ClaimsOfLines(lines, claims)
    && ResponseOfLines(lines, p.finalResponse)
    && p.unknownCount == |RejectedLines(lines)| + |Invalid(claims, observations)| + |claims.Keys - Matched(claims, observations)|
    && p.parsedCount == |MappingLines(lines)|
    && p.prohibitedCount == |ProhibitedLines(lines)|
    && |p.rows| == |observations|
    && (forall k :: 0 <= k < |observations| ==> p.rows[k] == RowOf(claims, observations[k], k))
  }

  /** Reconciles the event stream, absent when it is not UTF-8, with the controller's observations. */
  method ParseOperationEvents(payload: Option<seq<Line>>, observations: seq<Observation>)
    returns (p: Parsed, claims: map<string, Claim>)
    ensures payload == None ==> p == Parsed(0, 1, 0, None, [])
    ensures payload.Some? ==> Reports(payload.value, observations, claims, p)
  {
    if payload == None {
      return Parsed(0, 1, 0, None, []), map[];
    }
    var parsed, rejected, prohibited, response;
    parsed, rejected, prohibited, response, claims := ReadLines(payload.value);
    var invalid, rows, matched := ReconcileObservations(claims, observations);
    p := Parsed(parsed, rejected + invalid + |claims.Keys - matched|, prohibited, response, rows);
  }

  lemma MatchStep(claims: map<string, Claim>, seen: seq<Observation>, o: Observation)
    ensures Matched(claims, seen + [o]) == Matched(claims, seen) + (if Matches(claims, o) then {o.eventId.value} else {})
  {
    hide Match;
    var more := seen + [o];
    assert more[|seen|] == o && forall k :: 0 <= k < |seen| ==> more[k] == seen[k];
    var found := if Match(claims, o).Some? then {Match(claims, o).value} else {};
    assert Matched(claims, more) == Matched(claims, seen) + found;
    MatchMeans(claims, o);
  }

  lemma MatchMeans(claims: map<string, Claim>, o: Observation)
    ensures Match(claims, o) == if Matches(claims, o) then Some(o.eventId.value) else None
  {
  }

  lemma InvalidStep(claims: map<string, Claim>, seen: seq<Observation>, o: Observation)
    ensures |Invalid(claims, seen + [o])| == |Invalid(claims, seen)| + Count(!Passes(claims, o))
  {
    hide Passes;
    var more := seen + [o];
    assert more[|seen|] == o && forall k :: 0 <= k < |seen| ==> more[k] == seen[k];
    assert Invalid(claims, more) == Invalid(claims, seen) + (if Passes(claims, o) then {} else {|seen|});
  }

  lemma UnmatchedIsUnobserved(claims: map<string, Claim>, observations: seq<Observation>, id: string)
    requires id in claims && claims[id].eventId == id
    ensures id in Matched(claims, observations) <==> Observed(observations, claims[id])
  {
    if Observed(observations, claims[id]) {
      var k :| 0 <= k < |observations| && observations[k].eventId.Some? && ExpectedClaim(observations[k]) == claims[id];
      assert Matches(claims, observations[k]);
    }
  }

  lemma NoneRejected(lines: seq<Line>)
    ensures RejectedLines(lines) == {} <==> forall i: nat :: i < |lines| ==> !Rejected(lines, i)
  {
    hide Rejected;
    forall i: nat | i < |lines| ensures i in RejectedLines(lines) <==> Rejected(lines, i) {
    }
  }

  lemma NoneInvalid(claims: map<string, Claim>, observations: seq<Observation>)
    ensures Invalid(claims, observations) == {} <==> forall k: nat :: k < |observations| ==> Passes(claims, observations[k])
  {
    hide Passes;
    forall k: nat | k < |observations| ensures k in Invalid(claims, observations) <==> !Passes(claims, observations[k]) {
    }
  }

  lemma NoneUnmatched(lines: seq<Line>, claims: map<string, Claim>, observations: seq<Observation>)
    requires ClaimsOfLines(lines, claims)
    ensures claims.Keys - Matched(claims, observations) == {} <==> forall id :: id in claims ==> Observed(observations, claims[id])
  {
    hide Matched, Observed, ClaimedBy, Claims;
    var unmatched := claims.Keys - Matched(claims, observations);
    forall id | id in claims ensures id in unmatched <==> !Observed(observations, claims[id]) {
      UnmatchedIsUnobserved(claims, observations, id);
    }
  }

  /** Nothing unknown means nothing unexplained: no line is rejected, every row passes, and every
      claim has an identical observation. */
  lemma ZeroUnknownMeansReconciled(lines: seq<Line>, observations: seq<Observation>, claims: map<string, Claim>)
    requires ClaimsOfLines(lines, claims)
    ensures |RejectedLines(lines)| + |Invalid(claims, observations)| + |claims.Keys - Matched(claims, observations)| == 0
       <==> && (forall i: nat :: i < |lines| ==> !Rejected(lines, i))
            && (forall k: nat :: k < |observations| ==> Passes(claims, observations[k]))
            && (forall id :: id in claims ==> Observed(observations, claims[id]))
  {
    hide Rejected, Passes, Observed, Matched, Invalid, RejectedLines, ClaimsOfLines;
    NoneRejected(lines);
    NoneInvalid(claims, observations);
    NoneUnmatched(lines, claims, observations);
  }
}
