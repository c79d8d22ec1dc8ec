/** Evidence files: what they hold, and what a gate asks of them. */
module Evidence {
  import opened Results
  import opened Stages

  datatype Severity = P0 | P1 | P2 | P3
  datatype FindingStatus = Open | InProgress | FindingVerified | FindingClosed
  datatype Disposition =
    | Untriaged | Accepted | Partial | Deferred | AlreadyFixed | NotReproducible | Rejected | Duplicate | Stale
  datatype ResultStatus = Done | DoneWithConcerns | NeedsContext | ResultBlocked | Failed
  datatype Recommendation = RecommendVerified | RecommendFix | RecommendBlocked

  /** A JSON mapping. All but the last satisfy their own contract; `scope` is all that a packet says beyond
      who it is for. A manifest names its records and closures by the paths they resolve to. A mapping that
      satisfies no contract is `Unrecognized`, of which only the role key is ever looked at. */
  datatype Record =
    | Packet(role: Actor, packetId: string, project: string, task: string, safePaths: bool, scope: string)
    | AgentResult(role: Actor, packetId: string, status: ResultStatus, recommended: Stage, safePaths: bool)
    | Finding(id: string, severity: Severity, findingStatus: FindingStatus, disposition: Disposition)
    | Verification(id: string, project: string, task: string, recommendation: Recommendation,
                   failedRequirement: bool, verifiedAt: nat)
    | Manifest(project: string, verifications: seq<string>, closures: seq<string>)
    | Unrecognized(claimedRole: Option<Actor>, text: string)

  /** The bytes of a file: not a JSON mapping, or a mapping in its canonical or in another spelling. */
  datatype File = NoMapping(text: string) | Json(record: Record, spelling: Option<string>)

  predicate Canonical(f: File) { f.Json? && f.spelling == None }

  /** A path with the size and digest of its content; the digest fixes the content. */
  datatype Binding = Binding(path: string, file: File)

  function RoleOf(r: Record): Option<Actor> {
    match r
    case Packet(role, _, _, _, _, _) => Some(role)
    case AgentResult(role, _, _, _, _) => Some(role)
    case Unrecognized(role, _) => role
    case _ => None
  }

  predicate OpenBlocker(r: Record) {
    && r.Finding?
    && (r.severity == P0 || r.severity == P1)
    && (r.findingStatus == Open || r.findingStatus == InProgress)
    && (r.disposition == Accepted || r.disposition == Partial)
  }

  predicate ClosesFinding(r: Record) {
    r.Finding? && (r.findingStatus == FindingVerified || r.findingStatus == FindingClosed)
  }

  predicate VerificationFailure(r: Record) {
    r.Verification? && r.recommendation == RecommendFix && r.failedRequirement
  }

  /** A packet and a result of one role that belong together, for this task and this target. */
  predicate ReceiptMatches(packet: Record, result: Record, role: Actor) {
    && packet.Packet? && result.AgentResult?
    && packet.role == role && result.role == role && result.packetId == packet.packetId
    && packet.safePaths && result.safePaths
  }

  predicate Completed(result: Record) {
    result.AgentResult? && (result.status == Done || result.status == DoneWithConcerns)
  }

  predicate ResultBinding(packet: Record, result: Record, role: Actor, project: string, task: string, target: Stage) {
    && ReceiptMatches(packet, result, role)
    && packet.project == project && packet.task == task
    && Completed(result) && result.recommended == target
  }

  /** Review findings none of which leaves a P0 or P1 unverified. */
  predicate ReviewFindings(files: seq<File>) {
    && files != []
    && forall i :: 0 <= i < |files| ==>
         (&& files[i].Json? && files[i].record.Finding?
          && (files[i].record.severity == P0 || files[i].record.severity == P1 ==> ClosesFinding(files[i].record)))
  }

  /** Review findings with at least one accepted open P0 or P1. */
  predicate FixRequiredFindings(files: seq<File>) {
    && (forall i :: 0 <= i < |files| ==> files[i].Json? && files[i].record.Finding?)
    && exists i :: 0 <= i < |files| && files[i].Json? && OpenBlocker(files[i].record)
  }

  function ClosedIds(files: seq<File>): set<string> {
    set i | 0 <= i < |files| && files[i].Json? && ClosesFinding(files[i].record) :: files[i].record.id
  }

  function Contents(bindings: seq<Binding>): (files: seq<File>)
    ensures |files| == |bindings|
  {
    seq(|bindings|, i requires 0 <= i < |bindings| => bindings[i].file)
  }
}
