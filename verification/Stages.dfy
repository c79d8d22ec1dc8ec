/** The vocabulary every component shares: workflow stages, actors and roles. */
module Stages {

  datatype Stage =
    | Draft | ReadyForClassification | Classified | SpecReady | PlanReady | Implementing
    | TaskReview | FixRequired | Integrating | SystemQa | Verified | RcReady
    | WaitingHuman | Blocked | Closed | Abandoned

  datatype Actor = Planner | Coder | Reviewer | Verifier | Controller | Human

  /** The transition table is configuration; every theorem holds for any table. */
  type Workflow = map<Stage, seq<Stage>>

  function Targets(workflow: Workflow, source: Stage): seq<Stage> {
    if source in workflow then workflow[source] else []
  }
}
