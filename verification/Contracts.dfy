/**
 Identifiers and the record types that audits exchange and persist.  Texts that no rule reads
 (labels, rationales, excerpts) and timestamps are left out.
 */
module Contracts {
  import opened Wrappers

  // ---------------------------------------------------------------------------------------------
  // Identifiers
  // ---------------------------------------------------------------------------------------------

  datatype NodeType = IncidentNode | ActionNode | InvariantNode | EvidenceNode | CheckNode | VerdictNode

  datatype EdgeType =
    | Contains | CompiledTo | SupportedBy | ContradictedBy | TestedBy | CheckedBy | ClassifiedAs | EvidenceGap

  datatype EventType = StageStarted | StageCompleted | BudgetConsumed | FailureEvent

  datatype Outcome = Passed | FailedCheck | NotFound | ErrorOutcome | UnsupportedOutcome | UnavailableOutcome

  /** The sentences that explain a check result or a missing proof; none of them is empty. */
  datatype Detail =
    | NoMatchingValue | ThresholdMet | ThresholdContradicted
    | TermsLocated | TermsMissing | TestLocated | NoTestLocated | CheckFailedSafely | NotAssessable
    | RegressionAbsent | ContradictionUnresolved | NoCredibleEvidence | NothingCitable

  /** What distinguishes the specifications of one requirement. */
  datatype CheckTag = ConfigurationTag | ProtectionTag | StaticTag | TestTag | RuntimeTag | UnsupportedTag

  /** A part of an evidence identifier after the run and the owner. */
  datatype Part =
    | IdPart(id: Id) | TextPart(text: string) | NumberPart(number: real)
    | AbsentPart(detail: Detail) | OutcomePart(outcome: Outcome)

  /**
   `stable_id`: one constructor for each kind, holding the parts it is made from.  Identifiers the
   application does not derive are `Opaque`.
   */
  datatype Id =
    | Opaque(text: string)
    | IncidentId(sourceText: string)
    | ActionId(incident: Id, index: nat, text: string)
    | InvariantId(action: Id, text: string)
    | CheckId(requirement: Id, tag: CheckTag)
    | EvidenceId(run: Id, owner: Id, parts: seq<Part>)
    | ResultId(run: Id, spec: Id)
    | VerdictId(run: Id, action: Id)
    | NodeId(run: Id, nodeType: NodeType, record: Id)
    | EdgeId(run: Id, source: Id, target: Id, edgeType: EdgeType)
    | EventId(run: Id, sequence: nat, eventType: EventType)
    | GuardId(run: Id, action: Id, requirement: Id)
    | ExecutionId(guard: Id, moment: nat)

  // ---------------------------------------------------------------------------------------------
  // Incidents
  // ---------------------------------------------------------------------------------------------

  datatype ActionItem = ActionItem(id: Id, incidentId: Id, text: string, order: nat)

  datatype Incident = Incident(id: Id, projectId: Option<Id>, actions: seq<ActionItem>)

  datatype RunStatus =
    | Queued | Parsing | CompilingInvariants | Indexing | Investigating | Verifying | Complete | Failed

  datatype Verdict = Verified | Partial | Missing | Unverifiable

  // ---------------------------------------------------------------------------------------------
  // Requirements, checks and evidence
  // ---------------------------------------------------------------------------------------------

  datatype RequirementKind =
    NumericConfiguration | CodeStatic | TestProtection | RuntimeContext | UnsupportedRequirement

  datatype Availability = Supported | Unsupported | Unavailable

  datatype CheckType = ConfigurationValue | StaticCode | TestProtectionCheck | RuntimeContextCheck | UnsupportedCheck

  datatype Operator = Equals | LessOrEqual | GreaterOrEqual | Exists

  datatype EvidenceKind = Code | Configuration | Test | Document | Absent

  datatype Role = Supporting | Contradictory | SupportingOnly | MissingRole | UnavailableRole

  datatype CompiledInvariant = CompiledInvariant(
    id: Id, actionId: Id, originalAction: string, kind: RequirementKind, availability: Availability)

  datatype CheckSpec = CheckSpec(
    id: Id, invariantId: Id, checkType: CheckType, operator: Operator, expected: Option<real>,
    core: bool, availability: Availability)

  datatype Citation = Citation(evidenceId: Id, path: Option<string>, lineStart: Option<nat>, lineEnd: Option<nat>)

  datatype Evidence = Evidence(
    id: Id, runId: Id, actionId: Id, invariantId: Id, kind: EvidenceKind, role: Role,
    path: Option<string>, lineStart: Option<nat>, lineEnd: Option<nat>)
  {
    function Cite(): Citation {
      Citation(id, path, lineStart, lineEnd)
    }
  }

  datatype CheckResult = CheckResult(
    id: Id, runId: Id, invariantId: Id, specId: Id, outcome: Outcome, passed: Option<bool>, core: bool,
    detail: Detail, evidenceIds: seq<Id>)

  datatype ActionVerdict = ActionVerdict(
    id: Id, runId: Id, actionId: Id, verdict: Verdict, invariantIds: seq<Id>, citations: seq<Citation>,
    missing: seq<Detail>)

  datatype GraphNode = GraphNode(id: Id, runId: Id, nodeType: NodeType, recordId: Id)

  datatype GraphEdge = GraphEdge(id: Id, runId: Id, source: Id, target: Id, edgeType: EdgeType)

  datatype WorkflowEvent = WorkflowEvent(id: Id, runId: Id, sequence: nat, eventType: EventType, stage: RunStatus)

  // ---------------------------------------------------------------------------------------------
  // Budgets, summaries and snapshots
  // ---------------------------------------------------------------------------------------------

  datatype BudgetUsage = BudgetUsage(used: nat, limit: int, roundLimit: int, rounds: map<Id, nat>, checksRun: nat)
  {
    /** What the record's validator accepts. */
    predicate Valid() {
      && 1 <= limit && 1 <= roundLimit
      && used <= limit
      && forall id :: id in rounds ==> rounds[id] <= roundLimit
    }
  }

  datatype FailureCode = ModelCallBudgetExhausted | RoundBudgetExhausted | InvalidState | WorkflowFailed

  datatype RunSummary = RunSummary(
    id: Id, projectId: Id, incidentId: Id, status: RunStatus, totalActions: nat, completedActions: nat,
    verdictCounts: map<Verdict, nat>, coverage: real, budget: BudgetUsage, failure: Option<FailureCode>)

  datatype AuditState = AuditState(
    summary: RunSummary, actions: seq<ActionItem>, invariants: seq<CompiledInvariant>, specs: seq<CheckSpec>,
    evidence: seq<Evidence>, results: seq<CheckResult>, verdicts: seq<ActionVerdict>,
    nodes: seq<GraphNode>, edges: seq<GraphEdge>, events: seq<WorkflowEvent>)

  predicate DistinctActions(actions: seq<ActionItem>) {
    forall i, j :: 0 <= i < j < |actions| ==> actions[i].id != actions[j].id
  }

  predicate HasRequirement(requirements: seq<CompiledInvariant>, id: Id) {
    exists i :: i in requirements && i.id == id
  }

  /** The outcome and the verdict flag of a check agree. */
  predicate ResultConsistent(result: CheckResult) {
    match result.outcome
    case Passed => result.passed == Some(true)
    case FailedCheck => result.passed == Some(false)
    case NotFound => result.passed == Some(false)
    case _ => result.passed == None
  }

  /** A verdict cites evidence or states what is missing. */
  predicate Traceable(verdict: ActionVerdict) {
    verdict.citations != [] || verdict.missing != []
  }

  predicate LinesOrdered(lineStart: Option<nat>, lineEnd: Option<nat>) {
    && (lineStart.Some? ==> 1 <= lineStart.value)
    && (lineEnd.Some? ==> lineStart.Some? && lineStart.value <= lineEnd.value)
  }

  // ---------------------------------------------------------------------------------------------
  // Guards
  // ---------------------------------------------------------------------------------------------

  /** A content hash: distinct contents have distinct digests. */
  datatype Digest = Sha256(content: string)

  datatype GuardStatus =
    | GuardPreviewed | GuardRejected | GuardWritten | GuardPassed | GuardFailed | GuardTimedOut | GuardError

  datatype GuardSpec = GuardSpec(
    id: Id, runId: Id, actionId: Id, invariantId: Id, preview: string, digest: Digest, status: GuardStatus)

  datatype GuardApproval = GuardApproval(guardId: Id, runId: Id, approved: bool, digest: Digest)

  datatype GuardExecution = GuardExecution(id: Id, guardId: Id, runId: Id, status: GuardStatus, artifact: Digest)
}
