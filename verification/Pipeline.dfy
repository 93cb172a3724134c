/** The stages of an audit as functions from snapshot to snapshot. */
module Pipeline {
  import opened Wrappers
  import opened Contracts
  import Budget
  import Checks
  import opened Compiler
  import EvidenceGraph
  import opened Snapshot
  import opened Verifier

  /** A chunk that retrieval returns for a requirement. */
  datatype Retrieved = Retrieved(chunkId: Id, kind: EvidenceKind, path: string, lineStart: nat, lineEnd: nat)

  /** What the repository answers: retrieval by requirement and scans by specification. */
  datatype Repository = Repository(search: Id -> seq<Retrieved>, scan: CheckSpec -> Checks.Scan)

  /** A search returns each chunk once, with its line range in order. */
  predicate HitsOk(hits: seq<Retrieved>) {
    && (forall i, j :: 0 <= i < j < |hits| ==> hits[i].chunkId != hits[j].chunkId)
    && (forall h :: h in hits ==> 1 <= h.lineStart <= h.lineEnd)
  }

  // ---------------------------------------------------------------------------------------------
  // Events and stages
  // ---------------------------------------------------------------------------------------------

  function NewEvent(s: AuditState, eventType: EventType, stage: RunStatus): WorkflowEvent {
    WorkflowEvent(EventId(s.summary.id, |s.events|, eventType), s.summary.id, |s.events|, eventType, stage)
  }

  function WithEvent(s: AuditState, eventType: EventType, stage: RunStatus): AuditState {
    s.(events := s.events + [NewEvent(s, eventType, stage)])
  }

  function Stage(s: AuditState, status: RunStatus): AuditState {
    WithEvent(s.(summary := s.summary.(status := status)), StageStarted, status)
  }

  function Initial(run: Id, project: Id, incident: Incident, budget: BudgetUsage): AuditState {
    AuditState(
      RunSummary(run, project, incident.id, Queued, |incident.actions|, 0, map[], 0.0, budget, None),
      incident.actions, [], [], [], [], [], [], [], [])
  }

  /** Stage one: the incident's actions as the store holds them. */
  function LoadActions(s: AuditState, actions: seq<ActionItem>): AuditState {
    WithEvent(Stage(s, Parsing).(actions := actions), StageCompleted, Parsing)
  }

  /** Stage two: one requirement for each action, and its specifications. */
  function CompileStage(s: AuditState, classify: Classifier): AuditState {
    WithEvent(
      Stage(s, CompilingInvariants).(
        invariants := Requirements(s.actions, classify), specs := AllSpecs(s.actions, classify)),
      StageCompleted, CompilingInvariants)
  }

  // ---------------------------------------------------------------------------------------------
  // Stage three: retrieval
  // ---------------------------------------------------------------------------------------------

  /** The requirement has a specification that a check supports. */
  predicate Searchable(specs: seq<CheckSpec>, requirement: Id) {
    exists spec :: spec in specs && spec.invariantId == requirement && spec.availability == Supported
  }

  function HitEvidence(run: Id, requirement: CompiledInvariant, hit: Retrieved): Evidence {
    Evidence(EvidenceId(run, requirement.id, [IdPart(hit.chunkId)]), run, requirement.actionId, requirement.id,
             hit.kind, SupportingOnly, Some(hit.path), Some(hit.lineStart), Some(hit.lineEnd))
  }

  function HitsEvidence(run: Id, requirement: CompiledInvariant, hits: seq<Retrieved>): seq<Evidence> {
    seq(|hits|, i requires 0 <= i < |hits| => HitEvidence(run, requirement, hits[i]))
  }

  /** The variables of the retrieval loop. */
  datatype Loop = Loop(state: AuditState, usage: BudgetUsage, evidence: seq<Evidence>)

  function Reserved(l: Loop, requirement: CompiledInvariant): AuditState {
    var usage := Budget.WithRound(l.usage, requirement.id);
    var budget := if usage.Some? then usage.value else l.usage;
    WithEvent(l.state.(summary := l.state.summary.(budget := budget), evidence := l.evidence), BudgetConsumed, Indexing)
  }

  /** One turn: reserve a round, keep the snapshot that is saved, then collect the hits. */
  function Turn(l: Loop, requirement: CompiledInvariant, search: Id -> seq<Retrieved>): Loop {
    if !Searchable(l.state.specs, requirement.id) then l
    else
      var state := Reserved(l, requirement);
      Loop(state, state.summary.budget,
           l.evidence + HitsEvidence(state.summary.id, requirement, search(requirement.id)))
  }

  /** The loop after the first `k` requirements. */
  function Turns(s: AuditState, search: Id -> seq<Retrieved>, k: nat): Loop
    requires k <= |s.invariants|
  {
    if k == 0 then
      var started := Stage(s, Indexing);
      Loop(started, started.summary.budget, started.evidence)
    else Turn(Turns(s, search, k - 1), s.invariants[k - 1], search)
  }

  /** The snapshots saved inside the loop, over the first `k` requirements. */
  function TurnSnapshots(s: AuditState, search: Id -> seq<Retrieved>, k: nat): seq<AuditState>
    requires k <= |s.invariants|
  {
    if k == 0 then []
    else
      TurnSnapshots(s, search, k - 1)
      + if Searchable(s.specs, s.invariants[k - 1].id)
        then [Reserved(Turns(s, search, k - 1), s.invariants[k - 1])] else []
  }

  /** After the loop: each record once, with the rounds that were used. */
  function Gathered(l: Loop): AuditState {
    WithEvent(
      l.state.(summary := l.state.summary.(budget := l.usage), evidence := Deduplicate(l.evidence)),
      StageCompleted, Indexing)
  }

  function RetrieveStage(s: AuditState, search: Id -> seq<Retrieved>): AuditState {
    Gathered(Turns(s, search, |s.invariants|))
  }

  // ---------------------------------------------------------------------------------------------
  // Stages four to seven
  // ---------------------------------------------------------------------------------------------

  /** The action of a requirement; every specification's requirement is in the list. */
  function ActionFor(requirements: seq<CompiledInvariant>, id: Id): Id {
    if requirements == [] then id
    else if requirements[|requirements| - 1].id == id then requirements[|requirements| - 1].actionId
    else ActionFor(requirements[..|requirements| - 1], id)
  }

  function ExecutionOf(s: AuditState, scan: CheckSpec -> Checks.Scan, spec: CheckSpec): Checks.Execution {
    Checks.RunCheck(spec, s.summary.id, ActionFor(s.invariants, spec.invariantId), scan(spec))
  }

  function ResultsOf(s: AuditState, scan: CheckSpec -> Checks.Scan, specs: seq<CheckSpec>): seq<CheckResult> {
    seq(|specs|, i requires 0 <= i < |specs| => ExecutionOf(s, scan, specs[i]).result)
  }

  function CheckEvidence(s: AuditState, scan: CheckSpec -> Checks.Scan, specs: seq<CheckSpec>): seq<Evidence> {
    if specs == [] then []
    else CheckEvidence(s, scan, specs[..|specs| - 1]) + ExecutionOf(s, scan, specs[|specs| - 1]).evidence
  }

  /** The snapshot that records what the checks found. */
  function Recorded(s: AuditState, usage: BudgetUsage, evidence: seq<Evidence>, results: seq<CheckResult>): AuditState {
    var started := Stage(s, Investigating);
    WithEvent(
      started.(summary := started.summary.(budget := usage), evidence := evidence, results := results),
      StageCompleted, Investigating)
  }

  function InvestigateStage(s: AuditState, scan: CheckSpec -> Checks.Scan): AuditState {
    Recorded(
      s, s.summary.budget.(checksRun := s.summary.budget.checksRun + |s.specs|),
      Deduplicate(s.evidence + CheckEvidence(s, scan, s.specs)), s.results + ResultsOf(s, scan, s.specs))
  }

  function RequirementsFor(requirements: seq<CompiledInvariant>, action: Id): seq<CompiledInvariant> {
    if requirements == [] then []
    else (if requirements[0].actionId == action then [requirements[0]] else [])
         + RequirementsFor(requirements[1..], action)
  }

  function VerdictFor(s: AuditState, action: ActionItem): ActionVerdict {
    VerdictOf(s.summary.id, action.id, RequirementsFor(s.invariants, action.id), s.results, s.evidence)
  }

  function VerdictsOf(s: AuditState): seq<ActionVerdict> {
    seq(|s.actions|, i requires 0 <= i < |s.actions| => VerdictFor(s, s.actions[i]))
  }

  function Count(verdicts: seq<ActionVerdict>, verdict: Verdict): nat {
    if verdicts == [] then 0
    else Count(verdicts[..|verdicts| - 1], verdict) + if verdicts[|verdicts| - 1].verdict == verdict then 1 else 0
  }

  function Counts(verdicts: seq<ActionVerdict>): map<Verdict, nat> {
    map[Verified := Count(verdicts, Verified), Partial := Count(verdicts, Partial),
        Missing := Count(verdicts, Missing), Unverifiable := Count(verdicts, Unverifiable)]
  }

  function VerifyStage(s: AuditState): AuditState {
    var started := Stage(s, Verifying);
    var verdicts := VerdictsOf(s);
    WithEvent(
      started.(
        summary := started.summary.(
          completedActions := |verdicts|, verdictCounts := Counts(verdicts), coverage := Coverage(verdicts)),
        verdicts := verdicts),
      StageCompleted, Verifying)
  }

  function GraphStage(s: AuditState): AuditState {
    var shape := EvidenceGraph.ShapeOf(RecordsOf(s));
    WithEvent(
      s.(nodes := EvidenceGraph.NodesOf(s.summary.id, shape), edges := EvidenceGraph.EdgesOf(s.summary.id, shape)),
      StageCompleted, Verifying)
  }

  function CompleteStage(s: AuditState): AuditState {
    WithEvent(s.(summary := s.summary.(status := Complete, failure := None)), StageCompleted, Complete)
  }

  /** The state a failing run is left in: the last readable snapshot, marked and with one more event. */
  function FailureOf(s: AuditState, code: FailureCode): AuditState {
    WithEvent(s.(summary := s.summary.(status := Failed, failure := Some(code))), FailureEvent, Failed)
  }

  // ---------------------------------------------------------------------------------------------
  // A whole run
  // ---------------------------------------------------------------------------------------------

  function Compiled(init: AuditState, actions: seq<ActionItem>, classify: Classifier): AuditState {
    CompileStage(LoadActions(init, actions), classify)
  }

  /** Every snapshot that a run without failures stores, in order. */
  function Snapshots(
      init: AuditState, actions: seq<ActionItem>, classify: Classifier, repository: Repository): seq<AuditState>
  {
    var loaded := LoadActions(init, actions);
    var compiled := CompileStage(loaded, classify);
    var retrieved := RetrieveStage(compiled, repository.search);
    var investigated := InvestigateStage(retrieved, repository.scan);
    var verified := VerifyStage(investigated);
    var graphed := GraphStage(verified);
    [init, loaded, compiled]
    + TurnSnapshots(compiled, repository.search, |compiled.invariants|)
    + [retrieved, investigated, verified, graphed, CompleteStage(graphed)]
  }
}
