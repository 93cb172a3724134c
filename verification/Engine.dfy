/** The workflow's nodes as functions of the store, with everything outside that can go wrong. */
module Engine {
  import opened Wrappers
  import opened Contracts
  import opened Compiler
  import opened Database
  import opened Pipeline
  import opened Snapshot
  import opened Storage
  import Budget
  import EvidenceGraph

  /** The calls into other components that may raise. */
  datatype Step = BuildIndex | StoreIndexMetadata | SearchFor(requirement: Id) | CheckFor(spec: Id)

  /**
   What happens around one run: the pattern matches, the repository's answers, what each call raises
   (as the failure code its exception maps to), and where storing a snapshot is cut off.
   */
  datatype Environment = Environment(
    classify: Classifier, repository: Repository, raises: Step -> Option<FailureCode>,
    faults: AuditState -> Option<nat>)

  /** The store, and the snapshots the run has committed to it. */
  datatype Trace = Trace(db: Db, log: seq<AuditState>)

  datatype Node = Node(trace: Trace, result: Result<AuditState, FailureCode>)

  /** How `run` maps what storing a snapshot raises. */
  function CodeOf(outcome: SaveOutcome): FailureCode {
    if outcome == StorageFailed then WorkflowFailed else InvalidState
  }

  function SaveNode(t: Trace, s: AuditState, env: Environment): Node {
    var (outcome, db) := SaveEffect(t.db, s, env.faults(s));
    if outcome == Stored then Node(Trace(db, t.log + [s]), Ok(s)) else Node(t, Err(CodeOf(outcome)))
  }

  function LoadNode(t: Trace, s: AuditState, env: Environment): Node {
    var incident := LoadIncident(t.db, s.summary.incidentId);
    if s.summary.projectId !in t.db.projects || incident.None? then Node(t, Err(WorkflowFailed))
    else if incident.value.projectId != Some(s.summary.projectId) then Node(t, Err(InvalidState))
    else SaveNode(t, LoadActions(s, incident.value.actions), env)
  }

  function CompileNode(t: Trace, s: AuditState, env: Environment): Node {
    SaveNode(t, CompileStage(s, env.classify), env)
  }

  /** The retrieval loop from the requirement numbered `k` on. */
  function RetrieveFrom(t: Trace, l: Loop, requirements: seq<CompiledInvariant>, k: nat, env: Environment): Node
    requires k <= |requirements|
    decreases |requirements| - k
  {
    if k == |requirements| then SaveNode(t, Gathered(l), env)
    else
      var requirement := requirements[k];
      if !Searchable(l.state.specs, requirement.id) then RetrieveFrom(t, l, requirements, k + 1, env)
      else if Budget.WithRound(l.usage, requirement.id).None? then Node(t, Err(RoundBudgetExhausted))
      else
        var kept := SaveNode(t, Reserved(l, requirement), env);
        if kept.result.Err? then kept
        else
          match env.raises(SearchFor(requirement.id))
          case Some(code) => Node(kept.trace, Err(code))
          case None =>
            RetrieveFrom(kept.trace, Turn(l, requirement, env.repository.search), requirements, k + 1, env)
  }

  function Opened(s: AuditState): Loop {
    var started := Stage(s, Indexing);
    Loop(started, started.summary.budget, started.evidence)
  }

  function RetrieveNode(t: Trace, s: AuditState, env: Environment): Node {
    if s.summary.projectId !in t.db.projects then Node(t, Err(WorkflowFailed))
    else if env.raises(BuildIndex).Some? then Node(t, Err(env.raises(BuildIndex).value))
    else if env.raises(StoreIndexMetadata).Some? then Node(t, Err(env.raises(StoreIndexMetadata).value))
    else RetrieveFrom(t, Opened(s), s.invariants, 0, env)
  }

  /** What the first raising check raises. */
  function FirstRaise(specs: seq<CheckSpec>, env: Environment): Option<FailureCode> {
    if specs == [] then None
    else
      var earlier := FirstRaise(specs[..|specs| - 1], env);
      if earlier.Some? then earlier else env.raises(CheckFor(specs[|specs| - 1].id))
  }

  function InvestigateNode(t: Trace, s: AuditState, env: Environment): Node {
    if s.summary.projectId !in t.db.projects then Node(t, Err(WorkflowFailed))
    else
      match FirstRaise(s.specs, env)
      case Some(code) => Node(t, Err(code))
      case None => SaveNode(t, InvestigateStage(s, env.repository.scan), env)
  }

  function VerifyNode(t: Trace, s: AuditState, env: Environment): Node {
    SaveNode(t, VerifyStage(s), env)
  }

  predicate Buildable(s: AuditState) {
    var shape := EvidenceGraph.ShapeOf(RecordsOf(s));
    EvidenceGraph.Accepts(EvidenceGraph.NodesOf(s.summary.id, shape), EvidenceGraph.EdgesOf(s.summary.id, shape),
                          s.summary.id, shape)
  }

  /** A missing owner raises a lookup error, a graph that does not validate a value error. */
  function AssembleNode(t: Trace, s: AuditState, env: Environment): Node {
    if s.summary.incidentId !in t.db.incidents || !EvidenceGraph.OwnersKnown(EvidenceGraph.ShapeOf(RecordsOf(s))) then
      Node(t, Err(WorkflowFailed))
    else if !Buildable(s) then Node(t, Err(InvalidState))
    else SaveNode(t, GraphStage(s), env)
  }

  function CompleteNode(t: Trace, s: AuditState, env: Environment): Node {
    SaveNode(t, CompleteStage(s), env)
  }

  /** The nodes up to the checks. */
  function CheckingNodes(k: nat, t: Trace, s: AuditState, env: Environment): Node
    requires k < 4
  {
    match k
    case 0 => LoadNode(t, s, env)
    case 1 => CompileNode(t, s, env)
    case 2 => RetrieveNode(t, s, env)
    case _ => InvestigateNode(t, s, env)
  }

  /** The nodes from the verdicts on. */
  function ClosingNodes(k: nat, t: Trace, s: AuditState, env: Environment): Node
    requires k >= 4
  {
    match k
    case 4 => VerifyNode(t, s, env)
    case 5 => AssembleNode(t, s, env)
    case _ => CompleteNode(t, s, env)
  }

  /** The seven nodes in order, numbered from zero. */
  function NodesOf(env: Environment): (nat, Trace, AuditState) -> Node {
    (k: nat, t: Trace, s: AuditState) => if k < 4 then CheckingNodes(k, t, s, env) else ClosingNodes(k, t, s, env)
  }

  /** The first `k` nodes, each run on what the one before returned. */
  function Progress(start: Node, nodes: (nat, Trace, AuditState) -> Node, k: nat): Node {
    if k == 0 then start
    else
      var before := Progress(start, nodes, k - 1);
      if before.result.Err? then before else nodes(k - 1, before.trace, before.result.value)
  }

  /** Storing the initial state and running all nodes. */
  function Invoke(db: Db, init: AuditState, env: Environment): Node {
    Progress(SaveNode(Trace(db, []), init, env), NodesOf(env), 7)
  }

  datatype Ending = Completed(state: AuditState) | FailedRun(state: AuditState) | Raised

  /** What the failure handler starts from. */
  function Current(db: Db, init: AuditState): Option<AuditState> {
    match LoadState(db, init.summary.id)
    case NoRun => Some(init)
    case Unreadable => None
    case Loaded(state) => Some(state)
  }

  function FailureStep(db: Db, init: AuditState, code: FailureCode, env: Environment): (Ending, Db) {
    match Current(db, init)
    case None => (Raised, db)
    case Some(current) =>
      var failed := FailureOf(current, code);
      var (outcome, after) := SaveEffect(db, failed, env.faults(failed));
      (if outcome == Stored then FailedRun(failed) else Raised, after)
  }

  /** What the last node's result makes of a run. */
  function Conclude(last: Node, init: AuditState, env: Environment): (Ending, Db) {
    match last.result
    case Ok(state) => (Completed(state), last.trace.db)
    case Err(code) => FailureStep(last.trace.db, init, code, env)
  }

  /** A whole run: how it ends, and the store afterwards. */
  function RunEffect(db: Db, init: AuditState, env: Environment): (Ending, Db) {
    Conclude(Invoke(db, init, env), init, env)
  }

  /** The budget a run starts with. */
  function StartingBudget(db: Db, incident: Id, maxModelCalls: int, maxRounds: int): BudgetUsage {
    match CounterFor(db, incident)
    case Some(counter) => BudgetUsage(counter.used, Budget.Min(counter.limit, maxModelCalls), maxRounds, map[], 0)
    case None => BudgetUsage(0, maxModelCalls, maxRounds, map[], 0)
  }
}
