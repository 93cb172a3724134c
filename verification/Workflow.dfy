/** The audit workflow, running its nodes against the store. */
module Workflow {
  import opened Wrappers
  import opened Contracts
  import opened Database
  import opened Engine
  import opened Pipeline
  import opened Snapshot
  import opened Storage
  import Budget
  import Checks
  import Compiler
  import EvidenceGraph
  import Verifier

  type Outcome = Result<AuditState, FailureCode>

  class AuditWorkflow {
    const store: SqliteStore
    const maxModelCalls: int
    const maxRounds: int
    /** The snapshots committed so far by the current run. */
    ghost var log: seq<AuditState>

    constructor (store: SqliteStore, maxModelCalls: int, maxRounds: int)
      ensures this.store == store && this.maxModelCalls == maxModelCalls && this.maxRounds == maxRounds
    {
      this.store, this.maxModelCalls, this.maxRounds := store, maxModelCalls, maxRounds;
      log := [];
    }

    ghost function Now(): Trace
      reads this, store
    {
      Trace(store.db, log)
    }

    method Save(s: AuditState, env: Environment) returns (r: Outcome)
      requires store.Valid()
      modifies this, store
      ensures store.Valid() && Node(Now(), r) == SaveNode(old(Now()), s, env)
    {
      var outcome := store.SaveAuditState(s, env.faults(s));
      if outcome != Stored {
        return Err(CodeOf(outcome));
      }
      log := log + [s];
      r := Ok(s);
    }

    method LoadIncidentActions(s: AuditState, env: Environment) returns (r: Outcome)
      requires store.Valid()
      modifies this, store
      ensures store.Valid() && Node(Now(), r) == LoadNode(old(Now()), s, env)
    {
      var state := Stage(s, Parsing);
      var incident := LoadIncident(store.db, state.summary.incidentId);
      if state.summary.projectId !in store.db.projects || incident.None? {
        return Err(WorkflowFailed);
      }
      if incident.value.projectId != Some(state.summary.projectId) {
        return Err(InvalidState);
      }
      state := WithEvent(state.(actions := incident.value.actions), StageCompleted, Parsing);
      r := Save(state, env);
    }

    method CompileInvariants(s: AuditState, env: Environment) returns (r: Outcome)
      requires store.Valid()
      modifies this, store
      ensures store.Valid() && Node(Now(), r) == CompileNode(old(Now()), s, env)
    {
      var state := Stage(s, CompilingInvariants);
      var requirements, specs := Compiler.Compile(state.actions, env.classify);
      state := WithEvent(state.(invariants := requirements, specs := specs), StageCompleted, CompilingInvariants);
      r := Save(state, env);
    }

    method RetrieveCandidates(s: AuditState, env: Environment) returns (r: Outcome)
      requires store.Valid() && s.summary.budget.Valid()
      modifies this, store
      ensures store.Valid() && Node(Now(), r) == RetrieveNode(old(Now()), s, env)
    {
      var state := Stage(s, Indexing);
      if state.summary.projectId !in store.db.projects {
        return Err(WorkflowFailed);
      }
      if env.raises(BuildIndex).Some? {
        return Err(env.raises(BuildIndex).value);
      }
      if env.raises(StoreIndexMetadata).Some? {
        return Err(env.raises(StoreIndexMetadata).value);
      }
      r := SearchRequirements(state, s.invariants, env);
    }

    /** The loop over the requirements: a round is charged and stored before each search. */
    method SearchRequirements(s: AuditState, requirements: seq<CompiledInvariant>, env: Environment)
      returns (r: Outcome)
      requires store.Valid() && s.summary.budget.Valid()
      modifies this, store
      ensures store.Valid()
      ensures Node(Now(), r) == RetrieveFrom(old(Now()), Loop(s, s.summary.budget, s.evidence), requirements, 0, env)
    {
      var state, evidence := s, s.evidence;
      var tracker := new Budget.BudgetTracker(state.summary.budget);
      for k := 0 to |requirements|
        invariant store.Valid() && tracker.usage.Valid() && fresh(tracker)
        invariant tracker.usage == state.summary.budget
        invariant RetrieveFrom(Now(), Loop(state, tracker.usage, evidence), requirements, k, env)
               == RetrieveFrom(old(Now()), Loop(s, s.summary.budget, s.evidence), requirements, 0, env)
      {
        var requirement := requirements[k];
        if Searchable(state.specs, requirement.id) {
          ghost var l := Loop(state, tracker.usage, evidence);
          var exceeded := tracker.ConsumeInvestigationRound(requirement.id);
          if exceeded {
            return Err(RoundBudgetExhausted);
          }
          state := WithEvent(
            state.(summary := state.summary.(budget := tracker.usage), evidence := evidence), BudgetConsumed, Indexing);
          assert state == Reserved(l, requirement);
          var kept := Save(state, env);
          if kept.Err? {
            return kept;
          }
          if env.raises(SearchFor(requirement.id)).Some? {
            return Err(env.raises(SearchFor(requirement.id)).value);
          }
          evidence := evidence + HitsEvidence(state.summary.id, requirement, env.repository.search(requirement.id));
          assert Loop(state, tracker.usage, evidence) == Turn(l, requirement, env.repository.search);
        }
      }
      evidence := Verifier.Deduplicate(evidence);
      state := WithEvent(
        state.(summary := state.summary.(budget := tracker.usage), evidence := evidence), StageCompleted, Indexing);
      r := Save(state, env);
    }

    method InvestigateChecks(s: AuditState, env: Environment) returns (r: Outcome)
      requires store.Valid()
      modifies this, store
      ensures store.Valid() && Node(Now(), r) == InvestigateNode(old(Now()), s, env)
    {
      if s.summary.projectId !in store.db.projects {
        return Err(WorkflowFailed);
      }
      var raised, usage, evidence, results := RunChecks(s, env);
      if raised.Some? {
        return Err(raised.value);
      }
      RecordedIsStage(s, env.repository.scan, usage, evidence, results);
      var state := Recorded(s, usage, Verifier.Deduplicate(evidence), results);
      r := Save(state, env);
    }

    method AssignVerdicts(s: AuditState, env: Environment) returns (r: Outcome)
      requires store.Valid()
      modifies this, store
      ensures store.Valid() && Node(Now(), r) == VerifyNode(old(Now()), s, env)
    {
      var state := Stage(s, Verifying);
      var verdicts := VerifyActions(s);
      state := WithEvent(
        state.(
          summary := state.summary.(
            completedActions := |verdicts|, verdictCounts := Counts(verdicts), coverage := Verifier.Coverage(verdicts)),
          verdicts := verdicts),
        StageCompleted, Verifying);
      r := Save(state, env);
    }

    method BuildEvidenceGraph(s: AuditState, env: Environment) returns (r: Outcome)
      requires store.Valid()
      modifies this, store
      ensures store.Valid() && Node(Now(), r) == AssembleNode(old(Now()), s, env)
    {
      if s.summary.incidentId !in store.db.incidents {
        return Err(WorkflowFailed);
      }
      var graph := EvidenceGraph.Build(s.summary.id, RecordsOf(s));
      if graph.None? {
        return Err(
          if EvidenceGraph.OwnersKnown(EvidenceGraph.ShapeOf(RecordsOf(s))) then InvalidState else WorkflowFailed);
      }
      var (nodes, edges) := graph.value;
      r := Save(WithEvent(s.(nodes := nodes, edges := edges), StageCompleted, Verifying), env);
    }

    method PersistCompletion(s: AuditState, env: Environment) returns (r: Outcome)
      requires store.Valid()
      modifies this, store
      ensures store.Valid() && Node(Now(), r) == CompleteNode(old(Now()), s, env)
    {
      var state := s.(summary := s.summary.(status := Complete, failure := None));
      r := Save(WithEvent(state, StageCompleted, Complete), env);
    }

    /** Run one node on the state the node before it returned. */
    method RunNode(k: nat, s: AuditState, env: Environment) returns (r: Outcome)
      requires k < 7 && store.Valid() && (k == 2 ==> s.summary.budget.Valid())
      modifies this, store
      ensures store.Valid() && Node(Now(), r) == NodesOf(env)(k, old(Now()), s)
    {
      if k < 4 {
        r := RunCheckingNode(k, s, env);
      } else {
        r := RunClosingNode(k, s, env);
      }
    }

    method RunCheckingNode(k: nat, s: AuditState, env: Environment) returns (r: Outcome)
      requires k < 4 && store.Valid() && (k == 2 ==> s.summary.budget.Valid())
      modifies this, store
      ensures store.Valid() && Node(Now(), r) == CheckingNodes(k, old(Now()), s, env)
    {
      match k {
        case 0 => r := LoadIncidentActions(s, env);
        case 1 => r := CompileInvariants(s, env);
        case 2 => r := RetrieveCandidates(s, env);
        case _ => r := InvestigateChecks(s, env);
      }
    }

    method RunClosingNode(k: nat, s: AuditState, env: Environment) returns (r: Outcome)
      requires 4 <= k < 7 && store.Valid()
      modifies this, store
      ensures store.Valid() && Node(Now(), r) == ClosingNodes(k, old(Now()), s, env)
    {
      match k {
        case 4 => r := AssignVerdicts(s, env);
        case 5 => r := BuildEvidenceGraph(s, env);
        case _ => r := PersistCompletion(s, env);
      }
    }

    /** The failure handler. */
    method Fail(init: AuditState, code: FailureCode, env: Environment) returns (ending: Ending)
      requires store.Valid()
      modifies this, store
      ensures store.Valid() && (ending, store.db) == FailureStep(old(store.db), init, code, env)
      ensures log == old(log)
    {
      var loaded := store.LoadAuditState(init.summary.id);
      if loaded.Unreadable? {
        return Raised;
      }
      var current := if loaded.Loaded? then loaded.state else init;
      var failed := FailureOf(current, code);
      var outcome := store.SaveAuditState(failed, env.faults(failed));
      ending := if outcome == Stored then FailedRun(failed) else Raised;
    }

    method Run(project: Id, incident: Incident, run: Id, env: Environment) returns (ending: Ending)
      requires store.Valid()
      modifies this, store
      ensures store.Valid()
      ensures var budget := StartingBudget(old(store.db), incident.id, maxModelCalls, maxRounds);
        if budget.Valid() then
          var init := Initial(run, project, incident, budget);
          (ending, store.db) == RunEffect(old(store.db), init, env) && log == Invoke(old(store.db), init, env).trace.log
        else ending == Raised && store.db == old(store.db)
    {
      log := [];
      var budget := StartingBudget(store.db, incident.id, maxModelCalls, maxRounds);
      if !budget.Valid() {
        return Raised;
      }
      var init := Initial(run, project, incident, budget);
      var r := InvokeNodes(init, env);
      ending := Finish(init, r, env);
    }

    method Finish(init: AuditState, r: Outcome, env: Environment) returns (ending: Ending)
      requires store.Valid()
      modifies this, store
      ensures store.Valid() && (ending, store.db) == Conclude(old(Node(Now(), r)), init, env)
      ensures log == old(log)
    {
      if r.Ok? {
        return Completed(r.value);
      }
      ending := Fail(init, r.error, env);
    }

    /** Store the initial state, then run the nodes in order until one raises. */
    method InvokeNodes(init: AuditState, env: Environment) returns (r: Outcome)
      requires store.Valid() && init.summary.budget.Valid() && log == []
      modifies this, store
      ensures store.Valid() && Node(Now(), r) == Invoke(old(store.db), init, env)
    {
      r := Save(init, env);
      ghost var start := Node(Now(), r);
      for k := 0 to 7
        invariant store.Valid()
        invariant Node(Now(), r) == Progress(start, NodesOf(env), k)
      {
        if r.Ok? {
          if k == 2 {
            BudgetKept(old(store.db), init, env);
          }
          r := RunNode(k, r.value, env);
        }
      }
    }
  }

  /** Retrieval starts on the budget the run started with. */
  lemma BudgetKept(db: Db, init: AuditState, env: Environment)
    ensures var compiled := Progress(SaveNode(Trace(db, []), init, env), NodesOf(env), 2);
      compiled.result.Ok? ==> compiled.result.value.summary.budget == init.summary.budget
  {
    var start := SaveNode(Trace(db, []), init, env);
    var loaded := Progress(start, NodesOf(env), 1);
    assert Progress(start, NodesOf(env), 0) == start;
    assert loaded.result.Err? ==> Progress(start, NodesOf(env), 2) == loaded;
    if start.result.Ok? && loaded.result.Ok? {
      assert loaded == LoadNode(start.trace, init, env);
      assert Progress(start, NodesOf(env), 2) == CompileNode(loaded.trace, loaded.result.value, env);
      LoadKeepsBudget(start.trace, init, env);
      CompileKeepsBudget(loaded.trace, loaded.result.value, env);
    }
  }

  lemma LoadKeepsBudget(t: Trace, s: AuditState, env: Environment)
    ensures LoadNode(t, s, env).result.Ok? ==> LoadNode(t, s, env).result.value.summary.budget == s.summary.budget
  {
  }

  lemma CompileKeepsBudget(t: Trace, s: AuditState, env: Environment)
    ensures CompileNode(t, s, env).result.Ok? ==> CompileNode(t, s, env).result.value.summary.budget == s.summary.budget
  {
  }

  lemma RecordedIsStage(
      s: AuditState, scan: CheckSpec -> Checks.Scan, usage: BudgetUsage, evidence: seq<Evidence>,
      results: seq<CheckResult>)
    requires usage == s.summary.budget.(checksRun := s.summary.budget.checksRun + |s.specs|)
    requires evidence == s.evidence + CheckEvidence(s, scan, s.specs)
    requires results == s.results + ResultsOf(s, scan, s.specs)
    ensures InvestigateStage(s, scan) == Recorded(s, usage, Verifier.Deduplicate(evidence), results)
  {
  }

  /** The loop over the specifications: every check is counted, and its evidence and result kept. */
  method RunChecks(s: AuditState, env: Environment)
    returns (raised: Option<FailureCode>, usage: BudgetUsage, evidence: seq<Evidence>, results: seq<CheckResult>)
    ensures raised == FirstRaise(s.specs, env)
    ensures raised.None? ==>
      && usage == s.summary.budget.(checksRun := s.summary.budget.checksRun + |s.specs|)
      && evidence == s.evidence + CheckEvidence(s, env.repository.scan, s.specs)
      && results == s.results + ResultsOf(s, env.repository.scan, s.specs)
  {
    var tracker := new Budget.BudgetTracker(s.summary.budget);
    evidence, results := s.evidence, s.results;
    for k := 0 to |s.specs|
      invariant fresh(tracker)
      invariant tracker.usage == s.summary.budget.(checksRun := s.summary.budget.checksRun + k)
      invariant ChecksSoFar(s, env, k, evidence, results)
    {
      var spec := s.specs[k];
      if env.raises(CheckFor(spec.id)).Some? {
        NextCheck(s, env, k);
        RaisesStay(s.specs, k + 1, env);
        return env.raises(CheckFor(spec.id)), tracker.usage, evidence, results;
      }
      var execution := RunCheck(s, env, spec);
      NextChecksSoFar(s, env, k, evidence, results);
      tracker.RecordCheck();
      evidence, results := evidence + execution.evidence, results + [execution.result];
    }
    assert s.specs[..|s.specs|] == s.specs;
    raised, usage := None, tracker.usage;
  }

  /** The evidence and results after the first `k` checks, none of which raised. */
  predicate ChecksSoFar(s: AuditState, env: Environment, k: nat, evidence: seq<Evidence>, results: seq<CheckResult>)
    requires k <= |s.specs|
  {
    && FirstRaise(s.specs[..k], env).None?
    && evidence == s.evidence + CheckEvidence(s, env.repository.scan, s.specs[..k])
    && results == s.results + ResultsOf(s, env.repository.scan, s.specs[..k])
  }

  lemma NextChecksSoFar(s: AuditState, env: Environment, k: nat, evidence: seq<Evidence>, results: seq<CheckResult>)
    requires k < |s.specs| && ChecksSoFar(s, env, k, evidence, results) && env.raises(CheckFor(s.specs[k].id)).None?
    ensures var x := ExecutionOf(s, env.repository.scan, s.specs[k]);
      ChecksSoFar(s, env, k + 1, evidence + x.evidence, results + [x.result])
  {
    var x := ExecutionOf(s, env.repository.scan, s.specs[k]);
    NextCheck(s, env, k);
    Regroup(s.evidence, CheckEvidence(s, env.repository.scan, s.specs[..k]), x.evidence);
    Regroup(s.results, ResultsOf(s, env.repository.scan, s.specs[..k]), [x.result]);
  }

  lemma Regroup<T>(a: seq<T>, b: seq<T>, c: seq<T>)
    ensures (a + b) + c == a + (b + c)
  {
  }

  method RunCheck(s: AuditState, env: Environment, spec: CheckSpec) returns (execution: Checks.Execution)
    ensures execution == ExecutionOf(s, env.repository.scan, spec)
  {
    execution := Checks.RunCheck(
      spec, s.summary.id, ActionFor(s.invariants, spec.invariantId), env.repository.scan(spec));
  }

  /** What one more check adds. */
  lemma NextCheck(s: AuditState, env: Environment, k: nat)
    requires k < |s.specs|
    ensures var scan, x := env.repository.scan, ExecutionOf(s, env.repository.scan, s.specs[k]);
      && CheckEvidence(s, scan, s.specs[..k + 1]) == CheckEvidence(s, scan, s.specs[..k]) + x.evidence
      && ResultsOf(s, scan, s.specs[..k + 1]) == ResultsOf(s, scan, s.specs[..k]) + [x.result]
      && FirstRaise(s.specs[..k + 1], env)
         == (if FirstRaise(s.specs[..k], env).Some? then FirstRaise(s.specs[..k], env)
             else env.raises(CheckFor(s.specs[k].id)))
  {
    assert s.specs[..k + 1][..k] == s.specs[..k];
  }

  /** The loop over the actions. */
  method VerifyActions(s: AuditState) returns (verdicts: seq<ActionVerdict>)
    ensures verdicts == VerdictsOf(s)
  {
    verdicts := [];
    for k := 0 to |s.actions|
      invariant verdicts == VerdictsOf(s)[..k]
    {
      var verdict := VerifyOne(s, s.actions[k]);
      assert VerdictsOf(s)[..k + 1] == VerdictsOf(s)[..k] + [VerdictsOf(s)[k]];
      verdicts := verdicts + [verdict];
    }
  }

  method VerifyOne(s: AuditState, action: ActionItem) returns (verdict: ActionVerdict)
    ensures verdict == VerdictFor(s, action)
  {
    verdict := Verifier.VerifyAction(
      s.summary.id, action.id, RequirementsFor(s.invariants, action.id), s.results, s.evidence);
  }

  lemma {:induction false} RaisesStay(specs: seq<CheckSpec>, k: nat, env: Environment)
    requires k <= |specs| && FirstRaise(specs[..k], env).Some?
    ensures FirstRaise(specs, env) == FirstRaise(specs[..k], env)
    decreases |specs|
  {
    if k < |specs| {
      assert specs[..|specs| - 1][..k] == specs[..k];
      RaisesStay(specs[..|specs| - 1], k, env);
    } else {
      assert specs[..k] == specs;
    }
  }
}
