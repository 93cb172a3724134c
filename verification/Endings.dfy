/** How runs end, and what the store then holds, for every environment. */
module Endings {
  import opened Wrappers
  import opened Contracts
  import opened Compiler
  import opened Database
  import opened Engine
  import opened Marking
  import opened Persistence
  import opened Pipeline
  import opened PipelineValidity
  import opened RunPrefix
  import opened Runs
  import opened Snapshot
  import opened Storage
  import Budget
  import EvidenceGraph

  // ---------------------------------------------------------------------------------------------
  // Runs without failures complete
  // ---------------------------------------------------------------------------------------------

  /** No call raises and no transaction is cut off. */
  ghost predicate Quiet(env: Environment) {
    (forall step :: env.raises(step).None?) && (forall s :: env.faults(s).None?)
  }

  lemma SaveSucceeds(init: AuditState, incident: Incident, t: Trace, s: AuditState, env: Environment)
    requires Hosts(t.db, init, incident) && Fits(init, incident, s) && env.faults(s).None?
    ensures SaveNode(t, s, env).result.Ok? && Hosts(SaveNode(t, s, env).trace.db, init, incident)
  {
    FitIsStored(t.db, init, incident, s);
  }

  lemma {:induction false} NothingRaised(specs: seq<CheckSpec>, env: Environment)
    requires Quiet(env)
    ensures FirstRaise(specs, env).None?
  {
    if specs != [] {
      NothingRaised(specs[..|specs| - 1], env);
    }
  }

  lemma LastTurn(t: Trace, s: AuditState, env: Environment)
    ensures var n := |s.invariants|;
      RetrieveFrom(t, Turns(s, env.repository.search, n), s.invariants, n, env)
      == SaveNode(t, RetrieveStage(s, env.repository.search), env)
  {
  }

  lemma OnlyRetrieved(
      init: AuditState, incident: Incident, t: Trace, s: AuditState, rest: seq<AuditState>, env: Environment)
    requires Hosts(t.db, init, incident) && Quiet(env) && rest == [] && AllFit(init, incident, rest + [s])
    ensures SaveNode(t, s, env).result.Ok?
  {
    assert s in rest + [s];
    SaveSucceeds(init, incident, t, s, env);
  }

  lemma OnlySucceeds(init: AuditState, incident: Incident, t: Trace, s: AuditState, env: Environment)
    requires Hosts(t.db, init, incident) && Quiet(env) && AllFit(init, incident, [s])
    ensures SaveNode(t, s, env).result.Ok?
  {
    assert s in [s];
    SaveSucceeds(init, incident, t, s, env);
  }

  lemma SkipTurn(t: Trace, s: AuditState, k: nat, env: Environment)
    requires k < |s.invariants| && !Searchable(s.specs, s.invariants[k].id)
    ensures var search := env.repository.search;
      && RetrieveFrom(t, Turns(s, search, k), s.invariants, k, env)
         == RetrieveFrom(t, Turns(s, search, k + 1), s.invariants, k + 1, env)
      && RestSnapshots(s, search, k) == RestSnapshots(s, search, k + 1)
  {
    TurnKeepsRun(s, env.repository.search, k);
    assert Turns(s, env.repository.search, k + 1)
        == Turn(Turns(s, env.repository.search, k), s.invariants[k], env.repository.search);
  }

  lemma {:induction false} RetrieveSucceeds(
      init: AuditState, incident: Incident, t: Trace, s: AuditState, classify: Classifier, k: nat, env: Environment)
    requires k <= |s.invariants| && Hosts(t.db, init, incident) && Quiet(env) && SearchesOk(env.repository)
    requires Searching(s, classify) && s.evidence == [] && s.summary.budget.rounds == map[]
    requires var search := env.repository.search;
      AllFit(init, incident, RestSnapshots(s, search, k) + [RetrieveStage(s, search)])
    ensures RetrieveFrom(t, Turns(s, env.repository.search, k), s.invariants, k, env).result.Ok?
    decreases |s.invariants| - k, 1
  {
    if k == |s.invariants| {
      LastTurn(t, s, env);
      OnlyRetrieved(init, incident, t, RetrieveStage(s, env.repository.search),
                    RestSnapshots(s, env.repository.search, k), env);
    } else if Searchable(s.specs, s.invariants[k].id) {
      SearchSucceeds(init, incident, t, s, classify, k, env);
    } else {
      SkipTurn(t, s, k, env);
      RetrieveSucceeds(init, incident, t, s, classify, k + 1, env);
    }
  }

  lemma {:induction false} SearchSucceeds(
      init: AuditState, incident: Incident, t: Trace, s: AuditState, classify: Classifier, k: nat, env: Environment)
    requires k < |s.invariants| && Hosts(t.db, init, incident) && Quiet(env) && SearchesOk(env.repository)
    requires Searching(s, classify) && s.evidence == [] && s.summary.budget.rounds == map[]
    requires Searchable(s.specs, s.invariants[k].id)
    requires var search := env.repository.search;
      AllFit(init, incident, RestSnapshots(s, search, k) + [RetrieveStage(s, search)])
    ensures RetrieveFrom(t, Turns(s, env.repository.search, k), s.invariants, k, env).result.Ok?
    decreases |s.invariants| - k, 0
  {
    var search := env.repository.search;
    var l := Turns(s, search, k);
    var kept := SaveNode(t, Reserved(l, s.invariants[k]), env);
    TurnSucceeds(init, incident, t, s, classify, k, env);
    RestStep(s, search, k);
    RestFits(
      init, incident, Reserved(l, s.invariants[k]), RestSnapshots(s, search, k + 1) + [RetrieveStage(s, search)]);
    RetrieveSucceeds(init, incident, kept.trace, s, classify, k + 1, env);
    SearchContinues(t, s, k, env);
  }

  lemma SearchContinues(t: Trace, s: AuditState, k: nat, env: Environment)
    requires k < |s.invariants| && Searchable(s.specs, s.invariants[k].id) && Quiet(env)
    requires var l := Turns(s, env.repository.search, k);
      Budget.WithRound(l.usage, s.invariants[k].id).Some? && SaveNode(t, Reserved(l, s.invariants[k]), env).result.Ok?
    ensures var search := env.repository.search;
      RetrieveFrom(t, Turns(s, search, k), s.invariants, k, env)
      == RetrieveFrom(SaveNode(t, Reserved(Turns(s, search, k), s.invariants[k]), env).trace, Turns(s, search, k + 1),
                      s.invariants, k + 1, env)
  {
    var search := env.repository.search;
    TurnKeepsRun(s, search, k);
    SearchTurn(t, Turns(s, search, k), s.invariants, k, env);
    assert Turns(s, search, k + 1) == Turn(Turns(s, search, k), s.invariants[k], search);
  }

  lemma RestFits(init: AuditState, incident: Incident, s: AuditState, rest: seq<AuditState>)
    requires AllFit(init, incident, [s] + rest)
    ensures Fits(init, incident, s) && AllFit(init, incident, rest)
  {
    assert s in [s] + rest;
    assert forall x :: x in rest ==> x in [s] + rest;
  }

  /** A turn that searches has a round left and its snapshot is stored. */
  lemma TurnSucceeds(
      init: AuditState, incident: Incident, t: Trace, s: AuditState, classify: Classifier, k: nat, env: Environment)
    requires k < |s.invariants| && Hosts(t.db, init, incident) && Quiet(env) && SearchesOk(env.repository)
    requires Searching(s, classify) && s.evidence == [] && s.summary.budget.rounds == map[]
    requires Searchable(s.specs, s.invariants[k].id)
    requires var search := env.repository.search;
      AllFit(init, incident, RestSnapshots(s, search, k) + [RetrieveStage(s, search)])
    ensures var l := Turns(s, env.repository.search, k);
      var kept := SaveNode(t, Reserved(l, s.invariants[k]), env);
      && Budget.WithRound(l.usage, s.invariants[k].id).Some?
      && kept.result.Ok? && Hosts(kept.trace.db, init, incident)
  {
    var search := env.repository.search;
    var l := Turns(s, search, k);
    RestStep(s, search, k);
    RestFits(
      init, incident, Reserved(l, s.invariants[k]), RestSnapshots(s, search, k + 1) + [RetrieveStage(s, search)]);
    SaveSucceeds(init, incident, t, Reserved(l, s.invariants[k]), env);
    TurnsSound(s, classify, search, k);
    CompiledRequirements(s, classify);
    RoundReserved(s, l.usage, k + 1);
  }

  // ---------------------------------------------------------------------------------------------
  // Failures keep the last snapshot
  // ---------------------------------------------------------------------------------------------

  lemma OverlayValid(db: Db, s: RunSummary)
    requires CountersOk(db) && s.budget.Valid()
    ensures Overlay(db, s).budget.Valid() && Overlay(db, s).budget.rounds == s.budget.rounds
  {
  }

  lemma RestoredSound(db: Db, init: AuditState, incident: Incident, s: AuditState)
    requires Hosts(db, init, incident) && CountersOk(db) && Fits(init, incident, s)
    ensures Sound(Restored(db, s)) && Restored(db, s).events == s.events && Restored(db, s).actions == incident.actions
  {
    FitBelongs(db, init, incident, s);
    RestoredContentValid(db, s);
    OverlayValid(db, s.summary);
    SortedEventsStay(s.events);
    assert EventsNumbered(Restored(db, s));
  }

  /** The failure record of a run is accepted like its snapshots. */
  lemma FailureFits(db: Db, init: AuditState, incident: Incident, s: AuditState, code: FailureCode)
    requires Hosts(db, init, incident) && CountersOk(db) && Fits(init, incident, s)
    ensures Fits(init, incident, FailureOf(Restored(db, s), code))
  {
    var f := FailureOf(Restored(db, s), code);
    FitBelongs(db, init, incident, s);
    RestoredSound(db, init, incident, s);
    RestoredGraphValid(db, s);
    ActionsOfDistinct(db.actions, incident.id, db.position);
    EventIsNumbered(Restored(db, s), FailureEvent, Failed);
    assert EventsNumbered(f);
    SameRecordsSound(Restored(db, s), f);
    FailureKeepsGraph(Restored(db, s), code);
  }

  /** The failure record differs from the snapshot in its marks, its overlaid budget and one more event. */
  lemma FailureChangesMarks(db: Db, init: AuditState, incident: Incident, s: AuditState, code: FailureCode)
    requires Hosts(db, init, incident) && CountersOk(db) && Fits(init, incident, s) && s.actions == incident.actions
    ensures var run := s.summary.id;
      FailureOf(Restored(db, s), code)
      == s.(summary := Overlay(db, s.summary).(status := Failed, failure := Some(code)),
            events := s.events + [WorkflowEvent(
              EventId(run, |s.events|, FailureEvent), run, |s.events|, FailureEvent, Failed)])
  {
    RestoredSound(db, init, incident, s);
  }

  lemma FailureKeepsGraph(r: AuditState, code: FailureCode)
    requires GraphValid(r)
    ensures GraphValid(FailureOf(r, code))
  {
    assert RecordsOf(FailureOf(r, code)) == RecordsOf(r);
  }

  // ---------------------------------------------------------------------------------------------
  // How a run ends
  // ---------------------------------------------------------------------------------------------

  /** What holds of all goals holds of each goal, and of what the next node stores. */
  lemma {:induction false} PlanKeeps(kept: AuditState -> bool, init: AuditState, plan: Plan, k: nat, n: nat)
    requires k < n && forall x :: x in Goal(init, plan, n) ==> kept(x)
    ensures forall x :: x in Goal(init, plan, k) ==> kept(x)
    ensures forall x :: x in plan(k, Last(Goal(init, plan, k))) ==> kept(x)
    decreases n
  {
    var before := Goal(init, plan, n - 1);
    assert Goal(init, plan, n) == before + plan(n - 1, Last(before));
    assert forall x :: x in before ==> x in Goal(init, plan, n);
    assert forall x :: x in plan(n - 1, Last(before)) ==> x in Goal(init, plan, n);
    if k < n - 1 {
      PlanKeeps(kept, init, plan, k, n - 1);
    }
  }

  lemma PlanFits(init: AuditState, incident: Incident, plan: Plan, k: nat, n: nat)
    requires k < n && AllFit(init, incident, Goal(init, plan, n))
    ensures AllFit(init, incident, Goal(init, plan, k)) && AllFit(init, incident, plan(k, Last(Goal(init, plan, k))))
    ensures Fits(init, incident, Last(Goal(init, plan, k)))
  {
    PlanKeeps(x => Fits(init, incident, x), init, plan, k, n);
    assert Last(Goal(init, plan, k)) in Goal(init, plan, k);
  }

  lemma AfterHosts(db: Db, init: AuditState, incident: Incident, log: seq<AuditState>)
    requires Hosts(db, init, incident) && AllFit(init, incident, log)
    ensures Hosts(After(db, log), init, incident)
  {
    if log != [] {
      assert log[|log| - 1] in log;
      FitIsStored(db, init, incident, log[|log| - 1]);
    }
  }

  lemma LoadSucceeds(init: AuditState, incident: Incident, t: Trace, s: AuditState, env: Environment)
    requires Hosts(t.db, init, incident) && Quiet(env) && SameRun(init, s)
    requires AllFit(init, incident, [LoadActions(s, incident.actions)])
    ensures LoadNode(t, s, env).result.Ok?
  {
    OnlySucceeds(init, incident, t, LoadActions(s, incident.actions), env);
  }

  lemma CompileSucceeds(init: AuditState, incident: Incident, t: Trace, s: AuditState, env: Environment)
    requires Hosts(t.db, init, incident) && Quiet(env)
    requires AllFit(init, incident, [CompileStage(s, env.classify)])
    ensures CompileNode(t, s, env).result.Ok?
  {
    OnlySucceeds(init, incident, t, CompileStage(s, env.classify), env);
  }

  lemma RetrieveNodeSucceeds(init: AuditState, incident: Incident, t: Trace, s: AuditState, env: Environment)
    requires Hosts(t.db, init, incident) && Quiet(env) && SearchesOk(env.repository) && SameRun(init, s)
    requires Searching(s, env.classify) && s.evidence == [] && s.summary.budget.rounds == map[]
    requires AllFit(init, incident,
      RetrievalSnapshots(s, env.repository.search))
    ensures RetrieveNode(t, s, env).result.Ok?
  {
    AllTurns(s, env.repository.search);
    RetrieveSucceeds(init, incident, t, s, env.classify, 0, env);
    RetrieveStarts(t, s, env);
  }

  lemma RetrieveStarts(t: Trace, s: AuditState, env: Environment)
    requires Quiet(env) && s.summary.projectId in t.db.projects
    ensures RetrieveNode(t, s, env) == RetrieveFrom(t, Turns(s, env.repository.search, 0), s.invariants, 0, env)
  {
    assert Turns(s, env.repository.search, 0) == Opened(s);
  }

  lemma InvestigateSucceeds(init: AuditState, incident: Incident, t: Trace, s: AuditState, env: Environment)
    requires Hosts(t.db, init, incident) && Quiet(env) && SameRun(init, s)
    requires AllFit(init, incident, [InvestigateStage(s, env.repository.scan)])
    ensures InvestigateNode(t, s, env).result.Ok?
  {
    NothingRaised(s.specs, env);
    OnlySucceeds(init, incident, t, InvestigateStage(s, env.repository.scan), env);
    InvestigateContinues(t, s, env);
  }

  lemma InvestigateContinues(t: Trace, s: AuditState, env: Environment)
    requires FirstRaise(s.specs, env).None? && s.summary.projectId in t.db.projects
    ensures InvestigateNode(t, s, env) == SaveNode(t, InvestigateStage(s, env.repository.scan), env)
  {
  }

  lemma VerifySucceeds(init: AuditState, incident: Incident, t: Trace, s: AuditState, env: Environment)
    requires Hosts(t.db, init, incident) && Quiet(env)
    requires AllFit(init, incident, [VerifyStage(s)])
    ensures VerifyNode(t, s, env).result.Ok?
  {
    OnlySucceeds(init, incident, t, VerifyStage(s), env);
  }

  lemma AssembleSucceeds(init: AuditState, incident: Incident, t: Trace, s: AuditState, env: Environment)
    requires Hosts(t.db, init, incident) && Quiet(env) && Fits(init, incident, s)
    requires AllFit(init, incident, [GraphStage(s)])
    ensures AssembleNode(t, s, env).result.Ok?
  {
    RecordsOwnersKnown(s);
    GraphBuilds(s, incident);
    OnlySucceeds(init, incident, t, GraphStage(s), env);
    AssembleContinues(t, s, env);
  }

  lemma GraphBuilds(s: AuditState, incident: Incident)
    requires Acceptable(s, incident)
    ensures Buildable(s)
  {
    GraphAccepted(s);
    RecordsOwnersKnown(s);
    EvidenceGraph.RecordsBuild(s.summary.id, RecordsOf(s));
  }

  lemma AssembleContinues(t: Trace, s: AuditState, env: Environment)
    requires s.summary.incidentId in t.db.incidents && Buildable(s)
    ensures AssembleNode(t, s, env) == SaveNode(t, GraphStage(s), env)
  {
  }

  lemma CompleteSucceeds(init: AuditState, incident: Incident, t: Trace, s: AuditState, env: Environment)
    requires Hosts(t.db, init, incident) && Quiet(env)
    requires AllFit(init, incident, [CompleteStage(s)])
    ensures CompleteNode(t, s, env).result.Ok?
  {
    OnlySucceeds(init, incident, t, CompleteStage(s), env);
  }

  lemma CheckingNodeSucceeds(init: AuditState, incident: Incident, k: nat, t: Trace, s: AuditState, env: Environment)
    requires k < 4 && Hosts(t.db, init, incident) && Quiet(env) && SearchesOk(env.repository) && SameRun(init, s)
    requires k == 2 ==> Searching(s, env.classify) && s.evidence == [] && s.summary.budget.rounds == map[]
    requires AllFit(init, incident, PlanOf(incident.actions, env)(k, s))
    ensures NodesOf(env)(k, t, s).result.Ok?
  {
    var kept := (n: Node, more: seq<AuditState>) => AllFit(init, incident, more) ==> n.result.Ok?;
    if k == 0 && AllFit(init, incident, [LoadActions(s, incident.actions)]) {
      LoadSucceeds(init, incident, t, s, env);
    } else if k == 1 && AllFit(init, incident, [CompileStage(s, env.classify)]) {
      CompileSucceeds(init, incident, t, s, env);
    } else if k == 2 && AllFit(init, incident, RetrievalSnapshots(s, env.repository.search)) {
      RetrieveNodeSucceeds(init, incident, t, s, env);
    } else if k == 3 && AllFit(init, incident, [InvestigateStage(s, env.repository.scan)]) {
      InvestigateSucceeds(init, incident, t, s, env);
    }
    CheckingNodesKeep(kept, k, t, s, incident.actions, env);
  }

  lemma ClosingNodeSucceeds(init: AuditState, incident: Incident, k: nat, t: Trace, s: AuditState, env: Environment)
    requires 4 <= k < 7 && Hosts(t.db, init, incident) && Quiet(env) && Fits(init, incident, s)
    requires AllFit(init, incident, PlanOf(incident.actions, env)(k, s))
    ensures NodesOf(env)(k, t, s).result.Ok?
  {
    var kept := (n: Node, more: seq<AuditState>) => AllFit(init, incident, more) ==> n.result.Ok?;
    if k == 4 && AllFit(init, incident, [VerifyStage(s)]) {
      VerifySucceeds(init, incident, t, s, env);
    } else if k == 5 && AllFit(init, incident, [GraphStage(s)]) {
      AssembleSucceeds(init, incident, t, s, env);
    } else if k == 6 && AllFit(init, incident, [CompleteStage(s)]) {
      CompleteSucceeds(init, incident, t, s, env);
    }
    ClosingNodesKeep(kept, k, t, s, incident.actions, env);
  }

  /** Retrieval starts on the compiled snapshot. */
  lemma CompiledIsGoal(init: AuditState, actions: seq<ActionItem>, env: Environment)
    ensures Last(Goal(init, PlanOf(actions, env), 2)) == Compiled(init, actions, env.classify)
  {
    var a := LoadActions(init, actions);
    LoadingPlan(init, actions, env);
    CompilingPlan(a, actions, env);
    GoalSnoc(init, PlanOf(actions, env), 0, init, [a]);
    GoalSnoc(init, PlanOf(actions, env), 1, a, [CompileStage(a, env.classify)]);
  }

  lemma AllGoalsFit(init: AuditState, incident: Incident, env: Environment, k: nat)
    requires k < 7 && Startable(init, incident) && SearchesOk(env.repository)
    ensures var plan := PlanOf(incident.actions, env);
      && AllFit(init, incident, Goal(init, plan, k)) && Fits(init, incident, Last(Goal(init, plan, k)))
      && AllFit(init, incident, plan(k, Last(Goal(init, plan, k))))
  {
    EverySnapshotFits(init, incident, env.classify, env.repository);
    GoalIsSnapshots(init, incident.actions, env);
    PlanFits(init, incident, PlanOf(incident.actions, env), k, 7);
  }

  lemma NextSucceeds(
      db: Db, init: AuditState, incident: Incident, env: Environment, k: nat, t: Trace, s: AuditState)
    requires k < 7 && Hosts(db, init, incident) && Startable(init, incident) && SearchesOk(env.repository) && Quiet(env)
    requires var goal := Goal(init, PlanOf(incident.actions, env), k);
      t == Trace(After(db, goal), goal) && s == Last(goal)
    ensures NodesOf(env)(k, t, s).result.Ok?
  {
    var goal := Goal(init, PlanOf(incident.actions, env), k);
    AllGoalsFit(init, incident, env, k);
    AfterHosts(db, init, incident, goal);
    if k < 4 {
      if k == 2 {
        CompiledIsGoal(init, incident.actions, env);
        CompiledSearching(init, incident, env.classify);
      }
      CheckingNodeSucceeds(init, incident, k, t, s, env);
    } else {
      ClosingNodeSucceeds(init, incident, k, t, s, env);
    }
  }

  /** What the first `k` nodes leave when all of them succeed. */
  lemma ProgressReached(db: Db, init: AuditState, incident: Incident, env: Environment, k: nat)
    requires k <= 7 && Hosts(db, init, incident)
    requires Progress(SaveNode(Trace(db, []), init, env), NodesOf(env), k).result.Ok?
    ensures var n := Progress(SaveNode(Trace(db, []), init, env), NodesOf(env), k);
      var goal := Goal(init, PlanOf(incident.actions, env), k);
      n.trace == Trace(After(db, goal), goal) && n.result.value == Last(goal)
  {
    ProgressFollows(db, init, env, k);
    assert StoredActions(db, init.summary.incidentId) == incident.actions;
    assert [] + Goal(init, PlanOf(incident.actions, env), k) == Goal(init, PlanOf(incident.actions, env), k);
  }

  lemma StartSucceeds(db: Db, init: AuditState, incident: Incident, env: Environment)
    requires Hosts(db, init, incident) && Startable(init, incident) && SearchesOk(env.repository) && Quiet(env)
    ensures SaveNode(Trace(db, []), init, env).result.Ok?
  {
    AllGoalsFit(init, incident, env, 0);
    SaveSucceeds(init, incident, Trace(db, []), init, env);
  }

  lemma StepSucceeds(start: Node, nodes: (nat, Trace, AuditState) -> Node, k: nat)
    requires 0 < k && Progress(start, nodes, k - 1).result.Ok?
    requires var before := Progress(start, nodes, k - 1);
      nodes(k - 1, before.trace, before.result.value).result.Ok?
    ensures Progress(start, nodes, k).result.Ok?
  {
  }

  lemma {:induction false} ProgressSucceeds(db: Db, init: AuditState, incident: Incident, env: Environment, k: nat)
    requires k <= 7 && Hosts(db, init, incident) && Startable(init, incident)
    requires SearchesOk(env.repository) && Quiet(env)
    ensures Progress(SaveNode(Trace(db, []), init, env), NodesOf(env), k).result.Ok?
  {
    if k == 0 {
      StartSucceeds(db, init, incident, env);
    } else {
      ProgressSucceeds(db, init, incident, env, k - 1);
      ProgressReached(db, init, incident, env, k - 1);
      var start := SaveNode(Trace(db, []), init, env);
      var before := Progress(start, NodesOf(env), k - 1);
      NextSucceeds(db, init, incident, env, k - 1, before.trace, before.result.value);
      StepSucceeds(start, NodesOf(env), k);
    }
  }

  /** Without failures a run completes, and the store holds its last snapshot. */
  lemma QuietRunCompletes(db: Db, init: AuditState, incident: Incident, env: Environment)
    requires Hosts(db, init, incident) && Startable(init, incident)
    requires SearchesOk(env.repository) && Quiet(env)
    ensures var final := Last(Snapshots(init, incident.actions, env.classify, env.repository));
      RunEffect(db, init, env) == (Completed(final), Saved(db, final))
  {
    ProgressSucceeds(db, init, incident, env, 7);
    ProgressReached(db, init, incident, env, 7);
    GoalIsSnapshots(init, incident.actions, env);
  }

  // ---------------------------------------------------------------------------------------------
  // Runs with failures
  // ---------------------------------------------------------------------------------------------

  /**
   What the failure handler loads and marks: the last committed snapshot, or, when nothing was
   committed, what the store holds under the run's identifier, and the initial state if it holds nothing.
   */
  function LastKnown(db: Db, init: AuditState, log: seq<AuditState>): Option<AuditState> {
    if log == [] then Current(db, init) else Some(Restored(db, Last(log)))
  }

  lemma HandlerLoadsLast(db: Db, init: AuditState, incident: Incident, log: seq<AuditState>)
    requires Hosts(db, init, incident) && AllFit(init, incident, log)
    ensures Current(After(db, log), init) == LastKnown(db, init, log)
    ensures log == [] && init.summary.id !in db.runs ==> LastKnown(db, init, log) == Some(init)
  {
    if log != [] {
      assert Last(log) in log;
      FitBelongs(db, init, incident, Last(log));
      LoadSaved(db, Last(log));
    }
  }

  /** A state of the run itself, not of an earlier one with its identifier, fails into an accepted one. */
  lemma LastKnownFails(db: Db, init: AuditState, incident: Incident, log: seq<AuditState>, code: FailureCode)
    requires Hosts(db, init, incident) && CountersOk(db) && Startable(init, incident) && AllFit(init, incident, log)
    requires log != [] || init.summary.id !in db.runs
    ensures LastKnown(db, init, log).Some?
    ensures Fits(init, incident, FailureOf(LastKnown(db, init, log).value, code))
  {
    if log != [] {
      assert Last(log) in log;
      FailureFits(db, init, incident, Last(log), code);
    } else {
      InitialAcceptable(init, incident);
      EventIsNumbered(init, FailureEvent, Failed);
      assert EventsNumbered(FailureOf(init, code));
      SameRecordsSound(init, FailureOf(init, code));
    }
  }

  lemma CommittedFit(db: Db, init: AuditState, incident: Incident, env: Environment)
    requires Hosts(db, init, incident) && Startable(init, incident) && SearchesOk(env.repository)
    ensures AllFit(init, incident, Invoke(db, init, env).trace.log)
    ensures Invoke(db, init, env).trace.db == After(db, Invoke(db, init, env).trace.log)
  {
    RunCommitsPrefix(db, init, env);
    EverySnapshotFits(init, incident, env.classify, env.repository);
    PrefixFits(init, incident, Invoke(db, init, env).trace.log,
               Snapshots(init, incident.actions, env.classify, env.repository));
  }

  lemma PrefixFits(init: AuditState, incident: Incident, log: seq<AuditState>, all: seq<AuditState>)
    requires log <= all && AllFit(init, incident, all)
    ensures AllFit(init, incident, log)
  {
    forall s | s in log ensures Fits(init, incident, s) {
      var i :| 0 <= i < |log| && log[i] == s;
      assert all[i] == s;
    }
  }

  /** Storing what the handler marks, whatever it is: it replaces the run's snapshot or changes nothing. */
  lemma MarkedOrKept(db: Db, init: AuditState, log: seq<AuditState>, code: FailureCode, env: Environment)
    requires Integrity(After(db, log)) && Current(After(db, log), init) == LastKnown(db, init, log)
    ensures FailureStep(After(db, log), init, code, env)
      == match LastKnown(db, init, log)
         case None => (Raised, After(db, log))
         case Some(last) =>
           var failed := FailureOf(last, code);
           if SaveEffect(After(db, log), failed, env.faults(failed)).0 == Stored
           then (FailedRun(failed), Saved(After(db, log), failed)) else (Raised, After(db, log))
  {
    if LastKnown(db, init, log).Some? {
      var failed := FailureOf(LastKnown(db, init, log).value, code);
      SaveIsAtomic(After(db, log), failed, env.faults(failed));
      if SaveEffect(After(db, log), failed, env.faults(failed)).0 == Stored {
        StoredIsSaved(After(db, log), failed, env.faults(failed));
      }
    }
  }

  /** A later snapshot of the run replaces the one that was committed last. */
  lemma HandlerReplaces(
      db: Db, init: AuditState, incident: Incident, log: seq<AuditState>, code: FailureCode)
    requires Hosts(db, init, incident) && CountersOk(db) && Startable(init, incident) && AllFit(init, incident, log)
    requires LastKnown(db, init, log).Some?
    ensures var failed := FailureOf(LastKnown(db, init, log).value, code);
      Saved(After(db, log), failed) == Saved(db, failed)
  {
    if log != [] {
      LastKnownFails(db, init, incident, log, code);
      SavedAfter(db, init, incident, log, FailureOf(LastKnown(db, init, log).value, code));
    }
  }

  /** How the handler ends on a log of accepted snapshots. */
  lemma HandlerEnds(
      db: Db, init: AuditState, incident: Incident, log: seq<AuditState>, code: FailureCode, env: Environment)
    requires Hosts(db, init, incident) && CountersOk(db) && Startable(init, incident) && AllFit(init, incident, log)
    ensures FailureStep(After(db, log), init, code, env)
      == match LastKnown(db, init, log)
         case None => (Raised, After(db, log))
         case Some(last) =>
           var failed := FailureOf(last, code);
           if SaveEffect(After(db, log), failed, env.faults(failed)).0 == Stored
           then (FailedRun(failed), Saved(db, failed))
           else (Raised, After(db, log))
  {
    HandlerLoadsLast(db, init, incident, log);
    AfterHosts(db, init, incident, log);
    MarkedOrKept(db, init, log, code, env);
    if LastKnown(db, init, log).Some? {
      HandlerReplaces(db, init, incident, log, code);
    }
  }

  /**
   A run that fails is left in exactly the last snapshot it committed, marked as failed and with one
   more event; that is what the store then holds, unless storing it is cut off too.  A run that
   committed nothing is left so in what the store holds under its identifier: its initial state when
   that is unused, and else the earlier run's snapshot.
   */
  lemma FailedRunKeepsLast(db: Db, init: AuditState, incident: Incident, env: Environment)
    requires Hosts(db, init, incident) && CountersOk(db)
    requires Startable(init, incident) && SearchesOk(env.repository)
    requires Invoke(db, init, env).result.Err?
    ensures var n := Invoke(db, init, env);
      RunEffect(db, init, env)
      == match LastKnown(db, init, n.trace.log)
         case None => (Raised, After(db, n.trace.log))
         case Some(last) =>
           var failed := FailureOf(last, n.result.error);
           if SaveEffect(n.trace.db, failed, env.faults(failed)).0 == Stored then (FailedRun(failed), Saved(db, failed))
           else (Raised, After(db, n.trace.log))
    ensures var n := Invoke(db, init, env);
      n.trace.log != [] || init.summary.id !in db.runs ==>
        && LastKnown(db, init, n.trace.log).Some?
        && var failed := FailureOf(LastKnown(db, init, n.trace.log).value, n.result.error);
           && (env.faults(failed).None? ==> RunEffect(db, init, env) == (FailedRun(failed), Saved(db, failed)))
           && LoadState(Saved(db, failed), init.summary.id) == Loaded(Restored(db, failed))
  {
    var n := Invoke(db, init, env);
    CommittedFit(db, init, incident, env);
    HandlerEnds(db, init, incident, n.trace.log, n.result.error, env);
    if n.trace.log != [] || init.summary.id !in db.runs {
      LastKnownFails(db, init, incident, n.trace.log, n.result.error);
      var failed := FailureOf(LastKnown(db, init, n.trace.log).value, n.result.error);
      FailureIsStored(db, init, incident, n.trace.log, failed, env.faults(failed));
    }
  }

  /**
   A run under an identifier that is in use, whose first save fails: the handler loads the earlier run's
   snapshot and marks that one.  It is stored exactly when nothing cuts that off, no guard pins the
   run, and neither its graph nor the number of the new event repeats one.
   */
  lemma ReusedRunMarksEarlier(db: Db, init: AuditState, before: AuditState, env: Environment)
    requires Integrity(db) && LoadState(db, init.summary.id) == Loaded(before)
    requires var n := Invoke(db, init, env);
      n.result.Err? && n.trace.log == []
    ensures var failed := FailureOf(before, Invoke(db, init, env).result.error);
      RunEffect(db, init, env)
      == if && Uncut(failed, env.faults(failed)) && GuardFree(db, init.summary.id)
            && DistinctRecordIds(before.nodes) && NextEventFree(before, FailureEvent)
         then (FailedRun(failed), Saved(db, failed)) else (Raised, db)
  {
    var n := Invoke(db, init, env);
    var failed := FailureOf(before, n.result.error);
    RunCommitsPrefix(db, init, env);
    MarkedOrKept(db, init, [], n.result.error, env);
    LoadedBelongs(db, init.summary.id);
    MarkedIsStoredIff(db, before, failed, FailureEvent, env.faults(failed));
  }

  lemma FailureIsStored(
      db: Db, init: AuditState, incident: Incident, log: seq<AuditState>, failed: AuditState, fault: Option<nat>)
    requires Hosts(db, init, incident) && AllFit(init, incident, log) && Fits(init, incident, failed)
    ensures var (outcome, after) := SaveEffect(After(db, log), failed, fault);
      && (outcome == Stored ==> after == Saved(db, failed))
      && (outcome != Stored ==> after == After(db, log))
      && (fault.None? ==> outcome == Stored)
    ensures LoadState(Saved(db, failed), failed.summary.id) == Loaded(Restored(db, failed))
  {
    AfterHosts(db, init, incident, log);
    StoredOrNot(After(db, log), init, incident, failed, fault);
    SavedAfter(db, init, incident, log, failed);
    FitBelongs(db, init, incident, failed);
    LoadSaved(db, failed);
  }

  lemma SavedAfter(db: Db, init: AuditState, incident: Incident, log: seq<AuditState>, t: AuditState)
    requires AllFit(init, incident, log) && Fits(init, incident, t)
    ensures Saved(After(db, log), t) == Saved(db, t)
  {
    if log != [] {
      assert Last(log) in log;
      SavedTwice(db, Last(log), t);
    }
  }

  lemma StoredOrNot(db: Db, init: AuditState, incident: Incident, t: AuditState, fault: Option<nat>)
    requires Hosts(db, init, incident) && Fits(init, incident, t)
    ensures var (outcome, after) := SaveEffect(db, t, fault);
      after == (if outcome == Stored then Saved(db, t) else db) && (fault.None? ==> outcome == Stored)
  {
    FitIsStored(db, init, incident, t);
    SaveIsAtomic(db, t, fault);
    if SaveEffect(db, t, fault).0 == Stored {
      StoredIsSaved(db, t, fault);
    }
  }
}
