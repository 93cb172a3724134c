/** Every run commits a prefix of its snapshots, whatever the environment does. */
module RunPrefix {
  import opened Wrappers
  import opened Contracts
  import opened Compiler
  import opened Database
  import opened Engine
  import opened Persistence
  import opened Pipeline
  import opened PipelineValidity
  import opened Runs
  import opened Snapshot
  import opened Storage
  import Budget
  import EvidenceGraph

  // ---------------------------------------------------------------------------------------------
  // The snapshots that the nodes aim for
  // ---------------------------------------------------------------------------------------------

  function Last(ts: seq<AuditState>): AuditState
    requires ts != []
  {
    ts[|ts| - 1]
  }

  function RetrievalSnapshots(s: AuditState, search: Id -> seq<Retrieved>): seq<AuditState> {
    TurnSnapshots(s, search, |s.invariants|) + [RetrieveStage(s, search)]
  }

  /** The snapshots that node `k` stores, started on `s`. */
  function NodeSnapshots(k: nat, s: AuditState, actions: seq<ActionItem>, env: Environment): seq<AuditState> {
    if k < 4 then CheckingSnapshots(k, s, actions, env) else ClosingSnapshots(k, s)
  }

  function CheckingSnapshots(k: nat, s: AuditState, actions: seq<ActionItem>, env: Environment): seq<AuditState>
    requires k < 4
  {
    match k
    case 0 => [LoadActions(s, actions)]
    case 1 => [CompileStage(s, env.classify)]
    case 2 => RetrievalSnapshots(s, env.repository.search)
    case _ => [InvestigateStage(s, env.repository.scan)]
  }

  function ClosingSnapshots(k: nat, s: AuditState): seq<AuditState>
    requires k >= 4
  {
    match k
    case 4 => [VerifyStage(s)]
    case 5 => [GraphStage(s)]
    case _ => [CompleteStage(s)]
  }

  /** What each of seven nodes stores, given its number and the state it starts on. */
  type Plan = (nat, AuditState) -> seq<AuditState>

  function PlanOf(actions: seq<ActionItem>, env: Environment): Plan {
    (k: nat, s: AuditState) => NodeSnapshots(k, s, actions, env)
  }

  /** The snapshots stored up to and including the first `k` nodes. */
  function Goal(init: AuditState, plan: Plan, k: nat): (goal: seq<AuditState>)
    ensures goal != []
  {
    if k == 0 then [init]
    else
      var before := Goal(init, plan, k - 1);
      before + plan(k - 1, Last(before))
  }

  lemma GoalSnoc(init: AuditState, plan: Plan, k: nat, s: AuditState, more: seq<AuditState>)
    requires Last(Goal(init, plan, k)) == s && plan(k, s) == more && more != []
    ensures Goal(init, plan, k + 1) == Goal(init, plan, k) + more
    ensures Last(Goal(init, plan, k + 1)) == Last(more)
  {
  }

  /** Seven nodes, of which the third may store any number of snapshots. */
  lemma SevenNodes(
      init: AuditState, plan: Plan, a: AuditState, b: AuditState, turns: seq<AuditState>, c: AuditState,
      d: AuditState, e: AuditState, f: AuditState, g: AuditState)
    requires plan(0, init) == [a] && plan(1, a) == [b] && plan(2, b) == turns + [c]
    requires plan(3, c) == [d] && plan(4, d) == [e] && plan(5, e) == [f] && plan(6, f) == [g]
    ensures Goal(init, plan, 7) == [init, a, b] + turns + [c, d, e, f, g]
  {
    GoalSnoc(init, plan, 0, init, [a]);
    GoalSnoc(init, plan, 1, a, [b]);
    GoalSnoc(init, plan, 2, b, turns + [c]);
    GoalSnoc(init, plan, 3, c, [d]);
    GoalSnoc(init, plan, 4, d, [e]);
    GoalSnoc(init, plan, 5, e, [f]);
    GoalSnoc(init, plan, 6, f, [g]);
  }

  lemma LoadingPlan(s: AuditState, actions: seq<ActionItem>, env: Environment)
    ensures PlanOf(actions, env)(0, s) == [LoadActions(s, actions)]
  {
  }

  lemma CompilingPlan(s: AuditState, actions: seq<ActionItem>, env: Environment)
    ensures PlanOf(actions, env)(1, s) == [CompileStage(s, env.classify)]
  {
  }

  lemma RetrievingPlan(s: AuditState, actions: seq<ActionItem>, env: Environment)
    ensures PlanOf(actions, env)(2, s) == RetrievalSnapshots(s, env.repository.search)
  {
  }

  lemma CheckingPlan(s: AuditState, actions: seq<ActionItem>, env: Environment)
    ensures PlanOf(actions, env)(3, s) == [InvestigateStage(s, env.repository.scan)]
  {
  }

  lemma VerifyingPlan(s: AuditState, actions: seq<ActionItem>, env: Environment)
    ensures PlanOf(actions, env)(4, s) == [VerifyStage(s)]
  {
  }

  lemma AssemblingPlan(s: AuditState, actions: seq<ActionItem>, env: Environment)
    ensures PlanOf(actions, env)(5, s) == [GraphStage(s)]
  {
  }

  lemma CompletingPlan(s: AuditState, actions: seq<ActionItem>, env: Environment)
    ensures PlanOf(actions, env)(6, s) == [CompleteStage(s)]
  {
  }

  /** All goals together are the run's snapshots. */
  lemma GoalIsSnapshots(init: AuditState, actions: seq<ActionItem>, env: Environment)
    ensures Goal(init, PlanOf(actions, env), 7) == Snapshots(init, actions, env.classify, env.repository)
  {
    var a := LoadActions(init, actions);
    var b := CompileStage(a, env.classify);
    var c := RetrieveStage(b, env.repository.search);
    var d := InvestigateStage(c, env.repository.scan);
    var e := VerifyStage(d);
    var f := GraphStage(e);
    LoadingPlan(init, actions, env);
    CompilingPlan(a, actions, env);
    RetrievingPlan(b, actions, env);
    CheckingPlan(c, actions, env);
    VerifyingPlan(d, actions, env);
    AssemblingPlan(e, actions, env);
    CompletingPlan(f, actions, env);
    SevenNodes(init, PlanOf(actions, env), a, b, TurnSnapshots(b, env.repository.search, |b.invariants|), c, d, e, f,
               CompleteStage(f));
  }

  // ---------------------------------------------------------------------------------------------
  // Every run commits a prefix of its snapshots
  // ---------------------------------------------------------------------------------------------

  /** The store holds the last committed snapshot over what it held at the start, and nothing else. */
  ghost predicate Consistent(db: Db, init: AuditState, t: Trace) {
    && t.db == After(db, t.log) && Integrity(t.db)
    && forall s :: s in t.log ==> SameRun(init, s)
  }

  /** A node adds some first part of these snapshots to the log, and succeeds exactly when it adds all. */
  predicate Continues(log: seq<AuditState>, n: Node, more: seq<AuditState>) {
    && log <= n.trace.log <= log + more && more != []
    && (n.result.Ok? <==> n.trace.log == log + more) && (n.result.Ok? ==> n.result.value == Last(more))
  }

  /** A node commits some of these snapshots in order, and succeeds exactly when it commits all of them. */
  ghost predicate Follows(db: Db, init: AuditState, t: Trace, n: Node, more: seq<AuditState>) {
    Consistent(db, init, n.trace) && Continues(t.log, n, more)
  }

  lemma SaveNodeStores(t: Trace, s: AuditState, env: Environment)
    requires Integrity(t.db)
    ensures var n := SaveNode(t, s, env);
      if n.result.Ok? then
        n.result.value == s && n.trace == Trace(Saved(t.db, s), t.log + [s]) && Integrity(n.trace.db)
      else n.trace == t
  {
    if SaveEffect(t.db, s, env.faults(s)).0 == Stored {
      StoredIsSaved(t.db, s, env.faults(s));
    }
  }

  lemma SaveFollows(db: Db, init: AuditState, t: Trace, s: AuditState, env: Environment)
    requires Consistent(db, init, t) && SameRun(init, s)
    ensures Follows(db, init, t, SaveNode(t, s, env), [s])
    ensures SaveNode(t, s, env).result.Err? ==> SaveNode(t, s, env).trace == t
  {
    SaveNodeStores(t, s, env);
    StoredFollows(db, init, t, s, SaveNode(t, s, env));
  }

  lemma StoredFollows(db: Db, init: AuditState, t: Trace, s: AuditState, n: Node)
    requires Consistent(db, init, t) && SameRun(init, s)
    requires if n.result.Ok? then
        n.result.value == s && n.trace == Trace(Saved(t.db, s), t.log + [s]) && Integrity(n.trace.db)
      else n.trace == t
    ensures Follows(db, init, t, n, [s])
  {
    if n.result.Ok? {
      if t.log != [] {
        assert t.log[|t.log| - 1] in t.log;
        SavedTwice(db, t.log[|t.log| - 1], s);
      }
      assert After(db, t.log + [s]) == Saved(db, s);
    }
  }

  lemma ContinuesThen(log: seq<AuditState>, a: Node, b: Node, first: seq<AuditState>, second: seq<AuditState>)
    requires Continues(log, a, first) && a.result.Ok? && Continues(a.trace.log, b, second)
    ensures Continues(log, b, first + second)
  {
    assert log + (first + second) == (log + first) + second;
    assert Last(first + second) == Last(second);
  }

  lemma ContinuesMore(log: seq<AuditState>, a: Node, first: seq<AuditState>, second: seq<AuditState>)
    requires Continues(log, a, first) && a.result.Err?
    ensures Continues(log, a, first + second)
  {
    assert log + (first + second) == (log + first) + second;
  }

  /** A node that stops early still follows, and a successful one leads to the next. */
  lemma FollowsThen(
      db: Db, init: AuditState, t: Trace, a: Node, b: Node, first: seq<AuditState>, second: seq<AuditState>)
    requires Follows(db, init, t, a, first)
    requires a.result.Ok? && Follows(db, init, a.trace, b, second)
    ensures Follows(db, init, t, b, first + second)
  {
    ContinuesThen(t.log, a, b, first, second);
  }

  lemma FollowsMore(db: Db, init: AuditState, t: Trace, a: Node, first: seq<AuditState>, second: seq<AuditState>)
    requires Follows(db, init, t, a, first) && a.result.Err?
    ensures Follows(db, init, t, a, first + second)
  {
    ContinuesMore(t.log, a, first, second);
  }

  function RestSnapshots(s: AuditState, search: Id -> seq<Retrieved>, k: nat): seq<AuditState>
    requires k <= |s.invariants|
    decreases |s.invariants| - k
  {
    if k == |s.invariants| then []
    else
      (if Searchable(s.specs, s.invariants[k].id) then [Reserved(Turns(s, search, k), s.invariants[k])] else [])
      + RestSnapshots(s, search, k + 1)
  }

  lemma {:induction false} TurnsSplit(s: AuditState, search: Id -> seq<Retrieved>, k: nat)
    requires k <= |s.invariants|
    ensures TurnSnapshots(s, search, |s.invariants|) == TurnSnapshots(s, search, k) + RestSnapshots(s, search, k)
    decreases |s.invariants| - k
  {
    if k < |s.invariants| {
      TurnsSplit(s, search, k + 1);
    }
  }

  lemma TurnKeepsRun(s: AuditState, search: Id -> seq<Retrieved>, k: nat)
    requires k <= |s.invariants|
    ensures SameRun(s, Turns(s, search, k).state) && Turns(s, search, k).state.specs == s.specs
  {
  }

  lemma GatheredFollows(
      db: Db, init: AuditState, t: Trace, l: Loop, requirements: seq<CompiledInvariant>, env: Environment)
    requires Consistent(db, init, t) && SameRun(init, l.state)
    ensures Follows(db, init, t, RetrieveFrom(t, l, requirements, |requirements|, env), [Gathered(l)])
  {
    SaveFollows(db, init, t, Gathered(l), env);
  }

  /** The retrieval loop follows the snapshots of its turns. */
  lemma {:induction false} RetrieveFollows(
      db: Db, init: AuditState, t: Trace, s: AuditState, k: nat, env: Environment)
    requires k <= |s.invariants| && Consistent(db, init, t) && SameRun(init, s)
    ensures var search := env.repository.search;
      Follows(db, init, t, RetrieveFrom(t, Turns(s, search, k), s.invariants, k, env),
              RestSnapshots(s, search, k) + [RetrieveStage(s, search)])
    decreases |s.invariants| - k
  {
    var search := env.repository.search;
    var l := Turns(s, search, k);
    TurnKeepsRun(s, search, k);
    if k == |s.invariants| {
      GatheredFollows(db, init, t, l, s.invariants, env);
      assert RestSnapshots(s, search, k) + [RetrieveStage(s, search)] == [Gathered(l)];
    } else {
      var requirement := s.invariants[k];
      assert Turns(s, search, k + 1) == Turn(l, requirement, search);
      if !Searchable(s.specs, requirement.id) {
        RetrieveFollows(db, init, t, s, k + 1, env);
        assert RestSnapshots(s, search, k) == RestSnapshots(s, search, k + 1);
      } else {
        SearchFollows(db, init, t, s, k, env);
      }
    }
  }

  /** What a turn that searches does. */
  lemma SearchTurn(t: Trace, l: Loop, requirements: seq<CompiledInvariant>, k: nat, env: Environment)
    requires k < |requirements| && Searchable(l.state.specs, requirements[k].id)
    ensures var kept := SaveNode(t, Reserved(l, requirements[k]), env);
      var n := RetrieveFrom(t, l, requirements, k, env);
      var raised := env.raises(SearchFor(requirements[k].id));
      if Budget.WithRound(l.usage, requirements[k].id).None? then n == Node(t, Err(RoundBudgetExhausted))
      else if kept.result.Err? then n == kept
      else if raised.Some? then n == Node(kept.trace, Err(raised.value))
      else n == RetrieveFrom(kept.trace, Turn(l, requirements[k], env.repository.search), requirements, k + 1, env)
  {
  }

  /** A turn that searches, given what storing its snapshot and the later turns do. */
  lemma SearchStep(db: Db, init: AuditState, t: Trace, s: AuditState, k: nat, env: Environment, rest: seq<AuditState>)
    requires k < |s.invariants| && Consistent(db, init, t) && Searchable(s.specs, s.invariants[k].id)
    requires var l := Turns(s, env.repository.search, k);
      var kept := SaveNode(t, Reserved(l, s.invariants[k]), env);
      && l.state.specs == s.specs
      && Follows(db, init, t, kept, [Reserved(l, s.invariants[k])])
      && (kept.result.Ok? ==>
            Follows(db, init, kept.trace,
                    RetrieveFrom(kept.trace, Turn(l, s.invariants[k], env.repository.search), s.invariants, k + 1, env),
                    rest))
    ensures var l := Turns(s, env.repository.search, k);
      Follows(db, init, t, RetrieveFrom(t, l, s.invariants, k, env), [Reserved(l, s.invariants[k])] + rest)
  {
    var l := Turns(s, env.repository.search, k);
    var reserved := Reserved(l, s.invariants[k]);
    var kept := SaveNode(t, reserved, env);
    var n := RetrieveFrom(t, l, s.invariants, k, env);
    SearchTurn(t, l, s.invariants, k, env);
    if kept.result.Ok? {
      var next := RetrieveFrom(kept.trace, Turn(l, s.invariants[k], env.repository.search), s.invariants, k + 1, env);
      TurnFollows(db, init, t, kept, next, n, reserved, rest);
    } else {
      StopFollows(db, init, t, kept, n, reserved, rest);
    }
  }

  lemma RestStep(s: AuditState, search: Id -> seq<Retrieved>, k: nat)
    requires k < |s.invariants| && Searchable(s.specs, s.invariants[k].id)
    ensures RestSnapshots(s, search, k) + [RetrieveStage(s, search)]
         == [Reserved(Turns(s, search, k), s.invariants[k])]
            + (RestSnapshots(s, search, k + 1) + [RetrieveStage(s, search)])
  {
  }

  lemma {:induction false} SearchFollows(db: Db, init: AuditState, t: Trace, s: AuditState, k: nat, env: Environment)
    requires k < |s.invariants| && Consistent(db, init, t) && SameRun(init, s)
    requires Searchable(s.specs, s.invariants[k].id)
    ensures var search := env.repository.search;
      Follows(db, init, t, RetrieveFrom(t, Turns(s, search, k), s.invariants, k, env),
              RestSnapshots(s, search, k) + [RetrieveStage(s, search)])
    decreases |s.invariants| - k, 0
  {
    var search := env.repository.search;
    var l := Turns(s, search, k);
    TurnKeepsRun(s, search, k);
    SaveFollows(db, init, t, Reserved(l, s.invariants[k]), env);
    var kept := SaveNode(t, Reserved(l, s.invariants[k]), env);
    if kept.result.Ok? {
      RetrieveFollows(db, init, kept.trace, s, k + 1, env);
      assert Turns(s, search, k + 1) == Turn(l, s.invariants[k], search);
    }
    SearchStep(db, init, t, s, k, env, RestSnapshots(s, search, k + 1) + [RetrieveStage(s, search)]);
    RestStep(s, search, k);
  }

  /** A turn that stored nothing leaves the store alone. */
  lemma StopFollows(db: Db, init: AuditState, t: Trace, kept: Node, n: Node, s: AuditState, rest: seq<AuditState>)
    requires Consistent(db, init, t) && kept.result.Err? && Follows(db, init, t, kept, [s])
    requires n == kept || (n.result.Err? && n.trace == t)
    ensures Follows(db, init, t, n, [s] + rest)
  {
    if n == kept {
      FollowsMore(db, init, t, kept, [s], rest);
    } else {
      StoppedFollows(db, init, t, n, [s] + rest);
    }
  }

  /** Stopping after the first snapshot, or before it, continues a list of which more is to come. */
  lemma StoppedContinues(log: seq<AuditState>, kept: Node, n: Node, s: AuditState, rest: seq<AuditState>)
    requires Continues(log, kept, [s]) && n.result.Err? && rest != []
    requires n.trace.log == kept.trace.log || n.trace.log == log
    ensures Continues(log, n, [s] + rest)
  {
    assert log + ([s] + rest) == (log + [s]) + rest;
  }

  /** A turn that stored its snapshot went on, or raised without storing more. */
  lemma TurnFollows(
      db: Db, init: AuditState, t: Trace, kept: Node, next: Node, n: Node, s: AuditState, rest: seq<AuditState>)
    requires Consistent(db, init, t) && kept.result.Ok?
    requires Follows(db, init, t, kept, [s]) && Follows(db, init, kept.trace, next, rest)
    requires n == next || (n.result.Err? && (n.trace == kept.trace || n.trace == t))
    ensures Follows(db, init, t, n, [s] + rest)
  {
    if n == next {
      FollowsThen(db, init, t, kept, next, [s], rest);
    } else {
      StoppedContinues(t.log, kept, n, s, rest);
    }
  }

  function StoredActions(db: Db, incident: Id): seq<ActionItem> {
    match LoadIncident(db, incident)
    case Some(found) => found.actions
    case None => []
  }

  lemma LoadNodeCases(db: Db, init: AuditState, t: Trace, s: AuditState, env: Environment)
    requires Consistent(db, init, t) && SameRun(init, s)
    ensures var n := LoadNode(t, s, env);
      || n == SaveNode(t, LoadActions(s, StoredActions(db, init.summary.incidentId)), env)
      || (n.result.Err? && n.trace == t)
  {
    assert LoadIncident(t.db, s.summary.incidentId) == LoadIncident(db, init.summary.incidentId);
  }

  lemma LoadFollows(db: Db, init: AuditState, t: Trace, s: AuditState, env: Environment)
    requires Consistent(db, init, t) && SameRun(init, s)
    ensures var actions := StoredActions(db, init.summary.incidentId);
      Follows(db, init, t, LoadNode(t, s, env), [LoadActions(s, actions)])
  {
    var loaded, n := LoadActions(s, StoredActions(db, init.summary.incidentId)), LoadNode(t, s, env);
    LoadNodeCases(db, init, t, s, env);
    SaveFollows(db, init, t, loaded, env);
    if n.result.Err? && n.trace == t {
      StoppedFollows(db, init, t, n, [loaded]);
    }
  }

  lemma CompileFollows(db: Db, init: AuditState, t: Trace, s: AuditState, env: Environment)
    requires Consistent(db, init, t) && SameRun(init, s)
    ensures Follows(db, init, t, CompileNode(t, s, env), [CompileStage(s, env.classify)])
  {
    SaveFollows(db, init, t, CompileStage(s, env.classify), env);
  }

  lemma StoppedFollows(db: Db, init: AuditState, t: Trace, n: Node, more: seq<AuditState>)
    requires Consistent(db, init, t) && n.result.Err? && n.trace == t && more != []
    ensures Follows(db, init, t, n, more)
  {
  }

  lemma RetrieveNodeCases(t: Trace, s: AuditState, env: Environment)
    ensures var n := RetrieveNode(t, s, env);
      n == RetrieveFrom(t, Turns(s, env.repository.search, 0), s.invariants, 0, env) || (n.result.Err? && n.trace == t)
  {
    assert Turns(s, env.repository.search, 0) == Opened(s);
  }

  lemma AllTurns(s: AuditState, search: Id -> seq<Retrieved>)
    ensures RestSnapshots(s, search, 0) == TurnSnapshots(s, search, |s.invariants|)
  {
    TurnsSplit(s, search, 0);
    assert TurnSnapshots(s, search, 0) + RestSnapshots(s, search, 0) == RestSnapshots(s, search, 0);
  }

  lemma RetrieveNodeFollows(db: Db, init: AuditState, t: Trace, s: AuditState, env: Environment)
    requires Consistent(db, init, t) && SameRun(init, s)
    ensures Follows(db, init, t, RetrieveNode(t, s, env),
      RetrievalSnapshots(s, env.repository.search))
  {
    var more := RetrievalSnapshots(s, env.repository.search);
    var n := RetrieveNode(t, s, env);
    RetrieveNodeCases(t, s, env);
    RetrieveFollows(db, init, t, s, 0, env);
    AllTurns(s, env.repository.search);
    if n.result.Err? && n.trace == t {
      StoppedFollows(db, init, t, n, more);
    }
  }

  lemma InvestigateNodeCases(t: Trace, s: AuditState, env: Environment)
    ensures var n := InvestigateNode(t, s, env);
      n == SaveNode(t, InvestigateStage(s, env.repository.scan), env) || (n.result.Err? && n.trace == t)
  {
  }

  lemma InvestigateFollows(db: Db, init: AuditState, t: Trace, s: AuditState, env: Environment)
    requires Consistent(db, init, t) && SameRun(init, s)
    ensures Follows(db, init, t, InvestigateNode(t, s, env), [InvestigateStage(s, env.repository.scan)])
  {
    var n := InvestigateNode(t, s, env);
    InvestigateNodeCases(t, s, env);
    SaveFollows(db, init, t, InvestigateStage(s, env.repository.scan), env);
    if n.result.Err? && n.trace == t {
      StoppedFollows(db, init, t, n, [InvestigateStage(s, env.repository.scan)]);
    }
  }

  lemma VerifyFollows(db: Db, init: AuditState, t: Trace, s: AuditState, env: Environment)
    requires Consistent(db, init, t) && SameRun(init, s)
    ensures Follows(db, init, t, VerifyNode(t, s, env), [VerifyStage(s)])
  {
    SaveFollows(db, init, t, VerifyStage(s), env);
  }

  lemma AssembleNodeCases(t: Trace, s: AuditState, env: Environment)
    ensures var n := AssembleNode(t, s, env);
      n == SaveNode(t, GraphStage(s), env) || (n.result.Err? && n.trace == t)
  {
  }

  lemma AssembleFollows(db: Db, init: AuditState, t: Trace, s: AuditState, env: Environment)
    requires Consistent(db, init, t) && SameRun(init, s)
    ensures Follows(db, init, t, AssembleNode(t, s, env), [GraphStage(s)])
  {
    var n := AssembleNode(t, s, env);
    AssembleNodeCases(t, s, env);
    SaveFollows(db, init, t, GraphStage(s), env);
    if n.result.Err? && n.trace == t {
      StoppedFollows(db, init, t, n, [GraphStage(s)]);
    }
  }

  lemma CompleteFollows(db: Db, init: AuditState, t: Trace, s: AuditState, env: Environment)
    requires Consistent(db, init, t) && SameRun(init, s)
    ensures Follows(db, init, t, CompleteNode(t, s, env), [CompleteStage(s)])
  {
    SaveFollows(db, init, t, CompleteStage(s), env);
  }

  /** What holds of each of the first nodes and its snapshots holds of the node with each number. */
  lemma CheckingNodesKeep(
      kept: (Node, seq<AuditState>) -> bool, k: nat, t: Trace, s: AuditState, actions: seq<ActionItem>,
      env: Environment)
    requires k < 4
    requires k == 0 ==> kept(LoadNode(t, s, env), [LoadActions(s, actions)])
    requires k == 1 ==> kept(CompileNode(t, s, env), [CompileStage(s, env.classify)])
    requires k == 2 ==> kept(RetrieveNode(t, s, env), RetrievalSnapshots(s, env.repository.search))
    requires k == 3 ==> kept(InvestigateNode(t, s, env), [InvestigateStage(s, env.repository.scan)])
    ensures kept(NodesOf(env)(k, t, s), PlanOf(actions, env)(k, s))
  {
  }

  lemma ClosingNodesKeep(
      kept: (Node, seq<AuditState>) -> bool, k: nat, t: Trace, s: AuditState, actions: seq<ActionItem>,
      env: Environment)
    requires 4 <= k < 7
    requires k == 4 ==> kept(VerifyNode(t, s, env), [VerifyStage(s)])
    requires k == 5 ==> kept(AssembleNode(t, s, env), [GraphStage(s)])
    requires k == 6 ==> kept(CompleteNode(t, s, env), [CompleteStage(s)])
    ensures kept(NodesOf(env)(k, t, s), PlanOf(actions, env)(k, s))
  {
  }

  lemma CheckingNodesFollow(db: Db, init: AuditState, k: nat, t: Trace, s: AuditState, env: Environment)
    requires k < 4 && Consistent(db, init, t) && SameRun(init, s)
    ensures var actions := StoredActions(db, init.summary.incidentId);
      Follows(db, init, t, NodesOf(env)(k, t, s), PlanOf(actions, env)(k, s))
  {
    match k {
      case 0 => LoadFollows(db, init, t, s, env);
      case 1 => CompileFollows(db, init, t, s, env);
      case 2 => RetrieveNodeFollows(db, init, t, s, env);
      case _ => InvestigateFollows(db, init, t, s, env);
    }
    var kept := (n: Node, more: seq<AuditState>) => Follows(db, init, t, n, more);
    CheckingNodesKeep(kept, k, t, s, StoredActions(db, init.summary.incidentId), env);
  }

  lemma ClosingNodesFollow(db: Db, init: AuditState, k: nat, t: Trace, s: AuditState, env: Environment)
    requires 4 <= k < 7 && Consistent(db, init, t) && SameRun(init, s)
    ensures var actions := StoredActions(db, init.summary.incidentId);
      Follows(db, init, t, NodesOf(env)(k, t, s), PlanOf(actions, env)(k, s))
  {
    match k {
      case 4 => VerifyFollows(db, init, t, s, env);
      case 5 => AssembleFollows(db, init, t, s, env);
      case _ => CompleteFollows(db, init, t, s, env);
    }
    var kept := (n: Node, more: seq<AuditState>) => Follows(db, init, t, n, more);
    ClosingNodesKeep(kept, k, t, s, StoredActions(db, init.summary.incidentId), env);
  }

  /** Every node follows its plan. */
  lemma NodeFollows(db: Db, init: AuditState, k: nat, t: Trace, s: AuditState, env: Environment)
    requires k < 7 && Consistent(db, init, t) && SameRun(init, s)
    ensures var actions := StoredActions(db, init.summary.incidentId);
      Follows(db, init, t, NodesOf(env)(k, t, s), PlanOf(actions, env)(k, s))
  {
    if k < 4 {
      CheckingNodesFollow(db, init, k, t, s, env);
    } else {
      ClosingNodesFollow(db, init, k, t, s, env);
    }
  }

  /** One node more, whatever the nodes are. */
  lemma StepFollows(
      db: Db, init: AuditState, start: Node, nodes: (nat, Trace, AuditState) -> Node, plan: Plan, k: nat)
    requires 0 < k && Follows(db, init, Trace(db, []), Progress(start, nodes, k - 1), Goal(init, plan, k - 1))
    requires var before := Progress(start, nodes, k - 1);
      before.result.Ok? ==>
        Follows(db, init, before.trace, nodes(k - 1, before.trace, before.result.value),
                plan(k - 1, Last(Goal(init, plan, k - 1))))
    ensures Follows(db, init, Trace(db, []), Progress(start, nodes, k), Goal(init, plan, k))
  {
    var before := Progress(start, nodes, k - 1);
    var goal := Goal(init, plan, k - 1);
    if before.result.Err? {
      FollowsMore(db, init, Trace(db, []), before, goal, plan(k - 1, Last(goal)));
    } else {
      FollowsThen(db, init, Trace(db, []), before, nodes(k - 1, before.trace, before.result.value), goal,
                  plan(k - 1, Last(goal)));
    }
  }

  /** A successful node returns a snapshot of the run. */
  lemma ResultIsLogged(db: Db, init: AuditState, n: Node, goal: seq<AuditState>)
    requires Follows(db, init, Trace(db, []), n, goal) && n.result.Ok?
    ensures goal != [] && n.result.value == Last(goal) && SameRun(init, n.result.value)
  {
    assert Last(goal) in n.trace.log;
  }

  /** The nodes so far follow their plans one after another. */
  lemma {:induction false} ProgressFollows(db: Db, init: AuditState, env: Environment, k: nat)
    requires k <= 7 && Integrity(db)
    ensures var plan := PlanOf(StoredActions(db, init.summary.incidentId), env);
      Follows(db, init, Trace(db, []), Progress(SaveNode(Trace(db, []), init, env), NodesOf(env), k),
              Goal(init, plan, k))
  {
    var plan := PlanOf(StoredActions(db, init.summary.incidentId), env);
    var start := SaveNode(Trace(db, []), init, env);
    if k == 0 {
      SaveFollows(db, init, Trace(db, []), init, env);
    } else {
      ProgressFollows(db, init, env, k - 1);
      var before := Progress(start, NodesOf(env), k - 1);
      if before.result.Ok? {
        ResultIsLogged(db, init, before, Goal(init, plan, k - 1));
        NodeFollows(db, init, k - 1, before.trace, before.result.value, env);
      }
      StepFollows(db, init, start, NodesOf(env), plan, k);
    }
  }

  /**
   Whatever goes wrong, a run has committed some first part of its snapshots, in order; the store then
   holds the last of them over what it held before.  It succeeds exactly when all were committed.
   */
  lemma RunCommitsPrefix(db: Db, init: AuditState, env: Environment)
    requires Integrity(db)
    ensures var n := Invoke(db, init, env);
      var all := Snapshots(init, StoredActions(db, init.summary.incidentId), env.classify, env.repository);
      && n.trace.log <= all && n.trace.db == After(db, n.trace.log) && Integrity(n.trace.db)
      && (n.result.Ok? <==> n.trace.log == all) && (n.result.Ok? ==> n.result.value == Last(all))
  {
    ProgressFollows(db, init, env, 7);
    GoalIsSnapshots(init, StoredActions(db, init.summary.incidentId), env);
  }
}
