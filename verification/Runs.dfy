/** Whole runs: every snapshot is accepted and stored, whatever the repository answers. */
module Runs {
  import opened Wrappers
  import opened Contracts
  import opened Compiler
  import opened Database
  import opened Persistence
  import opened Pipeline
  import opened PipelineValidity
  import opened Snapshot
  import opened Storage
  import Checks

  /** What the validator and the record types ask. */
  predicate Acceptable(s: AuditState, incident: Incident) {
    && s.summary.incidentId == incident.id
    && ActionsValid(s, incident) && Sound(s) && GraphValid(s)
  }

  /** A run may start: its incident's actions are distinct and its budget is fresh. */
  predicate Startable(init: AuditState, incident: Incident) {
    && init.summary.incidentId == incident.id && DistinctActions(incident.actions)
    && init == Initial(init.summary.id, init.summary.projectId,
                       Incident(incident.id, None, init.actions), init.summary.budget)
    && ActionsValid(init, incident)
    && init.summary.budget.Valid() && init.summary.budget.rounds == map[] && init.summary.budget.checksRun == 0
  }

  /** A snapshot of the same run that the validator accepts. */
  predicate Fits(init: AuditState, incident: Incident, t: AuditState) {
    SameRun(init, t) && Acceptable(t, incident)
  }

  predicate AllFit(init: AuditState, incident: Incident, ts: seq<AuditState>) {
    forall t :: t in ts ==> Fits(init, incident, t)
  }

  lemma AllFitConcat(init: AuditState, incident: Incident, a: seq<AuditState>, b: seq<AuditState>)
    requires AllFit(init, incident, a) && AllFit(init, incident, b)
    ensures AllFit(init, incident, a + b)
  {
  }

  ghost predicate SearchesOk(repository: Repository) {
    forall id :: HitsOk(repository.search(id))
  }

  lemma InitialAcceptable(init: AuditState, incident: Incident)
    requires Startable(init, incident)
    ensures Acceptable(init, incident)
  {
  }

  lemma LoadedAcceptable(init: AuditState, incident: Incident)
    requires Startable(init, incident)
    ensures Acceptable(LoadActions(init, incident.actions), incident)
    ensures EventsNumbered(LoadActions(init, incident.actions)) && |LoadActions(init, incident.actions).events| == 2
  {
    var t := LoadActions(init, incident.actions);
    assert EventsNumbered(t);
    NumberedIsValid(t);
  }

  lemma CompiledSearching(init: AuditState, incident: Incident, classify: Classifier)
    requires Startable(init, incident)
    ensures var t := Compiled(init, incident.actions, classify);
      && Searching(t, classify) && SameRun(init, t) && t.actions == incident.actions && t.evidence == []
      && t.summary.budget == init.summary.budget && t.summary.status == CompilingInvariants && |t.events| == 4
  {
    LoadedAcceptable(init, incident);
    var t := Compiled(init, incident.actions, classify);
    assert EventsNumbered(t);
  }

  lemma SearchingAcceptable(t: AuditState, incident: Incident, classify: Classifier)
    requires Searching(t, classify) && t.summary.status != Complete
    requires t.summary.incidentId == incident.id && t.actions == incident.actions
    ensures Acceptable(t, incident)
  {
    SearchingSound(t, classify);
  }

  lemma TurnsAcceptable(init: AuditState, incident: Incident, classify: Classifier, repository: Repository)
    requires Startable(init, incident) && SearchesOk(repository)
    ensures var compiled := Compiled(init, incident.actions, classify);
      AllFit(init, incident, TurnSnapshots(compiled, repository.search, |compiled.invariants|))
  {
    CompiledSearching(init, incident, classify);
    var compiled := Compiled(init, incident.actions, classify);
    TurnSnapshotsSound(compiled, classify, repository.search, |compiled.invariants|);
    forall t | t in TurnSnapshots(compiled, repository.search, |compiled.invariants|)
      ensures Fits(init, incident, t)
    {
      assert DuringSearch(compiled, classify, t);
      SearchingAcceptable(t, incident, classify);
    }
  }

  /** The snapshot after retrieval. */
  function RetrievedFrom(
      init: AuditState, actions: seq<ActionItem>, classify: Classifier, repository: Repository): AuditState
  {
    RetrieveStage(Compiled(init, actions, classify), repository.search)
  }

  function InvestigatedFrom(
      init: AuditState, actions: seq<ActionItem>, classify: Classifier, repository: Repository): AuditState
  {
    InvestigateStage(RetrievedFrom(init, actions, classify, repository), repository.scan)
  }

  lemma RetrievedAcceptable(init: AuditState, incident: Incident, classify: Classifier, repository: Repository)
    requires Startable(init, incident) && SearchesOk(repository)
    ensures var t := RetrievedFrom(init, incident.actions, classify, repository);
      Searching(t, classify) && SameRun(init, t) && t.actions == incident.actions && Acceptable(t, incident)
  {
    CompiledSearching(init, incident, classify);
    RetrieveSound(Compiled(init, incident.actions, classify), classify, repository.search);
    SearchingAcceptable(RetrievedFrom(init, incident.actions, classify, repository), incident, classify);
  }

  lemma InvestigateKeeps(s: AuditState, scan: CheckSpec -> Checks.Scan)
    ensures var t := InvestigateStage(s, scan);
      && SameRun(s, t) && t.actions == s.actions && t.nodes == s.nodes && t.edges == s.edges
      && t.summary.status == Investigating
  {
  }

  lemma InvestigatedFits(
      init: AuditState, incident: Incident, classify: Classifier, s: AuditState, scan: CheckSpec -> Checks.Scan)
    requires Searching(s, classify) && Fits(init, incident, s)
    ensures var t := InvestigateStage(s, scan);
      && Fits(init, incident, t)
      && AllSound(t.summary.id, t.invariants, t.evidence) && t.nodes == [] && t.edges == []
  {
    InvestigateSound(s, classify, scan);
    InvestigateKeeps(s, scan);
  }

  lemma InvestigatedAcceptable(init: AuditState, incident: Incident, classify: Classifier, repository: Repository)
    requires Startable(init, incident) && SearchesOk(repository)
    ensures var t := InvestigatedFrom(init, incident.actions, classify, repository);
      && Fits(init, incident, t)
      && AllSound(t.summary.id, t.invariants, t.evidence) && t.nodes == [] && t.edges == []
  {
    RetrievedAcceptable(init, incident, classify, repository);
    InvestigatedFits(init, incident, classify, RetrievedFrom(init, incident.actions, classify, repository),
                     repository.scan);
  }

  lemma VerifiedFits(init: AuditState, incident: Incident, s: AuditState)
    requires Fits(init, incident, s) && AllSound(s.summary.id, s.invariants, s.evidence)
    requires s.nodes == [] && s.edges == []
    ensures Fits(init, incident, VerifyStage(s))
  {
    VerifySound(s);
  }

  lemma GraphedFits(init: AuditState, incident: Incident, s: AuditState)
    requires Fits(init, incident, s)
    ensures Fits(init, incident, GraphStage(s)) && GraphStage(s).nodes != []
  {
    GraphSound(s);
  }

  lemma CompletedFits(init: AuditState, incident: Incident, s: AuditState)
    requires Fits(init, incident, s) && s.nodes != []
    ensures Fits(init, incident, CompleteStage(s))
  {
    CompleteSound(s);
  }

  lemma OpeningFits(init: AuditState, incident: Incident, classify: Classifier)
    requires Startable(init, incident)
    ensures AllFit(init, incident,
      [init, LoadActions(init, incident.actions), Compiled(init, incident.actions, classify)])
  {
    InitialAcceptable(init, incident);
    LoadedAcceptable(init, incident);
    CompiledFits(init, incident, classify);
    ThreeFit(init, incident, init, LoadActions(init, incident.actions), Compiled(init, incident.actions, classify));
  }

  lemma CompiledFits(init: AuditState, incident: Incident, classify: Classifier)
    requires Startable(init, incident)
    ensures Fits(init, incident, Compiled(init, incident.actions, classify))
  {
    CompiledSearching(init, incident, classify);
    SearchingAcceptable(Compiled(init, incident.actions, classify), incident, classify);
  }

  lemma ThreeFit(init: AuditState, incident: Incident, a: AuditState, b: AuditState, c: AuditState)
    requires Fits(init, incident, a) && Fits(init, incident, b) && Fits(init, incident, c)
    ensures AllFit(init, incident, [a, b, c])
  {
    HoldsOfThree(x => Fits(init, incident, x), a, b, c);
  }

  lemma HoldsOfThree<T>(kept: T -> bool, a: T, b: T, c: T)
    requires kept(a) && kept(b) && kept(c)
    ensures forall x :: x in [a, b, c] ==> kept(x)
  {
  }

  /** The snapshots from the checks on. */
  function Assessed(s: AuditState): seq<AuditState> {
    [s, VerifyStage(s)] + Finished(VerifyStage(s))
  }

  function Finished(v: AuditState): seq<AuditState> {
    [GraphStage(v), CompleteStage(GraphStage(v))]
  }

  lemma AllFitSnoc(init: AuditState, incident: Incident, ts: seq<AuditState>, t: AuditState)
    requires AllFit(init, incident, ts) && Fits(init, incident, t)
    ensures AllFit(init, incident, ts + [t])
  {
    assert forall x :: x in ts + [t] ==> x in ts || x == t;
  }

  lemma PairFits(init: AuditState, incident: Incident, s: AuditState, t: AuditState)
    requires Fits(init, incident, s) && Fits(init, incident, t)
    ensures AllFit(init, incident, [s, t])
  {
    AllFitSnoc(init, incident, [], s);
    AllFitSnoc(init, incident, [s], t);
    assert [s, t] == [] + [s] + [t];
  }

  lemma AssessedFits(init: AuditState, incident: Incident, s: AuditState)
    requires Fits(init, incident, s) && AllSound(s.summary.id, s.invariants, s.evidence)
    requires s.nodes == [] && s.edges == []
    ensures AllFit(init, incident, Assessed(s))
  {
    VerifiedFits(init, incident, s);
    PairFits(init, incident, s, VerifyStage(s));
    FinishedFits(init, incident, VerifyStage(s));
    AllFitConcat(init, incident, [s, VerifyStage(s)], Finished(VerifyStage(s)));
  }

  lemma FinishedFits(init: AuditState, incident: Incident, v: AuditState)
    requires Fits(init, incident, v)
    ensures AllFit(init, incident, Finished(v))
  {
    GraphedFits(init, incident, v);
    CompletedFits(init, incident, GraphStage(v));
    PairFits(init, incident, GraphStage(v), CompleteStage(GraphStage(v)));
  }

  /** The five snapshots after the retrieval loop. */
  function Closing(
      init: AuditState, actions: seq<ActionItem>, classify: Classifier, repository: Repository): seq<AuditState>
  {
    [RetrievedFrom(init, actions, classify, repository)]
    + Assessed(InvestigatedFrom(init, actions, classify, repository))
  }

  lemma ClosingFits(init: AuditState, incident: Incident, classify: Classifier, repository: Repository)
    requires Startable(init, incident) && SearchesOk(repository)
    ensures AllFit(init, incident, Closing(init, incident.actions, classify, repository))
  {
    var retrieved := RetrievedFrom(init, incident.actions, classify, repository);
    var investigated := InvestigatedFrom(init, incident.actions, classify, repository);
    RetrievedAcceptable(init, incident, classify, repository);
    InvestigatedAcceptable(init, incident, classify, repository);
    AssessedFits(init, incident, investigated);
    assert Fits(init, incident, retrieved);
    AllFitConcat(init, incident, [retrieved], Assessed(investigated));
  }

  /** Every snapshot any stage of a run stores passes the validator, those inside the retrieval loop too. */
  lemma EverySnapshotFits(init: AuditState, incident: Incident, classify: Classifier, repository: Repository)
    requires Startable(init, incident) && SearchesOk(repository)
    ensures AllFit(init, incident, Snapshots(init, incident.actions, classify, repository))
  {
    var compiled := Compiled(init, incident.actions, classify);
    var opening := [init, LoadActions(init, incident.actions), compiled];
    var turns := TurnSnapshots(compiled, repository.search, |compiled.invariants|);
    OpeningFits(init, incident, classify);
    TurnsAcceptable(init, incident, classify, repository);
    ClosingFits(init, incident, classify, repository);
    AllFitConcat(init, incident, opening, turns);
    AllFitConcat(init, incident, opening + turns, Closing(init, incident.actions, classify, repository));
  }

  // ---------------------------------------------------------------------------------------------
  // Storing the snapshots of a run one after another
  // ---------------------------------------------------------------------------------------------

  lemma {:induction false} WithoutRunConcat(a: seq<Row>, b: seq<Row>, run: Id)
    ensures WithoutRun(a + b, run) == WithoutRun(a, run) + WithoutRun(b, run)
  {
    if a == [] {
      assert a + b == b;
    } else {
      assert (a + b)[1..] == a[1..] + b;
      WithoutRunConcat(a[1..], b, run);
    }
  }

  lemma {:induction false} OwnRowsRemoved(rows: seq<Row>, run: Id)
    requires forall row :: row in rows ==> row.run == run
    ensures WithoutRun(rows, run) == []
  {
    if rows != [] {
      assert rows[0] in rows;
      OwnRowsRemoved(rows[1..], run);
    }
  }

  lemma RowsReplaced(db: Db, s: AuditState)
    ensures WithoutRun(Saved(db, s).rows, s.summary.id) == WithoutRun(db.rows, s.summary.id)
  {
    var run := s.summary.id;
    var kept, own := WithoutRun(db.rows, run), Tagged(s.summary.id, RecsOf(s));
    WithoutRunMembers(db.rows, run);
    WithoutRunConcat(kept, own, run);
    WithoutAbsentRun(kept, run);
    OwnRowsRemoved(own, run);
  }

  lemma RunRowReplaced(db: Db, s: RunSummary, t: RunSummary)
    requires s.id == t.id && s.projectId == t.projectId && s.incidentId == t.incidentId
    ensures WithRun(WithRun(db, s), t) == WithRun(db, t)
  {
    assert WithRun(WithRun(db, s), t).runs == WithRun(db, t).runs;
  }

  lemma WithRunIgnoresRows(db: Db, rows: seq<Row>, s: RunSummary)
    ensures WithRun(db.(rows := rows), s) == WithRun(db, s).(rows := rows)
  {
  }

  /** Storing a second snapshot of a run leaves what storing only the second would. */
  lemma SavedTwice(db: Db, s: AuditState, t: AuditState)
    requires SameRun(s, t)
    ensures Saved(Saved(db, s), t) == Saved(db, t)
  {
    var once := Saved(db, s);
    RowsReplaced(db, s);
    RunRowReplaced(db, s.summary, t.summary);
    WithRunIgnoresRows(WithRun(db, s.summary), once.rows, t.summary);
  }

  /** The store as a run's earlier snapshots leave it. */
  function After(db: Db, log: seq<AuditState>): Db {
    if log == [] then db else Saved(db, log[|log| - 1])
  }

  /**
   The store is consistent, no guard pins the run, the run belongs to the incident as stored, and the
   identifiers of the incident and its actions are tagged, as the key on record identifiers needs.
   */
  predicate Hosts(db: Db, init: AuditState, incident: Incident) {
    && Integrity(db) && GuardFree(db, init.summary.id) && SourcesTagged(incident.id, incident.actions)
    && LoadIncident(db, init.summary.incidentId) == Some(incident)
    && OwnershipValid(FactsFor(db, init.summary), init)
  }

  lemma FitBelongs(db: Db, init: AuditState, incident: Incident, t: AuditState)
    requires Hosts(db, init, incident) && Fits(init, incident, t)
    ensures Belongs(db, t) && KindTagged(t) && RecordsOk(t)
  {
  }

  /** A fitting snapshot is stored; the store hosts the run as before. */
  lemma FitIsStored(db: Db, init: AuditState, incident: Incident, t: AuditState)
    requires Hosts(db, init, incident) && Fits(init, incident, t)
    ensures ExecAll(db, SaveScript(t)) == Some(Saved(db, t)) && SaveEffect(db, t, None) == (Stored, Saved(db, t))
    ensures Hosts(Saved(db, t), init, incident)
  {
    FitBelongs(db, init, incident, t);
    TaggedSnapshotSaves(db, t);
    SaveKeepsIntegrity(db, t);
  }

  /**
   No stage of any run is ever refused: each snapshot is stored after any other of the same run, and
   it alone then is the run's content.
   */
  lemma NoSnapshotRefused(
      db: Db, init: AuditState, incident: Incident, classify: Classifier, repository: Repository,
      earlier: AuditState, t: AuditState)
    requires Hosts(db, init, incident) && Startable(init, incident) && SearchesOk(repository)
    requires earlier in Snapshots(init, incident.actions, classify, repository)
    requires t in Snapshots(init, incident.actions, classify, repository)
    ensures SaveEffect(db, t, None) == (Stored, Saved(db, t))
    ensures SaveEffect(Saved(db, earlier), t, None) == (Stored, Saved(db, t))
  {
    EverySnapshotFits(init, incident, classify, repository);
    FitIsStored(db, init, incident, t);
    FitIsStored(db, init, incident, earlier);
    FitIsStored(Saved(db, earlier), init, incident, t);
    SavedTwice(db, earlier, t);
  }
}
