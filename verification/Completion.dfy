/** What a complete run's last snapshot says. */
module Completion {
  import opened Wrappers
  import opened Contracts
  import opened Compiler
  import opened Pipeline
  import opened PipelineValidity
  import opened Runs
  import opened Snapshot
  import opened PipelineVerdicts
  import Checks

  /** The last snapshot of a run without failures. */
  function Final(init: AuditState, actions: seq<ActionItem>, classify: Classifier, repository: Repository): AuditState {
    CompleteStage(GraphStage(VerifyStage(InvestigatedFrom(init, actions, classify, repository))))
  }

  lemma FinalIsLast(init: AuditState, actions: seq<ActionItem>, classify: Classifier, repository: Repository)
    ensures var all := Snapshots(init, actions, classify, repository);
      all != [] && all[|all| - 1] == Final(init, actions, classify, repository)
  {
  }

  lemma {:induction false} CountsPartition(verdicts: seq<ActionVerdict>)
    ensures Count(verdicts, Verified) + Count(verdicts, Partial) + Count(verdicts, Missing)
      + Count(verdicts, Unverifiable)
         == |verdicts|
  {
    if verdicts != [] {
      CountsPartition(verdicts[..|verdicts| - 1]);
    }
  }

  function ActionSet(actions: seq<ActionItem>): set<ActionItem> {
    set a | a in actions
  }

  lemma {:induction false} ActionCount(actions: seq<ActionItem>)
    requires DistinctActions(actions)
    ensures |ActionSet(actions)| == |actions|
  {
    if actions != [] {
      var k := |actions| - 1;
      ActionCount(actions[..k]);
      assert actions == actions[..k] + [actions[k]];
      assert ActionSet(actions) == ActionSet(actions[..k]) + {actions[k]};
    }
  }

  /** Two lists of the same actions, each once, are equally long. */
  lemma SameActionsSameCount(a: seq<ActionItem>, b: seq<ActionItem>)
    requires DistinctActions(a) && DistinctActions(b)
    requires forall x :: x in a <==> x in b
    ensures |a| == |b|
  {
    ActionCount(a);
    ActionCount(b);
    assert ActionSet(a) == ActionSet(b);
  }

  lemma FinalRecords(init: AuditState, actions: seq<ActionItem>, classify: Classifier, repository: Repository)
    ensures var s, t := Final(init, actions, classify, repository), RetrievedFrom(init, actions, classify, repository);
      && s.actions == t.actions && s.invariants == t.invariants && s.specs == t.specs
      && s.results == t.results + ResultsOf(t, repository.scan, t.specs)
      && s.verdicts == VerdictsOf(InvestigatedFrom(init, actions, classify, repository))
      && s.summary.status == Complete && s.summary.failure == None
      && s.summary.completedActions == |s.verdicts| && s.summary.verdictCounts == Counts(s.verdicts)
      && s.summary.budget == t.summary.budget.(checksRun := t.summary.budget.checksRun + |t.specs|)
      && s.summary.totalActions == t.summary.totalActions
      && |s.events| == |t.events| + 6
  {
  }

  /** The requirements with a specification that a check supports. */
  function SearchedIds(s: AuditState): set<Id> {
    Searched(s, |s.invariants|)
  }

  lemma SearchedSame(a: AuditState, b: AuditState)
    requires a.invariants == b.invariants && a.specs == b.specs
    ensures SearchedIds(a) == SearchedIds(b)
  {
  }

  lemma FinalCounts(init: AuditState, incident: Incident, classify: Classifier, repository: Repository)
    requires Startable(init, incident) && SearchesOk(repository)
    ensures var s := Final(init, incident.actions, classify, repository);
      && s.actions == incident.actions && s.summary.totalActions == |incident.actions|
      && s.summary.budget == init.summary.budget.(rounds := OneRoundEach(SearchedIds(s)), checksRun := |s.specs|)
      && |s.results| == |s.specs|
      && |s.events| == 12 + |SearchedIds(s)|
  {
    var compiled := Compiled(init, incident.actions, classify);
    CompiledSearching(init, incident, classify);
    RetrieveSound(compiled, classify, repository.search);
    FinalRecords(init, incident.actions, classify, repository);
    var t := RetrievedFrom(init, incident.actions, classify, repository);
    SameActionsSameCount(init.actions, incident.actions);
    RetrievedSpecs(compiled, classify, repository.search);
    SearchedSame(compiled, Final(init, incident.actions, classify, repository));
    RetrievedTotal(compiled, classify, repository.search);
  }

  lemma RetrievedSpecs(s: AuditState, classify: Classifier, search: Id -> seq<Retrieved>)
    requires Searching(s, classify) && s.evidence == [] && s.summary.budget.rounds == map[]
    requires forall id :: HitsOk(search(id))
    ensures RetrieveStage(s, search).specs == s.specs && RetrieveStage(s, search).invariants == s.invariants
    ensures RetrieveStage(s, search).results == []
  {
    TurnsSound(s, classify, search, |s.invariants|);
  }

  lemma RetrievedTotal(s: AuditState, classify: Classifier, search: Id -> seq<Retrieved>)
    requires Searching(s, classify) && s.evidence == [] && s.summary.budget.rounds == map[]
    requires forall id :: HitsOk(search(id))
    ensures RetrieveStage(s, search).summary.totalActions == s.summary.totalActions
  {
    TurnsSound(s, classify, search, |s.invariants|);
  }

  /** The retrieved snapshot, whatever came before. */
  lemma RetrievedReady(init: AuditState, incident: Incident, classify: Classifier, repository: Repository)
    requires Startable(init, incident) && SearchesOk(repository)
    ensures var t := RetrievedFrom(init, incident.actions, classify, repository);
      Searching(t, classify) && FromRetrieval(t) && t.results == []
  {
    RetrievedAcceptable(init, incident, classify, repository);
    CompiledSearching(init, incident, classify);
    RetrievedOnly(Compiled(init, incident.actions, classify), classify, repository.search);
  }

  /** One verdict for each action, in order, each decided by its action's outcomes. */
  lemma VerdictsInOrder(t: AuditState, classify: Classifier, scan: CheckSpec -> Checks.Scan)
    requires Searching(t, classify) && FromRetrieval(t)
    ensures var verdicts := VerdictsOf(InvestigateStage(t, scan));
      && |verdicts| == |t.actions|
      && forall i :: 0 <= i < |t.actions| ==>
           && verdicts[i].actionId == t.actions[i].id
           && verdicts[i].verdict == Decided(ActionResults(t, scan, t.actions[i].id))
  {
    var s := InvestigateStage(t, scan);
    forall i | 0 <= i < |t.actions|
      ensures VerdictFor(s, s.actions[i]).verdict == Decided(ActionResults(t, scan, t.actions[i].id))
    {
      VerdictsDecided(t, classify, scan, i);
    }
  }

  /** One result for each specification, in order. */
  lemma ResultsInOrder(t: AuditState, classify: Classifier, scan: CheckSpec -> Checks.Scan)
    requires CompiledFrom(t, classify)
    ensures var results := ResultsOf(t, scan, t.specs);
      |results| == |t.specs| && forall i :: 0 <= i < |t.specs| ==> results[i].specId == t.specs[i].id
  {
    forall i | 0 <= i < |t.specs| ensures ExecutionOf(t, scan, t.specs[i]).result.specId == t.specs[i].id {
      ExecutionSound(t, classify, scan, t.specs[i]);
    }
  }

  lemma FinalVerdicts(init: AuditState, incident: Incident, classify: Classifier, repository: Repository)
    requires Startable(init, incident) && SearchesOk(repository)
    ensures var s, t := Final(init, incident.actions, classify, repository),
                        RetrievedFrom(init, incident.actions, classify, repository);
      && |s.verdicts| == |s.actions|
      && (forall i :: 0 <= i < |s.actions| ==>
            && s.verdicts[i].actionId == s.actions[i].id
            && s.verdicts[i].verdict == Decided(ActionResults(t, repository.scan, s.actions[i].id)))
  {
    FinalRecords(init, incident.actions, classify, repository);
    RetrievedReady(init, incident, classify, repository);
    VerdictsInOrder(RetrievedFrom(init, incident.actions, classify, repository), classify, repository.scan);
  }

  lemma FinalResults(init: AuditState, incident: Incident, classify: Classifier, repository: Repository)
    requires Startable(init, incident) && SearchesOk(repository)
    ensures var s := Final(init, incident.actions, classify, repository);
      |s.results| == |s.specs| && forall i :: 0 <= i < |s.specs| ==> s.results[i].specId == s.specs[i].id
  {
    FinalRecords(init, incident.actions, classify, repository);
    RetrievedReady(init, incident, classify, repository);
    ResultsInOrder(RetrievedFrom(init, incident.actions, classify, repository), classify, repository.scan);
  }

  /**
   At completion there is one verdict for each action, in order, and the verdict counts add up to the
   number of actions; every specification was checked once; exactly the requirements with a supported
   specification used a round, and they used one; and the events are numbered 0 to 11 plus the number
   of those requirements.
   */
  lemma CompleteRun(init: AuditState, incident: Incident, classify: Classifier, repository: Repository)
    requires Startable(init, incident) && SearchesOk(repository)
    ensures var s := Final(init, incident.actions, classify, repository);
      && s.summary.status == Complete && s.summary.failure == None
      && |s.verdicts| == |s.actions| == s.summary.totalActions == s.summary.completedActions
      && Count(s.verdicts, Verified) + Count(s.verdicts, Partial) + Count(s.verdicts, Missing)
         + Count(s.verdicts, Unverifiable) == s.summary.totalActions
      && s.summary.verdictCounts == Counts(s.verdicts)
      && s.summary.budget.checksRun == |s.specs| == |s.results|
      && s.summary.budget.rounds == OneRoundEach(SearchedIds(s))
      && (forall i :: 0 <= i < |s.actions| ==> s.verdicts[i].actionId == s.actions[i].id)
      && (forall i :: 0 <= i < |s.specs| ==> s.results[i].specId == s.specs[i].id)
      && EventsNumbered(s) && |s.events| == 12 + |SearchedIds(s)|
  {
    var s := Final(init, incident.actions, classify, repository);
    FinalRecords(init, incident.actions, classify, repository);
    FinalCounts(init, incident, classify, repository);
    FinalVerdicts(init, incident, classify, repository);
    FinalResults(init, incident, classify, repository);
    CountsPartition(s.verdicts);
    FinalNumbered(init, incident, classify, repository);
  }

  lemma FinalNumbered(init: AuditState, incident: Incident, classify: Classifier, repository: Repository)
    requires Startable(init, incident) && SearchesOk(repository)
    ensures EventsNumbered(Final(init, incident.actions, classify, repository))
  {
    EverySnapshotFits(init, incident, classify, repository);
    FinalIsLast(init, incident.actions, classify, repository);
    var all := Snapshots(init, incident.actions, classify, repository);
    assert Fits(init, incident, all[|all| - 1]);
  }
}
