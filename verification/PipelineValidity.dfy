/** Every snapshot that a run stores satisfies the validator. */
module PipelineValidity {
  import opened Wrappers
  import opened Contracts
  import opened Compiler
  import opened Persistence
  import opened Pipeline
  import opened Snapshot
  import opened Verifier
  import Budget
  import Checks
  import EvidenceGraph

  // ---------------------------------------------------------------------------------------------
  // What every snapshot of a run satisfies
  // ---------------------------------------------------------------------------------------------

  /** Events are numbered from zero, and named by the run, the number and the kind. */
  predicate EventsNumbered(s: AuditState) {
    forall i :: 0 <= i < |s.events| ==>
      && s.events[i].sequence == i && s.events[i].runId == s.summary.id
      && s.events[i].id == EventId(s.summary.id, i, s.events[i].eventType)
  }

  /** The requirement that the owner of evidence belongs to. */
  function RequirementNamed(owner: Id): Id {
    if owner.CheckId? then owner.requirement else owner
  }

  /** Evidence of the run, about the requirement that its identifier names. */
  predicate EvidenceSound(run: Id, requirements: seq<CompiledInvariant>, e: Evidence) {
    && e.runId == run && RequirementOwned(requirements, e.invariantId, e.actionId)
    && e.id.EvidenceId? && e.invariantId == RequirementNamed(e.id.owner)
    && LinesOrdered(e.lineStart, e.lineEnd)
  }

  predicate AllSound(run: Id, requirements: seq<CompiledInvariant>, evidence: seq<Evidence>) {
    forall e :: e in evidence ==> EvidenceSound(run, requirements, e)
  }

  /** A snapshot the validator accepts but for its graph. */
  predicate Sound(s: AuditState) {
    ContentValid(s) && RecordsTagged(s) && RecordsOk(s) && EventsNumbered(s)
  }

  /** The snapshot holds what was compiled from its actions. */
  predicate CompiledFrom(s: AuditState, classify: Classifier) {
    && DistinctActions(s.actions)
    && s.invariants == Requirements(s.actions, classify)
    && s.specs == AllSpecs(s.actions, classify)
  }

  predicate SameRun(a: AuditState, b: AuditState) {
    && a.summary.id == b.summary.id && a.summary.projectId == b.summary.projectId
    && a.summary.incidentId == b.summary.incidentId
  }

  /** The records of two snapshots are the same; marks, graphs and events may differ. */
  predicate SameRecords(a: AuditState, b: AuditState) {
    && SameRun(a, b) && a.summary.budget == b.summary.budget
    && a.actions == b.actions && a.invariants == b.invariants && a.specs == b.specs
    && a.evidence == b.evidence && a.results == b.results && a.verdicts == b.verdicts
  }

  lemma NumberedIsValid(s: AuditState)
    requires EventsNumbered(s)
    ensures EventsValid(s)
  {
    forall e | e in s.events ensures e.runId == s.summary.id {
      var i :| 0 <= i < |s.events| && s.events[i] == e;
    }
  }

  lemma SameRecordsSound(a: AuditState, b: AuditState)
    requires Sound(a) && SameRecords(a, b) && EventsNumbered(b)
    ensures Sound(b)
  {
    NumberedIsValid(b);
  }

  lemma EventIsNumbered(s: AuditState, eventType: EventType, stage: RunStatus)
    requires EventsNumbered(s)
    ensures EventsNumbered(WithEvent(s, eventType, stage))
  {
  }

  // ---------------------------------------------------------------------------------------------
  // Compilation
  // ---------------------------------------------------------------------------------------------

  lemma CompiledRequirements(s: AuditState, classify: Classifier)
    requires CompiledFrom(s, classify)
    ensures RequirementsValid(s)
    ensures forall i :: i in s.invariants ==> i.id.InvariantId?
  {
    RequirementsDistinct(s.actions, classify);
    forall i | i in s.invariants ensures HasAction(s.actions, i.actionId) && i.id.InvariantId? {
      var k :| 0 <= k < |s.invariants| && s.invariants[k] == i;
      assert s.actions[k] in s.actions;
    }
  }

  /** A compiled specification is named by its requirement, which was compiled too. */
  lemma SpecNamed(s: AuditState, classify: Classifier, spec: CheckSpec)
    requires CompiledFrom(s, classify) && spec in s.specs
    ensures spec.id.CheckId? && spec.id.requirement == spec.invariantId
    ensures HasRequirement(s.invariants, spec.invariantId)
  {
    var action := SpecOwner(s.actions, classify, spec);
    SpecShape(action, classify(action));
    var k :| 0 <= k < |s.actions| && s.actions[k] == action;
    assert s.invariants[k] in s.invariants;
  }

  lemma CompiledSpecs(s: AuditState, classify: Classifier)
    requires CompiledFrom(s, classify)
    ensures SpecsValid(s)
  {
    CompiledSpecsDistinct(s.actions, classify);
    forall spec | spec in s.specs ensures HasRequirement(s.invariants, spec.invariantId) {
      SpecNamed(s, classify, spec);
    }
  }

  /** A snapshot without results: its requirements are compiled and its evidence and rounds are about them. */
  predicate Searching(s: AuditState, classify: Classifier) {
    && CompiledFrom(s, classify) && EventsNumbered(s)
    && AllSound(s.summary.id, s.invariants, s.evidence) && DistinctEvidence(s.evidence)
    && s.results == [] && s.verdicts == [] && s.nodes == [] && s.edges == []
    && s.summary.budget.Valid()
    && RoundsValid(s)
  }

  lemma SearchingSound(s: AuditState, classify: Classifier)
    requires Searching(s, classify)
    ensures Sound(s)
  {
    CompiledRequirements(s, classify);
    CompiledSpecs(s, classify);
    NumberedIsValid(s);
  }

  // ---------------------------------------------------------------------------------------------
  // Retrieval
  // ---------------------------------------------------------------------------------------------

  /** The first `k` requirements that retrieval searches for. */
  function Searched(s: AuditState, k: nat): set<Id>
    requires k <= |s.invariants|
  {
    set j | 0 <= j < k && Searchable(s.specs, s.invariants[j].id) :: s.invariants[j].id
  }

  function OneRoundEach(ids: set<Id>): map<Id, nat> {
    map id | id in ids :: 1
  }

  predicate OwnedBelow(s: AuditState, evidence: seq<Evidence>, k: nat)
    requires k <= |s.invariants|
  {
    forall e :: e in evidence ==>
      e.role == SupportingOnly && e.id.EvidenceId? && exists j :: 0 <= j < k && s.invariants[j].id == e.id.owner
  }

  /** The loop after `k` requirements: one round for each that was searched, and sound evidence. */
  predicate LoopSound(s: AuditState, l: Loop, k: nat)
    requires k <= |s.invariants|
  {
    && l.state == s.(summary := l.state.summary, evidence := l.state.evidence, events := l.state.events)
    && l.state.summary == s.summary.(status := Indexing, budget := l.usage)
    && l.usage == s.summary.budget.(rounds := OneRoundEach(Searched(s, k)))
    && EventsNumbered(l.state) && |l.state.events| == |s.events| + 1 + |Searched(s, k)|
    && AllSound(s.summary.id, s.invariants, l.evidence) && DistinctEvidence(l.evidence)
    && OwnedBelow(s, l.evidence, k)
  }

  lemma SearchedStep(s: AuditState, k: nat)
    requires 0 < k <= |s.invariants| && RequirementsValid(s)
    ensures var id := s.invariants[k - 1].id;
      && id !in Searched(s, k - 1)
      && Searched(s, k) == Searched(s, k - 1) + if Searchable(s.specs, id) then {id} else {}
  {
  }

  lemma HitsSound(s: AuditState, requirement: CompiledInvariant, hits: seq<Retrieved>)
    requires HitsOk(hits) && requirement in s.invariants && requirement.id.InvariantId?
    ensures var evidence := HitsEvidence(s.summary.id, requirement, hits);
      && AllSound(s.summary.id, s.invariants, evidence) && DistinctEvidence(evidence)
      && forall e :: e in evidence ==> e.id.owner == requirement.id && e.role == SupportingOnly
  {
    var evidence := HitsEvidence(s.summary.id, requirement, hits);
    forall e | e in evidence
      ensures EvidenceSound(s.summary.id, s.invariants, e) && e.id.owner == requirement.id && e.role == SupportingOnly
    {
      var i :| 0 <= i < |hits| && evidence[i] == e;
      assert hits[i] in hits;
    }
    forall i, j | 0 <= i < j < |evidence| ensures evidence[i].id != evidence[j].id {
      assert evidence[i].id.parts[0] == IdPart(hits[i].chunkId) && evidence[j].id.parts[0] == IdPart(hits[j].chunkId);
    }
  }

  lemma DistinctConcat(a: seq<Evidence>, b: seq<Evidence>)
    requires DistinctEvidence(a) && DistinctEvidence(b)
    requires forall x, y :: x in a && y in b ==> x.id != y.id
    ensures DistinctEvidence(a + b)
  {
    forall i, j | 0 <= i < j < |a + b| ensures (a + b)[i].id != (a + b)[j].id {
      if i < |a| <= j {
        assert (a + b)[i] in a && (a + b)[j] in b;
      }
    }
  }

  lemma RoundStep(s: AuditState, usage: BudgetUsage, k: nat)
    requires 0 < k <= |s.invariants| && RequirementsValid(s) && Searchable(s.specs, s.invariants[k - 1].id)
    requires usage.rounds == OneRoundEach(Searched(s, k - 1))
    ensures usage.rounds[s.invariants[k - 1].id := 1] == OneRoundEach(Searched(s, k))
    ensures Budget.RoundsUsed(usage, s.invariants[k - 1].id) == 0
  {
    SearchedStep(s, k);
  }

  /** A search reserves a round: there is one left, and the requirement has none yet. */
  lemma RoundReserved(s: AuditState, usage: BudgetUsage, k: nat)
    requires 0 < k <= |s.invariants| && RequirementsValid(s) && Searchable(s.specs, s.invariants[k - 1].id)
    requires usage == s.summary.budget.(rounds := OneRoundEach(Searched(s, k - 1))) && 1 <= usage.roundLimit
    ensures Budget.WithRound(usage, s.invariants[k - 1].id)
         == Some(s.summary.budget.(rounds := OneRoundEach(Searched(s, k))))
  {
    RoundStep(s, usage, k);
  }

  /** The snapshot kept for a turn is sound. */
  lemma ReservedSearching(s: AuditState, classify: Classifier, l: Loop, k: nat)
    requires Searching(s, classify) && 0 < k <= |s.invariants| && LoopSound(s, l, k - 1)
    requires Searchable(s.specs, s.invariants[k - 1].id)
    ensures Searching(Reserved(l, s.invariants[k - 1]), classify)
  {
    var r := Reserved(l, s.invariants[k - 1]);
    CompiledRequirements(s, classify);
    RoundReserved(s, l.usage, k);
    ReservedNumbered(l, s.invariants[k - 1]);
    UsedRoundsOwned(s, r.summary.budget, k);
    SameSearching(s, r, classify);
  }

  lemma ReservedNumbered(l: Loop, requirement: CompiledInvariant)
    requires EventsNumbered(l.state)
    ensures EventsNumbered(Reserved(l, requirement))
  {
  }

  /** A snapshot of the same compiled records, with sound evidence and owned rounds. */
  lemma SameSearching(s: AuditState, r: AuditState, classify: Classifier)
    requires Searching(s, classify)
    requires r == s.(summary := r.summary, evidence := r.evidence, events := r.events) && r.summary.id == s.summary.id
    requires EventsNumbered(r) && AllSound(s.summary.id, s.invariants, r.evidence) && DistinctEvidence(r.evidence)
    requires r.summary.budget.Valid() && forall id :: id in r.summary.budget.rounds ==> HasRequirement(s.invariants, id)
    ensures Searching(r, classify)
  {
  }

  /** Rounds used by the first requirements belong to requirements. */
  lemma UsedRoundsOwned(s: AuditState, usage: BudgetUsage, k: nat)
    requires k <= |s.invariants|
    requires forall id :: id in usage.rounds ==> exists j :: 0 <= j < k && s.invariants[j].id == id
    ensures forall id :: id in usage.rounds ==> HasRequirement(s.invariants, id)
  {
    forall id | id in usage.rounds ensures HasRequirement(s.invariants, id) {
      var j :| 0 <= j < k && s.invariants[j].id == id;
      assert s.invariants[j] in s.invariants;
    }
  }

  /** The evidence after a turn; requirements have distinct identifiers, so no record repeats. */
  lemma TurnEvidence(s: AuditState, evidence: seq<Evidence>, hits: seq<Retrieved>, k: nat)
    requires 0 < k <= |s.invariants| && RequirementsValid(s) && s.invariants[k - 1].id.InvariantId? && HitsOk(hits)
    requires AllSound(s.summary.id, s.invariants, evidence) && DistinctEvidence(evidence)
      && OwnedBelow(s, evidence, k - 1)
    ensures var after := evidence + HitsEvidence(s.summary.id, s.invariants[k - 1], hits);
      AllSound(s.summary.id, s.invariants, after) && DistinctEvidence(after) && OwnedBelow(s, after, k)
  {
    var requirement := s.invariants[k - 1];
    HitsSound(s, requirement, hits);
    var found := HitsEvidence(s.summary.id, requirement, hits);
    forall x, y | x in evidence && y in found ensures x.id != y.id {
      var j :| 0 <= j < k - 1 && s.invariants[j].id == x.id.owner;
      assert s.invariants[j].id != requirement.id;
    }
    DistinctConcat(evidence, found);
  }

  lemma TurnSound(s: AuditState, search: Id -> seq<Retrieved>, l: Loop, k: nat)
    requires 0 < k <= |s.invariants| && RequirementsValid(s) && s.invariants[k - 1].id.InvariantId?
    requires 1 <= s.summary.budget.roundLimit
    requires LoopSound(s, l, k - 1) && HitsOk(search(s.invariants[k - 1].id))
    ensures LoopSound(s, Turn(l, s.invariants[k - 1], search), k)
  {
    var requirement := s.invariants[k - 1];
    SearchedStep(s, k);
    if Searchable(s.specs, requirement.id) {
      RoundReserved(s, l.usage, k);
      EventIsNumbered(
        l.state.(summary := Reserved(l, requirement).summary, evidence := l.evidence), BudgetConsumed, Indexing);
      TurnEvidence(s, l.evidence, search(requirement.id), k);
    }
  }

  lemma {:induction false} TurnsSound(s: AuditState, classify: Classifier, search: Id -> seq<Retrieved>, k: nat)
    requires Searching(s, classify) && s.evidence == [] && s.summary.budget.rounds == map[] && k <= |s.invariants|
    requires forall id :: HitsOk(search(id))
    ensures LoopSound(s, Turns(s, search, k), k)
  {
    if k == 0 {
      assert s.summary.budget == s.summary.budget.(rounds := OneRoundEach(Searched(s, 0)));
    } else {
      TurnsSound(s, classify, search, k - 1);
      CompiledRequirements(s, classify);
      TurnSound(s, search, Turns(s, search, k - 1), k);
    }
  }

  /** A snapshot of the same run and actions, taken while searching. */
  predicate DuringSearch(s: AuditState, classify: Classifier, t: AuditState) {
    Searching(t, classify) && SameRun(s, t) && t.summary.status == Indexing && t.actions == s.actions
  }

  predicate AllDuringSearch(s: AuditState, classify: Classifier, ts: seq<AuditState>) {
    forall t :: t in ts ==> DuringSearch(s, classify, t)
  }

  /** The snapshot of the last turn, if its requirement is searched for. */
  lemma LastTurnSnapshot(s: AuditState, classify: Classifier, search: Id -> seq<Retrieved>, k: nat)
    requires Searching(s, classify) && s.evidence == [] && s.summary.budget.rounds == map[] && 0 < k <= |s.invariants|
    requires forall id :: HitsOk(search(id))
    requires Searchable(s.specs, s.invariants[k - 1].id)
    ensures DuringSearch(s, classify, Reserved(Turns(s, search, k - 1), s.invariants[k - 1]))
  {
    TurnsSound(s, classify, search, k - 1);
    ReservedSearching(s, classify, Turns(s, search, k - 1), k);
  }

  lemma DuringSearchSnoc(s: AuditState, classify: Classifier, ts: seq<AuditState>, t: AuditState)
    requires AllDuringSearch(s, classify, ts) && DuringSearch(s, classify, t)
    ensures AllDuringSearch(s, classify, ts + [t])
  {
    assert forall x :: x in ts + [t] ==> x in ts || x == t;
  }

  /** Every snapshot stored while retrieving is sound. */
  lemma {:induction false} TurnSnapshotsSound(s: AuditState, classify: Classifier, search: Id -> seq<Retrieved>, k: nat)
    requires Searching(s, classify) && s.evidence == [] && s.summary.budget.rounds == map[] && k <= |s.invariants|
    requires forall id :: HitsOk(search(id))
    ensures AllDuringSearch(s, classify, TurnSnapshots(s, search, k))
  {
    if k > 0 {
      TurnSnapshotsSound(s, classify, search, k - 1);
      var before := TurnSnapshots(s, search, k - 1);
      if Searchable(s.specs, s.invariants[k - 1].id) {
        LastTurnSnapshot(s, classify, search, k);
        DuringSearchSnoc(s, classify, before, Reserved(Turns(s, search, k - 1), s.invariants[k - 1]));
      } else {
        assert TurnSnapshots(s, search, k) == before;
      }
    }
  }

  /** One snapshot is stored for each requirement that is searched for. */
  lemma {:induction false} TurnSnapshotCount(s: AuditState, search: Id -> seq<Retrieved>, k: nat)
    requires RequirementsValid(s) && k <= |s.invariants|
    ensures |TurnSnapshots(s, search, k)| == |Searched(s, k)|
  {
    if k > 0 {
      TurnSnapshotCount(s, search, k - 1);
      SearchedStep(s, k);
    }
  }

  /** Evidence kept by retrieval: once each, owned by a requirement, and only supporting. */
  predicate FromRetrieval(s: AuditState) {
    && DistinctEvidence(s.evidence)
    && AllSound(s.summary.id, s.invariants, s.evidence)
    && forall e :: e in s.evidence ==> e.role == SupportingOnly && e.id.owner.InvariantId?
  }

  lemma RetrievedOnly(s: AuditState, classify: Classifier, search: Id -> seq<Retrieved>)
    requires Searching(s, classify) && s.evidence == [] && s.summary.budget.rounds == map[]
    requires forall id :: HitsOk(search(id))
    ensures FromRetrieval(RetrieveStage(s, search))
  {
    var n := |s.invariants|;
    TurnsSound(s, classify, search, n);
    CompiledRequirements(s, classify);
    var evidence := Turns(s, search, n).evidence;
    DeduplicateMembers(evidence);
    forall e | e in Deduplicate(evidence) ensures e.role == SupportingOnly && e.id.owner.InvariantId? {
      var j :| 0 <= j < n && s.invariants[j].id == e.id.owner;
      assert s.invariants[j] in s.invariants;
    }
  }

  lemma RetrieveSound(s: AuditState, classify: Classifier, search: Id -> seq<Retrieved>)
    requires Searching(s, classify) && s.evidence == [] && s.summary.budget.rounds == map[]
    requires forall id :: HitsOk(search(id))
    ensures var r := RetrieveStage(s, search);
      && Searching(r, classify) && SameRun(s, r) && r.actions == s.actions && r.summary.status == Indexing
      && r.summary.budget == s.summary.budget.(rounds := OneRoundEach(Searched(s, |s.invariants|)))
      && |r.events| == |s.events| + 2 + |Searched(s, |s.invariants|)|
  {
    var n := |s.invariants|;
    TurnsSound(s, classify, search, n);
    var l := Turns(s, search, n);
    var r := RetrieveStage(s, search);
    DeduplicateMembers(l.evidence);
    assert EventsNumbered(r);
    forall id | id in r.summary.budget.rounds ensures HasRequirement(r.invariants, id) {
      var j :| 0 <= j < n && s.invariants[j].id == id;
      assert s.invariants[j] in r.invariants;
    }
  }

  // ---------------------------------------------------------------------------------------------
  // Checks
  // ---------------------------------------------------------------------------------------------

  lemma {:induction false} ActionForOwns(requirements: seq<CompiledInvariant>, id: Id)
    requires HasRequirement(requirements, id)
    ensures RequirementOwned(requirements, id, ActionFor(requirements, id))
  {
    var k := |requirements| - 1;
    assert requirements == requirements[..k] + [requirements[k]];
    if requirements[k].id != id {
      ActionForOwns(requirements[..k], id);
    }
  }

  /** A check's evidence is sound, and its result names the specification. */
  lemma ExecutionSound(s: AuditState, classify: Classifier, scan: CheckSpec -> Checks.Scan, spec: CheckSpec)
    requires CompiledFrom(s, classify) && spec in s.specs
    ensures var x := ExecutionOf(s, scan, spec);
      && AllSound(s.summary.id, s.invariants, x.evidence)
      && (forall e :: e in x.evidence ==> e.invariantId == spec.invariantId)
      && x.result.id == ResultId(s.summary.id, spec.id) && x.result.runId == s.summary.id
      && x.result.specId == spec.id && x.result.invariantId == spec.invariantId
      && x.result.evidenceIds == Checks.EvidenceIds(x.evidence)
      && ResultConsistent(x.result)
  {
    var action := ActionFor(s.invariants, spec.invariantId);
    SpecNamed(s, classify, spec);
    ActionForOwns(s.invariants, spec.invariantId);
    Checks.ExecutionsWellReported(spec, s.summary.id, action, scan(spec));
    var x := ExecutionOf(s, scan, spec);
    assert Checks.WellReported(spec, s.summary.id, action, x);
    forall e | e in x.evidence ensures EvidenceSound(s.summary.id, s.invariants, e) {
      assert Checks.Owned(spec, s.summary.id, action, e);
    }
  }

  lemma {:induction false} CheckEvidenceMembers(
      s: AuditState, scan: CheckSpec -> Checks.Scan, specs: seq<CheckSpec>, e: Evidence)
    ensures e in CheckEvidence(s, scan, specs) <==>
      exists spec :: spec in specs && e in ExecutionOf(s, scan, spec).evidence
  {
    if specs != [] {
      var k := |specs| - 1;
      CheckEvidenceMembers(s, scan, specs[..k], e);
      assert specs == specs[..k] + [specs[k]];
    }
  }

  /** The evidence collected by retrieval and by every check, before de-duplication. */
  function Collected(s: AuditState, scan: CheckSpec -> Checks.Scan): seq<Evidence> {
    s.evidence + CheckEvidence(s, scan, s.specs)
  }

  lemma CollectedSound(s: AuditState, classify: Classifier, scan: CheckSpec -> Checks.Scan)
    requires CompiledFrom(s, classify) && AllSound(s.summary.id, s.invariants, s.evidence)
    ensures AllSound(s.summary.id, s.invariants, Collected(s, scan))
    ensures AllSound(s.summary.id, s.invariants, Deduplicate(Collected(s, scan)))
  {
    forall e | e in CheckEvidence(s, scan, s.specs) ensures EvidenceSound(s.summary.id, s.invariants, e) {
      CheckEvidenceMembers(s, scan, s.specs, e);
      var spec :| spec in s.specs && e in ExecutionOf(s, scan, spec).evidence;
      ExecutionSound(s, classify, scan, spec);
    }
    DeduplicateMembers(Collected(s, scan));
  }

  /** What a result cites is kept, and is about the result's requirement. */
  lemma CitedIsKept(s: AuditState, classify: Classifier, scan: CheckSpec -> Checks.Scan, spec: CheckSpec, id: Id)
    requires CompiledFrom(s, classify) && AllSound(s.summary.id, s.invariants, s.evidence) && spec in s.specs
    requires id in ExecutionOf(s, scan, spec).result.evidenceIds
    ensures EvidenceAbout(Deduplicate(Collected(s, scan)), id, spec.invariantId)
  {
    var x := ExecutionOf(s, scan, spec);
    ExecutionSound(s, classify, scan, spec);
    var k :| 0 <= k < |x.evidence| && Checks.EvidenceIds(x.evidence)[k] == id;
    var e := x.evidence[k];
    CheckEvidenceMembers(s, scan, s.specs, e);
    assert e in Collected(s, scan);
    CollectedSound(s, classify, scan);
    DeduplicateMembers(Collected(s, scan));
    var d :| d in Deduplicate(Collected(s, scan)) && d.id == e.id;
    assert EvidenceSound(s.summary.id, s.invariants, d) && EvidenceSound(s.summary.id, s.invariants, e);
  }

  lemma ResultSound(s: AuditState, classify: Classifier, scan: CheckSpec -> Checks.Scan, spec: CheckSpec)
    requires CompiledFrom(s, classify) && AllSound(s.summary.id, s.invariants, s.evidence) && spec in s.specs
    ensures var r := ExecutionOf(s, scan, spec).result;
      && r.id == ResultId(s.summary.id, spec.id) && r.runId == s.summary.id && ResultConsistent(r)
      && SpecOwned(s.specs, r.specId, r.invariantId)
      && forall id :: id in r.evidenceIds ==> EvidenceAbout(Deduplicate(Collected(s, scan)), id, r.invariantId)
  {
    var r := ExecutionOf(s, scan, spec).result;
    ExecutionSound(s, classify, scan, spec);
    forall id | id in r.evidenceIds ensures EvidenceAbout(Deduplicate(Collected(s, scan)), id, r.invariantId) {
      CitedIsKept(s, classify, scan, spec, id);
    }
  }

  /** The results of a run's checks, over the evidence that is kept. */
  lemma ResultsSound(s: AuditState, classify: Classifier, scan: CheckSpec -> Checks.Scan)
    requires CompiledFrom(s, classify) && AllSound(s.summary.id, s.invariants, s.evidence)
    ensures var t := s.(results := ResultsOf(s, scan, s.specs), evidence := Deduplicate(Collected(s, scan)));
      && ResultsValid(t) && (forall r :: r in t.results ==> ResultConsistent(r) && r.id.ResultId?)
  {
    var results, evidence := ResultsOf(s, scan, s.specs), Deduplicate(Collected(s, scan));
    CompiledSpecs(s, classify);
    forall i | 0 <= i < |results|
      ensures results[i].id == ResultId(s.summary.id, s.specs[i].id) && results[i].runId == s.summary.id
      ensures SpecOwned(s.specs, results[i].specId, results[i].invariantId) && ResultConsistent(results[i])
      ensures forall id :: id in results[i].evidenceIds ==> EvidenceAbout(evidence, id, results[i].invariantId)
    {
      ResultSound(s, classify, scan, s.specs[i]);
    }
  }

  predicate EvidenceAccepted(s: AuditState) {
    EvidenceValid(s) && forall e :: e in s.evidence ==> e.id.EvidenceId? && LinesOrdered(e.lineStart, e.lineEnd)
  }

  predicate ResultsAccepted(s: AuditState) {
    ResultsValid(s) && forall r :: r in s.results ==> r.id.ResultId? && ResultConsistent(r)
  }

  predicate VerdictsAccepted(s: AuditState) {
    VerdictsValid(s) && forall v :: v in s.verdicts ==> v.id.VerdictId? && Traceable(v)
  }

  /** Replacing evidence, results and verdicts by accepted ones keeps a snapshot sound. */
  lemma ReplacedSound(s: AuditState, t: AuditState)
    requires Sound(s) && SameRun(s, t)
    requires t.actions == s.actions && t.invariants == s.invariants && t.specs == s.specs
    requires t.summary.budget.Valid() && t.summary.budget.rounds == s.summary.budget.rounds
    requires EvidenceAccepted(t) && ResultsAccepted(t) && VerdictsAccepted(t) && EventsNumbered(t)
    ensures Sound(t)
  {
    NumberedIsValid(t);
    assert RequirementsValid(t) && SpecsValid(t);
  }

  lemma SoundEvidenceAccepted(s: AuditState)
    requires AllSound(s.summary.id, s.invariants, s.evidence) && DistinctEvidence(s.evidence)
    ensures EvidenceAccepted(s)
  {
  }

  lemma InvestigateSound(s: AuditState, classify: Classifier, scan: CheckSpec -> Checks.Scan)
    requires Searching(s, classify)
    ensures var r := InvestigateStage(s, scan);
      && Sound(r) && CompiledFrom(r, classify) && SameRun(s, r)
      && AllSound(r.summary.id, r.invariants, r.evidence)
  {
    var r := InvestigateStage(s, scan);
    SearchingSound(s, classify);
    CollectedSound(s, classify, scan);
    DeduplicateMembers(Collected(s, scan));
    SoundEvidenceAccepted(r);
    InvestigatedResults(s, classify, scan);
    InvestigatedNumbered(s, scan);
    ReplacedSound(s, r);
  }

  lemma InvestigatedResults(s: AuditState, classify: Classifier, scan: CheckSpec -> Checks.Scan)
    requires Searching(s, classify)
    ensures ResultsAccepted(InvestigateStage(s, scan)) && VerdictsAccepted(InvestigateStage(s, scan))
  {
    ResultsSound(s, classify, scan);
    var t := s.(results := ResultsOf(s, scan, s.specs), evidence := Deduplicate(Collected(s, scan)));
    InvestigatedRecords(s, scan);
    SameResultsAccepted(t, InvestigateStage(s, scan));
  }

  lemma InvestigatedRecords(s: AuditState, scan: CheckSpec -> Checks.Scan)
    requires s.results == []
    ensures var r := InvestigateStage(s, scan);
      && r.summary.id == s.summary.id && r.specs == s.specs && r.verdicts == s.verdicts
      && r.results == ResultsOf(s, scan, s.specs) && r.evidence == Deduplicate(Collected(s, scan))
  {
  }

  lemma SameResultsAccepted(s: AuditState, t: AuditState)
    requires ResultsAccepted(s) && t.verdicts == []
    requires t.summary.id == s.summary.id && t.specs == s.specs && t.evidence == s.evidence && t.results == s.results
    ensures ResultsAccepted(t) && VerdictsAccepted(t)
  {
  }

  lemma InvestigatedNumbered(s: AuditState, scan: CheckSpec -> Checks.Scan)
    requires EventsNumbered(s)
    ensures EventsNumbered(InvestigateStage(s, scan))
    ensures |InvestigateStage(s, scan).events| == |s.events| + 2
  {
  }

  // ---------------------------------------------------------------------------------------------
  // Verdicts
  // ---------------------------------------------------------------------------------------------

  lemma {:induction false} RequirementsForMembers(requirements: seq<CompiledInvariant>, action: Id)
    ensures forall i :: i in RequirementsFor(requirements, action) <==> i in requirements && i.actionId == action
  {
    if requirements != [] {
      RequirementsForMembers(requirements[1..], action);
      assert requirements == [requirements[0]] + requirements[1..];
    }
  }

  /** Evidence about a requirement of an action carries that action. */
  lemma EvidenceOfAction(s: AuditState, action: Id, e: Evidence)
    requires RequirementsValid(s) && EvidenceSound(s.summary.id, s.invariants, e)
    requires HasRequirement(RequirementsFor(s.invariants, action), e.invariantId)
    ensures e.actionId == action
  {
    RequirementsForMembers(s.invariants, action);
    var a :| a in RequirementsFor(s.invariants, action) && a.id == e.invariantId;
    var b :| b in s.invariants && b.id == e.invariantId && b.actionId == e.actionId;
    var i :| 0 <= i < |s.invariants| && s.invariants[i] == a;
    var j :| 0 <= j < |s.invariants| && s.invariants[j] == b;
  }

  lemma VerdictOwned(s: AuditState, action: ActionItem)
    requires RequirementsValid(s) && AllSound(s.summary.id, s.invariants, s.evidence)
    ensures var v := VerdictFor(s, action);
      && (forall id :: id in v.invariantIds ==> RequirementOwned(s.invariants, id, action.id))
      && (forall c :: c in v.citations ==> CitationOwned(s.evidence, c, action.id))
  {
    var own := RequirementsFor(s.invariants, action.id);
    var v := VerdictFor(s, action);
    RequirementsForMembers(s.invariants, action.id);
    forall id | id in v.invariantIds ensures RequirementOwned(s.invariants, id, action.id) {
      var i :| 0 <= i < |own| && own[i].id == id;
      assert own[i] in own;
    }
    forall c | c in v.citations ensures CitationOwned(s.evidence, c, action.id) {
      var e := CitationsSound(RelevantEvidence(s.evidence, own), {}, c);
      RelevantEvidenceMembers(s.evidence, own);
      EvidenceOfAction(s, action.id, e);
    }
  }

  lemma VerdictsSound(s: AuditState)
    requires RequirementsValid(s) && AllSound(s.summary.id, s.invariants, s.evidence) && DistinctActions(s.actions)
    ensures var t := s.(verdicts := VerdictsOf(s));
      && VerdictsValid(t) && (forall v :: v in t.verdicts ==> Traceable(v) && v.id.VerdictId?)
  {
    var verdicts := VerdictsOf(s);
    forall i | 0 <= i < |verdicts|
      ensures verdicts[i].id == VerdictId(s.summary.id, s.actions[i].id) && HasAction(s.actions, verdicts[i].actionId)
      ensures forall id :: id in verdicts[i].invariantIds ==> RequirementOwned(s.invariants, id, verdicts[i].actionId)
      ensures forall c :: c in verdicts[i].citations ==> CitationOwned(s.evidence, c, verdicts[i].actionId)
      ensures Traceable(verdicts[i])
    {
      assert s.actions[i] in s.actions;
      VerdictOwned(s, s.actions[i]);
    }
  }

  lemma VerifiedNumbered(s: AuditState)
    requires EventsNumbered(s)
    ensures EventsNumbered(VerifyStage(s))
    ensures |VerifyStage(s).events| == |s.events| + 2
  {
  }

  lemma RecordsAccepted(s: AuditState, t: AuditState)
    requires Sound(s) && t.summary.id == s.summary.id
    requires t.invariants == s.invariants && t.specs == s.specs && t.evidence == s.evidence && t.results == s.results
    ensures EvidenceAccepted(t) && ResultsAccepted(t)
  {
  }

  lemma VerifySound(s: AuditState)
    requires Sound(s) && DistinctActions(s.actions) && AllSound(s.summary.id, s.invariants, s.evidence)
    ensures Sound(VerifyStage(s))
  {
    VerdictsSound(s);
    VerifiedNumbered(s);
    RecordsAccepted(s, VerifyStage(s));
    ReplacedSound(s, VerifyStage(s));
  }

  // ---------------------------------------------------------------------------------------------
  // The graph
  // ---------------------------------------------------------------------------------------------

  lemma ItemOwnerKnown(r: EvidenceGraph.Records, requirement: CompiledInvariant)
    requires requirement in r.invariants
    ensures EvidenceGraph.Key(InvariantNode, requirement.id) in EvidenceGraph.ShapeKeys(EvidenceGraph.ShapeOf(r))
  {
    var i :| 0 <= i < |r.invariants| && r.invariants[i] == requirement;
    assert EvidenceGraph.InvariantItems(r)[i] in EvidenceGraph.Items(r);
  }

  lemma ActionOwnerKnown(r: EvidenceGraph.Records, id: Id)
    requires HasAction(r.actions, id)
    ensures EvidenceGraph.Key(ActionNode, id) in EvidenceGraph.ShapeKeys(EvidenceGraph.ShapeOf(r))
  {
    var a :| a in r.actions && a.id == id;
    var i :| 0 <= i < |r.actions| && r.actions[i] == a;
    assert EvidenceGraph.ActionItems(r)[i] in EvidenceGraph.Items(r);
  }

  lemma RequirementOwnerKnown(s: AuditState, id: Id)
    requires HasRequirement(s.invariants, id)
    ensures EvidenceGraph.Key(InvariantNode, id) in EvidenceGraph.ShapeKeys(EvidenceGraph.ShapeOf(RecordsOf(s)))
  {
    var i :| i in s.invariants && i.id == id;
    ItemOwnerKnown(RecordsOf(s), i);
  }

  /** Every record of a consistent snapshot has its owner in the snapshot. */
  lemma RecordsOwnersKnown(s: AuditState)
    requires ContentValid(s)
    ensures EvidenceGraph.OwnersKnown(EvidenceGraph.ShapeOf(RecordsOf(s)))
  {
    var r := RecordsOf(s);
    var keys := EvidenceGraph.ShapeKeys(EvidenceGraph.ShapeOf(r));
    forall item | item in EvidenceGraph.InvariantItems(r) ensures item.owner in keys {
      var k :| 0 <= k < |s.invariants| && EvidenceGraph.InvariantItems(r)[k] == item;
      assert s.invariants[k] in s.invariants;
      ActionOwnerKnown(r, s.invariants[k].actionId);
    }
    forall item | item in EvidenceGraph.EvidenceItems(r) ensures item.owner in keys {
      var k :| 0 <= k < |s.evidence| && EvidenceGraph.EvidenceItems(r)[k] == item;
      assert s.evidence[k] in s.evidence;
      RequirementOwnerKnown(s, s.evidence[k].invariantId);
    }
    forall item | item in EvidenceGraph.CheckItems(r) ensures item.owner in keys {
      var k :| 0 <= k < |s.results| && EvidenceGraph.CheckItems(r)[k] == item;
      assert s.results[k] in s.results;
      var spec :| spec in s.specs && spec.id == s.results[k].specId && spec.invariantId == s.results[k].invariantId;
      RequirementOwnerKnown(s, spec.invariantId);
    }
    forall item | item in EvidenceGraph.VerdictItems(r) ensures item.owner in keys {
      var k :| 0 <= k < |s.verdicts| && EvidenceGraph.VerdictItems(r)[k] == item;
      assert s.verdicts[k] in s.verdicts;
      ActionOwnerKnown(r, s.verdicts[k].actionId);
    }
  }

  lemma GraphAccepted(s: AuditState)
    requires ContentValid(s) && DistinctActions(s.actions)
    ensures EvidenceGraph.DistinctRecords(RecordsOf(s))
    ensures GraphValid(GraphStage(s)) && GraphStage(s).nodes != []
  {
    RecordsOwnersKnown(s);
    EvidenceGraph.RecordsBuild(s.summary.id, RecordsOf(s));
    assert RecordsOf(GraphStage(s)) == RecordsOf(s);
  }

  lemma GraphSound(s: AuditState)
    requires Sound(s) && DistinctActions(s.actions)
    ensures Sound(GraphStage(s)) && GraphValid(GraphStage(s)) && GraphStage(s).nodes != []
  {
    GraphAccepted(s);
    assert EventsNumbered(GraphStage(s));
    SameRecordsSound(s, GraphStage(s));
  }

  lemma CompleteSound(s: AuditState)
    requires Sound(s) && GraphValid(s) && s.nodes != []
    ensures Sound(CompleteStage(s)) && GraphValid(CompleteStage(s))
  {
    assert EventsNumbered(CompleteStage(s));
    SameRecordsSound(s, CompleteStage(s));
    assert RecordsOf(CompleteStage(s)) == RecordsOf(s);
  }
}
