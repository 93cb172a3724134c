/** When a stored snapshot can no longer be loaded, and when the schema refuses a valid one. */
module Reloading {
  import opened Wrappers
  import opened Contracts
  import opened Snapshot
  import opened Database
  import opened Persistence
  import EvidenceGraph

  // ---------------------------------------------------------------------------------------------
  // A changed incident
  // ---------------------------------------------------------------------------------------------

  predicate SameActionIds(a: seq<ActionItem>, b: seq<ActionItem>) {
    && (forall x :: x in a ==> HasAction(b, x.id))
    && (forall x :: x in b ==> HasAction(a, x.id))
  }

  lemma ActionKeys(r: EvidenceGraph.Records, id: Id)
    ensures EvidenceGraph.Key(ActionNode, id) in EvidenceGraph.ShapeKeys(EvidenceGraph.ShapeOf(r)) <==>
      HasAction(r.actions, id)
  {
    var key := EvidenceGraph.Key(ActionNode, id);
    var items := EvidenceGraph.ActionItems(r);
    if HasAction(r.actions, id) {
      var a :| a in r.actions && a.id == id;
      var i :| 0 <= i < |r.actions| && r.actions[i] == a;
      assert items[i] in items && items[i].key == key;
      assert items[i] in EvidenceGraph.Items(r);
    }
    if key in EvidenceGraph.ShapeKeys(EvidenceGraph.ShapeOf(r)) {
      var item :| item in EvidenceGraph.Items(r) && item.key == key;
      assert item in items;
      var i :| 0 <= i < |r.actions| && items[i] == item;
      assert r.actions[i] in r.actions;
    }
  }

  lemma ActionItemsById(a: EvidenceGraph.Records, b: EvidenceGraph.Records)
    requires a.incident == b.incident
    requires forall x :: x in a.actions ==> HasAction(b.actions, x.id)
    ensures forall item :: item in EvidenceGraph.ActionItems(a) ==> item in EvidenceGraph.ActionItems(b)
  {
    forall item | item in EvidenceGraph.ActionItems(a) ensures item in EvidenceGraph.ActionItems(b) {
      var i :| 0 <= i < |a.actions| && EvidenceGraph.ActionItems(a)[i] == item;
      assert a.actions[i] in a.actions;
      var x :| x in b.actions && x.id == a.actions[i].id;
      var j :| 0 <= j < |b.actions| && b.actions[j] == x;
      assert EvidenceGraph.ActionItems(b)[j] == item;
    }
  }

  /** The snapshot as it would be assembled after the incident's actions became `actions`. */
  function Reassembled(db: Db, s: AuditState, actions: seq<ActionItem>): AuditState {
    s.(summary := Overlay(db, s.summary),
       actions := ActionsOf(actions, s.summary.incidentId, db.position),
       events := SortEvents(s.events))
  }

  lemma SameIdsSameGraph(db: Db, s: AuditState, actions: seq<ActionItem>)
    requires Belongs(db, s) && (s.nodes != [] || s.edges != [])
    requires SameActionIds(s.actions, ActionsOf(actions, s.summary.incidentId, db.position))
    ensures GraphValid(Reassembled(db, s, actions))
  {
    var a, b := RecordsOf(s), RecordsOf(Reassembled(db, s, actions));
    ActionItemsById(a, b);
    ActionItemsById(b, a);
    assert EvidenceGraph.InvariantItems(a) == EvidenceGraph.InvariantItems(b);
    assert EvidenceGraph.EvidenceItems(a) == EvidenceGraph.EvidenceItems(b);
    assert EvidenceGraph.CheckItems(a) == EvidenceGraph.CheckItems(b);
    assert EvidenceGraph.VerdictItems(a) == EvidenceGraph.VerdictItems(b);
    EvidenceGraph.AcceptsIgnoresOrder(s.nodes, s.edges, s.summary.id, EvidenceGraph.ShapeOf(a),
                                      EvidenceGraph.ShapeOf(b));
  }

  lemma SameIdsSameContent(db: Db, s: AuditState, actions: seq<ActionItem>)
    requires Belongs(db, s)
    requires SameActionIds(s.actions, ActionsOf(actions, s.summary.incidentId, db.position))
    ensures ContentValid(Reassembled(db, s, actions))
  {
    var r := Reassembled(db, s, actions);
    SortEventsSorts(s.events);
    SortEventsDistinct(s.events);
    forall id | HasAction(s.actions, id) ensures HasAction(r.actions, id) {
      var a :| a in s.actions && a.id == id;
    }
    assert RequirementsValid(r) && SpecsValid(r) && EvidenceValid(r) && ResultsValid(r) && RoundsValid(r);
  }

  lemma AcceptedActionIds(a: AuditState, b: AuditState)
    requires GraphValid(a) && GraphValid(b) && a.nodes == b.nodes && a.edges == b.edges && a.nodes != []
    ensures SameActionIds(a.actions, b.actions)
  {
    forall id ensures HasAction(a.actions, id) <==> HasAction(b.actions, id) {
      ActionKeys(RecordsOf(a), id);
      ActionKeys(RecordsOf(b), id);
    }
    assert forall x :: x in a.actions ==> HasAction(a.actions, x.id);
    assert forall x :: x in b.actions ==> HasAction(b.actions, x.id);
  }

  /** Loading after the change comes down to validating the reassembled snapshot. */
  lemma ReloadIsValidation(db: Db, s: AuditState, actions: seq<ActionItem>)
    requires OwnershipValid(FactsFor(db, s.summary), s) && RecordsOk(s)
    ensures var after := Saved(db, s).(actions := actions);
      LoadState(after, s.summary.id).Loaded? <==>
      ValidSnapshot(FactsFor(after, s.summary), Reassembled(db, s, actions))
  {
    var after := Saved(db, s).(actions := actions);
    AssembleSaved(db, s, ActionsOf(actions, s.summary.incidentId, db.position));
    assert LoadIncident(after, s.summary.incidentId).Some?;
    assert Overlay(after, s.summary) == Overlay(db, s.summary);
  }

  lemma SameIdsValid(db: Db, s: AuditState, actions: seq<ActionItem>)
    requires Belongs(db, s) && s.nodes != [] && DistinctActions(actions)
    requires SameActionIds(s.actions, ActionsOf(actions, s.summary.incidentId, db.position))
    ensures ValidSnapshot(FactsFor(Saved(db, s).(actions := actions), s.summary), Reassembled(db, s, actions))
  {
    SameIdsSameContent(db, s, actions);
    SameIdsSameGraph(db, s, actions);
    ActionsOfDistinct(actions, s.summary.incidentId, db.position);
  }

  /**
   A stored snapshot with a graph does not always load again: once its incident has been stored with
   other actions it loads exactly when no action identifier was added or removed.
   */
  lemma ReloadIff(db: Db, s: AuditState, actions: seq<ActionItem>)
    requires Belongs(db, s) && RecordsOk(s) && s.nodes != [] && DistinctActions(actions)
    ensures LoadState(Saved(db, s).(actions := actions), s.summary.id).Loaded? <==>
      SameActionIds(s.actions, ActionsOf(actions, s.summary.incidentId, db.position))
  {
    var r := Reassembled(db, s, actions);
    ReloadIsValidation(db, s, actions);
    if SameActionIds(s.actions, r.actions) {
      SameIdsValid(db, s, actions);
    }
    if ValidSnapshot(FactsFor(Saved(db, s).(actions := actions), s.summary), r) {
      AcceptedActionIds(s, r);
    }
  }

  // ---------------------------------------------------------------------------------------------
  // Identifiers without kinds
  // ---------------------------------------------------------------------------------------------

  /** An incident and its only action that happen to share an identifier. */
  function SharedId(): Id {
    Opaque("x")
  }

  function SharedAction(): ActionItem {
    ActionItem(SharedId(), SharedId(), "t", 0)
  }

  function SharedDb(): Db {
    Db(_ => 0, {Opaque("p")}, map[SharedId() := Some(Opaque("p"))], [SharedAction()],
       map[], map[], [], map[], map[], [])
  }

  function SharedSummary(): RunSummary {
    RunSummary(Opaque("r"), Opaque("p"), SharedId(), Verifying, 1, 0, map[], 0.0, BudgetUsage(0, 6, 3, map[], 0), None)
  }

  function SharedRecords(): EvidenceGraph.Records {
    EvidenceGraph.Records(SharedId(), [SharedAction()], [], [], [], [])
  }

  function SharedState(): AuditState {
    var shape := EvidenceGraph.ShapeOf(SharedRecords());
    AuditState(SharedSummary(), [SharedAction()], [], [], [], [], [],
               EvidenceGraph.NodesOf(Opaque("r"), shape), EvidenceGraph.EdgesOf(Opaque("r"), shape), [])
  }

  lemma SharedGraphAccepted()
    ensures var s := SharedState();
      EvidenceGraph.Accepts(s.nodes, s.edges, Opaque("r"), EvidenceGraph.ShapeOf(SharedRecords()))
  {
    var r := SharedRecords();
    EvidenceGraph.ShapeIsDistinct(r);
    assert EvidenceGraph.Items(r) == [EvidenceGraph.ActionEntry(r, SharedAction())];
    assert EvidenceGraph.OwnersKnown(EvidenceGraph.ShapeOf(r));
    EvidenceGraph.BuiltGraphAccepted(Opaque("r"), EvidenceGraph.ShapeOf(r));
  }

  lemma SharedStateBelongs()
    ensures Belongs(SharedDb(), SharedState())
  {
    SharedGraphAccepted();
    SharedActionsLoad();
    SharedRecordsAre();
    SharedContentValid();
  }

  lemma SharedRecordsAre()
    ensures RecordsOf(SharedState()) == SharedRecords()
  {
  }

  lemma SharedContentValid()
    ensures ContentValid(SharedState()) && SharedState().nodes != []
  {
  }

  lemma SharedNodesCollide()
    ensures !DistinctRecordIds(SharedState().nodes)
  {
    var r := SharedRecords();
    var nodes := SharedState().nodes;
    assert EvidenceGraph.Items(r) == [EvidenceGraph.ActionEntry(r, SharedAction())];
    assert nodes[0].recordId == SharedId();
    assert nodes[1] == EvidenceGraph.NodeOf(Opaque("r"), EvidenceGraph.Key(ActionNode, SharedId()));
  }

  /** Without kind-tagged identifiers the validator accepts a snapshot that the schema refuses. */
  lemma UntaggedIdsTripSchema()
    ensures Integrity(SharedDb()) && GuardFree(SharedDb(), Opaque("r"))
    ensures Belongs(SharedDb(), SharedState())
    ensures ExecAll(SharedDb(), SaveScript(SharedState())) == None
  {
    SharedStateBelongs();
    SharedNodesCollide();
    SaveOutcome(SharedDb(), SharedState());
  }

  lemma SharedActionsLoad()
    ensures ActionsOf(SharedDb().actions, SharedId(), SharedDb().position) == [SharedAction()]
  {
    var actions := SharedDb().actions;
    assert actions[..0] == [];
    assert ActionsOf(actions[..0], SharedId(), SharedDb().position) == [];
  }
}
