/** What the save transaction does to a consistent database, and what loading gets back. */
module Persistence {
  import opened Wrappers
  import opened Contracts
  import opened Snapshot
  import opened Database
  import EvidenceGraph

  // ---------------------------------------------------------------------------------------------
  // Deleting a run's rows
  // ---------------------------------------------------------------------------------------------

  predicate NoneIn(rows: seq<Row>, run: Id, table: Table) {
    forall row :: row in rows && row.run == run ==> TableOf(row.rec) != table
  }

  lemma {:induction false} WithoutTableMembers(rows: seq<Row>, run: Id, table: Table)
    ensures forall row :: row in WithoutTable(rows, run, table) <==>
      row in rows && !(row.run == run && TableOf(row.rec) == table)
  {
    if rows != [] {
      WithoutTableMembers(rows[1..], run, table);
      assert rows == [rows[0]] + rows[1..];
    }
  }

  lemma {:induction false} WithoutRunMembers(rows: seq<Row>, run: Id)
    ensures forall row :: row in WithoutRun(rows, run) <==> row in rows && row.run != run
  {
    if rows != [] {
      WithoutRunMembers(rows[1..], run);
      assert rows == [rows[0]] + rows[1..];
    }
  }

  lemma {:induction false} WithoutRunAfterTable(rows: seq<Row>, run: Id, table: Table)
    ensures WithoutRun(WithoutTable(rows, run, table), run) == WithoutRun(rows, run)
  {
    if rows != [] {
      WithoutRunAfterTable(rows[1..], run, table);
      var kept := WithoutTable(rows[1..], run, table);
      if !(rows[0].run == run && TableOf(rows[0].rec) == table) {
        assert ([rows[0]] + kept)[1..] == kept;
      } else {
        assert WithoutTable(rows, run, table) == kept;
        assert WithoutRun(rows, run) == WithoutRun(rows[1..], run);
      }
    }
  }

  lemma {:induction false} WithoutAbsentRun(rows: seq<Row>, run: Id)
    requires forall row :: row in rows ==> row.run != run
    ensures WithoutRun(rows, run) == rows
  {
    if rows != [] {
      assert rows[0] in rows;
      WithoutAbsentRun(rows[1..], run);
    }
  }

  lemma RequirementSurvives(rows: seq<Row>, run: Id, table: Table, owner: Id, id: Id)
    requires HasRequirementRow(rows, owner, id) && (owner != run || table != Requirements)
    ensures HasRequirementRow(WithoutTable(rows, run, table), owner, id)
  {
    WithoutTableMembers(rows, run, table);
    var a :| a in rows && a.run == owner && a.rec.RequirementRec? && a.rec.requirement.id == id;
    assert a in WithoutTable(rows, run, table);
  }

  lemma SpecSurvives(rows: seq<Row>, run: Id, table: Table, owner: Id, id: Id, requirement: Id)
    requires HasSpecRow(rows, owner, id, requirement) && (owner != run || table != Specs)
    ensures HasSpecRow(WithoutTable(rows, run, table), owner, id, requirement)
  {
    WithoutTableMembers(rows, run, table);
    var a :| a in rows && a.run == owner && a.rec.SpecRec? && a.rec.spec.id == id
      && a.rec.spec.invariantId == requirement;
    assert a in WithoutTable(rows, run, table);
  }

  lemma NodeSurvives(rows: seq<Row>, run: Id, table: Table, owner: Id, id: Id)
    requires HasNodeRow(rows, owner, id) && (owner != run || table != Nodes)
    ensures HasNodeRow(WithoutTable(rows, run, table), owner, id)
  {
    WithoutTableMembers(rows, run, table);
    var a :| a in rows && a.run == owner && a.rec.NodeRec? && a.rec.node.id == id;
    assert a in WithoutTable(rows, run, table);
  }

  /** A record's references survive the deletion of a table it does not refer to. */
  lemma RefsSurvive(actions: seq<ActionItem>, rows: seq<Row>, run: Id, table: Table, owner: Id, rec: Rec)
    requires RefsHold(actions, rows, owner, rec)
    requires owner != run || !RefersTo(TableOf(rec), table)
    ensures RefsHold(actions, WithoutTable(rows, run, table), owner, rec)
  {
    match rec
    case EdgeRec(e) =>
      NodeSurvives(rows, run, table, owner, e.source);
      NodeSurvives(rows, run, table, owner, e.target);
    case ResultRec(r) =>
      RequirementSurvives(rows, run, table, owner, r.invariantId);
      SpecSurvives(rows, run, table, owner, r.specId, r.invariantId);
    case EvidenceRec(e) => OwnedSurvives(rows, run, table, owner, e.invariantId, e.actionId);
    case SpecRec(s) => RequirementSurvives(rows, run, table, owner, s.invariantId);
    case _ =>
  }

  lemma OwnedSurvives(rows: seq<Row>, run: Id, table: Table, owner: Id, id: Id, action: Id)
    requires HasOwnedRequirementRow(rows, owner, id, action) && (owner != run || table != Requirements)
    ensures HasOwnedRequirementRow(WithoutTable(rows, run, table), owner, id, action)
  {
    WithoutTableMembers(rows, run, table);
    var a :| a in rows && a.run == owner && a.rec.RequirementRec?
      && a.rec.requirement.id == id && a.rec.requirement.actionId == action;
    assert a in WithoutTable(rows, run, table);
  }

  /** Emptying a table succeeds once the tables that refer to it are empty. */
  lemma DeleteSucceeds(db: Db, run: Id, table: Table)
    requires AllRefsHold(db, db.rows) && AllGuardRefsHold(db, db.rows)
    requires GuardFree(db, run)
    requires forall row :: row in db.rows && row.run == run && TableOf(row.rec) != table ==>
      !RefersTo(TableOf(row.rec), table)
    ensures Exec(db, DeleteRows(table, run)) == Some(db.(rows := WithoutTable(db.rows, run, table)))
  {
    var left := WithoutTable(db.rows, run, table);
    WithoutTableMembers(db.rows, run, table);
    forall row | row in left ensures RefsHold(db.actions, left, row.run, row.rec) {
      RefsSurvive(db.actions, db.rows, run, table, row.run, row.rec);
    }
    forall id | id in db.guards ensures GuardRefsHold(db, left, db.guards[id]) {
      OwnedSurvives(db.rows, run, table, db.guards[id].runId, db.guards[id].invariantId, db.guards[id].actionId);
    }
  }

  /** Every table is emptied after the tables that refer to it. */
  predicate ChildrenFirst(tables: seq<Table>, gone: set<Table>)
    decreases |tables|
  {
    tables == [] ||
    (&& (forall child: Table :: RefersTo(child, tables[0]) ==> child in gone)
     && ChildrenFirst(tables[1..], gone + {tables[0]}))
  }

  /** When a table's turn comes, the tables that refer to it are empty. */
  lemma TurnComes(rows: seq<Row>, run: Id, tables: seq<Table>, gone: set<Table>)
    requires tables != [] && ChildrenFirst(tables, gone) && forall table :: table in gone ==> NoneIn(rows, run, table)
    ensures forall row :: row in rows && row.run == run && TableOf(row.rec) != tables[0] ==>
      !RefersTo(TableOf(row.rec), tables[0])
  {
    forall row | row in rows && row.run == run ensures !RefersTo(TableOf(row.rec), tables[0]) {
      assert RefersTo(TableOf(row.rec), tables[0]) ==> TableOf(row.rec) in gone;
    }
  }

  lemma TableGone(rows: seq<Row>, run: Id, table: Table, gone: set<Table>)
    requires forall other :: other in gone ==> NoneIn(rows, run, other)
    ensures forall other :: other in gone + {table} ==> NoneIn(WithoutTable(rows, run, table), run, other)
  {
    WithoutTableMembers(rows, run, table);
  }

  lemma {:induction false} DeletionsSucceed(db: Db, run: Id, tables: seq<Table>, gone: set<Table>)
    requires AllRefsHold(db, db.rows) && AllGuardRefsHold(db, db.rows) && GuardFree(db, run)
    requires ChildrenFirst(tables, gone)
    requires forall table :: table in gone ==> NoneIn(db.rows, run, table)
    ensures var after := ExecAll(db, Deletions(run, tables));
      && after.Some? && after.value == db.(rows := after.value.rows)
      && WithoutRun(after.value.rows, run) == WithoutRun(db.rows, run)
      && (forall table :: table in gone || table in tables ==> NoneIn(after.value.rows, run, table))
    decreases |tables|
  {
    if tables != [] {
      var table := tables[0];
      TurnComes(db.rows, run, tables, gone);
      DeleteSucceeds(db, run, table);
      var next := db.(rows := WithoutTable(db.rows, run, table));
      TableGone(db.rows, run, table, gone);
      WithoutRunAfterTable(db.rows, run, table);
      assert Deletions(run, tables)[1..] == Deletions(run, tables[1..]);
      assert tables == [tables[0]] + tables[1..];
      DeletionsSucceed(next, run, tables[1..], gone + {table});
    }
  }

  lemma DeletionOrderIsSafe()
    ensures ChildrenFirst(DELETION_ORDER, {})
  {
    var d := DELETION_ORDER;
    assert d[1..] == [Nodes, Results, Verdicts, EvidenceTable, Specs, Requirements, Events, Budgets];
    assert d[1..][1..] == [Results, Verdicts, EvidenceTable, Specs, Requirements, Events, Budgets];
    assert d[1..][1..][1..] == [Verdicts, EvidenceTable, Specs, Requirements, Events, Budgets];
    assert d[1..][1..][1..][1..] == [EvidenceTable, Specs, Requirements, Events, Budgets];
    LastDeletionsAreSafe({Edges} + {Nodes} + {Results} + {Verdicts});
    assert {} + {Edges} + {Nodes} + {Results} + {Verdicts} == {Edges} + {Nodes} + {Results} + {Verdicts};
  }

  lemma LastDeletionsAreSafe(gone: set<Table>)
    requires {Edges, Nodes, Results, Verdicts} <= gone
    ensures ChildrenFirst([EvidenceTable, Specs, Requirements, Events, Budgets], gone)
  {
    var d := [EvidenceTable, Specs, Requirements, Events, Budgets];
    assert d[1..] == [Specs, Requirements, Events, Budgets];
    assert d[1..][1..] == [Requirements, Events, Budgets];
    assert d[1..][1..][1..] == [Events, Budgets];
    assert d[1..][1..][1..][1..] == [Budgets];
    assert d[1..][1..][1..][1..][1..] == [];
  }

  lemma TableListed(table: Table)
    ensures table in DELETION_ORDER
  {
    var d := DELETION_ORDER;
    match table
    case Edges => assert d[0] == table;
    case Nodes => assert d[1] == table;
    case Results => assert d[2] == table;
    case Verdicts => assert d[3] == table;
    case EvidenceTable => assert d[4] == table;
    case Specs => assert d[5] == table;
    case Requirements => assert d[6] == table;
    case Events => assert d[7] == table;
    case Budgets => assert d[8] == table;
  }

  lemma EmptyTablesEmptyRun(rows: seq<Row>, run: Id)
    requires forall table :: table in DELETION_ORDER ==> NoneIn(rows, run, table)
    ensures WithoutRun(rows, run) == rows
  {
    forall row | row in rows ensures row.run != run {
      TableListed(TableOf(row.rec));
    }
    WithoutAbsentRun(rows, run);
  }

  /** Emptying all nine tables leaves exactly the other runs' rows. */
  lemma AllDeletionsSucceed(db: Db, run: Id)
    requires AllRefsHold(db, db.rows) && AllGuardRefsHold(db, db.rows) && GuardFree(db, run)
    ensures ExecAll(db, Deletions(run, DELETION_ORDER)) == Some(db.(rows := WithoutRun(db.rows, run)))
  {
    DeletionOrderIsSafe();
    DeletionsSucceed(db, run, DELETION_ORDER, {});
    EmptyTablesEmptyRun(ExecAll(db, Deletions(run, DELETION_ORDER)).value.rows, run);
  }

  // ---------------------------------------------------------------------------------------------
  // Inserting a snapshot's records
  // ---------------------------------------------------------------------------------------------

  lemma ConflictsShareTable(a: Rec, b: Rec)
    requires Conflict(a, b)
    ensures TableOf(a) == TableOf(b)
  {
  }

  /** More rows break no reference. */
  lemma RefsMonotone(actions: seq<ActionItem>, rows: seq<Row>, more: seq<Row>, run: Id, rec: Rec)
    requires RefsHold(actions, rows, run, rec)
    ensures RefsHold(actions, rows + more, run, rec)
  {
    assert forall row :: row in rows ==> row in rows + more;
  }

  /** No key keeps the records from being inserted one after another. */
  predicate Clean(rows: seq<Row>, run: Id, recs: seq<Rec>) {
    && (forall rec :: rec in recs ==> !Clashes(rows, run, rec))
    && (forall i, j :: 0 <= i < j < |recs| ==> !Conflict(recs[i], recs[j]))
  }

  lemma CleanStep(rows: seq<Row>, run: Id, recs: seq<Rec>)
    requires recs != [] && !Clashes(rows, run, recs[0])
    ensures Clean(rows, run, recs) <==> Clean(rows + [Row(run, recs[0])], run, recs[1..])
  {
    var next := rows + [Row(run, recs[0])];
    assert recs == [recs[0]] + recs[1..];
    forall rec | rec in recs[1..]
      ensures Clashes(next, run, rec) <==> Clashes(rows, run, rec) || Conflict(recs[0], rec)
    {
      assert Row(run, recs[0]) in next;
      assert forall row :: row in next <==> row in rows || row == Row(run, recs[0]);
    }
    if Clean(next, run, recs[1..]) {
      forall j | 0 < j < |recs| ensures !Conflict(recs[0], recs[j]) {
        assert recs[j] in recs[1..];
      }
      forall i, j | 0 <= i < j < |recs| ensures !Conflict(recs[i], recs[j]) {
        if i > 0 {
          assert recs[i] == recs[1..][i - 1] && recs[j] == recs[1..][j - 1];
        }
      }
    }
    if Clean(rows, run, recs) {
      forall rec | rec in recs[1..] ensures !Conflict(recs[0], rec) {
        var j :| 0 <= j < |recs[1..]| && recs[1..][j] == rec;
        assert !Conflict(recs[0], recs[j + 1]);
      }
    }
  }

  /** The first record is inserted unless its keys clash; the others follow. */
  lemma InsertHead(db: Db, run: Id, recs: seq<Rec>)
    requires run in db.runs && recs != [] && RefsHold(db.actions, db.rows, run, recs[0])
    ensures ExecAll(db, Insertions(run, recs))
         == if Clashes(db.rows, run, recs[0]) then None
            else ExecAll(db.(rows := db.rows + [Row(run, recs[0])]), Insertions(run, recs[1..]))
  {
    assert Insertions(run, recs)[1..] == Insertions(run, recs[1..]);
  }

  lemma TaggedHead(rows: seq<Row>, run: Id, recs: seq<Rec>)
    requires recs != []
    ensures rows + Tagged(run, recs) == (rows + [Row(run, recs[0])]) + Tagged(run, recs[1..])
  {
    assert Tagged(run, recs) == [Row(run, recs[0])] + Tagged(run, recs[1..]);
  }

  /** Records whose references hold are inserted exactly when their keys are clean. */
  lemma {:induction false} InsertSegment(db: Db, run: Id, recs: seq<Rec>)
    requires run in db.runs
    requires forall rec :: rec in recs ==> RefsHold(db.actions, db.rows, run, rec)
    ensures ExecAll(db, Insertions(run, recs))
         == if Clean(db.rows, run, recs) then Some(db.(rows := db.rows + Tagged(run, recs))) else None
    decreases |recs|
  {
    if recs == [] {
      assert Insertions(run, recs) == [] && Tagged(run, recs) == [] && db.rows + [] == db.rows;
    } else {
      assert recs[0] in recs;
      InsertHead(db, run, recs);
      if !Clashes(db.rows, run, recs[0]) {
        var next := db.(rows := db.rows + [Row(run, recs[0])]);
        forall rec | rec in recs[1..] ensures RefsHold(next.actions, next.rows, run, rec) {
          RefsMonotone(db.actions, db.rows, [Row(run, recs[0])], run, rec);
        }
        CleanStep(db.rows, run, recs);
        InsertSegment(next, run, recs[1..]);
        TaggedHead(db.rows, run, recs);
      }
    }
  }

  lemma InsertionsConcat(run: Id, a: seq<Rec>, b: seq<Rec>)
    ensures Insertions(run, a + b) == Insertions(run, a) + Insertions(run, b)
    ensures Tagged(run, a + b) == Tagged(run, a) + Tagged(run, b)
  {
  }

  // ---------------------------------------------------------------------------------------------
  // A valid snapshot fits
  // ---------------------------------------------------------------------------------------------

  predicate DistinctRecordIds(nodes: seq<GraphNode>) {
    forall i, j :: 0 <= i < j < |nodes| ==> nodes[i].recordId != nodes[j].recordId
  }

  /** Each record of a list has a row. */
  predicate Stored(rows: seq<Row>, run: Id, recs: seq<Rec>) {
    forall rec :: rec in recs ==> Row(run, rec) in rows
  }

  lemma TaggedStored(rows: seq<Row>, run: Id, recs: seq<Rec>)
    ensures Stored(rows + Tagged(run, recs), run, recs)
    ensures forall other :: Stored(rows, run, other) ==> Stored(rows + Tagged(run, recs), run, other)
    ensures forall row :: row in Tagged(run, recs) ==> row.run == run && row.rec in recs
  {
    forall rec | rec in recs ensures Row(run, rec) in rows + Tagged(run, recs) {
      var i :| 0 <= i < |recs| && recs[i] == rec;
      assert Tagged(run, recs)[i] == Row(run, rec);
    }
  }

  predicate InTable(recs: seq<Rec>, table: Table) {
    forall rec :: rec in recs ==> TableOf(rec) == table
  }

  /** Adding rows of one table leaves every other table as it was. */
  lemma OtherTablesEmpty(rows: seq<Row>, run: Id, recs: seq<Rec>, table: Table, other: Table)
    requires InTable(recs, table) && other != table && NoneIn(rows, run, other)
    ensures NoneIn(rows + Tagged(run, recs), run, other)
  {
    TaggedStored(rows, run, recs);
  }

  lemma EmptyTableNoClash(rows: seq<Row>, run: Id, recs: seq<Rec>, table: Table)
    requires InTable(recs, table) && NoneIn(rows, run, table)
    ensures forall rec :: rec in recs ==> !Clashes(rows, run, rec)
  {
    forall rec | rec in recs ensures !Clashes(rows, run, rec) {
      forall row | row in rows && row.run == run ensures !Conflict(row.rec, rec) {
        if Conflict(row.rec, rec) {
          ConflictsShareTable(row.rec, rec);
        }
      }
    }
  }

  lemma RequirementFound(rows: seq<Row>, s: AuditState, id: Id)
    requires Stored(rows, s.summary.id, RequirementRecs(s)) && HasRequirement(s.invariants, id)
    ensures HasRequirementRow(rows, s.summary.id, id)
  {
    var i :| i in s.invariants && i.id == id;
    var k :| 0 <= k < |s.invariants| && s.invariants[k] == i;
    assert RequirementRecs(s)[k] == RequirementRec(i);
    assert Row(s.summary.id, RequirementRec(i)) in rows;
  }

  lemma OwnedRequirementFound(rows: seq<Row>, s: AuditState, id: Id, action: Id)
    requires Stored(rows, s.summary.id, RequirementRecs(s)) && RequirementOwned(s.invariants, id, action)
    ensures HasOwnedRequirementRow(rows, s.summary.id, id, action)
  {
    var i :| i in s.invariants && i.id == id && i.actionId == action;
    var k :| 0 <= k < |s.invariants| && s.invariants[k] == i;
    assert RequirementRecs(s)[k] == RequirementRec(i);
    assert Row(s.summary.id, RequirementRec(i)) in rows;
  }

  lemma SpecFound(rows: seq<Row>, s: AuditState, id: Id, requirement: Id)
    requires Stored(rows, s.summary.id, SpecRecs(s)) && SpecOwned(s.specs, id, requirement)
    ensures HasSpecRow(rows, s.summary.id, id, requirement)
  {
    var spec :| spec in s.specs && spec.id == id && spec.invariantId == requirement;
    var k :| 0 <= k < |s.specs| && s.specs[k] == spec;
    assert SpecRecs(s)[k] == SpecRec(spec);
    assert Row(s.summary.id, SpecRec(spec)) in rows;
  }

  lemma NodeFound(rows: seq<Row>, s: AuditState, id: Id)
    requires Stored(rows, s.summary.id, NodeRecs(s)) && id in EvidenceGraph.NodeIds(s.nodes)
    ensures HasNodeRow(rows, s.summary.id, id)
  {
    var node :| node in s.nodes && node.id == id;
    var k :| 0 <= k < |s.nodes| && s.nodes[k] == node;
    assert NodeRecs(s)[k] == NodeRec(node);
    assert Row(s.summary.id, NodeRec(node)) in rows;
  }

  lemma {:induction false} ActionsOfMembers(actions: seq<ActionItem>, incident: Id, position: TextOrder)
    ensures forall a :: a in ActionsOf(actions, incident, position) <==> a in actions && a.incidentId == incident
  {
    if actions != [] {
      var k := |actions| - 1;
      ActionsOfMembers(actions[..k], incident, position);
      InsertActionMembers(actions[k], ActionsOf(actions[..k], incident, position), position);
      assert actions == actions[..k] + [actions[k]];
    }
  }

  lemma {:induction false} InsertActionMembers(a: ActionItem, sorted: seq<ActionItem>, position: TextOrder)
    ensures forall x :: x in InsertAction(a, sorted, position) <==> x == a || x in sorted
  {
    if sorted != [] && !LoadsBefore(a, sorted[0], position) {
      InsertActionMembers(a, sorted[1..], position);
      assert sorted == [sorted[0]] + sorted[1..];
    }
  }

  /** The actions of a valid snapshot have rows. */
  lemma SnapshotActionsStored(db: Db, s: AuditState, id: Id)
    requires OwnershipValid(FactsFor(db, s.summary), s)
    requires ActionsValid(s, FactsFor(db, s.summary).incident.value)
    requires HasAction(s.actions, id)
    ensures HasAction(db.actions, id)
  {
    ActionsOfMembers(db.actions, s.summary.incidentId, db.position);
    var a :| a in s.actions && a.id == id;
    assert a in db.actions;
  }

  /** The first `k` tables filled: the rows after the transaction has inserted their segments. */
  function Filled(rows: seq<Row>, s: AuditState, k: nat): seq<Row>
    requires k <= 9
  {
    if k == 0 then rows else Filled(rows, s, k - 1) + Tagged(s.summary.id, Segments(s)[k - 1])
  }

  function SegmentTable(k: nat): Table
    requires k < 9
  {
    [Requirements, Specs, EvidenceTable, Results, Verdicts, Nodes, Edges, Events, Budgets][k]
  }

  lemma SegmentInTable(s: AuditState, k: nat)
    requires k < 9
    ensures InTable(Segments(s)[k], SegmentTable(k))
  {
  }

  /** Before a table's turn it is empty, and the tables before it hold the snapshot's records. */
  lemma {:induction false} FilledSoFar(rows: seq<Row>, s: AuditState, k: nat)
    requires k <= 9 && forall row :: row in rows ==> row.run != s.summary.id
    ensures forall j :: k <= j < 9 ==> NoneIn(Filled(rows, s, k), s.summary.id, SegmentTable(j))
    ensures forall j :: 0 <= j < k ==> Stored(Filled(rows, s, k), s.summary.id, Segments(s)[j])
  {
    if k > 0 {
      FilledSoFar(rows, s, k - 1);
      var before := Filled(rows, s, k - 1);
      TaggedStored(before, s.summary.id, Segments(s)[k - 1]);
      SegmentInTable(s, k - 1);
      forall j | k <= j < 9 ensures NoneIn(Filled(rows, s, k), s.summary.id, SegmentTable(j)) {
        assert SegmentTable(j) != SegmentTable(k - 1);
        OtherTablesEmpty(before, s.summary.id, Segments(s)[k - 1], SegmentTable(k - 1), SegmentTable(j));
      }
    }
  }

  /** The snapshot belongs to the incident whose actions the store holds. */
  predicate Belongs(db: Db, s: AuditState) {
    ValidSnapshot(FactsFor(db, s.summary), s)
  }

  predicate Ready(actions: seq<ActionItem>, rows: seq<Row>, run: Id, recs: seq<Rec>) {
    && (forall rec :: rec in recs ==> RefsHold(actions, rows, run, rec))
    && Clean(rows, run, recs)
  }

  lemma CleanIfDistinct(rows: seq<Row>, run: Id, recs: seq<Rec>, table: Table)
    requires InTable(recs, table) && NoneIn(rows, run, table)
    requires forall i, j :: 0 <= i < j < |recs| ==> !Conflict(recs[i], recs[j])
    ensures Clean(rows, run, recs)
  {
    EmptyTableNoClash(rows, run, recs, table);
  }

  lemma RequirementsReady(db: Db, rows: seq<Row>, s: AuditState)
    requires Belongs(db, s) && NoneIn(rows, s.summary.id, Requirements)
    ensures Ready(db.actions, rows, s.summary.id, RequirementRecs(s))
  {
    forall rec | rec in RequirementRecs(s) ensures RefsHold(db.actions, rows, s.summary.id, rec) {
      var k :| 0 <= k < |s.invariants| && RequirementRecs(s)[k] == rec;
      assert s.invariants[k] in s.invariants;
      SnapshotActionsStored(db, s, s.invariants[k].actionId);
    }
    CleanIfDistinct(rows, s.summary.id, RequirementRecs(s), Requirements);
  }

  lemma SpecsReady(db: Db, rows: seq<Row>, s: AuditState)
    requires SpecsValid(s) && NoneIn(rows, s.summary.id, Specs)
    requires Stored(rows, s.summary.id, RequirementRecs(s))
    ensures Ready(db.actions, rows, s.summary.id, SpecRecs(s))
  {
    forall rec | rec in SpecRecs(s) ensures RefsHold(db.actions, rows, s.summary.id, rec) {
      var k :| 0 <= k < |s.specs| && SpecRecs(s)[k] == rec;
      assert s.specs[k] in s.specs;
      RequirementFound(rows, s, s.specs[k].invariantId);
    }
    CleanIfDistinct(rows, s.summary.id, SpecRecs(s), Specs);
  }

  lemma EvidenceActionKnown(s: AuditState, e: Evidence)
    requires RequirementsValid(s) && EvidenceValid(s) && e in s.evidence
    ensures HasAction(s.actions, e.actionId)
  {
    var i :| i in s.invariants && i.id == e.invariantId && i.actionId == e.actionId;
  }

  lemma EvidenceReady(db: Db, rows: seq<Row>, s: AuditState)
    requires Belongs(db, s) && NoneIn(rows, s.summary.id, EvidenceTable)
    requires Stored(rows, s.summary.id, RequirementRecs(s))
    ensures Ready(db.actions, rows, s.summary.id, EvidenceRecs(s))
  {
    forall rec | rec in EvidenceRecs(s) ensures RefsHold(db.actions, rows, s.summary.id, rec) {
      var k :| 0 <= k < |s.evidence| && EvidenceRecs(s)[k] == rec;
      assert s.evidence[k] in s.evidence;
      EvidenceActionKnown(s, s.evidence[k]);
      SnapshotActionsStored(db, s, s.evidence[k].actionId);
      OwnedRequirementFound(rows, s, s.evidence[k].invariantId, s.evidence[k].actionId);
    }
    CleanIfDistinct(rows, s.summary.id, EvidenceRecs(s), EvidenceTable);
  }

  lemma ResultsReady(db: Db, rows: seq<Row>, s: AuditState)
    requires SpecsValid(s) && ResultsValid(s) && NoneIn(rows, s.summary.id, Results)
    requires Stored(rows, s.summary.id, RequirementRecs(s)) && Stored(rows, s.summary.id, SpecRecs(s))
    ensures Ready(db.actions, rows, s.summary.id, ResultRecs(s))
  {
    forall rec | rec in ResultRecs(s) ensures RefsHold(db.actions, rows, s.summary.id, rec) {
      var k :| 0 <= k < |s.results| && ResultRecs(s)[k] == rec;
      var r := s.results[k];
      assert r in s.results;
      SpecFound(rows, s, r.specId, r.invariantId);
      var spec :| spec in s.specs && spec.id == r.specId && spec.invariantId == r.invariantId;
      RequirementFound(rows, s, r.invariantId);
    }
    CleanIfDistinct(rows, s.summary.id, ResultRecs(s), Results);
  }

  lemma VerdictsReady(db: Db, rows: seq<Row>, s: AuditState)
    requires Belongs(db, s) && NoneIn(rows, s.summary.id, Verdicts)
    ensures Ready(db.actions, rows, s.summary.id, VerdictRecs(s))
  {
    forall rec | rec in VerdictRecs(s) ensures RefsHold(db.actions, rows, s.summary.id, rec) {
      var k :| 0 <= k < |s.verdicts| && VerdictRecs(s)[k] == rec;
      assert s.verdicts[k] in s.verdicts;
      SnapshotActionsStored(db, s, s.verdicts[k].actionId);
    }
    CleanIfDistinct(rows, s.summary.id, VerdictRecs(s), Verdicts);
  }

  lemma SnapshotRecordsDistinct(s: AuditState, incident: Incident)
    requires ActionsValid(s, incident) && ContentValid(s)
    ensures EvidenceGraph.Distinct(EvidenceGraph.ShapeOf(RecordsOf(s)))
  {
    EvidenceGraph.ShapeIsDistinct(RecordsOf(s));
  }

  lemma GraphNodesUnique(s: AuditState)
    requires GraphValid(s)
    ensures EvidenceGraph.UniqueNodes(s.nodes)
    ensures EvidenceGraph.UniqueEdges(s.edges) && EvidenceGraph.EndpointsKnown(s.nodes, s.edges)
  {
  }

  /** No two edges of a valid snapshot share both ends, so the key on ends never trips. */
  lemma GraphEdgesApart(db: Db, s: AuditState)
    requires Belongs(db, s)
    ensures EvidenceGraph.DistinctTargets(s.edges)
  {
    if s.nodes != [] || s.edges != [] {
      SnapshotRecordsDistinct(s, FactsFor(db, s.summary).incident.value);
      EvidenceGraph.AcceptedGraphIsTree(s.nodes, s.edges, s.summary.id, EvidenceGraph.ShapeOf(RecordsOf(s)));
    }
  }

  /** The node table takes the nodes exactly when their record identifiers differ. */
  lemma NodesReadyIff(db: Db, rows: seq<Row>, s: AuditState)
    requires GraphValid(s) && NoneIn(rows, s.summary.id, Nodes)
    ensures forall rec :: rec in NodeRecs(s) ==> RefsHold(db.actions, rows, s.summary.id, rec)
    ensures Clean(rows, s.summary.id, NodeRecs(s)) <==> DistinctRecordIds(s.nodes)
  {
    GraphNodesUnique(s);
    var recs := NodeRecs(s);
    EmptyTableNoClash(rows, s.summary.id, recs, Nodes);
    forall i, j | 0 <= i < j < |s.nodes|
      ensures Conflict(recs[i], recs[j]) <==> s.nodes[i].recordId == s.nodes[j].recordId
    {
    }
    if Clean(rows, s.summary.id, recs) {
      forall i, j | 0 <= i < j < |s.nodes| ensures s.nodes[i].recordId != s.nodes[j].recordId {
        assert !Conflict(recs[i], recs[j]);
      }
    }
  }

  lemma EdgesReady(db: Db, rows: seq<Row>, s: AuditState)
    requires Belongs(db, s) && NoneIn(rows, s.summary.id, Edges)
    requires Stored(rows, s.summary.id, NodeRecs(s))
    ensures Ready(db.actions, rows, s.summary.id, EdgeRecs(s))
  {
    GraphNodesUnique(s);
    GraphEdgesApart(db, s);
    forall rec | rec in EdgeRecs(s) ensures RefsHold(db.actions, rows, s.summary.id, rec) {
      var k :| 0 <= k < |s.edges| && EdgeRecs(s)[k] == rec;
      assert s.edges[k] in s.edges;
      NodeFound(rows, s, s.edges[k].source);
      NodeFound(rows, s, s.edges[k].target);
    }
    CleanIfDistinct(rows, s.summary.id, EdgeRecs(s), Edges);
  }

  lemma EventsReady(db: Db, rows: seq<Row>, s: AuditState)
    requires EventsValid(s) && NoneIn(rows, s.summary.id, Events)
    ensures Ready(db.actions, rows, s.summary.id, EventRecs(s))
  {
    CleanIfDistinct(rows, s.summary.id, EventRecs(s), Events);
  }

  lemma BudgetReady(db: Db, rows: seq<Row>, s: AuditState)
    requires NoneIn(rows, s.summary.id, Budgets)
    ensures Ready(db.actions, rows, s.summary.id, [BudgetRec(s.summary.budget)])
  {
    CleanIfDistinct(rows, s.summary.id, [BudgetRec(s.summary.budget)], Budgets);
  }

  // ---------------------------------------------------------------------------------------------
  // The whole transaction
  // ---------------------------------------------------------------------------------------------

  lemma SegmentReady(db: Db, rows: seq<Row>, s: AuditState, k: nat)
    requires k < 9 && k != 5 && Belongs(db, s)
    requires forall j :: k <= j < 9 ==> NoneIn(rows, s.summary.id, SegmentTable(j))
    requires forall j :: 0 <= j < k ==> Stored(rows, s.summary.id, Segments(s)[j])
    ensures Ready(db.actions, rows, s.summary.id, Segments(s)[k])
  {
    assert NoneIn(rows, s.summary.id, SegmentTable(k));
    assert k > 0 ==> Stored(rows, s.summary.id, Segments(s)[0]);
    assert k > 1 ==> Stored(rows, s.summary.id, Segments(s)[1]);
    assert k > 5 ==> Stored(rows, s.summary.id, Segments(s)[5]);
    match k
    case 0 => RequirementsReady(db, rows, s);
    case 1 => SpecsReady(db, rows, s);
    case 2 => EvidenceReady(db, rows, s);
    case 3 => ResultsReady(db, rows, s);
    case 4 => VerdictsReady(db, rows, s);
    case 6 => EdgesReady(db, rows, s);
    case 7 => EventsReady(db, rows, s);
    case 8 => BudgetReady(db, rows, s);
  }

  /** From table `k` on, the insertions succeed exactly when the node table accepts its nodes. */
  lemma {:induction false} InsertFrom(db: Db, rows: seq<Row>, s: AuditState, k: nat)
    requires k <= 9 && s.summary.id in db.runs && Belongs(db, s)
    requires forall row :: row in rows ==> row.run != s.summary.id
    requires db.rows == Filled(rows, s, k)
    ensures ExecAll(db, Insertions(s.summary.id, Flatten(Segments(s)[k..])))
         == if k > 5 || DistinctRecordIds(s.nodes) then Some(db.(rows := Filled(rows, s, 9))) else None
    decreases 9 - k
  {
    var run := s.summary.id;
    if k < 9 {
      var head, rest := Segments(s)[k], Flatten(Segments(s)[k + 1..]);
      assert Segments(s)[k..][1..] == Segments(s)[k + 1..];
      FilledSoFar(rows, s, k);
      InsertionsConcat(run, head, rest);
      ExecConcat(db, Insertions(run, head), Insertions(run, rest));
      if k == 5 {
        assert NoneIn(db.rows, run, SegmentTable(5));
        NodesReadyIff(db, db.rows, s);
      } else {
        SegmentReady(db, db.rows, s, k);
      }
      InsertSegment(db, run, head);
      var next := db.(rows := Filled(rows, s, k + 1));
      assert FactsFor(next, s.summary) == FactsFor(db, s.summary);
      InsertFrom(next, rows, s, k + 1);
    }
  }

  lemma {:induction false} FlattenSnoc(segments: seq<seq<Rec>>, last: seq<Rec>)
    ensures Flatten(segments + [last]) == Flatten(segments) + last
  {
    if segments != [] {
      assert (segments + [last])[1..] == segments[1..] + [last];
      FlattenSnoc(segments[1..], last);
    } else {
      assert (segments + [last])[1..] == [];
    }
  }

  lemma {:induction false} FilledIsAppended(rows: seq<Row>, s: AuditState, k: nat)
    requires k <= 9
    ensures Filled(rows, s, k) == rows + Tagged(s.summary.id, Flatten(Segments(s)[..k]))
  {
    if k == 0 {
      assert rows + Tagged(s.summary.id, []) == rows;
    } else {
      FilledIsAppended(rows, s, k - 1);
      assert Segments(s)[..k] == Segments(s)[..k - 1] + [Segments(s)[k - 1]];
      FlattenSnoc(Segments(s)[..k - 1], Segments(s)[k - 1]);
      InsertionsConcat(s.summary.id, Flatten(Segments(s)[..k - 1]), Segments(s)[k - 1]);
    }
  }

  lemma UpsertSucceeds(db: Db, s: AuditState)
    requires OwnershipValid(FactsFor(db, s.summary), s)
    ensures Exec(db, UpsertRun(s.summary)) == Some(WithRun(db, s.summary))
  {
  }

  /**
   With no guard on the run, a valid snapshot is stored unless two graph nodes share a record
   identifier; that key is stricter than the validator, and it is the only one that can trip.
   */
  lemma SaveOutcome(db: Db, s: AuditState)
    requires Integrity(db) && Belongs(db, s) && GuardFree(db, s.summary.id)
    ensures ExecAll(db, SaveScript(s)) == if DistinctRecordIds(s.nodes) then Some(Saved(db, s)) else None
  {
    var run := s.summary.id;
    var started := WithRun(db, s.summary);
    var cleared := started.(rows := WithoutRun(db.rows, run));
    UpsertSucceeds(db, s);
    assert AllGuardRefsHold(started, started.rows);
    AllDeletionsSucceed(started, run);
    WithoutRunMembers(db.rows, run);
    assert FactsFor(cleared, s.summary).incident == FactsFor(db, s.summary).incident;
    assert Belongs(cleared, s);
    InsertFrom(cleared, cleared.rows, s, 0);
    assert Segments(s)[0..] == Segments(s);
    FilledIsAppended(cleared.rows, s, 9);
    assert Segments(s)[..9] == Segments(s);
    var upsert, deletions, insertions :=
      [UpsertRun(s.summary)], Deletions(run, DELETION_ORDER), Insertions(run, RecsOf(s));
    assert upsert[1..] == [];
    ExecConcat(db, upsert, deletions);
    ExecConcat(db, upsert + deletions, insertions);
  }

  // ---------------------------------------------------------------------------------------------
  // Kind-tagged identifiers
  // ---------------------------------------------------------------------------------------------

  /** The kind of record an application-made identifier names. */
  predicate Names(id: Id, nodeType: NodeType) {
    match nodeType
    case IncidentNode => id.IncidentId?
    case ActionNode => id.ActionId?
    case InvariantNode => id.InvariantId?
    case EvidenceNode => id.EvidenceId?
    case CheckNode => id.ResultId?
    case VerdictNode => id.VerdictId?
  }

  /** The incident's identifier and its actions' were made for their kinds. */
  predicate SourcesTagged(incident: Id, actions: seq<ActionItem>) {
    Names(incident, IncidentNode) && forall a :: a in actions ==> Names(a.id, ActionNode)
  }

  /** The identifiers of the records derived in a run were made for their kinds. */
  predicate RecordsTagged(s: AuditState) {
    && (forall i :: i in s.invariants ==> Names(i.id, InvariantNode))
    && (forall e :: e in s.evidence ==> Names(e.id, EvidenceNode))
    && (forall r :: r in s.results ==> Names(r.id, CheckNode))
    && (forall v :: v in s.verdicts ==> Names(v.id, VerdictNode))
  }

  /** Every record's identifier was made for its kind. */
  predicate KindTagged(s: AuditState) {
    SourcesTagged(s.summary.incidentId, s.actions) && RecordsTagged(s)
  }

  lemma ItemsNamed(s: AuditState)
    requires KindTagged(s)
    ensures forall key :: key in EvidenceGraph.ShapeKeys(EvidenceGraph.ShapeOf(RecordsOf(s))) ==>
      Names(key.record, key.nodeType)
  {
    var r := RecordsOf(s);
    forall item | item in EvidenceGraph.Items(r) ensures Names(item.key.record, item.key.nodeType) {
    }
  }

  /** With kind-tagged identifiers a validated graph never repeats a record identifier. */
  lemma TaggedNodesApart(s: AuditState)
    requires GraphValid(s) && KindTagged(s)
    ensures DistinctRecordIds(s.nodes)
  {
    if s.nodes != [] {
      ItemsNamed(s);
      forall i, j | 0 <= i < j < |s.nodes| ensures s.nodes[i].recordId != s.nodes[j].recordId {
        NodeIsNamed(s, s.nodes[i]);
        NodeIsNamed(s, s.nodes[j]);
        assert EvidenceGraph.KeyOf(s.nodes[i]) != EvidenceGraph.KeyOf(s.nodes[j]);
      }
    }
  }

  lemma NodeIsNamed(s: AuditState, node: GraphNode)
    requires GraphValid(s) && KindTagged(s) && node in s.nodes
    ensures Names(node.recordId, node.nodeType)
  {
    ItemsNamed(s);
    assert EvidenceGraph.KeyOf(node) in EvidenceGraph.NodeKeys(s.nodes);
  }

  /** A valid snapshot with kind-tagged identifiers trips no constraint of the schema. */
  lemma TaggedSnapshotSaves(db: Db, s: AuditState)
    requires Integrity(db) && Belongs(db, s) && GuardFree(db, s.summary.id) && KindTagged(s)
    ensures ExecAll(db, SaveScript(s)) == Some(Saved(db, s))
  {
    SaveOutcome(db, s);
    TaggedNodesApart(s);
  }

  // ---------------------------------------------------------------------------------------------
  // Guards pin a run's snapshot
  // ---------------------------------------------------------------------------------------------

  lemma {:induction false} DeletionsNeedNoGuards(db: Db, run: Id, tables: seq<Table>, id: Id)
    requires id in db.guards && db.guards[id].runId == run && Requirements in tables
    ensures ExecAll(db, Deletions(run, tables)) == None
    decreases |tables|
  {
    assert Deletions(run, tables)[1..] == Deletions(run, tables[1..]);
    var left := WithoutTable(db.rows, run, tables[0]);
    WithoutTableMembers(db.rows, run, tables[0]);
    if tables[0] == Requirements {
      assert !GuardRefsHold(db, left, db.guards[id]);
    } else {
      assert tables == [tables[0]] + tables[1..];
      DeletionsNeedNoGuards(db.(rows := left), run, tables[1..], id);
    }
  }

  /** Once a guard exists for a run, no later snapshot of that run can be stored. */
  lemma GuardBlocksSave(db: Db, s: AuditState, id: Id)
    requires id in db.guards && db.guards[id].runId == s.summary.id
    ensures ExecAll(db, SaveScript(s)) == None
  {
    var run := s.summary.id;
    var upsert, deletions, insertions :=
      [UpsertRun(s.summary)], Deletions(run, DELETION_ORDER), Insertions(run, RecsOf(s));
    ExecConcat(db, upsert, deletions);
    ExecConcat(db, upsert + deletions, insertions);
    assert upsert[1..] == [];
    match Exec(db, upsert[0])
    case None =>
    case Some(started) =>
      TableListed(Requirements);
      DeletionsNeedNoGuards(started, run, DELETION_ORDER, id);
  }

  // ---------------------------------------------------------------------------------------------
  // The transaction keeps the database consistent
  // ---------------------------------------------------------------------------------------------

  lemma ExecKeepsIntegrity(db: Db, statement: Statement)
    requires Integrity(db) && !statement.UpsertRun? && Exec(db, statement).Some?
    ensures Integrity(Exec(db, statement).value)
  {
    match statement
    case DeleteRows(table, run) =>
      WithoutTableMembers(db.rows, run, table);
    case InsertRow(run, rec) =>
      var next := Exec(db, statement).value;
      forall row | row in next.rows ensures RefsHold(next.actions, next.rows, row.run, row.rec) {
        RefsMonotone(db.actions, db.rows, [Row(run, rec)], row.run, row.rec);
      }
      forall id | id in db.guards ensures GuardRefsHold(next, next.rows, db.guards[id]) {
        var g := db.guards[id];
        var a :| a in db.rows && a.run == g.runId && a.rec.RequirementRec?
          && a.rec.requirement.id == g.invariantId && a.rec.requirement.actionId == g.actionId;
        assert a in next.rows;
      }
  }

  lemma {:induction false} ExecAllKeepsIntegrity(db: Db, statements: seq<Statement>)
    requires Integrity(db) && ExecAll(db, statements).Some?
    requires forall statement :: statement in statements ==> !statement.UpsertRun?
    ensures Integrity(ExecAll(db, statements).value)
    decreases |statements|
  {
    if statements != [] {
      assert statements[0] in statements;
      ExecKeepsIntegrity(db, statements[0]);
      ExecAllKeepsIntegrity(Exec(db, statements[0]).value, statements[1..]);
    }
  }

  lemma UpsertKeepsIntegrity(db: Db, s: AuditState)
    requires Integrity(db) && OwnershipValid(FactsFor(db, s.summary), s)
    ensures Integrity(WithRun(db, s.summary))
  {
  }

  /** Storing a valid snapshot leaves every key and foreign key intact. */
  lemma SaveKeepsIntegrity(db: Db, s: AuditState)
    requires Integrity(db) && Belongs(db, s) && ExecAll(db, SaveScript(s)).Some?
    ensures Integrity(ExecAll(db, SaveScript(s)).value)
  {
    var upsert := [UpsertRun(s.summary)];
    var rest := Deletions(s.summary.id, DELETION_ORDER) + Insertions(s.summary.id, RecsOf(s));
    assert SaveScript(s) == upsert + rest;
    assert upsert[1..] == [];
    ExecConcat(db, upsert, rest);
    UpsertSucceeds(db, s);
    UpsertKeepsIntegrity(db, s);
    ExecAllKeepsIntegrity(WithRun(db, s.summary), rest);
  }

  // ---------------------------------------------------------------------------------------------
  // Reading back
  // ---------------------------------------------------------------------------------------------

  lemma {:induction false} SelectConcat(a: seq<Row>, b: seq<Row>, run: Id, table: Table)
    ensures Select(a + b, run, table) == Select(a, run, table) + Select(b, run, table)
  {
    if a == [] {
      assert a + b == b;
    } else {
      assert (a + b)[1..] == a[1..] + b;
      SelectConcat(a[1..], b, run, table);
    }
  }

  lemma {:induction false} SelectWithoutRun(rows: seq<Row>, run: Id, other: Id, table: Table)
    ensures Select(WithoutRun(rows, run), other, table) == if other == run then [] else Select(rows, other, table)
  {
    if rows != [] {
      SelectWithoutRun(rows[1..], run, other, table);
      var kept := WithoutRun(rows[1..], run);
      if rows[0].run != run {
        assert WithoutRun(rows, run) == [rows[0]] + kept;
        SelectConcat([rows[0]], kept, other, table);
        SelectConcat([rows[0]], rows[1..], other, table);
        assert rows == [rows[0]] + rows[1..];
      } else {
        assert WithoutRun(rows, run) == kept;
      }
    }
  }

  lemma {:induction false} SelectTagged(run: Id, recs: seq<Rec>, own: Table, other: Id, table: Table)
    requires InTable(recs, own)
    ensures Select(Tagged(run, recs), other, table) == if other == run && own == table then recs else []
  {
    if recs != [] {
      assert recs[0] in recs;
      assert Tagged(run, recs)[1..] == Tagged(run, recs[1..]);
      SelectTagged(run, recs[1..], own, other, table);
    }
  }

  lemma TablesDiffer(j: nat, k: nat)
    requires j < 9 && k < 9
    ensures SegmentTable(j) == SegmentTable(k) <==> j == k
  {
  }

  lemma SelectAppended(rows: seq<Row>, run: Id, recs: seq<Rec>, own: Table, other: Id, table: Table)
    requires InTable(recs, own)
    ensures Select(rows + Tagged(run, recs), other, table)
         == Select(rows, other, table) + if other == run && own == table then recs else []
  {
    SelectConcat(rows, Tagged(run, recs), other, table);
    SelectTagged(run, recs, own, other, table);
  }

  lemma FilledStep(rows: seq<Row>, s: AuditState, k: nat, other: Id, table: Table)
    requires 0 < k <= 9
    ensures Select(Filled(rows, s, k), other, table)
         == Select(Filled(rows, s, k - 1), other, table)
            + if other == s.summary.id && SegmentTable(k - 1) == table then Segments(s)[k - 1] else []
  {
    SegmentInTable(s, k - 1);
    SelectAppended(Filled(rows, s, k - 1), s.summary.id, Segments(s)[k - 1], SegmentTable(k - 1), other, table);
  }

  /** After the transaction a table holds the snapshot's segment, and other runs' rows are untouched. */
  lemma {:induction false} SelectFilled(rows: seq<Row>, s: AuditState, k: nat, other: Id, j: nat)
    requires k <= 9 && j < 9
    ensures Select(Filled(rows, s, k), other, SegmentTable(j))
         == Select(rows, other, SegmentTable(j)) + if other == s.summary.id && j < k then Segments(s)[j] else []
  {
    if k > 0 {
      SelectFilled(rows, s, k - 1, other, j);
      FilledStep(rows, s, k, other, SegmentTable(j));
      TablesDiffer(j, k - 1);
    }
  }

  lemma SelectSaved(db: Db, s: AuditState, other: Id, j: nat)
    requires j < 9
    ensures Select(Saved(db, s).rows, other, SegmentTable(j))
         == if other == s.summary.id then Segments(s)[j] else Select(db.rows, other, SegmentTable(j))
  {
    var rows := WithoutRun(db.rows, s.summary.id);
    FilledIsAppended(rows, s, 9);
    assert Segments(s)[..9] == Segments(s);
    SelectFilled(rows, s, 9, other, j);
    SelectWithoutRun(db.rows, s.summary.id, other, SegmentTable(j));
  }

  lemma SelectSavedTables(db: Db, s: AuditState)
    ensures var rows, run := Saved(db, s).rows, s.summary.id;
      && Select(rows, run, Requirements) == RequirementRecs(s)
      && Select(rows, run, Specs) == SpecRecs(s)
      && Select(rows, run, EvidenceTable) == EvidenceRecs(s)
      && Select(rows, run, Results) == ResultRecs(s)
      && Select(rows, run, Verdicts) == VerdictRecs(s)
      && Select(rows, run, Nodes) == NodeRecs(s)
      && Select(rows, run, Edges) == EdgeRecs(s)
      && Select(rows, run, Events) == EventRecs(s)
      && Select(rows, run, Budgets) == [BudgetRec(s.summary.budget)]
  {
    forall j | 0 <= j < 9
      ensures Select(Saved(db, s).rows, s.summary.id, SegmentTable(j)) == Segments(s)[j]
    {
      SelectSaved(db, s, s.summary.id, j);
    }
    assert SegmentTable(0) == Requirements && SegmentTable(1) == Specs && SegmentTable(2) == EvidenceTable;
    assert SegmentTable(3) == Results && SegmentTable(4) == Verdicts && SegmentTable(5) == Nodes;
    assert SegmentTable(6) == Edges && SegmentTable(7) == Events && SegmentTable(8) == Budgets;
  }

  /** What is assembled from the stored rows is the snapshot, its events in sequence order. */
  lemma AssembleSaved(db: Db, s: AuditState, actions: seq<ActionItem>)
    ensures Assemble(Saved(db, s).rows, s.summary, actions)
         == s.(actions := actions, events := SortEvents(s.events))
    ensures StoredBudget(Saved(db, s).rows, s.summary) == s.summary.budget
  {
    SelectSavedTables(db, s);
    var events := EventRecs(s);
    assert seq(|events|, i requires 0 <= i < |events| => events[i].event) == s.events;
  }

  predicate SequenceSorted(events: seq<WorkflowEvent>) {
    forall i, j :: 0 <= i < j < |events| ==> events[i].sequence <= events[j].sequence
  }

  lemma {:induction false} InsertEventSorts(e: WorkflowEvent, sorted: seq<WorkflowEvent>)
    requires SequenceSorted(sorted)
    ensures SequenceSorted(InsertEvent(e, sorted))
    ensures forall x :: x in InsertEvent(e, sorted) <==> x == e || x in sorted
    ensures |InsertEvent(e, sorted)| == |sorted| + 1
  {
    if sorted != [] && e.sequence >= sorted[0].sequence {
      InsertEventSorts(e, sorted[1..]);
      assert sorted == [sorted[0]] + sorted[1..];
      var rest := InsertEvent(e, sorted[1..]);
      forall i | 0 <= i < |rest| ensures sorted[0].sequence <= rest[i].sequence {
        assert rest[i] in rest;
        if rest[i] != e {
          var j :| 0 <= j < |sorted[1..]| && sorted[1..][j] == rest[i];
        }
      }
    }
  }

  /** Loading orders events by sequence number and keeps each of them. */
  lemma {:induction false} SortEventsSorts(events: seq<WorkflowEvent>)
    ensures SequenceSorted(SortEvents(events))
    ensures forall x :: x in SortEvents(events) <==> x in events
    ensures |SortEvents(events)| == |events|
  {
    if events != [] {
      var k := |events| - 1;
      SortEventsSorts(events[..k]);
      InsertEventSorts(events[k], SortEvents(events[..k]));
      assert events == events[..k] + [events[k]];
    }
  }

  lemma {:induction false} InsertLargest(e: WorkflowEvent, sorted: seq<WorkflowEvent>)
    requires forall i :: 0 <= i < |sorted| ==> sorted[i].sequence <= e.sequence
    ensures InsertEvent(e, sorted) == sorted + [e]
  {
    if sorted != [] {
      InsertLargest(e, sorted[1..]);
    }
  }

  /** Events already in sequence order are loaded as they were. */
  lemma {:induction false} SortedEventsStay(events: seq<WorkflowEvent>)
    requires SequenceSorted(events)
    ensures SortEvents(events) == events
  {
    if events != [] {
      var k := |events| - 1;
      SortedEventsStay(events[..k]);
      InsertLargest(events[k], events[..k]);
      assert events == events[..k] + [events[k]];
    }
  }

  predicate DistinctEvents(events: seq<WorkflowEvent>) {
    && (forall i, j :: 0 <= i < j < |events| ==> events[i].id != events[j].id)
    && (forall i, j :: 0 <= i < j < |events| ==> events[i].sequence != events[j].sequence)
  }

  lemma {:induction false} InsertEventDistinct(e: WorkflowEvent, sorted: seq<WorkflowEvent>)
    requires DistinctEvents(sorted)
    requires forall x :: x in sorted ==> x.id != e.id && x.sequence != e.sequence
    ensures DistinctEvents(InsertEvent(e, sorted))
    ensures forall x :: x in InsertEvent(e, sorted) <==> x == e || x in sorted
  {
    if sorted != [] && e.sequence >= sorted[0].sequence {
      assert sorted == [sorted[0]] + sorted[1..];
      InsertEventDistinct(e, sorted[1..]);
      var rest := InsertEvent(e, sorted[1..]);
      forall i | 0 <= i < |rest| ensures rest[i].id != sorted[0].id && rest[i].sequence != sorted[0].sequence {
        assert rest[i] in rest;
        if rest[i] != e {
          var j :| 0 <= j < |sorted[1..]| && sorted[1..][j] == rest[i];
        }
      }
    } else {
      forall i | 0 <= i < |sorted| ensures sorted[i].id != e.id && sorted[i].sequence != e.sequence {
        assert sorted[i] in sorted;
      }
    }
  }

  lemma {:induction false} SortEventsDistinct(events: seq<WorkflowEvent>)
    requires DistinctEvents(events)
    ensures DistinctEvents(SortEvents(events))
  {
    if events != [] {
      var k := |events| - 1;
      SortEventsDistinct(events[..k]);
      SortEventsSorts(events[..k]);
      forall x | x in SortEvents(events[..k]) ensures x.id != events[k].id && x.sequence != events[k].sequence {
        var i :| 0 <= i < k && events[..k][i] == x;
        assert events[i] == x;
      }
      InsertEventDistinct(events[k], SortEvents(events[..k]));
    }
  }

  lemma {:induction false} InsertActionDistinct(a: ActionItem, sorted: seq<ActionItem>, position: TextOrder)
    requires DistinctActions(sorted) && forall x :: x in sorted ==> x.id != a.id
    ensures DistinctActions(InsertAction(a, sorted, position))
  {
    if sorted != [] && !LoadsBefore(a, sorted[0], position) {
      assert sorted == [sorted[0]] + sorted[1..];
      InsertActionDistinct(a, sorted[1..], position);
      InsertActionMembers(a, sorted[1..], position);
      var rest := InsertAction(a, sorted[1..], position);
      forall i | 0 <= i < |rest| ensures rest[i].id != sorted[0].id {
        assert rest[i] in rest;
        if rest[i] != a {
          var j :| 0 <= j < |sorted[1..]| && sorted[1..][j] == rest[i];
        }
      }
    } else {
      forall i | 0 <= i < |sorted| ensures sorted[i].id != a.id {
        assert sorted[i] in sorted;
      }
    }
  }

  lemma {:induction false} InsertActionSorts(a: ActionItem, sorted: seq<ActionItem>, position: TextOrder)
    requires InLoadOrder(sorted, position)
    ensures InLoadOrder(InsertAction(a, sorted, position), position)
  {
    if sorted != [] && !LoadsBefore(a, sorted[0], position) {
      InsertActionSorts(a, sorted[1..], position);
      InsertActionMembers(a, sorted[1..], position);
      var rest := InsertAction(a, sorted[1..], position);
      forall j | 0 <= j < |rest| ensures !LoadsBefore(rest[j], sorted[0], position) {
        assert rest[j] in rest;
        if rest[j] != a {
          var i :| 0 <= i < |sorted[1..]| && sorted[1..][i] == rest[j];
          assert sorted[i + 1] == rest[j];
        }
      }
    }
  }

  /** Actions are loaded by their order, and those of equal order by identifier text. */
  lemma {:induction false} ActionsOfSorted(actions: seq<ActionItem>, incident: Id, position: TextOrder)
    ensures InLoadOrder(ActionsOf(actions, incident, position), position)
    ensures var r := ActionsOf(actions, incident, position);
      forall i, j :: 0 <= i < j < |r| ==>
        r[i].order < r[j].order || (r[i].order == r[j].order && position(r[i].id) <= position(r[j].id))
  {
    if actions != [] {
      var k := |actions| - 1;
      ActionsOfSorted(actions[..k], incident, position);
      InsertActionSorts(actions[k], ActionsOf(actions[..k], incident, position), position);
    }
  }

  /** An incident is loaded with each action once. */
  lemma {:induction false} ActionsOfDistinct(actions: seq<ActionItem>, incident: Id, position: TextOrder)
    requires DistinctActions(actions)
    ensures DistinctActions(ActionsOf(actions, incident, position))
  {
    if actions != [] {
      var k := |actions| - 1;
      ActionsOfDistinct(actions[..k], incident, position);
      ActionsOfMembers(actions[..k], incident, position);
      var before := ActionsOf(actions[..k], incident, position);
      forall x | x in before ensures x.id != actions[k].id {
        var i :| 0 <= i < k && actions[..k][i] == x;
        assert actions[i] == x;
      }
      InsertActionDistinct(actions[k], before, position);
    }
  }

  /** What loading a stored snapshot returns. */
  function Restored(db: Db, s: AuditState): AuditState {
    s.(summary := Overlay(db, s.summary),
       actions := ActionsOf(db.actions, s.summary.incidentId, db.position),
       events := SortEvents(s.events))
  }

  lemma RestoredItems(db: Db, s: AuditState)
    requires Belongs(db, s)
    ensures forall item :: item in EvidenceGraph.Items(RecordsOf(s)) <==>
      item in EvidenceGraph.Items(RecordsOf(Restored(db, s)))
  {
    var a, b := RecordsOf(s), RecordsOf(Restored(db, s));
    ActionItemsAgree(a, b);
    assert EvidenceGraph.InvariantItems(a) == EvidenceGraph.InvariantItems(b);
    assert EvidenceGraph.EvidenceItems(a) == EvidenceGraph.EvidenceItems(b);
    assert EvidenceGraph.CheckItems(a) == EvidenceGraph.CheckItems(b);
    assert EvidenceGraph.VerdictItems(a) == EvidenceGraph.VerdictItems(b);
  }

  lemma ActionItemsAgree(a: EvidenceGraph.Records, b: EvidenceGraph.Records)
    requires a.incident == b.incident
    requires forall x :: x in a.actions <==> x in b.actions
    ensures forall item :: item in EvidenceGraph.ActionItems(a) <==> item in EvidenceGraph.ActionItems(b)
  {
    ActionItemsIncluded(a, b);
    ActionItemsIncluded(b, a);
  }

  lemma ActionItemsIncluded(a: EvidenceGraph.Records, b: EvidenceGraph.Records)
    requires a.incident == b.incident
    requires forall x :: x in a.actions ==> x in b.actions
    ensures forall item :: item in EvidenceGraph.ActionItems(a) ==> item in EvidenceGraph.ActionItems(b)
  {
    forall item | item in EvidenceGraph.ActionItems(a) ensures item in EvidenceGraph.ActionItems(b) {
      var i :| 0 <= i < |a.actions| && EvidenceGraph.ActionItems(a)[i] == item;
      assert a.actions[i] in b.actions;
      var j :| 0 <= j < |b.actions| && b.actions[j] == a.actions[i];
      assert EvidenceGraph.ActionItems(b)[j] == item;
    }
  }

  lemma RestoredActions(db: Db, s: AuditState)
    requires Belongs(db, s)
    ensures s.actions == [] ==> Restored(db, s).actions == []
  {
    var r := Restored(db, s);
    if r.actions != [] {
      assert r.actions[0] in r.actions;
      assert r.actions[0] in s.actions;
    }
  }

  lemma RestoredGraphValid(db: Db, s: AuditState)
    requires Belongs(db, s)
    ensures GraphValid(Restored(db, s))
  {
    var r := Restored(db, s);
    assert r.summary.id == s.summary.id && r.summary.status == s.summary.status;
    if s.nodes != [] || s.edges != [] {
      RestoredItems(db, s);
      EvidenceGraph.AcceptsIgnoresOrder(s.nodes, s.edges, s.summary.id,
        EvidenceGraph.ShapeOf(RecordsOf(s)), EvidenceGraph.ShapeOf(RecordsOf(r)));
    } else {
      RestoredActions(db, s);
    }
  }

  lemma RestoredContentValid(db: Db, s: AuditState)
    requires Belongs(db, s)
    ensures ContentValid(Restored(db, s))
  {
    var r := Restored(db, s);
    SortEventsSorts(s.events);
    SortEventsDistinct(s.events);
    assert forall id :: HasAction(s.actions, id) ==> HasAction(r.actions, id);
    assert RequirementsValid(r) && SpecsValid(r) && EvidenceValid(r) && ResultsValid(r) && RoundsValid(r);
  }

  /**
   Saving and loading returns the snapshot: the actions in their stored order, the events in sequence
   order, and the two model-call fields of the budget from the incident's counter.
   */
  lemma LoadSaved(db: Db, s: AuditState)
    requires Integrity(db) && Belongs(db, s) && RecordsOk(s)
    ensures LoadState(Saved(db, s), s.summary.id) == Loaded(Restored(db, s))
    ensures InLoadOrder(Restored(db, s).actions, db.position)
    ensures forall a :: a in Restored(db, s).actions <==> a in s.actions
  {
    ActionsOfSorted(db.actions, s.summary.incidentId, db.position);
    SavedLoads(db, s);
  }

  lemma SavedLoads(db: Db, s: AuditState)
    requires Integrity(db) && Belongs(db, s) && RecordsOk(s)
    ensures LoadState(Saved(db, s), s.summary.id) == Loaded(Restored(db, s))
  {
    AssembleSaved(db, s, ActionsOf(db.actions, s.summary.incidentId, db.position));
    RestoredValid(db, s);
  }

  lemma RestoredValid(db: Db, s: AuditState)
    requires Integrity(db) && Belongs(db, s)
    ensures ValidSnapshot(FactsFor(Saved(db, s), s.summary), Restored(db, s))
  {
    RestoredContentValid(db, s);
    RestoredGraphValid(db, s);
    ActionsOfDistinct(db.actions, s.summary.incidentId, db.position);
    assert FactsFor(Saved(db, s), s.summary)
        == FactsFor(db, s.summary).(owner := Some((s.summary.projectId, s.summary.incidentId)));
  }

  lemma OtherTablesUntouched(db: Db, s: AuditState, other: Id, table: Table)
    requires other != s.summary.id
    ensures Select(Saved(db, s).rows, other, table) == Select(db.rows, other, table)
  {
    SelectSaved(db, s, other, TableIndex(table));
  }

  function TableIndex(table: Table): (j: nat)
    ensures j < 9 && SegmentTable(j) == table
  {
    match table
    case Requirements => 0
    case Specs => 1
    case EvidenceTable => 2
    case Results => 3
    case Verdicts => 4
    case Nodes => 5
    case Edges => 6
    case Events => 7
    case Budgets => 8
  }

  /** Storing one run's snapshot changes nothing that loading another run returns. */
  lemma LoadUntouched(db: Db, s: AuditState, other: Id)
    requires Integrity(db) && other != s.summary.id
    ensures LoadState(Saved(db, s), other) == LoadState(db, other)
  {
    if other in db.runs {
      var summary := db.runs[other].summary;
      var budget := StoredBudget(db.rows, summary);
      FactsUntouched(db, s, summary);
      AssembleUntouched(db, s, summary.(budget := budget), ActionsOf(db.actions, summary.incidentId, db.position));
      OtherTablesUntouched(db, s, other, Budgets);
    }
  }

  lemma FactsUntouched(db: Db, s: AuditState, summary: RunSummary)
    requires summary.id != s.summary.id
    ensures FactsFor(Saved(db, s), summary) == FactsFor(db, summary)
  {
  }

  lemma AssembleUntouched(db: Db, s: AuditState, summary: RunSummary, actions: seq<ActionItem>)
    requires summary.id != s.summary.id
    ensures Assemble(Saved(db, s).rows, summary, actions) == Assemble(db.rows, summary, actions)
  {
    forall table ensures Select(Saved(db, s).rows, summary.id, table) == Select(db.rows, summary.id, table) {
      OtherTablesUntouched(db, s, summary.id, table);
    }
  }
}
