/**
 The relational store: its tables, its keys and immediate foreign keys, and the statements of the
 transaction that replaces an audit snapshot.
 */
module Database {
  import opened Wrappers
  import opened Contracts
  import opened Snapshot
  import EvidenceGraph

  /** The tables that hold one run's records, deleted and inserted with every snapshot. */
  datatype Table =
    | Edges | Nodes | Results | Verdicts | EvidenceTable | Specs | Requirements | Events | Budgets

  datatype Rec =
    | EdgeRec(edge: GraphEdge)
    | NodeRec(node: GraphNode)
    | ResultRec(result: CheckResult)
    | VerdictRec(verdict: ActionVerdict)
    | EvidenceRec(evidence: Evidence)
    | SpecRec(spec: CheckSpec)
    | RequirementRec(requirement: CompiledInvariant)
    | EventRec(event: WorkflowEvent)
    | BudgetRec(budget: BudgetUsage)

  function TableOf(rec: Rec): Table {
    match rec
    case EdgeRec(_) => Edges
    case NodeRec(_) => Nodes
    case ResultRec(_) => Results
    case VerdictRec(_) => Verdicts
    case EvidenceRec(_) => EvidenceTable
    case SpecRec(_) => Specs
    case RequirementRec(_) => Requirements
    case EventRec(_) => Events
    case BudgetRec(_) => Budgets
  }

  /** A row of a run's tables, in row order. */
  datatype Row = Row(run: Id, rec: Rec)

  datatype RunRow = RunRow(projectId: Id, incidentId: Id, summary: RunSummary)

  /** The place of every identifier in the order of identifier texts. */
  type TextOrder = Id -> nat

  /** The tables; `position` says how the database compares the texts of identifiers. */
  datatype Db = Db(
    position: TextOrder, projects: set<Id>, incidents: map<Id, Option<Id>>, actions: seq<ActionItem>,
    counters: map<Id, BudgetUsage>, runs: map<Id, RunRow>, rows: seq<Row>,
    guards: map<Id, GuardSpec>, approvals: map<Id, GuardApproval>, executions: seq<GuardExecution>)

  // ---------------------------------------------------------------------------------------------
  // Keys and foreign keys
  // ---------------------------------------------------------------------------------------------

  /** Two records of one run that a primary or unique key keeps apart. */
  predicate Conflict(a: Rec, b: Rec) {
    match (a, b)
    case (EdgeRec(x), EdgeRec(y)) => x.id == y.id || (x.source == y.source && x.target == y.target)
    case (NodeRec(x), NodeRec(y)) => x.id == y.id || x.recordId == y.recordId
    case (ResultRec(x), ResultRec(y)) => x.id == y.id
    case (VerdictRec(x), VerdictRec(y)) => x.id == y.id
    case (EvidenceRec(x), EvidenceRec(y)) => x.id == y.id
    case (SpecRec(x), SpecRec(y)) => x.id == y.id
    case (RequirementRec(x), RequirementRec(y)) => x.id == y.id
    case (EventRec(x), EventRec(y)) => x.id == y.id || x.sequence == y.sequence
    case (BudgetRec(_), BudgetRec(_)) => true
    case _ => false
  }

  predicate HasRequirementRow(rows: seq<Row>, run: Id, id: Id) {
    exists row :: row in rows && row.run == run && row.rec.RequirementRec? && row.rec.requirement.id == id
  }

  predicate HasOwnedRequirementRow(rows: seq<Row>, run: Id, id: Id, action: Id) {
    exists row :: row in rows && row.run == run && row.rec.RequirementRec?
      && row.rec.requirement.id == id && row.rec.requirement.actionId == action
  }

  predicate HasSpecRow(rows: seq<Row>, run: Id, id: Id, requirement: Id) {
    exists row :: row in rows && row.run == run && row.rec.SpecRec?
      && row.rec.spec.id == id && row.rec.spec.invariantId == requirement
  }

  predicate HasNodeRow(rows: seq<Row>, run: Id, id: Id) {
    exists row :: row in rows && row.run == run && row.rec.NodeRec? && row.rec.node.id == id
  }

  /** The foreign keys of a record of a run, apart from the one to the run itself. */
  predicate RefsHold(actions: seq<ActionItem>, rows: seq<Row>, run: Id, rec: Rec) {
    match rec
    case EdgeRec(e) => HasNodeRow(rows, run, e.source) && HasNodeRow(rows, run, e.target)
    case ResultRec(r) =>
      HasRequirementRow(rows, run, r.invariantId) && HasSpecRow(rows, run, r.specId, r.invariantId)
    case VerdictRec(v) => HasAction(actions, v.actionId)
    case EvidenceRec(e) =>
      HasAction(actions, e.actionId) && HasOwnedRequirementRow(rows, run, e.invariantId, e.actionId)
    case SpecRec(s) => HasRequirementRow(rows, run, s.invariantId)
    case RequirementRec(i) => HasAction(actions, i.actionId)
    case _ => true
  }

  /** The tables a table's foreign keys refer to. */
  predicate RefersTo(child: Table, parent: Table) {
    || (child == Edges && parent == Nodes)
    || (child == Results && (parent == Requirements || parent == Specs))
    || (child == EvidenceTable && parent == Requirements)
    || (child == Specs && parent == Requirements)
  }

  predicate GuardRefsHold(db: Db, rows: seq<Row>, guard: GuardSpec) {
    && guard.runId in db.runs && HasAction(db.actions, guard.actionId)
    && HasOwnedRequirementRow(rows, guard.runId, guard.invariantId, guard.actionId)
  }

  predicate AllRefsHold(db: Db, rows: seq<Row>) {
    forall row :: row in rows ==> RefsHold(db.actions, rows, row.run, row.rec)
  }

  predicate AllGuardRefsHold(db: Db, rows: seq<Row>) {
    forall id :: id in db.guards ==> GuardRefsHold(db, rows, db.guards[id])
  }

  predicate RunRowsOk(db: Db) {
    forall id :: id in db.runs ==>
      && db.runs[id].summary.id == id
      && db.runs[id].summary.projectId == db.runs[id].projectId
      && db.runs[id].summary.incidentId == db.runs[id].incidentId
      && db.runs[id].incidentId in db.incidents
      && db.incidents[db.runs[id].incidentId] == Some(db.runs[id].projectId)
  }

  /** The primary key of the actions and every foreign key of a run's records and guards. */
  predicate Integrity(db: Db) {
    && (forall i, j :: 0 <= i < j < |db.actions| ==> db.actions[i].id != db.actions[j].id)
    && RunRowsOk(db)
    && (forall row :: row in db.rows ==> row.run in db.runs)
    && AllRefsHold(db, db.rows)
    && AllGuardRefsHold(db, db.rows)
  }

  predicate GuardFree(db: Db, run: Id) {
    forall id :: id in db.guards ==> db.guards[id].runId != run
  }

  // ---------------------------------------------------------------------------------------------
  // Statements
  // ---------------------------------------------------------------------------------------------

  datatype Statement = UpsertRun(summary: RunSummary) | DeleteRows(table: Table, run: Id) | InsertRow(run: Id, rec: Rec)

  function WithoutTable(rows: seq<Row>, run: Id, table: Table): seq<Row> {
    if rows == [] then []
    else (if rows[0].run == run && TableOf(rows[0].rec) == table then [] else [rows[0]])
         + WithoutTable(rows[1..], run, table)
  }

  predicate Clashes(rows: seq<Row>, run: Id, rec: Rec) {
    exists row :: row in rows && row.run == run && Conflict(row.rec, rec)
  }

  /** Run one statement; it fails on a key or an immediate foreign key. */
  function Exec(db: Db, statement: Statement): Option<Db> {
    match statement
    case UpsertRun(summary) =>
      if summary.id in db.runs then
        Some(db.(runs := db.runs[summary.id := db.runs[summary.id].(summary := summary)]))
      else if summary.projectId in db.projects && summary.incidentId in db.incidents
              && db.incidents[summary.incidentId] == Some(summary.projectId) then
        Some(db.(runs := db.runs[summary.id := RunRow(summary.projectId, summary.incidentId, summary)]))
      else None
    case DeleteRows(table, run) =>
      var rows := WithoutTable(db.rows, run, table);
      if AllRefsHold(db, rows) && AllGuardRefsHold(db, rows) then Some(db.(rows := rows)) else None
    case InsertRow(run, rec) =>
      if run in db.runs && RefsHold(db.actions, db.rows, run, rec) && !Clashes(db.rows, run, rec) then
        Some(db.(rows := db.rows + [Row(run, rec)]))
      else None
  }

  function ExecAll(db: Db, statements: seq<Statement>): Option<Db>
    decreases |statements|
  {
    if statements == [] then Some(db)
    else
      match Exec(db, statements[0])
      case None => None
      case Some(next) => ExecAll(next, statements[1..])
  }

  lemma {:induction false} ExecConcat(db: Db, a: seq<Statement>, b: seq<Statement>)
    ensures ExecAll(db, a + b)
         == match ExecAll(db, a) case None => None case Some(next) => ExecAll(next, b)
    decreases |a|
  {
    if a == [] {
      assert a + b == b;
    } else {
      assert (a + b)[1..] == a[1..] + b;
      match Exec(db, a[0])
      case None =>
      case Some(next) => ExecConcat(next, a[1..], b);
    }
  }

  /** The tables in the order in which the transaction empties them. */
  const DELETION_ORDER: seq<Table> :=
    [Edges, Nodes, Results, Verdicts, EvidenceTable, Specs, Requirements, Events, Budgets]

  function Deletions(run: Id, tables: seq<Table>): seq<Statement> {
    seq(|tables|, i requires 0 <= i < |tables| => DeleteRows(tables[i], run))
  }

  function Insertions(run: Id, recs: seq<Rec>): seq<Statement> {
    seq(|recs|, i requires 0 <= i < |recs| => InsertRow(run, recs[i]))
  }

  function RequirementRecs(s: AuditState): seq<Rec> {
    seq(|s.invariants|, i requires 0 <= i < |s.invariants| => RequirementRec(s.invariants[i]))
  }

  function SpecRecs(s: AuditState): seq<Rec> {
    seq(|s.specs|, i requires 0 <= i < |s.specs| => SpecRec(s.specs[i]))
  }

  function EvidenceRecs(s: AuditState): seq<Rec> {
    seq(|s.evidence|, i requires 0 <= i < |s.evidence| => EvidenceRec(s.evidence[i]))
  }

  function ResultRecs(s: AuditState): seq<Rec> {
    seq(|s.results|, i requires 0 <= i < |s.results| => ResultRec(s.results[i]))
  }

  function VerdictRecs(s: AuditState): seq<Rec> {
    seq(|s.verdicts|, i requires 0 <= i < |s.verdicts| => VerdictRec(s.verdicts[i]))
  }

  function NodeRecs(s: AuditState): seq<Rec> {
    seq(|s.nodes|, i requires 0 <= i < |s.nodes| => NodeRec(s.nodes[i]))
  }

  function EdgeRecs(s: AuditState): seq<Rec> {
    seq(|s.edges|, i requires 0 <= i < |s.edges| => EdgeRec(s.edges[i]))
  }

  function EventRecs(s: AuditState): seq<Rec> {
    seq(|s.events|, i requires 0 <= i < |s.events| => EventRec(s.events[i]))
  }

  /** The records of a snapshot, table by table in insertion order. */
  function Segments(s: AuditState): seq<seq<Rec>> {
    [RequirementRecs(s), SpecRecs(s), EvidenceRecs(s), ResultRecs(s), VerdictRecs(s), NodeRecs(s), EdgeRecs(s),
     EventRecs(s), [BudgetRec(s.summary.budget)]]
  }

  function Flatten(segments: seq<seq<Rec>>): seq<Rec> {
    if segments == [] then [] else segments[0] + Flatten(segments[1..])
  }

  function RecsOf(s: AuditState): seq<Rec> {
    Flatten(Segments(s))
  }

  /** The transaction of `save_audit_state`, statement by statement. */
  function SaveScript(s: AuditState): seq<Statement> {
    [UpsertRun(s.summary)] + Deletions(s.summary.id, DELETION_ORDER) + Insertions(s.summary.id, RecsOf(s))
  }

  // ---------------------------------------------------------------------------------------------
  // The state after the transaction
  // ---------------------------------------------------------------------------------------------

  function WithoutRun(rows: seq<Row>, run: Id): seq<Row> {
    if rows == [] then [] else (if rows[0].run == run then [] else [rows[0]]) + WithoutRun(rows[1..], run)
  }

  function Tagged(run: Id, recs: seq<Rec>): seq<Row> {
    seq(|recs|, i requires 0 <= i < |recs| => Row(run, recs[i]))
  }

  function WithRun(db: Db, summary: RunSummary): Db {
    db.(runs := db.runs[summary.id :=
      if summary.id in db.runs then db.runs[summary.id].(summary := summary)
      else RunRow(summary.projectId, summary.incidentId, summary)])
  }

  /** The database with the run's rows replaced by those of the snapshot. */
  function Saved(db: Db, s: AuditState): Db {
    WithRun(db, s.summary).(rows := WithoutRun(db.rows, s.summary.id) + Tagged(s.summary.id, RecsOf(s)))
  }

  function FactsFor(db: Db, summary: RunSummary): Facts {
    Facts(
      summary.projectId in db.projects,
      LoadIncident(db, summary.incidentId),
      if summary.id in db.runs
      then Some((db.runs[summary.id].summary.projectId, db.runs[summary.id].summary.incidentId)) else None)
  }

  // ---------------------------------------------------------------------------------------------
  // Reading
  // ---------------------------------------------------------------------------------------------

  /** The order of loading: by `order`, and among equal orders by identifier text. */
  predicate LoadsBefore(a: ActionItem, b: ActionItem, position: TextOrder) {
    a.order < b.order || (a.order == b.order && position(a.id) < position(b.id))
  }

  predicate InLoadOrder(actions: seq<ActionItem>, position: TextOrder) {
    forall i, j :: 0 <= i < j < |actions| ==> !LoadsBefore(actions[j], actions[i], position)
  }

  function InsertAction(a: ActionItem, sorted: seq<ActionItem>, position: TextOrder): seq<ActionItem> {
    if sorted == [] || LoadsBefore(a, sorted[0], position) then [a] + sorted
    else [sorted[0]] + InsertAction(a, sorted[1..], position)
  }

  /** The actions of an incident in loading order. */
  function ActionsOf(actions: seq<ActionItem>, incident: Id, position: TextOrder): seq<ActionItem> {
    if actions == [] then []
    else
      var before := ActionsOf(actions[..|actions| - 1], incident, position);
      var last := actions[|actions| - 1];
      if last.incidentId == incident then InsertAction(last, before, position) else before
  }

  function LoadIncident(db: Db, id: Id): Option<Incident> {
    if id in db.incidents then Some(Incident(id, db.incidents[id], ActionsOf(db.actions, id, db.position))) else None
  }

  function Select(rows: seq<Row>, run: Id, table: Table): (recs: seq<Rec>)
    ensures forall i :: 0 <= i < |recs| ==> TableOf(recs[i]) == table
  {
    if rows == [] then []
    else (if rows[0].run == run && TableOf(rows[0].rec) == table then [rows[0].rec] else [])
         + Select(rows[1..], run, table)
  }

  function InsertEvent(e: WorkflowEvent, sorted: seq<WorkflowEvent>): seq<WorkflowEvent> {
    if sorted == [] || e.sequence < sorted[0].sequence then [e] + sorted
    else [sorted[0]] + InsertEvent(e, sorted[1..])
  }

  /** Events by sequence number. */
  function SortEvents(events: seq<WorkflowEvent>): seq<WorkflowEvent> {
    if events == [] then []
    else InsertEvent(events[|events| - 1], SortEvents(events[..|events| - 1]))
  }

  /** The stored records of a run, assembled into a snapshot. */
  function Assemble(rows: seq<Row>, summary: RunSummary, actions: seq<ActionItem>): AuditState {
    var run := summary.id;
    var invariants := Select(rows, run, Requirements);
    var specs := Select(rows, run, Specs);
    var evidence := Select(rows, run, EvidenceTable);
    var results := Select(rows, run, Results);
    var verdicts := Select(rows, run, Verdicts);
    var nodes := Select(rows, run, Nodes);
    var edges := Select(rows, run, Edges);
    var events := Select(rows, run, Events);
    AuditState(
      summary, actions,
      seq(|invariants|, i requires 0 <= i < |invariants| => invariants[i].requirement),
      seq(|specs|, i requires 0 <= i < |specs| => specs[i].spec),
      seq(|evidence|, i requires 0 <= i < |evidence| => evidence[i].evidence),
      seq(|results|, i requires 0 <= i < |results| => results[i].result),
      seq(|verdicts|, i requires 0 <= i < |verdicts| => verdicts[i].verdict),
      seq(|nodes|, i requires 0 <= i < |nodes| => nodes[i].node),
      seq(|edges|, i requires 0 <= i < |edges| => edges[i].edge),
      SortEvents(seq(|events|, i requires 0 <= i < |events| => events[i].event)))
  }

  /** The run's own budget row wins over the summary's copy. */
  function StoredBudget(rows: seq<Row>, summary: RunSummary): BudgetUsage {
    var budgets := Select(rows, summary.id, Budgets);
    if budgets == [] then summary.budget else budgets[0].budget
  }

  /** The incident's counter decides the two model-call fields of a loaded budget. */
  function Overlay(db: Db, summary: RunSummary): RunSummary {
    if summary.incidentId in db.counters then
      var counter := db.counters[summary.incidentId];
      summary.(budget := summary.budget.(used := counter.used, limit := counter.limit))
    else summary
  }

  datatype LoadResult = NoRun | Unreadable | Loaded(state: AuditState)

  /** A stored record is read, and the assembled snapshot validated. */
  function Checked(readable: bool, stored: AuditState, state: AuditState, facts: Facts): LoadResult {
    if readable && RecordsOk(stored) && ValidSnapshot(facts, state) then Loaded(state) else Unreadable
  }

  function LoadState(db: Db, run: Id): LoadResult {
    if run !in db.runs then NoRun
    else
      var summary := db.runs[run].summary;
      var incident := LoadIncident(db, summary.incidentId);
      if incident.None? then Unreadable
      else
        var stored := Assemble(db.rows, summary.(budget := StoredBudget(db.rows, summary)), incident.value.actions);
        var state := stored.(summary := Overlay(db, stored.summary));
        Checked(summary.budget.Valid(), stored, state, FactsFor(db, summary))
  }
}
