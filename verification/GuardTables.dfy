/** The guard tables: what each statement on them checks and changes. */
module GuardTables {
  import opened Wrappers
  import opened Contracts
  import opened Database

  function FindRequirement(recs: seq<Rec>, id: Id): Option<CompiledInvariant> {
    if recs == [] then None
    else if recs[0].RequirementRec? && recs[0].requirement.id == id then Some(recs[0].requirement)
    else FindRequirement(recs[1..], id)
  }

  function FindVerdict(recs: seq<Rec>, action: Id): Option<ActionVerdict> {
    if recs == [] then None
    else if recs[0].VerdictRec? && recs[0].verdict.actionId == action then Some(recs[0].verdict)
    else FindVerdict(recs[1..], action)
  }

  /** The run is complete, the requirement belongs to the action, and the action is not fully verified. */
  predicate Grounded(db: Db, g: GuardSpec) {
    && g.runId in db.runs && db.runs[g.runId].summary.status == Complete
    && var requirement := FindRequirement(Select(db.rows, g.runId, Requirements), g.invariantId);
       var verdict := FindVerdict(Select(db.rows, g.runId, Verdicts), g.actionId);
       && requirement.Some? && requirement.value.actionId == g.actionId
       && verdict.Some? && (verdict.value.verdict == Partial || verdict.value.verdict == Missing)
  }

  /** Only the status and the payload of a guard's row ever change. */
  function Rewritten(db: Db, g: GuardSpec): Db
    requires g.id in db.guards
  {
    db.(guards := db.guards[g.id :=
      db.guards[g.id].(preview := g.preview, digest := g.digest, status := g.status)])
  }

  function UpdateGuard(db: Db, g: GuardSpec): Db {
    if g.id in db.guards && db.guards[g.id].runId == g.runId then Rewritten(db, g) else db
  }

  /** Insert a preview, or update the row with its identifier. */
  function SaveGuard(db: Db, g: GuardSpec): Option<Db> {
    if !Grounded(db, g) then None
    else if g.id in db.guards then Some(Rewritten(db, g))
    else if GuardRefsHold(db, db.rows, g) then Some(db.(guards := db.guards[g.id := g]))
    else None
  }

  /** Record the only decision a guard can get. */
  function RecordDecision(db: Db, g: GuardSpec, a: GuardApproval): Option<Db> {
    if Grounded(db, g) && a.guardId == g.id && a.runId == g.runId && a.digest == g.digest
       && g.status == (if a.approved then GuardWritten else GuardRejected)
       && g.id !in db.approvals && g.id in db.guards
    then Some(UpdateGuard(db, g).(approvals := db.approvals[g.id := a]))
    else None
  }

  /** Take back the approval of a guard whose artifact could not be written. */
  function RestorePreview(db: Db, g: GuardSpec): Option<Db> {
    if Grounded(db, g) then Some(UpdateGuard(db, g.(status := GuardPreviewed)).(approvals := db.approvals - {g.id}))
    else None
  }

  predicate HasExecution(executions: seq<GuardExecution>, id: Id) {
    exists x :: x in executions && x.id == id
  }

  function SaveExecution(db: Db, g: GuardSpec, x: GuardExecution): Option<Db> {
    if Grounded(db, g) && g.id in db.approvals && db.approvals[g.id].approved
       && x.guardId == g.id && x.runId == g.runId && x.artifact == g.digest
       && g.id in db.guards && !HasExecution(db.executions, x.id)
    then Some(UpdateGuard(db, g).(executions := db.executions + [x]))
    else None
  }

  /** No guard statement breaks a key or a foreign key, or touches anything but the guard tables. */
  ghost predicate OnlyGuardTables(before: Db, after: Db) {
    after == before.(guards := after.guards, approvals := after.approvals, executions := after.executions)
  }

  lemma RewriteKeepsIntegrity(db: Db, g: GuardSpec)
    requires Integrity(db) && g.id in db.guards
    ensures Integrity(Rewritten(db, g)) && OnlyGuardTables(db, Rewritten(db, g))
  {
  }

  lemma SaveGuardKeepsIntegrity(db: Db, g: GuardSpec)
    requires Integrity(db) && SaveGuard(db, g).Some?
    ensures Integrity(SaveGuard(db, g).value) && OnlyGuardTables(db, SaveGuard(db, g).value)
  {
    if g.id in db.guards {
      RewriteKeepsIntegrity(db, g);
    }
  }

  lemma DecisionKeepsIntegrity(db: Db, g: GuardSpec, a: GuardApproval)
    requires Integrity(db) && RecordDecision(db, g, a).Some?
    ensures Integrity(RecordDecision(db, g, a).value) && OnlyGuardTables(db, RecordDecision(db, g, a).value)
  {
    RewriteKeepsIntegrity(db, g);
  }

  lemma RestoreKeepsIntegrity(db: Db, g: GuardSpec)
    requires Integrity(db) && RestorePreview(db, g).Some?
    ensures Integrity(RestorePreview(db, g).value) && OnlyGuardTables(db, RestorePreview(db, g).value)
  {
    if g.id in db.guards {
      RewriteKeepsIntegrity(db, g.(status := GuardPreviewed));
    }
  }

  lemma ExecutionKeepsIntegrity(db: Db, g: GuardSpec, x: GuardExecution)
    requires Integrity(db) && SaveExecution(db, g, x).Some?
    ensures Integrity(SaveExecution(db, g, x).value) && OnlyGuardTables(db, SaveExecution(db, g, x).value)
  {
    RewriteKeepsIntegrity(db, g);
  }
}
