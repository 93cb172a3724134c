/** The store: one connection whose transactions commit whole or roll back. */
module Storage {
  import opened Wrappers
  import opened Contracts
  import opened Snapshot
  import opened Database
  import opened Persistence
  import GuardTables
  import IncidentTables
  import Budget

  /** How storing a snapshot ends: refused by the validator, by a key, or by the storage itself. */
  datatype SaveOutcome = Stored | Rejected | ConstraintFailed | StorageFailed

  /**
   The effect of storing a snapshot.  The statement numbered `fault`, or the commit after the last
   one, fails for reasons outside the schema.
   */
  function SaveEffect(db: Db, s: AuditState, fault: Option<nat>): (SaveOutcome, Db) {
    if !Belongs(db, s) then (Rejected, db) else ScriptEffect(db, SaveScript(s), fault)
  }

  function ScriptEffect(db: Db, script: seq<Statement>, fault: Option<nat>): (SaveOutcome, Db) {
    if fault.Some? && fault.value <= |script| && ExecAll(db, script[..fault.value]).Some? then (StorageFailed, db)
    else
      match ExecAll(db, script)
      case None => (ConstraintFailed, db)
      case Some(after) => (Stored, after)
  }

  datatype ReserveFailure = Refused(error: Budget.ReserveError) | StorageBusy

  function ReserveEffect(db: Db, incident: Id, limit: int, busy: bool): (Result<BudgetUsage, ReserveFailure>, Db) {
    if busy then (Err(StorageBusy), db)
    else if incident !in db.incidents then (Err(Refused(Budget.UnknownIncident)), db)
    else
      match Budget.Reserve(CounterFor(db, incident), limit)
      case Err(error) => (Err(Refused(error)), db)
      case Ok(updated) => (Ok(updated), db.(counters := db.counters[incident := updated]))
  }

  function CounterFor(db: Db, incident: Id): Option<BudgetUsage> {
    if incident in db.counters then Some(db.counters[incident]) else None
  }

  predicate CountersOk(db: Db) {
    forall incident :: incident in db.counters ==> Budget.CounterOk(Some(db.counters[incident]))
  }

  class SqliteStore {
    var db: Db

    ghost predicate Valid()
      reads this
    {
      Integrity(db) && CountersOk(db)
    }

    constructor (position: TextOrder)
      ensures Valid()
      ensures db == Db(position, {}, map[], [], map[], map[], [], map[], map[], [])
    {
      db := Db(position, {}, map[], [], map[], map[], [], map[], map[], []);
    }

    /** Replace one run's snapshot atomically, after validating all ownership. */
    method SaveAuditState(s: AuditState, fault: Option<nat>) returns (outcome: SaveOutcome)
      requires Valid()
      modifies this
      ensures Valid()
      ensures (outcome, db) == SaveEffect(old(db), s, fault)
    {
      if !Belongs(db, s) {
        return Rejected;
      }
      ghost var before := db;
      outcome := RunScript(SaveScript(s), fault);
      if outcome == Stored {
        SaveKeepsIntegrity(before, s);
        SaveKeepsCounters(before, s);
      }
    }

    /** Run a transaction: all its statements and the commit, or nothing. */
    method RunScript(script: seq<Statement>, fault: Option<nat>) returns (outcome: SaveOutcome)
      modifies this
      ensures (outcome, db) == ScriptEffect(old(db), script, fault)
    {
      var committed := db;
      for k := 0 to |script|
        invariant committed == old(db)
        invariant ExecAll(committed, script[..k]) == Some(db)
        invariant fault.None? || k <= fault.value || fault.value > |script|
      {
        if fault == Some(k) {
          db := committed;
          return StorageFailed;
        }
        ExecSnoc(committed, script, k);
        match Exec(db, script[k]) {
          case None =>
            RefusedAt(committed, script, fault, k);
            db := committed;
            return ConstraintFailed;
          case Some(next) =>
            db := next;
        }
      }
      assert script[..|script|] == script;
      if fault == Some(|script|) {
        db := committed;
        return StorageFailed;
      }
      outcome := Stored;
    }

    method LoadAuditState(run: Id) returns (loaded: LoadResult)
      ensures loaded == LoadState(db, run)
    {
      loaded := LoadState(db, run);
    }

    /** Charge an incident for a provider call before the call can begin. */
    method ReserveIncidentModelCall(incident: Id, limit: int, busy: bool)
      returns (reserved: Result<BudgetUsage, ReserveFailure>)
      requires Valid()
      modifies this
      ensures Valid()
      ensures (reserved, db) == ReserveEffect(old(db), incident, limit, busy)
    {
      if busy {
        return Err(StorageBusy);
      }
      if incident !in db.incidents {
        return Err(Refused(Budget.UnknownIncident));
      }
      var current := CounterFor(db, incident);
      match Budget.Reserve(current, limit) {
        case Err(error) =>
          return Err(Refused(error));
        case Ok(updated) =>
          Budget.ReserveCounts(current, limit);
          db := db.(counters := db.counters[incident := updated]);
          return Ok(updated);
      }
    }

    /** Store an incident with its actions; `fails` stands for a failure outside the schema. */
    method SaveIncident(incident: Incident, fails: bool) returns (ok: bool)
      requires Valid()
      modifies this
      ensures Valid()
      ensures ok <==>
        IncidentTables.IncidentAccepted(old(db), incident) && !fails
        && IncidentTables.SaveIncidentEffect(old(db), incident).Some?
      ensures db == if ok then IncidentTables.SaveIncidentEffect(old(db), incident).value else old(db)
    {
      if !IncidentTables.IncidentAccepted(db, incident) {
        return false;
      }
      var committed := db;
      var named := IncidentTables.UpsertIncident(db, incident.id, incident.projectId);
      if named.None? {
        return false;
      }
      db := named.value;
      var pruned := IncidentTables.DeleteAbsent(db, incident);
      if pruned.None? {
        db := committed;
        return false;
      }
      db := pruned.value;
      for k := 0 to |incident.actions|
        invariant db == pruned.value.(
          actions := IncidentTables.UpsertActions(pruned.value.actions, incident.actions[..k]))
      {
        assert incident.actions[..k + 1][..k] == incident.actions[..k];
        db := db.(actions := IncidentTables.UpsertAction(db.actions, incident.actions[k]));
      }
      assert incident.actions[..|incident.actions|] == incident.actions;
      if fails {
        db := committed;
        return false;
      }
      IncidentTables.SaveIncidentKeepsIntegrity(committed, incident);
      ok := true;
    }

    /** Each guard statement commits, or is refused or cut off and changes nothing. */
    method SaveGuard(g: GuardSpec, fails: bool) returns (ok: bool)
      requires Valid()
      modifies this
      ensures Valid()
      ensures ok <==> !fails && GuardTables.SaveGuard(old(db), g).Some?
      ensures db == if ok then GuardTables.SaveGuard(old(db), g).value else old(db)
    {
      var next := GuardTables.SaveGuard(db, g);
      ok := next.Some? && !fails;
      if ok {
        GuardTables.SaveGuardKeepsIntegrity(db, g);
        db := next.value;
      }
    }

    method RecordGuardDecision(g: GuardSpec, a: GuardApproval, fails: bool) returns (ok: bool)
      requires Valid()
      modifies this
      ensures Valid()
      ensures ok <==> !fails && GuardTables.RecordDecision(old(db), g, a).Some?
      ensures db == if ok then GuardTables.RecordDecision(old(db), g, a).value else old(db)
    {
      var next := GuardTables.RecordDecision(db, g, a);
      ok := next.Some? && !fails;
      if ok {
        GuardTables.DecisionKeepsIntegrity(db, g, a);
        db := next.value;
      }
    }

    method RestoreGuardPreview(g: GuardSpec, fails: bool) returns (ok: bool)
      requires Valid()
      modifies this
      ensures Valid()
      ensures ok <==> !fails && GuardTables.RestorePreview(old(db), g).Some?
      ensures db == if ok then GuardTables.RestorePreview(old(db), g).value else old(db)
    {
      var next := GuardTables.RestorePreview(db, g);
      ok := next.Some? && !fails;
      if ok {
        GuardTables.RestoreKeepsIntegrity(db, g);
        db := next.value;
      }
    }

    method SaveGuardExecution(g: GuardSpec, x: GuardExecution, fails: bool) returns (ok: bool)
      requires Valid()
      modifies this
      ensures Valid()
      ensures ok <==> !fails && GuardTables.SaveExecution(old(db), g, x).Some?
      ensures db == if ok then GuardTables.SaveExecution(old(db), g, x).value else old(db)
    {
      var next := GuardTables.SaveExecution(db, g, x);
      ok := next.Some? && !fails;
      if ok {
        GuardTables.ExecutionKeepsIntegrity(db, g, x);
        db := next.value;
      }
    }
  }

  // ---------------------------------------------------------------------------------------------
  // Steps of the save loop
  // ---------------------------------------------------------------------------------------------

  lemma ExecSnoc(db: Db, script: seq<Statement>, k: nat)
    requires k < |script|
    ensures ExecAll(db, script[..k + 1])
         == match ExecAll(db, script[..k]) case None => None case Some(next) => Exec(next, script[k])
  {
    assert script[..k + 1] == script[..k] + [script[k]];
    ExecConcat(db, script[..k], [script[k]]);
    assert [script[k]][1..] == [];
  }

  /** A failing prefix fails the script. */
  lemma FailedPrefix(db: Db, script: seq<Statement>, k: nat)
    requires k <= |script| && ExecAll(db, script[..k]).None?
    ensures ExecAll(db, script).None?
  {
    assert script == script[..k] + script[k..];
    ExecConcat(db, script[..k], script[k..]);
  }

  lemma FailedPrefixes(db: Db, script: seq<Statement>, k: nat, n: nat)
    requires k <= n <= |script| && ExecAll(db, script[..k]).None?
    ensures ExecAll(db, script[..n]).None?
  {
    assert script[..n][..k] == script[..k];
    FailedPrefix(db, script[..n], k);
  }

  /** A statement that fails before any fault fails the transaction. */
  lemma RefusedAt(db: Db, script: seq<Statement>, fault: Option<nat>, k: nat)
    requires k < |script| && ExecAll(db, script[..k + 1]).None?
    requires fault.None? || k < fault.value || fault.value > |script|
    ensures ScriptEffect(db, script, fault) == (ConstraintFailed, db)
  {
    FailedPrefix(db, script, k + 1);
    if fault.Some? && fault.value <= |script| {
      FailedPrefixes(db, script, k + 1, fault.value);
    }
  }

  lemma {:induction false} ExecKeepsCounters(db: Db, script: seq<Statement>)
    requires ExecAll(db, script).Some?
    ensures ExecAll(db, script).value.counters == db.counters
    ensures ExecAll(db, script).value.guards == db.guards
    ensures ExecAll(db, script).value.approvals == db.approvals
    ensures ExecAll(db, script).value.executions == db.executions
    decreases |script|
  {
    if script != [] {
      ExecKeepsCounters(Exec(db, script[0]).value, script[1..]);
    }
  }

  lemma SaveKeepsCounters(db: Db, s: AuditState)
    requires ExecAll(db, SaveScript(s)).Some?
    ensures ExecAll(db, SaveScript(s)).value.counters == db.counters
  {
    ExecKeepsCounters(db, SaveScript(s));
  }

  // ---------------------------------------------------------------------------------------------
  // What storing a snapshot guarantees
  // ---------------------------------------------------------------------------------------------

  /** Anything but success leaves the store as it was. */
  lemma SaveIsAtomic(db: Db, s: AuditState, fault: Option<nat>)
    ensures SaveEffect(db, s, fault).0 != Stored ==> SaveEffect(db, s, fault).1 == db
  {
  }

  /** Without outside failures, storing a snapshot succeeds exactly when it is valid, no guard pins the
      run and no two graph nodes share a record identifier. */
  lemma SaveSucceedsIff(db: Db, s: AuditState)
    requires Integrity(db)
    ensures SaveEffect(db, s, None).0 == Stored <==>
      Belongs(db, s) && GuardFree(db, s.summary.id) && DistinctRecordIds(s.nodes)
    ensures SaveEffect(db, s, None).0 == Stored ==> SaveEffect(db, s, None).1 == Saved(db, s)
  {
    if Belongs(db, s) {
      if GuardFree(db, s.summary.id) {
        Persistence.SaveOutcome(db, s);
      } else {
        var id :| id in db.guards && db.guards[id].runId == s.summary.id;
        GuardBlocksSave(db, s, id);
      }
    }
  }

  lemma StoredIsSaved(db: Db, s: AuditState, fault: Option<nat>)
    requires Integrity(db) && SaveEffect(db, s, fault).0 == Stored
    ensures SaveEffect(db, s, fault).1 == Saved(db, s) && Integrity(Saved(db, s)) && GuardFree(db, s.summary.id)
  {
    SaveSucceedsIff(db, s);
    SaveKeepsIntegrity(db, s);
  }

  /** A stored snapshot is what loading returns, and no other run is touched. */
  lemma StoredSnapshotLoads(db: Db, s: AuditState, fault: Option<nat>, other: Id)
    requires Integrity(db) && RecordsOk(s) && SaveEffect(db, s, fault).0 == Stored
    ensures LoadState(SaveEffect(db, s, fault).1, s.summary.id) == Loaded(Restored(db, s))
    ensures InLoadOrder(Restored(db, s).actions, db.position)
    ensures forall a :: a in Restored(db, s).actions <==> a in s.actions
    ensures other != s.summary.id ==> LoadState(SaveEffect(db, s, fault).1, other) == LoadState(db, other)
  {
    SaveSucceedsIff(db, s);
    LoadSaved(db, s);
    if other != s.summary.id {
      LoadUntouched(db, s, other);
    }
  }
}
