/** Model-call and investigation-round budgets of a run, and the counter kept for an incident. */
module Budget {
  import opened Wrappers
  import opened Contracts

  const MAX_MODEL_CALLS_PER_INCIDENT: nat := 6
  const DEFAULT_ROUND_LIMIT: nat := 3

  function Min(a: int, b: int): int {
    if a <= b then a else b
  }

  // ---------------------------------------------------------------------------------------------
  // The tracker of one stage
  // ---------------------------------------------------------------------------------------------

  function RoundsUsed(usage: BudgetUsage, requirement: Id): nat {
    if requirement in usage.rounds then usage.rounds[requirement] else 0
  }

  /** The usage after one more round for a requirement, unless that exceeds the limit. */
  function WithRound(usage: BudgetUsage, requirement: Id): Option<BudgetUsage> {
    var current := RoundsUsed(usage, requirement);
    if current >= usage.roundLimit then None
    else Some(usage.(rounds := usage.rounds[requirement := current + 1]))
  }

  class BudgetTracker {
    var usage: BudgetUsage

    constructor (usage: BudgetUsage)
      ensures this.usage == usage
    {
      this.usage := usage;
    }

    method ConsumeModelCall() returns (exceeded: bool)
      requires usage.Valid()
      modifies this
      ensures usage.Valid()
      ensures exceeded <==> old(usage).used >= old(usage).limit
      ensures usage == if exceeded then old(usage) else old(usage).(used := old(usage).used + 1)
    {
      exceeded := usage.used >= usage.limit;
      if !exceeded {
        usage := usage.(used := usage.used + 1);
      }
    }

    method ConsumeInvestigationRound(requirement: Id) returns (exceeded: bool)
      requires usage.Valid()
      modifies this
      ensures usage.Valid()
      ensures exceeded <==> WithRound(old(usage), requirement).None?
      ensures usage == if exceeded then old(usage) else WithRound(old(usage), requirement).value
    {
      var rounds := usage.rounds;
      var current := if requirement in rounds then rounds[requirement] else 0;
      exceeded := current >= usage.roundLimit;
      if !exceeded {
        usage := usage.(rounds := rounds[requirement := current + 1]);
      }
    }

    method RecordCheck()
      modifies this
      ensures usage == old(usage).(checksRun := old(usage).checksRun + 1)
    {
      usage := usage.(checksRun := usage.checksRun + 1);
    }
  }

  // ---------------------------------------------------------------------------------------------
  // The incident counter
  // ---------------------------------------------------------------------------------------------

  datatype ReserveError = UnknownIncident | InvalidLimit | Exhausted

  /** What one reservation makes of the stored counter. */
  function Reserve(counter: Option<BudgetUsage>, limit: int): Result<BudgetUsage, ReserveError> {
    if counter.None? && limit < 1 then Err(InvalidLimit)
    else
      var current := if counter.Some? then counter.value else BudgetUsage(0, limit, DEFAULT_ROUND_LIMIT, map[], 0);
      var effective := Min(Min(current.limit, limit), MAX_MODEL_CALLS_PER_INCIDENT);
      if current.used >= effective then Err(Exhausted)
      else Ok(current.(used := current.used + 1, limit := effective))
  }

  function Used(counter: Option<BudgetUsage>): nat {
    if counter.Some? then counter.value.used else 0
  }

  /** A stored counter as every writer leaves it. */
  predicate CounterOk(counter: Option<BudgetUsage>) {
    counter.Some? ==> counter.value.Valid() && counter.value.limit <= MAX_MODEL_CALLS_PER_INCIDENT
  }

  /** A reservation counts one call more, never raises the limit, and keeps the counter sound. */
  lemma ReserveCounts(counter: Option<BudgetUsage>, limit: int)
    requires CounterOk(counter) && Reserve(counter, limit).Ok?
    ensures var after := Reserve(counter, limit).value;
      && CounterOk(Some(after))
      && after.used == Used(counter) + 1
      && after.limit <= limit
      && (counter.Some? ==> after.limit <= counter.value.limit)
  {
  }

  /** Reservations succeed exactly while calls remain under every limit in force. */
  lemma ReserveIff(counter: Option<BudgetUsage>, limit: int)
    requires CounterOk(counter)
    ensures Reserve(counter, limit).Ok? <==>
      && Used(counter) < limit && Used(counter) < MAX_MODEL_CALLS_PER_INCIDENT
      && (counter.Some? ==> counter.value.used < counter.value.limit)
  {
  }

  // ---------------------------------------------------------------------------------------------
  // The migration that introduced the incident counter
  // ---------------------------------------------------------------------------------------------

  /** A run's budget counter, joined with the incident it belongs to. */
  datatype RunBudget = RunBudget(incidentId: Id, usage: BudgetUsage)

  function UsedSum(rows: seq<RunBudget>, incident: Id): nat {
    if rows == [] then 0
    else (if rows[0].incidentId == incident then rows[0].usage.used else 0) + UsedSum(rows[1..], incident)
  }

  function LeastLimit(rows: seq<RunBudget>, incident: Id): int {
    if rows == [] then MAX_MODEL_CALLS_PER_INCIDENT
    else
      var rest := LeastLimit(rows[1..], incident);
      if rows[0].incidentId == incident then Min(rows[0].usage.limit, rest) else rest
  }

  predicate HasRun(rows: seq<RunBudget>, incident: Id) {
    exists row :: row in rows && row.incidentId == incident
  }

  /** The counter an incident migrates to. */
  function Migrated(rows: seq<RunBudget>, incident: Id): BudgetUsage {
    var limit := LeastLimit(rows, incident);
    var used := Min(Min(MAX_MODEL_CALLS_PER_INCIDENT, UsedSum(rows, incident)), limit);
    BudgetUsage(if used < 0 then 0 else used, limit, DEFAULT_ROUND_LIMIT, map[], 0)
  }

  lemma {:induction false} UsedSumSnoc(rows: seq<RunBudget>, row: RunBudget, incident: Id)
    ensures UsedSum(rows + [row], incident)
         == UsedSum(rows, incident) + if row.incidentId == incident then row.usage.used else 0
    ensures LeastLimit(rows + [row], incident)
         == if row.incidentId == incident then Min(row.usage.limit, LeastLimit(rows, incident))
            else LeastLimit(rows, incident)
  {
    if rows != [] {
      UsedSumSnoc(rows[1..], row, incident);
      assert (rows + [row])[1..] == rows[1..] + [row];
    } else {
      assert (rows + [row])[1..] == [];
    }
  }

  lemma {:induction false} SumWithout(rows: seq<RunBudget>, k: nat, incident: Id)
    requires k < |rows|
    ensures var rest := rows[..k] + rows[k + 1..];
      && UsedSum(rows, incident)
         == UsedSum(rest, incident) + (if rows[k].incidentId == incident then rows[k].usage.used else 0)
      && LeastLimit(rows, incident)
         == (if rows[k].incidentId == incident then Min(rows[k].usage.limit, LeastLimit(rest, incident))
             else LeastLimit(rest, incident))
  {
    var rest := rows[..k] + rows[k + 1..];
    if k == 0 {
      assert rest == rows[1..];
    } else {
      SumWithout(rows[1..], k - 1, incident);
      assert rest[1..] == rows[1..][..k - 1] + rows[1..][k..];
    }
  }

  /** The migrated counter does not depend on the order in which the rows are read. */
  lemma {:induction false} MigrationIgnoresOrder(rows: seq<RunBudget>, other: seq<RunBudget>, incident: Id)
    requires multiset(rows) == multiset(other)
    ensures Migrated(rows, incident) == Migrated(other, incident)
  {
    TotalsIgnoreOrder(rows, other, incident);
  }

  /** The first row of a permutation, found and removed from the other order. */
  lemma RemoveFirst(rows: seq<RunBudget>, other: seq<RunBudget>) returns (k: nat)
    requires rows != [] && multiset(rows) == multiset(other)
    ensures k < |other| && other[k] == rows[0]
    ensures multiset(rows[1..]) == multiset(other[..k] + other[k + 1..])
  {
    assert rows[0] in multiset(other);
    k :| 0 <= k < |other| && other[k] == rows[0];
    assert rows == [rows[0]] + rows[1..];
    assert other == other[..k] + [other[k]] + other[k + 1..];
    assert multiset(other) == multiset(other[..k] + other[k + 1..]) + multiset{other[k]};
    assert multiset(rows) == multiset(rows[1..]) + multiset{rows[0]};
    assert multiset(rows[1..]) == multiset(rows) - multiset{rows[0]};
    assert multiset(other[..k] + other[k + 1..]) == multiset(other) - multiset{rows[0]};
  }

  lemma {:induction false} TotalsIgnoreOrder(rows: seq<RunBudget>, other: seq<RunBudget>, incident: Id)
    requires multiset(rows) == multiset(other)
    ensures UsedSum(rows, incident) == UsedSum(other, incident)
    ensures LeastLimit(rows, incident) == LeastLimit(other, incident)
  {
    if rows == [] {
      assert |multiset(other)| == 0;
    } else {
      var k := RemoveFirst(rows, other);
      TotalsIgnoreOrder(rows[1..], other[..k] + other[k + 1..], incident);
      SumWithout(other, k, incident);
    }
  }

  predicate RowsValid(rows: seq<RunBudget>) {
    forall row :: row in rows ==> row.usage.Valid()
  }

  lemma {:induction false} LeastLimitPositive(rows: seq<RunBudget>, incident: Id)
    requires RowsValid(rows)
    ensures 1 <= LeastLimit(rows, incident) <= MAX_MODEL_CALLS_PER_INCIDENT
  {
    if rows != [] {
      assert rows[0] in rows;
      LeastLimitPositive(rows[1..], incident);
    }
  }

  /** Without a run an incident adds nothing. */
  lemma {:induction false} NoRunNoTotals(rows: seq<RunBudget>, incident: Id)
    requires !HasRun(rows, incident)
    ensures UsedSum(rows, incident) == 0 && LeastLimit(rows, incident) == MAX_MODEL_CALLS_PER_INCIDENT
  {
    if rows != [] {
      assert rows[0] in rows;
      NoRunNoTotals(rows[1..], incident);
    }
  }

  /** The saturated sum and the least limit of an incident's rows. */
  function Totals(rows: seq<RunBudget>, incident: Id): (int, int) {
    (Min(MAX_MODEL_CALLS_PER_INCIDENT, UsedSum(rows, incident)), LeastLimit(rows, incident))
  }

  predicate TotalsOf(totals: map<Id, (int, int)>, rows: seq<RunBudget>) {
    && (forall row :: row in rows ==> row.incidentId in totals)
    && (forall incident :: incident in totals ==>
          HasRun(rows, incident) && totals[incident] == Totals(rows, incident))
  }

  /** The totals after a row, from the totals before it. */
  function AddRow(totals: map<Id, (int, int)>, row: RunBudget): map<Id, (int, int)> {
    var (used, limit) :=
      if row.incidentId in totals then totals[row.incidentId] else (0, MAX_MODEL_CALLS_PER_INCIDENT);
    totals[row.incidentId :=
      (Min(MAX_MODEL_CALLS_PER_INCIDENT, used + row.usage.used),
       Min(Min(limit, row.usage.limit), MAX_MODEL_CALLS_PER_INCIDENT))]
  }

  lemma AddRowTotals(totals: map<Id, (int, int)>, rows: seq<RunBudget>, row: RunBudget)
    requires TotalsOf(totals, rows) && RowsValid(rows)
    ensures TotalsOf(AddRow(totals, row), rows + [row])
  {
    var after := AddRow(totals, row);
    forall incident | incident in after
      ensures HasRun(rows + [row], incident) && after[incident] == Totals(rows + [row], incident)
    {
      UsedSumSnoc(rows, row, incident);
      LeastLimitPositive(rows, incident);
      if incident !in totals {
        assert row in rows + [row];
        assert !HasRun(rows, incident);
        NoRunNoTotals(rows, incident);
      } else {
        var r :| r in rows && r.incidentId == incident;
        assert r in rows + [row];
      }
    }
  }

  /** The loop of the migration: running totals by incident, then one counter for each. */
  method MigrateCounters(rows: seq<RunBudget>) returns (counters: map<Id, BudgetUsage>)
    requires RowsValid(rows)
    ensures forall incident :: incident in counters <==> HasRun(rows, incident)
    ensures forall incident :: incident in counters ==>
      counters[incident] == Migrated(rows, incident) && CounterOk(Some(counters[incident]))
  {
    var totals: map<Id, (int, int)> := map[];
    for k := 0 to |rows|
      invariant TotalsOf(totals, rows[..k])
    {
      AddRowTotals(totals, rows[..k], rows[k]);
      assert rows[..k + 1] == rows[..k] + [rows[k]];
      totals := AddRow(totals, rows[k]);
    }
    assert rows[..|rows|] == rows;
    forall incident | incident in totals ensures 1 <= LeastLimit(rows, incident) <= MAX_MODEL_CALLS_PER_INCIDENT {
      LeastLimitPositive(rows, incident);
    }
    counters := map incident | incident in totals ::
      BudgetUsage(Min(totals[incident].0, totals[incident].1), totals[incident].1, DEFAULT_ROUND_LIMIT, map[], 0);
  }
}
