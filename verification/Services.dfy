/** Incident creation and the model gateway: every provider call is charged before it starts. */
module Services {
  import opened Wrappers
  import opened Contracts
  import opened Database
  import opened Engine
  import opened IncidentTables
  import opened LoadOrder
  import opened Marking
  import opened Persistence
  import opened Pipeline
  import opened PipelineValidity
  import opened Runs
  import opened Snapshot
  import opened Storage
  import Budget

  // ---------------------------------------------------------------------------------------------
  // Creating an incident
  // ---------------------------------------------------------------------------------------------

  /** What happens around one request: storage failures, and the provider's answer if it gives one. */
  datatype CreateFacts = CreateFacts(baseFails: bool, busy: bool, extraction: Option<seq<string>>, saveFails: bool)

  datatype Answer = Created(incident: Incident) | UnknownProject | OtherProject | NotCreated

  /** How a service call ends: the answer, the store, and whether the provider was called. */
  datatype Service<T> = Service(answer: T, db: Db, called: bool)

  function ActionsFrom(incident: Id, texts: seq<string>): seq<ActionItem> {
    seq(|texts|, i requires 0 <= i < |texts| => ActionItem(ActionId(incident, i, texts[i]), incident, texts[i], i))
  }

  function SaveIncidentNode(db: Db, incident: Incident, fails: bool): Option<Db> {
    if IncidentAccepted(db, incident) && !fails then SaveIncidentEffect(db, incident) else None
  }

  /** After the incident is known: reserve, call the provider, and store what it extracted. */
  function ExtractEffect(db: Db, id: Id, project: Option<Id>, limit: int, f: CreateFacts): Service<Answer> {
    match ReserveEffect(db, id, limit, f.busy)
    case (Err(_), _) => Service(NotCreated, db, false)
    case (Ok(_), charged) =>
      match f.extraction
      case None => Service(NotCreated, charged, true)
      case Some(texts) =>
        var incident := Incident(id, project, ActionsFrom(id, texts));
        match SaveIncidentNode(charged, incident, f.saveFails)
        case None => Service(NotCreated, charged, true)
        case Some(saved) => Service(Created(incident), saved, true)
  }

  function CreateEffect(db: Db, project: Option<Id>, sourceText: string, limit: int, f: CreateFacts): Service<Answer> {
    var id := IncidentId(sourceText);
    if project.Some? && project.value !in db.projects then Service(UnknownProject, db, false)
    else
      match LoadIncident(db, id)
      case Some(existing) =>
        if existing.projectId != project then Service(OtherProject, db, false)
        else ExtractEffect(db, id, project, limit, f)
      case None =>
        match SaveIncidentNode(db, Incident(id, project, []), f.baseFails)
        case None => Service(NotCreated, db, false)
        case Some(known) => ExtractEffect(known, id, project, limit, f)
  }

  // ---------------------------------------------------------------------------------------------
  // The gateway
  // ---------------------------------------------------------------------------------------------

  datatype CallFacts = CallFacts(busy: bool, fault: Option<nat>)

  function CallEvent(s: AuditState): WorkflowEvent {
    WorkflowEvent(EventId(s.summary.id, |s.events|, BudgetConsumed), s.summary.id, |s.events|, BudgetConsumed,
                  s.summary.status)
  }

  /** The snapshot that records a reserved call. */
  function Charged(s: AuditState, counter: BudgetUsage): AuditState {
    s.(summary := s.summary.(budget := s.summary.budget.(used := counter.used, limit := counter.limit)),
       events := s.events + [CallEvent(s)])
  }

  /** Load the run, reserve, store the charged snapshot, and only then call the provider. */
  function GatewayEffect(db: Db, run: Id, f: CallFacts): Service<bool> {
    match LoadState(db, run)
    case Loaded(s) =>
      (match ReserveEffect(db, s.summary.incidentId, s.summary.budget.limit, f.busy)
       case (Err(_), _) => Service(false, db, false)
       case (Ok(counter), charged) =>
         var (outcome, after) := SaveEffect(charged, Charged(s, counter), f.fault);
         Service(outcome == Stored, after, outcome == Stored))
    case _ => Service(false, db, false)
  }

  // ---------------------------------------------------------------------------------------------
  // The services on the store
  // ---------------------------------------------------------------------------------------------

  class IncidentService {
    const store: SqliteStore
    const maxModelCalls: int

    constructor (store: SqliteStore, maxModelCalls: int)
      ensures this.store == store && this.maxModelCalls == maxModelCalls
    {
      this.store, this.maxModelCalls := store, maxModelCalls;
    }

    /** `called` tells whether the provider was called. */
    method Create(project: Option<Id>, sourceText: string, f: CreateFacts) returns (answer: Answer, called: bool)
      requires store.Valid()
      modifies store
      ensures store.Valid()
      ensures Service(answer, store.db, called) == CreateEffect(old(store.db), project, sourceText, maxModelCalls, f)
    {
      if project.Some? && project.value !in store.db.projects {
        return UnknownProject, false;
      }
      var id := IncidentId(sourceText);
      var existing := LoadIncident(store.db, id);
      if existing.Some? && existing.value.projectId != project {
        return OtherProject, false;
      }
      if existing.None? {
        var saved := store.SaveIncident(Incident(id, project, []), f.baseFails);
        if !saved {
          return NotCreated, false;
        }
      }
      answer, called := Extract(id, project, f);
    }

    method Extract(id: Id, project: Option<Id>, f: CreateFacts) returns (answer: Answer, called: bool)
      requires store.Valid()
      modifies store
      ensures store.Valid()
      ensures Service(answer, store.db, called) == ExtractEffect(old(store.db), id, project, maxModelCalls, f)
    {
      var reserved := store.ReserveIncidentModelCall(id, maxModelCalls, f.busy);
      if reserved.Err? {
        return NotCreated, false;
      }
      called := true;
      if f.extraction.None? {
        return NotCreated, called;
      }
      var incident := Incident(id, project, ActionsFrom(id, f.extraction.value));
      var saved := store.SaveIncident(incident, f.saveFails);
      answer := if saved then Created(incident) else NotCreated;
    }
  }

  class BoundedProviderGateway {
    const store: SqliteStore
    const run: Id

    constructor (store: SqliteStore, run: Id)
      ensures this.store == store && this.run == run
    {
      this.store, this.run := store, run;
    }

    method Generate(f: CallFacts) returns (answered: bool, called: bool)
      requires store.Valid()
      modifies store
      ensures store.Valid()
      ensures Service(answered, store.db, called) == GatewayEffect(old(store.db), run, f)
    {
      var loaded := store.LoadAuditState(run);
      if !loaded.Loaded? {
        return false, false;
      }
      var state := loaded.state;
      var reserved := store.ReserveIncidentModelCall(state.summary.incidentId, state.summary.budget.limit, f.busy);
      if reserved.Err? {
        return false, false;
      }
      var outcome := store.SaveAuditState(Charged(state, reserved.value), f.fault);
      answered := outcome == Stored;
      called := answered;
    }
  }

  // ---------------------------------------------------------------------------------------------
  // What a call costs
  // ---------------------------------------------------------------------------------------------

  function UsedBy(db: Db, incident: Id): nat {
    Budget.Used(CounterFor(db, incident))
  }

  lemma ReserveCharges(db: Db, id: Id, limit: int, busy: bool)
    requires CountersOk(db)
    ensures var (reserved, after) := ReserveEffect(db, id, limit, busy);
      if reserved.Ok? then
        && after == db.(counters := db.counters[id := reserved.value]) && CountersOk(after)
        && UsedBy(after, id) == UsedBy(db, id) + 1 <= reserved.value.limit <= limit
        && reserved.value.limit <= Budget.MAX_MODEL_CALLS_PER_INCIDENT
      else after == db
  {
    if id in db.incidents && Budget.Reserve(CounterFor(db, id), limit).Ok? {
      Budget.ReserveCounts(CounterFor(db, id), limit);
    }
  }

  lemma SavedIncidentKeepsCounters(db: Db, incident: Incident, fails: bool)
    ensures var saved := SaveIncidentNode(db, incident, fails);
      saved.Some? ==> saved.value.counters == db.counters
  {
  }

  lemma ExtractCharges(db: Db, id: Id, project: Option<Id>, limit: int, f: CreateFacts)
    requires CountersOk(db)
    ensures var s := ExtractEffect(db, id, project, limit, f);
      && CountersOk(s.db)
      && UsedBy(s.db, id) == UsedBy(db, id) + (if s.called then 1 else 0)
      && (s.called ==> UsedBy(s.db, id) <= Budget.Min(limit, Budget.MAX_MODEL_CALLS_PER_INCIDENT))
      && (forall other :: other != id ==> CounterFor(s.db, other) == CounterFor(db, other))
  {
    ReserveCharges(db, id, limit, f.busy);
    var (reserved, charged) := ReserveEffect(db, id, limit, f.busy);
    if reserved.Ok? && f.extraction.Some? {
      SavedIncidentKeepsCounters(charged, Incident(id, project, ActionsFrom(id, f.extraction.value)), f.saveFails);
    }
  }

  /** Creating either stops before the charge, or goes on from a store with the same counters. */
  lemma CreateCases(db: Db, project: Option<Id>, sourceText: string, limit: int, f: CreateFacts) returns (known: Db)
    ensures known.counters == db.counters
    ensures var s, id := CreateEffect(db, project, sourceText, limit, f), IncidentId(sourceText);
      s == ExtractEffect(known, id, project, limit, f) || (s.db == db && !s.called)
  {
    known := db;
    var base := Incident(IncidentId(sourceText), project, []);
    if LoadIncident(db, base.id).None? && SaveIncidentNode(db, base, f.baseFails).Some? {
      SavedIncidentKeepsCounters(db, base, f.baseFails);
      known := SaveIncidentNode(db, base, f.baseFails).value;
    }
  }

  /** A provider call was started exactly when the incident was charged one more call, within its limit. */
  lemma CreateChargesCalls(db: Db, project: Option<Id>, sourceText: string, limit: int, f: CreateFacts)
    requires CountersOk(db)
    ensures var s, id := CreateEffect(db, project, sourceText, limit, f), IncidentId(sourceText);
      && CountersOk(s.db)
      && UsedBy(s.db, id) == UsedBy(db, id) + (if s.called then 1 else 0)
      && (s.called ==> UsedBy(s.db, id) <= Budget.Min(limit, Budget.MAX_MODEL_CALLS_PER_INCIDENT))
      && (forall other :: other != id ==> CounterFor(s.db, other) == CounterFor(db, other))
  {
    var known := CreateCases(db, project, sourceText, limit, f);
    ExtractCharges(known, IncidentId(sourceText), project, limit, f);
  }

  lemma SaveKeepsAllCounters(db: Db, s: AuditState, fault: Option<nat>)
    ensures SaveEffect(db, s, fault).1.counters == db.counters
  {
    if SaveEffect(db, s, fault).0 == Stored {
      ExecKeepsCounters(db, SaveScript(s));
    }
  }

  /** A gateway call that fails before the charge changes nothing; one after it leaves the charged counters. */
  lemma GatewayCases(db: Db, run: Id, f: CallFacts)
    requires LoadState(db, run).Loaded?
    ensures var s, before := GatewayEffect(db, run, f), LoadState(db, run).state;
      var (reserved, charged) := ReserveEffect(db, before.summary.incidentId, before.summary.budget.limit, f.busy);
      if reserved.Ok? then
        && s.db.counters == charged.counters
        && (s.called <==> SaveEffect(charged, Charged(before, reserved.value), f.fault).0 == Stored)
      else s.db == db && !s.called
  {
    var before := LoadState(db, run).state;
    var (reserved, charged) := ReserveEffect(db, before.summary.incidentId, before.summary.budget.limit, f.busy);
    if reserved.Ok? {
      SaveKeepsAllCounters(charged, Charged(before, reserved.value), f.fault);
    }
  }

  lemma ChargedCounters(db: Db, id: Id, limit: int, busy: bool, s: Service<bool>)
    requires CountersOk(db)
    requires var (reserved, charged) := ReserveEffect(db, id, limit, busy);
      if reserved.Ok? then s.db.counters == charged.counters else s.db == db && !s.called
    ensures CountersOk(s.db) && UsedBy(db, id) <= UsedBy(s.db, id) <= UsedBy(db, id) + 1
    ensures s.called ==>
      && UsedBy(s.db, id) == UsedBy(db, id) + 1
      && UsedBy(s.db, id) <= Budget.Min(limit, Budget.MAX_MODEL_CALLS_PER_INCIDENT)
    ensures forall other :: other != id ==> CounterFor(s.db, other) == CounterFor(db, other)
  {
    ReserveCharges(db, id, limit, busy);
  }

  /** The gateway calls only after a committed charge and a committed snapshot; a failed save costs a call. */
  lemma GatewayChargesCalls(db: Db, run: Id, f: CallFacts)
    requires CountersOk(db) && LoadState(db, run).Loaded?
    ensures var s, before := GatewayEffect(db, run, f), LoadState(db, run).state;
      var id := before.summary.incidentId;
      && CountersOk(s.db) && UsedBy(db, id) <= UsedBy(s.db, id) <= UsedBy(db, id) + 1
      && (s.called ==>
            && UsedBy(s.db, id) == UsedBy(db, id) + 1
            && UsedBy(s.db, id) <= Budget.Min(before.summary.budget.limit, Budget.MAX_MODEL_CALLS_PER_INCIDENT))
      && (forall other :: other != id ==> CounterFor(s.db, other) == CounterFor(db, other))
  {
    var before := LoadState(db, run).state;
    GatewayCases(db, run, f);
    ChargedCounters(db, before.summary.incidentId, before.summary.budget.limit, f.busy, GatewayEffect(db, run, f));
  }

  /** The incident has a call left under its own limit, the given one and the absolute one. */
  predicate CallsLeft(db: Db, id: Id, limit: int) {
    && UsedBy(db, id) < limit && UsedBy(db, id) < Budget.MAX_MODEL_CALLS_PER_INCIDENT
    && (id in db.counters ==> db.counters[id].used < db.counters[id].limit)
  }

  lemma ReservesIff(db: Db, id: Id, limit: int, busy: bool)
    requires CountersOk(db)
    ensures ReserveEffect(db, id, limit, busy).0.Ok? <==> !busy && id in db.incidents && CallsLeft(db, id, limit)
  {
    Budget.ReserveIff(CounterFor(db, id), limit);
  }

  /** Charging an incident changes no key, and nothing that a snapshot's validity or its guards depend on. */
  lemma ChargeKeepsStore(db: Db, id: Id, counter: BudgetUsage, s: AuditState)
    requires Integrity(db) && Belongs(db, s) && id in db.incidents
    ensures var charged := db.(counters := db.counters[id := counter]);
      Integrity(charged) && Belongs(charged, s) && (GuardFree(charged, s.summary.id) <==> GuardFree(db, s.summary.id))
  {
    var charged := db.(counters := db.counters[id := counter]);
    assert FactsFor(charged, s.summary) == FactsFor(db, s.summary);
  }

  lemma {:induction false} FlattenedLength(a: seq<seq<Rec>>, b: seq<seq<Rec>>)
    requires |a| == |b| && forall i :: 0 <= i < |a| ==> |a[i]| == |b[i]|
    ensures |Flatten(a)| == |Flatten(b)|
  {
    if a != [] {
      FlattenedLength(a[1..], b[1..]);
    }
  }

  /** The script has one statement for each record, whatever the counter says. */
  lemma ChargedScriptLength(s: AuditState, counter: BudgetUsage)
    ensures |SaveScript(Charged(s, counter))| == |SaveScript(Charged(s, s.summary.budget))|
  {
    FlattenedLength(Segments(Charged(s, counter)), Segments(Charged(s, s.summary.budget)));
  }

  lemma ChargedMarks(s: AuditState, counter: BudgetUsage)
    ensures Marks(s, Charged(s, counter), BudgetConsumed)
  {
  }

  lemma ChargedIsStoredIff(db: Db, id: Id, counter: BudgetUsage, s: AuditState, fault: Option<nat>)
    requires Integrity(db) && Belongs(db, s) && id in db.incidents
    ensures SaveEffect(db.(counters := db.counters[id := counter]), Charged(s, counter), fault).0 == Stored <==>
      && Uncut(Charged(s, s.summary.budget), fault) && GuardFree(db, s.summary.id)
      && DistinctRecordIds(s.nodes) && NextEventFree(s, BudgetConsumed)
  {
    ChargeKeepsStore(db, id, counter, s);
    ChargedMarks(s, counter);
    ChargedScriptLength(s, counter);
    MarkedIsStoredIff(db.(counters := db.counters[id := counter]), s, Charged(s, counter), BudgetConsumed, fault);
  }

  /** Both transactions of a gateway call on a snapshot that is valid. */
  lemma BothCommitIff(db: Db, before: AuditState, f: CallFacts)
    requires Integrity(db) && CountersOk(db) && Belongs(db, before)
    ensures var id, limit := before.summary.incidentId, before.summary.budget.limit;
      var (reserved, charged) := ReserveEffect(db, id, limit, f.busy);
      (reserved.Ok? && SaveEffect(charged, Charged(before, reserved.value), f.fault).0 == Stored) <==>
        && !f.busy && CallsLeft(db, id, limit)
        && Uncut(Charged(before, before.summary.budget), f.fault) && GuardFree(db, before.summary.id)
        && DistinctRecordIds(before.nodes) && NextEventFree(before, BudgetConsumed)
  {
    var id := before.summary.incidentId;
    ReservesIff(db, id, before.summary.budget.limit, f.busy);
    var reserved := ReserveEffect(db, id, before.summary.budget.limit, f.busy).0;
    if reserved.Ok? {
      ChargedIsStoredIff(db, id, reserved.value, before, f.fault);
    }
  }

  /**
   Exactly when the gateway calls the provider: a call is left, nothing cuts off storing the charged
   snapshot, no guard pins the run, and neither the graph nor the number of the new event repeats one.
   */
  lemma GatewayCallsIff(db: Db, run: Id, f: CallFacts)
    requires Integrity(db) && CountersOk(db) && LoadState(db, run).Loaded?
    ensures var before := LoadState(db, run).state;
      var id, limit := before.summary.incidentId, before.summary.budget.limit;
      GatewayEffect(db, run, f).called <==>
        && !f.busy && CallsLeft(db, id, limit)
        && Uncut(Charged(before, before.summary.budget), f.fault) && GuardFree(db, run)
        && DistinctRecordIds(before.nodes) && NextEventFree(before, BudgetConsumed)
  {
    LoadedBelongs(db, run);
    GatewayCases(db, run, f);
    BothCommitIff(db, LoadState(db, run).state, f);
  }

  lemma NumberedLeavesNext(s: AuditState, eventType: EventType)
    requires EventsNumbered(s)
    ensures NextEventFree(s, eventType)
  {
    forall e | e in s.events
      ensures e.sequence != |s.events| && e.id != EventId(s.summary.id, |s.events|, eventType)
    {
      var i :| 0 <= i < |s.events| && s.events[i] == e;
    }
  }

  /** For a snapshot as the workflow stores it, without a guard and a fault, only a spent limit stops a call. */
  lemma WorkflowRunCallsIff(db: Db, before: AuditState, f: CallFacts)
    requires Integrity(db) && CountersOk(db) && LoadState(db, before.summary.id) == Loaded(before)
    requires EventsNumbered(before) && KindTagged(before)
    requires GuardFree(db, before.summary.id) && !f.busy && f.fault.None?
    ensures GatewayEffect(db, before.summary.id, f).called <==>
      CallsLeft(db, before.summary.incidentId, before.summary.budget.limit)
  {
    LoadedBelongs(db, before.summary.id);
    TaggedNodesApart(before);
    NumberedLeavesNext(before, BudgetConsumed);
    GatewayCallsIff(db, before.summary.id, f);
  }

  // ---------------------------------------------------------------------------------------------
  // From an incident to its runs
  // ---------------------------------------------------------------------------------------------

  /** A run can build its budget exactly while the calls used stay within both limits. */
  lemma StartingBudgetIff(db: Db, incident: Id, maxModelCalls: int, maxRounds: int)
    requires CountersOk(db)
    ensures StartingBudget(db, incident, maxModelCalls, maxRounds).Valid() <==>
      && 1 <= maxModelCalls && 1 <= maxRounds && UsedBy(db, incident) <= maxModelCalls
  {
  }

  lemma ExtractedActions(id: Id, texts: seq<string>)
    ensures DistinctActions(ActionsFrom(id, texts))
    ensures forall a :: a in ActionsFrom(id, texts) ==> a.id.ActionId?
    ensures forall a :: a in ActionsFrom(id, texts) ==> a.incidentId == id
  {
  }

  lemma SavedIncidentHosts(db: Db, incident: Incident, run: Id)
    requires Integrity(db) && run !in db.runs && IncidentAccepted(db, incident)
      && SaveIncidentEffect(db, incident).Some?
    ensures var after := SaveIncidentEffect(db, incident).value;
      && Integrity(after) && run !in after.runs && GuardFree(after, run)
      && after.projects == db.projects && after.counters == db.counters
      && LoadIncident(after, incident.id)
         == Some(Incident(incident.id, incident.projectId, ActionsOf(after.actions, incident.id, after.position)))
      && DistinctActions(ActionsOf(after.actions, incident.id, after.position))
      && (forall a :: a in ActionsOf(after.actions, incident.id, after.position) <==> a in incident.actions)
  {
    SaveIncidentKeepsIntegrity(db, incident);
    SavedIncidentMembers(db, incident);
    var after := SaveIncidentEffect(db, incident).value;
    ActionsOfDistinct(after.actions, incident.id, after.position);
  }

  /** An incident that was created loads its actions back in the order in which they were extracted. */
  lemma CreatedIncidentLoads(db: Db, project: Option<Id>, sourceText: string, limit: int, f: CreateFacts)
    requires Integrity(db)
    requires CreateEffect(db, project, sourceText, limit, f).answer.Created?
    ensures var s, id := CreateEffect(db, project, sourceText, limit, f), IncidentId(sourceText);
      && f.extraction.Some?
      && s.answer.incident == Incident(id, project, ActionsFrom(id, f.extraction.value))
      && LoadIncident(s.db, id) == Some(s.answer.incident)
  {
    var id := IncidentId(sourceText);
    var base := Incident(id, project, []);
    if LoadIncident(db, id).Some? {
      ExtractLoads(db, id, project, limit, f);
    } else {
      SaveIncidentKeepsIntegrity(db, base);
      ExtractLoads(SaveIncidentEffect(db, base).value, id, project, limit, f);
    }
  }

  lemma ExtractLoads(db: Db, id: Id, project: Option<Id>, limit: int, f: CreateFacts)
    requires Integrity(db) && ExtractEffect(db, id, project, limit, f).answer.Created?
    ensures var s := ExtractEffect(db, id, project, limit, f);
      && f.extraction.Some?
      && s.answer.incident == Incident(id, project, ActionsFrom(id, f.extraction.value))
      && LoadIncident(s.db, id) == Some(s.answer.incident)
  {
    var charged := ReserveEffect(db, id, limit, f.busy).1;
    SavedIncidentLoads(charged, Incident(id, project, ActionsFrom(id, f.extraction.value)));
  }

  lemma SavedIncidentLoads(db: Db, incident: Incident)
    requires Integrity(db) && IncidentAccepted(db, incident) && SaveIncidentEffect(db, incident).Some?
    requires forall i :: 0 <= i < |incident.actions| ==> incident.actions[i].order == i
    ensures LoadIncident(SaveIncidentEffect(db, incident).value, incident.id) == Some(incident)
  {
    var after := SaveIncidentEffect(db, incident).value;
    SavedIncidentMembers(db, incident);
    NumberedLoad(incident.actions, after.actions, incident.id, after.position);
  }

  /** The run that a created incident can start. */
  function FirstRun(db: Db, incident: Incident, project: Id, run: Id, maxModelCalls: int, maxRounds: int): AuditState {
    Initial(run, project, incident, StartingBudget(db, incident.id, maxModelCalls, maxRounds))
  }

  lemma SavedIncidentStarts(db: Db, id: Id, project: Id, texts: seq<string>, run: Id, limit: int, maxRounds: int)
    requires Integrity(db) && CountersOk(db) && run !in db.runs && project in db.projects && id.IncidentId?
    requires 1 <= limit && 1 <= maxRounds && UsedBy(db, id) <= limit
    requires var incident := Incident(id, Some(project), ActionsFrom(id, texts));
      IncidentAccepted(db, incident) && SaveIncidentEffect(db, incident).Some?
    ensures var incident := Incident(id, Some(project), ActionsFrom(id, texts));
      var after := SaveIncidentEffect(db, incident).value;
      var stored := Incident(id, Some(project), ActionsOf(after.actions, id, after.position));
      var init := FirstRun(after, incident, project, run, limit, maxRounds);
      Hosts(after, init, stored) && Startable(init, stored)
  {
    var incident := Incident(id, Some(project), ActionsFrom(id, texts));
    ExtractedActions(id, texts);
    SavedIncidentHosts(db, incident, run);
    StartingBudgetIff(SaveIncidentEffect(db, incident).value, id, limit, maxRounds);
  }

  /**
   An incident that was created can be audited: its identifiers and actions, its budget and the store
   are as a run needs them to start and to store every snapshot.
   */
  lemma CreatedIncidentStarts(
      db: Db, project: Id, sourceText: string, limit: int, f: CreateFacts, run: Id, maxRounds: int)
    requires Integrity(db) && CountersOk(db) && run !in db.runs && 1 <= maxRounds
    requires CreateEffect(db, Some(project), sourceText, limit, f).answer.Created?
    ensures var s := CreateEffect(db, Some(project), sourceText, limit, f);
      var id := IncidentId(sourceText);
      var stored := Incident(id, Some(project), ActionsOf(s.db.actions, id, s.db.position));
      var init := FirstRun(s.db, s.answer.incident, project, run, limit, maxRounds);
      Hosts(s.db, init, stored) && Startable(init, stored)
  {
    var id := IncidentId(sourceText);
    var base := Incident(id, Some(project), []);
    if LoadIncident(db, id).Some? {
      ExtractStarts(db, id, project, limit, f, run, maxRounds);
    } else {
      SavedIncidentHosts(db, base, run);
      ExtractStarts(SaveIncidentEffect(db, base).value, id, project, limit, f, run, maxRounds);
    }
  }

  lemma ExtractStarts(db: Db, id: Id, project: Id, limit: int, f: CreateFacts, run: Id, maxRounds: int)
    requires Integrity(db) && CountersOk(db) && run !in db.runs && 1 <= maxRounds && project in db.projects
      && id.IncidentId?
    requires ExtractEffect(db, id, Some(project), limit, f).answer.Created?
    ensures var s := ExtractEffect(db, id, Some(project), limit, f);
      var stored := Incident(id, Some(project), ActionsOf(s.db.actions, id, s.db.position));
      var init := FirstRun(s.db, s.answer.incident, project, run, limit, maxRounds);
      Hosts(s.db, init, stored) && Startable(init, stored)
  {
    ReserveCharges(db, id, limit, f.busy);
    var charged := ReserveEffect(db, id, limit, f.busy).1;
    SavedIncidentStarts(charged, id, project, f.extraction.value, run, limit, maxRounds);
  }
}
