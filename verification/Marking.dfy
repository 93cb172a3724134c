/** Storing a loaded snapshot again with one more event, as the failure handler and the gateway do. */
module Marking {
  import opened Wrappers
  import opened Contracts
  import opened Database
  import opened Persistence
  import opened Snapshot
  import opened Storage

  /** No event of the snapshot has the number that the next one gets, or its identifier. */
  predicate NextEventFree(s: AuditState, eventType: EventType) {
    forall e :: e in s.events ==>
      e.sequence != |s.events| && e.id != EventId(s.summary.id, |s.events|, eventType)
  }

  /** The second snapshot has the first one's records and graph, and one more event with the next number. */
  predicate Marks(s: AuditState, t: AuditState, eventType: EventType) {
    && t.summary.id == s.summary.id && t.summary.projectId == s.summary.projectId
    && t.summary.incidentId == s.summary.incidentId && t.summary.budget.rounds == s.summary.budget.rounds
    && (t.summary.status == s.summary.status || t.summary.status != Complete)
    && t == s.(summary := t.summary, events := t.events)
    && |t.events| == |s.events| + 1 && t.events[..|s.events|] == s.events
    && var e := t.events[|s.events|];
       e.id == EventId(s.summary.id, |s.events|, eventType) && e.sequence == |s.events| && e.runId == s.summary.id
  }

  lemma LoadedBelongs(db: Db, run: Id)
    requires Integrity(db) && LoadState(db, run).Loaded?
    ensures var s := LoadState(db, run).state;
      s.summary.id == run && Belongs(db, s)
  {
  }

  lemma MarkedEventsValid(s: AuditState, t: AuditState, eventType: EventType)
    requires EventsValid(s) && Marks(s, t, eventType)
    ensures EventsValid(t) <==> NextEventFree(s, eventType)
  {
    var n := |s.events|;
    assert t.events == s.events + [t.events[n]];
    if EventsValid(t) {
      forall e | e in s.events ensures e.sequence != n && e.id != EventId(s.summary.id, n, eventType) {
        var i :| 0 <= i < n && s.events[i] == e;
        assert t.events[i] == e;
      }
    }
    if NextEventFree(s, eventType) {
      forall i, j | 0 <= i < j < |t.events|
        ensures t.events[i].id != t.events[j].id && t.events[i].sequence != t.events[j].sequence
      {
        assert t.events[i] == s.events[i] && s.events[i] in s.events;
        assert j < n ==> t.events[j] == s.events[j];
      }
    }
  }

  lemma MarkedContent(s: AuditState, t: AuditState, eventType: EventType)
    requires ContentValid(s) && Marks(s, t, eventType)
    ensures ContentValid(t) <==> NextEventFree(s, eventType)
  {
    MarkedEventsValid(s, t, eventType);
    assert RequirementsValid(t) && SpecsValid(t) && RoundsValid(t);
    MarkedRecords(s, t, eventType);
  }

  lemma MarkedRecords(s: AuditState, t: AuditState, eventType: EventType)
    requires ContentValid(s) && Marks(s, t, eventType)
    ensures EvidenceValid(t) && ResultsValid(t) && VerdictsValid(t)
  {
  }

  lemma MarkedGraph(s: AuditState, t: AuditState, eventType: EventType)
    requires GraphValid(s) && Marks(s, t, eventType)
    ensures GraphValid(t)
  {
    assert RecordsOf(t) == RecordsOf(s);
  }

  /** A marked snapshot is valid where the original is, unless its new event repeats one. */
  lemma MarkedBelongs(db: Db, s: AuditState, t: AuditState, eventType: EventType)
    requires Belongs(db, s) && Marks(s, t, eventType)
    ensures Belongs(db, t) <==> NextEventFree(s, eventType)
  {
    MarkedContent(s, t, eventType);
    MarkedGraph(s, t, eventType);
    assert FactsFor(db, t.summary) == FactsFor(db, s.summary);
  }

  /** A fault past the commit is none. */
  predicate Uncut(t: AuditState, fault: Option<nat>) {
    fault.None? || fault.value > |SaveScript(t)|
  }

  lemma UncutSaves(db: Db, t: AuditState, fault: Option<nat>)
    requires Integrity(db) && Uncut(t, fault)
    ensures SaveEffect(db, t, fault).0 == Stored <==>
      Belongs(db, t) && GuardFree(db, t.summary.id) && DistinctRecordIds(t.nodes)
  {
    SaveSucceedsIff(db, t);
  }

  lemma CutNeverSaves(db: Db, t: AuditState, fault: Option<nat>)
    requires !Uncut(t, fault)
    ensures SaveEffect(db, t, fault).0 != Stored
  {
    if Belongs(db, t) && ExecAll(db, SaveScript(t)[..fault.value]).None? {
      FailedPrefix(db, SaveScript(t), fault.value);
    }
  }

  /** Exactly when a marked snapshot is stored. */
  lemma MarkedIsStoredIff(db: Db, s: AuditState, t: AuditState, eventType: EventType, fault: Option<nat>)
    requires Integrity(db) && Belongs(db, s) && Marks(s, t, eventType)
    ensures SaveEffect(db, t, fault).0 == Stored <==>
      && Uncut(t, fault) && GuardFree(db, s.summary.id)
      && DistinctRecordIds(s.nodes) && NextEventFree(s, eventType)
  {
    MarkedBelongs(db, s, t, eventType);
    if Uncut(t, fault) {
      UncutSaves(db, t, fault);
    } else {
      CutNeverSaves(db, t, fault);
    }
  }
}
