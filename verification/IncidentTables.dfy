/** Storing an incident with its corrective actions. */
module IncidentTables {
  import opened Wrappers
  import opened Contracts
  import opened Snapshot
  import opened Database
  import opened Persistence

  predicate IncidentAccepted(db: Db, incident: Incident) {
    && (incident.projectId.Some? ==> incident.projectId.value in db.projects)
    && DistinctActions(incident.actions)
    && (forall a :: a in incident.actions ==> a.incidentId == incident.id)
  }

  /** The incident row; moving an incident that a run refers to breaks the run's key. */
  function UpsertIncident(db: Db, id: Id, project: Option<Id>): Option<Db> {
    if id in db.incidents && db.incidents[id] != project
       && exists run :: run in db.runs && db.runs[run].incidentId == id
    then None
    else Some(db.(incidents := db.incidents[id := project]))
  }

  /** The actions left after deleting an incident's actions that are no longer listed. */
  function Retained(actions: seq<ActionItem>, incident: Id, listed: seq<ActionItem>): seq<ActionItem> {
    if actions == [] then []
    else
      (if actions[0].incidentId == incident && !HasAction(listed, actions[0].id) then [] else [actions[0]])
      + Retained(actions[1..], incident, listed)
  }

  /** Deleting a referenced action fails. */
  function DeleteAbsent(db: Db, incident: Incident): Option<Db> {
    var next := db.(actions := Retained(db.actions, incident.id, incident.actions));
    if AllRefsHold(next, next.rows) && AllGuardRefsHold(next, next.rows) then Some(next) else None
  }

  /** Insert an action, or update the row with its identifier in place. */
  function UpsertAction(actions: seq<ActionItem>, a: ActionItem): seq<ActionItem> {
    if actions == [] then [a]
    else if actions[0].id == a.id then [a] + actions[1..]
    else [actions[0]] + UpsertAction(actions[1..], a)
  }

  function UpsertActions(actions: seq<ActionItem>, listed: seq<ActionItem>): seq<ActionItem> {
    if listed == [] then actions
    else UpsertAction(UpsertActions(actions, listed[..|listed| - 1]), listed[|listed| - 1])
  }

  /** The whole transaction, or nothing. */
  function SaveIncidentEffect(db: Db, incident: Incident): Option<Db> {
    match UpsertIncident(db, incident.id, incident.projectId)
    case None => None
    case Some(named) =>
      match DeleteAbsent(named, incident)
      case None => None
      case Some(pruned) => Some(pruned.(actions := UpsertActions(pruned.actions, incident.actions)))
  }

  // ---------------------------------------------------------------------------------------------
  // What is stored is what is loaded
  // ---------------------------------------------------------------------------------------------

  lemma {:induction false} RetainedMembers(actions: seq<ActionItem>, incident: Id, listed: seq<ActionItem>)
    ensures forall a :: a in Retained(actions, incident, listed) <==>
      a in actions && (a.incidentId == incident ==> HasAction(listed, a.id))
    ensures DistinctActions(actions) ==> DistinctActions(Retained(actions, incident, listed))
  {
    if actions != [] {
      RetainedMembers(actions[1..], incident, listed);
      assert actions == [actions[0]] + actions[1..];
      if DistinctActions(actions) {
        var rest := Retained(actions[1..], incident, listed);
        forall i | 0 <= i < |rest| ensures rest[i].id != actions[0].id {
          assert rest[i] in rest;
        }
      }
    }
  }

  lemma {:induction false} UpsertActionMembers(actions: seq<ActionItem>, a: ActionItem)
    requires DistinctActions(actions)
    ensures DistinctActions(UpsertAction(actions, a))
    ensures forall x :: x in UpsertAction(actions, a) <==> x == a || (x in actions && x.id != a.id)
  {
    if actions != [] {
      assert actions == [actions[0]] + actions[1..];
      if actions[0].id == a.id {
        forall x | x in actions[1..] ensures x.id != a.id {
          var i :| 0 <= i < |actions[1..]| && actions[1..][i] == x;
          assert actions[i + 1] == x;
        }
      } else {
        UpsertActionMembers(actions[1..], a);
        var rest := UpsertAction(actions[1..], a);
        forall i | 0 <= i < |rest| ensures rest[i].id != actions[0].id {
          assert rest[i] in rest;
          if rest[i] != a {
            var j :| 0 <= j < |actions[1..]| && actions[1..][j] == rest[i];
          }
        }
      }
    }
  }

  lemma LastListed(listed: seq<ActionItem>)
    requires DistinctActions(listed) && listed != []
    ensures var k := |listed| - 1;
      && (forall x :: x in listed <==> x in listed[..k] || x == listed[k])
      && (forall x :: x in listed[..k] ==> x.id != listed[k].id)
      && (forall id :: HasAction(listed, id) <==> HasAction(listed[..k], id) || listed[k].id == id)
  {
    var k := |listed| - 1;
    var a := listed[k];
    assert listed == listed[..k] + [a];
    forall x | x in listed[..k] ensures x.id != a.id {
      var i :| 0 <= i < k && listed[..k][i] == x;
      assert listed[i] == x;
    }
    forall id ensures HasAction(listed, id) <==> HasAction(listed[..k], id) || a.id == id {
      assert a in listed;
    }
  }

  lemma {:induction false} UpsertActionsMembers(actions: seq<ActionItem>, listed: seq<ActionItem>)
    requires DistinctActions(actions) && DistinctActions(listed)
    ensures DistinctActions(UpsertActions(actions, listed))
    ensures forall x :: x in UpsertActions(actions, listed) <==>
      x in listed || (x in actions && !HasAction(listed, x.id))
  {
    if listed != [] {
      var k := |listed| - 1;
      UpsertActionsMembers(actions, listed[..k]);
      UpsertActionMembers(UpsertActions(actions, listed[..k]), listed[k]);
      LastListed(listed);
    }
  }

  /** The stored actions of the incident are exactly the listed ones; other incidents keep theirs. */
  lemma SavedIncidentMembers(db: Db, incident: Incident)
    requires Integrity(db) && IncidentAccepted(db, incident) && SaveIncidentEffect(db, incident).Some?
    ensures var after := SaveIncidentEffect(db, incident).value;
      && DistinctActions(after.actions)
      && (forall a :: a in ActionsOf(after.actions, incident.id, after.position) <==> a in incident.actions)
      && (forall a :: a in db.actions && a.incidentId != incident.id && !HasAction(incident.actions, a.id) ==>
            a in after.actions)
  {
    var kept := Retained(db.actions, incident.id, incident.actions);
    var after := SaveIncidentEffect(db, incident).value;
    RetainedMembers(db.actions, incident.id, incident.actions);
    UpsertActionsMembers(kept, incident.actions);
    ActionsOfMembers(after.actions, incident.id, after.position);
    forall a | a in incident.actions ensures HasAction(incident.actions, a.id) {
    }
  }

  /** Every identifier that had an action row before the upserts still has one. */
  lemma UpsertsKeepIds(actions: seq<ActionItem>, listed: seq<ActionItem>, id: Id)
    requires DistinctActions(actions) && DistinctActions(listed) && HasAction(actions, id)
    ensures HasAction(UpsertActions(actions, listed), id)
  {
    UpsertActionsMembers(actions, listed);
    var a :| a in actions && a.id == id;
    if HasAction(listed, id) {
      var b :| b in listed && b.id == id;
      assert b in UpsertActions(actions, listed);
    } else {
      assert a in UpsertActions(actions, listed);
    }
  }

  /** Storing an incident keeps every key and foreign key. */
  lemma SaveIncidentKeepsIntegrity(db: Db, incident: Incident)
    requires Integrity(db) && IncidentAccepted(db, incident) && SaveIncidentEffect(db, incident).Some?
    ensures Integrity(SaveIncidentEffect(db, incident).value)
  {
    var pruned := DeleteAbsent(UpsertIncident(db, incident.id, incident.projectId).value, incident).value;
    var after := SaveIncidentEffect(db, incident).value;
    SavedIncidentMembers(db, incident);
    RetainedMembers(db.actions, incident.id, incident.actions);
    forall id | HasAction(pruned.actions, id) ensures HasAction(after.actions, id) {
      UpsertsKeepIds(pruned.actions, incident.actions, id);
    }
    forall row | row in after.rows ensures RefsHold(after.actions, after.rows, row.run, row.rec) {
      assert RefsHold(pruned.actions, pruned.rows, row.run, row.rec);
    }
    forall id | id in after.guards ensures GuardRefsHold(after, after.rows, after.guards[id]) {
      assert GuardRefsHold(pruned, pruned.rows, pruned.guards[id]);
    }
    assert RunRowsOk(after);
  }
}
