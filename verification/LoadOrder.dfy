/** The order in which an incident's actions are loaded. */
module LoadOrder {
  import opened Contracts
  import opened Database
  import opened Persistence

  /** Different identifiers have different texts. */
  predicate TextsDiffer(actions: seq<ActionItem>, position: TextOrder) {
    forall a, b :: a in actions && b in actions && position(a.id) == position(b.id) ==> a.id == b.id
  }

  /** The rest of a sorted list without repetition. */
  lemma TailOf(actions: seq<ActionItem>, position: TextOrder)
    requires actions != [] && DistinctActions(actions)
    ensures InLoadOrder(actions, position) ==> InLoadOrder(actions[1..], position)
    ensures DistinctActions(actions[1..])
    ensures forall x :: x in actions[1..] <==> x in actions && x != actions[0]
  {
    assert actions == [actions[0]] + actions[1..];
    forall x | x in actions[1..] ensures x != actions[0] {
      var i :| 0 <= i < |actions[1..]| && actions[1..][i] == x;
      assert actions[i + 1].id != actions[0].id;
    }
  }

  lemma FirstLoads(actions: seq<ActionItem>, x: ActionItem, position: TextOrder)
    requires InLoadOrder(actions, position) && x in actions
    ensures !LoadsBefore(x, actions[0], position)
  {
    var i :| 0 <= i < |actions| && actions[i] == x;
  }

  /** A set of actions has one loading order. */
  lemma {:induction false} LoadOrderIsCanonical(a: seq<ActionItem>, b: seq<ActionItem>, position: TextOrder)
    requires DistinctActions(a) && DistinctActions(b) && TextsDiffer(a, position)
    requires InLoadOrder(a, position) && InLoadOrder(b, position)
    requires forall x :: x in a <==> x in b
    ensures a == b
  {
    assert b != [] ==> b[0] in b;
    if a != [] {
      assert a[0] in a && a[0] in b && b[0] in b && b[0] in a;
      FirstLoads(a, b[0], position);
      FirstLoads(b, a[0], position);
      SameIdSame(a, a[0], b[0]);
      TailOf(a, position);
      TailOf(b, position);
      LoadOrderIsCanonical(a[1..], b[1..], position);
    }
  }

  lemma SameIdSame(actions: seq<ActionItem>, a: ActionItem, b: ActionItem)
    requires DistinctActions(actions) && a in actions && b in actions
    ensures a.id == b.id ==> a == b
  {
    var i :| 0 <= i < |actions| && actions[i] == a;
    var j :| 0 <= j < |actions| && actions[j] == b;
  }

  /** The loaded actions do not depend on the order of the rows. */
  lemma LoadIgnoresRowOrder(a: seq<ActionItem>, b: seq<ActionItem>, incident: Id, position: TextOrder)
    requires DistinctActions(a) && DistinctActions(b) && TextsDiffer(a, position)
    requires forall x :: x in a <==> x in b
    ensures ActionsOf(a, incident, position) == ActionsOf(b, incident, position)
  {
    ActionsOfMembers(a, incident, position);
    ActionsOfMembers(b, incident, position);
    ActionsOfDistinct(a, incident, position);
    ActionsOfDistinct(b, incident, position);
    ActionsOfSorted(a, incident, position);
    ActionsOfSorted(b, incident, position);
    LoadOrderIsCanonical(ActionsOf(a, incident, position), ActionsOf(b, incident, position), position);
  }

  /** Actions numbered in their order load back in that order. */
  lemma NumberedLoad(listed: seq<ActionItem>, actions: seq<ActionItem>, incident: Id, position: TextOrder)
    requires DistinctActions(actions) && DistinctActions(listed)
    requires forall i :: 0 <= i < |listed| ==> listed[i].order == i
    requires forall x :: x in listed <==> x in ActionsOf(actions, incident, position)
    ensures ActionsOf(actions, incident, position) == listed
  {
    var loaded := ActionsOf(actions, incident, position);
    ActionsOfDistinct(actions, incident, position);
    ActionsOfSorted(actions, incident, position);
    NumberedIsOnlyOrder(listed, loaded, position);
  }

  /** Numbered actions are the only load order of their set: equal numbers never meet. */
  lemma {:induction false} NumberedIsOnlyOrder(listed: seq<ActionItem>, loaded: seq<ActionItem>, position: TextOrder)
    requires DistinctActions(loaded) && DistinctActions(listed) && InLoadOrder(loaded, position)
    requires forall i, j :: 0 <= i < j < |listed| ==> listed[i].order < listed[j].order
    requires forall x :: x in listed <==> x in loaded
    ensures loaded == listed
  {
    assert loaded != [] ==> loaded[0] in loaded;
    if listed != [] {
      assert listed[0] in listed && listed[0] in loaded && loaded[0] in loaded && loaded[0] in listed;
      FirstLoads(loaded, listed[0], position);
      var k :| 0 <= k < |listed| && listed[k] == loaded[0];
      TailOf(listed, position);
      TailOf(loaded, position);
      NumberedIsOnlyOrder(listed[1..], loaded[1..], position);
    }
  }
}
