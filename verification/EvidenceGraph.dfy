/** Assembly and validation of the evidence graph of a run. */
module EvidenceGraph {
  import opened Wrappers
  import opened Contracts

  /** The records a graph is built over; `checks` are the check results. */
  datatype Records = Records(
    incident: Id, actions: seq<ActionItem>, invariants: seq<CompiledInvariant>, evidence: seq<Evidence>,
    checks: seq<CheckResult>, verdicts: seq<ActionVerdict>)

  datatype Key = Key(nodeType: NodeType, record: Id)

  /** A record below the incident: its key, its owner's key, and how the owner relates to it. */
  datatype Item = Item(key: Key, owner: Key, relation: EdgeType)

  function EvidenceRelation(evidence: Evidence): EdgeType {
    match evidence.role
    case Contradictory => ContradictedBy
    case MissingRole => EvidenceGap
    case UnavailableRole => EvidenceGap
    case _ => if evidence.kind == Test then TestedBy else SupportedBy
  }

  function Root(r: Records): Key {
    Key(IncidentNode, r.incident)
  }

  function ActionEntry(r: Records, a: ActionItem): Item {
    Item(Key(ActionNode, a.id), Root(r), Contains)
  }

  function InvariantEntry(i: CompiledInvariant): Item {
    Item(Key(InvariantNode, i.id), Key(ActionNode, i.actionId), CompiledTo)
  }

  function EvidenceEntry(e: Evidence): Item {
    Item(Key(EvidenceNode, e.id), Key(InvariantNode, e.invariantId), EvidenceRelation(e))
  }

  function CheckEntry(c: CheckResult): Item {
    Item(Key(CheckNode, c.id), Key(InvariantNode, c.invariantId), CheckedBy)
  }

  function VerdictEntry(v: ActionVerdict): Item {
    Item(Key(VerdictNode, v.id), Key(ActionNode, v.actionId), ClassifiedAs)
  }

  function ActionItems(r: Records): seq<Item> {
    seq(|r.actions|, i requires 0 <= i < |r.actions| => ActionEntry(r, r.actions[i]))
  }

  function InvariantItems(r: Records): seq<Item> {
    seq(|r.invariants|, i requires 0 <= i < |r.invariants| => InvariantEntry(r.invariants[i]))
  }

  function EvidenceItems(r: Records): seq<Item> {
    seq(|r.evidence|, i requires 0 <= i < |r.evidence| => EvidenceEntry(r.evidence[i]))
  }

  function CheckItems(r: Records): seq<Item> {
    seq(|r.checks|, i requires 0 <= i < |r.checks| => CheckEntry(r.checks[i]))
  }

  function VerdictItems(r: Records): seq<Item> {
    seq(|r.verdicts|, i requires 0 <= i < |r.verdicts| => VerdictEntry(r.verdicts[i]))
  }

  function Items(r: Records): seq<Item> {
    ActionItems(r) + InvariantItems(r) + EvidenceItems(r) + CheckItems(r) + VerdictItems(r)
  }

  /** What a graph must show: the root and the records below it. */
  datatype Shape = Shape(root: Key, items: seq<Item>)

  function ShapeOf(r: Records): Shape {
    Shape(Root(r), Items(r))
  }

  function ShapeKeys(s: Shape): set<Key> {
    {s.root} + set item | item in s.items :: item.key
  }

  function KeyOf(node: GraphNode): Key {
    Key(node.nodeType, node.recordId)
  }

  function NodeKeys(nodes: seq<GraphNode>): set<Key> {
    set node | node in nodes :: KeyOf(node)
  }

  function NodeIds(nodes: seq<GraphNode>): set<Id> {
    set node | node in nodes :: node.id
  }

  /** The identifier of the node that stands for a record. */
  function NodeName(nodes: seq<GraphNode>, key: Key): Option<Id> {
    if nodes == [] then None
    else if KeyOf(nodes[0]) == key then Some(nodes[0].id)
    else NodeName(nodes[1..], key)
  }

  /** An edge as a triple of source, target and kind. */
  type Relationship = (Option<Id>, Option<Id>, EdgeType)

  function RelationshipOf(edge: GraphEdge): Relationship {
    (Some(edge.source), Some(edge.target), edge.edgeType)
  }

  function ActualEdges(edges: seq<GraphEdge>): set<Relationship> {
    set edge | edge in edges :: RelationshipOf(edge)
  }

  function ExpectedEdge(nodes: seq<GraphNode>, item: Item): Relationship {
    (NodeName(nodes, item.owner), NodeName(nodes, item.key), item.relation)
  }

  function ExpectedEdges(nodes: seq<GraphNode>, items: seq<Item>): set<Relationship> {
    set item | item in items :: ExpectedEdge(nodes, item)
  }

  function Level(nodeType: NodeType): nat {
    match nodeType
    case IncidentNode => 0
    case ActionNode => 1
    case InvariantNode => 2
    case VerdictNode => 2
    case EvidenceNode => 3
    case CheckNode => 3
  }

  predicate DistinctKeys(items: seq<Item>) {
    forall i, j :: 0 <= i < j < |items| ==> items[i].key != items[j].key
  }

  /** Owners lie one level up, and only the root lies on level zero. */
  predicate Layered(s: Shape) {
    && Level(s.root.nodeType) == 0
    && forall item :: item in s.items ==> Level(item.key.nodeType) == Level(item.owner.nodeType) + 1
  }

  /** Each record appears once, one level below its owner. */
  predicate Distinct(s: Shape) {
    DistinctKeys(s.items) && Layered(s)
  }

  // ---------------------------------------------------------------------------------------------
  // What validation accepts
  // ---------------------------------------------------------------------------------------------

  predicate UniqueNodes(nodes: seq<GraphNode>) {
    && (forall i, j :: 0 <= i < j < |nodes| ==> nodes[i].id != nodes[j].id)
    && (forall i, j :: 0 <= i < j < |nodes| ==> KeyOf(nodes[i]) != KeyOf(nodes[j]))
  }

  predicate UniqueEdges(edges: seq<GraphEdge>) {
    && (forall i, j :: 0 <= i < j < |edges| ==> edges[i].id != edges[j].id)
    && (forall i, j :: 0 <= i < j < |edges| ==> RelationshipOf(edges[i]) != RelationshipOf(edges[j]))
  }

  predicate OneRun(nodes: seq<GraphNode>, edges: seq<GraphEdge>, run: Id) {
    && (forall node :: node in nodes ==> node.runId == run)
    && (forall edge :: edge in edges ==> edge.runId == run)
  }

  predicate EndpointsKnown(nodes: seq<GraphNode>, edges: seq<GraphEdge>) {
    forall edge :: edge in edges ==> edge.source in NodeIds(nodes) && edge.target in NodeIds(nodes)
  }

  /** Every owner the edges need has a record; the lookup of a missing one raises. */
  predicate OwnersKnown(s: Shape) {
    forall item :: item in s.items ==> item.owner in ShapeKeys(s)
  }

  predicate Accepts(nodes: seq<GraphNode>, edges: seq<GraphEdge>, run: Id, s: Shape) {
    && UniqueNodes(nodes) && UniqueEdges(edges) && OneRun(nodes, edges, run)
    && NodeKeys(nodes) == ShapeKeys(s)
    && EndpointsKnown(nodes, edges)
    && OwnersKnown(s)
    && ActualEdges(edges) == ExpectedEdges(nodes, s.items)
  }

  /** Acceptance reads the records as sets. */
  lemma AcceptsIgnoresOrder(nodes: seq<GraphNode>, edges: seq<GraphEdge>, run: Id, s: Shape, s': Shape)
    requires s.root == s'.root
    requires forall item :: item in s.items <==> item in s'.items
    requires Accepts(nodes, edges, run, s)
    ensures Accepts(nodes, edges, run, s')
  {
    assert ShapeKeys(s) == ShapeKeys(s');
    assert ExpectedEdges(nodes, s.items) == ExpectedEdges(nodes, s'.items);
  }

  // ---------------------------------------------------------------------------------------------
  // Accepted graphs are trees
  // ---------------------------------------------------------------------------------------------

  /** The node found for a key, and its name. */
  lemma {:induction false} FindNode(nodes: seq<GraphNode>, key: Key) returns (node: GraphNode)
    requires key in NodeKeys(nodes)
    ensures node in nodes && KeyOf(node) == key && NodeName(nodes, key) == Some(node.id)
  {
    if KeyOf(nodes[0]) == key {
      node := nodes[0];
    } else {
      assert nodes == [nodes[0]] + nodes[1..];
      node := FindNode(nodes[1..], key);
    }
  }

  /** A node is found under its own key. */
  lemma NodeNamed(nodes: seq<GraphNode>, node: GraphNode)
    requires UniqueNodes(nodes) && node in nodes
    ensures NodeName(nodes, KeyOf(node)) == Some(node.id)
  {
    assert KeyOf(node) in NodeKeys(nodes);
    var found := FindNode(nodes, KeyOf(node));
    var i :| 0 <= i < |nodes| && nodes[i] == node;
    var j :| 0 <= j < |nodes| && nodes[j] == found;
  }

  /** Different keys have different names. */
  lemma NamesInjective(nodes: seq<GraphNode>, a: Key, b: Key)
    requires UniqueNodes(nodes) && a in NodeKeys(nodes) && b in NodeKeys(nodes)
    ensures NodeName(nodes, a) == NodeName(nodes, b) <==> a == b
  {
    var x := FindNode(nodes, a);
    var y := FindNode(nodes, b);
    var i :| 0 <= i < |nodes| && nodes[i] == x;
    var j :| 0 <= j < |nodes| && nodes[j] == y;
  }

  lemma SameKeySameItem(items: seq<Item>, a: Item, b: Item)
    requires DistinctKeys(items) && a in items && b in items && a.key == b.key
    ensures a == b
  {
    var i :| 0 <= i < |items| && items[i] == a;
    var j :| 0 <= j < |items| && items[j] == b;
  }

  /** The record an edge of an accepted graph leads to. */
  lemma EdgeItem(nodes: seq<GraphNode>, edges: seq<GraphEdge>, s: Shape, edge: GraphEdge) returns (item: Item)
    requires ActualEdges(edges) == ExpectedEdges(nodes, s.items) && OwnersKnown(s) && edge in edges
    ensures item in s.items && ExpectedEdge(nodes, item) == RelationshipOf(edge)
    ensures item.key in ShapeKeys(s) && item.owner in ShapeKeys(s)
  {
    assert RelationshipOf(edge) in ActualEdges(edges);
    item :| item in s.items && ExpectedEdge(nodes, item) == RelationshipOf(edge);
  }

  /** The edge of an accepted graph that leads to a record. */
  lemma ItemEdge(nodes: seq<GraphNode>, edges: seq<GraphEdge>, s: Shape, item: Item) returns (edge: GraphEdge)
    requires ActualEdges(edges) == ExpectedEdges(nodes, s.items) && item in s.items
    ensures edge in edges && ExpectedEdge(nodes, item) == RelationshipOf(edge)
  {
    assert ExpectedEdge(nodes, item) in ExpectedEdges(nodes, s.items);
    edge :| edge in edges && ExpectedEdge(nodes, item) == RelationshipOf(edge);
  }

  /** Two edges of an accepted graph with the same target are the same edge. */
  lemma OneIncomingEdge(nodes: seq<GraphNode>, edges: seq<GraphEdge>, run: Id, s: Shape, i: nat, j: nat)
    requires Accepts(nodes, edges, run, s) && Distinct(s)
    requires i < |edges| && j < |edges| && edges[i].target == edges[j].target
    ensures i == j
  {
    var a := EdgeItem(nodes, edges, s, edges[i]);
    var b := EdgeItem(nodes, edges, s, edges[j]);
    NamesInjective(nodes, a.key, b.key);
    SameKeySameItem(s.items, a, b);
    assert RelationshipOf(edges[i]) == RelationshipOf(edges[j]);
  }

  /** A path of `k` edges leads from the root to the node. */
  ghost predicate Reaches(edges: seq<GraphEdge>, root: Id, id: Id, k: nat)
    decreases k
  {
    if k == 0 then id == root
    else exists edge :: edge in edges && edge.target == id && Reaches(edges, root, edge.source, k - 1)
  }

  lemma {:induction false} LevelsAreReached(
      nodes: seq<GraphNode>, edges: seq<GraphEdge>, run: Id, s: Shape, root: Id, id: Id, key: Key)
    requires Accepts(nodes, edges, run, s) && Layered(s)
    requires NodeName(nodes, s.root) == Some(root)
    requires key in ShapeKeys(s) && NodeName(nodes, key) == Some(id)
    ensures Reaches(edges, root, id, Level(key.nodeType))
    decreases Level(key.nodeType)
  {
    if key != s.root {
      var item :| item in s.items && item.key == key;
      var edge := ItemEdge(nodes, edges, s, item);
      LevelsAreReached(nodes, edges, run, s, root, edge.source, item.owner);
    }
  }

  function Targets(edges: seq<GraphEdge>): set<Id> {
    set edge | edge in edges :: edge.target
  }

  predicate DistinctTargets(edges: seq<GraphEdge>) {
    forall i, j :: 0 <= i < j < |edges| ==> edges[i].target != edges[j].target
  }

  lemma {:induction false} TargetCount(edges: seq<GraphEdge>)
    requires DistinctTargets(edges)
    ensures |Targets(edges)| == |edges|
  {
    if edges != [] {
      var k := |edges| - 1;
      TargetCount(edges[..k]);
      assert edges == edges[..k] + [edges[k]];
      assert Targets(edges) == Targets(edges[..k]) + {edges[k].target};
    }
  }

  lemma {:induction false} NodeCount(nodes: seq<GraphNode>)
    requires forall i, j :: 0 <= i < j < |nodes| ==> nodes[i].id != nodes[j].id
    ensures |NodeIds(nodes)| == |nodes|
  {
    if nodes != [] {
      var k := |nodes| - 1;
      NodeCount(nodes[..k]);
      assert nodes == nodes[..k] + [nodes[k]];
      assert NodeIds(nodes) == NodeIds(nodes[..k]) + {nodes[k].id};
    }
  }

  /** Every node but the root is the target of an edge, and nothing else is. */
  lemma TargetsAreNonRoots(nodes: seq<GraphNode>, edges: seq<GraphEdge>, run: Id, s: Shape, root: Id)
    requires Accepts(nodes, edges, run, s) && Layered(s) && NodeName(nodes, s.root) == Some(root)
    ensures Targets(edges) == NodeIds(nodes) - {root}
  {
    forall id | id in Targets(edges) ensures id in NodeIds(nodes) - {root} {
      var edge :| edge in edges && edge.target == id;
      var item := EdgeItem(nodes, edges, s, edge);
      NamesInjective(nodes, item.key, s.root);
    }
    forall id | id in NodeIds(nodes) - {root} ensures id in Targets(edges) {
      var node :| node in nodes && node.id == id;
      NodeNamed(nodes, node);
      assert KeyOf(node) in NodeKeys(nodes);
      var item :| item in s.items && item.key == KeyOf(node);
      var edge := ItemEdge(nodes, edges, s, item);
    }
  }

  /** An accepted graph is a tree of depth at most three rooted at the incident. */
  predicate IsTree(nodes: seq<GraphNode>, edges: seq<GraphEdge>, root: Id) {
    && |edges| == |nodes| - 1
    && DistinctTargets(edges)
    && root in NodeIds(nodes)
    && Targets(edges) == NodeIds(nodes) - {root}
  }

  lemma AcceptedGraphIsTree(nodes: seq<GraphNode>, edges: seq<GraphEdge>, run: Id, s: Shape)
    requires Accepts(nodes, edges, run, s) && Distinct(s)
    ensures NodeName(nodes, s.root).Some? && IsTree(nodes, edges, NodeName(nodes, s.root).value)
  {
    var top := FindNode(nodes, s.root);
    forall i, j | 0 <= i < j < |edges| ensures edges[i].target != edges[j].target {
      if edges[i].target == edges[j].target {
        OneIncomingEdge(nodes, edges, run, s, i, j);
      }
    }
    TargetCount(edges);
    NodeCount(nodes);
    TargetsAreNonRoots(nodes, edges, run, s, top.id);
  }

  /** Every node hangs below the incident by a path as long as its level. */
  lemma AcceptedGraphDepth(nodes: seq<GraphNode>, edges: seq<GraphEdge>, run: Id, s: Shape, node: GraphNode)
    requires Accepts(nodes, edges, run, s) && Layered(s) && node in nodes
    ensures NodeName(nodes, s.root).Some?
    ensures Level(node.nodeType) <= 3
    ensures Reaches(edges, NodeName(nodes, s.root).value, node.id, Level(node.nodeType))
  {
    var top := FindNode(nodes, s.root);
    NodeNamed(nodes, node);
    assert KeyOf(node) in NodeKeys(nodes);
    LevelsAreReached(nodes, edges, run, s, top.id, node.id, KeyOf(node));
  }

  /** Each record's only incoming edge comes from its owner's node and says how they relate. */
  lemma EdgesComeFromOwners(
      nodes: seq<GraphNode>, edges: seq<GraphEdge>, run: Id, s: Shape, edge: GraphEdge, item: Item)
    requires Accepts(nodes, edges, run, s) && Distinct(s)
    requires edge in edges && item in s.items && NodeName(nodes, item.key) == Some(edge.target)
    ensures NodeName(nodes, item.owner) == Some(edge.source) && edge.edgeType == item.relation
  {
    var own := EdgeItem(nodes, edges, s, edge);
    NamesInjective(nodes, own.key, item.key);
    SameKeySameItem(s.items, own, item);
  }

  /** The graph has an edge of this kind from the node of one record to the node of another. */
  predicate Linked(nodes: seq<GraphNode>, edges: seq<GraphEdge>, item: Item) {
    && item.owner in NodeKeys(nodes) && item.key in NodeKeys(nodes)
    && ExpectedEdge(nodes, item) in ActualEdges(edges)
  }

  /** Between records, an accepted graph has exactly the expected links. */
  lemma LinksAreItems(nodes: seq<GraphNode>, edges: seq<GraphEdge>, run: Id, s: Shape, item: Item)
    requires Accepts(nodes, edges, run, s)
    ensures Linked(nodes, edges, item) <==> item in s.items
  {
    if Linked(nodes, edges, item) {
      var own :| own in s.items && ExpectedEdge(nodes, own) == ExpectedEdge(nodes, item);
      assert own.key in ShapeKeys(s) && own.owner in ShapeKeys(s);
      NamesInjective(nodes, own.key, item.key);
      NamesInjective(nodes, own.owner, item.owner);
    }
    assert item in s.items ==>
      item.key in ShapeKeys(s) && ExpectedEdge(nodes, item) in ExpectedEdges(nodes, s.items);
  }

  /** Two accepted graphs over the same records differ only in identifiers, labels and order. */
  lemma AcceptedGraphsAgree(
      nodes: seq<GraphNode>, edges: seq<GraphEdge>, nodes': seq<GraphNode>, edges': seq<GraphEdge>,
      run: Id, run': Id, s: Shape)
    requires Accepts(nodes, edges, run, s) && Accepts(nodes', edges', run', s)
    ensures NodeKeys(nodes) == NodeKeys(nodes')
    ensures forall item :: Linked(nodes, edges, item) <==> Linked(nodes', edges', item)
  {
    forall item ensures Linked(nodes, edges, item) <==> Linked(nodes', edges', item) {
      LinksAreItems(nodes, edges, run, s, item);
      LinksAreItems(nodes', edges', run', s, item);
    }
  }

  // ---------------------------------------------------------------------------------------------
  // The graph that is built
  // ---------------------------------------------------------------------------------------------

  function NodeOf(run: Id, key: Key): GraphNode {
    GraphNode(NodeId(run, key.nodeType, key.record), run, key.nodeType, key.record)
  }

  function EdgeOf(run: Id, item: Item): GraphEdge {
    var source, target := NodeOf(run, item.owner).id, NodeOf(run, item.key).id;
    GraphEdge(EdgeId(run, source, target, item.relation), run, source, target, item.relation)
  }

  function ItemNodes(run: Id, items: seq<Item>): seq<GraphNode> {
    seq(|items|, i requires 0 <= i < |items| => NodeOf(run, items[i].key))
  }

  function NodesOf(run: Id, s: Shape): seq<GraphNode> {
    [NodeOf(run, s.root)] + ItemNodes(run, s.items)
  }

  function EdgesOf(run: Id, s: Shape): seq<GraphEdge> {
    seq(|s.items|, i requires 0 <= i < |s.items| => EdgeOf(run, s.items[i]))
  }

  lemma BuiltNodesUnique(run: Id, s: Shape)
    requires Distinct(s)
    ensures UniqueNodes(NodesOf(run, s))
    ensures NodeKeys(NodesOf(run, s)) == ShapeKeys(s)
  {
    var nodes := NodesOf(run, s);
    forall i, j | 0 <= i < j < |nodes| ensures nodes[i].id != nodes[j].id && KeyOf(nodes[i]) != KeyOf(nodes[j]) {
      assert KeyOf(nodes[j]) == s.items[j - 1].key && s.items[j - 1] in s.items;
      if i > 0 {
        assert KeyOf(nodes[i]) == s.items[i - 1].key;
      }
    }
    forall key | key in ShapeKeys(s) ensures key in NodeKeys(nodes) {
      BuiltNodeFound(run, s, key);
    }
    forall key | key in NodeKeys(nodes) ensures key in ShapeKeys(s) {
      var i :| 0 <= i < |nodes| && KeyOf(nodes[i]) == key;
      if i > 0 {
        assert s.items[i - 1] in s.items;
      }
    }
  }

  lemma BuiltNodeFound(run: Id, s: Shape, key: Key)
    requires key in ShapeKeys(s)
    ensures NodeOf(run, key) in NodesOf(run, s) && key in NodeKeys(NodesOf(run, s))
  {
    var nodes := NodesOf(run, s);
    if key == s.root {
      assert nodes[0] == NodeOf(run, key);
    } else {
      var item :| item in s.items && item.key == key;
      var i :| 0 <= i < |s.items| && s.items[i] == item;
      assert nodes[i + 1] == NodeOf(run, key);
    }
    assert KeyOf(NodeOf(run, key)) == key;
  }

  lemma BuiltEdgeExpected(run: Id, s: Shape, i: nat)
    requires Distinct(s) && OwnersKnown(s) && i < |s.items|
    ensures var nodes, edge := NodesOf(run, s), EdgesOf(run, s)[i];
      && ExpectedEdge(nodes, s.items[i]) == RelationshipOf(edge)
      && edge.source in NodeIds(nodes) && edge.target in NodeIds(nodes)
  {
    var item := s.items[i];
    assert item in s.items && item.key in ShapeKeys(s);
    BuiltNodesUnique(run, s);
    BuiltNodeFound(run, s, item.owner);
    BuiltNodeFound(run, s, item.key);
    NodeNamed(NodesOf(run, s), NodeOf(run, item.owner));
    NodeNamed(NodesOf(run, s), NodeOf(run, item.key));
  }

  lemma BuiltEdgesMatch(run: Id, s: Shape)
    requires Distinct(s) && OwnersKnown(s)
    ensures ActualEdges(EdgesOf(run, s)) == ExpectedEdges(NodesOf(run, s), s.items)
    ensures EndpointsKnown(NodesOf(run, s), EdgesOf(run, s))
  {
    var nodes, edges := NodesOf(run, s), EdgesOf(run, s);
    forall i | 0 <= i < |edges|
      ensures ExpectedEdge(nodes, s.items[i]) == RelationshipOf(edges[i])
      ensures edges[i].source in NodeIds(nodes) && edges[i].target in NodeIds(nodes)
    {
      BuiltEdgeExpected(run, s, i);
    }
    forall x | x in ActualEdges(edges) ensures x in ExpectedEdges(nodes, s.items) {
      var i :| 0 <= i < |edges| && RelationshipOf(edges[i]) == x;
      assert s.items[i] in s.items;
    }
    forall x | x in ExpectedEdges(nodes, s.items) ensures x in ActualEdges(edges) {
      var i :| 0 <= i < |s.items| && ExpectedEdge(nodes, s.items[i]) == x;
      assert edges[i] in edges;
    }
  }

  /** What is built is always accepted. */
  lemma BuiltGraphAccepted(run: Id, s: Shape)
    requires Distinct(s) && OwnersKnown(s)
    ensures Accepts(NodesOf(run, s), EdgesOf(run, s), run, s)
  {
    BuiltNodesUnique(run, s);
    BuiltEdgesMatch(run, s);
  }

  // ---------------------------------------------------------------------------------------------
  // The shape of a run's records
  // ---------------------------------------------------------------------------------------------

  /** No two records of a kind share an identifier. */
  predicate DistinctRecords(r: Records) {
    && (forall i, j :: 0 <= i < j < |r.actions| ==> r.actions[i].id != r.actions[j].id)
    && (forall i, j :: 0 <= i < j < |r.invariants| ==> r.invariants[i].id != r.invariants[j].id)
    && (forall i, j :: 0 <= i < j < |r.evidence| ==> r.evidence[i].id != r.evidence[j].id)
    && (forall i, j :: 0 <= i < j < |r.checks| ==> r.checks[i].id != r.checks[j].id)
    && (forall i, j :: 0 <= i < j < |r.verdicts| ==> r.verdicts[i].id != r.verdicts[j].id)
  }

  lemma ConcatDistinct(a: seq<Item>, b: seq<Item>)
    requires DistinctKeys(a) && DistinctKeys(b)
    requires forall x, y :: x in a && y in b ==> x.key.nodeType != y.key.nodeType
    ensures DistinctKeys(a + b)
  {
    var c := a + b;
    forall i, j | 0 <= i < j < |c| ensures c[i].key != c[j].key {
      if i < |a| <= j {
        assert c[i] in a && c[j] in b;
      }
    }
  }

  lemma ItemsDistinct(r: Records)
    requires DistinctRecords(r)
    ensures DistinctKeys(Items(r))
  {
    var a, i, e, c, v := ActionItems(r), InvariantItems(r), EvidenceItems(r), CheckItems(r), VerdictItems(r);
    ConcatDistinct(a, i);
    ConcatDistinct(a + i, e);
    ConcatDistinct(a + i + e, c);
    ConcatDistinct(a + i + e + c, v);
  }

  /** Records with distinct identifiers have a shape without repetition. */
  lemma ShapeIsDistinct(r: Records)
    requires DistinctRecords(r)
    ensures Distinct(ShapeOf(r))
  {
    ItemsDistinct(r);
  }

  // ---------------------------------------------------------------------------------------------
  // The loops that build a graph and validate it
  // ---------------------------------------------------------------------------------------------

  function ItemEdges(run: Id, items: seq<Item>): seq<GraphEdge> {
    seq(|items|, i requires 0 <= i < |items| => EdgeOf(run, items[i]))
  }

  /** Add the nodes of some records, and the edges from their owners. */
  method AddItems(run: Id, items: seq<Item>, nodes: seq<GraphNode>, edges: seq<GraphEdge>)
    returns (nodes': seq<GraphNode>, edges': seq<GraphEdge>)
    ensures nodes' == nodes + ItemNodes(run, items)
    ensures edges' == edges + ItemEdges(run, items)
  {
    nodes', edges' := nodes, edges;
    for i := 0 to |items|
      invariant nodes' == nodes + ItemNodes(run, items)[..i]
      invariant edges' == edges + ItemEdges(run, items)[..i]
    {
      nodes' := nodes' + [NodeOf(run, items[i].key)];
      edges' := edges' + [EdgeOf(run, items[i])];
    }
  }

  /** Building succeeds for records with distinct identifiers and known owners. */
  lemma RecordsBuild(run: Id, r: Records)
    requires DistinctRecords(r) && OwnersKnown(ShapeOf(r))
    ensures Accepts(NodesOf(run, ShapeOf(r)), EdgesOf(run, ShapeOf(r)), run, ShapeOf(r))
  {
    ShapeIsDistinct(r);
    BuiltGraphAccepted(run, ShapeOf(r));
  }

  /** The nodes and edges of a graph, kind by kind. */
  lemma BuiltInOrder(run: Id, r: Records)
    ensures NodesOf(run, ShapeOf(r))
      == [NodeOf(run, Root(r))] + ItemNodes(run, ActionItems(r)) + ItemNodes(run, InvariantItems(r))
         + ItemNodes(run, EvidenceItems(r)) + ItemNodes(run, CheckItems(r)) + ItemNodes(run, VerdictItems(r))
    ensures EdgesOf(run, ShapeOf(r))
      == [] + ItemEdges(run, ActionItems(r)) + ItemEdges(run, InvariantItems(r)) + ItemEdges(run, EvidenceItems(r))
         + ItemEdges(run, CheckItems(r)) + ItemEdges(run, VerdictItems(r))
  {
  }

  /** Build the graph and validate it; a missing owner or a repeated record raises. */
  method Build(run: Id, r: Records) returns (graph: Option<(seq<GraphNode>, seq<GraphEdge>)>)
    ensures graph.Some? <==> Accepts(NodesOf(run, ShapeOf(r)), EdgesOf(run, ShapeOf(r)), run, ShapeOf(r))
    ensures graph.Some? ==> graph.value == (NodesOf(run, ShapeOf(r)), EdgesOf(run, ShapeOf(r)))
  {
    var nodes, edges := [NodeOf(run, Root(r))], [];
    nodes, edges := AddItems(run, ActionItems(r), nodes, edges);
    nodes, edges := AddItems(run, InvariantItems(r), nodes, edges);
    nodes, edges := AddItems(run, EvidenceItems(r), nodes, edges);
    nodes, edges := AddItems(run, CheckItems(r), nodes, edges);
    nodes, edges := AddItems(run, VerdictItems(r), nodes, edges);
    BuiltInOrder(run, r);
    var accepted := Validate(nodes, edges, run, ShapeOf(r));
    graph := if accepted then Some((nodes, edges)) else None;
  }

  lemma NodePrefix(nodes: seq<GraphNode>, i: nat)
    requires i < |nodes|
    ensures NodeIds(nodes[..i + 1]) == NodeIds(nodes[..i]) + {nodes[i].id}
    ensures NodeKeys(nodes[..i + 1]) == NodeKeys(nodes[..i]) + {KeyOf(nodes[i])}
    ensures UniqueNodes(nodes[..i + 1]) <==>
      UniqueNodes(nodes[..i]) && nodes[i].id !in NodeIds(nodes[..i]) && KeyOf(nodes[i]) !in NodeKeys(nodes[..i])
  {
    assert nodes[..i + 1] == nodes[..i] + [nodes[i]];
    if UniqueNodes(nodes[..i + 1]) {
      assert forall k :: 0 <= k < i ==> nodes[..i + 1][k] == nodes[k] && nodes[..i + 1][i] == nodes[i];
    }
    assert forall k :: 0 <= k < i ==> nodes[..i][k] in nodes[..i];
  }

  method ValidateNodes(nodes: seq<GraphNode>, run: Id) returns (ok: bool, ids: set<Id>, keys: set<Key>)
    ensures ok <==> UniqueNodes(nodes) && forall node :: node in nodes ==> node.runId == run
    ensures ok ==> ids == NodeIds(nodes) && keys == NodeKeys(nodes)
  {
    ids, keys := {}, {};
    for i := 0 to |nodes|
      invariant ids == NodeIds(nodes[..i]) && keys == NodeKeys(nodes[..i])
      invariant UniqueNodes(nodes[..i])
      invariant forall k :: 0 <= k < i ==> nodes[k].runId == run
    {
      NodePrefix(nodes, i);
      if nodes[i].id in ids || KeyOf(nodes[i]) in keys || nodes[i].runId != run {
        NodesStayRejected(nodes, i + 1);
        assert nodes[i] in nodes;
        return false, ids, keys;
      }
      ids, keys := ids + {nodes[i].id}, keys + {KeyOf(nodes[i])};
    }
    assert nodes[..|nodes|] == nodes;
    ok := true;
  }

  lemma NodesStayRejected(nodes: seq<GraphNode>, i: nat)
    requires i <= |nodes|
    ensures UniqueNodes(nodes) ==> UniqueNodes(nodes[..i])
  {
  }

  lemma EdgePrefix(edges: seq<GraphEdge>, i: nat)
    requires i < |edges|
    ensures EdgeIds(edges[..i + 1]) == EdgeIds(edges[..i]) + {edges[i].id}
    ensures ActualEdges(edges[..i + 1]) == ActualEdges(edges[..i]) + {RelationshipOf(edges[i])}
    ensures UniqueEdges(edges[..i + 1]) <==>
      && UniqueEdges(edges[..i]) && edges[i].id !in EdgeIds(edges[..i])
      && RelationshipOf(edges[i]) !in ActualEdges(edges[..i])
  {
    assert edges[..i + 1] == edges[..i] + [edges[i]];
    if UniqueEdges(edges[..i + 1]) {
      assert forall k :: 0 <= k < i ==> edges[..i + 1][k] == edges[k] && edges[..i + 1][i] == edges[i];
    }
    assert forall k :: 0 <= k < i ==> edges[..i][k] in edges[..i];
  }

  function EdgeIds(edges: seq<GraphEdge>): set<Id> {
    set edge | edge in edges :: edge.id
  }

  method ValidateEdges(nodes: seq<GraphNode>, ids: set<Id>, edges: seq<GraphEdge>, run: Id)
    returns (ok: bool, actual: set<Relationship>)
    requires ids == NodeIds(nodes)
    ensures ok <==>
      && UniqueEdges(edges) && EndpointsKnown(nodes, edges)
      && forall edge :: edge in edges ==> edge.runId == run
    ensures ok ==> actual == ActualEdges(edges)
  {
    var seen: set<Id> := {};
    actual := {};
    for i := 0 to |edges|
      invariant seen == EdgeIds(edges[..i]) && actual == ActualEdges(edges[..i])
      invariant UniqueEdges(edges[..i])
      invariant forall k :: 0 <= k < i ==> edges[k].runId == run && edges[k].source in ids && edges[k].target in ids
    {
      EdgePrefix(edges, i);
      var edge := edges[i];
      if edge.id in seen || edge.source !in ids || edge.target !in ids || RelationshipOf(edge) in actual
         || edge.runId != run {
        EdgesStayRejected(edges, i + 1);
        assert edge in edges;
        return false, actual;
      }
      seen, actual := seen + {edge.id}, actual + {RelationshipOf(edge)};
    }
    assert edges[..|edges|] == edges;
    ok := true;
  }

  lemma EdgesStayRejected(edges: seq<GraphEdge>, i: nat)
    requires i <= |edges|
    ensures UniqueEdges(edges) ==> UniqueEdges(edges[..i])
  {
  }

  method Validate(nodes: seq<GraphNode>, edges: seq<GraphEdge>, run: Id, s: Shape) returns (accepted: bool)
    ensures accepted <==> Accepts(nodes, edges, run, s)
  {
    var nodesOk, ids, keys := ValidateNodes(nodes, run);
    if !nodesOk || keys != ShapeKeys(s) {
      return false;
    }
    var edgesOk, actual := ValidateEdges(nodes, ids, edges, run);
    if !edgesOk {
      return false;
    }
    var expected: set<Relationship> := {};
    for i := 0 to |s.items|
      invariant forall k :: 0 <= k < i ==> s.items[k].owner in keys
      invariant expected == ExpectedEdges(nodes, s.items[..i])
    {
      if s.items[i].owner !in keys {
        assert s.items[i] in s.items;
        return false;
      }
      assert s.items[..i + 1] == s.items[..i] + [s.items[i]];
      assert ExpectedEdges(nodes, s.items[..i + 1])
          == ExpectedEdges(nodes, s.items[..i]) + {ExpectedEdge(nodes, s.items[i])};
      expected := expected + {ExpectedEdge(nodes, s.items[i])};
    }
    assert s.items[..|s.items|] == s.items;
    assert OwnersKnown(s);
    accepted := actual == expected;
  }
}
