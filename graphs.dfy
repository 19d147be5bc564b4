// The property graph GPFL mines, reduced to what the rule learner looks at:
// a finite sequence of typed, directed edges (the order is the order in
// which the database hands them out) and the `name` property of each node.
module Graphs {

  /** The two directions an atom can have; Neo4j's BOTH never occurs in a rule. */
  datatype Direction = Outgoing | Incoming

  /** A relationship: its id, its type name, its start node and its end node. */
  datatype Edge = Edge(id: int, etype: string, src: int, dst: int)

  datatype Graph = Graph(edges: seq<Edge>, names: map<int, string>)

  /** Every endpoint of every edge carries a name: the graphs GPFL builds
    * always set the naming property on every node. */
  ghost predicate Named(g: Graph)
  {
    forall e :: e in g.edges ==> e.src in g.names && e.dst in g.names
  }

  /** The node at the other end of `e`, seen from `n`
    * (Relationship.getOtherNode). */
  function OtherNode(e: Edge, n: int): int
  {
    if n == e.src then e.dst else e.src
  }

  /** `e` leaves `n` (OUTGOING) or enters `n` (INCOMING). */
  predicate Touches(e: Edge, n: int, d: Direction)
  {
    if d == Outgoing then e.src == n else e.dst == n
  }

  /** The relationships of `n` in direction `d` and of type `t`, in the
    * graph's order (Node.getRelationships(direction, type)). */
  function RelsOf(g: Graph, n: int, d: Direction, t: string): (r: seq<Edge>)
    ensures forall e :: e in r <==> e in g.edges && e.etype == t && Touches(e, n, d)
  {
    Select(g.edges, n, d, t)
  }

  function Select(edges: seq<Edge>, n: int, d: Direction, t: string): (r: seq<Edge>)
    ensures forall e :: e in r <==> e in edges && e.etype == t && Touches(e, n, d)
  {
    if edges == [] then []
    else
      var rest := Select(edges[1..], n, d, t);
      assert forall e :: e in edges <==> e == edges[0] || e in edges[1..];
      if edges[0].etype == t && Touches(edges[0], n, d) then [edges[0]] + rest else rest
  }

  /** A target-relation edge the learner starts from (the Instance class,
    * whose fields are used but whose source is not part of this model). */
  datatype Instance = Instance(
    relationship: Edge,
    startNodeId: int, endNodeId: int,
    startNodeName: string, endNodeName: string,
    etype: string)

  /** The instance that wraps edge `e` of `g`. */
  function InstanceOf(g: Graph, e: Edge): (i: Instance)
    requires e.src in g.names && e.dst in g.names
    ensures i.relationship == e && i.etype == e.etype
    ensures i.startNodeId == e.src && i.endNodeId == e.dst
  {
    Instance(e, e.src, e.dst, g.names[e.src], g.names[e.dst], e.etype)
  }

  /** A path as the traversal framework builds it: its nodes in visiting
    * order and the relationships between them. */
  datatype LocalPath = LocalPath(nodes: seq<int>, rels: seq<Edge>)
  {
    function Length(): nat { |rels| }

    ghost predicate WellFormed()
    {
      |nodes| == |rels| + 1 &&
      forall i :: 0 <= i < |rels| ==>
        (rels[i].src == nodes[i] && rels[i].dst == nodes[i + 1]) ||
        (rels[i].dst == nodes[i] && rels[i].src == nodes[i + 1])
    }

    function StartNode(): int requires |nodes| > 0 { nodes[0] }

    function EndNode(): int requires |nodes| > 0 { nodes[|nodes| - 1] }
  }

  /** The one-edge path that starts from `e` in direction `d`: forwards
    * from its start node for OUTGOING, backwards from its end node for
    * INCOMING (`new LocalPath(relationship, direction)`). */
  function SeedPath(e: Edge, d: Direction): (p: LocalPath)
    ensures p.WellFormed() && p.Length() == 1 && p.rels == [e]
  {
    if d == Outgoing then LocalPath([e.src, e.dst], [e]) else LocalPath([e.dst, e.src], [e])
  }

  /** `p` extended by `e` at its end node (`new LocalPath(path, relationship)`). */
  function Extend(p: LocalPath, e: Edge): (q: LocalPath)
    requires |p.nodes| > 0
    ensures q.nodes == p.nodes + [OtherNode(e, p.EndNode())] && q.rels == p.rels + [e]
    ensures p.WellFormed() && (e.src == p.EndNode() || e.dst == p.EndNode()) ==> q.WellFormed()
  {
    LocalPath(p.nodes + [OtherNode(e, p.EndNode())], p.rels + [e])
  }
}
