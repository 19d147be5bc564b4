// Matching rule bodies against the graph: the depth-first grounding search,
// the Cypher pattern that expresses the same match, the cap on traversal
// results, the evaluator that decides which sampled paths become rules, and
// the reduction of groundings to (start, end) pairs.
module GraphOps {
  import opened Common
  import opened Settings
  import opened Graphs
  import opened Atoms
  import opened Rules
  import opened Pairs

  /** getRelationshipsAPI: the relationships of one type, in graph order. */
  function RelationshipsOfType(g: Graph, t: string): (r: seq<Edge>)
    ensures forall e :: e in r <==> e in g.edges && e.etype == t
  {
    Filter(g.edges, t)
  }

  function Filter(edges: seq<Edge>, t: string): (r: seq<Edge>)
    ensures forall e :: e in r <==> e in edges && e.etype == t
  {
    if edges == [] then []
    else
      var rest := Filter(edges[1..], t);
      assert forall e :: e in edges <==> e == edges[0] || e in edges[1..];
      if edges[0].etype == t then [edges[0]] + rest else rest
  }

  // ---------------------------------------------------------------------
  // Groundings
  // ---------------------------------------------------------------------

  /** `p` follows the first p.Length() atoms of `body`: edge i has atom i's
    * type and leaves (OUTGOING) or enters (INCOMING) node i. */
  ghost predicate Follows(g: Graph, body: seq<AtomView>, p: LocalPath)
  {
    p.WellFormed() && 1 <= p.Length() <= |body| &&
    forall i :: 0 <= i < p.Length() ==>
      p.rels[i] in g.edges && p.rels[i].etype == body[i].pred &&
      Touches(p.rels[i], p.nodes[i], body[i].direction)
  }

  /** Every node added by an extension is new to the path (the seed edge may
    * be a self-loop). */
  ghost predicate NodeUnique(p: LocalPath)
  {
    forall k :: 2 <= k < |p.nodes| ==> p.nodes[k] !in p.nodes[..k]
  }

  /** A complete grounding of `body`, ending at `tail` when the tail is
    * checked. */
  ghost predicate IsGrounding(g: Graph, body: seq<AtomView>, checkTail: bool, tail: int, p: LocalPath)
  {
    Follows(g, body, p) && NodeUnique(p) && p.Length() == |body| &&
    (checkTail ==> p.EndNode() == tail)
  }

  /** `q` is `p` extended by zero or more edges. */
  ghost predicate Extends(q: LocalPath, p: LocalPath)
  {
    |p.nodes| <= |q.nodes| && |p.rels| <= |q.rels| &&
    q.nodes[..|p.nodes|] == p.nodes && q.rels[..|p.rels|] == p.rels
  }

  lemma ExtendsTransitive(r: LocalPath, q: LocalPath, p: LocalPath)
    requires Extends(r, q) && Extends(q, p)
    ensures Extends(r, p)
  {
    assert r.nodes[..|p.nodes|] == r.nodes[..|q.nodes|][..|p.nodes|];
    assert r.rels[..|p.rels|] == r.rels[..|q.rels|][..|p.rels|];
  }

  /** One extension step keeps a partial grounding a partial grounding. */
  lemma ExtendFollows(g: Graph, body: seq<AtomView>, p: LocalPath, e: Edge)
    requires Follows(g, body, p) && NodeUnique(p) && p.Length() < |body|
    requires e in g.edges && e.etype == body[p.Length()].pred
    requires Touches(e, p.EndNode(), body[p.Length()].direction)
    requires OtherNode(e, p.EndNode()) !in p.nodes
    ensures Follows(g, body, Extend(p, e)) && NodeUnique(Extend(p, e))
    ensures Extends(Extend(p, e), p)
  {
    var q := Extend(p, e);
    assert q.nodes[..|p.nodes|] == p.nodes;
    assert q.rels[..|p.rels|] == p.rels;
    forall k | 2 <= k < |q.nodes| ensures q.nodes[k] !in q.nodes[..k] {
      if k < |p.nodes| {
        assert q.nodes[..k] == p.nodes[..k];
      }
    }
  }

  /** The Flag, the Counter and the result set DFSGrounding shares across its
    * recursive calls, with the rule body it matches and its cap. */
  class Grounder {
    const g: Graph
    const body: seq<AtomView>
    const checkTail: bool
    const tail: int
    const cap: nat
    var paths: seq<LocalPath>
    var stop: bool
    var attempts: nat

    /** Every stored path is a grounding, there are never more than `cap`,
      * and the search stops only at the cap or past the attempts limit. */
    ghost predicate Valid()
      reads this
    {
      0 < cap && |paths| <= cap && (!stop ==> |paths| < cap) &&
      (stop ==> |paths| == cap || attempts >= GroundingAttempts) &&
      forall p :: p in paths ==> IsGrounding(g, body, checkTail, tail, p)
    }

    constructor(g: Graph, body: seq<AtomView>, checkTail: bool, tail: int, cap: nat)
      requires cap > 0
      ensures this.g == g && this.body == body && this.checkTail == checkTail
      ensures this.tail == tail && this.cap == cap
      ensures paths == [] && !stop && attempts == 0
      ensures Valid()
    {
      this.g, this.body, this.checkTail, this.tail, this.cap := g, body, checkTail, tail, cap;
      paths, stop, attempts := [], false, 0;
    }

    method Tick()
      requires Valid()
      modifies this
      ensures Valid() && attempts == old(attempts) + 1
      ensures paths == old(paths) && stop == old(stop)
    {
      attempts := attempts + 1;
    }

    /** The loop of bodyGroundingCoreAPI: a search from each seed
      * relationship in turn, taken in the first atom's direction, until the
      * search stops. */
    method Search(seeds: seq<Edge>)
      requires Valid() && !stop && |body| > 0
      requires forall e :: e in seeds ==> e in g.edges && e.etype == body[0].pred
      modifies this
      ensures Valid()
    {
      var j := 0;
      while j < |seeds|
        invariant 0 <= j <= |seeds|
        invariant Valid() && !stop
      {
        Tick();
        var seed := SeedPath(seeds[j], body[0].direction);
        assert seeds[j] in seeds;
        DFS(seed);
        if stop {
          break;
        }
        j := j + 1;
      }
    }

    /** DFSGrounding: a path as long as the body is stored, unless the tail
      * is checked and it ends elsewhere, and the search stops once the cap
      * is reached or the attempts limit passed; a shorter path is extended
      * by each relationship of the next atom's type and direction at its
      * end whose other node is not yet on the path, until the search
      * stops. Every relationship looked at counts as an attempt. */
    method DFS(path: LocalPath)
      requires Valid() && !stop
      requires Follows(g, body, path) && NodeUnique(path)
      modifies this
      ensures Valid()
      ensures attempts >= old(attempts)
      ensures |paths| >= |old(paths)| && paths[..|old(paths)|] == old(paths)
      ensures forall k :: |old(paths)| <= k < |paths| ==> Extends(paths[k], path)
      decreases |body| - path.Length()
    {
      if path.Length() >= |body| {
        if checkTail && tail != path.EndNode() {
          return;
        }
        paths := paths + [path];
        assert Extends(path, path);
        if |paths| >= cap || attempts >= GroundingAttempts {
          stop := true;
        }
      } else {
        var a := body[path.Length()];
        var end := path.EndNode();
        var rels := RelsOf(g, end, a.direction, a.pred);
        ghost var before := paths;
        var j := 0;
        while j < |rels|
          invariant 0 <= j <= |rels|
          invariant Valid() && !stop
          invariant attempts >= old(attempts)
          invariant |paths| >= |before| && paths[..|before|] == before
          invariant forall k :: |before| <= k < |paths| ==> Extends(paths[k], path)
        {
          attempts := attempts + 1;
          var e := rels[j];
          if OtherNode(e, end) !in path.nodes {
            var next := Extend(path, e);
            ExtendFollows(g, body, path, e);
            ghost var mid := paths;
            DFS(next);
            forall k | |before| <= k < |paths| ensures Extends(paths[k], path) {
              if k >= |mid| {
                ExtendsTransitive(paths[k], next, path);
              } else {
                assert paths[k] == mid[k];
              }
            }
            if stop {
              break;
            }
          }
          j := j + 1;
        }
      }
    }
  }

  /** The cap on stored groundings: APPLY_GROUNDINGS when applying rules,
    * LEARN_GROUNDINGS when learning, 0 meaning no cap. */
  function GroundingCap(application: bool): (c: nat)
    ensures c > 0
  {
    Unbounded(if application then ApplyGroundings else LearnGroundings)
  }

  /** Only a tail- or both-anchored instantiated rule has its tail checked. */
  predicate ChecksTail(kind: Kind)
  {
    kind.Instantiated? && BindsTail(kind.insType)
  }

  /** bodyGroundingCoreAPI: a depth-first search from every relationship of
    * the first atom's type, taken in the first atom's direction, until the
    * search stops. */
  method BodyGroundingCore(g: Graph, rule: Rule, application: bool) returns (paths: seq<LocalPath>)
    requires rule.Valid()
    ensures |paths| <= GroundingCap(application)
    ensures forall p :: p in paths ==>
      IsGrounding(g, Views(rule.body), ChecksTail(rule.kind), TailOf(Views(rule.body)), p)
  {
    var body := Views(rule.body);
    var grounder := new Grounder(g, body, ChecksTail(rule.kind), TailOf(body), GroundingCap(application));
    grounder.Search(RelationshipsOfType(g, body[0].pred));
    paths := grounder.paths;
    assert forall p :: p in paths ==> IsGrounding(g, body, ChecksTail(rule.kind), TailOf(body), p);
  }

  /** GPFLPathToPairAdaptor: the (start, end) node pairs of the groundings. */
  function PathsToPairs(paths: seq<LocalPath>): (r: set<Pair>)
    requires forall p :: p in paths ==> |p.nodes| > 0
    ensures forall q :: q in r <==> exists p :: p in paths && q == Pair(p.StartNode(), p.EndNode())
  {
    set p | p in paths :: Pair(p.StartNode(), p.EndNode())
  }

  /** The end points of a grounding in a graph whose nodes all have names
    * are named nodes. */
  lemma GroundingPairsNamed(g: Graph, body: seq<AtomView>, checkTail: bool, tail: int, paths: seq<LocalPath>)
    requires Named(g)
    requires forall p :: p in paths ==> IsGrounding(g, body, checkTail, tail, p)
    ensures forall p :: p in paths ==> |p.nodes| > 0
    ensures forall q :: q in PathsToPairs(paths) ==> q.sub in g.names && q.obj in g.names
  {
    forall q | q in PathsToPairs(paths) ensures q.sub in g.names && q.obj in g.names {
      var p :| p in paths && q == Pair(p.StartNode(), p.EndNode());
      var n := p.Length();
      assert p.rels[0] in g.edges && p.rels[n - 1] in g.edges;
      assert p.rels[0].src == p.nodes[0] || p.rels[0].dst == p.nodes[0];
      assert p.rels[n - 1].src == p.nodes[n] || p.rels[n - 1].dst == p.nodes[n];
    }
  }

  /** A grounding of a tail-checked rule is a pair whose object is the
    * rule's tail. */
  lemma CheckedPairsEndAtTail(g: Graph, body: seq<AtomView>, tail: int, paths: seq<LocalPath>)
    requires forall p :: p in paths ==> IsGrounding(g, body, true, tail, p)
    ensures forall p :: p in paths ==> |p.nodes| > 0
    ensures forall q :: q in PathsToPairs(paths) ==> q.obj == tail
  {
  }

  // ---------------------------------------------------------------------
  // The Cypher form of the body match, and the traversal cap
  // ---------------------------------------------------------------------

  /** The relationship pattern of one atom: `-[:P]->` forwards, `<-[:P']-`
    * backwards, P' being the predicate without its first underscore. */
  function CypherStep(a: AtomView): string
  {
    if a.direction == Outgoing then "-[:" + Predicate(a) + "]->"
    else "<-[:" + RemoveFirstOf(Predicate(a), {'_'}) + "]-"
  }

  /** What follows the last node pattern: no limit when the cap is 0. */
  function ReturnClause(limit: nat): string
  {
    if limit == 0 then " return p" else " return p limit " + NatToString(limit)
  }

  /** What closes atom i's pattern: a node pattern, and after the last atom
    * the return clause. */
  function CypherClose(body: seq<AtomView>, limit: nat, i: nat): (s: string)
    ensures s == "()" + (if i == |body| - 1 then ReturnClause(limit) else "")
  {
    if i == |body| - 1 then
      if limit == 0 then "() return p" else "() return p limit " + NatToString(limit)
    else "()"
  }

  /** The query after the first `i` atoms have been appended. */
  function CypherPrefix(body: seq<AtomView>, limit: nat, i: nat): (q: string)
    requires i <= |body|
    ensures "Match p=()" <= q
  {
    if i == 0 then "Match p=()"
    else CypherPrefix(body, limit, i - 1) + CypherStep(body[i - 1]) + CypherClose(body, limit, i - 1)
  }

  /** The query bodyGroundingQuery sends. */
  function CypherQuery(body: seq<AtomView>, limit: nat): (q: string)
    ensures "Match p=()" <= q
  {
    CypherPrefix(body, limit, |body|)
  }

  /** The string building loop of bodyGroundingQuery. */
  method BuildCypherQuery(body: seq<AtomView>, limit: nat) returns (query: string)
    ensures query == CypherQuery(body, limit)
  {
    query := "Match p=()";
    var i := 0;
    while i < |body|
      invariant 0 <= i <= |body|
      invariant query == CypherPrefix(body, limit, i)
    {
      var atom := body[i];
      var step;
      if atom.direction == Outgoing {
        step := "-[:" + Predicate(atom) + "]->";
      } else {
        step := "<-[:" + RemoveFirstOf(Predicate(atom), {'_'}) + "]-";
      }
      assert step == CypherStep(body[i]);
      query := query + step;
      var close;
      if i == |body| - 1 {
        if limit == 0 {
          close := "() return p";
        } else {
          close := "() return p limit " + NatToString(limit);
        }
      } else {
        close := "()";
      }
      assert close == CypherClose(body, limit, i);
      query := query + close;
      assert query == CypherPrefix(body, limit, i + 1);
      i := i + 1;
    }
  }

  /** Both directions name the stored relationship type: the underscore an
    * inverse predicate carries is the one removed. */
  lemma CypherStepUsesBaseType(a: AtomView)
    ensures CypherStep(a) == (if a.direction == Outgoing then "-[:" + a.pred + "]->" else "<-[:" + a.pred + "]-")
  {
  }

  /** Before the last atom the query is the node pattern followed by one
    * relationship and node pattern per atom. */
  lemma {:induction false} CypherPrefixIsSteps(body: seq<AtomView>, limit: nat, i: nat)
    requires i < |body|
    ensures CypherPrefix(body, limit, i) == CypherPrefix(body, limit, 0) + CypherSteps(body[..i])
  {
    if i > 0 {
      CypherPrefixIsSteps(body, limit, i - 1);
      var p0, s := CypherPrefix(body, limit, 0), CypherSteps(body[..i - 1]);
      var st := CypherStep(body[i - 1]);
      assert CypherClose(body, limit, i - 1) == "()";
      CypherStepsSnoc(body, i);
      ConcatAssoc(p0, s, st, "()");
    }
  }

  lemma ConcatAssoc<T>(a: seq<T>, b: seq<T>, c: seq<T>, d: seq<T>)
    ensures a + b + c + d == a + (b + c + d)
  {
  }

  lemma CypherStepsSnoc(body: seq<AtomView>, i: nat)
    requires 0 < i <= |body|
    ensures CypherSteps(body[..i]) == CypherSteps(body[..i - 1]) + CypherStep(body[i - 1]) + "()"
  {
    assert body[..i][..i - 1] == body[..i - 1];
  }

  function CypherSteps(body: seq<AtomView>): string
  {
    if body == [] then "" else CypherSteps(body[..|body| - 1]) + CypherStep(body[|body| - 1]) + "()"
  }

  /** The whole query: the node pattern, one relationship and node pattern
    * per atom, then the return clause; no return clause for an empty body. */
  lemma CypherQueryShape(body: seq<AtomView>, limit: nat)
    ensures body == [] ==> CypherQuery(body, limit) == "Match p=()"
    ensures body != [] ==>
      CypherQuery(body, limit) ==
        "Match p=()" + CypherSteps(body[..|body| - 1]) + CypherStep(body[|body| - 1]) + "()" + ReturnClause(limit)
  {
    if body != [] {
      CypherPrefixIsSteps(body, limit, |body| - 1);
      var m, s := "Match p=()", CypherSteps(body[..|body| - 1]);
      var st := CypherStep(body[|body| - 1]);
      assert m + s + st + ("()" + ReturnClause(limit)) == m + s + st + "()" + ReturnClause(limit);
    }
  }

  /** bodyGroundingTraversal: the paths the traverser yields, of which the
    * loop keeps the first LEARN_GROUNDINGS (cap already rewritten from 0). */
  method TakeTraversed(traversed: seq<LocalPath>, cap: nat) returns (results: seq<LocalPath>)
    ensures results == Take(traversed, cap)
    ensures |results| <= cap && |results| <= |traversed|
  {
    results := [];
    var count := 0;
    var i := 0;
    while i < |traversed|
      invariant 0 <= i <= |traversed| && count == i
      invariant results == traversed[..i] && i <= cap
    {
      if count >= cap {
        break;
      }
      count := count + 1;
      results := results + [traversed[i]];
      i := i + 1;
    }
    assert results == traversed[..Min(cap, |traversed|)];
  }

  // ---------------------------------------------------------------------
  // The evaluator of sampled paths
  // ---------------------------------------------------------------------

  /** A traversal decision: keep the path as a result, and go on expanding
    * it. */
  datatype Evaluation = Evaluation(includes: bool, continues: bool)

  const IncludeAndPrune := Evaluation(true, false)
  const ExcludeAndContinue := Evaluation(false, true)
  const ExcludeAndPrune := Evaluation(false, false)

  /** pathIsClosed: a path from the instance's start node ends at its end
    * node; any other path ends at its start node. */
  predicate PathIsClosed(p: LocalPath, inst: Instance)
    requires |p.nodes| > 0
    ensures PathIsClosed(p, inst) ==> p.EndNode() in {inst.startNodeId, inst.endNodeId}
    ensures inst.startNodeId == inst.endNodeId ==> (PathIsClosed(p, inst) <==> p.EndNode() == inst.startNodeId)
  {
    if p.StartNode() == inst.startNodeId then p.EndNode() == inst.endNodeId
    else p.EndNode() == inst.startNodeId
  }

  /** selfloop: a non-empty path back to its own start node. */
  predicate Selfloop(p: LocalPath)
    requires |p.nodes| > 0
    ensures Selfloop(p) ==> |p.rels| > 0 && p.nodes[0] == p.nodes[|p.nodes| - 1]
  {
    p.StartNode() == p.EndNode() && p.Length() != 0
  }

  /** The last relationship is of the instance's type and runs from the
    * instance's end node to its start node. */
  predicate ReversesInstance(p: LocalPath, inst: Instance)
  {
    |p.rels| > 0 &&
    p.rels[|p.rels| - 1].etype == inst.etype &&
    p.rels[|p.rels| - 1].src == inst.endNodeId && p.rels[|p.rels| - 1].dst == inst.startNodeId
  }

  /** toDepthNoTrivial(depth, instance). */
  function ToDepthNoTrivial(depth: int, inst: Instance, p: LocalPath): (e: Evaluation)
    requires |p.nodes| > 0
    ensures e.includes ==> p.Length() >= 1
    ensures e.continues ==> p.Length() < depth || p.Length() == 0
    ensures Selfloop(p) && p.Length() > 1 ==> !e.continues
  {
    var fromSource := inst.startNodeId == p.StartNode();
    var closed := PathIsClosed(p, inst);
    var hasTargetRelation := |p.rels| > 0 && p.rels[|p.rels| - 1].etype == inst.etype;
    var pathLength := p.Length();
    if pathLength == 1 && ReversesInstance(p, inst) then IncludeAndPrune
    else if pathLength == 0 then ExcludeAndContinue
    else if pathLength == 1 && hasTargetRelation && closed then ExcludeAndPrune
    else if closed && fromSource then IncludeAndPrune
    else if closed then ExcludeAndPrune
    else if Selfloop(p) then ExcludeAndPrune
    else Evaluation(pathLength <= depth, pathLength < depth)
  }

  /** The evaluator never expands a path that is closed, a self-loop or at
    * the depth, except the empty start path; it includes only non-empty
    * paths, and beyond the depth only closed paths from the instance's start
    * node and the one-edge reversal of the instance. */
  lemma EvaluatorBounds(depth: int, inst: Instance, p: LocalPath)
    requires |p.nodes| > 0
    ensures ToDepthNoTrivial(depth, inst, p).continues ==>
      p.Length() == 0 || (p.Length() < depth && !PathIsClosed(p, inst) && !Selfloop(p))
    ensures ToDepthNoTrivial(depth, inst, p).includes ==>
      p.Length() >= 1 &&
      (p.Length() <= depth ||
       (PathIsClosed(p, inst) && p.StartNode() == inst.startNodeId) ||
       (p.Length() == 1 && ReversesInstance(p, inst)))
    ensures p.Length() == 0 ==> ToDepthNoTrivial(depth, inst, p) == ExcludeAndContinue
  {
  }

  /** The instance edge itself, walked from either end, is never a rule
    * body (it would give the trivial R(X,Y) <- R(X,Y)). */
  lemma InstanceEdgeExcluded(g: Graph, e: Edge, d: Direction, depth: int)
    requires e.src in g.names && e.dst in g.names && e.src != e.dst
    ensures ToDepthNoTrivial(depth, InstanceOf(g, e), SeedPath(e, d)) == ExcludeAndPrune
  {
  }

  /** A relationship of the target type running back from the instance's
    * end node to its start node is a rule body of length 1, whatever the
    * depth. */
  lemma ReverseEdgeIncluded(g: Graph, e: Edge, r: Edge, depth: int)
    requires e.src in g.names && e.dst in g.names
    requires r.etype == e.etype && r.src == e.dst && r.dst == e.src
    ensures ToDepthNoTrivial(depth, InstanceOf(g, e), SeedPath(r, Incoming)) == IncludeAndPrune
  {
  }

  /** Open paths that are not self-loops are cut at the depth: included up
    * to it, expanded below it. */
  lemma OpenPathsFollowDepth(depth: int, inst: Instance, p: LocalPath)
    requires |p.nodes| > 0 && p.Length() >= 2
    requires !PathIsClosed(p, inst) && !Selfloop(p)
    ensures ToDepthNoTrivial(depth, inst, p) == Evaluation(p.Length() <= depth, p.Length() < depth)
  {
  }

  /** Longer paths that close the instance are kept, and not expanded, only
    * when they start at its start node; self-loops are dropped. */
  lemma ClosedPathsAndSelfloops(depth: int, inst: Instance, p: LocalPath)
    requires |p.nodes| > 0 && p.Length() >= 2
    ensures PathIsClosed(p, inst) && p.StartNode() == inst.startNodeId ==> ToDepthNoTrivial(depth, inst, p) == IncludeAndPrune
    ensures PathIsClosed(p, inst) && p.StartNode() != inst.startNodeId ==> ToDepthNoTrivial(depth, inst, p) == ExcludeAndPrune
    ensures !PathIsClosed(p, inst) && Selfloop(p) ==> ToDepthNoTrivial(depth, inst, p) == ExcludeAndPrune
  {
  }
}
