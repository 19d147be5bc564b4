// The learner's shared tables and counters: how often each abstract rule has
// been mined, the children and anchorings recorded for each abstract rule,
// the per-entity query frequencies, and the three global counters. GPFL keeps
// these in static fields; here they are one object that the operations
// receive and update.
module GenOps {
  import opened Common
  import opened Graphs
  import opened Atoms
  import opened Rules
  import opened Counting

  /** Every edge of `p` has named endpoints and the node list holds one more
    * node than the edge list. */
  predicate PathNamed(g: Graph, p: LocalPath)
  {
    |p.nodes| == |p.rels| + 1 &&
    forall i :: 0 <= i < |p.rels| ==> p.rels[i].src in g.names && p.rels[i].dst in g.names
  }

  /** The body atoms a path yields: atom i is read off edge i from node i. */
  function PathAtoms(g: Graph, p: LocalPath): (r: seq<AtomView>)
    requires PathNamed(g, p)
    ensures |r| == p.Length()
    ensures forall i :: 0 <= i < |r| ==> r[i] == EdgeAtom(g, p.nodes[i], p.rels[i])
  {
    seq(|p.rels|, i requires 0 <= i < |p.rels| => EdgeAtom(g, p.nodes[i], p.rels[i]))
  }

  /** The atoms of a well-formed path chain: each atom starts where the
    * previous one ends, the first starts at the path's start node and the
    * last ends at its end node; atom i has edge i's type and is INCOMING
    * exactly when the path runs against edge i. */
  lemma PathAtomsChain(g: Graph, p: LocalPath)
    requires PathNamed(g, p) && p.WellFormed() && p.Length() > 0
    ensures forall i :: 0 <= i < p.Length() - 1 ==> PathAtoms(g, p)[i].objectId == PathAtoms(g, p)[i + 1].subjectId
    ensures PathAtoms(g, p)[0].subjectId == p.StartNode()
    ensures PathAtoms(g, p)[p.Length() - 1].objectId == p.EndNode()
    ensures forall i :: 0 <= i < p.Length() ==>
      PathAtoms(g, p)[i].subjectId == p.nodes[i] && PathAtoms(g, p)[i].objectId == p.nodes[i + 1]
    ensures forall i :: 0 <= i < p.Length() ==>
      PathAtoms(g, p)[i].pred == p.rels[i].etype &&
      (IsInverse(PathAtoms(g, p)[i]) <==> p.nodes[i] == p.rels[i].dst)
  {
    var r := PathAtoms(g, p);
    forall i | 0 <= i < p.Length()
      ensures r[i].subjectId == p.nodes[i] && r[i].objectId == p.nodes[i + 1]
      ensures r[i].pred == p.rels[i].etype && (IsInverse(r[i]) <==> p.nodes[i] == p.rels[i].dst)
    {
      assert (p.rels[i].src == p.nodes[i] && p.rels[i].dst == p.nodes[i + 1]) ||
             (p.rels[i].dst == p.nodes[i] && p.rels[i].src == p.nodes[i + 1]);
      EdgeAtomFollowsPath(g, p.nodes[i], p.rels[i]);
    }
  }

  /** The abstract rule mined from path `p` and instance `inst`, before
    * canonical renaming, is closed exactly when the path ends at either
    * node of the instance, and starts from the subject exactly when the
    * path starts at the instance's start node. */
  lemma AbstractionShape(g: Graph, p: LocalPath, inst: Instance)
    requires PathNamed(g, p) && p.WellFormed() && p.Length() > 0
    ensures ClosedOf(HeadAtom(inst), PathAtoms(g, p)) <==>
      p.EndNode() == inst.startNodeId || p.EndNode() == inst.endNodeId
    ensures FromSubjectOf(HeadAtom(inst), PathAtoms(g, p)) <==> p.StartNode() == inst.startNodeId
  {
    PathAtomsChain(g, p);
  }

  /** Two paths with the same edge types, crossed in the same directions,
    * for instances of the same type and with the same closed and
    * from-subject shape, yield the same abstract rule. */
  lemma SamePathShapeSameRule(g: Graph, p1: LocalPath, i1: Instance, p2: LocalPath, i2: Instance)
    requires PathNamed(g, p1) && p1.WellFormed() && p1.Length() > 0
    requires PathNamed(g, p2) && p2.WellFormed() && p2.Length() == p1.Length()
    requires i1.etype == i2.etype
    requires forall i :: 0 <= i < p1.Length() ==>
      p1.rels[i].etype == p2.rels[i].etype && (p1.nodes[i] == p1.rels[i].dst <==> p2.nodes[i] == p2.rels[i].dst)
    requires (p1.EndNode() == i1.startNodeId || p1.EndNode() == i1.endNodeId) ==
      (p2.EndNode() == i2.startNodeId || p2.EndNode() == i2.endNodeId)
    requires (p1.StartNode() == i1.startNodeId) == (p2.StartNode() == i2.startNodeId)
    ensures SameRule(AbstractView(HeadAtom(i1), PathAtoms(g, p1)), AbstractView(HeadAtom(i2), PathAtoms(g, p2)))
  {
    PathAtomsChain(g, p1);
    PathAtomsChain(g, p2);
    AbstractionShape(g, p1, i1);
    AbstractionShape(g, p2, i2);
    AbstractionDependsOnShape(HeadAtom(i1), PathAtoms(g, p1), HeadAtom(i2), PathAtoms(g, p2));
  }

  /** buildBodyAtoms: one new atom per path edge, atom i built from node i
    * and edge i. */
  method BuildBodyAtoms(g: Graph, p: LocalPath) returns (atoms: seq<Atom>)
    requires PathNamed(g, p)
    ensures Views(atoms) == PathAtoms(g, p)
    ensures forall i :: 0 <= i < |atoms| ==> fresh(atoms[i])
    ensures Distinct(atoms)
  {
    atoms := [];
    var i := 0;
    while i < |p.rels|
      invariant 0 <= i <= |p.rels| && |atoms| == i
      invariant forall k :: 0 <= k < i ==> fresh(atoms[k]) && atoms[k].View() == EdgeAtom(g, p.nodes[k], p.rels[k])
      invariant Distinct(atoms)
    {
      var a := new Atom.FromEdge(g, p.nodes[i], p.rels[i]);
      atoms := atoms + [a];
      i := i + 1;
    }
    ViewsAre(atoms, PathAtoms(g, p));
  }

  /** The frequency table after one more occurrence of `key`. */
  function Bumped(m: map<string, nat>, key: string): (r: map<string, nat>)
    ensures r.Keys == m.Keys + {key}
    ensures r[key] == (if key in m then m[key] + 1 else 1)
    ensures forall k :: k in m && k != key ==> r[k] == m[k]
  {
    m[key := if key in m then m[key] + 1 else 1]
  }

  /** The rendering of the abstract rule mined from `p` and `inst`: the key
    * under which the rule is counted. */
  function AbstractionKey(g: Graph, p: LocalPath, inst: Instance): string
    requires PathNamed(g, p) && p.Length() > 0
  {
    RenderRule(AbstractView(HeadAtom(inst), PathAtoms(g, p)))
  }

  /** The rule abstraction builds: the body atoms of the path and the head
    * atom of the instance, made into an abstract rule. */
  method MineRule(g: Graph, p: LocalPath, inst: Instance) returns (rule: Rule)
    requires PathNamed(g, p) && p.Length() > 0
    ensures fresh(rule) && rule.Valid() && rule.kind == Abstract
    ensures rule.View() == AbstractView(HeadAtom(inst), PathAtoms(g, p))
  {
    var body := BuildBodyAtoms(g, p);
    var head := new Atom.FromInstance(inst);
    rule := NewAbstractRule(head, body);
  }

  class Tables {
    /** How often each abstract rule was mined, keyed by the rule's
      * rendering (the identity HashMap<Rule, Integer> uses). */
    var ruleFrequency: map<string, nat>
    /** The rule object stored as the key for each rendering: the first one
      * counted, since putting an equal key again keeps the stored one. */
    var ruleKeys: map<string, Rule>
    /** The instantiated children recorded for each abstract rule. */
    var deHierarchy: map<string, set<Rule>>
    /** The anchorings recorded for each abstract rule. */
    var ruleToAnchorings: map<string, set<int>>
    /** The static int counters, each an object of its own so that an
      * operation's frame says which of them it moves. */
    const globalInsRuleCounter: Counter
    /** The number of abstract rules built since the last reset. */
    var ruleCounter: int
    const predictionCounter: Counter
    var subQueryFrequency: map<int, nat>
    var objQueryFrequency: map<int, nat>

    /** Every counted rendering has a stored key and a positive count. */
    ghost predicate Valid()
      reads this
    {
      globalInsRuleCounter != predictionCounter &&
      ruleKeys.Keys == ruleFrequency.Keys &&
      forall k :: k in ruleFrequency ==> ruleFrequency[k] >= 1
    }

    /** The tables as the class initialiser leaves them. */
    constructor()
      ensures Valid() && Empty()
      ensures fresh(globalInsRuleCounter) && fresh(predictionCounter)
    {
      ruleFrequency, ruleKeys, deHierarchy, ruleToAnchorings := map[], map[], map[], map[];
      subQueryFrequency, objQueryFrequency := map[], map[];
      ruleCounter := 0;
      globalInsRuleCounter := new Counter();
      predictionCounter := new Counter();
    }

    /** All tables empty and all counters 0. */
    ghost predicate Empty()
      reads this, globalInsRuleCounter, predictionCounter
    {
      ruleFrequency == map[] && ruleKeys == map[] && deHierarchy == map[] && ruleToAnchorings == map[] &&
      subQueryFrequency == map[] && objQueryFrequency == map[] &&
      globalInsRuleCounter.count == 0 && ruleCounter == 0 && predictionCounter.count == 0
    }

    /** reset: empties every table and zeroes every counter. */
    method Reset()
      requires Valid()
      modifies this, globalInsRuleCounter, predictionCounter
      ensures Valid() && Empty()
    {
      ruleFrequency, ruleKeys, deHierarchy, ruleToAnchorings := map[], map[], map[], map[];
      subQueryFrequency, objQueryFrequency := map[], map[];
      ruleCounter := 0;
      globalInsRuleCounter.Reset();
      predictionCounter.Reset();
    }

    /** resetRuleCounter: zeroes the rule counter and nothing else. */
    method ResetRuleCounter()
      modifies this
      ensures ruleCounter == 0
      ensures ruleFrequency == old(ruleFrequency) && ruleKeys == old(ruleKeys)
      ensures deHierarchy == old(deHierarchy) && ruleToAnchorings == old(ruleToAnchorings)
      ensures subQueryFrequency == old(subQueryFrequency) && objQueryFrequency == old(objQueryFrequency)
    {
      ruleCounter := 0;
    }

    /** tickGlobalInsRuleCounter: one more instantiated rule. */
    method TickGlobalInsRuleCounter()
      modifies globalInsRuleCounter
      ensures globalInsRuleCounter.count == old(globalInsRuleCounter.count) + 1
    {
      globalInsRuleCounter.Tick();
    }

    /** tickPredictionCounter: one more suggested fact. */
    method TickPredictionCounter()
      modifies predictionCounter
      ensures predictionCounter.count == old(predictionCounter.count) + 1
    {
      predictionCounter.Tick();
    }

    function GetGlobalInsRuleCounter(): int
      reads globalInsRuleCounter
    {
      globalInsRuleCounter.count
    }

    function GetPredictionCounter(): int
      reads predictionCounter
    {
      predictionCounter.count
    }

    /** abstraction(path, instance): builds the body atoms and the head atom,
      * makes them an abstract rule, and counts one more occurrence of that
      * rule (and of nothing else) and one more abstraction. */
    method Abstraction(g: Graph, p: LocalPath, inst: Instance) returns (rule: Rule)
      requires Valid() && PathNamed(g, p) && p.Length() > 0
      modifies this
      ensures Valid()
      ensures fresh(rule) && rule.Valid() && rule.kind == Abstract
      ensures rule.View() == AbstractView(HeadAtom(inst), PathAtoms(g, p))
      ensures ruleFrequency == Bumped(old(ruleFrequency), AbstractionKey(g, p, inst))
      ensures ruleKeys == (if AbstractionKey(g, p, inst) in old(ruleKeys) then old(ruleKeys)
                           else old(ruleKeys)[AbstractionKey(g, p, inst) := rule])
      ensures ruleCounter == old(ruleCounter) + 1
      ensures deHierarchy == old(deHierarchy) && ruleToAnchorings == old(ruleToAnchorings)
      ensures subQueryFrequency == old(subQueryFrequency) && objQueryFrequency == old(objQueryFrequency)
    {
      rule := MineRule(g, p, inst);
      var key := rule.ToString();
      Count(key, rule);
    }

    /** The frequency update of abstraction: one more occurrence of `key`,
      * stored with `rule` when it is new, and one more abstraction. */
    method Count(key: string, rule: Rule)
      requires Valid()
      modifies this
      ensures Valid()
      ensures ruleFrequency == Bumped(old(ruleFrequency), key)
      ensures ruleKeys == (if key in old(ruleKeys) then old(ruleKeys) else old(ruleKeys)[key := rule])
      ensures ruleCounter == old(ruleCounter) + 1
      ensures deHierarchy == old(deHierarchy) && ruleToAnchorings == old(ruleToAnchorings)
      ensures subQueryFrequency == old(subQueryFrequency) && objQueryFrequency == old(objQueryFrequency)
    {
      if key in ruleFrequency {
        ruleFrequency := ruleFrequency[key := ruleFrequency[key] + 1];
      } else {
        ruleFrequency := ruleFrequency[key := 1];
        ruleKeys := ruleKeys[key := rule];
      }
      ruleCounter := ruleCounter + 1;
    }
  }
}
