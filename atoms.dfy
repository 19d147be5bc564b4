// Atoms: one relationship of a rule, `predicate(subject, object)`, whose
// terms are variables (X, Y, V0, ...) or node names. The renderings are
// defined once on the value `AtomView`; the class `Atom` holds the mutable
// terms the rule constructors rename in place.
module Atoms {
  import opened Common
  import opened Graphs

  /** The state of an atom: base predicate (the relationship type name),
    * direction, and the subject and object terms with their node ids. */
  datatype AtomView = AtomView(
    pred: string, direction: Direction,
    subject: string, subjectId: int,
    obj: string, objectId: int)

  predicate IsInverse(a: AtomView) { a.direction == Incoming }

  /** getPredicate: an inverse atom reads its relationship backwards, as `_R`. */
  function Predicate(a: AtomView): string
  {
    if IsInverse(a) then "_" + a.pred else a.pred
  }

  /** toString: `predicate(subject,object)`. */
  function Render(a: AtomView): string
  {
    Predicate(a) + "(" + a.subject + "," + a.obj + ")"
  }

  /** The same relationship read in its stored direction. */
  function Forward(a: AtomView): AtomView
  {
    if IsInverse(a) then AtomView(a.pred, Outgoing, a.obj, a.objectId, a.subject, a.subjectId)
    else a
  }

  /** toInRuleString: an INCOMING atom is written with its base predicate and
    * its terms swapped; an OUTGOING atom as by toString. */
  function InRule(a: AtomView): string
  {
    if a.direction == Incoming then a.pred + "(" + a.obj + "," + a.subject + ")"
    else Render(a)
  }

  /** Atom.hashCode. */
  function Hash(a: AtomView): (h: int)
    ensures IsInt32(h)
  {
    JavaStringHash(InRule(a))
  }

  /** Atom.equals. */
  predicate Equal(a: AtomView, b: AtomView) { Render(a) == Render(b) }

  /** The prefix `_` marks exactly the inverse atoms (relationship type names
    * never start with `_`: the graph builder strips it), and the base
    * predicate is always what follows it. */
  lemma PredicateMarksInverse(a: AtomView)
    requires |a.pred| == 0 || a.pred[0] != '_'
    ensures (|Predicate(a)| > 0 && Predicate(a)[0] == '_') <==> IsInverse(a)
    ensures Predicate(a)[|Predicate(a)| - |a.pred|..] == a.pred
    ensures |Predicate(a)| == |a.pred| + (if IsInverse(a) then 1 else 0)
  {
  }

  /** The in-rule string of any atom is the rendering of the relationship
    * read forwards, so it never shows the `_` prefix. */
  lemma InRuleIsForwardRendering(a: AtomView)
    ensures InRule(a) == Render(Forward(a))
    ensures !IsInverse(Forward(a)) && Forward(a).pred == a.pred
    ensures IsInverse(a) ==> Forward(a).subject == a.obj && Forward(a).obj == a.subject
    ensures !IsInverse(a) ==> InRule(a) == Render(a)
  {
  }

  /** The position of the first `c` in `s`, or |s| when there is none. */
  function IndexOf(s: string, c: char): (k: nat)
    ensures k <= |s|
  {
    if s == [] then 0 else if s[0] == c then 0 else 1 + IndexOf(s[1..], c)
  }

  lemma {:induction false} IndexOfAfterPrefix(x: string, c: char, y: string)
    requires c !in x
    ensures IndexOf(x + [c] + y, c) == |x|
  {
    if x != [] {
      assert (x + [c] + y)[1..] == x[1..] + [c] + y;
      IndexOfAfterPrefix(x[1..], c, y);
    }
  }

  /** Splitting at the first occurrence of a separator the prefix lacks. */
  lemma SplitAtSeparator(x1: string, y1: string, x2: string, y2: string, c: char)
    requires c !in x1 && c !in x2
    requires x1 + [c] + y1 == x2 + [c] + y2
    ensures x1 == x2 && y1 == y2
  {
    var s := x1 + [c] + y1;
    IndexOfAfterPrefix(x1, c, y1);
    IndexOfAfterPrefix(x2, c, y2);
    assert x1 == s[..|x1|] == x2;
    assert y1 == s[|x1| + 1..] == y2;
  }

  /** Names and predicates free of the punctuation the rendering uses. */
  ghost predicate Plain(a: AtomView)
  {
    '(' !in a.pred && '_' !in a.pred[..Min(1, |a.pred|)] &&
    ',' !in a.subject
  }

  /** Equal atoms have equal hash codes, provided the rendering can be read
    * back: then equal renderings mean equal predicate, direction and terms,
    * hence equal in-rule strings. */
  lemma EqualAtomsHashAlike(a: AtomView, b: AtomView)
    requires Plain(a) && Plain(b)
    requires Equal(a, b)
    ensures InRule(a) == InRule(b) && Hash(a) == Hash(b)
  {
    assert '(' !in Predicate(a) by {
      if IsInverse(a) { assert Predicate(a) == ['_'] + a.pred; }
    }
    assert '(' !in Predicate(b) by {
      if IsInverse(b) { assert Predicate(b) == ['_'] + b.pred; }
    }
    var ra := a.subject + "," + a.obj + ")";
    var rb := b.subject + "," + b.obj + ")";
    assert Render(a) == Predicate(a) + ['('] + ra;
    assert Render(b) == Predicate(b) + ['('] + rb;
    SplitAtSeparator(Predicate(a), ra, Predicate(b), rb, '(');
    assert ra == a.subject + [','] + (a.obj + ")");
    assert rb == b.subject + [','] + (b.obj + ")");
    SplitAtSeparator(a.subject, a.obj + ")", b.subject, b.obj + ")", ',');
    assert a.obj == (a.obj + ")")[..|a.obj|] == b.obj;
    if IsInverse(a) != IsInverse(b) {
      assert false;
    }
    if IsInverse(a) {
      assert "_" + a.pred == "_" + b.pred;
      assert a.pred == ("_" + a.pred)[1..] == b.pred;
    }
  }

  /** The atom the learner reads off a path edge `e` reached from node
    * `source` (the node+edge constructor). */
  function EdgeAtom(g: Graph, source: int, e: Edge): AtomView
    requires e.src in g.names && e.dst in g.names
  {
    if source == e.dst then
      AtomView(e.etype, Incoming, g.names[e.dst], e.dst, g.names[e.src], e.src)
    else
      AtomView(e.etype, Outgoing, g.names[e.src], e.src, g.names[e.dst], e.dst)
  }

  /** An atom built from a path edge has the path-side node as subject and
    * the other end as object, names and ids alike, and is INCOMING exactly
    * when it was reached from the edge's end node. */
  lemma EdgeAtomFollowsPath(g: Graph, source: int, e: Edge)
    requires e.src in g.names && e.dst in g.names
    requires source == e.src || source == e.dst
    ensures EdgeAtom(g, source, e).subjectId == source
    ensures EdgeAtom(g, source, e).objectId == OtherNode(e, source)
    ensures EdgeAtom(g, source, e).subject == g.names[source]
    ensures EdgeAtom(g, source, e).obj == g.names[OtherNode(e, source)]
    ensures IsInverse(EdgeAtom(g, source, e)) <==> source == e.dst
    ensures EdgeAtom(g, source, e).pred == e.etype
    ensures InRule(EdgeAtom(g, source, e)) == e.etype + "(" + g.names[e.src] + "," + g.names[e.dst] + ")"
  {
  }

  /** The head atom of the rule mined from an instance. */
  function HeadAtom(i: Instance): AtomView
  {
    AtomView(i.etype, Outgoing, i.startNodeName, i.startNodeId, i.endNodeName, i.endNodeId)
  }

  class Atom {
    /** The relationship type; its name is also the base predicate. */
    const pred: string
    const direction: Direction
    var subject: string
    var subjectId: int
    var obj: string
    var objectId: int

    function View(): AtomView
      reads this
    {
      AtomView(pred, direction, subject, subjectId, obj, objectId)
    }

    /** The copy constructor: an equal atom that is a distinct object. */
    constructor Copy(base: Atom)
      ensures View() == base.View()
    {
      pred := base.pred;
      subject := base.subject;
      subjectId := base.subjectId;
      objectId := base.objectId;
      obj := base.obj;
      direction := base.direction;
    }

    /** The head atom for an instance: OUTGOING, from start node to end
      * node. */
    constructor FromInstance(i: Instance)
      ensures View() == HeadAtom(i)
      ensures View().direction == Outgoing
      ensures View().subjectId == i.startNodeId && View().objectId == i.endNodeId
    {
      pred := i.etype;
      subject := i.startNodeName;
      subjectId := i.startNodeId;
      obj := i.endNodeName;
      objectId := i.endNodeId;
      direction := Outgoing;
    }

    /** The atom for path edge `e` reached from node `source`. */
    constructor FromEdge(g: Graph, source: int, e: Edge)
      requires e.src in g.names && e.dst in g.names
      ensures View() == EdgeAtom(g, source, e)
    {
      pred := e.etype;
      if source == e.dst {
        direction := Incoming;
        subject := g.names[e.dst];
        obj := g.names[e.src];
        subjectId := e.dst;
        objectId := e.src;
      } else {
        direction := Outgoing;
        subject := g.names[e.src];
        obj := g.names[e.dst];
        subjectId := e.src;
        objectId := e.dst;
      }
    }

    method SetSubject(s: string)
      modifies this
      ensures View() == old(View()).(subject := s)
    {
      subject := s;
    }

    method SetObject(o: string)
      modifies this
      ensures View() == old(View()).(obj := o)
    {
      obj := o;
    }

    method SetSubjectId(id: int)
      modifies this
      ensures View() == old(View()).(subjectId := id)
    {
      subjectId := id;
    }

    method SetObjectId(id: int)
      modifies this
      ensures View() == old(View()).(objectId := id)
    {
      objectId := id;
    }

    function ToString(): (s: string)
      reads this
      ensures Predicate(View()) + "(" + subject + "," <= s && s[|s| - 1] == ')'
    {
      Render(View())
    }

    function ToInRuleString(): string
      reads this
    {
      InRule(View())
    }

    function HashCode(): int
      reads this
    {
      Hash(View())
    }

    predicate Equals(other: Atom)
      reads this, other
    {
      Equal(View(), other.View())
    }
  }

  /** A copy is independent of its original: renaming the copy leaves the
    * original as it was, while the copy still equals it in every other
    * field. */
  method CopyThenRename(a: Atom, s: string) returns (c: Atom)
    ensures fresh(c) && c != a
    ensures c.View() == a.View().(subject := s)
    ensures a.View() == old(a.View())
  {
    c := new Atom.Copy(a);
    c.SetSubject(s);
  }
}
