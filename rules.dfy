// Rules `head <- body`: abstract rules, whose terms are all variables, and
// instantiated rules, which bind the head's free term, the body's tail or
// both to constants. A rule's identity is its rendering, kind tag included.
// The rendering is defined once on the value `RuleView`; the class `Rule`
// holds the atoms the constructors rewrite in place and the statistics and
// child sets the learner fills.
module Rules {
  import opened Common
  import opened Graphs
  import opened Atoms
  import opened Stats

  /** An AbstractRule, or an InstantiatedRule of the given type
    * (0 = head anchored, 1 = tail anchored, 2 = both anchored). */
  datatype Kind = Abstract | Instantiated(insType: int)

  datatype RuleView = RuleView(kind: Kind, closed: bool, head: AtomView, body: seq<AtomView>)

  /** The current views of a list of atoms. */
  function Views(atoms: seq<Atom>): (r: seq<AtomView>)
    reads atoms
    ensures |r| == |atoms|
    ensures forall i :: 0 <= i < |atoms| ==> r[i] == atoms[i].View()
  {
    seq(|atoms|, i reads atoms requires 0 <= i < |atoms| => atoms[i].View())
  }

  lemma ViewsAre(b: seq<Atom>, vs: seq<AtomView>)
    requires |vs| == |b| && forall k :: 0 <= k < |b| ==> b[k].View() == vs[k]
    ensures Views(b) == vs
  {
  }

  /** A rule is closed when its last body atom ends at either head node. */
  predicate ClosedOf(h: AtomView, b: seq<AtomView>)
    requires |b| > 0
  {
    EndsAtHead(h, b[|b| - 1])
  }

  /** The last body atom ends at either head node. */
  predicate EndsAtHead(h: AtomView, last: AtomView)
  {
    h.subjectId == last.objectId || h.objectId == last.objectId
  }

  /** The body starts at the head's subject. */
  predicate FromSubjectOf(h: AtomView, b: seq<AtomView>)
    requires |b| > 0
  {
    StartsAtSubject(h, b[0])
  }

  /** The first body atom starts at the head's subject. */
  predicate StartsAtSubject(h: AtomView, first: AtomView)
  {
    h.subjectId == first.subjectId
  }

  // ---------------------------------------------------------------------
  // Rendering and identity
  // ---------------------------------------------------------------------

  /** The kind tag that toString puts in front of the rule. */
  function Tag(kind: Kind, closed: bool): (t: string)
    ensures |t| == 4 && t[3] == '\t'
  {
    match kind
    case Abstract => if closed then "CAR\t" else "OAR\t"
    case Instantiated(t) => if t == 0 then "HAR\t" else if t == 1 then "TAR\t" else "BAR\t"
  }

  function BodyStrings(body: seq<AtomView>): (r: seq<string>)
    ensures |r| == |body| && forall i :: 0 <= i < |body| ==> r[i] == InRule(body[i])
  {
    seq(|body|, i requires 0 <= i < |body| => InRule(body[i]))
  }

  /** toString: the tag, the head, " <- ", then the body atoms in their in-rule
    * form joined by ", ". */
  function RenderRule(v: RuleView): string
  {
    Tag(v.kind, v.closed) + Render(v.head) + " <- " + Join(BodyStrings(v.body), ", ")
  }

  /** Rule.equals. */
  predicate SameRule(a: RuleView, b: RuleView) { RenderRule(a) == RenderRule(b) }

  /** Equal rules have equal tags: an instantiated rule never equals an
    * abstract one, a closed abstract rule never equals an open one, and
    * the head-, tail- and both-anchored kinds stay apart. */
  lemma SameRuleSameKind(a: RuleView, b: RuleView)
    requires SameRule(a, b)
    ensures Tag(a.kind, a.closed) == Tag(b.kind, b.closed)
    ensures a.kind.Abstract? <==> b.kind.Abstract?
    ensures a.kind.Abstract? ==> a.closed == b.closed
    ensures a.kind.Instantiated? ==> (a.kind.insType == 0 <==> b.kind.insType == 0)
    ensures a.kind.Instantiated? ==> (a.kind.insType == 1 <==> b.kind.insType == 1)
  {
    var ta, tb := Tag(a.kind, a.closed), Tag(b.kind, b.closed);
    assert ta == RenderRule(a)[..4];
    assert tb == RenderRule(b)[..4];
  }

  /** The rendering of a rule is determined by the predicates and the terms
    * of its atoms; node ids play no part. */
  lemma RenderIgnoresIds(a: RuleView, b: RuleView)
    requires a.kind == b.kind && a.closed == b.closed && |a.body| == |b.body|
    requires a.head.(subjectId := 0, objectId := 0) == b.head.(subjectId := 0, objectId := 0)
    requires forall i :: 0 <= i < |a.body| ==>
      a.body[i].(subjectId := 0, objectId := 0) == b.body[i].(subjectId := 0, objectId := 0)
    ensures SameRule(a, b)
  {
    assert Render(a.head) == Render(b.head);
    forall i | 0 <= i < |a.body| ensures InRule(a.body[i]) == InRule(b.body[i]) {
      assert a.body[i].(subjectId := 0, objectId := 0) == b.body[i].(subjectId := 0, objectId := 0);
    }
    assert BodyStrings(a.body) == BodyStrings(b.body);
  }

  /** Rule.hashCode: the head's hash plus the body atoms' hashes, in int
    * arithmetic. */
  function RuleHash(v: RuleView): (h: int)
    ensures IsInt32(h)
  {
    Wrap32(Hash(v.head) + SumHashes(v.body))
  }

  function SumHashes(b: seq<AtomView>): int
  {
    if b == [] then 0 else SumHashes(b[..|b| - 1]) + Hash(b[|b| - 1])
  }

  // ---------------------------------------------------------------------
  // Canonical variables
  // ---------------------------------------------------------------------

  /** The variable `V<i>`. */
  function Var(i: nat): string { "V" + NatToString(i) }

  /** The head of a canonical rule: subject X and object Y. */
  function CanonicalHead(h: AtomView): AtomView { h.(subject := "X", obj := "Y") }

  /** Body atom i with subject V<i> and object V<i+1>, so consecutive atoms
    * share a variable. */
  function VarBody(b: seq<AtomView>): (r: seq<AtomView>)
    ensures |r| == |b|
  {
    seq(|b|, i requires 0 <= i < |b| => b[i].(subject := Var(i), obj := Var(i + 1)))
  }

  /** The variable the first body atom starts from: the head's subject X when
    * the body starts there, the head's object Y otherwise. */
  function FirstVar(fromSubject: bool): string { if fromSubject then "X" else "Y" }

  /** The variable a closed body ends at: the other head variable. */
  function LastVar(fromSubject: bool): string { if fromSubject then "Y" else "X" }

  function WithFirstSubject(b: seq<AtomView>, s: string): (r: seq<AtomView>)
    requires |b| > 0
    ensures |r| == |b|
  {
    b[0 := b[0].(subject := s)]
  }

  function WithLastObject(b: seq<AtomView>, o: string): (r: seq<AtomView>)
    requires |b| > 0
    ensures |r| == |b|
  {
    b[|b| - 1 := b[|b| - 1].(obj := o)]
  }

  /** The body of a rule after the renaming every rule constructor does: V
    * variables, the first subject tied to the head. */
  function LinkedBody(b: seq<AtomView>, fromSubject: bool): (r: seq<AtomView>)
    requires |b| > 0
    ensures |r| == |b|
  {
    WithFirstSubject(VarBody(b), FirstVar(fromSubject))
  }

  /** The body of an abstract rule: a closed body also ends at a head
    * variable. */
  function AbstractBody(b: seq<AtomView>, closed: bool, fromSubject: bool): (r: seq<AtomView>)
    requires |b| > 0
    ensures |r| == |b|
  {
    var l := LinkedBody(b, fromSubject);
    if closed then WithLastObject(l, LastVar(fromSubject)) else l
  }

  /** The abstract rule AbstractRule's constructor makes of `h <- b`. */
  function AbstractView(h: AtomView, b: seq<AtomView>): RuleView
    requires |b| > 0
  {
    RuleView(Abstract, ClosedOf(h, b), CanonicalHead(h), AbstractBody(b, ClosedOf(h, b), FromSubjectOf(h, b)))
  }

  /** The canonical form of body atom i: (V<i>, V<i+1>), except that the
    * first subject is X or Y and a closed body's last object is the other
    * head variable; predicate, direction and node ids are untouched. */
  lemma AbstractAtom(b: seq<AtomView>, closed: bool, fromSubject: bool, i: nat)
    requires i < |b|
    ensures AbstractBody(b, closed, fromSubject)[i].subject == (if i == 0 then FirstVar(fromSubject) else Var(i))
    ensures AbstractBody(b, closed, fromSubject)[i].obj ==
      (if i == |b| - 1 && closed then LastVar(fromSubject) else Var(i + 1))
    ensures AbstractBody(b, closed, fromSubject)[i] ==
      b[i].(subject := AbstractBody(b, closed, fromSubject)[i].subject,
            obj := AbstractBody(b, closed, fromSubject)[i].obj)
  {
    var v := VarBody(b);
    assert v[i] == b[i].(subject := Var(i), obj := Var(i + 1));
    var l := LinkedBody(b, fromSubject);
    assert l[i] == if i == 0 then v[i].(subject := FirstVar(fromSubject)) else v[i];
  }

  /** The canonical form, atom by atom: the head reads (X, Y) and every body
    * atom as `AbstractAtom` says. */
  lemma AbstractShape(h: AtomView, b: seq<AtomView>, closed: bool, fromSubject: bool)
    requires |b| > 0
    ensures CanonicalHead(h).subject == "X" && CanonicalHead(h).obj == "Y"
    ensures forall i :: 0 <= i < |b| ==>
      AbstractBody(b, closed, fromSubject)[i].subject == (if i == 0 then FirstVar(fromSubject) else Var(i))
    ensures forall i :: 0 <= i < |b| ==>
      AbstractBody(b, closed, fromSubject)[i].obj ==
        (if i == |b| - 1 && closed then LastVar(fromSubject) else Var(i + 1))
    ensures forall i :: 0 <= i < |b| ==>
      AbstractBody(b, closed, fromSubject)[i].pred == b[i].pred &&
      AbstractBody(b, closed, fromSubject)[i].direction == b[i].direction &&
      AbstractBody(b, closed, fromSubject)[i].subjectId == b[i].subjectId &&
      AbstractBody(b, closed, fromSubject)[i].objectId == b[i].objectId
  {
    forall i | 0 <= i < |b|
      ensures AbstractBody(b, closed, fromSubject)[i].subject == (if i == 0 then FirstVar(fromSubject) else Var(i))
      ensures AbstractBody(b, closed, fromSubject)[i].obj ==
        (if i == |b| - 1 && closed then LastVar(fromSubject) else Var(i + 1))
      ensures AbstractBody(b, closed, fromSubject)[i].pred == b[i].pred &&
        AbstractBody(b, closed, fromSubject)[i].direction == b[i].direction &&
        AbstractBody(b, closed, fromSubject)[i].subjectId == b[i].subjectId &&
        AbstractBody(b, closed, fromSubject)[i].objectId == b[i].objectId
    {
      AbstractAtom(b, closed, fromSubject, i);
    }
  }

  /** Renaming keeps the shape: a canonical rule is closed and starts from
    * the head's subject exactly when the rule it was made from did. */
  lemma CanonicalKeepsShape(h: AtomView, b: seq<AtomView>, closed: bool, fromSubject: bool)
    requires |b| > 0
    ensures ClosedOf(CanonicalHead(h), AbstractBody(b, closed, fromSubject)) == ClosedOf(h, b)
    ensures FromSubjectOf(CanonicalHead(h), AbstractBody(b, closed, fromSubject)) == FromSubjectOf(h, b)
    ensures ClosedOf(CanonicalHead(h), LinkedBody(b, fromSubject)) == ClosedOf(h, b)
    ensures FromSubjectOf(CanonicalHead(h), LinkedBody(b, fromSubject)) == FromSubjectOf(h, b)
  {
    AbstractAtom(b, closed, fromSubject, 0);
    AbstractAtom(b, closed, fromSubject, |b| - 1);
    AbstractAtom(b, false, fromSubject, 0);
    AbstractAtom(b, false, fromSubject, |b| - 1);
  }

  /** Abstraction forgets the nodes: two instance paths whose atoms have the
    * same predicates and directions, with the same closed and from-subject
    * shape, give the same abstract rule. */
  lemma AbstractionDependsOnShape(h1: AtomView, b1: seq<AtomView>, h2: AtomView, b2: seq<AtomView>)
    requires |b1| == |b2| > 0
    requires h1.pred == h2.pred && h1.direction == h2.direction
    requires forall i :: 0 <= i < |b1| ==> b1[i].pred == b2[i].pred && b1[i].direction == b2[i].direction
    requires ClosedOf(h1, b1) == ClosedOf(h2, b2) && FromSubjectOf(h1, b1) == FromSubjectOf(h2, b2)
    ensures SameRule(AbstractView(h1, b1), AbstractView(h2, b2))
  {
    var c, fs := ClosedOf(h1, b1), FromSubjectOf(h1, b1);
    var a1, a2 := AbstractBody(b1, c, fs), AbstractBody(b2, c, fs);
    forall i | 0 <= i < |b1|
      ensures a1[i].(subjectId := 0, objectId := 0) == a2[i].(subjectId := 0, objectId := 0)
    {
      AbstractAtom(b1, c, fs, i);
      AbstractAtom(b2, c, fs, i);
    }
    RenderIgnoresIds(AbstractView(h1, b1), AbstractView(h2, b2));
  }

  // ---------------------------------------------------------------------
  // Instantiation
  // ---------------------------------------------------------------------

  /** Types 0 and 2 bind a head constant. */
  predicate BindsHead(insType: int) { insType == 0 || insType == 2 }

  /** Types 1 and 2 bind a tail constant. */
  predicate BindsTail(insType: int) { insType == 1 || insType == 2 }

  /** The head with its free term bound: the object when the body starts at
    * the subject, the subject otherwise. */
  function BindHead(h: AtomView, fromSubject: bool, name: string, id: int): AtomView
  {
    if fromSubject then h.(obj := name, objectId := id) else h.(subject := name, subjectId := id)
  }

  /** The body with the object of its last atom bound. */
  function BindTail(b: seq<AtomView>, name: string, id: int): (r: seq<AtomView>)
    requires |b| > 0
    ensures |r| == |b|
  {
    b[|b| - 1 := b[|b| - 1].(obj := name, objectId := id)]
  }

  /** getAnchoring: the head node the body does not start from. */
  function AnchoringOf(h: AtomView, fromSubject: bool): int
  {
    if fromSubject then h.objectId else h.subjectId
  }

  /** getTail: the node the body ends at. */
  function TailOf(b: seq<AtomView>): int
    requires |b| > 0
  {
    b[|b| - 1].objectId
  }

  /** Binding a head constant makes it the rule's anchoring and leaves the
    * other head term; binding a tail makes it the rule's tail and leaves
    * every other body atom. */
  lemma BindingsAreAnchoringAndTail(h: AtomView, b: seq<AtomView>, fromSubject: bool, name: string, id: int)
    requires |b| > 0
    ensures AnchoringOf(BindHead(h, fromSubject, name, id), fromSubject) == id
    ensures fromSubject ==> BindHead(h, fromSubject, name, id).subject == h.subject
    ensures !fromSubject ==> BindHead(h, fromSubject, name, id).obj == h.obj
    ensures TailOf(BindTail(b, name, id)) == id && BindTail(b, name, id)[|b| - 1].obj == name
    ensures BindTail(b, name, id)[..|b| - 1] == b[..|b| - 1]
  {
  }

  /** setSubject then setObject on one atom. */
  method RenameAtom(a: Atom, s: string, o: string)
    modifies a
    ensures a.View() == old(a.View()).(subject := s, obj := o)
  {
    a.SetSubject(s);
    a.SetObject(o);
  }

  /** The loop of the renaming: body atom i becomes (V<i>, V<i+1>). */
  method RenameBody(b: seq<Atom>)
    requires Distinct(b)
    modifies b
    ensures Views(b) == VarBody(old(Views(b)))
  {
    ghost var bv := Views(b);
    var i := 0;
    while i < |b|
      invariant 0 <= i <= |b|
      invariant forall k :: 0 <= k < i ==> b[k].View() == VarBody(bv)[k]
      invariant forall k :: i <= k < |b| ==> b[k].View() == bv[k]
    {
      label renaming:
      RenameAtom(b[i], Var(i), Var(i + 1));
      forall k | 0 <= k < |b| && k != i ensures b[k].View() == old@renaming(b[k].View()) {
        assert b[k] != b[i];
      }
      i := i + 1;
    }
    ViewsAre(b, VarBody(bv));
  }

  /** Renames the head to (X, Y) and the body atoms to (V<i>, V<i+1>), then
    * ties the first body subject to the head; node ids are kept. */
  method Canonicalise(h: Atom, b: seq<Atom>, fromSubject: bool)
    requires |b| > 0 && h !in b && Distinct(b)
    modifies h, b
    ensures h.View() == CanonicalHead(old(h.View()))
    ensures Views(b) == LinkedBody(old(Views(b)), fromSubject)
  {
    ghost var bv := Views(b);
    RenameAtom(h, "X", "Y");
    assert Views(b) == bv;
    RenameBody(b);
    ghost var vb := Views(b);
    b[0].SetSubject(FirstVar(fromSubject));
    forall k | 0 < k < |b| ensures b[k].View() == vb[k] {
      assert b[k] != b[0];
    }
    ViewsAre(b, LinkedBody(bv, fromSubject));
  }

  /** The renaming of InstantiatedRule's atom-list constructor: canonical
    * variables, then the original head constant back for types 0 and 2
    * and the original tail name back for types 1 and 2. */
  method InstantiateAtoms(h: Atom, b: seq<Atom>, fromSubject: bool, insType: int)
    requires |b| > 0 && h !in b && Distinct(b)
    modifies h, b
    ensures h.View() ==
      (if BindsHead(insType) then
        BindHead(CanonicalHead(old(h.View())), fromSubject,
          (if fromSubject then old(h.View()).obj else old(h.View()).subject),
          AnchoringOf(old(h.View()), fromSubject))
      else CanonicalHead(old(h.View())))
    ensures Views(b) ==
      (if BindsTail(insType) then
        BindTail(LinkedBody(old(Views(b)), fromSubject), old(Views(b))[|b| - 1].obj, TailOf(old(Views(b))))
      else LinkedBody(old(Views(b)), fromSubject))
  {
    var headSubName, headObjName := h.subject, h.obj;
    var tailName := b[|b| - 1].obj;
    ghost var bv := Views(b);
    Canonicalise(h, b, fromSubject);
    ghost var lb := Views(b);
    if BindsHead(insType) {
      if fromSubject {
        h.SetObject(headObjName);
      } else {
        h.SetSubject(headSubName);
      }
    }
    assert Views(b) == lb;
    if BindsTail(insType) {
      RenameTail(b, tailName);
      AbstractAtom(bv, false, fromSubject, |b| - 1);
      assert WithLastObject(lb, tailName) == BindTail(lb, tailName, TailOf(bv));
    }
  }

  /** Renames the object of the last body atom; its id and the other atoms
    * are untouched. */
  method RenameTail(b: seq<Atom>, name: string)
    requires |b| > 0 && Distinct(b)
    modifies b[|b| - 1]
    ensures Views(b) == WithLastObject(old(Views(b)), name)
  {
    ghost var bv := Views(b);
    var last := b[|b| - 1];
    last.SetObject(name);
    forall k | 0 <= k < |b| - 1 ensures b[k].View() == bv[k] {
      assert b[k] != last;
    }
    ViewsAre(b, WithLastObject(bv, name));
  }

  /** Binds the head's free term, the object when the body starts at the
    * subject and the subject otherwise, to a constant, name and id alike. */
  method BindHeadConstant(h: Atom, fromSubject: bool, name: string, id: int)
    modifies h
    ensures h.View() == BindHead(old(h.View()), fromSubject, name, id)
  {
    if fromSubject {
      h.SetObject(name);
      h.SetObjectId(id);
    } else {
      h.SetSubject(name);
      h.SetSubjectId(id);
    }
  }

  /** Binds the object of the last body atom to a constant, name and id
    * alike; the other atoms are untouched. */
  method BindTailConstant(b: seq<Atom>, name: string, id: int)
    requires |b| > 0 && Distinct(b)
    modifies b[|b| - 1]
    ensures Views(b) == BindTail(old(Views(b)), name, id)
  {
    ghost var bv := Views(b);
    var last := b[|b| - 1];
    last.SetObject(name);
    last.SetObjectId(id);
    forall k | 0 <= k < |b| - 1 ensures b[k].View() == bv[k] {
      assert b[k] != last;
    }
    ViewsAre(b, BindTail(bv, name, id));
  }

  class Rule {
    const kind: Kind
    const head: Atom
    const body: seq<Atom>
    const closed: bool
    const fromSubject: bool
    const stats: RuleStats
    /** The instantiated children an abstract rule keeps, by kind. */
    var headRules: set<Rule>
    var tailRules: set<Rule>
    var bothRules: set<Rule>

    function View(): RuleView
      reads head, body
    {
      RuleView(kind, closed, head.View(), Views(body))
    }

    /** The atoms are distinct objects; the statistics belong to an open
    * abstract rule exactly when this is one; and an abstract rule's
    * closed and from-subject shape is that of its atoms, whose ids no
    * constructor changes after computing it. */
    ghost predicate Valid()
      reads head, body, stats
    {
      |body| > 0 && head !in body && Distinct(body) &&
      stats.openAbstract == (kind.Abstract? && !closed) && stats.Valid() &&
      (kind.Abstract? ==>
        closed == EndsAtHead(head.View(), body[|body| - 1].View()) &&
        fromSubject == StartsAtSubject(head.View(), body[0].View()))
    }

    /** Rule(head, body), with the subclass fields: the kind, the atoms as
      * given, `closed` and `fromSubject` as already computed from their ids,
      * fresh zero statistics and no children. */
    constructor Make(kind: Kind, h: Atom, b: seq<Atom>, closed: bool, fromSubject: bool)
      requires |b| > 0 && h !in b && Distinct(b)
      requires kind.Abstract? ==> closed == ClosedOf(h.View(), Views(b)) && fromSubject == FromSubjectOf(h.View(), Views(b))
      ensures this.kind == kind && head == h && body == b
      ensures this.closed == closed && this.fromSubject == fromSubject
      ensures headRules == {} && tailRules == {} && bothRules == {}
      ensures fresh(stats) && stats.support == 0.0 && stats.totalPredictions == 0.0 && stats.groundTruth == 0.0
      ensures stats.headAnchoredSize == 0.0 && stats.sc == 0.0
      ensures Valid()
    {
      this.kind := kind;
      head := h;
      body := b;
      this.closed := closed;
      this.fromSubject := fromSubject;
      stats := new RuleStats(kind.Abstract? && !closed);
      headRules, tailRules, bothRules := {}, {}, {};
    }

    /** copyHead: an equal atom that is a new object. */
    method CopyHead() returns (a: Atom)
      ensures fresh(a) && a.View() == old(head.View())
    {
      a := new Atom.Copy(head);
    }

    /** copyBody: a list of new atoms, one per body atom, equal to it. */
    method CopyBody() returns (atoms: seq<Atom>)
      ensures |atoms| == |body| && Views(atoms) == old(Views(body))
      ensures forall i :: 0 <= i < |atoms| ==> fresh(atoms[i])
      ensures Distinct(atoms)
    {
      atoms := [];
      var i := 0;
      while i < |body|
        invariant 0 <= i <= |body| && |atoms| == i
        invariant forall k :: 0 <= k < i ==> fresh(atoms[k]) && atoms[k].View() == body[k].View()
        invariant Distinct(atoms)
      {
        var a := new Atom.Copy(body[i]);
        atoms := atoms + [a];
        i := i + 1;
      }
    }

    /** setStats: stores the three counts and recomputes the measures. */
    method SetStats(support: real, totalPredictions: real, groundTruth: real)
      requires stats.Valid()
      modifies stats
      ensures stats.Valid()
      ensures stats.support == support && stats.totalPredictions == totalPredictions
      ensures stats.groundTruth == groundTruth
      ensures stats.headAnchoredSize == old(stats.headAnchoredSize)
      ensures stats.sc == Confidence(support, totalPredictions)
      ensures stats.hc == Ratio(support, groundTruth)
      ensures stats.localAvgSupport ==
        (if stats.openAbstract then Ratio(support, stats.headAnchoredSize) else old(stats.localAvgSupport))
    {
      stats.support := support;
      stats.totalPredictions := totalPredictions;
      stats.groundTruth := groundTruth;
      stats.Compute();
    }

    function BodyLength(): nat { |body| }

    function ToString(): (s: string)
      reads head, body
      ensures Tag(kind, closed) <= s
    {
      RenderRule(View())
    }

    predicate Equals(other: Rule)
      reads head, body, other.head, other.body
    {
      SameRule(View(), other.View())
    }

    function HashCode(): int
      reads head, body
    {
      RuleHash(View())
    }

    function GetTail(): (t: int)
      requires |body| > 0
      reads body
      ensures t == body[|body| - 1].View().objectId
    {
      body[|body| - 1].objectId
    }

    function GetAnchoring(): (a: int)
      reads head
      ensures a == if fromSubject then head.objectId else head.subjectId
    {
      AnchoringOf(head.View(), fromSubject)
    }
  }

  /** AbstractRule(h, b): computes `closed` and `fromSubject` from the ids,
    * then canonicalises the given atoms in place; a closed body's last
    * object becomes the other head variable. */
  method NewAbstractRule(h: Atom, b: seq<Atom>) returns (r: Rule)
    requires |b| > 0 && h !in b && Distinct(b)
    modifies h, b
    ensures fresh(r) && r.head == h && r.body == b && r.kind == Abstract
    ensures r.View() == AbstractView(old(h.View()), old(Views(b)))
    ensures r.closed == ClosedOf(old(h.View()), old(Views(b)))
    ensures r.fromSubject == FromSubjectOf(old(h.View()), old(Views(b)))
    ensures r.headRules == {} && r.tailRules == {} && r.bothRules == {}
    ensures fresh(r.stats) && r.stats.support == 0.0 && r.stats.totalPredictions == 0.0
    ensures r.Valid()
  {
    var closed := ClosedOf(h.View(), Views(b));
    var fromSubject := FromSubjectOf(h.View(), Views(b));
    r := new Rule.Make(Abstract, h, b, closed, fromSubject);
    ghost var hv, bv := h.View(), Views(b);
    Canonicalise(h, b, fromSubject);
    if closed {
      RenameTail(b, LastVar(fromSubject));
    }
    CanonicalKeepsShape(hv, bv, closed, fromSubject);
  }

  /** InstantiatedRule(h, b, type): refuses a closed `h <- b` before any atom
    * is touched; otherwise canonicalises the atoms, then restores the head
    * constant (types 0 and 2) and the tail constant (types 1 and 2) they
    * had. */
  method InstantiateFromAtoms(h: Atom, b: seq<Atom>, insType: int) returns (r: Result<Rule>)
    requires |b| > 0 && h !in b && Distinct(b)
    modifies h, b
    ensures r.Err? <==> ClosedOf(old(h.View()), old(Views(b)))
    ensures r.Err? ==> h.View() == old(h.View()) && Views(b) == old(Views(b))
    ensures r.Ok? ==> fresh(r.value) && r.value.head == h && r.value.body == b && r.value.Valid()
    ensures r.Ok? ==> r.value.kind == Instantiated(insType) && !r.value.closed
    ensures r.Ok? ==> r.value.fromSubject == FromSubjectOf(old(h.View()), old(Views(b)))
    ensures r.Ok? ==>
      h.View() ==
        (if BindsHead(insType) then
          BindHead(CanonicalHead(old(h.View())), r.value.fromSubject,
            (if r.value.fromSubject then old(h.View()).obj else old(h.View()).subject),
            AnchoringOf(old(h.View()), r.value.fromSubject))
        else CanonicalHead(old(h.View())))
    ensures r.Ok? ==>
      Views(b) ==
        (if BindsTail(insType) then
          BindTail(LinkedBody(old(Views(b)), r.value.fromSubject), old(Views(b))[|b| - 1].obj, TailOf(old(Views(b))))
        else LinkedBody(old(Views(b)), r.value.fromSubject))
    ensures r.Ok? ==> r.value.headRules == {} && r.value.tailRules == {} && r.value.bothRules == {}
  {
    if ClosedOf(h.View(), Views(b)) {
      return Err("#Closed path should not be instantiated.");
    }
    var fromSubject := FromSubjectOf(h.View(), Views(b));
    var rule := new Rule.Make(Instantiated(insType), h, b, false, fromSubject);
    InstantiateAtoms(h, b, fromSubject, insType);
    return Ok(rule);
  }

  /** The first step of InstantiatedRule's constructors from an abstract
    * rule: Rule(base.copyHead(), base.copyBody()), which computes `closed`
    * and `fromSubject` from the copied ids, so they are the base rule's. */
  method CopyAsInstantiated(base: Rule, insType: int) returns (r: Rule)
    requires base.Valid()
    ensures fresh(r) && fresh(r.head) && fresh(r.stats) && r.Valid()
    ensures forall i :: 0 <= i < |r.body| ==> fresh(r.body[i])
    ensures r.kind == Instantiated(insType)
    ensures r.head.View() == old(base.head.View()) && Views(r.body) == old(Views(base.body))
    ensures r.closed == ClosedOf(old(base.head.View()), old(Views(base.body)))
    ensures r.fromSubject == FromSubjectOf(old(base.head.View()), old(Views(base.body)))
    ensures r.headRules == {} && r.tailRules == {} && r.bothRules == {}
  {
    var h := base.CopyHead();
    var b := base.CopyBody();
    var hv, bv := h.View(), Views(b);
    r := new Rule.Make(Instantiated(insType), h, b, ClosedOf(hv, bv), FromSubjectOf(hv, bv));
  }

  /** The second step: binds the head's free term and the last body object
    * to the given constants, names and ids alike. */
  method BindConstants(r: Rule, headConst: Option<(string, int)>, tailConst: Option<(string, int)>)
    requires r.Valid() && r.kind.Instantiated?
    modifies r.head, r.body
    ensures r.Valid()
    ensures r.head.View() ==
      (if headConst.Some? then BindHead(old(r.head.View()), r.fromSubject, headConst.value.0, headConst.value.1)
      else old(r.head.View()))
    ensures Views(r.body) ==
      (if tailConst.Some? then BindTail(old(Views(r.body)), tailConst.value.0, tailConst.value.1)
      else old(Views(r.body)))
  {
    ghost var bv := Views(r.body);
    if headConst.Some? {
      BindHeadConstant(r.head, r.fromSubject, headConst.value.0, headConst.value.1);
    }
    assert Views(r.body) == bv;
    if tailConst.Some? {
      BindTailConstant(r.body, tailConst.value.0, tailConst.value.1);
    }
  }

  /** InstantiatedRule(base, ins, ids, type): refuses a closed base rule;
    * otherwise copies of the base rule's atoms with the head constant ins[0]
    * (types 0 and 2) and the tail constant ins[0] (type 1) or ins[1]
    * (type 2) bound. */
  method InstantiateFromBase(base: Rule, ins: seq<string>, ids: seq<int>, insType: int) returns (r: Result<Rule>)
    requires base.Valid() && base.kind.Abstract?
    requires |ins| == |ids|
    requires BindsHead(insType) || insType == 1 ==> |ins| >= 1
    requires insType == 2 ==> |ins| >= 2
    ensures r.Err? <==> base.closed
    ensures r.Ok? ==> fresh(r.value) && fresh(r.value.head) && fresh(r.value.stats) && r.value.Valid()
    ensures r.Ok? ==> forall i :: 0 <= i < |r.value.body| ==> fresh(r.value.body[i])
    ensures r.Ok? ==> r.value.kind == Instantiated(insType) && !r.value.closed
    ensures r.Ok? ==> r.value.fromSubject == base.fromSubject
    ensures r.Ok? ==>
      r.value.head.View() ==
        (if BindsHead(insType) then BindHead(old(base.head.View()), base.fromSubject, ins[0], ids[0])
        else old(base.head.View()))
    ensures r.Ok? ==>
      Views(r.value.body) ==
        (if insType == 1 then BindTail(old(Views(base.body)), ins[0], ids[0])
        else if insType == 2 then BindTail(old(Views(base.body)), ins[1], ids[1])
        else old(Views(base.body)))
    ensures r.Ok? ==> r.value.headRules == {} && r.value.tailRules == {} && r.value.bothRules == {}
  {
    var rule := CopyAsInstantiated(base, insType);
    if rule.closed {
      return Err("#Closed path should not be instantiated.");
    }
    BindConstants(rule,
      if BindsHead(insType) then Some((ins[0], ids[0])) else None,
      if insType == 1 then Some((ins[0], ids[0])) else if insType == 2 then Some((ins[1], ids[1])) else None);
    return Ok(rule);
  }

  /** The head constant an instance gives: its end node when the body
    * starts at the head's subject, its start node otherwise. */
  function HeadConstant(inst: Instance, fromSubject: bool): (string, int)
  {
    if fromSubject then (inst.endNodeName, inst.endNodeId) else (inst.startNodeName, inst.startNodeId)
  }

  /** InstantiatedRule(base, instance, path, type): copies of the base rule's
    * atoms with the head constant taken from the instance and the tail
    * constant from the path's end node; there is no closed check. */
  method InstantiateFromPath(base: Rule, inst: Instance, g: Graph, p: LocalPath, insType: int) returns (r: Rule)
    requires base.Valid()
    requires |p.nodes| > 0 && p.EndNode() in g.names
    ensures fresh(r) && fresh(r.head) && r.Valid()
    ensures forall i :: 0 <= i < |r.body| ==> fresh(r.body[i])
    ensures r.kind == Instantiated(insType)
    ensures r.closed == ClosedOf(old(base.head.View()), old(Views(base.body)))
    ensures r.fromSubject == FromSubjectOf(old(base.head.View()), old(Views(base.body)))
    ensures r.head.View() ==
      (if BindsHead(insType) then
        BindHead(old(base.head.View()), r.fromSubject,
          HeadConstant(inst, r.fromSubject).0, HeadConstant(inst, r.fromSubject).1)
      else old(base.head.View()))
    ensures Views(r.body) ==
      (if BindsTail(insType) then BindTail(old(Views(base.body)), g.names[p.EndNode()], p.EndNode())
      else old(Views(base.body)))
    ensures r.headRules == {} && r.tailRules == {} && r.bothRules == {}
  {
    r := CopyAsInstantiated(base, insType);
    var endNode := p.EndNode();
    BindConstants(r,
      if BindsHead(insType) then Some(HeadConstant(inst, r.fromSubject)) else None,
      if BindsTail(insType) then Some((g.names[endNode], endNode)) else None);
  }
}
