// What the learner draws from the body groundings of an open abstract rule
// before it instantiates it: the ranked tails, the originals behind each
// tail and behind each anchoring, and the (anchoring, tail) pairs that share
// an original. A grounding is a (start, end) pair of node ids; the Java
// hash sets of groundings and ground-truth facts are given as sequences
// that list them once each (Common.Enumerates), in an order left open.
module Groundings {
  import opened Common
  import opened Pairs
  import opened Rules
  import opened Counting

  // ---------------------------------------------------------------------
  // Multimaps of node ids (Guava hash multimaps with hash-set values)
  // ---------------------------------------------------------------------

  /** Multimap.get: the values stored under `k`, empty when there are none. */
  function Get(m: map<int, set<int>>, k: int): set<int>
  {
    if k in m then m[k] else {}
  }

  /** Multimap.put. */
  function Put(m: map<int, set<int>>, k: int, v: int): (r: map<int, set<int>>)
    ensures r.Keys == m.Keys + {k}
    ensures forall x :: Get(r, x) == Get(m, x) + (if x == k then {v} else {})
  {
    m[k := Get(m, k) + {v}]
  }

  /** A multimap never keeps a key without values. */
  ghost predicate NoEmptyValues(m: map<int, set<int>>)
  {
    forall k :: k in m ==> m[k] != {}
  }

  // ---------------------------------------------------------------------
  // Tails and originals
  // ---------------------------------------------------------------------

  /** The tails (end nodes) of the groundings. */
  function Tails(groundings: seq<Pair>): set<int>
  {
    set i | 0 <= i < |groundings| :: groundings[i].obj
  }

  /** How many groundings end at `t`. */
  function TailCount(groundings: seq<Pair>, t: int): nat
  {
    if groundings == [] then 0
    else TailCount(groundings[..|groundings| - 1], t) + (if groundings[|groundings| - 1].obj == t then 1 else 0)
  }

  /** The tails of a listing of pairs are the objects of the listed pairs. */
  lemma TailsOfListing(groundings: seq<Pair>, pairs: set<Pair>)
    requires Enumerates(groundings, pairs)
    ensures forall t :: t in Tails(groundings) <==> exists o :: Pair(o, t) in pairs
  {
    EnumeratesMembers(groundings, pairs);
    forall t | t in Tails(groundings) ensures exists o :: Pair(o, t) in pairs {
      var i :| 0 <= i < |groundings| && groundings[i].obj == t;
      assert Pair(groundings[i].sub, t) == groundings[i];
    }
    forall t, o | Pair(o, t) in pairs ensures t in Tails(groundings) {
      var i :| 0 <= i < |groundings| && groundings[i] == Pair(o, t);
    }
  }

  lemma TailsSnoc(groundings: seq<Pair>, k: nat)
    requires k < |groundings|
    ensures Tails(groundings[..k + 1]) == Tails(groundings[..k]) + {groundings[k].obj}
    ensures forall t :: (TailCount(groundings[..k + 1], t) ==
      TailCount(groundings[..k], t) + (if groundings[k].obj == t then 1 else 0))
  {
    var a, b := groundings[..k], groundings[..k + 1];
    assert b[..k] == a;
    forall t | t in Tails(b) ensures t in Tails(a) + {groundings[k].obj} {
      var i :| 0 <= i < |b| && b[i].obj == t;
      if i < k { assert a[i].obj == t; }
    }
    forall t | t in Tails(a) ensures t in Tails(b) {
      var i :| 0 <= i < |a| && a[i].obj == t;
      assert b[i].obj == t;
    }
    assert groundings[k].obj == b[k].obj;
  }

  /** A ground never counts toward a tail it does not end at, and every tail
    * of the groundings is counted at least once. */
  lemma {:induction false} TailCountPositive(groundings: seq<Pair>, t: int)
    ensures TailCount(groundings, t) > 0 <==> t in Tails(groundings)
    decreases |groundings|
  {
    if groundings != [] {
      var n := |groundings| - 1;
      TailsSnoc(groundings, n);
      assert groundings[..n + 1] == groundings;
      TailCountPositive(groundings[..n], t);
    }
  }

  /** getRankedTails followed by the TAIL_CAP cut is done by the caller: the
    * tails counted in a frequency map, then its keys sorted by frequency,
    * most frequent first (a stable sort, the key set's own order among
    * ties). */
  method RankedTails(groundings: seq<Pair>) returns (tails: seq<int>)
    ensures Enumerates(tails, Tails(groundings))
    ensures forall i, j :: 0 <= i < j < |tails| ==>
      TailCount(groundings, tails[i]) >= TailCount(groundings, tails[j])
  {
    var frequency: map<int, nat> := map[];
    var k := 0;
    while k < |groundings|
      invariant 0 <= k <= |groundings|
      invariant frequency.Keys == Tails(groundings[..k])
      invariant forall t :: t in frequency ==> frequency[t] == TailCount(groundings[..k], t)
    {
      TailsSnoc(groundings, k);
      var t := groundings[k].obj;
      if t in frequency {
        frequency := frequency[t := frequency[t] + 1];
      } else {
        TailCountPositive(groundings[..k], t);
        frequency := frequency[t := 1];
      }
      k := k + 1;
    }
    assert groundings[..k] == groundings;
    var keys := Enumerate(frequency.Keys);
    var key := (t: int) => if t in frequency then frequency[t] as real else 0.0;
    SortByKeyDesc(keys, key);
    tails := SortBy(keys, ByKeyDesc(key));
    EnumeratesPermutation(keys, tails, frequency.Keys);
    forall i | 0 <= i < |tails| ensures key(tails[i]) == TailCount(groundings, tails[i]) as real {
      assert tails[i] in frequency.Keys;
    }
  }

  /** The tail-to-original multimap of a tail set is the relation "some
    * grounding goes from the original to the tail". */
  ghost predicate IsTailToOriginal(m: map<int, set<int>>, groundings: seq<Pair>)
  {
    NoEmptyValues(m) && forall t, o :: o in Get(m, t) <==> Pair(o, t) in groundings
  }

  /** getTailToOriginal: every grounding put under its tail. */
  method TailToOriginal(groundings: seq<Pair>) returns (m: map<int, set<int>>)
    ensures IsTailToOriginal(m, groundings)
  {
    m := map[];
    var k := 0;
    while k < |groundings|
      invariant 0 <= k <= |groundings|
      invariant NoEmptyValues(m)
      invariant forall t, o :: o in Get(m, t) <==> Pair(o, t) in groundings[..k]
    {
      assert groundings[..k + 1] == groundings[..k] + [groundings[k]];
      m := Put(m, groundings[k].obj, groundings[k].sub);
      k := k + 1;
    }
    assert groundings[..k] == groundings;
  }

  /** The anchoring-to-original multimap: `o` is stored under `a` exactly
    * when `a` is one of the anchorings and the head fact the body would
    * predict from `o` at `a` is a ground-truth fact. */
  ghost predicate IsAnchoringToOriginal(m: map<int, set<int>>, fromSubject: bool, gt: seq<Pair>, anchorings: seq<int>)
  {
    NoEmptyValues(m) &&
    forall a, o :: o in Get(m, a) <==> a in anchorings && Prediction(fromSubject, o, a) in gt
  }

  /** getAnchoringToOriginal: every ground-truth fact split into its
    * anchoring and its original, kept when the anchoring is listed. */
  method AnchoringToOriginal(fromSubject: bool, gt: seq<Pair>, anchorings: seq<int>) returns (m: map<int, set<int>>)
    ensures IsAnchoringToOriginal(m, fromSubject, gt, anchorings)
  {
    m := map[];
    var k := 0;
    while k < |gt|
      invariant 0 <= k <= |gt|
      invariant NoEmptyValues(m)
      invariant forall a, o :: o in Get(m, a) <==> a in anchorings && Prediction(fromSubject, o, a) in gt[..k]
    {
      assert gt[..k + 1] == gt[..k] + [gt[k]];
      var p := gt[k];
      var original := if fromSubject then p.sub else p.obj;
      var anchoring := if fromSubject then p.obj else p.sub;
      assert Prediction(fromSubject, original, anchoring) == p;
      if anchoring in anchorings {
        m := Put(m, anchoring, original);
      }
      k := k + 1;
    }
    assert gt[..k] == gt;
  }

  /** Every key of the tail-to-original map is a tail of the groundings. */
  lemma TailKeys(m: map<int, set<int>>, groundings: seq<Pair>)
    requires IsTailToOriginal(m, groundings)
    ensures forall t :: t in m ==> t in Tails(groundings)
  {
    forall t | t in m ensures t in Tails(groundings) {
      var o := Pick(m[t]);
      assert o in Get(m, t);
      var i :| 0 <= i < |groundings| && groundings[i] == Pair(o, t);
    }
  }

  /** Every key of the anchoring-to-original map is a listed anchoring. */
  lemma AnchoringKeys(m: map<int, set<int>>, fromSubject: bool, gt: seq<Pair>, anchorings: seq<int>)
    requires IsAnchoringToOriginal(m, fromSubject, gt, anchorings)
    ensures forall a :: a in m ==> a in anchorings
  {
    forall a | a in m ensures a in anchorings {
      var o := Pick(m[a]);
      assert o in Get(m, a);
    }
  }

  // ---------------------------------------------------------------------
  // Both-anchored instances
  // ---------------------------------------------------------------------

  /** The inner loop of createBothRuleInstances: the originals of a tail
    * searched for one the anchoring also has, stopping at the first. */
  method Shares(originals: set<int>, others: set<int>) returns (found: bool)
    ensures found <==> originals * others != {}
  {
    var xs := Enumerate(originals);
    found := false;
    var k := 0;
    while k < |xs|
      invariant 0 <= k <= |xs|
      invariant forall i :: 0 <= i < k ==> xs[i] !in others
    {
      if xs[k] in others {
        assert xs[k] in originals * others;
        found := true;
        break;
      }
      k := k + 1;
    }
    if !found {
      forall x | x in originals ensures x !in others {
        var i :| 0 <= i < |xs| && xs[i] == x;
      }
    }
  }

  /** (anchoring, tail) pairs whose tail and anchoring share an original. */
  ghost predicate IsBothInstances(r: set<Pair>, tailToOriginal: map<int, set<int>>, anchoringToOriginal: map<int, set<int>>)
  {
    forall p :: p in r <==>
      p.obj in tailToOriginal && p.sub in anchoringToOriginal &&
      tailToOriginal[p.obj] * anchoringToOriginal[p.sub] != {}
  }

  /** createBothRuleInstances over the two multimaps: every tail key
    * against every anchoring key. */
  method CreateBothRuleInstances(tailToOriginal: map<int, set<int>>, anchoringToOriginal: map<int, set<int>>)
    returns (instances: set<Pair>)
    ensures IsBothInstances(instances, tailToOriginal, anchoringToOriginal)
  {
    instances := {};
    var tails := Enumerate(tailToOriginal.Keys);
    var i := 0;
    while i < |tails|
      invariant 0 <= i <= |tails|
      invariant forall p :: p in instances <==>
        p.obj in tails[..i] && p.sub in anchoringToOriginal &&
        tailToOriginal[p.obj] * anchoringToOriginal[p.sub] != {}
    {
      var tail := tails[i];
      assert tail !in tails[..i];
      var anchors := Enumerate(anchoringToOriginal.Keys);
      var j := 0;
      while j < |anchors|
        invariant 0 <= j <= |anchors|
        invariant forall p :: p in instances <==>
          (p.obj in tails[..i] && p.sub in anchoringToOriginal &&
           tailToOriginal[p.obj] * anchoringToOriginal[p.sub] != {}) ||
          (p.obj == tail && p.sub in anchors[..j] &&
           tailToOriginal[tail] * anchoringToOriginal[p.sub] != {})
      {
        var anchor := anchors[j];
        assert anchors[..j + 1] == anchors[..j] + [anchor];
        var found := Shares(tailToOriginal[tail], anchoringToOriginal[anchor]);
        if found {
          instances := instances + {Pair(anchor, tail)};
        }
        j := j + 1;
      }
      assert forall a :: a in anchors <==> a in anchoringToOriginal;
      assert anchors[..j] == anchors;
      assert tails[..i + 1] == tails[..i] + [tail];
      i := i + 1;
    }
    assert tails[..i] == tails;
  }

  /** What the both-anchored instances mean: `(a, t)` is an instance exactly
    * when `a` is an anchoring and some grounding ends at `t` from an
    * original whose prediction at `a` is a ground-truth fact. */
  lemma BothInstancesMeaning(r: set<Pair>, tto: map<int, set<int>>, ato: map<int, set<int>>,
                             fromSubject: bool, groundings: seq<Pair>, gt: seq<Pair>, anchorings: seq<int>)
    requires IsTailToOriginal(tto, groundings)
    requires IsAnchoringToOriginal(ato, fromSubject, gt, anchorings)
    requires IsBothInstances(r, tto, ato)
    ensures forall a, t :: Pair(a, t) in r <==>
      a in anchorings && exists o :: Pair(o, t) in groundings && Prediction(fromSubject, o, a) in gt
  {
    forall a, t | Pair(a, t) in r
      ensures a in anchorings && exists o :: Pair(o, t) in groundings && Prediction(fromSubject, o, a) in gt
    {
      var p := Pair(a, t);
      assert p.obj in tto && p.sub in ato && tto[p.obj] * ato[p.sub] != {};
      var o := Pick(tto[t] * ato[a]);
      assert o in Get(tto, t) && o in Get(ato, a);
    }
    forall a, t, o | a in anchorings && Pair(o, t) in groundings && Prediction(fromSubject, o, a) in gt
      ensures Pair(a, t) in r
    {
      assert o in Get(tto, t) && o in Get(ato, a);
      assert o in tto[t] * ato[a];
    }
  }

  /** isTrivial: a both-anchored instance whose anchoring is its tail on a
    * one-atom body of the head's own predicate, R(e, Y) <- R(Y, e). */
  predicate IsTrivial(base: Rule, instance: Pair)
    ensures IsTrivial(base, instance) ==> IsSelfloop(instance)
    ensures |base.body| != 1 ==> !IsTrivial(base, instance)
  {
    instance.sub == instance.obj && |base.body| == 1 && base.head.pred == base.body[0].pred
  }
}
