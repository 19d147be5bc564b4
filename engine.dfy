// The engine's bookkeeping around learning and evaluation: how the test facts
// become queries (the GPFL, Minerva and TransE protocols), how the
// anchorings are ranked for instantiation, which learned rules survive the
// final filter, when the path samplers stop, how the instances are split
// into train and test, and how each query's hit@N is weighted.
module Engine {
  import opened Common
  import opened Settings
  import opened Pairs
  import opened Rules
  import opened GenOps
  import Ranking
  import Evaluation
  import IO

  // ---------------------------------------------------------------------
  // Queries: createGPFLQueries, createMinervaQueries, createTransEProtocol
  // ---------------------------------------------------------------------

  /** Which constant of a fact a query asks about: its subject (option 0, a
    * head query) or its object (option 1). */
  datatype Side = Subject | Object

  function Constant(p: Pair, side: Side): int { if side == Subject then p.sub else p.obj }

  /** The constants of the pairs of `s` on one side. */
  function Constants(s: set<Pair>, side: Side): set<int>
  {
    set p | p in s :: Constant(p, side)
  }

  /** The pairs of `s` whose constant on `side` is `k`. */
  function WithConstant(s: set<Pair>, side: Side, k: int): set<Pair>
  {
    set p | p in s && Constant(p, side) == k
  }

  /** The query buckets of one side: one query per constant of a test fact
    * that some candidate shares, holding the candidates that share it. */
  function Buckets(test: set<Pair>, candidates: set<Pair>, side: Side): (m: map<int, set<Pair>>)
    ensures m.Keys == Constants(test, side) * Constants(candidates, side)
  {
    map k | k in Constants(test, side) * Constants(candidates, side) :: WithConstant(candidates, side, k)
  }

  /** The buckets split the candidates that answer a test constant: each
    * such candidate lies in exactly the bucket of its constant, every
    * bucket is non-empty, and nothing else is bucketed. */
  lemma BucketsPartition(test: set<Pair>, candidates: set<Pair>, side: Side)
    ensures var m := Buckets(test, candidates, side);
      (forall k :: k in m ==> m[k] != {} && exists t :: t in test && Constant(t, side) == k) &&
      (forall k, p :: k in m && p in m[k] ==> p in candidates && Constant(p, side) == k) &&
      (forall p, t :: p in candidates && t in test && Constant(t, side) == Constant(p, side) ==>
         Constant(p, side) in m && p in m[Constant(p, side)])
  {
    var m := Buckets(test, candidates, side);
    forall k | k in m ensures m[k] != {} && exists t :: t in test && Constant(t, side) == k {
      var p :| p in candidates && Constant(p, side) == k;
      assert p in m[k];
    }
    forall p, t | p in candidates && t in test && Constant(t, side) == Constant(p, side)
      ensures Constant(p, side) in m && p in m[Constant(p, side)]
    {
      assert Constant(p, side) in Constants(test, side);
      assert Constant(p, side) in Constants(candidates, side);
    }
  }

  /** The elements a loop over `xs` has visited before position `i`. */
  function Seen<T>(xs: seq<T>, i: nat): set<T>
    requires i <= |xs|
  {
    set j | 0 <= j < i :: xs[j]
  }

  lemma SeenStep<T>(xs: seq<T>, i: nat)
    requires i < |xs| && Distinct(xs)
    ensures Seen(xs, i + 1) == Seen(xs, i) + {xs[i]} && xs[i] !in Seen(xs, i)
  {
    assert Seen(xs, i + 1) == Seen(xs, i) + {xs[i]} by {
      forall x | x in Seen(xs, i + 1) ensures x in Seen(xs, i) + {xs[i]} {
        var j :| 0 <= j < i + 1 && xs[j] == x;
      }
    }
  }

  /** One more pair adds itself to the pairs that share its constant. */
  lemma WithConstantAdd(s: set<Pair>, x: Pair, side: Side, k: int)
    requires x !in s
    ensures WithConstant(s + {x}, side, k) == WithConstant(s, side, k) + (if Constant(x, side) == k then {x} else {})
    ensures |WithConstant(s + {x}, side, k)| == |WithConstant(s, side, k)| + (if Constant(x, side) == k then 1 else 0)
  {
    assert WithConstant(s + {x}, side, k) == WithConstant(s, side, k) + (if Constant(x, side) == k then {x} else {});
  }

  /** The bucket maps after the loop has visited one more candidate. */
  lemma BucketsAdd(test: set<Pair>, s: set<Pair>, x: Pair, side: Side)
    requires x !in s
    ensures var c, b := Constant(x, side), Buckets(test, s, side);
      Buckets(test, s + {x}, side) ==
        if c in Constants(test, side) then b[c := if c in b then b[c] + {x} else {x}] else b
  {
    if Constant(x, side) in Constants(test, side) {
      BucketsAddHit(test, s, x, side);
    } else {
      BucketsAddMiss(test, s, x, side);
    }
  }

  lemma BucketsAddHit(test: set<Pair>, s: set<Pair>, x: Pair, side: Side)
    requires x !in s && Constant(x, side) in Constants(test, side)
    ensures var c, b := Constant(x, side), Buckets(test, s, side);
      Buckets(test, s + {x}, side) == b[c := if c in b then b[c] + {x} else {x}]
  {
    var c, b, b2 := Constant(x, side), Buckets(test, s, side), Buckets(test, s + {x}, side);
    var b3 := b[c := if c in b then b[c] + {x} else {x}];
    assert Constants(s + {x}, side) == Constants(s, side) + {c};
    assert b2.Keys == b3.Keys;
    forall k | k in b2 ensures b2[k] == b3[k] {
      WithConstantAdd(s, x, side, k);
      if k != c {
        assert k in b;
      } else if c !in b {
        assert WithConstant(s, side, c) == {};
      }
    }
  }

  lemma BucketsAddMiss(test: set<Pair>, s: set<Pair>, x: Pair, side: Side)
    requires x !in s && Constant(x, side) !in Constants(test, side)
    ensures Buckets(test, s + {x}, side) == Buckets(test, s, side)
  {
    var c, b, b2 := Constant(x, side), Buckets(test, s, side), Buckets(test, s + {x}, side);
    assert Constants(s + {x}, side) == Constants(s, side) + {c};
    assert b2.Keys == b.Keys;
    forall k | k in b2 ensures b2[k] == b[k] {
      WithConstantAdd(s, x, side, k);
    }
  }

  /** The subjects and the objects of the test facts (the forEach over the
    * test set). */
  method TestConstants(test: set<Pair>) returns (subs: set<int>, objs: set<int>)
    ensures subs == Constants(test, Subject) && objs == Constants(test, Object)
  {
    var listing := Enumerate(test);
    subs, objs := {}, {};
    var i := 0;
    while i < |listing|
      invariant 0 <= i <= |listing|
      invariant subs == Constants(Seen(listing, i), Subject)
      invariant objs == Constants(Seen(listing, i), Object)
    {
      SeenStep(listing, i);
      subs := subs + {listing[i].sub};
      objs := objs + {listing[i].obj};
      i := i + 1;
    }
  }

  /** createGPFLQueries and createMinervaQueries, whose bodies are the same:
    * the subject queries and the object queries of the test facts, each
    * holding the candidates that share its constant. */
  method CreateQueries(test: set<Pair>, candidates: set<Pair>) returns (subMap: map<int, set<Pair>>, objMap: map<int, set<Pair>>)
    ensures subMap == Buckets(test, candidates, Subject)
    ensures objMap == Buckets(test, candidates, Object)
  {
    var subs, objs := TestConstants(test);
    var listing := Enumerate(candidates);
    subMap, objMap := map[], map[];
    var i := 0;
    while i < |listing|
      invariant 0 <= i <= |listing|
      invariant subMap == Buckets(test, Seen(listing, i), Subject)
      invariant objMap == Buckets(test, Seen(listing, i), Object)
    {
      var pair := listing[i];
      SeenStep(listing, i);
      BucketsAdd(test, Seen(listing, i), pair, Subject);
      BucketsAdd(test, Seen(listing, i), pair, Object);
      if pair.sub in subs {
        subMap := subMap[pair.sub := if pair.sub in subMap then subMap[pair.sub] + {pair} else {pair}];
      }
      if pair.obj in objs {
        objMap := objMap[pair.obj := if pair.obj in objMap then objMap[pair.obj] + {pair} else {pair}];
      }
      i := i + 1;
    }
  }

  /** A frequency table after counting the facts of `s` on one side into
    * it: each constant's entry grows by the number of facts with that
    * constant. */
  function AddCounts(m: map<int, nat>, s: set<Pair>, side: Side): (r: map<int, nat>)
  {
    map k | k in m.Keys + Constants(s, side) :: CountAt(m, s, side, k)
  }

  /** A constant's entry after counting `s` into `m`. */
  function CountAt(m: map<int, nat>, s: set<Pair>, side: Side, k: int): nat
  {
    (if k in m then m[k] else 0) + |WithConstant(s, side, k)|
  }

  /** A frequency table with one more occurrence of `k`. */
  function Bump(m: map<int, nat>, k: int): map<int, nat>
  {
    m[k := if k in m then m[k] + 1 else 1]
  }

  /** The table after a loop has counted each listed fact in turn. */
  function CountListed(m: map<int, nat>, xs: seq<Pair>, side: Side): map<int, nat>
  {
    if xs == [] then m else Bump(CountListed(m, xs[..|xs| - 1], side), Constant(xs[|xs| - 1], side))
  }

  /** Counting one more fact adds one to its constant's entry. */
  lemma AddCountsStep(m: map<int, nat>, s: set<Pair>, x: Pair, side: Side)
    requires x !in s
    ensures AddCounts(m, s + {x}, side) == Bump(AddCounts(m, s, side), Constant(x, side))
  {
    var r, c, r2 := AddCounts(m, s, side), Constant(x, side), AddCounts(m, s + {x}, side);
    var r3 := Bump(r, c);
    assert Constants(s + {x}, side) == Constants(s, side) + {c};
    assert r2.Keys == r3.Keys;
    forall k | k in r2 ensures r2[k] == r3[k] {
      CountAtAdd(m, s, x, side, k);
      if k != c {
        assert k in r;
      }
    }
  }

  lemma CountAtAdd(m: map<int, nat>, s: set<Pair>, x: Pair, side: Side, k: int)
    requires x !in s
    ensures CountAt(m, s + {x}, side, k) == CountAt(m, s, side, k) + (if Constant(x, side) == k then 1 else 0)
    ensures k !in m && k !in Constants(s, side) ==> CountAt(m, s, side, k) == 0
  {
    WithConstantAdd(s, x, side, k);
    if k !in Constants(s, side) {
      assert WithConstant(s, side, k) == {};
    }
  }

  /** Counting the facts of a listing one by one counts the set it lists. */
  lemma {:induction false} CountListedAll(m: map<int, nat>, xs: seq<Pair>, side: Side)
    requires Distinct(xs)
    ensures CountListed(m, xs, side) == AddCounts(m, Seen(xs, |xs|), side)
    decreases |xs|
  {
    if xs == [] {
      assert AddCounts(m, {}, side) == m;
    } else {
      var n := |xs| - 1;
      var front := xs[..n];
      assert Distinct(front);
      CountListedAll(m, front, side);
      assert Seen(front, n) == Seen(xs, n);
      SeenStep(xs, n);
      AddCountsStep(m, Seen(xs, n), xs[n], side);
    }
  }

  /** Counted into empty tables, a constant's entry is its number of test
    * facts, and only the constants of test facts have one. */
  lemma CountsFromEmpty(s: set<Pair>, side: Side)
    ensures AddCounts(map[], s, side).Keys == Constants(s, side)
    ensures forall k :: k in Constants(s, side) ==> AddCounts(map[], s, side)[k] == |WithConstant(s, side, k)| >= 1
  {
    forall k | k in Constants(s, side) ensures |WithConstant(s, side, k)| >= 1 {
      var p :| p in s && Constant(p, side) == k;
      assert p in WithConstant(s, side, k);
    }
  }

  /** The TransE protocol's extra bookkeeping: each test fact adds one to
    * the query frequency of its subject and of its object, on top of what
    * earlier runs counted. */
  method CountQueryFrequencies(t: Tables, test: set<Pair>)
    modifies t
    ensures t.subQueryFrequency == AddCounts(old(t.subQueryFrequency), test, Subject)
    ensures t.objQueryFrequency == AddCounts(old(t.objQueryFrequency), test, Object)
    ensures t.ruleFrequency == old(t.ruleFrequency) && t.ruleKeys == old(t.ruleKeys)
    ensures t.deHierarchy == old(t.deHierarchy) && t.ruleToAnchorings == old(t.ruleToAnchorings)
    ensures t.ruleCounter == old(t.ruleCounter)
  {
    var listing := Enumerate(test);
    ghost var sub0, obj0 := t.subQueryFrequency, t.objQueryFrequency;
    var i := 0;
    while i < |listing|
      invariant 0 <= i <= |listing|
      invariant t.subQueryFrequency == CountListed(sub0, listing[..i], Subject)
      invariant t.objQueryFrequency == CountListed(obj0, listing[..i], Object)
      invariant t.ruleFrequency == old(t.ruleFrequency) && t.ruleKeys == old(t.ruleKeys)
      invariant t.deHierarchy == old(t.deHierarchy) && t.ruleToAnchorings == old(t.ruleToAnchorings)
      invariant t.ruleCounter == old(t.ruleCounter)
    {
      var pair := listing[i];
      assert listing[..i + 1][..i] == listing[..i];
      t.subQueryFrequency := Bump(t.subQueryFrequency, pair.sub);
      t.objQueryFrequency := Bump(t.objQueryFrequency, pair.obj);
      i := i + 1;
    }
    assert listing[..i] == listing;
    CountListedAll(sub0, listing, Subject);
    CountListedAll(obj0, listing, Object);
  }

  /** createTransEProtocol: the same queries, after counting the query
    * frequencies. */
  method CreateTransEQueries(t: Tables, test: set<Pair>, candidates: set<Pair>)
    returns (subMap: map<int, set<Pair>>, objMap: map<int, set<Pair>>)
    modifies t
    ensures subMap == Buckets(test, candidates, Subject)
    ensures objMap == Buckets(test, candidates, Object)
    ensures t.subQueryFrequency == AddCounts(old(t.subQueryFrequency), test, Subject)
    ensures t.objQueryFrequency == AddCounts(old(t.objQueryFrequency), test, Object)
    ensures t.ruleFrequency == old(t.ruleFrequency) && t.ruleKeys == old(t.ruleKeys)
    ensures t.deHierarchy == old(t.deHierarchy) && t.ruleToAnchorings == old(t.ruleToAnchorings)
    ensures t.ruleCounter == old(t.ruleCounter)
  {
    CountQueryFrequencies(t, test);
    subMap, objMap := CreateQueries(test, candidates);
  }

  /** The number of listed facts whose constant on `side` is `k`. */
  function CountIn(xs: seq<Pair>, side: Side, k: int): nat
  {
    if xs == [] then 0 else CountIn(xs[..|xs| - 1], side, k) + (if Constant(xs[|xs| - 1], side) == k then 1 else 0)
  }

  /** Over a listing without repeats the count is the size of the set of
    * matching facts. */
  lemma {:induction false} CountInAll(xs: seq<Pair>, side: Side, k: int)
    requires Distinct(xs)
    ensures CountIn(xs, side, k) == |WithConstant(Seen(xs, |xs|), side, k)|
    decreases |xs|
  {
    if xs == [] {
      assert WithConstant({}, side, k) == {};
    } else {
      var n := |xs| - 1;
      var front := xs[..n];
      assert Distinct(front);
      CountInAll(front, side, k);
      assert Seen(front, n) == Seen(xs, n);
      SeenStep(xs, n);
      WithConstantAdd(Seen(xs, n), xs[n], side, k);
    }
  }

  /** totalPositiveIns: the number of test facts whose constant on the
    * query's side is the query's constant. */
  method PositiveCount(test: set<Pair>, name: int, side: Side) returns (n: nat)
    ensures n == |WithConstant(test, side, name)|
  {
    var listing := Enumerate(test);
    n := 0;
    var i := 0;
    while i < |listing|
      invariant 0 <= i <= |listing|
      invariant n == CountIn(listing[..i], side, name)
    {
      assert listing[..i + 1][..i] == listing[..i];
      if name == Constant(listing[i], side) {
        n := n + 1;
      }
      i := i + 1;
    }
    assert listing[..i] == listing;
    CountInAll(listing, side, name);
  }

  // ---------------------------------------------------------------------
  // rankAnchorings
  // ---------------------------------------------------------------------

  /** The side of a fact that anchors an instantiated rule: the object for
    * rules from the subject, the subject otherwise. */
  function AnchorSide(fromSubject: bool): Side { if fromSubject then Object else Subject }

  /** The counters after a loop over the listed facts: a constant met for the
    * first time gets a fresh counter at 0, and each later meeting ticks it. */
  function TickListed(xs: seq<Pair>, side: Side): map<int, int>
  {
    if xs == [] then map[]
    else
      var m, c := TickListed(xs[..|xs| - 1], side), Constant(xs[|xs| - 1], side);
      m[c := if c in m then m[c] + 1 else 0]
  }

  /** Each counter ends one below the count of its constant. */
  lemma {:induction false} TicksBelowCounts(xs: seq<Pair>, side: Side)
    ensures TickListed(xs, side).Keys == CountListed(map[], xs, side).Keys
    ensures forall k :: k in TickListed(xs, side) ==> TickListed(xs, side)[k] + 1 == CountListed(map[], xs, side)[k]
    decreases |xs|
  {
    if xs != [] {
      TicksBelowCounts(xs[..|xs| - 1], side);
    }
  }

  /** rankAnchorings: every anchoring value of the ground truth once, in
    * non-increasing order of the number of ground-truth facts it anchors;
    * the stable sort keeps the key set's order among equal counts. */
  method RankAnchorings(groundTruth: set<Pair>, fromSubject: bool) returns (r: seq<int>)
    ensures Enumerates(r, Constants(groundTruth, AnchorSide(fromSubject)))
    ensures forall i, j :: 0 <= i < j < |r| ==>
      |WithConstant(groundTruth, AnchorSide(fromSubject), r[i])| >= |WithConstant(groundTruth, AnchorSide(fromSubject), r[j])|
  {
    var side := AnchorSide(fromSubject);
    var listing := Enumerate(groundTruth);
    var valueCounts: map<int, int> := map[];
    var i := 0;
    while i < |listing|
      invariant 0 <= i <= |listing|
      invariant valueCounts == TickListed(listing[..i], side)
    {
      assert listing[..i + 1][..i] == listing[..i];
      var anchoring := Constant(listing[i], side);
      if anchoring in valueCounts {
        valueCounts := valueCounts[anchoring := valueCounts[anchoring] + 1];
      } else {
        valueCounts := valueCounts[anchoring := 0];
      }
      i := i + 1;
    }
    assert listing[..i] == listing;
    var keys := Enumerate(valueCounts.Keys);
    var key := (v: int) => if v in valueCounts then valueCounts[v] as real else 0.0;
    r := SortBy(keys, ByKeyDesc(key));
    SortByKeyDesc(keys, key);
    EnumeratesPermutation(keys, r, valueCounts.Keys);
    TicksAreOccurrences(listing, groundTruth, side);
    EnumeratesMembers(r, valueCounts.Keys);
    forall a, b | 0 <= a < b < |r|
      ensures |WithConstant(groundTruth, side, r[a])| >= |WithConstant(groundTruth, side, r[b])|
    {
      assert key(r[a]) >= key(r[b]);
      assert r[a] in valueCounts && r[b] in valueCounts;
    }
  }

  /** The counters of a loop over a listing of the ground truth. */
  lemma TicksAreOccurrences(xs: seq<Pair>, gt: set<Pair>, side: Side)
    requires Enumerates(xs, gt)
    ensures TickListed(xs, side).Keys == Constants(gt, side)
    ensures forall k :: k in TickListed(xs, side) ==> TickListed(xs, side)[k] + 1 == |WithConstant(gt, side, k)|
  {
    TicksBelowCounts(xs, side);
    CountListedAll(map[], xs, side);
    assert Seen(xs, |xs|) == gt;
    CountsFromEmpty(gt, side);
  }

  // ---------------------------------------------------------------------
  // basicFilter
  // ---------------------------------------------------------------------

  /** The refinement test of basicFilter: support and confidence both
    * strictly above the thresholds (the qualification test of the children
    * compares with >=). */
  predicate Refines(r: Rule)
    reads r.stats
  {
    r.stats.support > Support && r.stats.sc > StandardConf
  }

  /** Every refined rule passes the children's qualification test, and a
    * rule whose support sits exactly at the threshold passes that test but
    * is not refined. */
  lemma RefinesIsStricter(r: Rule)
    ensures Refines(r) ==> Evaluation.Qualified(r)
    ensures r.stats.support == Support && r.stats.sc >= StandardConf ==> Evaluation.Qualified(r) && !Refines(r)
  {
  }

  /** basicFilter: returns the refined abstract rules and writes the rule
    * file with the refined closed rules and all instantiated rules, highest
    * sc first; `show` renders a number. */
  method BasicFilter(abstractRules: set<Rule>, instantiatedRules: set<Rule>, show: real -> string)
    returns (refined: set<Rule>, lines: seq<string>, ghost written: seq<Rule>)
    ensures forall r :: r in refined <==> r in abstractRules && Refines(r)
    ensures forall r :: r in written <==> r in instantiatedRules || (r in refined && r.closed)
    ensures Distinct(written) && forall i, j :: 0 <= i < j < |written| ==> written[i].stats.sc >= written[j].stats.sc
    ensures lines == IO.RuleLines(written, show)
  {
    refined := set r | r in abstractRules && Refines(r);
    var allRules := (set r | r in refined && r.closed) + instantiatedRules;
    lines, written := IO.WriteRules(allRules, show);
    EnumeratesMembers(written, allRules);
  }

  // ---------------------------------------------------------------------
  // The path samplers' batch bookkeeping
  // ---------------------------------------------------------------------

  /** The rules one sampled path adds to the current batch, by rendering:
    * the abstract rule mined from it and the instantiated rules built from
    * it (none for a closed abstract rule). */
  datatype PathRules = PathRules(abstractRule: string, instantiated: set<string>)

  function Contributed(p: PathRules): set<string> { {p.abstractRule} + p.instantiated }

  /** The rules of a sequence of traversals, each a sequence of paths. */
  function AllContributed(ts: seq<seq<PathRules>>): set<string>
  {
    if ts == [] then {} else AllContributed(ts[..|ts| - 1]) + PathsContributed(ts[|ts| - 1])
  }

  function PathsContributed(ps: seq<PathRules>): set<string>
  {
    if ps == [] then {} else PathsContributed(ps[..|ps| - 1]) + Contributed(ps[|ps| - 1])
  }

  /** The abstract rules of a sequence of traversals. */
  function AllAbstract(ts: seq<seq<PathRules>>): set<string>
  {
    if ts == [] then {} else AllAbstract(ts[..|ts| - 1]) + PathsAbstract(ts[|ts| - 1])
  }

  function PathsAbstract(ps: seq<PathRules>): set<string>
  {
    if ps == [] then {} else PathsAbstract(ps[..|ps| - 1]) + {ps[|ps| - 1].abstractRule}
  }

  /** The saturation of a batch: the share of its rules already met in
    * earlier batches. */
  function Overlap(current: set<string>, previous: set<string>): (r: real)
    requires current != {}
  {
    |current * previous| as real / |current| as real
  }

  /** A saturation is a fraction; it is 1 exactly when the batch brought
    * nothing new and 0 exactly when everything in it was new. */
  lemma OverlapBounds(current: set<string>, previous: set<string>)
    requires current != {}
    ensures 0.0 <= Overlap(current, previous) <= 1.0
    ensures Overlap(current, previous) == 1.0 <==> current <= previous
    ensures Overlap(current, previous) == 0.0 <==> current * previous == {}
  {
    var both := current * previous;
    SubsetSize(both, current);
    Fraction(|both| as real, |current| as real);
    assert current <= previous <==> both == current;
    if both != {} {
      var x :| x in both;
      assert |both| >= 1;
    }
  }

  /** A share of a positive whole is a fraction, the whole share exactly
    * when the part is the whole. */
  lemma Fraction(a: real, c: real)
    requires 0.0 <= a <= c && c > 0.0
    ensures 0.0 <= a / c <= 1.0 && (a / c == 1.0 <==> a == c) && (a / c == 0.0 <==> a == 0.0)
  {
    var r := a / c;
    assert r * c == a;
  }

  /** A subset is no larger, and a subset as large is the whole set. */
  lemma {:induction false} SubsetSize<T>(a: set<T>, b: set<T>)
    requires a <= b
    ensures |a| <= |b| && (|a| == |b| ==> a == b)
    decreases |b|
  {
    if b != {} {
      var x :| x in b;
      assert |b| == |b - {x}| + 1;
      SubsetSize(a - {x}, b - {x});
      if x in a {
        assert |a| == |a - {x}| + 1;
        assert a == (a - {x}) + {x};
        assert b == (b - {x}) + {x};
      } else {
        assert a == a - {x};
      }
    }
  }

  /** A batch ends only after at least one path. */
  lemma BatchNotEmpty(pathCount: nat)
    requires (pathCount + 1) % BatchSize == 0
    ensures pathCount > 0
  {
  }

  /** The state of a path sampler: the rules of the finished batches, those
    * of the batch under way, the last saturation, the paths met so far and
    * the depth (used by the progressive sampler). */
  class Sampler {
    var previous: set<string>
    var current: set<string>
    var saturation: real
    var pathCount: nat
    var depth: nat

    /** The running batch is never empty once a path was met, so no batch
      * ends with a division by zero; the saturation is a fraction. */
    ghost predicate Valid()
      reads this
    {
      0.0 <= saturation <= 1.0 && (pathCount > 0 ==> current != {})
    }

    /** The sampler at the start of a run: no batches, saturation 0 and
      * depth 1. */
    constructor()
      ensures Valid()
      ensures previous == {} && current == {} && saturation == 0.0 && pathCount == 0 && depth == 1
    {
      previous, current, saturation, pathCount, depth := {}, {}, 0.0, 0, 1;
    }

    /** One path of regularPathSampler: every BATCH_SIZE paths the batch
      * under way is scored against the finished ones and joins them; then
      * the path's rules join the batch under way. */
    method RegularStep(p: PathRules)
      requires Valid()
      modifies this
      ensures Valid()
      ensures pathCount == old(pathCount) + 1 && depth == old(depth)
      ensures pathCount % BatchSize == 0 ==>
        saturation == Overlap(old(current), old(previous)) && previous == old(previous) + old(current) &&
        current == Contributed(p)
      ensures pathCount % BatchSize != 0 ==>
        saturation == old(saturation) && previous == old(previous) && current == old(current) + Contributed(p)
      ensures previous + current == old(previous) + old(current) + Contributed(p)
    {
      var n, prev, cur := pathCount + 1, previous, current;
      if n % BatchSize == 0 {
        BatchNotEmpty(pathCount);
        OverlapBounds(cur, prev);
        saturation := Overlap(cur, prev);
        prev, cur := prev + cur, {};
      }
      pathCount, previous, current := n, prev, cur + Contributed(p);
    }

    /** One path of progressivePathSampler: at the end of a batch the
      * saturation is computed only when there are finished batches, and a
      * saturation above SATURATION deepens the search by one. */
    method ProgressiveStep(p: PathRules)
      requires Valid()
      modifies this
      ensures Valid()
      ensures pathCount == old(pathCount) + 1
      ensures pathCount % BatchSize == 0 ==>
        previous == old(previous) + old(current) && current == Contributed(p) &&
        (old(previous) != {} ==> saturation == Overlap(old(current), old(previous))) &&
        (old(previous) == {} ==> saturation == old(saturation)) &&
        depth == (if old(previous) != {} && saturation > Saturation then old(depth) + 1 else old(depth))
      ensures pathCount % BatchSize != 0 ==>
        saturation == old(saturation) && depth == old(depth) &&
        previous == old(previous) && current == old(current) + Contributed(p)
      ensures previous + current == old(previous) + old(current) + Contributed(p)
    {
      var n, prev, cur := pathCount + 1, previous, current;
      if n % BatchSize == 0 {
        if prev != {} {
          BatchNotEmpty(pathCount);
          OverlapBounds(cur, prev);
          saturation := Overlap(cur, prev);
          if saturation > Saturation {
            depth := depth + 1;
          }
        }
        prev, cur := prev + cur, {};
      }
      pathCount, previous, current := n, prev, cur + Contributed(p);
    }

    /** The paths of one traversal, in order. */
    method RegularTraversal(ps: seq<PathRules>)
      requires Valid()
      modifies this
      ensures Valid() && depth == old(depth) && pathCount == old(pathCount) + |ps|
      ensures previous + current == old(previous) + old(current) + PathsContributed(ps)
    {
      var i := 0;
      while i < |ps|
        invariant 0 <= i <= |ps| && Valid() && depth == old(depth) && pathCount == old(pathCount) + i
        invariant previous + current == old(previous) + old(current) + PathsContributed(ps[..i])
      {
        assert ps[..i + 1][..i] == ps[..i];
        RegularStep(ps[i]);
        i := i + 1;
      }
      assert ps[..i] == ps;
    }

    /** regularPathSampler's do-while loop over the traversals from randomly
      * picked instances (given here in the order they are drawn): at least
      * one traversal, then more while the saturation stays below
      * SATURATION; `used` traversals are consumed. */
    method RegularSample(traversals: seq<seq<PathRules>>) returns (used: nat)
      requires Valid()
      modifies this
      ensures Valid()
      ensures used <= |traversals| && (traversals != [] ==> used >= 1)
      ensures used < |traversals| ==> saturation >= Saturation
      ensures previous + current == old(previous) + old(current) + AllContributed(traversals[..used])
    {
      used := 0;
      while used < |traversals| && (used == 0 || saturation < Saturation)
        invariant 0 <= used <= |traversals| && Valid()
        invariant traversals != [] ==> used >= 1 || saturation == old(saturation)
        invariant previous + current == old(previous) + old(current) + AllContributed(traversals[..used])
      {
        assert traversals[..used + 1][..used] == traversals[..used];
        RegularTraversal(traversals[used]);
        used := used + 1;
      }
    }

    /** The paths of one traversal of the progressive sampler. */
    method ProgressiveTraversal(ps: seq<PathRules>)
      requires Valid()
      modifies this
      ensures Valid() && depth >= old(depth) && pathCount == old(pathCount) + |ps|
      ensures previous + current == old(previous) + old(current) + PathsContributed(ps)
    {
      var i := 0;
      while i < |ps|
        invariant 0 <= i <= |ps| && Valid() && depth >= old(depth) && pathCount == old(pathCount) + i
        invariant previous + current == old(previous) + old(current) + PathsContributed(ps[..i])
      {
        assert ps[..i + 1][..i] == ps[..i];
        ProgressiveStep(ps[i]);
        i := i + 1;
      }
      assert ps[..i] == ps;
    }

    /** progressivePathSampler's do-while loop: traversals are consumed while
      * the depth stays within DEPTH; the result is the set of abstract
      * rules met. */
    method ProgressiveSample(traversals: seq<seq<PathRules>>) returns (used: nat, abstractRules: set<string>)
      requires Valid()
      modifies this
      ensures Valid() && depth >= old(depth)
      ensures used <= |traversals| && (traversals != [] ==> used >= 1)
      ensures used < |traversals| ==> depth > Depth
      ensures abstractRules == AllAbstract(traversals[..used])
      ensures previous + current == old(previous) + old(current) + AllContributed(traversals[..used])
    {
      used := 0;
      abstractRules := {};
      while used < |traversals| && (used == 0 || depth <= Depth)
        invariant 0 <= used <= |traversals| && Valid() && depth >= old(depth)
        invariant traversals != [] ==> used >= 1 || depth == old(depth)
        invariant abstractRules == AllAbstract(traversals[..used])
        invariant previous + current == old(previous) + old(current) + AllContributed(traversals[..used])
      {
        assert traversals[..used + 1][..used] == traversals[..used];
        ProgressiveTraversal(traversals[used]);
        abstractRules := abstractRules + PathsAbstract(traversals[used]);
        used := used + 1;
      }
    }
  }

  // ---------------------------------------------------------------------
  // createTrainTestInstances
  // ---------------------------------------------------------------------

  /** The size of the train set: the number of instances times SPLIT_RATIO,
    * rounded down by the cast to int. */
  function TrainSize(n: nat): (t: nat)
    ensures t <= n && (n > 0 ==> t < n)
    ensures t as real <= n as real * SplitRatio < t as real + 1.0
  {
    (n as real * SplitRatio).Floor
  }

  /** The split of the shuffled target instances: the train set is the
    * first TrainSize of them and the test set the rest, so together they
    * are all the instances, in order, and the test set is never empty when
    * there is an instance. */
  function Split<T>(instances: seq<T>): (r: (seq<T>, seq<T>))
    ensures r.0 + r.1 == instances
    ensures |r.0| == TrainSize(|instances|)
    ensures instances != [] ==> r.1 != []
  {
    var t := TrainSize(|instances|);
    (instances[..t], instances[t..])
  }

  // ---------------------------------------------------------------------
  // Ranker.getAvgHitsAtN
  // ---------------------------------------------------------------------

  /** How often a query's hit@N enters the average: its query frequency
    * under the TransE protocol, once under any other. */
  function RepeatOf(protocol: string, frequency: map<int, nat>, name: int): nat
    requires protocol == "TransE" ==> name in frequency
  {
    if protocol == "TransE" then frequency[name] else 1
  }

  /** The queries' hit@N values with their weights, in the order listed. */
  function Weighted(names: seq<int>, ranked: map<int, seq<Pair>>, positives: map<int, nat>, test: set<Pair>,
                    n: nat, protocol: string, frequency: map<int, nat>): (r: seq<(real, nat)>)
    requires forall k :: k in names ==> k in ranked && k in positives && (protocol == "TransE" ==> k in frequency)
    ensures |r| == |names|
  {
    if names == [] then []
    else
      var k := names[|names| - 1];
      Weighted(names[..|names| - 1], ranked, positives, test, n, protocol, frequency) +
        [(Ranking.HitAt(test, ranked[k], n, positives[k]), RepeatOf(protocol, frequency, k))]
  }

  /** Each value repeated as often as its weight says, in order. */
  function Repeated(ws: seq<(real, nat)>): seq<real>
  {
    if ws == [] then [] else Repeated(ws[..|ws| - 1]) + Copies(ws[|ws| - 1].0, ws[|ws| - 1].1)
  }

  /** `count` copies of `x`. */
  function Copies(x: real, count: nat): (r: seq<real>)
    ensures |r| == count && forall i :: 0 <= i < count ==> r[i] == x
  {
    if count == 0 then [] else Copies(x, count - 1) + [x]
  }

  function TotalWeight(ws: seq<(real, nat)>): nat
  {
    if ws == [] then 0 else TotalWeight(ws[..|ws| - 1]) + ws[|ws| - 1].1
  }

  /** The values summed with their weights: each value `count` times. */
  function WeightedSum(ws: seq<(real, nat)>): real
  {
    if ws == [] then 0.0 else WeightedSum(ws[..|ws| - 1]) + Times(ws[|ws| - 1].1, ws[|ws| - 1].0)
  }

  /** `count` times `x`, as repeated addition. */
  function Times(count: nat, x: real): real
  {
    if count == 0 then 0.0 else Times(count - 1, x) + x
  }

  lemma {:induction false} TimesIsProduct(count: nat, x: real)
    ensures Times(count, x) == count as real * x
  {
    if count > 0 {
      TimesIsProduct(count - 1, x);
      assert (count - 1) as real * x + x == count as real * x;
    }
  }

  function SumOf(xs: seq<real>): real
  {
    if xs == [] then 0.0 else SumOf(xs[..|xs| - 1]) + xs[|xs| - 1]
  }

  /** Appending a weighted value appends its copies. */
  lemma RepeatedSnoc(ws: seq<(real, nat)>, w: (real, nat))
    ensures Repeated(ws + [w]) == Repeated(ws) + Copies(w.0, w.1)
    ensures TotalWeight(ws + [w]) == TotalWeight(ws) + w.1
    ensures WeightedSum(ws + [w]) == WeightedSum(ws) + Times(w.1, w.0)
  {
    assert (ws + [w])[..|ws|] == ws;
  }

  /** The repeated list has one entry per unit of weight, and its sum is
    * the weighted sum of the values, so its mean is the weighted mean. */
  lemma {:induction false} RepeatedSum(ws: seq<(real, nat)>)
    ensures |Repeated(ws)| == TotalWeight(ws)
    ensures SumOf(Repeated(ws)) == WeightedSum(ws)
    decreases |ws|
  {
    if ws != [] {
      var front, w := ws[..|ws| - 1], ws[|ws| - 1];
      RepeatedSum(front);
      SumOfRun(Repeated(front), w.1, w.0);
    }
  }

  /** Appending `count` copies of `x` adds `count` times `x` to a sum. */
  lemma {:induction false} SumOfRun(xs: seq<real>, count: nat, x: real)
    ensures SumOf(xs + Copies(x, count)) == SumOf(xs) + Times(count, x)
    decreases count
  {
    if count == 0 {
      assert xs + Copies(x, count) == xs;
    } else {
      var shorter := xs + Copies(x, count - 1);
      assert xs + Copies(x, count) == shorter + [x];
      assert (shorter + [x])[..|shorter|] == shorter;
      SumOfRun(xs, count - 1, x);
    }
  }

  /** When every weight is 1 (any protocol but TransE) the list is the
    * values themselves. */
  lemma {:induction false} RepeatedOnce(ws: seq<(real, nat)>)
    requires forall i :: 0 <= i < |ws| ==> ws[i].1 == 1
    ensures Repeated(ws) == seq(|ws|, i requires 0 <= i < |ws| => ws[i].0)
    decreases |ws|
  {
    if ws != [] {
      var n := |ws| - 1;
      RepeatedOnce(ws[..n]);
      assert Copies(ws[n].0, ws[n].1) == [ws[n].0];
    }
  }

  /** getAvgHitsAtN before the mean: each query's hit@N, repeated by its
    * weight, over a listing of the ranked queries. */
  method HitsAtN(ranked: map<int, seq<Pair>>, positives: map<int, nat>, test: set<Pair>, n: nat,
                 protocol: string, frequency: map<int, nat>) returns (hits: seq<real>, ghost names: seq<int>)
    requires forall k :: k in ranked ==> k in positives && (protocol == "TransE" ==> k in frequency)
    ensures Enumerates(names, ranked.Keys)
    ensures hits == Repeated(Weighted(names, ranked, positives, test, n, protocol, frequency))
  {
    var entries := Enumerate(ranked.Keys);
    EnumeratesMembers(entries, ranked.Keys);
    hits := [];
    var k := 0;
    while k < |entries|
      invariant 0 <= k <= |entries|
      invariant hits == Repeated(Weighted(entries[..k], ranked, positives, test, n, protocol, frequency))
    {
      hits := HitsOfNext(entries, k, ranked, positives, test, n, protocol, frequency, hits);
      k := k + 1;
    }
    assert entries[..k] == entries;
    names := entries;
  }

  /** One pass of getAvgHitsAtN's outer loop: the next listed query's hit@N,
    * added as many times as its weight. */
  method HitsOfNext(entries: seq<int>, k: nat, ranked: map<int, seq<Pair>>, positives: map<int, nat>,
                    test: set<Pair>, n: nat, protocol: string, frequency: map<int, nat>, hits: seq<real>)
    returns (hits': seq<real>)
    requires k < |entries|
    requires forall k :: k in entries ==> k in ranked && k in positives && (protocol == "TransE" ==> k in frequency)
    requires hits == Repeated(Weighted(entries[..k], ranked, positives, test, n, protocol, frequency))
    ensures hits' == Repeated(Weighted(entries[..k + 1], ranked, positives, test, n, protocol, frequency))
  {
    var name := entries[k];
    var repeat := if protocol == "TransE" then frequency[name] else 1;
    var hit := Ranking.HitAt(test, ranked[name], n, positives[name]);
    WeightedStep(entries, k, ranked, positives, test, n, protocol, frequency);
    hits' := AppendCopies(hits, hit, repeat);
  }

  /** The inner loop of getAvgHitsAtN: one query's hit, added `repeat` times. */
  method AppendCopies(hits: seq<real>, hit: real, repeat: nat) returns (r: seq<real>)
    ensures r == hits + Copies(hit, repeat)
  {
    r := hits;
    var i := 0;
    while i < repeat
      invariant 0 <= i <= repeat
      invariant r == hits + Copies(hit, i)
    {
      r := r + [hit];
      i := i + 1;
    }
  }

  /** The weighted hits of one more listed query. */
  lemma WeightedStep(names: seq<int>, k: nat, ranked: map<int, seq<Pair>>, positives: map<int, nat>, test: set<Pair>,
                     n: nat, protocol: string, frequency: map<int, nat>)
    requires k < |names|
    requires forall k :: k in names ==> k in ranked && k in positives && (protocol == "TransE" ==> k in frequency)
    ensures var name := names[k];
      var w := (Ranking.HitAt(test, ranked[name], n, positives[name]), RepeatOf(protocol, frequency, name));
      Repeated(Weighted(names[..k + 1], ranked, positives, test, n, protocol, frequency)) ==
        Repeated(Weighted(names[..k], ranked, positives, test, n, protocol, frequency)) + Copies(w.0, w.1)
  {
    var name := names[k];
    var w := (Ranking.HitAt(test, ranked[name], n, positives[name]), RepeatOf(protocol, frequency, name));
    assert names[..k + 1][..k] == names[..k];
    var ws := Weighted(names[..k], ranked, positives, test, n, protocol, frequency);
    assert Weighted(names[..k + 1], ranked, positives, test, n, protocol, frequency) == ws + [w];
    RepeatedSnoc(ws, w);
  }
}
