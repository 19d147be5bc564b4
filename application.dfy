// AbstractRule.applyRule: how a learned abstract rule and its instantiated
// children suggest new facts for the test queries. The body groundings are
// taken under the application cap; a closed rule suggests its groundings
// (turned round when the body starts from the head object); an open rule
// hands them to the top TOP_INS_RULES children of each kind, ranked by sc,
// and each child suggests the facts it predicts from them. A suggestion is
// kept when it is no self-loop and no training fact; every kept suggestion
// of a child ticks the shared prediction counter, and no new work starts
// once that counter has passed SUGGESTION_CAP.
module Application {
  import opened Common
  import opened Settings
  import opened Graphs
  import opened Pairs
  import opened Rules
  import opened Counting
  import opened GenOps
  import Groundings
  import Instantiation
  import IO
  import GraphOps

  /** The result of applyRule: a hash multimap from suggested facts to the
    * rules that suggest them (hash-set values). */
  type Suggestions = map<Pair, set<Rule>>

  /** pairCheck: a suggestion is kept when it is no self-loop and not
    * already known from training. */
  predicate PairCheck(train: set<Pair>, p: Pair)
    ensures PairCheck(train, p) <==> Flip(p) != p && p !in train
  {
    !IsSelfloop(p) && p !in train
  }

  // ---------------------------------------------------------------------
  // Suggestions of one rule under the shared cap
  // ---------------------------------------------------------------------

  /** The candidates that pass pairCheck, in loop order. */
  function Passing(cands: seq<Pair>, train: set<Pair>): (r: seq<Pair>)
    ensures |r| <= |cands|
    ensures forall p :: p in r <==> p in cands && PairCheck(train, p)
  {
    if cands == [] then []
    else (if PairCheck(train, cands[0]) then [cands[0]] else []) + Passing(cands[1..], train)
  }

  /** The suggestions one of the apply loops puts when it visits `cands`
    * with the prediction counter at `count`: each candidate that passes
    * pairCheck is put and ticks the counter, and the loop ends right after
    * the tick that takes the counter past SUGGESTION_CAP. */
  function Emitted(cands: seq<Pair>, train: set<Pair>, count: int): (r: seq<Pair>)
    ensures forall p :: p in r ==> p in cands && PairCheck(train, p)
  {
    if cands == [] then []
    else if PairCheck(train, cands[0]) then
      [cands[0]] + (if count + 1 > SuggestionCap then [] else Emitted(cands[1..], train, count + 1))
    else Emitted(cands[1..], train, count)
  }

  lemma TakeCons<T>(x: T, s: seq<T>, n: nat)
    requires n > 0
    ensures Take([x] + s, n) == [x] + Take(s, n - 1)
  {
  }

  /** From a counter within the cap, a loop puts the candidates that pass
    * pairCheck, in order, up to the one that takes the counter past the
    * cap: as many as leave the counter at most SUGGESTION_CAP + 1. */
  lemma {:induction false} EmittedIsCappedPassing(cands: seq<Pair>, train: set<Pair>, count: int)
    requires count <= SuggestionCap
    ensures Emitted(cands, train, count) == Take(Passing(cands, train), SuggestionCap + 1 - count)
    decreases |cands|
  {
    if cands != [] {
      var rest := Passing(cands[1..], train);
      if PairCheck(train, cands[0]) {
        assert Passing(cands, train) == [cands[0]] + rest;
        TakeCons(cands[0], rest, SuggestionCap + 1 - count);
        if count + 1 <= SuggestionCap {
          EmittedIsCappedPassing(cands[1..], train, count + 1);
        }
      } else {
        assert Passing(cands, train) == rest;
        EmittedIsCappedPassing(cands[1..], train, count);
      }
    }
  }

  /** The counter never ends more than one past the cap, and a loop that
    * stays within the cap puts every candidate that passes pairCheck. */
  lemma EmittedWithinCap(cands: seq<Pair>, train: set<Pair>, count: int)
    requires count <= SuggestionCap
    ensures count + |Emitted(cands, train, count)| <= SuggestionCap + 1
    ensures count + |Passing(cands, train)| <= SuggestionCap ==> Emitted(cands, train, count) == Passing(cands, train)
  {
    EmittedIsCappedPassing(cands, train, count);
  }

  // ---------------------------------------------------------------------
  // Putting suggestions into the multimap
  // ---------------------------------------------------------------------

  /** map.put(p, r). */
  function PutRule(m: Suggestions, p: Pair, r: Rule): Suggestions
  {
    m[p := IO.RulesOf(m, p) + {r}]
  }

  /** Putting each of `ps` with `r`, in turn. */
  function PutAll(m: Suggestions, ps: seq<Pair>, r: Rule): Suggestions
  {
    if ps == [] then m
    else PutRule(PutAll(m, ps[..|ps| - 1], r), ps[|ps| - 1], r)
  }

  /** After the puts, a fact is a key exactly when it was one or was put,
    * and it holds `r` in addition to its rules before exactly when it was
    * put. */
  lemma {:induction false} PutAllRules(m: Suggestions, ps: seq<Pair>, r: Rule, x: Pair)
    ensures x in PutAll(m, ps, r) <==> x in m || x in ps
    ensures IO.RulesOf(PutAll(m, ps, r), x) == IO.RulesOf(m, x) + (if x in ps then {r} else {})
    decreases |ps|
  {
    if ps != [] {
      var n := |ps| - 1;
      PutAllRules(m, ps[..n], r, x);
      assert x in ps <==> x in ps[..n] || x == ps[n] by {
        assert ps == ps[..n] + [ps[n]];
      }
    }
  }

  /** The shared loop of the three apply methods for child rules: each
    * candidate in turn, kept ones put with `rule`, the prediction counter
    * ticked for each, and the loop left once the counter passes the cap. */
  method Emit(rule: Rule, cands: seq<Pair>, train: set<Pair>, m: Suggestions, tables: Tables)
    returns (m': Suggestions, ghost put: seq<Pair>)
    modifies tables.predictionCounter
    ensures put == Emitted(cands, train, old(tables.predictionCounter.count))
    ensures m' == PutAll(m, put, rule)
    ensures tables.predictionCounter.count == old(tables.predictionCounter.count) + |put|
  {
    ghost var c0 := tables.predictionCounter.count;
    ghost var goal := Emitted(cands, train, c0);
    m', put := m, [];
    var k := 0;
    while k < |cands|
      invariant 0 <= k <= |cands|
      invariant tables.predictionCounter.count == c0 + |put|
      invariant put + Emitted(cands[k..], train, c0 + |put|) == goal
      invariant m' == PutAll(m, put, rule)
    {
      var pair := cands[k];
      EmitStep(cands, k, train, c0, put, goal);
      if PairCheck(train, pair) {
        m' := PutRule(m', pair, rule);
        PutAllSnoc(m, put, pair, rule);
        put := put + [pair];
        tables.TickPredictionCounter();
        if tables.GetPredictionCounter() > SuggestionCap {
          return;
        }
      }
      k := k + 1;
    }
    assert cands[k..] == [];
  }

  /** One step of Emit's loop: what is left to put after candidate `k`. */
  lemma EmitStep(cands: seq<Pair>, k: nat, train: set<Pair>, c0: int, put: seq<Pair>, goal: seq<Pair>)
    requires k < |cands|
    requires put + Emitted(cands[k..], train, c0 + |put|) == goal
    ensures PairCheck(train, cands[k]) && c0 + |put| + 1 > SuggestionCap ==> put + [cands[k]] == goal
    ensures PairCheck(train, cands[k]) && c0 + |put| + 1 <= SuggestionCap ==>
      (put + [cands[k]]) + Emitted(cands[k + 1..], train, c0 + |put| + 1) == goal
    ensures !PairCheck(train, cands[k]) ==> put + Emitted(cands[k + 1..], train, c0 + |put|) == goal
  {
    var count := c0 + |put|;
    EmittedStep(cands, k, train, count);
    if PairCheck(train, cands[k]) {
      var rest := if count + 1 > SuggestionCap then [] else Emitted(cands[k + 1..], train, count + 1);
      ConcatAssoc(put, [cands[k]], rest);
    }
  }

  /** Putting one more fact. */
  lemma PutAllSnoc(m: Suggestions, ps: seq<Pair>, p: Pair, r: Rule)
    ensures PutAll(m, ps + [p], r) == PutRule(PutAll(m, ps, r), p, r)
  {
    assert (ps + [p])[..|ps|] == ps;
  }

  lemma ConcatAssoc<T>(a: seq<T>, b: seq<T>, c: seq<T>)
    ensures a + b + c == a + (b + c)
  {
  }

  /** One step of the apply loop. */
  lemma EmittedStep(cands: seq<Pair>, k: nat, train: set<Pair>, count: int)
    requires k < |cands|
    ensures Emitted(cands[k..], train, count) ==
      if PairCheck(train, cands[k]) then
        [cands[k]] + (if count + 1 > SuggestionCap then [] else Emitted(cands[k + 1..], train, count + 1))
      else Emitted(cands[k + 1..], train, count)
  {
    assert cands[k..][1..] == cands[k + 1..];
  }

  // ---------------------------------------------------------------------
  // The candidates of each kind of child
  // ---------------------------------------------------------------------

  /** The originals behind tail `t`: the starts of the groundings ending
    * there. */
  function TailOriginals(groundings: seq<Pair>, t: int): (s: set<int>)
    ensures forall o :: o in s <==> Pair(o, t) in groundings
  {
    set i | 0 <= i < |groundings| && groundings[i].obj == t :: groundings[i].sub
  }

  /** The tail-to-original multimap of applyTailAnchoredRules holds the
    * same originals under a tail as TailOriginals. */
  lemma TailToOriginalGet(m: map<int, set<int>>, groundings: seq<Pair>, t: int)
    requires Groundings.IsTailToOriginal(m, groundings)
    ensures Groundings.Get(m, t) == TailOriginals(groundings, t)
  {
    assert forall o :: o in Groundings.Get(m, t) <==> o in TailOriginals(groundings, t);
  }

  /** The child kinds, each with its own apply method. */
  datatype ChildKind = HeadAnchored | TailAnchored | BothAnchored

  /** What an apply method reads from a child: the head constant its
    * predictions are anchored at and the tail its body ends at. */
  datatype ChildIds = ChildIds(anchoring: int, tail: int)

  /** The ids of child `r` as its apply method reads them: a both-anchored
    * child's anchoring is its own getAnchoring(); the other kinds take the
    * head term the abstract rule's body does not start from. */
  function IdsOf(kind: ChildKind, fromSubject: bool, r: Rule): ChildIds
    requires |r.body| > 0
    reads r.head, r.body
  {
    ChildIds(if kind == BothAnchored then r.GetAnchoring() else AnchoringOf(r.head.View(), fromSubject), r.GetTail())
  }

  /** Every fact a child of kind `kind` with ids `ids` predicts from the
    * groundings: a head-anchored child from each start node to its
    * anchoring; a tail-anchored child from each original behind its tail
    * to each anchoring of the test facts; a both-anchored child from each
    * original behind its tail to its anchoring. */
  ghost predicate Predicts(kind: ChildKind, fromSubject: bool, ids: ChildIds, anchorings: seq<int>,
                           groundings: seq<Pair>, p: Pair)
  {
    match kind
    case HeadAnchored =>
      exists o :: o in Instantiation.Starts(groundings) && p == Prediction(fromSubject, o, ids.anchoring)
    case TailAnchored =>
      exists a, o :: a in anchorings && o in TailOriginals(groundings, ids.tail) && p == Prediction(fromSubject, o, a)
    case BothAnchored =>
      exists o :: o in TailOriginals(groundings, ids.tail) && p == Prediction(fromSubject, o, ids.anchoring)
  }

  /** The candidates of a grid: one per anchoring and original. */
  lemma {:induction false} PredictionsMembers(fromSubject: bool, anchorings: seq<int>, originals: seq<int>, p: Pair)
    requires p in Predictions(fromSubject, anchorings, originals)
    ensures exists a, o :: a in anchorings && o in originals && p == Prediction(fromSubject, o, a)
    decreases |anchorings|
  {
    var n := |anchorings| - 1;
    var row := Row(fromSubject, anchorings[n], originals);
    if p in row {
      var j :| 0 <= j < |row| && row[j] == p;
      assert originals[j] in originals;
    } else {
      PredictionsMembers(fromSubject, anchorings[..n], originals, p);
      var a, o :| a in anchorings[..n] && o in originals && p == Prediction(fromSubject, o, a);
      assert a in anchorings;
    }
  }

  /** applyHeadAnchoredRules: the starts of the groundings, each paired
    * with the child's anchoring (`ids` as read from the child). */
  method ApplyHead(fromSubject: bool, rule: Rule, ids: ChildIds, train: set<Pair>, groundings: seq<Pair>,
                   m: Suggestions, tables: Tables)
    returns (m': Suggestions, ghost originals: seq<int>, ghost cands: seq<Pair>, ghost put: seq<Pair>)
    modifies tables.predictionCounter
    ensures Enumerates(originals, Instantiation.Starts(groundings))
    ensures cands == Row(fromSubject, ids.anchoring, originals)
    ensures put == Emitted(cands, train, old(tables.predictionCounter.count))
    ensures forall p :: p in put ==> PairCheck(train, p) && Predicts(HeadAnchored, fromSubject, ids, [], groundings, p)
    ensures m' == PutAll(m, put, rule)
    ensures tables.predictionCounter.count == old(tables.predictionCounter.count) + |put|
  {
    var listing := Enumerate(Instantiation.Starts(groundings));
    var predictions := Row(fromSubject, ids.anchoring, listing);
    originals, cands := listing, predictions;
    m', put := Emit(rule, predictions, train, m, tables);
    forall p | p in put ensures Predicts(HeadAnchored, fromSubject, ids, [], groundings, p) {
      var j :| 0 <= j < |predictions| && predictions[j] == p;
      assert listing[j] in listing;
    }
  }

  /** applyTailAnchoredRules, with the cap ending both loops: the
    * originals behind the child's tail, each paired with each anchoring
    * of the test facts, anchoring by anchoring. */
  method ApplyTail(fromSubject: bool, rule: Rule, ids: ChildIds, train: set<Pair>, anchorings: seq<int>,
                   groundings: seq<Pair>, m: Suggestions, tables: Tables)
    returns (m': Suggestions, ghost originals: seq<int>, ghost cands: seq<Pair>, ghost put: seq<Pair>)
    modifies tables.predictionCounter
    ensures Enumerates(originals, TailOriginals(groundings, ids.tail))
    ensures cands == Predictions(fromSubject, anchorings, originals)
    ensures put == Emitted(cands, train, old(tables.predictionCounter.count))
    ensures forall p :: p in put ==> PairCheck(train, p) && Predicts(TailAnchored, fromSubject, ids, anchorings, groundings, p)
    ensures m' == PutAll(m, put, rule)
    ensures tables.predictionCounter.count == old(tables.predictionCounter.count) + |put|
  {
    var tailToOriginal := Groundings.TailToOriginal(groundings);
    TailToOriginalGet(tailToOriginal, groundings, ids.tail);
    var listing := Enumerate(Groundings.Get(tailToOriginal, ids.tail));
    var predictions := Predictions(fromSubject, anchorings, listing);
    originals, cands := listing, predictions;
    m', put := Emit(rule, predictions, train, m, tables);
    forall p | p in put ensures Predicts(TailAnchored, fromSubject, ids, anchorings, groundings, p) {
      PredictionsMembers(fromSubject, anchorings, listing, p);
    }
  }

  /** applyBothAnchoredRules: the originals behind the child's tail, each
    * paired with the child's anchoring. */
  method ApplyBoth(fromSubject: bool, rule: Rule, ids: ChildIds, train: set<Pair>, groundings: seq<Pair>,
                   m: Suggestions, tables: Tables)
    returns (m': Suggestions, ghost originals: seq<int>, ghost cands: seq<Pair>, ghost put: seq<Pair>)
    modifies tables.predictionCounter
    ensures Enumerates(originals, TailOriginals(groundings, ids.tail))
    ensures cands == Row(fromSubject, ids.anchoring, originals)
    ensures put == Emitted(cands, train, old(tables.predictionCounter.count))
    ensures forall p :: p in put ==> PairCheck(train, p) && Predicts(BothAnchored, fromSubject, ids, [], groundings, p)
    ensures m' == PutAll(m, put, rule)
    ensures tables.predictionCounter.count == old(tables.predictionCounter.count) + |put|
  {
    var listing := Enumerate(TailOriginals(groundings, ids.tail));
    var predictions := Row(fromSubject, ids.anchoring, listing);
    originals, cands := listing, predictions;
    m', put := Emit(rule, predictions, train, m, tables);
    forall p | p in put ensures Predicts(BothAnchored, fromSubject, ids, [], groundings, p) {
      var j :| 0 <= j < |predictions| && predictions[j] == p;
      assert listing[j] in listing;
    }
  }

  // ---------------------------------------------------------------------
  // The tail-anchored loop as written
  // ---------------------------------------------------------------------

  /** What applyTailAnchoredRules puts as written: its `break` only leaves
    * the loop over originals, so every further anchoring starts a row of
    * its own with the counter already past the cap. */
  function EmittedByRows(fromSubject: bool, anchorings: seq<int>, originals: seq<int>, train: set<Pair>,
                         count: int): (r: seq<Pair>)
    ensures forall p :: p in r ==> PairCheck(train, p)
    decreases |anchorings|
  {
    if anchorings == [] then []
    else
      var row := Emitted(Row(fromSubject, anchorings[0], originals), train, count);
      row + EmittedByRows(fromSubject, anchorings[1..], originals, train, count + |row|)
  }

  /** With the counter at the cap, two anchorings and one original, the
    * loop as written suggests two facts and leaves the counter two past
    * the cap, while the loop that stops at the cap suggests one. */
  lemma TailRowsPassCap()
    ensures var rows := EmittedByRows(true, [1, 2], [3], {}, SuggestionCap);
      rows == [Pair(3, 1), Pair(3, 2)] && SuggestionCap + |rows| == SuggestionCap + 2
    ensures Emitted(Predictions(true, [1, 2], [3]), {}, SuggestionCap) == [Pair(3, 1)]
  {
    assert Row(true, 1, [3]) == [Pair(3, 1)];
    assert Row(true, 2, [3]) == [Pair(3, 2)];
    assert [1, 2][1..] == [2];
    assert Predictions(true, [1, 2][..1], [3]) == [Pair(3, 1)] by {
      assert [1, 2][..1] == [1];
      assert [1][..0] == [];
    }
    assert Predictions(true, [1, 2], [3]) == [Pair(3, 1), Pair(3, 2)];
  }

  // ---------------------------------------------------------------------
  // Closed rules
  // ---------------------------------------------------------------------

  /** The candidates of a closed rule: its groundings, turned round when
    * the body starts from the head object, that pass pairCheck. */
  function ClosedCandidates(fromSubject: bool, groundings: seq<Pair>, train: set<Pair>): (s: set<Pair>)
    ensures forall p :: p in s <==> PairCheck(train, p) && (if fromSubject then p else Flip(p)) in groundings
  {
    var oriented := set i | 0 <= i < |groundings| :: if fromSubject then groundings[i] else Flip(groundings[i]);
    assert forall p :: p in oriented <==> (if fromSubject then p else Flip(p)) in groundings by {
      forall p | (if fromSubject then p else Flip(p)) in groundings ensures p in oriented {
        var i :| 0 <= i < |groundings| && groundings[i] == (if fromSubject then p else Flip(p));
        assert Flip(Flip(p)) == p;
      }
    }
    set p | p in oriented && PairCheck(train, p)
  }

  /** applyClosedRule: every candidate put with the closed rule itself;
    * the prediction counter is not ticked. */
  method ApplyClosed(base: Rule, train: set<Pair>, groundings: seq<Pair>, m: Suggestions)
    returns (m': Suggestions)
    ensures forall p :: p in m' <==> p in m || p in ClosedCandidates(base.fromSubject, groundings, train)
    ensures forall p :: (IO.RulesOf(m', p) ==
      IO.RulesOf(m, p) + (if p in ClosedCandidates(base.fromSubject, groundings, train) then {base} else {}))
  {
    var candidates := Enumerate(ClosedCandidates(base.fromSubject, groundings, train));
    EnumeratesMembers(candidates, ClosedCandidates(base.fromSubject, groundings, train));
    m' := m;
    var k := 0;
    while k < |candidates|
      invariant 0 <= k <= |candidates|
      invariant m' == PutAll(m, candidates[..k], base)
    {
      assert candidates[..k + 1][..k] == candidates[..k];
      m' := PutRule(m', candidates[k], base);
      k := k + 1;
    }
    assert candidates[..k] == candidates;
    forall p | true
      ensures p in m' <==> p in m || p in ClosedCandidates(base.fromSubject, groundings, train)
      ensures IO.RulesOf(m', p) ==
        IO.RulesOf(m, p) + (if p in ClosedCandidates(base.fromSubject, groundings, train) then {base} else {})
    {
      PutAllRules(m, candidates, base, p);
    }
  }

  // ---------------------------------------------------------------------
  // applyRule
  // ---------------------------------------------------------------------

  /** What the prediction counter does over applyRule's loops: it only
    * grows, never ends more than one past the cap when it started within
    * it, and does not move when it started past it. */
  predicate CapKept(before: int, after: int)
  {
    before <= after && (before <= SuggestionCap ==> after <= SuggestionCap + 1) &&
    (before > SuggestionCap ==> after == before)
  }

  /** The suggestions `m'` adds to `m`: kept by pairCheck, each by one of
    * the first `n` sampled children of kind `kind`, and a fact that child
    * predicts with its ids. */
  ghost predicate AddedBy(kind: ChildKind, fromSubject: bool, sampled: seq<Rule>, ids: seq<ChildIds>, n: nat,
                          train: set<Pair>, anchorings: seq<int>, groundings: seq<Pair>, m: Suggestions, m': Suggestions)
  {
    (forall p :: p in m' ==> p in m || PairCheck(train, p)) &&
    forall p, r :: r in IO.RulesOf(m', p) && r !in IO.RulesOf(m, p) ==>
      exists j :: 0 <= j < n && j < |sampled| && j < |ids| && sampled[j] == r &&
        Predicts(kind, fromSubject, ids[j], anchorings, groundings, p)
  }

  /** The candidate list one child of kind `kind` with ids `ids` visits:
    * its grid of predictions over some listing of its originals. */
  ghost predicate ChildCandidates(kind: ChildKind, fromSubject: bool, ids: ChildIds, anchorings: seq<int>,
                                  groundings: seq<Pair>, cands: seq<Pair>)
  {
    match kind
    case HeadAnchored =>
      exists originals :: Enumerates(originals, Instantiation.Starts(groundings)) &&
        cands == Row(fromSubject, ids.anchoring, originals)
    case TailAnchored =>
      exists originals :: Enumerates(originals, TailOriginals(groundings, ids.tail)) &&
        cands == Predictions(fromSubject, anchorings, originals)
    case BothAnchored =>
      exists originals :: Enumerates(originals, TailOriginals(groundings, ids.tail)) &&
        cands == Row(fromSubject, ids.anchoring, originals)
  }

  /** What one child loop of applyRule did: how many children it started
    * and the candidate list each of them visited. */
  datatype ChildRun = ChildRun(started: nat, cands: seq<seq<Pair>>)

  /** The child loop's run is one over `sampled`: each started child
    * visited its own candidates. */
  ghost predicate ChildLoop(kind: ChildKind, fromSubject: bool, sampled: seq<Rule>, ids: seq<ChildIds>,
                            anchorings: seq<int>, groundings: seq<Pair>, run: ChildRun)
  {
    run.started <= |sampled| && run.started <= |ids| && |run.cands| == run.started &&
    forall j :: 0 <= j < run.started ==>
      ChildCandidates(kind, fromSubject, ids[j], anchorings, groundings, run.cands[j])
  }

  /** The suggestions and the prediction counter after children `rules`,
    * the j-th visiting `cands[j]`, starting from `m` and `count`: a child
    * is skipped once the counter has passed SUGGESTION_CAP, and otherwise
    * puts what Emitted says, ticking the counter once for each. */
  function Applied(m: Suggestions, rules: seq<Rule>, cands: seq<seq<Pair>>, train: set<Pair>, count: int)
    : (r: (Suggestions, int))
    requires |cands| == |rules|
    ensures r.1 >= count
    ensures count <= SuggestionCap ==> r.1 <= SuggestionCap + 1
    ensures count > SuggestionCap ==> r == (m, count)
    decreases |rules|
  {
    if rules == [] then (m, count)
    else
      var n := |rules| - 1;
      var before := Applied(m, rules[..n], cands[..n], train, count);
      if before.1 > SuggestionCap then before
      else
        var put := Emitted(cands[n], train, before.1);
        EmittedWithinCap(cands[n], train, before.1);
        (PutAll(before.0, put, rules[n]), before.1 + |put|)
  }

  /** The suggestions grow along the fold: a rule held by a fact is still
    * held after more children. */
  lemma {:induction false} AppliedKeeps(m: Suggestions, rules: seq<Rule>, cands: seq<seq<Pair>>, train: set<Pair>,
                                        count: int, p: Pair)
    requires |cands| == |rules|
    ensures IO.RulesOf(m, p) <= IO.RulesOf(Applied(m, rules, cands, train, count).0, p)
    decreases |rules|
  {
    if rules != [] {
      var n := |rules| - 1;
      AppliedKeeps(m, rules[..n], cands[..n], train, count, p);
      var before := Applied(m, rules[..n], cands[..n], train, count);
      if before.1 <= SuggestionCap {
        PutAllRules(before.0, Emitted(cands[n], train, before.1), rules[n], p);
      }
    }
  }

  /** Completeness under the cap: when the counter ends within
    * SUGGESTION_CAP, every candidate of every child that passes pairCheck
    * is suggested by that child. */
  lemma {:induction false} AppliedComplete(m: Suggestions, rules: seq<Rule>, cands: seq<seq<Pair>>,
                                           train: set<Pair>, count: int, j: nat, p: Pair)
    requires |cands| == |rules| && j < |rules|
    requires p in cands[j] && PairCheck(train, p)
    requires Applied(m, rules, cands, train, count).1 <= SuggestionCap
    ensures rules[j] in IO.RulesOf(Applied(m, rules, cands, train, count).0, p)
    decreases |rules|
  {
    var n := |rules| - 1;
    var before := Applied(m, rules[..n], cands[..n], train, count);
    assert before.1 <= SuggestionCap;
    var put := Emitted(cands[n], train, before.1);
    if j < n {
      AppliedComplete(m, rules[..n], cands[..n], train, count, j, p);
      PutAllRules(before.0, put, rules[n], p);
    } else {
      EmittedIsCappedPassing(cands[n], train, before.1);
      assert put == Passing(cands[n], train);
      PutAllRules(before.0, put, rules[n], p);
    }
  }

  /** One kind of child's loop in applyRule: the children in rank order,
    * each with the ids read from it, none started once the prediction
    * counter has passed the cap. */
  method ApplyChildren(kind: ChildKind, fromSubject: bool, sampled: seq<Rule>, ids: seq<ChildIds>, train: set<Pair>,
                       anchorings: seq<int>, groundings: seq<Pair>, m: Suggestions, tables: Tables)
    returns (m': Suggestions, ghost run: ChildRun)
    requires |ids| == |sampled|
    modifies tables.predictionCounter
    ensures AddedBy(kind, fromSubject, sampled, ids, |sampled|, train, anchorings, groundings, m, m')
    ensures CapKept(old(tables.predictionCounter.count), tables.predictionCounter.count)
    ensures ChildLoop(kind, fromSubject, sampled, ids, anchorings, groundings, run)
    ensures (m', tables.predictionCounter.count) ==
      Applied(m, sampled[..run.started], run.cands, train, old(tables.predictionCounter.count))
    ensures run.started == |sampled| || tables.predictionCounter.count > SuggestionCap
  {
    ghost var c0 := tables.predictionCounter.count;
    ghost var visited: seq<seq<Pair>> := [];
    m' := m;
    var k := 0;
    while k < |sampled|
      invariant 0 <= k <= |sampled|
      invariant AddedBy(kind, fromSubject, sampled, ids, k, train, anchorings, groundings, m, m')
      invariant CapKept(c0, tables.predictionCounter.count)
      invariant ChildLoop(kind, fromSubject, sampled, ids, anchorings, groundings, ChildRun(k, visited))
      invariant (m', tables.predictionCounter.count) == Applied(m, sampled[..k], visited, train, c0)
    {
      if tables.GetPredictionCounter() > SuggestionCap {
        break;
      }
      m', visited := ChildStep(kind, fromSubject, sampled, ids, k, train, anchorings, groundings, m, m', tables,
        c0, visited);
      k := k + 1;
    }
    AddedWithin(kind, fromSubject, sampled, ids, k, |sampled|, train, anchorings, groundings, m, m');
    run := ChildRun(k, visited);
  }

  /** One turn of the child loop, the counter still within the cap: child
    * `k` applied to what the children before it suggested. */
  method ChildStep(kind: ChildKind, fromSubject: bool, sampled: seq<Rule>, ids: seq<ChildIds>, k: nat,
                   train: set<Pair>, anchorings: seq<int>, groundings: seq<Pair>, m: Suggestions, m0: Suggestions,
                   tables: Tables, ghost c0: int, ghost visited: seq<seq<Pair>>)
    returns (m1: Suggestions, ghost visited': seq<seq<Pair>>)
    requires k < |sampled| == |ids|
    requires AddedBy(kind, fromSubject, sampled, ids, k, train, anchorings, groundings, m, m0)
    requires CapKept(c0, tables.predictionCounter.count) && tables.predictionCounter.count <= SuggestionCap
    requires ChildLoop(kind, fromSubject, sampled, ids, anchorings, groundings, ChildRun(k, visited))
    requires (m0, tables.predictionCounter.count) == Applied(m, sampled[..k], visited, train, c0)
    modifies tables.predictionCounter
    ensures AddedBy(kind, fromSubject, sampled, ids, k + 1, train, anchorings, groundings, m, m1)
    ensures CapKept(c0, tables.predictionCounter.count)
    ensures ChildLoop(kind, fromSubject, sampled, ids, anchorings, groundings, ChildRun(k + 1, visited'))
    ensures (m1, tables.predictionCounter.count) == Applied(m, sampled[..k + 1], visited', train, c0)
  {
    ghost var c := tables.predictionCounter.count;
    ghost var cands: seq<Pair>, put: seq<Pair>;
    m1, cands, put := ApplyChild(kind, fromSubject, sampled[k], ids[k], train, anchorings, groundings, m0, tables);
    EmittedWithinCap(cands, train, c);
    AddedStep(kind, fromSubject, sampled, ids, k, train, anchorings, groundings, m, m0, put, m1);
    AppliedSnoc(m, sampled[..k], visited, train, c0, sampled[k], cands);
    ChildLoopSnoc(kind, fromSubject, sampled, ids, anchorings, groundings, k, visited, cands);
    assert sampled[..k + 1] == sampled[..k] + [sampled[k]];
    visited' := visited + [cands];
  }

  /** One started child, by its kind's apply method. */
  method ApplyChild(kind: ChildKind, fromSubject: bool, rule: Rule, ids: ChildIds, train: set<Pair>,
                    anchorings: seq<int>, groundings: seq<Pair>, m: Suggestions, tables: Tables)
    returns (m': Suggestions, ghost cands: seq<Pair>, ghost put: seq<Pair>)
    modifies tables.predictionCounter
    ensures ChildCandidates(kind, fromSubject, ids, anchorings, groundings, cands)
    ensures put == Emitted(cands, train, old(tables.predictionCounter.count))
    ensures forall p :: p in put ==> PairCheck(train, p) && Predicts(kind, fromSubject, ids, anchorings, groundings, p)
    ensures m' == PutAll(m, put, rule)
    ensures tables.predictionCounter.count == old(tables.predictionCounter.count) + |put|
  {
    ghost var originals: seq<int>;
    match kind {
      case HeadAnchored =>
        m', originals, cands, put := ApplyHead(fromSubject, rule, ids, train, groundings, m, tables);
      case TailAnchored =>
        m', originals, cands, put := ApplyTail(fromSubject, rule, ids, train, anchorings, groundings, m, tables);
      case BothAnchored =>
        m', originals, cands, put := ApplyBoth(fromSubject, rule, ids, train, groundings, m, tables);
    }
  }

  /** One more child started, visiting its own candidates. */
  lemma ChildLoopSnoc(kind: ChildKind, fromSubject: bool, sampled: seq<Rule>, ids: seq<ChildIds>,
                      anchorings: seq<int>, groundings: seq<Pair>, k: nat, visited: seq<seq<Pair>>, c: seq<Pair>)
    requires ChildLoop(kind, fromSubject, sampled, ids, anchorings, groundings, ChildRun(k, visited))
    requires k < |sampled| && k < |ids|
    requires ChildCandidates(kind, fromSubject, ids[k], anchorings, groundings, c)
    ensures ChildLoop(kind, fromSubject, sampled, ids, anchorings, groundings, ChildRun(k + 1, visited + [c]))
  {
    assert forall j :: 0 <= j < k ==> (visited + [c])[j] == visited[j];
  }

  /** One more child started within the cap. */
  lemma AppliedSnoc(m: Suggestions, rules: seq<Rule>, cands: seq<seq<Pair>>, train: set<Pair>, count: int,
                    r: Rule, c: seq<Pair>)
    requires |cands| == |rules|
    requires Applied(m, rules, cands, train, count).1 <= SuggestionCap
    ensures var before := Applied(m, rules, cands, train, count);
      var put := Emitted(c, train, before.1);
      Applied(m, rules + [r], cands + [c], train, count) == (PutAll(before.0, put, r), before.1 + |put|)
  {
    assert (rules + [r])[..|rules|] == rules && (cands + [c])[..|rules|] == cands;
  }

  /** Putting the suggestions of child `k` extends what the children
    * before it added. */
  lemma AddedStep(kind: ChildKind, fromSubject: bool, sampled: seq<Rule>, ids: seq<ChildIds>, k: nat,
                  train: set<Pair>, anchorings: seq<int>, groundings: seq<Pair>, m: Suggestions,
                  before: Suggestions, put: seq<Pair>, after: Suggestions)
    requires k < |sampled| == |ids|
    requires AddedBy(kind, fromSubject, sampled, ids, k, train, anchorings, groundings, m, before)
    requires forall p :: p in put ==> PairCheck(train, p) && Predicts(kind, fromSubject, ids[k], anchorings, groundings, p)
    requires after == PutAll(before, put, sampled[k])
    ensures AddedBy(kind, fromSubject, sampled, ids, k + 1, train, anchorings, groundings, m, after)
  {
    forall p | p in after ensures p in m || PairCheck(train, p) {
      PutAllRules(before, put, sampled[k], p);
    }
    forall p, r | r in IO.RulesOf(after, p) && r !in IO.RulesOf(m, p)
      ensures exists j :: (0 <= j < k + 1 && j < |sampled| && j < |ids| && sampled[j] == r &&
        Predicts(kind, fromSubject, ids[j], anchorings, groundings, p))
    {
      PutAllRules(before, put, sampled[k], p);
      if r !in IO.RulesOf(before, p) {
        assert r == sampled[k] && p in put;
      }
    }
  }

  /** What the first `k` children added, the first `n >= k` added. */
  lemma AddedWithin(kind: ChildKind, fromSubject: bool, sampled: seq<Rule>, ids: seq<ChildIds>, k: nat, n: nat,
                    train: set<Pair>, anchorings: seq<int>, groundings: seq<Pair>, m: Suggestions, m': Suggestions)
    requires k <= n
    requires AddedBy(kind, fromSubject, sampled, ids, k, train, anchorings, groundings, m, m')
    ensures AddedBy(kind, fromSubject, sampled, ids, n, train, anchorings, groundings, m, m')
  {
  }

  /** The anchorings of the test facts: the head node the body does not
    * start from. */
  function TestAnchorings(fromSubject: bool, test: set<Pair>): (s: set<int>)
    ensures forall p :: p in test ==> (if fromSubject then p.obj else p.sub) in s
    ensures forall a :: a in s ==> exists p :: p in test && a == if fromSubject then p.obj else p.sub
  {
    set p | p in test :: if fromSubject then p.obj else p.sub
  }

  /** The top TOP_INS_RULES children of one kind, ranked by sc, from a
    * listing of them, and the ids read from each. */
  lemma Sampled(kind: ChildKind, fromSubject: bool, children: set<Rule>, listing: seq<Rule>)
    requires Enumerates(listing, children)
    requires forall r :: r in children ==> |r.body| > 0
    ensures var sampled := IO.RankedTop(listing, TopInsRules);
      IO.IsRankedTop(children, sampled, TopInsRules) &&
      (forall r :: r in sampled ==> |r.body| > 0) &&
      forall j :: 0 <= j < |sampled| ==> IdsOfAll(kind, fromSubject, sampled)[j] == IdsOf(kind, fromSubject, sampled[j])
  {
    var sampled := IO.RankedTop(listing, TopInsRules);
    IO.RankedTopChosen(listing, children, TopInsRules);
    forall j | 0 <= j < |sampled| ensures IdsOfAll(kind, fromSubject, sampled)[j] == IdsOf(kind, fromSubject, sampled[j]) {
      IdsOfAllAt(kind, fromSubject, sampled, j);
    }
  }

  /** The ids of each of `rules`, in order. */
  function IdsOfAll(kind: ChildKind, fromSubject: bool, rules: seq<Rule>): (ids: seq<ChildIds>)
    requires forall r :: r in rules ==> |r.body| > 0
    reads IO.Footprint(rules)
    ensures |ids| == |rules|
  {
    if rules == [] then []
    else IdsOfAll(kind, fromSubject, rules[..|rules| - 1]) + [IdsOf(kind, fromSubject, rules[|rules| - 1])]
  }

  lemma {:induction false} IdsOfAllAt(kind: ChildKind, fromSubject: bool, rules: seq<Rule>, j: nat)
    requires forall r :: r in rules ==> |r.body| > 0
    requires j < |rules|
    ensures IdsOfAll(kind, fromSubject, rules)[j] == IdsOf(kind, fromSubject, rules[j])
    decreases |rules|
  {
    var n := |rules| - 1;
    if j < n {
      IdsOfAllAt(kind, fromSubject, rules[..n], j);
    }
  }

  /** The suggestions of one child kind in applyRule: the child and the
    * fact it predicts, as in AddedBy. */
  ghost predicate SuggestedBy(kind: ChildKind, fromSubject: bool, sampled: seq<Rule>, ids: seq<ChildIds>,
                              anchorings: seq<int>, groundings: seq<Pair>, p: Pair, r: Rule)
  {
    exists j :: 0 <= j < |sampled| && j < |ids| && sampled[j] == r &&
      Predicts(kind, fromSubject, ids[j], anchorings, groundings, p)
  }

  /** The runs of applyRule's three child loops. */
  datatype OpenRuns = OpenRuns(head: ChildRun, tail: ChildRun, both: ChildRun)

  /** The suggestions and the prediction counter after the three loops:
    * the head-anchored children from an empty map, then the
    * tail-anchored, then the both-anchored ones, the counter running on. */
  function AppliedOpen(heads: seq<Rule>, tails: seq<Rule>, boths: seq<Rule>, runs: OpenRuns, train: set<Pair>,
                       count: int): (r: (Suggestions, int))
    requires runs.head.started <= |heads| && |runs.head.cands| == runs.head.started
    requires runs.tail.started <= |tails| && |runs.tail.cands| == runs.tail.started
    requires runs.both.started <= |boths| && |runs.both.cands| == runs.both.started
    ensures r.1 >= count
  {
    var h := Applied(map[], heads[..runs.head.started], runs.head.cands, train, count);
    var t := Applied(h.0, tails[..runs.tail.started], runs.tail.cands, train, h.1);
    Applied(t.0, boths[..runs.both.started], runs.both.cands, train, t.1)
  }

  /** The three loops ran over the sampled children with their ids, and
    * each left children unstarted only once the counter had passed
    * SUGGESTION_CAP. */
  ghost predicate OpenRan(fromSubject: bool, heads: seq<Rule>, headIds: seq<ChildIds>, tails: seq<Rule>,
                          tailIds: seq<ChildIds>, boths: seq<Rule>, bothIds: seq<ChildIds>, train: set<Pair>,
                          anchorings: seq<int>, groundings: seq<Pair>, count: int, runs: OpenRuns)
  {
    ChildLoop(HeadAnchored, fromSubject, heads, headIds, anchorings, groundings, runs.head) &&
    ChildLoop(TailAnchored, fromSubject, tails, tailIds, anchorings, groundings, runs.tail) &&
    ChildLoop(BothAnchored, fromSubject, boths, bothIds, anchorings, groundings, runs.both) &&
    var h := Applied(map[], heads[..runs.head.started], runs.head.cands, train, count);
    var t := Applied(h.0, tails[..runs.tail.started], runs.tail.cands, train, h.1);
    var b := Applied(t.0, boths[..runs.both.started], runs.both.cands, train, t.1);
    (runs.head.started == |heads| || h.1 > SuggestionCap) &&
    (runs.tail.started == |tails| || t.1 > SuggestionCap) &&
    (runs.both.started == |boths| || b.1 > SuggestionCap)
  }

  /** Completeness of an open rule's application under the cap: when the
    * counter ends within SUGGESTION_CAP, every sampled child of every kind
    * was started, and every candidate it visited that passes pairCheck is
    * suggested by it. */
  lemma OpenComplete(fromSubject: bool, heads: seq<Rule>, headIds: seq<ChildIds>, tails: seq<Rule>,
                     tailIds: seq<ChildIds>, boths: seq<Rule>, bothIds: seq<ChildIds>, train: set<Pair>,
                     anchorings: seq<int>, groundings: seq<Pair>, count: int, runs: OpenRuns, p: Pair)
    requires OpenRan(fromSubject, heads, headIds, tails, tailIds, boths, bothIds, train, anchorings, groundings,
      count, runs)
    requires AppliedOpen(heads, tails, boths, runs, train, count).1 <= SuggestionCap
    requires PairCheck(train, p)
    ensures runs.head.started == |heads| && runs.tail.started == |tails| && runs.both.started == |boths|
    ensures var m := AppliedOpen(heads, tails, boths, runs, train, count).0;
      (forall j :: 0 <= j < |heads| && p in runs.head.cands[j] ==> heads[j] in IO.RulesOf(m, p)) &&
      (forall j :: 0 <= j < |tails| && p in runs.tail.cands[j] ==> tails[j] in IO.RulesOf(m, p)) &&
      (forall j :: 0 <= j < |boths| && p in runs.both.cands[j] ==> boths[j] in IO.RulesOf(m, p))
  {
    var hs, ts, bs := heads[..runs.head.started], tails[..runs.tail.started], boths[..runs.both.started];
    var h := Applied(map[], hs, runs.head.cands, train, count);
    var t := Applied(h.0, ts, runs.tail.cands, train, h.1);
    var b := Applied(t.0, bs, runs.both.cands, train, t.1);
    assert hs == heads && ts == tails && bs == boths;
    forall j | 0 <= j < |heads| && p in runs.head.cands[j] ensures heads[j] in IO.RulesOf(b.0, p) {
      AppliedComplete(map[], hs, runs.head.cands, train, count, j, p);
      AppliedKeeps(h.0, ts, runs.tail.cands, train, h.1, p);
      AppliedKeeps(t.0, bs, runs.both.cands, train, t.1, p);
    }
    forall j | 0 <= j < |tails| && p in runs.tail.cands[j] ensures tails[j] in IO.RulesOf(b.0, p) {
      AppliedComplete(h.0, ts, runs.tail.cands, train, h.1, j, p);
      AppliedKeeps(t.0, bs, runs.both.cands, train, t.1, p);
    }
    forall j | 0 <= j < |boths| && p in runs.both.cands[j] ensures boths[j] in IO.RulesOf(b.0, p) {
      AppliedComplete(t.0, bs, runs.both.cands, train, t.1, j, p);
    }
  }

  /** The three loops of applyRule for an open rule: head-anchored, then
    * tail-anchored, then both-anchored children, given the sampled
    * children with their ids. */
  method ApplyOpen(fromSubject: bool, heads: seq<Rule>, headIds: seq<ChildIds>, tails: seq<Rule>,
                   tailIds: seq<ChildIds>, boths: seq<Rule>, bothIds: seq<ChildIds>, train: set<Pair>,
                   anchorings: seq<int>, groundings: seq<Pair>, tables: Tables)
    returns (m: Suggestions, ghost runs: OpenRuns)
    requires |headIds| == |heads| && |tailIds| == |tails| && |bothIds| == |boths|
    modifies tables.predictionCounter
    ensures forall p :: p in m ==> PairCheck(train, p)
    ensures forall p, r :: r in IO.RulesOf(m, p) ==>
      SuggestedBy(HeadAnchored, fromSubject, heads, headIds, anchorings, groundings, p, r) ||
      SuggestedBy(TailAnchored, fromSubject, tails, tailIds, anchorings, groundings, p, r) ||
      SuggestedBy(BothAnchored, fromSubject, boths, bothIds, anchorings, groundings, p, r)
    ensures CapKept(old(tables.predictionCounter.count), tables.predictionCounter.count)
    ensures OpenRan(fromSubject, heads, headIds, tails, tailIds, boths, bothIds, train, anchorings, groundings,
      old(tables.predictionCounter.count), runs)
    ensures (m, tables.predictionCounter.count) ==
      AppliedOpen(heads, tails, boths, runs, train, old(tables.predictionCounter.count))
  {
    var empty: Suggestions := map[];
    ghost var head, tail, both;
    var afterHead, afterTail;
    afterHead, head :=
      ApplyChildren(HeadAnchored, fromSubject, heads, headIds, train, anchorings, groundings, empty, tables);
    afterTail, tail :=
      ApplyChildren(TailAnchored, fromSubject, tails, tailIds, train, anchorings, groundings, afterHead, tables);
    m, both := ApplyChildren(BothAnchored, fromSubject, boths, bothIds, train, anchorings, groundings, afterTail, tables);
    runs := OpenRuns(head, tail, both);
    forall p | p in m ensures PairCheck(train, p) {
      assert p !in empty;
    }
    forall p, r | r in IO.RulesOf(m, p)
      ensures SuggestedBy(HeadAnchored, fromSubject, heads, headIds, anchorings, groundings, p, r) ||
        SuggestedBy(TailAnchored, fromSubject, tails, tailIds, anchorings, groundings, p, r) ||
        SuggestedBy(BothAnchored, fromSubject, boths, bothIds, anchorings, groundings, p, r)
    {
      assert IO.RulesOf(empty, p) == {};
    }
  }

  /** applyClosedRule on a fresh map suggests each candidate by the base
    * rule alone. */
  lemma ClosedFromEmpty(m: Suggestions, candidates: set<Pair>, base: Rule)
    requires forall p :: p in m <==> p in candidates
    requires forall p :: IO.RulesOf(m, p) == IO.RulesOf(map[], p) + (if p in candidates then {base} else {})
    ensures forall p :: IO.RulesOf(m, p) == if p in m then {base} else {}
  {
  }

  /** The sampled lists of applyRule, each ranked by sc and cut at
    * TOP_INS_RULES, with the ids of each sampled child. */
  method SampleChildren(base: Rule)
    returns (heads: seq<Rule>, headIds: seq<ChildIds>, tails: seq<Rule>, tailIds: seq<ChildIds>,
             boths: seq<Rule>, bothIds: seq<ChildIds>)
    requires forall r :: r in base.headRules + base.tailRules + base.bothRules ==> |r.body| > 0
    ensures IO.IsRankedTop(base.headRules, heads, TopInsRules)
    ensures IO.IsRankedTop(base.tailRules, tails, TopInsRules)
    ensures IO.IsRankedTop(base.bothRules, boths, TopInsRules)
    ensures |headIds| == |heads| && forall j :: 0 <= j < |heads| ==> headIds[j] == IdsOf(HeadAnchored, base.fromSubject, heads[j])
    ensures |tailIds| == |tails| && forall j :: 0 <= j < |tails| ==> tailIds[j] == IdsOf(TailAnchored, base.fromSubject, tails[j])
    ensures |bothIds| == |boths| && forall j :: 0 <= j < |boths| ==> bothIds[j] == IdsOf(BothAnchored, base.fromSubject, boths[j])
  {
    var headListing := Enumerate(base.headRules);
    var tailListing := Enumerate(base.tailRules);
    var bothListing := Enumerate(base.bothRules);
    heads := IO.RankedTop(headListing, TopInsRules);
    tails := IO.RankedTop(tailListing, TopInsRules);
    boths := IO.RankedTop(bothListing, TopInsRules);
    Sampled(HeadAnchored, base.fromSubject, base.headRules, headListing);
    Sampled(TailAnchored, base.fromSubject, base.tailRules, tailListing);
    Sampled(BothAnchored, base.fromSubject, base.bothRules, bothListing);
    headIds := IdsOfAll(HeadAnchored, base.fromSubject, heads);
    tailIds := IdsOfAll(TailAnchored, base.fromSubject, tails);
    bothIds := IdsOfAll(BothAnchored, base.fromSubject, boths);
  }

  /** applyRule. A closed rule suggests exactly its closed candidates,
    * each by itself, and leaves the counter alone; every suggestion of an
    * open rule is made by one of its sampled children (SampleChildren's
    * lists: at most TOP_INS_RULES of each kind) and is a fact that child
    * predicts from the body groundings. Every suggestion passes
    * pairCheck. */
  method ApplyRule(base: Rule, g: Graph, train: set<Pair>, test: set<Pair>, tables: Tables)
    returns (m: Suggestions, ghost groundings: seq<Pair>, ghost anchorings: seq<int>,
             ghost sampledHead: seq<Rule>, ghost sampledTail: seq<Rule>, ghost sampledBoth: seq<Rule>,
             ghost headIds: seq<ChildIds>, ghost tailIds: seq<ChildIds>, ghost bothIds: seq<ChildIds>,
             ghost runs: OpenRuns)
    requires base.Valid() && base.kind.Abstract?
    requires forall r :: r in base.headRules + base.tailRules + base.bothRules ==> |r.body| > 0
    modifies tables.predictionCounter
    ensures forall q :: q in groundings ==> exists p: LocalPath ::
      (GraphOps.IsGrounding(g, old(Views(base.body)), false, TailOf(old(Views(base.body))), p) &&
       q == Pair(p.StartNode(), p.EndNode()))
    ensures Enumerates(anchorings, TestAnchorings(base.fromSubject, test))
    ensures forall r :: ((r in sampledHead ==> r in old(base.headRules)) && (r in sampledTail ==> r in old(base.tailRules)) &&
      (r in sampledBoth ==> r in old(base.bothRules)))
    ensures |sampledHead| == Min(TopInsRules, |old(base.headRules)|) &&
      |sampledTail| == Min(TopInsRules, |old(base.tailRules)|) &&
      |sampledBoth| == Min(TopInsRules, |old(base.bothRules)|)
    ensures forall p :: p in m ==> PairCheck(train, p)
    ensures base.closed ==>
      (forall p :: p in m <==> p in ClosedCandidates(base.fromSubject, groundings, train)) &&
      (forall p :: IO.RulesOf(m, p) == if p in m then {base} else {}) &&
      tables.predictionCounter.count == old(tables.predictionCounter.count)
    ensures !base.closed ==>
      forall p, r :: r in IO.RulesOf(m, p) ==>
        SuggestedBy(HeadAnchored, base.fromSubject, sampledHead, headIds, anchorings, groundings, p, r) ||
        SuggestedBy(TailAnchored, base.fromSubject, sampledTail, tailIds, anchorings, groundings, p, r) ||
        SuggestedBy(BothAnchored, base.fromSubject, sampledBoth, bothIds, anchorings, groundings, p, r)
    ensures !base.closed ==>
      OpenRan(base.fromSubject, sampledHead, headIds, sampledTail, tailIds, sampledBoth, bothIds, train, anchorings,
        groundings, old(tables.predictionCounter.count), runs) &&
      (m, tables.predictionCounter.count) ==
        AppliedOpen(sampledHead, sampledTail, sampledBoth, runs, train, old(tables.predictionCounter.count))
    ensures CapKept(old(tables.predictionCounter.count), tables.predictionCounter.count)
  {
    var heads, hIds, tails, tIds, boths, bIds := SampleChildren(base);
    var bodyGroundings, pairs := Instantiation.BodyGroundingPairs(base, g, true);
    EnumeratesMembers(bodyGroundings, pairs);
    var anchored := Enumerate(TestAnchorings(base.fromSubject, test));
    groundings, anchorings := bodyGroundings, anchored;
    sampledHead, sampledTail, sampledBoth := heads, tails, boths;
    headIds, tailIds, bothIds := hIds, tIds, bIds;
    if base.closed {
      var empty: Suggestions := map[];
      m := ApplyClosed(base, train, bodyGroundings, empty);
      ClosedFromEmpty(m, ClosedCandidates(base.fromSubject, bodyGroundings, train), base);
      runs := OpenRuns(ChildRun(0, []), ChildRun(0, []), ChildRun(0, []));
    } else {
      m, runs := ApplyOpen(base.fromSubject, heads, hIds, tails, tIds, boths, bIds, train, anchored, bodyGroundings,
        tables);
    }
  }
}
