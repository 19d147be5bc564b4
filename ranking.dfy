// How the engine ranks the candidates of one query and scores the ranking:
// each candidate pair gets the confidences of its suggesting rules, highest
// first, and the candidates are ordered by those score vectors, compared
// position by position (sortTies, which splits ties at one position by the
// next); hit@N and the reciprocal rank measure where the test facts land.
module Ranking {
  import opened Common
  import opened Settings
  import opened Pairs
  import opened Rules
  import IO

  // ---------------------------------------------------------------------
  // Metrics
  // ---------------------------------------------------------------------

  /** The position of the first listed pair that is a test fact. */
  function FirstHit(heads: set<Pair>, l: seq<Pair>): (r: Option<nat>)
    ensures r.Some? ==> r.value < |l| && l[r.value] in heads && forall j :: 0 <= j < r.value ==> l[j] !in heads
    ensures r.None? ==> forall j :: 0 <= j < |l| ==> l[j] !in heads
  {
    if l == [] then None
    else if l[0] in heads then Some(0)
    else match FirstHit(heads, l[1..]) {
      case None => None
      case Some(i) => Some(i + 1)
    }
  }

  /** mrr: the reciprocal of the 1-based rank of the first test fact in the
    * ranking, 0 when the ranking holds none. */
  function Mrr(heads: set<Pair>, l: seq<Pair>): (r: real)
    ensures 0.0 <= r <= 1.0
    ensures r == 1.0 <==> |l| > 0 && l[0] in heads
    ensures r == 0.0 <==> forall j :: 0 <= j < |l| ==> l[j] !in heads
    ensures forall k :: 0 <= k < |l| && l[k] in heads && (forall j :: 0 <= j < k ==> l[j] !in heads) ==>
      r * (k + 1) as real == 1.0
  {
    match FirstHit(heads, l)
    case None => 0.0
    case Some(i) => 1.0 / (i + 1) as real
  }

  /** How many of the listed pairs are test facts. */
  function HitCount(heads: set<Pair>, l: seq<Pair>): (c: nat)
    ensures c <= |l|
    ensures c == 0 <==> forall j :: 0 <= j < |l| ==> l[j] !in heads
    ensures c == |l| <==> forall j :: 0 <= j < |l| ==> l[j] in heads
  {
    if l == [] then 0
    else (if l[0] in heads then 1 else 0) + HitCount(heads, l[1..])
  }

  /** hitAt: the share of the first N ranked pairs that are test facts,
    * where N is cut to the ranking's length and the share is taken of the
    * query's number of test facts when that is at most N. */
  function HitAt(heads: set<Pair>, l: seq<Pair>, n: nat, totalPositive: nat): (r: real)
    ensures var top := Min(n, |l|); var count := HitCount(heads, l[..top]);
      (top > 0 && totalPositive > 0 ==> r == count as real / Min(top, totalPositive) as real) &&
      (totalPositive == 0 || count == 0 ==> r == 0.0) && 0.0 <= r
  {
    var top := Min(n, |l|);
    var count := HitCount(heads, l[..top]);
    if totalPositive > top then (if top == 0 then 0.0 else count as real / top as real)
    else if totalPositive == 0 || count == 0 then 0.0
    else count as real / totalPositive as real
  }

  /** A ranking without repeats whose test facts are all among the query's
    * `answers` scores at most 1 when `totalPositive` counts those answers. */
  lemma HitAtAtMostOne(heads: set<Pair>, l: seq<Pair>, n: nat, answers: set<Pair>)
    requires Distinct(l)
    requires forall j :: 0 <= j < |l| && l[j] in heads ==> l[j] in answers
    ensures HitAt(heads, l, n, |answers|) <= 1.0
  {
    var top := Min(n, |l|);
    var count := HitCount(heads, l[..top]);
    assert Distinct(l[..top]);
    HitsWithin(heads, l[..top], answers);
    if |answers| > top && top > 0 {
      Fraction(count as real, top as real);
    } else if |answers| > 0 && count > 0 && |answers| <= top {
      Fraction(count as real, |answers| as real);
    }
  }

  lemma Fraction(c: real, d: real)
    requires 0.0 <= c <= d && d > 0.0
    ensures c / d <= 1.0
  {
  }

  /** Distinct listed test facts that all lie in `answers` are no more than
    * the answers. */
  lemma {:induction false} HitsWithin(heads: set<Pair>, l: seq<Pair>, answers: set<Pair>)
    requires Distinct(l)
    requires forall j :: 0 <= j < |l| && l[j] in heads ==> l[j] in answers
    ensures HitCount(heads, l) <= |answers|
  {
    if l != [] {
      var rest := l[1..];
      assert forall j :: 0 <= j < |rest| ==> rest[j] == l[j + 1];
      if l[0] in heads {
        assert forall j :: 0 <= j < |rest| && rest[j] in heads ==> rest[j] in answers - {l[0]};
        HitsWithin(heads, rest, answers - {l[0]});
      } else {
        HitsWithin(heads, rest, answers);
      }
    }
  }

  // ---------------------------------------------------------------------
  // Score vectors
  // ---------------------------------------------------------------------

  /** The confidences of the listed rules, in listing order. */
  function Confidences(rules: seq<Rule>): (c: seq<real>)
    reads IO.StatsOf(rules)
    ensures |c| == |rules| && forall k :: 0 <= k < |rules| ==> c[k] == rules[k].stats.sc
  {
    if rules == [] then [] else [rules[0].stats.sc] + Confidences(rules[1..])
  }

  /** rankCandidates' scores array: the confidences of a pair's rules,
    * highest first. */
  function ScoreVector(rules: seq<Rule>): (v: seq<real>)
    reads IO.StatsOf(rules)
    ensures multiset(v) == multiset(Confidences(rules))
  {
    SortBy(Confidences(rules), ByKeyDesc((x: real) => x))
  }

  /** The score vector holds each rule's confidence once and never rises. */
  lemma ScoreVectorSpec(rules: seq<Rule>)
    ensures multiset(ScoreVector(rules)) == multiset(Confidences(rules))
    ensures forall i, j :: 0 <= i < j < |ScoreVector(rules)| ==> ScoreVector(rules)[i] >= ScoreVector(rules)[j]
  {
    SortByKeyDesc(Confidences(rules), (x: real) => x);
  }

  // ---------------------------------------------------------------------
  // sortTies
  // ---------------------------------------------------------------------

  /** createTies' test: both pairs have a score at `l`, the same one, and it
    * is not the -1 that stands for a missing score. */
  predicate Tie(l: nat, a: Scored, b: Scored)
  {
    ScoreAt(l, a) == ScoreAt(l, b) && ScoreAt(l, a) != -1.0
  }

  /** No score is the -1 marker (confidences are never negative). */
  predicate NoMarker(s: seq<Scored>)
  {
    forall x, k :: x in s && 0 <= k < |x.scores| ==> x.scores[k] != -1.0
  }

  /** How many leading pairs of `s` tie with `lead` at `l`. */
  function RunLength(s: seq<Scored>, l: nat, lead: Scored): (n: nat)
    ensures n <= |s|
    ensures forall i :: 0 <= i < n ==> Tie(l, lead, s[i])
    ensures n < |s| ==> !Tie(l, lead, s[n])
  {
    if s == [] || !Tie(l, lead, s[0]) then 0 else 1 + RunLength(s[1..], l, lead)
  }

  function Flatten<T>(gs: seq<seq<T>>): seq<T>
  {
    if gs == [] then [] else gs[0] + Flatten(gs[1..])
  }

  /** createTies: the sorted array cut into maximal runs of pairs tying
    * with the run's first pair; `set` is the list of first pairs, and a
    * run of two or more is the `ties` entry of its first pair. */
  function Groups(s: seq<Scored>, l: nat): (gs: seq<seq<Scored>>)
    ensures Flatten(gs) == s
    ensures forall i :: 0 <= i < |gs| ==> |gs[i]| > 0 && forall k :: 0 < k < |gs[i]| ==> Tie(l, gs[i][0], gs[i][k])
    decreases |s|
  {
    if s == [] then []
    else
      var n := 1 + RunLength(s[1..], l, s[0]);
      assert s[..n] + s[n..] == s;
      [s[..n]] + Groups(s[n..], l)
  }

  /** Past this position sortTies stops refining. */
  function Remaining(l: nat): nat
  {
    if l > MaxRecursionDepth then 0 else MaxRecursionDepth + 1 - l
  }

  /** sortTies(ar, l): sorted by the score at `l`; unless `l` passed
    * MAX_RECURSION_DEPTH, each run of ties is then sorted by the next
    * position in turn, in the order the array holds it. */
  function SortTies(ar: seq<Scored>, l: nat): (r: seq<Scored>)
    ensures multiset(r) == multiset(ar)
    decreases Remaining(l), 1, 0
  {
    var sorted := SortBy(ar, Before(l));
    if l > MaxRecursionDepth then sorted
    else SortGroups(Groups(sorted, l), l)
  }

  /** The loop of sortTies over the runs. */
  function SortGroups(gs: seq<seq<Scored>>, l: nat): (r: seq<Scored>)
    requires l <= MaxRecursionDepth
    ensures multiset(r) == multiset(Flatten(gs))
    decreases Remaining(l), 0, |gs|
  {
    if gs == [] then []
    else
      assert Flatten(gs) == gs[0] + Flatten(gs[1..]);
      (if |gs[0]| > 1 then SortTies(gs[0], l + 1) else gs[0]) + SortGroups(gs[1..], l)
  }

  /** `a` goes no later than `b` when score vectors are compared position by
    * position from `l` on, a missing score below every present one, up to
    * the last position sortTies refines. */
  predicate LexGE(a: Scored, b: Scored, l: nat)
    decreases Remaining(l)
  {
    l > MaxRecursionDepth + 1 ||
    ScoresCompare(l, a, b) < 0 ||
    (ScoresCompare(l, a, b) == 0 && (l > MaxRecursionDepth || LexGE(a, b, l + 1)))
  }

  predicate LexSorted(s: seq<Scored>, l: nat)
  {
    forall i, j :: 0 <= i < j < |s| ==> LexGE(s[i], s[j], l)
  }

  /** Pairs with no score at `l` and vectors of one length compare equal
    * from `l` on. */
  lemma {:induction false} LexGEShort(a: Scored, b: Scored, l: nat)
    requires !HasScore(l, a) && !HasScore(l, b) && |a.scores| == |b.scores|
    ensures LexGE(a, b, l)
    decreases Remaining(l)
  {
    CompareByLength(l, a, b);
    if l <= MaxRecursionDepth {
      LexGEShort(a, b, l + 1);
    }
  }

  /** Sorting ties this way yields a permutation ordered position by
    * position, highest first; this is the order of every ranked query. */
  lemma {:induction false} SortTiesLex(ar: seq<Scored>, l: nat)
    requires NoMarker(ar)
    ensures LexSorted(SortTies(ar, l), l)
    decreases Remaining(l), 1, 0
  {
    var sorted := SortBy(ar, Before(l));
    BeforeIsTotalPreorder(ar, l);
    SortBySorted(ar, Before(l));
    assert NoMarker(sorted) by {
      forall x | x in sorted ensures x in ar {
        assert x in multiset(sorted);
      }
    }
    if l <= MaxRecursionDepth {
      GroupsInOrder(sorted, l);
      SortGroupsLex(Groups(sorted, l), l);
    } else {
      forall i, j | 0 <= i < j < |sorted| ensures LexGE(sorted[i], sorted[j], l) {
        assert Before(l)(sorted[i], sorted[j]);
      }
    }
  }

  /** What createTies' runs of a sorted sequence satisfy: each run is
    * non-empty and ties with its first pair, and every pair of a run comes
    * before, and ties with no pair of, the later runs. */
  ghost predicate RunsInOrder(gs: seq<seq<Scored>>, l: nat)
  {
    RunsTied(gs, l) && RunsApart(gs, l)
  }

  /** Each run is non-empty and ties with its first pair. */
  ghost predicate RunsTied(gs: seq<seq<Scored>>, l: nat)
  {
    forall i :: 0 <= i < |gs| ==>
      (|gs[i]| > 0 && NoMarker(gs[i]) && forall x :: x in gs[i] ==> x == gs[i][0] || Tie(l, gs[i][0], x))
  }

  /** Every pair of a run comes before, and ties with no pair of, the later
    * runs. */
  ghost predicate RunsApart(gs: seq<seq<Scored>>, l: nat)
  {
    forall i, j, x, y :: 0 <= i < j < |gs| && x in gs[i] && y in gs[j] ==> Before(l)(x, y) && !Tie(l, x, y)
  }

  /** The runs of a sorted sequence, each refined, are in order. */
  lemma {:induction false} SortGroupsLex(gs: seq<seq<Scored>>, l: nat)
    requires l <= MaxRecursionDepth && RunsInOrder(gs, l)
    ensures LexSorted(SortGroups(gs, l), l)
    decreases Remaining(l), 0, |gs|
  {
    if gs != [] {
      var g := gs[0];
      var head := if |g| > 1 then SortTies(g, l + 1) else g;
      var tail := SortGroups(gs[1..], l);
      assert SortGroups(gs, l) == head + tail;
      RunsTail(gs, l);
      SortGroupsLex(gs[1..], l);
      RefinedRunLex(g, l);
      FirstRunBefore(gs, l);
      CrossSorted(g, Flatten(gs[1..]), head, tail, l);
      LexConcat(head, tail, l);
    }
  }

  /** A run of ties, refined by sortTies when it has more than one pair, is
    * in order. */
  lemma {:induction false} RefinedRunLex(g: seq<Scored>, l: nat)
    requires l <= MaxRecursionDepth && |g| > 0 && NoMarker(g)
    requires forall x :: x in g ==> x == g[0] || Tie(l, g[0], x)
    ensures LexSorted(if |g| > 1 then SortTies(g, l + 1) else g, l)
    decreases Remaining(l), 0, 0
  {
    var head := if |g| > 1 then SortTies(g, l + 1) else g;
    if |g| > 1 {
      SortTiesLex(g, l + 1);
    }
    RunSorted(g[0], g, head, l);
  }

  /** The later runs of runs in order are in order. */
  lemma RunsTail(gs: seq<seq<Scored>>, l: nat)
    requires gs != [] && RunsInOrder(gs, l)
    ensures RunsInOrder(gs[1..], l)
  {
    var t := gs[1..];
    forall i, j, x, y | 0 <= i < j < |t| && x in t[i] && y in t[j]
      ensures Before(l)(x, y) && !Tie(l, x, y)
    {
      assert t[i] == gs[i + 1] && t[j] == gs[j + 1];
    }
  }

  /** The first run of runs in order comes before all the others. */
  lemma FirstRunBefore(gs: seq<seq<Scored>>, l: nat)
    requires gs != [] && RunsInOrder(gs, l)
    ensures forall x, y :: x in gs[0] && y in Flatten(gs[1..]) ==> Before(l)(x, y) && !Tie(l, x, y)
  {
    forall x, y | x in gs[0] && y in Flatten(gs[1..]) ensures Before(l)(x, y) && !Tie(l, x, y) {
      var j := InFlatten(gs[1..], y);
      assert gs[1..][j] == gs[j + 1];
    }
  }

  /** A member of a concatenation is a member of one of its pieces. */
  lemma InFlatten<T>(gs: seq<seq<T>>, y: T) returns (j: nat)
    requires y in Flatten(gs)
    ensures j < |gs| && y in gs[j]
  {
    if y in gs[0] {
      j := 0;
    } else {
      var k := InFlatten(gs[1..], y);
      j := k + 1;
    }
  }

  /** createTies' runs of a sorted sequence are in order. */
  lemma {:induction false} GroupsInOrder(s: seq<Scored>, l: nat)
    requires NoMarker(s) && SortedBy(s, Before(l))
    ensures RunsInOrder(Groups(s, l), l)
    decreases |s|
  {
    if s != [] {
      var n := 1 + RunLength(s[1..], l, s[0]);
      var g, rest := s[..n], s[n..];
      assert Groups(s, l) == [g] + Groups(rest, l);
      RunMembers(s, l, n);
      NoMarkerSlice(s, 0, n);
      NoMarkerSlice(s, n, |s|);
      SortedSuffix(s, l, n);
      RunInOrder(s, l, n);
      GroupsInOrder(rest, l);
      RunsCons(g, Groups(rest, l), rest, l);
    }
  }

  /** Putting an earlier run in front of runs that are in order. */
  lemma RunsCons(g: seq<Scored>, gs: seq<seq<Scored>>, rest: seq<Scored>, l: nat)
    requires RunsInOrder(gs, l) && Flatten(gs) == rest
    requires |g| > 0 && NoMarker(g) && forall x :: x in g ==> x == g[0] || Tie(l, g[0], x)
    requires forall x, y :: x in g && y in rest ==> Before(l)(x, y) && !Tie(l, x, y)
    ensures RunsInOrder([g] + gs, l)
  {
    RunsTiedCons(g, gs, l);
    RunsApartCons(g, gs, rest, l);
  }

  lemma RunsTiedCons(g: seq<Scored>, gs: seq<seq<Scored>>, l: nat)
    requires RunsTied(gs, l)
    requires |g| > 0 && NoMarker(g) && forall x :: x in g ==> x == g[0] || Tie(l, g[0], x)
    ensures RunsTied([g] + gs, l)
  {
    var all := [g] + gs;
    forall i | 0 <= i < |all|
      ensures |all[i]| > 0 && NoMarker(all[i]) && forall x :: x in all[i] ==> x == all[i][0] || Tie(l, all[i][0], x)
    {
      if i > 0 {
        assert all[i] == gs[i - 1];
      }
    }
  }

  lemma RunsApartCons(g: seq<Scored>, gs: seq<seq<Scored>>, rest: seq<Scored>, l: nat)
    requires RunsApart(gs, l) && Flatten(gs) == rest
    requires forall x, y :: x in g && y in rest ==> Before(l)(x, y) && !Tie(l, x, y)
    ensures RunsApart([g] + gs, l)
  {
    var all := [g] + gs;
    forall i, j, x, y | 0 <= i < j < |all| && x in all[i] && y in all[j]
      ensures Before(l)(x, y) && !Tie(l, x, y)
    {
      assert all[j] == gs[j - 1];
      if i == 0 {
        FlattenHas(gs, j - 1, y);
      } else {
        assert all[i] == gs[i - 1];
      }
    }
  }

  lemma FlattenHas<T>(gs: seq<seq<T>>, j: nat, y: T)
    requires j < |gs| && y in gs[j]
    ensures y in Flatten(gs)
  {
    if j > 0 {
      FlattenHas(gs[1..], j - 1, y);
    }
  }

  /** A refined run is in order: its members compare equal at `l` and the
    * refinement orders them from `l + 1` on. */
  lemma RunSorted(lead: Scored, g: seq<Scored>, head: seq<Scored>, l: nat)
    requires l <= MaxRecursionDepth
    requires multiset(head) == multiset(g)
    requires forall x :: x in g ==> x == lead || Tie(l, lead, x)
    requires |g| > 1 ==> LexSorted(head, l + 1)
    requires |g| <= 1 ==> head == g
    ensures LexSorted(head, l)
  {
    forall i, j | 0 <= i < j < |head| ensures LexGE(head[i], head[j], l) {
      assert head[i] in multiset(g) && head[j] in multiset(g);
      SameRun(lead, head[i], head[j], l);
    }
  }

  /** Every member of a refined run precedes every member of the refined
    * runs after it. */
  lemma CrossSorted(g: seq<Scored>, rest: seq<Scored>, head: seq<Scored>, tail: seq<Scored>, l: nat)
    requires multiset(head) == multiset(g) && multiset(tail) == multiset(rest)
    requires NoMarker(g)
    requires forall x, y :: x in g && y in rest ==> Before(l)(x, y) && !Tie(l, x, y)
    ensures forall x, y :: x in head && y in tail ==> LexGE(x, y, l)
  {
    forall x, y | x in head && y in tail ensures LexGE(x, y, l) {
      assert x in multiset(g) && y in multiset(rest);
      CrossRuns(x, y, l);
    }
  }

  /** Every member of the front run is its first pair or ties with it. */
  lemma RunMembers(s: seq<Scored>, l: nat, n: nat)
    requires 0 < n <= |s| && n == 1 + RunLength(s[1..], l, s[0])
    ensures forall x :: x in s[..n] ==> x == s[0] || Tie(l, s[0], x)
  {
    forall x | x in s[..n] ensures x == s[0] || Tie(l, s[0], x) {
      var k :| 0 <= k < n && s[..n][k] == x;
      if k > 0 {
        assert s[1..][k - 1] == x;
      }
    }
  }

  lemma NoMarkerSlice(s: seq<Scored>, i: nat, j: nat)
    requires NoMarker(s) && i <= j <= |s|
    ensures NoMarker(s[i..j])
  {
    assert forall x :: x in s[i..j] ==> x in s;
  }

  lemma SortedSuffix(s: seq<Scored>, l: nat, n: nat)
    requires SortedBy(s, Before(l)) && n <= |s|
    ensures SortedBy(s[n..], Before(l))
  {
    var rest := s[n..];
    forall i, j | 0 <= i < j < |rest| ensures Before(l)(rest[i], rest[j]) {
      assert rest[i] == s[n + i] && rest[j] == s[n + j];
    }
  }

  /** Two members of one run compare equal at `l`. */
  lemma SameRun(lead: Scored, x: Scored, y: Scored, l: nat)
    requires x == lead || Tie(l, lead, x)
    requires y == lead || Tie(l, lead, y)
    ensures ScoresCompare(l, x, y) == 0
  {
    assert ScoreAt(l, x) == ScoreAt(l, y);
    if HasScore(l, x) && HasScore(l, y) {
      CompareByScore(l, x, y);
    } else {
      assert !HasScore(l, x) && !HasScore(l, y);
    }
  }

  /** Pairs of different runs are in order at `l` and, when equal there,
    * both lack a score at `l`. */
  lemma CrossRuns(x: Scored, y: Scored, l: nat)
    requires Before(l)(x, y) && !Tie(l, x, y)
    requires forall k :: 0 <= k < |x.scores| ==> x.scores[k] != -1.0
    ensures LexGE(x, y, l)
  {
    if ScoresCompare(l, x, y) == 0 {
      CompareZero(l, x, y);
      if HasScore(l, x) {
        assert false;
      }
      LexGEShort(x, y, l);
    }
  }

  /** The run at the front of a sorted sequence precedes, and ties with
    * nothing in, the rest. */
  lemma RunInOrder(s: seq<Scored>, l: nat, n: nat)
    requires SortedBy(s, Before(l)) && NoMarker(s)
    requires 0 < n <= |s|
    requires forall k :: 0 < k < n ==> Tie(l, s[0], s[k])
    requires n < |s| ==> !Tie(l, s[0], s[n])
    ensures forall x, y :: x in s[..n] && y in s[n..] ==> Before(l)(x, y) && !Tie(l, x, y)
  {
    forall x, y | x in s[..n] && y in s[n..] ensures Before(l)(x, y) && !Tie(l, x, y) {
      var i :| 0 <= i < n && s[i] == x;
      var j :| 0 <= j < |s| - n && s[n..][j] == y;
      assert s[n + j] == y;
      assert Before(l)(x, y);
      if Tie(l, x, y) {
        assert Tie(l, s[0], y);
        assert HasScore(l, y) by { assert ScoreAt(l, y) != -1.0; }
        assert Before(l)(s[0], s[n]);
        if j > 0 {
          assert Before(l)(s[n], y);
        }
        if HasScore(l, s[n]) {
          CompareByScore(l, s[0], s[n]);
          CompareByScore(l, s[n], y);
          assert false;
        } else {
          CompareByLength(l, s[n], y);
          assert false;
        }
      }
    }
  }

  /** Two sorted pieces whose every cross pair is in order make a sorted
    * whole. */
  lemma LexConcat(a: seq<Scored>, b: seq<Scored>, l: nat)
    requires LexSorted(a, l) && LexSorted(b, l)
    requires forall x, y :: x in a && y in b ==> LexGE(x, y, l)
    ensures LexSorted(a + b, l)
  {
    var c := a + b;
    forall i, j | 0 <= i < j < |c| ensures LexGE(c[i], c[j], l) {
      if j < |a| {
        assert c[i] == a[i] && c[j] == a[j];
      } else if i >= |a| {
        assert c[i] == b[i - |a|] && c[j] == b[j - |a|];
      } else {
        assert c[i] == a[i] && c[j] == b[j - |a|];
      }
    }
  }

  // ---------------------------------------------------------------------
  // rankCandidates
  // ---------------------------------------------------------------------

  /** `lists[i]` lists the rules suggesting `listing[i]`. */
  ghost predicate Listed(lists: seq<seq<Rule>>, listing: seq<Pair>, pairToRules: map<Pair, set<Rule>>)
  {
    |lists| <= |listing| &&
    forall i :: 0 <= i < |lists| ==> Enumerates(lists[i], IO.RulesOf(pairToRules, listing[i]))
  }

  lemma ListedSnoc(lists: seq<seq<Rule>>, listing: seq<Pair>, pairToRules: map<Pair, set<Rule>>, rules: seq<Rule>)
    requires Listed(lists, listing, pairToRules) && |lists| < |listing|
    requires Enumerates(rules, IO.RulesOf(pairToRules, listing[|lists|]))
    ensures Listed(lists + [rules], listing, pairToRules)
  {
    var l2 := lists + [rules];
    forall i | 0 <= i < |l2| ensures Enumerates(l2[i], IO.RulesOf(pairToRules, listing[i])) {
      if i < |lists| {
        assert l2[i] == lists[i];
      }
    }
  }

  /** Each listed pair with the score vector of its listed rules. */
  function ScoredAll(listing: seq<Pair>, lists: seq<seq<Rule>>): (s: seq<Scored>)
    requires |lists| == |listing|
    reads set i, r | 0 <= i < |lists| && r in lists[i] :: r.stats
  {
    if listing == [] then []
    else [Scored(listing[0], ScoreVector(lists[0]))] + ScoredAll(listing[1..], lists[1..])
  }

  lemma {:induction false} ScoredAllAt(listing: seq<Pair>, lists: seq<seq<Rule>>)
    requires |lists| == |listing|
    ensures |ScoredAll(listing, lists)| == |listing|
    ensures forall k :: 0 <= k < |listing| ==> ScoredAll(listing, lists)[k] == Scored(listing[k], ScoreVector(lists[k]))
  {
    if listing != [] {
      ScoredAllAt(listing[1..], lists[1..]);
    }
  }

  /** rankCandidates: every candidate once (`listing` is the order the
    * candidate set is visited in), scored with the confidences of the
    * rules suggesting it (`lists[k]` lists those of `listing[k]`), then
    * ordered by sortTies from position 0. */
  method RankCandidates(candidates: set<Pair>, pairToRules: map<Pair, set<Rule>>)
    returns (ranked: seq<Scored>, ghost listing: seq<Pair>, ghost lists: seq<seq<Rule>>, ghost scored: seq<Scored>)
    ensures Enumerates(listing, candidates)
    ensures |lists| == |listing| && Listed(lists, listing, pairToRules)
    ensures scored == ScoredAll(listing, lists)
    ensures ranked == SortTies(scored, 0)
    ensures multiset(ranked) == multiset(scored)
    ensures NoMarker(scored) ==> LexSorted(ranked, 0)
  {
    var pairs := Enumerate(candidates);
    var ruleLists: seq<seq<Rule>> := [];
    var k := 0;
    while k < |pairs|
      invariant 0 <= k <= |pairs| && |ruleLists| == k
      invariant Listed(ruleLists, pairs, pairToRules)
    {
      var rules := Enumerate(IO.RulesOf(pairToRules, pairs[k]));
      ListedSnoc(ruleLists, pairs, pairToRules, rules);
      ruleLists := ruleLists + [rules];
      k := k + 1;
    }
    var vectors := ScoredAll(pairs, ruleLists);
    ranked := SortTies(vectors, 0);
    if NoMarker(vectors) {
      SortTiesLex(vectors, 0);
    }
    listing, lists, scored := pairs, ruleLists, vectors;
  }
}
