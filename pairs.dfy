// Pairs of node ids: the predictions, ground-truth facts and groundings the
// learner counts, and the score vectors the ranker compares them by.
module Pairs {
  import opened Common

  /** A (subject, object) pair of node ids; equality is equality of both ids. */
  datatype Pair = Pair(sub: int, obj: int)

  predicate IsSelfloop(p: Pair)
    ensures IsSelfloop(p) <==> Flip(p) == p
  {
    p.sub == p.obj
  }

  /** The pair read the other way round. */
  function Flip(p: Pair): Pair { Pair(p.obj, p.sub) }

  /** Pair.hashCode: `(int) (sub * 20 + obj * 31)`. The product is taken in
    * 64-bit arithmetic and then narrowed to 32 bits; since 2^32 divides 2^64
    * the result is the 32-bit wrap of the exact value. */
  function PairHash(p: Pair): (h: int)
    ensures IsInt32(h)
    ensures (h - (20 * p.sub + 31 * p.obj)) % TwoTo32 == 0
  {
    Wrap32(20 * p.sub + 31 * p.obj)
  }

  /** Equal pairs hash alike: the hash depends on nothing but the two ids. */
  lemma PairHashConsistent(p: Pair, q: Pair)
    requires p.sub == q.sub && p.obj == q.obj
    ensures p == q && PairHash(p) == PairHash(q)
  {
  }

  /** The hash is not injective, so hash-based sets still compare pairs with
    * equality. */
  lemma PairHashCollides()
    ensures Pair(31, 0) != Pair(0, 20) && PairHash(Pair(31, 0)) == PairHash(Pair(0, 20))
  {
  }

  lemma FlipInvolutive(p: Pair)
    ensures Flip(Flip(p)) == p
    ensures IsSelfloop(p) <==> Flip(p) == p
  {
  }

  /** A candidate pair together with the confidences of the rules that
    * suggest it, highest first (the `scores` array). */
  datatype Scored = Scored(pair: Pair, scores: seq<real>)

  predicate HasScore(l: nat, s: Scored) { l < |s.scores| }

  /** The score at position `l`, where a missing score counts as -1 (the
    * convention of partition and createTies). */
  function ScoreAt(l: nat, s: Scored): real
  {
    if HasScore(l, s) then s.scores[l] else -1.0
  }

  /** Pair.scoresComparator(l): negative when `a` goes first. */
  function ScoresCompare(l: nat, a: Scored, b: Scored): (c: int)
    ensures -1 <= c <= 1
  {
    if |a.scores| > l && |b.scores| > l then
      var d := b.scores[l] - a.scores[l];
      if d > 0.0 then 1 else if d < 0.0 then -1 else 0
    else
      var d := |b.scores| - |a.scores|;
      if d > 0 then 1 else if d < 0 then -1 else 0
  }

  /** `a` may precede `b` in a list sorted with scoresComparator(l). */
  function Before(l: nat): (Scored, Scored) -> bool
  {
    (a: Scored, b: Scored) => ScoresCompare(l, a, b) <= 0
  }

  /** Two pairs with a score at `l` are ordered by that score, highest first. */
  lemma CompareByScore(l: nat, a: Scored, b: Scored)
    requires HasScore(l, a) && HasScore(l, b)
    ensures ScoresCompare(l, a, b) < 0 <==> a.scores[l] > b.scores[l]
    ensures ScoresCompare(l, a, b) == 0 <==> a.scores[l] == b.scores[l]
    ensures ScoresCompare(l, a, b) > 0 <==> a.scores[l] < b.scores[l]
  {
  }

  /** Otherwise the longer score vector goes first; in particular a pair
    * with a score at `l` precedes every pair without one. */
  lemma CompareByLength(l: nat, a: Scored, b: Scored)
    requires !(HasScore(l, a) && HasScore(l, b))
    ensures ScoresCompare(l, a, b) < 0 <==> |a.scores| > |b.scores|
    ensures ScoresCompare(l, a, b) == 0 <==> |a.scores| == |b.scores|
    ensures HasScore(l, a) ==> ScoresCompare(l, a, b) == -1
  {
  }

  lemma CompareAntisymmetric(l: nat, a: Scored, b: Scored)
    ensures ScoresCompare(l, a, b) == -ScoresCompare(l, b, a)
  {
  }

  /** The comparator is a total preorder, so sorting with it sorts. */
  lemma BeforeIsTotalPreorder(s: seq<Scored>, l: nat)
    ensures TotalPreorderOn(s, Before(l))
  {
    forall a, b, c | a in s && b in s && c in s && Before(l)(a, b) && Before(l)(b, c)
      ensures Before(l)(a, c)
    {
    }
  }

  /** Comparator 0 means the same score at `l`, or no score at `l` and
    * vectors of the same length. */
  lemma CompareZero(l: nat, a: Scored, b: Scored)
    requires ScoresCompare(l, a, b) == 0
    ensures HasScore(l, a) <==> HasScore(l, b)
    ensures ScoreAt(l, a) == ScoreAt(l, b)
    ensures !HasScore(l, a) ==> |a.scores| == |b.scores|
  {
  }
}
