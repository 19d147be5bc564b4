// Scoring the instantiated children of an abstract rule against the ground
// truth (evaluateRule, evaluateTailRules and the qualification test), the
// closed-rule and open-rule statistics, and the multimaps from which the
// children's constants are drawn. A loop over a Java hash set or key set is
// a loop over a sequence that lists the set once per element (Enumerates):
// the visiting order is left open, as the hash-based collections leave it.
module Evaluation {
  import opened Common
  import opened Settings
  import opened Stats
  import opened Rules
  import opened Pairs
  import opened Counting

  // ---------------------------------------------------------------------
  // Qualification and the children's buckets
  // ---------------------------------------------------------------------

  /** qualified: enough support and enough confidence. */
  predicate QualifiedStats(support: real, sc: real)
  {
    support >= Support && sc >= StandardConf
  }

  /** A child is kept only once it has made a correct prediction and its
    * confidence is positive. */
  predicate Qualified(r: Rule)
    reads r.stats
    ensures Qualified(r) ==> r.stats.support >= 1.0 && r.stats.sc > 0.0
  {
    QualifiedStats(r.stats.support, r.stats.sc)
  }

  /** With the default thresholds a child with at least one correct
    * prediction out of at most 9995 is always kept, and a child without a
    * correct prediction never is. */
  lemma QualifiedByCounts(support: nat, total: nat)
    requires support <= total
    ensures support >= 1 && total <= 9995 ==> QualifiedStats(support as real, Confidence(support as real, total as real))
    ensures support == 0 ==> !QualifiedStats(support as real, Confidence(support as real, total as real))
  {
    if support >= 1 && total <= 9995 {
      var d := total as real + ConfidenceOffset;
      var c := support as real / d;
      assert c * d == support as real;
      assert d <= 10000.0;
      assert c * 10000.0 >= c * d;
    }
  }

  /** The three sets of children an abstract rule keeps. */
  datatype Bucket = HeadRules | TailRules | BothRules

  /** What one evaluation adds to bucket `b` of the base rule. */
  function Kept(bucket: Bucket, b: Bucket, rule: Rule, qualified: bool): set<Rule>
  {
    if b == bucket && qualified then {rule} else {}
  }

  /** rules.add(rule) on one of the buckets. */
  method Keep(base: Rule, bucket: Bucket, rule: Rule)
    modifies base
    ensures base.headRules == old(base.headRules) + Kept(bucket, HeadRules, rule, true)
    ensures base.tailRules == old(base.tailRules) + Kept(bucket, TailRules, rule, true)
    ensures base.bothRules == old(base.bothRules) + Kept(bucket, BothRules, rule, true)
  {
    match bucket
    case HeadRules => base.headRules := base.headRules + {rule};
    case TailRules => base.tailRules := base.tailRules + {rule};
    case BothRules => base.bothRules := base.bothRules + {rule};
  }

  // ---------------------------------------------------------------------
  // Scoring a child
  // ---------------------------------------------------------------------

  /** evaluateRule: the prediction loop, then the counts stored in the
    * child's statistics, the child kept if it qualifies, and whether the
    * loop stopped early reported. */
  method EvaluateRule(base: Rule, rule: Rule, gt: set<Pair>, anchoring: int, originals: seq<int>,
                      bucket: Bucket, counter: Counter) returns (earlyStop: bool)
    requires rule.stats.Valid()
    modifies rule.stats, base, counter
    ensures var n := Processed(|originals|, old(counter.count), PredictionCap);
      rule.stats.totalPredictions == n as real && counter.count == old(counter.count) + n &&
      rule.stats.support == Hits(Row(base.fromSubject, anchoring, originals)[..n], gt) as real
    ensures 0.0 <= rule.stats.support <= rule.stats.totalPredictions <= |originals| as real
    ensures rule.stats.groundTruth == |gt| as real && rule.stats.Valid()
    ensures rule.stats.sc == Confidence(rule.stats.support, rule.stats.totalPredictions)
    ensures rule.stats.hc == Ratio(rule.stats.support, rule.stats.groundTruth)
    ensures earlyStop <==> |originals| > 0 && counter.count > PredictionCap
    ensures base.headRules == old(base.headRules) + Kept(bucket, HeadRules, rule, Qualified(rule))
    ensures base.tailRules == old(base.tailRules) + Kept(bucket, TailRules, rule, Qualified(rule))
    ensures base.bothRules == old(base.bothRules) + Kept(bucket, BothRules, rule, Qualified(rule))
  {
    var correct, total;
    correct, total, earlyStop := CountRow(base.fromSubject, anchoring, originals, gt, counter);
    rule.SetStats(correct as real, total as real, |gt| as real);
    if Qualified(rule) {
      Keep(base, bucket, rule);
    }
  }

  /** evaluateTailRules: the prediction loops, the counts stored in the
    * child's statistics, the child kept if it qualifies, and whether the
    * loops stopped early reported. */
  method EvaluateTailRules(base: Rule, rule: Rule, gt: set<Pair>, anchorings: seq<int>, originals: seq<int>,
                           bucket: Bucket, counter: Counter) returns (earlyStop: bool)
    requires rule.stats.Valid()
    modifies rule.stats, base, counter
    ensures var preds := Predictions(base.fromSubject, anchorings, originals);
      var n := Processed(|preds|, old(counter.count), PredictionCap);
      rule.stats.totalPredictions == n as real && counter.count == old(counter.count) + n &&
      rule.stats.support == Hits(preds[..n], gt) as real
    ensures 0.0 <= rule.stats.support <= rule.stats.totalPredictions
    ensures rule.stats.groundTruth == |gt| as real && rule.stats.Valid()
    ensures rule.stats.sc == Confidence(rule.stats.support, rule.stats.totalPredictions)
    ensures rule.stats.hc == Ratio(rule.stats.support, rule.stats.groundTruth)
    ensures earlyStop <==> |Predictions(base.fromSubject, anchorings, originals)| > 0 && counter.count > PredictionCap
    ensures base.headRules == old(base.headRules) + Kept(bucket, HeadRules, rule, Qualified(rule))
    ensures base.tailRules == old(base.tailRules) + Kept(bucket, TailRules, rule, Qualified(rule))
    ensures base.bothRules == old(base.bothRules) + Kept(bucket, BothRules, rule, Qualified(rule))
  {
    var correct, total;
    correct, total, earlyStop := CountGrid(base.fromSubject, anchorings, originals, gt, counter);
    rule.SetStats(correct as real, total as real, |gt| as real);
    if Qualified(rule) {
      Keep(base, bucket, rule);
    }
  }

  // ---------------------------------------------------------------------
  // A closed abstract rule: one prediction per body grounding
  // ---------------------------------------------------------------------

  /** The head fact a grounding of a closed body predicts: the grounding
    * itself when the body starts at the head's subject, else reversed. */
  function Oriented(fromSubject: bool, grounding: Pair): Pair
  {
    if fromSubject then grounding else Flip(grounding)
  }

  function OrientedAll(fromSubject: bool, groundings: seq<Pair>): (r: seq<Pair>)
    ensures |r| == |groundings|
    ensures forall i :: 0 <= i < |r| ==> r[i] == Oriented(fromSubject, groundings[i])
  {
    seq(|groundings|, i requires 0 <= i < |groundings| => Oriented(fromSubject, groundings[i]))
  }

  /** The closed branch of GenSharedMethod and GenSpecSharedMethod: every
    * grounding is a prediction, counted correct when it is a ground-truth
    * fact, and the counts stored in the rule's statistics. */
  method EvaluateClosedRule(base: Rule, groundings: seq<Pair>, gt: set<Pair>)
    requires base.stats.Valid()
    modifies base.stats
    ensures base.stats.totalPredictions == |groundings| as real
    ensures base.stats.support == Hits(OrientedAll(base.fromSubject, groundings), gt) as real
    ensures base.stats.groundTruth == |gt| as real && base.stats.Valid()
    ensures base.stats.sc == Confidence(base.stats.support, base.stats.totalPredictions)
    ensures base.stats.hc == Ratio(base.stats.support, base.stats.groundTruth)
    ensures base.stats.headAnchoredSize == old(base.stats.headAnchoredSize)
  {
    ghost var preds := OrientedAll(base.fromSubject, groundings);
    var total, correct := 0, 0;
    var k := 0;
    while k < |groundings|
      invariant 0 <= k <= |groundings|
      invariant total == k && correct == Hits(preds[..k], gt)
      invariant unchanged(base.stats)
    {
      var grounding := groundings[k];
      var prediction := if base.fromSubject then grounding else Pair(grounding.obj, grounding.sub);
      assert preds[..k + 1] == preds[..k] + [prediction];
      HitsSnoc(preds[..k], prediction, gt);
      if prediction in gt {
        correct := correct + 1;
      }
      total := total + 1;
      k := k + 1;
    }
    assert preds[..k] == preds;
    base.SetStats(correct as real, total as real, |gt| as real);
  }

  lemma OrientedInvolutive(fromSubject: bool, p: Pair)
    ensures Oriented(fromSubject, Oriented(fromSubject, p)) == p
  {
  }

  /** Counting oriented predictions against the ground truth is counting
    * the groundings against the oriented ground truth. */
  lemma {:induction false} HitsOriented(fromSubject: bool, groundings: seq<Pair>, gt: set<Pair>, flipped: set<Pair>)
    requires flipped == set q | q in gt :: Oriented(fromSubject, q)
    ensures Hits(OrientedAll(fromSubject, groundings), gt) == Hits(groundings, flipped)
    decreases |groundings|
  {
    if groundings != [] {
      var n := |groundings| - 1;
      var last := groundings[n];
      assert OrientedAll(fromSubject, groundings)[..n] == OrientedAll(fromSubject, groundings[..n]);
      HitsOriented(fromSubject, groundings[..n], gt, flipped);
      OrientedInvolutive(fromSubject, last);
      if last in flipped {
        var q :| q in gt && Oriented(fromSubject, q) == last;
        OrientedInvolutive(fromSubject, q);
      }
    }
  }

  /** What the closed rule's counts mean: over a set of body groundings
    * listed once each, the rule makes one prediction per grounding and its
    * support is the number of groundings whose oriented fact is in the
    * ground truth. */
  lemma ClosedRuleCounts(fromSubject: bool, groundings: seq<Pair>, bodyGroundings: set<Pair>, gt: set<Pair>)
    requires Enumerates(groundings, bodyGroundings)
    ensures |groundings| == |bodyGroundings|
    ensures Hits(OrientedAll(fromSubject, groundings), gt) ==
      |set p | p in bodyGroundings && Oriented(fromSubject, p) in gt|
  {
    EnumeratesSize(groundings, bodyGroundings);
    var flipped := set q | q in gt :: Oriented(fromSubject, q);
    HitsOriented(fromSubject, groundings, gt, flipped);
    HitsOfDistinct(groundings, flipped);
    var kept := set p | p in bodyGroundings && Oriented(fromSubject, p) in gt;
    forall p | p in HitSet(groundings, flipped) ensures p in kept {
      var q :| q in gt && Oriented(fromSubject, q) == p;
      OrientedInvolutive(fromSubject, q);
    }
    forall p | p in kept ensures p in HitSet(groundings, flipped) {
      OrientedInvolutive(fromSubject, p);
      assert p in flipped;
      var i :| 0 <= i < |groundings| && groundings[i] == p;
    }
    assert HitSet(groundings, flipped) == kept;
  }

  // ---------------------------------------------------------------------
  // An open abstract rule: the sums over its head-anchored children
  // ---------------------------------------------------------------------

  function SupportSum(rs: seq<Rule>): real
    reads set r | r in rs :: r.stats
  {
    if rs == [] then 0.0 else SupportSum(rs[..|rs| - 1]) + rs[|rs| - 1].stats.support
  }

  function PredictionSum(rs: seq<Rule>): real
    reads set r | r in rs :: r.stats
  {
    if rs == [] then 0.0 else PredictionSum(rs[..|rs| - 1]) + rs[|rs| - 1].stats.totalPredictions
  }

  /** The ground-truth size of the child visited last (0 when there is none). */
  function LastGroundTruth(rs: seq<Rule>): real
    reads set r | r in rs :: r.stats
  {
    if rs == [] then 0.0 else rs[|rs| - 1].stats.groundTruth
  }

  /** evaluateOpenRule: the support and the predictions of the head-anchored
    * children summed, their count stored as headAnchoredSize, and the
    * totals stored in the rule's statistics (which then hold the local
    * average support as well). */
  method EvaluateOpenRule(base: Rule, order: seq<Rule>)
    requires Enumerates(order, base.headRules)
    requires base.stats.Valid()
    modifies base.stats
    ensures base.stats.support == old(SupportSum(order))
    ensures base.stats.totalPredictions == old(PredictionSum(order))
    ensures base.stats.groundTruth == old(LastGroundTruth(order))
    ensures base.stats.headAnchoredSize == |base.headRules| as real && base.stats.Valid()
    ensures base.stats.sc == Confidence(base.stats.support, base.stats.totalPredictions)
    ensures base.stats.hc == Ratio(base.stats.support, base.stats.groundTruth)
    ensures base.stats.localAvgSupport ==
      (if base.stats.openAbstract then Ratio(base.stats.support, |base.headRules| as real)
       else old(base.stats.localAvgSupport))
  {
    var correct, total, gtSize := 0.0, 0.0, 0.0;
    var k := 0;
    while k < |order|
      invariant 0 <= k <= |order|
      invariant correct == SupportSum(order[..k]) && total == PredictionSum(order[..k])
      invariant gtSize == LastGroundTruth(order[..k])
    {
      assert order[..k + 1][..k] == order[..k];
      var rule := order[k];
      correct := correct + rule.stats.support;
      total := total + rule.stats.totalPredictions;
      gtSize := rule.stats.groundTruth;
      k := k + 1;
    }
    assert order[..k] == order;
    base.stats.headAnchoredSize := |base.headRules| as real;
    base.SetStats(correct, total, gtSize);
  }

  /** Children with no more support than predictions sum to an open rule
    * with no more support than predictions. */
  lemma {:induction false} SumsBounded(rs: seq<Rule>)
    requires forall i :: 0 <= i < |rs| ==> 0.0 <= rs[i].stats.support <= rs[i].stats.totalPredictions
    ensures 0.0 <= SupportSum(rs) <= PredictionSum(rs)
    decreases |rs|
  {
    if rs != [] {
      SumsBounded(rs[..|rs| - 1]);
    }
  }

  /** Taking one child out of the listing takes its share out of both sums. */
  lemma {:induction false} SumsWithout(rs: seq<Rule>, j: nat)
    requires j < |rs|
    ensures SupportSum(rs) == SupportSum(rs[..j] + rs[j + 1..]) + rs[j].stats.support
    ensures PredictionSum(rs) == PredictionSum(rs[..j] + rs[j + 1..]) + rs[j].stats.totalPredictions
    decreases |rs|
  {
    var n := |rs| - 1;
    if j == n {
      assert rs[..j] + rs[j + 1..] == rs[..n];
    } else {
      var front := rs[..n];
      SumsWithout(front, j);
      assert rs[..j] + rs[j + 1..] == (front[..j] + front[j + 1..]) + [rs[n]];
      assert (rs[..j] + rs[j + 1..])[..n - 1] == front[..j] + front[j + 1..];
    }
  }

  /** The open rule's support and predictions do not depend on the order in
    * which the hash set of head-anchored children is visited. */
  lemma {:induction false} SumsOrderFree(a: seq<Rule>, b: seq<Rule>, children: set<Rule>)
    requires Enumerates(a, children) && Enumerates(b, children)
    ensures SupportSum(a) == SupportSum(b) && PredictionSum(a) == PredictionSum(b)
    decreases |a|
  {
    EnumeratesSize(a, children);
    EnumeratesSize(b, children);
    if a != [] {
      var n := |a| - 1;
      var last := a[n];
      assert last in children;
      var j :| 0 <= j < |b| && b[j] == last;
      var rest := children - {last};
      var a', b' := a[..n], b[..j] + b[j + 1..];
      assert Enumerates(a', rest) by {
        forall x | x in rest ensures x in a' {
          var i :| 0 <= i < |a| && a[i] == x;
          assert i != n;
        }
      }
      assert Enumerates(b', rest) by {
        forall x | x in rest ensures x in b' {
          var i :| 0 <= i < |b| && b[i] == x;
          assert i != j;
          if i < j { assert b'[i] == x; } else { assert b'[i - 1] == x; }
        }
        forall i, k | 0 <= i < k < |b'| ensures b'[i] != b'[k] {
          var i0 := if i < j then i else i + 1;
          var k0 := if k < j then k else k + 1;
          assert b'[i] == b[i0] && b'[k] == b[k0];
        }
      }
      SumsOrderFree(a', b', rest);
      SumsWithout(b, j);
    }
  }
}
