// The prediction loops by which a child rule is scored: the predictions an
// anchoring and a list of originals make, how many of them a loop capped by
// a shared counter gets through, and how many are ground-truth facts.
module Counting {
  import opened Common
  import opened Settings
  import opened Pairs

  // ---------------------------------------------------------------------
  // Predictions and how many of them a capped loop makes
  // ---------------------------------------------------------------------

  /** The fact a grounding of the body from `original` predicts for the
    * head anchored at `anchoring`. */
  function Prediction(fromSubject: bool, original: int, anchoring: int): Pair
  {
    if fromSubject then Pair(original, anchoring) else Pair(anchoring, original)
  }

  /** The predictions for one anchoring, one per original, in loop order. */
  function Row(fromSubject: bool, anchoring: int, originals: seq<int>): (r: seq<Pair>)
    ensures |r| == |originals|
    ensures forall j :: 0 <= j < |originals| ==> r[j] == Prediction(fromSubject, originals[j], anchoring)
  {
    seq(|originals|, j requires 0 <= j < |originals| => Prediction(fromSubject, originals[j], anchoring))
  }

  /** The predictions of the nested loop of evaluateTailRules, anchoring by
    * anchoring. */
  function Predictions(fromSubject: bool, anchorings: seq<int>, originals: seq<int>): seq<Pair>
  {
    if anchorings == [] then []
    else Predictions(fromSubject, anchorings[..|anchorings| - 1], originals) +
         Row(fromSubject, anchorings[|anchorings| - 1], originals)
  }

  lemma PredictionsSnoc(fromSubject: bool, anchorings: seq<int>, originals: seq<int>, i: nat)
    requires i < |anchorings|
    ensures Predictions(fromSubject, anchorings[..i + 1], originals) ==
      Predictions(fromSubject, anchorings[..i], originals) + Row(fromSubject, anchorings[i], originals)
  {
    assert anchorings[..i + 1][..i] == anchorings[..i];
  }

  /** The predictions for a prefix of the anchorings are a prefix of all
    * predictions. */
  lemma {:induction false} PredictionsPrefix(fromSubject: bool, anchorings: seq<int>, originals: seq<int>, i: nat)
    requires i <= |anchorings|
    ensures Predictions(fromSubject, anchorings[..i], originals) <= Predictions(fromSubject, anchorings, originals)
    decreases |anchorings| - i
  {
    if i < |anchorings| {
      PredictionsPrefix(fromSubject, anchorings, originals, i + 1);
      PredictionsSnoc(fromSubject, anchorings, originals, i);
    } else {
      assert anchorings[..i] == anchorings;
    }
  }

  /** One anchoring's row, stopped after `t` originals or complete, extends
    * the predictions made so far to a prefix of all predictions, and to the
    * predictions for one more anchoring when it is complete. */
  lemma GridStep(fromSubject: bool, anchorings: seq<int>, originals: seq<int>, i: nat, t: nat, gt: set<Pair>)
    requires i < |anchorings| && t <= |originals|
    ensures var done := Predictions(fromSubject, anchorings[..i], originals);
      var row := Row(fromSubject, anchorings[i], originals);
      done + row[..t] <= Predictions(fromSubject, anchorings, originals) &&
      (t == |originals| ==> done + row[..t] == Predictions(fromSubject, anchorings[..i + 1], originals)) &&
      Hits(done + row[..t], gt) == Hits(done, gt) + Hits(row[..t], gt)
  {
    PredictionsPrefix(fromSubject, anchorings, originals, i + 1);
    PredictionsSnoc(fromSubject, anchorings, originals, i);
    var row := Row(fromSubject, anchorings[i], originals);
    assert row[..|originals|] == row;
    HitsAppend(Predictions(fromSubject, anchorings[..i], originals), row[..t], gt);
  }

  /** The end of the loops: the predictions made are those of every
    * anchoring, or a prefix of them. */
  lemma GridEnd(fromSubject: bool, anchorings: seq<int>, originals: seq<int>, done: seq<Pair>, complete: bool)
    requires complete ==> done == Predictions(fromSubject, anchorings[..|anchorings|], originals)
    requires done <= Predictions(fromSubject, anchorings, originals)
    ensures done == Predictions(fromSubject, anchorings, originals)[..|done|]
    ensures complete ==> done == Predictions(fromSubject, anchorings, originals)
  {
    assert anchorings[..|anchorings|] == anchorings;
  }

  /** How many predictions a loop that ticks a shared counter, starting at
    * `start`, makes out of `len` before it stops: all of them, or the first
    * one after which the counter exceeds `cap`. */
  function Processed(len: nat, start: int, cap: int): (n: nat)
    ensures n <= len && (len > 0 ==> n >= 1)
    ensures n == len || start + n > cap
    ensures n >= 2 ==> start + n - 1 <= cap
  {
    if len == 0 then 0
    else if start + len <= cap then len
    else if cap + 1 - start >= 1 then cap + 1 - start
    else 1
  }

  /** A capped loop that ended after `total` predictions, early or not,
    * made Processed(len, start, cap) of them. */
  lemma ProcessedAt(len: nat, start: int, cap: int, total: nat, stopped: bool)
    requires total <= len
    requires stopped ==> start + total > cap && total >= 1 && (total == 1 || start + total - 1 <= cap)
    requires !stopped ==> total == len && (total == 0 || start + total <= cap)
    ensures total == Processed(len, start, cap)
  {
  }

  /** The two ways such a loop can end: it made every prediction, or it
    * stopped early; it stops early exactly when the counter ends above the
    * cap. */
  lemma ProcessedStops(len: nat, start: int, cap: int)
    ensures Processed(len, start, cap) < len ==> start + Processed(len, start, cap) > cap
    ensures start + len <= cap ==> Processed(len, start, cap) == len
    ensures len > 0 && start >= cap ==> Processed(len, start, cap) == 1
  {
  }

  /** The number of predictions that are ground-truth facts. */
  function Hits(ps: seq<Pair>, gt: set<Pair>): (n: nat)
    ensures n <= |ps|
  {
    if ps == [] then 0
    else Hits(ps[..|ps| - 1], gt) + (if ps[|ps| - 1] in gt then 1 else 0)
  }

  lemma HitsSnoc(ps: seq<Pair>, p: Pair, gt: set<Pair>)
    ensures Hits(ps + [p], gt) == Hits(ps, gt) + (if p in gt then 1 else 0)
  {
    assert (ps + [p])[..|ps|] == ps;
  }

  lemma {:induction false} HitsAppend(a: seq<Pair>, b: seq<Pair>, gt: set<Pair>)
    ensures Hits(a + b, gt) == Hits(a, gt) + Hits(b, gt)
    decreases |b|
  {
    if b != [] {
      var front, last := b[..|b| - 1], b[|b| - 1];
      assert b == front + [last];
      assert a + b == (a + front) + [last];
      HitsAppend(a, front, gt);
      HitsSnoc(a + front, last, gt);
      HitsSnoc(front, last, gt);
    } else {
      assert a + b == a;
    }
  }

  /** The elements of a sequence that satisfy a set membership. */
  function HitSet(ps: seq<Pair>, gt: set<Pair>): set<Pair>
  {
    set i | 0 <= i < |ps| && ps[i] in gt :: ps[i]
  }

  lemma HitSetSnoc(ps: seq<Pair>, p: Pair, gt: set<Pair>)
    ensures HitSet(ps + [p], gt) == HitSet(ps, gt) + (if p in gt then {p} else {})
  {
    var qs := ps + [p];
    forall x | x in HitSet(qs, gt) ensures x in HitSet(ps, gt) + (if p in gt then {p} else {}) {
      var i :| 0 <= i < |qs| && qs[i] in gt && qs[i] == x;
      if i < |ps| { assert ps[i] == x; }
    }
    forall x | x in HitSet(ps, gt) ensures x in HitSet(qs, gt) {
      var i :| 0 <= i < |ps| && ps[i] in gt && ps[i] == x;
      assert qs[i] == x;
    }
    if p in gt {
      assert qs[|ps|] == p;
    }
  }

  /** Over distinct predictions, the hit count is the number of distinct
    * predicted facts in the ground truth. */
  lemma {:induction false} HitsOfDistinct(ps: seq<Pair>, gt: set<Pair>)
    requires Distinct(ps)
    ensures Hits(ps, gt) == |HitSet(ps, gt)|
  {
    if ps != [] {
      var front, last := ps[..|ps| - 1], ps[|ps| - 1];
      assert ps == front + [last];
      assert Distinct(front);
      HitsOfDistinct(front, gt);
      HitSetSnoc(front, last, gt);
      HitsSnoc(front, last, gt);
      forall x | x in HitSet(front, gt) ensures x != last {
        var i :| 0 <= i < |front| && front[i] in gt && front[i] == x;
        assert ps[i] == x;
      }
    }
  }

  /** The counter the evaluation loops of one rule kind share (also the
    * model of a static int counter that is only ticked and zeroed). */
  class Counter {
    var count: int

    constructor()
      ensures count == 0
    {
      count := 0;
    }

    method Tick()
      modifies this
      ensures count == old(count) + 1
    {
      count := count + 1;
    }

    method Reset()
      modifies this
      ensures count == 0
    {
      count := 0;
    }
  }

  /** The prediction loop of evaluateRule: predicts (original, anchoring)
    * for each original in turn, counting the ground-truth facts among them,
    * ticking the shared counter and stopping once it passes the prediction
    * cap. */
  method CountRow(fromSubject: bool, anchoring: int, originals: seq<int>, gt: set<Pair>, counter: Counter)
    returns (correct: nat, total: nat, earlyStop: bool)
    modifies counter
    ensures total == Processed(|originals|, old(counter.count), PredictionCap)
    ensures counter.count == old(counter.count) + total
    ensures correct == Hits(Row(fromSubject, anchoring, originals)[..total], gt)
    ensures earlyStop <==> |originals| > 0 && counter.count > PredictionCap
  {
    ghost var start := counter.count;
    ghost var preds := Row(fromSubject, anchoring, originals);
    earlyStop := false;
    correct, total := 0, 0;
    while total < |originals|
      invariant total <= |originals| && counter.count == start + total
      invariant correct == Hits(preds[..total], gt)
      invariant total == 0 || start + total <= PredictionCap
    {
      var prediction := Prediction(fromSubject, originals[total], anchoring);
      assert preds[..total + 1] == preds[..total] + [prediction];
      HitsSnoc(preds[..total], prediction, gt);
      if prediction in gt {
        correct := correct + 1;
      }
      total := total + 1;
      counter.Tick();
      if counter.count > PredictionCap {
        earlyStop := true;
        break;
      }
    }
  }

  /** The prediction loops of evaluateTailRules: the loop of evaluateRule
    * for every anchoring in turn, where an early stop leaves both loops. */
  method CountGrid(fromSubject: bool, anchorings: seq<int>, originals: seq<int>, gt: set<Pair>, counter: Counter)
    returns (correct: nat, total: nat, earlyStop: bool)
    modifies counter
    ensures total == Processed(|Predictions(fromSubject, anchorings, originals)|, old(counter.count), PredictionCap)
    ensures counter.count == old(counter.count) + total
    ensures correct == Hits(Predictions(fromSubject, anchorings, originals)[..total], gt)
    ensures earlyStop <==> |Predictions(fromSubject, anchorings, originals)| > 0 && counter.count > PredictionCap
  {
    ghost var start := counter.count;
    ghost var done: seq<Pair> := [];
    earlyStop := false;
    correct, total := 0, 0;
    var i := 0;
    while i < |anchorings|
      invariant 0 <= i <= |anchorings|
      invariant done == Predictions(fromSubject, anchorings[..i], originals)
      invariant done <= Predictions(fromSubject, anchorings, originals)
      invariant total == |done| && counter.count == start + total && correct == Hits(done, gt)
      invariant total == 0 || start + total <= PredictionCap
      invariant !earlyStop
    {
      var c, t, stop := CountRow(fromSubject, anchorings[i], originals, gt, counter);
      GridStep(fromSubject, anchorings, originals, i, t, gt);
      done := done + Row(fromSubject, anchorings[i], originals)[..t];
      correct, total := correct + c, total + t;
      if stop {
        earlyStop := true;
        break;
      }
      i := i + 1;
    }
    GridEnd(fromSubject, anchorings, originals, done, !earlyStop);
    assert Predictions(fromSubject, anchorings, originals)[..total] == done;
    ProcessedAt(|Predictions(fromSubject, anchorings, originals)|, start, PredictionCap, total, earlyStop);
  }
}
