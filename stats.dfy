// The quality measures of a rule: support, standard confidence smoothed by
// a constant offset, head coverage and the local average support of an open
// abstract rule. Doubles are modelled as reals.
module Stats {
  import opened Settings

  /** x / y, where the division by zero that Java turns into NaN or Infinity
    * is taken as 0. */
  function Ratio(x: real, y: real): (r: real)
    ensures y != 0.0 ==> r * y == x
    ensures y == 0.0 ==> r == 0.0
  {
    if y == 0.0 then 0.0 else x / y
  }

  /** Standard confidence with `offset` added to the number of predictions. */
  function SmoothedConfidence(support: real, total: real, offset: real): real
  {
    Ratio(support, total + offset)
  }

  /** The confidence RuleStats.compute assigns to `sc`. */
  function Confidence(support: real, total: real): (r: real)
    ensures total >= 0.0 ==> r * (total + ConfidenceOffset as real) == support
  {
    SmoothedConfidence(support, total, ConfidenceOffset as real)
  }

  /** For a fixed number of predictions, more support never lowers the
    * smoothed confidence. */
  lemma ConfidenceMonotone(s1: real, s2: real, total: real, offset: real)
    requires total >= 0.0 && offset > 0.0 && s1 <= s2
    ensures SmoothedConfidence(s1, total, offset) <= SmoothedConfidence(s2, total, offset)
  {
    var d := total + offset;
    assert s1 / d <= s2 / d by {
      assert s2 / d - s1 / d == (s2 - s1) / d;
    }
  }

  /** A positive offset makes the smoothed confidence strictly smaller than
    * the plain ratio support / predictions. */
  lemma ConfidenceBelowRatio(support: real, total: real, offset: real)
    requires total > 0.0 && offset > 0.0 && support > 0.0
    ensures SmoothedConfidence(support, total, offset) < support / total
  {
    var d := total + offset;
    var c := support / d;
    assert c * d == support;
    assert c * total < support by {
      assert c * total == support - c * offset;
      assert c > 0.0;
    }
    assert c < support / total by {
      assert (support / total) * total == support;
    }
  }

  /** When no more facts are supported than predicted, the confidence is a
    * proper fraction. */
  lemma ConfidenceIsFraction(support: real, total: real, offset: real)
    requires 0.0 <= support <= total && offset > 0.0
    ensures 0.0 <= SmoothedConfidence(support, total, offset) < 1.0
  {
    var d := total + offset;
    var c := support / d;
    assert c * d == support;
    assert c >= 0.0;
    assert support < d;
    assert (1.0 - c) * d == d - support;
  }

  /** The statistics of one rule. `openAbstract` records whether the rule
    * they belong to is an open abstract rule, the only kind whose local
    * average support is computed. */
  class RuleStats {
    const openAbstract: bool
    var support: real
    var sc: real
    var hc: real
    var groundTruth: real
    var totalPredictions: real
    var headAnchoredSize: real
    var localAvgSupport: real

    /** Only an open abstract rule ever has a local average support. */
    predicate Valid()
      reads this
    {
      !openAbstract ==> localAvgSupport == 0.0
    }

    constructor(openAbstract: bool)
      ensures this.openAbstract == openAbstract
      ensures support == 0.0 && sc == 0.0 && hc == 0.0 && groundTruth == 0.0
      ensures totalPredictions == 0.0 && headAnchoredSize == 0.0 && localAvgSupport == 0.0
      ensures Valid()
    {
      this.openAbstract := openAbstract;
      support, sc, hc, groundTruth := 0.0, 0.0, 0.0, 0.0;
      totalPredictions, headAnchoredSize, localAvgSupport := 0.0, 0.0, 0.0;
    }

    /** compute: the derived measures from support, totalPredictions,
      * groundTruth and headAnchoredSize. */
    method Compute()
      requires Valid()
      modifies this
      ensures Valid()
      ensures sc == Confidence(support, totalPredictions)
      ensures hc == Ratio(support, groundTruth)
      ensures localAvgSupport == (if openAbstract then Ratio(support, headAnchoredSize) else old(localAvgSupport))
      ensures support == old(support) && groundTruth == old(groundTruth)
      ensures totalPredictions == old(totalPredictions) && headAnchoredSize == old(headAnchoredSize)
    {
      sc := Ratio(support, totalPredictions + ConfidenceOffset as real);
      hc := Ratio(support, groundTruth);
      if openAbstract {
        localAvgSupport := Ratio(support, headAnchoredSize);
      }
    }
  }
}
