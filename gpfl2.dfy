// The GPFL2 engine's choice of which abstract rules to instantiate: all of
// the mined ones when the sample size is 0 or covers them, and otherwise the
// most frequent open rules, as many as the sample size allows, together with
// every closed rule.
module GPFL2 {
  import opened Common
  import opened Rules

  /** The mined renderings whose stored rule is closed. */
  function ClosedKeys(freq: map<string, nat>, keys: map<string, Rule>): (r: set<string>)
    requires freq.Keys <= keys.Keys
    ensures forall k :: k in r <==> k in freq && keys[k].closed
  {
    set k | k in freq && keys[k].closed
  }

  /** The mined renderings whose stored rule is open. */
  function OpenKeys(freq: map<string, nat>, keys: map<string, Rule>): (r: set<string>)
    requires freq.Keys <= keys.Keys
    ensures forall k :: k in r <==> k in freq && !keys[k].closed
  {
    set k | k in freq && !keys[k].closed
  }

  /** The frequency of a rendering, as a sort key. */
  function FrequencyOf(freq: map<string, nat>): string -> real
  {
    (k: string) => if k in freq then freq[k] as real else 0.0
  }

  /** The open rules, most frequent first, from the order in which the
    * open-rule hash set is streamed. */
  function RankedOpen(freq: map<string, nat>, openOrder: seq<string>): seq<string>
  {
    SortBy(openOrder, ByKeyDesc(FrequencyOf(freq)))
  }

  /** sampleRankedAbstractRules: `freq` is the rule-frequency table, `keys`
    * the rule stored for each of its renderings, and `openOrder` the order
    * in which the set of open renderings is visited. */
  function SampleRankedAbstractRules(freq: map<string, nat>, keys: map<string, Rule>, openOrder: seq<string>,
                                     sampleSize: nat): (r: set<string>)
    requires freq.Keys <= keys.Keys
    requires Enumerates(openOrder, OpenKeys(freq, keys))
    ensures r <= freq.Keys
    ensures ClosedKeys(freq, keys) <= r
    ensures sampleSize == 0 || sampleSize >= |freq.Keys| ==> r == freq.Keys
  {
    if sampleSize == 0 || sampleSize >= |freq.Keys| then freq.Keys
    else
      var top := Take(RankedOpen(freq, openOrder), sampleSize);
      SelectedAreOpen(freq, keys, openOrder, sampleSize);
      (set i | 0 <= i < |top| :: top[i]) + ClosedKeys(freq, keys)
  }

  /** The ranked listing holds the open renderings once each. */
  lemma RankedEnumerates(freq: map<string, nat>, keys: map<string, Rule>, openOrder: seq<string>)
    requires freq.Keys <= keys.Keys
    requires Enumerates(openOrder, OpenKeys(freq, keys))
    ensures Enumerates(RankedOpen(freq, openOrder), OpenKeys(freq, keys))
  {
    EnumeratesPermutation(openOrder, RankedOpen(freq, openOrder), OpenKeys(freq, keys));
  }

  /** Every rendering taken from the ranked listing is an open one. */
  lemma SelectedAreOpen(freq: map<string, nat>, keys: map<string, Rule>, openOrder: seq<string>, n: nat)
    requires freq.Keys <= keys.Keys
    requires Enumerates(openOrder, OpenKeys(freq, keys))
    ensures forall k :: k in Take(RankedOpen(freq, openOrder), n) ==> k in OpenKeys(freq, keys)
  {
    RankedEnumerates(freq, keys, openOrder);
    EnumeratesMembers(RankedOpen(freq, openOrder), OpenKeys(freq, keys));
  }

  /** The open renderings in a sample. */
  function SampledOpen(r: set<string>, freq: map<string, nat>, keys: map<string, Rule>): set<string>
    requires freq.Keys <= keys.Keys
  {
    r * OpenKeys(freq, keys)
  }

  /** A prefix of a listing without repeats lists its own elements. */
  lemma TakeEnumerates<T>(xs: seq<T>, n: nat)
    requires Distinct(xs)
    ensures Enumerates(Take(xs, n), set i | 0 <= i < |Take(xs, n)| :: Take(xs, n)[i])
  {
  }

  /** When the sample is smaller than the table, it holds exactly
    * min(sampleSize, number of open rules) open rules. */
  lemma SampleCountsOpen(freq: map<string, nat>, keys: map<string, Rule>, openOrder: seq<string>, sampleSize: nat)
    requires freq.Keys <= keys.Keys
    requires Enumerates(openOrder, OpenKeys(freq, keys))
    requires 0 < sampleSize < |freq.Keys|
    ensures |SampledOpen(SampleRankedAbstractRules(freq, keys, openOrder, sampleSize), freq, keys)| ==
            Min(sampleSize, |OpenKeys(freq, keys)|)
  {
    var ranked := RankedOpen(freq, openOrder);
    var top := Take(ranked, sampleSize);
    var chosen := set i | 0 <= i < |top| :: top[i];
    RankedEnumerates(freq, keys, openOrder);
    SelectedAreOpen(freq, keys, openOrder, sampleSize);
    EnumeratesSize(ranked, OpenKeys(freq, keys));
    TakeEnumerates(ranked, sampleSize);
    EnumeratesSize(top, chosen);
    var r := SampleRankedAbstractRules(freq, keys, openOrder, sampleSize);
    assert SampledOpen(r, freq, keys) == chosen by {
      forall k | k in chosen ensures k in OpenKeys(freq, keys) {
        var i :| 0 <= i < |top| && top[i] == k;
        assert k in top;
      }
    }
  }

  /** Every open rule in the sample is at least as frequent as every open
    * rule left out of it. */
  lemma SampleKeepsMostFrequent(freq: map<string, nat>, keys: map<string, Rule>, openOrder: seq<string>,
                                sampleSize: nat, a: string, b: string)
    requires freq.Keys <= keys.Keys
    requires Enumerates(openOrder, OpenKeys(freq, keys))
    requires 0 < sampleSize < |freq.Keys|
    requires a in SampledOpen(SampleRankedAbstractRules(freq, keys, openOrder, sampleSize), freq, keys)
    requires b in OpenKeys(freq, keys) - SampleRankedAbstractRules(freq, keys, openOrder, sampleSize)
    ensures freq[a] >= freq[b]
  {
    var ranked := RankedOpen(freq, openOrder);
    var top := Take(ranked, sampleSize);
    RankedEnumerates(freq, keys, openOrder);
    EnumeratesMembers(ranked, OpenKeys(freq, keys));
    SortByKeyDesc(openOrder, FrequencyOf(freq));
    var i :| 0 <= i < |top| && top[i] == a;
    assert a == ranked[i];
    var j :| 0 <= j < |ranked| && ranked[j] == b;
    assert b !in top;
    assert j >= |top|;
    assert FrequencyOf(freq)(ranked[i]) >= FrequencyOf(freq)(ranked[j]);
  }
}
