// The line layouts GPFL reads and writes (the IO utility class): rules
// ranked by standard confidence, the rule file, the predicted-facts and
// verification files, and the instance files. A file is the sequence of its
// lines; how a number is rendered (Double.toString, DecimalFormat) is the
// parameter `show`, and node names come from the graph's name map.
module IO {
  import opened Common
  import opened Graphs
  import opened Pairs
  import opened Stats
  import opened Rules
  import opened Settings

  // ---------------------------------------------------------------------
  // Ranking rules by standard confidence
  // ---------------------------------------------------------------------

  /** The objects holding the statistics of the listed rules. */
  function StatsOf(rules: seq<Rule>): set<RuleStats>
  {
    set r | r in rules :: r.stats
  }

  /** The sc of each listed rule, read once, as a sort key. */
  function ScKey(rules: seq<Rule>): (key: Rule -> real)
    reads StatsOf(rules)
    ensures forall r :: r in rules ==> key(r) == r.stats.sc
  {
    var m := map r | r in rules :: r.stats.sc;
    (r: Rule) => if r in m then m[r] else 0.0
  }

  /** ruleComparatorBySC: negative when `a` goes first. */
  function RuleComparatorBySC(a: Rule, b: Rule): (c: int)
    reads a.stats, b.stats
    ensures c < 0 <==> a.stats.sc > b.stats.sc
    ensures c > 0 <==> b.stats.sc > a.stats.sc
  {
    if b.stats.sc > a.stats.sc then 1 else if a.stats.sc > b.stats.sc then -1 else 0
  }

  /** The comparator puts the higher sc first, is antisymmetric, and lets
    * `a` precede `b` exactly when the descending sc order does. */
  lemma ComparatorIsDescendingSc(rules: seq<Rule>, a: Rule, b: Rule)
    requires a in rules && b in rules
    ensures RuleComparatorBySC(a, b) < 0 <==> a.stats.sc > b.stats.sc
    ensures RuleComparatorBySC(a, b) == 0 <==> a.stats.sc == b.stats.sc
    ensures RuleComparatorBySC(a, b) == -RuleComparatorBySC(b, a)
    ensures RuleComparatorBySC(a, b) <= 0 <==> ByKeyDesc(ScKey(rules))(a, b)
  {
  }

  /** rankedRulesBySC: the rules (listed in the order the collection yields
    * them) stably sorted with ruleComparatorBySC. */
  function RankedRulesBySC(rules: seq<Rule>): (ranked: seq<Rule>)
    reads StatsOf(rules)
    ensures multiset(ranked) == multiset(rules) && |ranked| == |rules|
    ensures forall i, j :: 0 <= i < j < |ranked| ==> ranked[i].stats.sc >= ranked[j].stats.sc
  {
    var key := ScKey(rules);
    SortByKeyDesc(rules, key);
    var sorted := SortBy(rules, ByKeyDesc(key));
    assert forall i :: 0 <= i < |sorted| ==> sorted[i] in rules by {
      forall i | 0 <= i < |sorted| ensures sorted[i] in rules {
        assert sorted[i] in multiset(sorted);
      }
    }
    assert |sorted| == |multiset(sorted)| == |multiset(rules)| == |rules|;
    sorted
  }

  /** The first `k` of a list sorted by descending sc have an sc no lower
    * than any rule of the list left out. */
  lemma TopOfRanked(ranked: seq<Rule>, k: nat, r: Rule, q: Rule)
    requires forall i, j :: 0 <= i < j < |ranked| ==> ranked[i].stats.sc >= ranked[j].stats.sc
    requires r in Take(ranked, k) && q in ranked && q !in Take(ranked, k)
    ensures r.stats.sc >= q.stats.sc
  {
    var t := Take(ranked, k);
    var i :| 0 <= i < |t| && t[i] == r;
    var j :| 0 <= j < |ranked| && ranked[j] == q;
  }

  /** A ranking of a listing of a set lists that set: each member once. */
  lemma RankedListsSet(rules: seq<Rule>, s: set<Rule>)
    requires Enumerates(rules, s)
    ensures Enumerates(RankedRulesBySC(rules), s)
  {
    EnumeratesPermutation(rules, RankedRulesBySC(rules), s);
  }

  /** The first `k` of a set of rules ranked by sc (the shape of
    * `rankedRulesBySC(rules).subList(0, Math.min(rules.size(), k))`): as
    * many distinct rules of `s` as there are up to `k`, highest sc first,
    * none with a lower sc than a rule of `s` left out. */
  ghost predicate IsRankedTop(s: set<Rule>, top: seq<Rule>, k: nat)
    reads set x | x in s :: x.stats
  {
    Distinct(top) && |top| == Min(k, |s|) &&
    (forall r :: r in top ==> r in s) &&
    (forall i, j :: 0 <= i < j < |top| ==> top[i].stats.sc >= top[j].stats.sc) &&
    (forall r, q :: r in top && q in s && q !in top ==> r.stats.sc >= q.stats.sc)
  }

  /** The first `k` of a listing ranked by sc. */
  function RankedTop(listing: seq<Rule>, k: nat): (top: seq<Rule>)
    reads StatsOf(listing)
    ensures |top| == Min(k, |listing|)
  {
    Take(RankedRulesBySC(listing), k)
  }

  /** Of any listing of a set of rules, RankedTop takes the ranked top. */
  lemma RankedTopChosen(listing: seq<Rule>, s: set<Rule>, k: nat)
    requires Enumerates(listing, s)
    ensures IsRankedTop(s, RankedTop(listing, k), k)
  {
    var ranked := RankedRulesBySC(listing);
    RankedListsSet(listing, s);
    EnumeratesSize(listing, s);
    EnumeratesMembers(ranked, s);
    TopOfListing(ranked, s, k);
    assert RankedTop(listing, k) == Take(ranked, k);
  }

  /** The first `k` of a listing of `s` ranked by sc are rules of `s`
    * without repeats, highest sc first, none below a rule of `s` left out. */
  lemma TopOfListing(ranked: seq<Rule>, s: set<Rule>, k: nat)
    requires Distinct(ranked) && |ranked| == |s| && forall x :: x in ranked <==> x in s
    requires forall i, j :: 0 <= i < j < |ranked| ==> ranked[i].stats.sc >= ranked[j].stats.sc
    ensures IsRankedTop(s, Take(ranked, k), k)
  {
    var top := Take(ranked, k);
    assert top == ranked[..|top|];
    forall r, q | r in top && q in s && q !in top ensures r.stats.sc >= q.stats.sc {
      TopOfRanked(ranked, k, r, q);
    }
  }

  // ---------------------------------------------------------------------
  // The rule file
  // ---------------------------------------------------------------------

  /** One line of the rule file: the rule, then its sc, total predictions
    * and support, separated by tabs. */
  function RuleLine(r: Rule, show: real -> string): string
    reads RuleFootprint(r)
  {
    r.ToString() + "\t" + show(r.stats.sc) + "\t" + show(r.stats.totalPredictions) + "\t" + show(r.stats.support)
  }

  function RuleLines(rules: seq<Rule>, show: real -> string): (r: seq<string>)
    reads Footprint(rules)
    ensures |r| == |rules|
  {
    if rules == [] then [] else RuleLines(rules[..|rules| - 1], show) + [RuleLine(rules[|rules| - 1], show)]
  }

  /** The rule lines follow the rules one for one. */
  lemma {:induction false} RuleLinesAt(rules: seq<Rule>, show: real -> string, i: nat)
    requires i < |rules|
    ensures RuleLines(rules, show)[i] == RuleLine(rules[i], show)
    decreases |rules|
  {
    if i < |rules| - 1 {
      RuleLinesAt(rules[..|rules| - 1], show, i);
    }
  }

  /** writeRules: one line per rule, highest sc first. */
  method WriteRules(rules: set<Rule>, show: real -> string) returns (lines: seq<string>, ghost ranked: seq<Rule>)
    ensures Enumerates(ranked, rules) && |ranked| == |rules|
    ensures forall i, j :: 0 <= i < j < |ranked| ==> ranked[i].stats.sc >= ranked[j].stats.sc
    ensures lines == RuleLines(ranked, show)
  {
    var listed := Enumerate(rules);
    var sorted := RankedRulesBySC(listed);
    RankedListsSet(listed, rules);
    EnumeratesSize(sorted, rules);
    ranked := sorted;
    lines := RuleLines(sorted, show);
  }

  // ---------------------------------------------------------------------
  // The predicted-facts file
  // ---------------------------------------------------------------------

  /** The query header `Query: R(s, o)`, one side being `?`. */
  function QueryHeader(relation: string, sub: string, obj: string): string
  {
    "Query: " + relation + "(" + sub + ", " + obj + ")"
  }

  /** The header of an object query exactly as writePredictedFacts builds
    * it. */
  function ObjectHeaderAsWritten(relation: string, name: string): (h: string)
    ensures "Query: " + relation + "((" <= h
  {
    "Query: " + relation + "(" + "(?, " + name + ")"
  }

  /** The corrected query header: `R(name, ?)` for a subject query (type 0),
    * as writePredictedFacts writes it, and `R(?, name)` for an object
    * query, where writePredictedFacts writes ObjectHeaderAsWritten. The
    * prediction file is modelled with this header. */
  function Header(relation: string, queryType: nat, name: string): (h: string)
    ensures "Query: " + relation + "(" <= h && h[|h| - 1] == ')'
    ensures queryType != 0 ==> |h| + 1 == |ObjectHeaderAsWritten(relation, name)|
  {
    if queryType == 0 then QueryHeader(relation, name, "?") else QueryHeader(relation, "?", name)
  }

  /** How often `c` occurs in `s`. */
  function CountChar(s: string, c: char): nat
  {
    multiset(s)[c]
  }

  /** Occurrences add up over the seven pieces a query header is made of. */
  lemma CountPieces(a: string, b: string, c: string, d: string, e: string, f: string, g: string, x: char)
    ensures CountChar(a + b + c + d + e + f + g, x) ==
      CountChar(a, x) + CountChar(b, x) + CountChar(c, x) + CountChar(d, x) + CountChar(e, x) + CountChar(f, x) + CountChar(g, x)
  {
  }

  /** The parentheses of `Query: R(x, y)` balance when those of R, x and y
    * do: the header adds one of each. */
  lemma QueryHeaderCounts(relation: string, sub: string, obj: string)
    ensures CountChar(QueryHeader(relation, sub, obj), '(') ==
            CountChar(relation, '(') + CountChar(sub, '(') + CountChar(obj, '(') + 1
    ensures CountChar(QueryHeader(relation, sub, obj), ')') ==
            CountChar(relation, ')') + CountChar(sub, ')') + CountChar(obj, ')') + 1
  {
    var q, o, comma, cl := "Query: ", "(", ", ", ")";
    CountPieces(q, relation, o, sub, comma, obj, cl, '(');
    CountPieces(q, relation, o, sub, comma, obj, cl, ')');
    assert CountChar(q, '(') == 0 && CountChar(q, ')') == 0 by {
      assert q == ['Q', 'u', 'e', 'r', 'y', ':', ' '];
    }
    assert CountChar(comma, '(') == 0 && CountChar(comma, ')') == 0 by {
      assert comma == [',', ' '];
    }
  }

  /** The object header as written is the intended query header with the
    * query's subject slot being `(?` instead of `?`. */
  lemma ObjectHeaderAsWrittenIsQueryHeader(relation: string, name: string)
    ensures ObjectHeaderAsWritten(relation, name) == QueryHeader(relation, "(?", name)
  {
    var x := "Query: " + relation + "(";
    assert "(?" + ", " == "(?, ";
    assert x + "(?" + ", " == x + ("(?" + ", ");
  }

  /** The header as written opens one parenthesis more than it closes, for
    * every relation and name whose own parentheses balance; the header
    * intended for object queries does not. */
  lemma ObjectHeaderAsWrittenUnbalanced(relation: string, name: string)
    requires CountChar(relation, '(') == CountChar(relation, ')')
    requires CountChar(name, '(') == CountChar(name, ')')
    ensures CountChar(ObjectHeaderAsWritten(relation, name), '(') ==
            CountChar(ObjectHeaderAsWritten(relation, name), ')') + 1
    ensures CountChar(Header(relation, 1, name), '(') == CountChar(Header(relation, 1, name), ')')
  {
    ObjectHeaderAsWrittenIsQueryHeader(relation, name);
    QueryHeaderCounts(relation, "(?", name);
    QueryHeaderCounts(relation, "?", name);
    SlotCounts();
  }

  lemma SlotCounts()
    ensures CountChar("?", '(') == 0 && CountChar("?", ')') == 0
    ensures CountChar("(?", '(') == 1 && CountChar("(?", ')') == 0
  {
    assert "?" == ['?'];
    assert "(?" == ['(', '?'];
  }

  /** Both headers writePredictedFacts is meant to write balance their
    * parentheses: the subject query's as written, the object query's as
    * intended. */
  lemma HeaderBalanced(relation: string, queryType: nat, name: string)
    requires CountChar(relation, '(') == CountChar(relation, ')')
    requires CountChar(name, '(') == CountChar(name, ')')
    ensures CountChar(Header(relation, queryType, name), '(') == CountChar(Header(relation, queryType, name), ')')
  {
    SlotCounts();
    if queryType == 0 {
      QueryHeaderCounts(relation, name, "?");
    } else {
      QueryHeaderCounts(relation, "?", name);
    }
  }

  /** The ranked candidates of each query, subject queries (type 0) first,
    * then object queries: the List<Map<Long, List<Pair>>> the ranking
    * stage hands to the writers. */
  class RankedQueries {
    var byType: seq<map<int, seq<Scored>>>

    constructor(byType: seq<map<int, seq<Scored>>>)
      ensures this.byType == byType
    {
      this.byType := byType;
    }
  }

  /** One fact line: `(sub, R, obj)` and the pair's first score. */
  function FactLine(names: map<int, string>, relation: string, p: Scored, show: real -> string): string
    requires p.pair.sub in names && p.pair.obj in names && |p.scores| > 0
  {
    "(" + names[p.pair.sub] + ", " + relation + ", " + names[p.pair.obj] + ")\t" + show(p.scores[0])
  }

  /** Every pair is printable: both nodes named and a first score. */
  ghost predicate Printable(names: map<int, string>, m: map<int, seq<Scored>>)
  {
    forall key, p :: key in m && p in m[key] ==> p.pair.sub in names && p.pair.obj in names && |p.scores| > 0
  }

  function FactLines(names: map<int, string>, relation: string, ps: seq<Scored>, show: real -> string): (r: seq<string>)
    requires forall p :: p in ps ==> p.pair.sub in names && p.pair.obj in names && |p.scores| > 0
    ensures |r| == |ps|
    ensures forall i :: 0 <= i < |ps| ==> r[i] == FactLine(names, relation, ps[i], show)
  {
    seq(|ps|, i requires 0 <= i < |ps| => FactLine(names, relation, ps[i], show))
  }

  /** The block of one query: its header, its first TOP_K candidates, and
    * a blank line. */
  function QueryBlock(names: map<int, string>, relation: string, queryType: nat, key: int, m: map<int, seq<Scored>>,
                      show: real -> string): seq<string>
    requires key in names && key in m && Printable(names, m)
  {
    [Header(relation, queryType, names[key])] + FactLines(names, relation, Take(m[key], TopK), show) + [""]
  }

  /** A query block has at most TOP_K fact lines between its header and
    * the blank line, each for one of the query's first TOP_K candidates in
    * rank order. */
  lemma QueryBlockShape(names: map<int, string>, relation: string, queryType: nat, key: int,
                        m: map<int, seq<Scored>>, show: real -> string)
    requires key in names && key in m && Printable(names, m)
    ensures var b := QueryBlock(names, relation, queryType, key, m, show);
      |b| == Min(TopK, |m[key]|) + 2 && |b| <= TopK + 2 &&
      b[0] == Header(relation, queryType, names[key]) && b[|b| - 1] == "" &&
      forall i :: 1 <= i < |b| - 1 ==> b[i] == FactLine(names, relation, m[key][i - 1], show)
  {
  }

  function QueryBlocks(names: map<int, string>, relation: string, queryType: nat, keys: seq<int>,
                       m: map<int, seq<Scored>>, show: real -> string): seq<string>
    requires forall k :: k in keys ==> k in names && k in m
    requires Printable(names, m)
  {
    if keys == [] then []
    else QueryBlocks(names, relation, queryType, keys[..|keys| - 1], m, show) +
         QueryBlock(names, relation, queryType, keys[|keys| - 1], m, show)
  }

  /** The blocks of one query type, one per query in the order the map
    * yields its keys. */
  method WriteQueryType(names: map<int, string>, relation: string, queryType: nat, m: map<int, seq<Scored>>,
                        show: real -> string) returns (lines: seq<string>, ghost keys: seq<int>)
    requires forall k :: k in m ==> k in names
    requires Printable(names, m)
    ensures Enumerates(keys, m.Keys)
    ensures lines == QueryBlocks(names, relation, queryType, keys, m, show)
  {
    var listed := Enumerate(m.Keys);
    EnumeratesMembers(listed, m.Keys);
    keys := listed;
    lines := [];
    var k := 0;
    while k < |listed|
      invariant 0 <= k <= |listed|
      invariant lines == QueryBlocks(names, relation, queryType, listed[..k], m, show)
    {
      assert listed[..k + 1][..k] == listed[..k];
      lines := lines + QueryBlock(names, relation, queryType, listed[k], m, show);
      k := k + 1;
    }
    assert listed[..k] == listed;
  }

  /** writePredictedFacts: the subject queries' blocks, then the object
    * queries' blocks. */
  method WritePredictedFacts(names: map<int, string>, relation: string, ranked: RankedQueries, show: real -> string)
    returns (lines: seq<string>, ghost subjectKeys: seq<int>, ghost objectKeys: seq<int>)
    requires |ranked.byType| >= 2
    requires forall i, k :: 0 <= i < 2 && k in ranked.byType[i] ==> k in names
    requires Printable(names, ranked.byType[0]) && Printable(names, ranked.byType[1])
    ensures Enumerates(subjectKeys, ranked.byType[0].Keys) && Enumerates(objectKeys, ranked.byType[1].Keys)
    ensures lines == QueryBlocks(names, relation, 0, subjectKeys, ranked.byType[0], show) +
                     QueryBlocks(names, relation, 1, objectKeys, ranked.byType[1], show)
  {
    var first, second;
    first, subjectKeys := WriteQueryType(names, relation, 0, ranked.byType[0], show);
    second, objectKeys := WriteQueryType(names, relation, 1, ranked.byType[1], show);
    lines := first + second;
  }

  // ---------------------------------------------------------------------
  // The verification file
  // ---------------------------------------------------------------------

  /** The pairs of a query's first VERIFY_PREDICTION_SIZE candidates. */
  function TopPairs(ps: seq<Scored>): set<Pair>
  {
    set p | p in Take(ps, VerifyPredictionSize) :: p.pair
  }

  /** The explained pairs of the listed queries of one type. */
  ghost function ExplainedAt(m: map<int, seq<Scored>>, keys: set<int>): set<Pair>
  {
    set key, q | key in keys && key in m && q in TopPairs(m[key]) :: q
  }

  lemma ExplainedAtAdd(m: map<int, seq<Scored>>, keys: set<int>, key: int)
    requires key in m
    ensures ExplainedAt(m, keys + {key}) == ExplainedAt(m, keys) + TopPairs(m[key])
  {
  }

  /** The predictions writeVerifications explains: the first
    * VERIFY_PREDICTION_SIZE candidates of every query of every type. */
  ghost function Explained(byType: seq<map<int, seq<Scored>>>): set<Pair>
  {
    if byType == [] then {}
    else
      var m := byType[|byType| - 1];
      Explained(byType[..|byType| - 1]) + ExplainedAt(m, m.Keys)
  }

  /** A pair is explained exactly when it is among the first
    * VERIFY_PREDICTION_SIZE candidates of some query of some type. */
  lemma {:induction false} ExplainedMembers(byType: seq<map<int, seq<Scored>>>, p: Pair)
    ensures p in Explained(byType) <==>
      exists i, key :: 0 <= i < |byType| && key in byType[i] && p in TopPairs(byType[i][key])
    decreases |byType|
  {
    if byType != [] {
      var n := |byType| - 1;
      var front := byType[..n];
      ExplainedMembers(front, p);
      if p in Explained(byType) && p !in Explained(front) {
        var key :| key in byType[n] && p in TopPairs(byType[n][key]);
      }
      if exists i, key :: 0 <= i < |byType| && key in byType[i] && p in TopPairs(byType[i][key]) {
        var i, key :| 0 <= i < |byType| && key in byType[i] && p in TopPairs(byType[i][key]);
        if i < n {
          assert front[i] == byType[i];
        }
      }
    }
  }

  /** The predictions of the queries of one type, added to `acc` query by
    * query. */
  method CollectType(m: map<int, seq<Scored>>, acc: set<Pair>) returns (predictions: set<Pair>)
    ensures predictions == acc + ExplainedAt(m, m.Keys)
  {
    var keys := Enumerate(m.Keys);
    EnumeratesMembers(keys, m.Keys);
    predictions := acc;
    var k := 0;
    while k < |keys|
      invariant 0 <= k <= |keys|
      invariant predictions == acc + ExplainedAt(m, set j | 0 <= j < k :: keys[j])
    {
      ghost var done := set j | 0 <= j < k :: keys[j];
      predictions := predictions + TopPairs(m[keys[k]]);
      assert (set j | 0 <= j < k + 1 :: keys[j]) == done + {keys[k]};
      ExplainedAtAdd(m, done, keys[k]);
      k := k + 1;
    }
    assert (set j | 0 <= j < k :: keys[j]) == m.Keys;
  }

  /** The prediction set of writeVerifications, collected query by query. */
  method CollectPredictions(byType: seq<map<int, seq<Scored>>>) returns (predictions: set<Pair>)
    ensures predictions == Explained(byType)
  {
    predictions := {};
    var i := 0;
    while i < |byType|
      invariant 0 <= i <= |byType|
      invariant predictions == Explained(byType[..i])
    {
      predictions := CollectType(byType[i], predictions);
      assert byType[..i + 1][..i] == byType[..i];
      i := i + 1;
    }
    assert byType[..i] == byType;
  }

  /** Multimap.get on a rule multimap. */
  function RulesOf(m: map<Pair, set<Rule>>, p: Pair): set<Rule>
  {
    if p in m then m[p] else {}
  }

  /** The order in which each listed prediction's rule set is visited. */
  method ListRules(candidates: map<Pair, set<Rule>>, listed: seq<Pair>) returns (listings: seq<seq<Rule>>)
    ensures |listings| == |listed|
    ensures forall k :: 0 <= k < |listed| ==> Enumerates(listings[k], RulesOf(candidates, listed[k]))
  {
    listings := [];
    var i := 0;
    while i < |listed|
      invariant 0 <= i <= |listed| && |listings| == i
      invariant forall k :: 0 <= k < i ==> Enumerates(listings[k], RulesOf(candidates, listed[k]))
    {
      var listing := Enumerate(RulesOf(candidates, listed[i]));
      listings := listings + [listing];
      i := i + 1;
    }
  }

  /** The line naming a prediction in the verification file. */
  function PredictionLine(names: map<int, string>, relation: string, p: Pair): string
    requires p.sub in names && p.obj in names
  {
    "(" + names[p.sub] + ", " + relation + ", " + names[p.obj] + ")"
  }

  /** A rule line of the verification file: the rule and its sc. */
  function VerifiedRuleLine(r: Rule, show: real -> string): string
    reads RuleFootprint(r)
  {
    r.ToString() + "\t" + show(r.stats.sc)
  }

  /** The objects a rule's rendering and statistics live in. */
  ghost function RuleFootprint(r: Rule): set<object>
  {
    {r.head, r.stats} + set a | a in r.body
  }

  ghost function Footprint(rules: seq<Rule>): set<object>
  {
    if rules == [] then {} else Footprint(rules[..|rules| - 1]) + RuleFootprint(rules[|rules| - 1])
  }

  ghost function FootprintAll(tops: seq<seq<Rule>>): set<object>
  {
    if tops == [] then {} else FootprintAll(tops[..|tops| - 1]) + Footprint(tops[|tops| - 1])
  }

  function VerifiedRuleLines(rules: seq<Rule>, show: real -> string): (r: seq<string>)
    reads Footprint(rules)
    ensures |r| == |rules|
  {
    if rules == [] then [] else VerifiedRuleLines(rules[..|rules| - 1], show) + [VerifiedRuleLine(rules[|rules| - 1], show)]
  }

  /** The block of one prediction: its line, its chosen rules with their
    * sc, and a blank line. */
  function VerificationBlock(names: map<int, string>, relation: string, p: Pair, top: seq<Rule>,
                             show: real -> string): seq<string>
    requires p.sub in names && p.obj in names
    reads Footprint(top)
  {
    [PredictionLine(names, relation, p)] + VerifiedRuleLines(top, show) + [""]
  }

  function VerificationBlocks(names: map<int, string>, relation: string, ps: seq<Pair>, tops: seq<seq<Rule>>,
                              show: real -> string): seq<string>
    requires |ps| == |tops| && forall p :: p in ps ==> p.sub in names && p.obj in names
    reads FootprintAll(tops)
  {
    if ps == [] then []
    else VerificationBlocks(names, relation, ps[..|ps| - 1], tops[..|tops| - 1], show) +
         VerificationBlock(names, relation, ps[|ps| - 1], tops[|tops| - 1], show)
  }

  /** The rules chosen for one prediction: at most VERIFY_RULE_SIZE of its
    * candidates' rules, as many as there are up to that bound, highest sc
    * first, none with a lower sc than a rule left out. */
  ghost predicate ChosenFor(candidates: map<Pair, set<Rule>>, p: Pair, top: seq<Rule>)
    reads set x | x in RulesOf(candidates, p) :: x.stats
  {
    IsRankedTop(RulesOf(candidates, p), top, VerifyRuleSize)
  }

  /** The verification of prediction `p`: rules chosen for it, recorded
    * under it when there are any. */
  ghost predicate VerifiedAs(candidates: map<Pair, set<Rule>>, verifications: map<Pair, set<Rule>>, p: Pair,
                             top: seq<Rule>)
    reads set x | x in RulesOf(candidates, p) :: x.stats
  {
    ChosenFor(candidates, p, top) && RulesOf(verifications, p) == set r | r in top
  }

  /** Recording the rules of one prediction leaves the others' as they were. */
  lemma RecordOther(candidates: map<Pair, set<Rule>>, before: map<Pair, set<Rule>>, after: map<Pair, set<Rule>>,
                    q: Pair, s: seq<Rule>, p: Pair)
    requires VerifiedAs(candidates, before, q, s) && q != p
    requires forall x :: x != p ==> RulesOf(after, x) == RulesOf(before, x)
    ensures VerifiedAs(candidates, after, q, s)
  {
  }

  lemma BlocksSnoc(names: map<int, string>, relation: string, ps: seq<Pair>, tops: seq<seq<Rule>>, p: Pair,
                   top: seq<Rule>, show: real -> string)
    requires |ps| == |tops| && forall q :: q in ps + [p] ==> q.sub in names && q.obj in names
    ensures VerificationBlocks(names, relation, ps + [p], tops + [top], show) ==
      VerificationBlocks(names, relation, ps, tops, show) + VerificationBlock(names, relation, p, top, show)
  {
    assert (ps + [p])[..|ps|] == ps;
    assert (tops + [top])[..|tops|] == tops;
  }

  /** Recording the chosen rules of the next listed prediction keeps every
    * listed prediction's verification. */
  lemma VerifyStep(candidates: map<Pair, set<Rule>>, listed: seq<Pair>, i: nat, chosen: seq<seq<Rule>>,
                   before: map<Pair, set<Rule>>, after: map<Pair, set<Rule>>, top: seq<Rule>)
    requires Distinct(listed) && i < |listed| && |chosen| == i
    requires forall p :: p in before ==> p in listed[..i]
    requires forall k :: 0 <= k < i ==> VerifiedAs(candidates, before, listed[k], chosen[k])
    requires ChosenFor(candidates, listed[i], top)
    requires after == if |top| > 0 then before[listed[i] := set r | r in top] else before
    ensures forall p :: p in after ==> p in listed[..i + 1]
    ensures forall k :: 0 <= k < i + 1 ==> VerifiedAs(candidates, after, listed[k], (chosen + [top])[k])
  {
    var prediction := listed[i];
    assert listed[..i + 1] == listed[..i] + [prediction];
    assert prediction !in before;
    assert VerifiedAs(candidates, after, prediction, top);
    assert forall x :: x != prediction ==> RulesOf(after, x) == RulesOf(before, x);
    forall k | 0 <= k < i + 1 ensures VerifiedAs(candidates, after, listed[k], (chosen + [top])[k]) {
      if k < i {
        RecordOther(candidates, before, after, listed[k], chosen[k], prediction);
      }
    }
  }

  /** The next listed prediction's rules, recorded when there are any. */
  function Recorded(verifications: map<Pair, set<Rule>>, prediction: Pair, top: seq<Rule>): map<Pair, set<Rule>>
  {
    if |top| > 0 then verifications[prediction := set r | r in top] else verifications
  }

  /** One pass of writeVerifications' loop keeps the recorded verifications:
    * the next listed prediction's top rules are chosen and recorded when
    * there are any. */
  lemma VerifyNext(listed: seq<Pair>, listing: seq<Rule>, candidates: map<Pair, set<Rule>>, i: int,
                   verifications: map<Pair, set<Rule>>, chosen: seq<seq<Rule>>)
    requires Distinct(listed) && 0 <= i < |listed| && Enumerates(listing, RulesOf(candidates, listed[i]))
    requires |chosen| == i && forall p :: p in verifications ==> p in listed[..i]
    requires forall k :: 0 <= k < i ==> VerifiedAs(candidates, verifications, listed[k], chosen[k])
    ensures var top := RankedTop(listing, VerifyRuleSize);
      var after := Recorded(verifications, listed[i], top);
      (forall p :: p in after ==> p in listed[..i + 1]) &&
      (forall k :: 0 <= k < i + 1 ==> VerifiedAs(candidates, after, listed[k], (chosen + [top])[k]))
  {
    var top := RankedTop(listing, VerifyRuleSize);
    RankedTopChosen(listing, RulesOf(candidates, listed[i]), VerifyRuleSize);
    VerifyStep(candidates, listed, i, chosen, verifications, Recorded(verifications, listed[i], top), top);
  }

  /** One pass of the loop writes the next listed prediction's block. */
  lemma BlocksNext(names: map<int, string>, relation: string, listed: seq<Pair>, chosen: seq<seq<Rule>>,
                   i: int, top: seq<Rule>, show: real -> string)
    requires 0 <= i < |listed| && |chosen| == i && forall p :: p in listed ==> p.sub in names && p.obj in names
    ensures VerificationBlocks(names, relation, listed[..i + 1], chosen + [top], show) ==
      VerificationBlocks(names, relation, listed[..i], chosen, show) + VerificationBlock(names, relation, listed[i], top, show)
  {
    assert listed[..i + 1] == listed[..i] + [listed[i]];
    BlocksSnoc(names, relation, listed[..i], chosen, listed[i], top, show);
  }

  /** The blocks of the listed predictions, and their chosen rules. */
  method VerifyAll(names: map<int, string>, relation: string, listed: seq<Pair>, listings: seq<seq<Rule>>,
                   candidates: map<Pair, set<Rule>>, show: real -> string)
    returns (verifications: map<Pair, set<Rule>>, lines: seq<string>, chosen: seq<seq<Rule>>)
    requires Distinct(listed) && forall p :: p in listed ==> p.sub in names && p.obj in names
    requires |listings| == |listed|
    requires forall k :: 0 <= k < |listed| ==> Enumerates(listings[k], RulesOf(candidates, listed[k]))
    ensures |chosen| == |listed|
    ensures forall i :: 0 <= i < |listed| ==> VerifiedAs(candidates, verifications, listed[i], chosen[i])
    ensures forall p :: p in verifications ==> p in listed
    ensures lines == VerificationBlocks(names, relation, listed, chosen, show)
  {
    chosen := [];
    verifications := map[];
    lines := [];
    var i := 0;
    while i < |listed|
      invariant 0 <= i <= |listed| && |chosen| == i
      invariant forall p :: p in verifications ==> p in listed[..i]
      invariant forall k :: 0 <= k < i ==> VerifiedAs(candidates, verifications, listed[k], chosen[k])
      invariant lines == VerificationBlocks(names, relation, listed[..i], chosen, show)
    {
      var prediction := listed[i];
      var top := RankedTop(listings[i], VerifyRuleSize);
      VerifyNext(listed, listings[i], candidates, i, verifications, chosen);
      BlocksNext(names, relation, listed, chosen, i, top, show);
      lines := lines + VerificationBlock(names, relation, prediction, top, show);
      if |top| > 0 {
        verifications := verifications[prediction := set r | r in top];
      }
      chosen := chosen + [top];
      i := i + 1;
    }
    assert listed[..i] == listed;
  }

  /** writeVerifications: the explained predictions' blocks, each the
    * prediction, its chosen rules with their sc, and a blank line; the
    * passed ranking is emptied, and the result maps each prediction to its
    * chosen rules. */
  method WriteVerifications(names: map<int, string>, relation: string, ranked: RankedQueries,
                            candidates: map<Pair, set<Rule>>, show: real -> string)
    returns (verifications: map<Pair, set<Rule>>, lines: seq<string>, ghost order: seq<Pair>,
             ghost chosen: seq<seq<Rule>>)
    requires forall p :: p in Explained(ranked.byType) ==> p.sub in names && p.obj in names
    modifies ranked
    ensures ranked.byType == []
    ensures Enumerates(order, Explained(old(ranked.byType))) && |chosen| == |order|
    ensures forall i :: 0 <= i < |order| ==> VerifiedAs(candidates, verifications, order[i], chosen[i])
    ensures forall p :: p in verifications ==> p in order
    ensures lines == VerificationBlocks(names, relation, order, chosen, show)
  {
    var predictions := CollectPredictions(ranked.byType);
    ranked.byType := [];
    var listed := Enumerate(predictions);
    EnumeratesMembers(listed, predictions);
    order := listed;
    var listings := ListRules(candidates, listed);
    var picked;
    verifications, lines, picked := VerifyAll(names, relation, listed, listings, candidates, show);
    chosen := picked;
  }

  // ---------------------------------------------------------------------
  // Instance files
  // ---------------------------------------------------------------------

  /** One line of an instance file: the edge id, the start node's name, the
    * type and the end node's name, tab-separated. */
  function InstanceLine(i: Instance): string
    requires i.relationship.id >= 0
  {
    NatToString(i.relationship.id) + "\t" + i.startNodeName + "\t" + i.etype + "\t" + i.endNodeName
  }

  /** writeInstance: one line per instance, in list order. */
  method WriteInstance(instances: seq<Instance>) returns (lines: seq<string>)
    requires forall i :: i in instances ==> i.relationship.id >= 0
    ensures |lines| == |instances|
    ensures forall k :: 0 <= k < |lines| ==> lines[k] == InstanceLine(instances[k])
  {
    lines := [];
    var k := 0;
    while k < |instances|
      invariant 0 <= k <= |instances| && |lines| == k
      invariant forall j :: 0 <= j < k ==> lines[j] == InstanceLine(instances[j])
    {
      lines := lines + [InstanceLine(instances[k])];
      k := k + 1;
    }
  }

  /** `split("\t")[0]`: the text before the first tab. */
  function FirstField(line: string): string
  {
    line[..Atoms.IndexOf(line, '\t')]
  }

  /** The edge of the graph with the given id (getRelationshipById). */
  function EdgeById(edges: seq<Edge>, id: int): (r: Option<Edge>)
    ensures r.Some? ==> r.value in edges && r.value.id == id
    ensures r.None? ==> forall e :: e in edges ==> e.id != id
  {
    if edges == [] then None
    else if edges[0].id == id then Some(edges[0])
    else EdgeById(edges[1..], id)
  }

  /** The instance one line of an instance file stands for: the graph's
    * edge whose id is the line's first field; an unparsable id or an
    * unknown edge is the run's failure. */
  function InstanceOfLine(g: Graph, line: string): (r: Result<Instance>)
  {
    match ParseLong(FirstField(line))
    case None => Err("NumberFormatException")
    case Some(id) =>
      match EdgeById(g.edges, id)
      case None => Err("NotFoundException")
      case Some(e) =>
        if e.src in g.names && e.dst in g.names then Ok(InstanceOf(g, e)) else Err("NotFoundException")
  }

  /** readInstance: the instances of the lines, in file order. */
  method ReadInstance(g: Graph, lines: seq<string>) returns (r: Result<seq<Instance>>)
    ensures r.Ok? ==> (|r.value| == |lines| &&
      forall k :: 0 <= k < |lines| ==> InstanceOfLine(g, lines[k]) == Ok(r.value[k]))
    ensures r.Err? ==> exists k :: 0 <= k < |lines| && InstanceOfLine(g, lines[k]).Err?
  {
    var instances := [];
    var k := 0;
    while k < |lines|
      invariant 0 <= k <= |lines| && |instances| == k
      invariant forall j :: 0 <= j < k ==> InstanceOfLine(g, lines[j]) == Ok(instances[j])
    {
      var parsed := InstanceOfLine(g, lines[k]);
      if parsed.Err? {
        return Err(parsed.error);
      }
      instances := instances + [parsed.value];
      k := k + 1;
    }
    r := Ok(instances);
  }

  /** Only the id is read back: a line written for an instance of the graph
    * whose edge id is unique reads back as that instance. */
  lemma InstanceLineRoundTrip(g: Graph, e: Edge)
    requires e in g.edges && 0 <= e.id <= MaxLong && e.src in g.names && e.dst in g.names
    requires forall f :: f in g.edges && f.id == e.id ==> f == e
    ensures InstanceOfLine(g, InstanceLine(InstanceOf(g, e))) == Ok(InstanceOf(g, e))
  {
    var i := InstanceOf(g, e);
    var digits := NatToString(e.id);
    var rest := i.startNodeName + "\t" + i.etype + "\t" + i.endNodeName;
    assert '\t' !in digits by {
      forall k | 0 <= k < |digits| ensures digits[k] != '\t' {
        assert IsDigit(digits[k]);
      }
    }
    Atoms.IndexOfAfterPrefix(digits, '\t', rest);
    assert InstanceLine(i) == digits + ['\t'] + rest;
    assert FirstField(InstanceLine(i)) == digits;
    ParseLongOfNatToString(e.id);
  }
}
