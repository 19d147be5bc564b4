// GenSpecSharedMethod and GenSharedMethod: how an abstract rule's children
// are created (specialisation with the anchorings and the ranked tails) or
// re-scored (generalisation from the children already recorded), every
// child evaluated against the ground truth and kept when it qualifies. The
// learning switches USE_HEAD_RULES, USE_TAIL_RULES and USE_BOTH_RULES are
// read from the configuration at run time, so they are a parameter here.
module Instantiation {
  import opened Common
  import opened Settings
  import opened Graphs
  import opened Pairs
  import opened Stats
  import opened Rules
  import opened GraphOps
  import opened GenOps
  import opened Counting
  import opened Evaluation
  import opened Groundings
  import opened Atoms

  datatype Switches = Switches(useHeadRules: bool, useTailRules: bool, useBothRules: bool)

  /** The switches as the default configuration sets them. */
  const DefaultSwitches := Switches(UseHeadRules, UseTailRules, UseBothRules)

  /** The start nodes of the groundings: the originals a head-anchored
    * child predicts from. */
  function Starts(groundings: seq<Pair>): set<int>
  {
    set i | 0 <= i < |groundings| :: groundings[i].sub
  }

  /** The ins-rule counter only passes the cap by the one tick that takes
    * it there, and never moves when it started above the cap. */
  predicate CapKept(before: int, after: int)
  {
    before <= after <= Max(before, InsRuleCap + 1) && (before > InsRuleCap ==> after == before)
  }

  function Max(a: int, b: int): int { if a >= b then a else b }

  // ---------------------------------------------------------------------
  // Specialisation, one kind of child at a time
  // ---------------------------------------------------------------------

  /** One child's evaluation: the originals it ran over, the predictions
    * they give, in order, the prediction counter's value when it began,
    * and how many predictions it made and how many of those hit. */
  datatype Eval = Eval(originals: seq<int>, preds: seq<Pair>, start: int, made: nat, hits: nat)

  /** The evaluation's counts are those of evaluateRule's capped loop over
    * its predictions against the ground truth: it makes predictions until
    * the counter passes PREDICTION_CAP, and counts those in `gt`. */
  predicate Counted(e: Eval, gt: set<Pair>)
  {
    e.made == Processed(|e.preds|, e.start, PredictionCap) && e.hits == Hits(e.preds[..e.made], gt)
  }

  /** Evaluations that share one counter, new (at zero) before the
    * first: each begins where the one before it left the counter, and the
    * last leaves it at `count`. */
  predicate Chained(evals: seq<Eval>, count: int)
    decreases |evals|
  {
    if evals == [] then count == 0
    else
      var last := evals[|evals| - 1];
      count == last.start + last.made && Chained(evals[..|evals| - 1], last.start)
  }

  /** One more evaluation, begun where the others left the counter. */
  lemma ChainedSnoc(evals: seq<Eval>, count: int, e: Eval)
    requires Chained(evals, count) && e.start == count
    ensures Chained(evals + [e], count + e.made)
  {
    assert (evals + [e])[..|evals|] == evals;
  }

  /** The child's statistics are those of evaluation `e` against the
    * ground truth: evaluateRule's counts, then compute. */
  predicate ScoredBy(r: Rule, e: Eval, gt: set<Pair>)
    reads r.stats
  {
    r.stats.totalPredictions == e.made as real && r.stats.support == e.hits as real &&
    r.stats.groundTruth == |gt| as real &&
    r.stats.sc == Confidence(r.stats.support, r.stats.totalPredictions) &&
    r.stats.hc == Ratio(r.stats.support, r.stats.groundTruth)
  }

  /** A head-anchored child's evaluation: its anchoring paired with each
    * original, counted against the ground truth. */
  predicate HeadEval(e: Eval, fromSubject: bool, gt: set<Pair>, anchoring: int, originals: seq<int>)
  {
    e.originals == originals && e.preds == Row(fromSubject, anchoring, originals) && Counted(e, gt)
  }

  /** A tail-anchored child's evaluation: every anchoring paired with each
    * of a listing of the originals behind its tail, counted against the
    * ground truth. */
  ghost predicate TailEval(e: Eval, fromSubject: bool, gt: set<Pair>, anchorings: seq<int>, behind: set<int>)
  {
    Enumerates(e.originals, behind) && e.preds == Predictions(fromSubject, anchorings, e.originals) &&
    Counted(e, gt)
  }

  /** A both-anchored child's evaluation: its anchoring paired with each of
    * a listing of the originals behind its tail, counted against the
    * ground truth. */
  ghost predicate BothEval(e: Eval, fromSubject: bool, gt: set<Pair>, anchoring: int, behind: set<int>)
  {
    Enumerates(e.originals, behind) && e.preds == Row(fromSubject, anchoring, e.originals) && Counted(e, gt)
  }

  /** What one specialisation loop did: the children it built, in the
    * order of its candidates, and their evaluations; the final count of
    * the prediction counter its evaluations share; and the global ins-rule
    * counter before and after it. */
  datatype Run = Run(built: seq<Rule>, evals: seq<Eval>, predictions: int, before: int, after: int)

  /** A specialisation loop over `candidates` candidates, switched on or
    * off. Off, it builds nothing and leaves the counter alone. On, it
    * ticks the global ins-rule counter once per child it builds, builds
    * none when the counter started above INS_RULE_CAP, and leaves
    * candidates unbuilt only once the counter has passed INS_RULE_CAP or
    * the shared prediction counter has passed PREDICTION_CAP. There is one
    * evaluation per child, all on the loop's one prediction counter. */
  predicate Ran(run: Run, candidates: nat, on: bool)
  {
    run.after == run.before + |run.built| && |run.built| <= candidates &&
    CapKept(run.before, run.after) &&
    ((!on || run.before > InsRuleCap) ==> run.built == []) &&
    ((on && |run.built| < candidates) ==> (run.after > InsRuleCap || run.predictions > PredictionCap))
  }

  /** The statistics objects of the built children. */
  ghost function StatsOf(built: seq<Rule>): set<object>
  {
    set r | r in built :: r.stats as object
  }

  /** The built children that qualify: those a loop keeps in its bucket. */
  ghost function KeptOf(built: seq<Rule>): set<Rule>
    reads StatsOf(built)
  {
    set r | r in built && Qualified(r)
  }

  /** One head-anchored child, past the cap check: the global ins-rule
    * counter ticked, and the base rule with the anchoring bound as its head
    * constant, evaluated over the originals and kept in headRules when it
    * qualifies. */
  method HeadChild(base: Rule, g: Graph, gt: set<Pair>, anchoring: int, originals: seq<int>, counter: Counter,
                   tables: Tables)
    returns (stop: bool, rule: Rule, ghost e: Eval)
    requires base.Valid() && base.kind.Abstract? && !base.closed
    requires anchoring in g.names
    requires counter != tables.globalInsRuleCounter
    modifies base, counter, tables.globalInsRuleCounter
    ensures tables.globalInsRuleCounter.count == old(tables.globalInsRuleCounter.count) + 1
    ensures HeadEval(e, base.fromSubject, gt, anchoring, originals) && e.start == old(counter.count)
    ensures ScoredBy(rule, e, gt) && counter.count == e.start + e.made
    ensures base.Valid()
    ensures base.tailRules == old(base.tailRules) && base.bothRules == old(base.bothRules)
    ensures base.headRules == old(base.headRules) + (if Qualified(rule) then {rule} else {})
    ensures fresh(rule) && fresh(rule.stats) && rule.kind == Instantiated(0) && rule.GetAnchoring() == anchoring
    ensures stop <==> |originals| > 0 && counter.count > PredictionCap
  {
    tables.TickGlobalInsRuleCounter();
    rule := HeadAnchored(base, g, anchoring);
    ghost var preds := Row(base.fromSubject, anchoring, originals);
    ghost var n := Processed(|preds|, counter.count, PredictionCap);
    e := Eval(originals, preds, counter.count, n, Hits(preds[..n], gt));
    stop := EvaluateRule(base, rule, gt, anchoring, originals, HeadRules, counter);
  }

  /** The base rule with the anchoring bound as its head constant. */
  method HeadAnchored(base: Rule, g: Graph, anchoring: int) returns (rule: Rule)
    requires base.Valid() && base.kind.Abstract? && !base.closed
    requires anchoring in g.names
    ensures fresh(rule) && fresh(rule.stats) && rule.stats.Valid() && rule.kind == Instantiated(0)
    ensures rule.GetAnchoring() == anchoring
  {
    var made := InstantiateFromBase(base, [g.names[anchoring]], [anchoring], 0);
    rule := made.value;
    BindingsAreAnchoringAndTail(base.head.View(), Views(base.body), base.fromSubject, g.names[anchoring], anchoring);
  }

  /** The head atoms of the built children. */
  ghost function HeadAtoms(built: seq<Rule>): set<Atom>
  {
    set r | r in built :: r.head
  }

  /** The body atoms of the built children. */
  ghost function BodyAtoms(built: seq<Rule>): set<Atom>
  {
    set j, a | 0 <= j < |built| && a in built[j].body :: a
  }

  /** The j-th child is head-anchored at the j-th anchoring. */
  ghost predicate HeadsAt(built: seq<Rule>, anchorings: seq<int>)
    reads HeadAtoms(built)
  {
    |built| <= |anchorings| &&
    forall j {:trigger HeadChildAt(built[j], anchorings[j])} :: 0 <= j < |built| ==>
      (assert built[j] in built; HeadChildAt(built[j], anchorings[j]))
  }

  /** The j-th child is tail-anchored at the j-th tail. */
  ghost predicate TailsAt(built: seq<Rule>, tails: seq<int>)
    reads BodyAtoms(built)
  {
    |built| <= |tails| &&
    forall j {:trigger TailChildAt(built[j], tails[j])} :: 0 <= j < |built| ==>
      (assert forall a :: a in built[j].body ==> a in BodyAtoms(built); TailChildAt(built[j], tails[j]))
  }

  /** The j-th child is anchored at both ends of the j-th instance. */
  ghost predicate BothAt(built: seq<Rule>, instances: seq<Pair>)
    reads HeadAtoms(built), BodyAtoms(built)
  {
    |built| <= |instances| &&
    forall j {:trigger BothChildAt(built[j], instances[j])} :: 0 <= j < |built| ==>
      (assert built[j] in built && forall a :: a in built[j].body ==> a in BodyAtoms(built);
       BothChildAt(built[j], instances[j]))
  }

  /** The j-th evaluation is a head-anchored child's, at the j-th
    * anchoring over the originals. */
  predicate HeadEvals(evals: seq<Eval>, fromSubject: bool, gt: set<Pair>, anchorings: seq<int>, originals: seq<int>)
  {
    |evals| <= |anchorings| &&
    forall j {:trigger HeadEval(evals[j], fromSubject, gt, anchorings[j], originals)} :: 0 <= j < |evals| ==>
      HeadEval(evals[j], fromSubject, gt, anchorings[j], originals)
  }

  /** The j-th evaluation is a tail-anchored child's, at every anchoring
    * over the originals behind the j-th tail. */
  ghost predicate TailEvals(evals: seq<Eval>, fromSubject: bool, gt: set<Pair>, anchorings: seq<int>, tails: seq<int>,
                            tailToOriginal: map<int, set<int>>)
  {
    |evals| <= |tails| &&
    forall j {:trigger TailEval(evals[j], fromSubject, gt, anchorings, Get(tailToOriginal, tails[j]))} ::
      0 <= j < |evals| ==> TailEval(evals[j], fromSubject, gt, anchorings, Get(tailToOriginal, tails[j]))
  }

  /** The j-th evaluation is a both-anchored child's, at the anchoring of
    * the j-th instance over the originals behind its tail. */
  ghost predicate BothEvals(evals: seq<Eval>, fromSubject: bool, gt: set<Pair>, instances: seq<Pair>,
                            tailToOriginal: map<int, set<int>>)
  {
    |evals| <= |instances| &&
    forall j {:trigger BothEval(evals[j], fromSubject, gt, instances[j].sub, Get(tailToOriginal, instances[j].obj))} ::
      0 <= j < |evals| ==> BothEval(evals[j], fromSubject, gt, instances[j].sub, Get(tailToOriginal, instances[j].obj))
  }

  lemma HeadEvalsSnoc(evals: seq<Eval>, fromSubject: bool, gt: set<Pair>, anchorings: seq<int>, originals: seq<int>,
                      e: Eval)
    requires HeadEvals(evals, fromSubject, gt, anchorings, originals) && |evals| < |anchorings|
    requires HeadEval(e, fromSubject, gt, anchorings[|evals|], originals)
    ensures HeadEvals(evals + [e], fromSubject, gt, anchorings, originals)
  {
    forall j | 0 <= j < |evals| ensures HeadEval((evals + [e])[j], fromSubject, gt, anchorings[j], originals) {
      assert (evals + [e])[j] == evals[j];
    }
    assert HeadEval((evals + [e])[|evals|], fromSubject, gt, anchorings[|evals|], originals);
  }

  lemma TailEvalsSnoc(evals: seq<Eval>, fromSubject: bool, gt: set<Pair>, anchorings: seq<int>, tails: seq<int>,
                      tailToOriginal: map<int, set<int>>, e: Eval)
    requires TailEvals(evals, fromSubject, gt, anchorings, tails, tailToOriginal) && |evals| < |tails|
    requires TailEval(e, fromSubject, gt, anchorings, Get(tailToOriginal, tails[|evals|]))
    ensures TailEvals(evals + [e], fromSubject, gt, anchorings, tails, tailToOriginal)
  {
    forall j | 0 <= j < |evals|
      ensures TailEval((evals + [e])[j], fromSubject, gt, anchorings, Get(tailToOriginal, tails[j]))
    {
      assert (evals + [e])[j] == evals[j];
    }
    assert TailEval((evals + [e])[|evals|], fromSubject, gt, anchorings, Get(tailToOriginal, tails[|evals|]));
  }

  lemma BothEvalsSnoc(evals: seq<Eval>, fromSubject: bool, gt: set<Pair>, instances: seq<Pair>,
                      tailToOriginal: map<int, set<int>>, e: Eval)
    requires BothEvals(evals, fromSubject, gt, instances, tailToOriginal) && |evals| < |instances|
    requires BothEval(e, fromSubject, gt, instances[|evals|].sub, Get(tailToOriginal, instances[|evals|].obj))
    ensures BothEvals(evals + [e], fromSubject, gt, instances, tailToOriginal)
  {
    forall j | 0 <= j < |evals|
      ensures BothEval((evals + [e])[j], fromSubject, gt, instances[j].sub, Get(tailToOriginal, instances[j].obj))
    {
      assert (evals + [e])[j] == evals[j];
    }
    assert BothEval((evals + [e])[|evals|], fromSubject, gt, instances[|evals|].sub,
      Get(tailToOriginal, instances[|evals|].obj));
  }

  /** A head-anchored child at this anchoring. */
  predicate HeadChildAt(r: Rule, anchoring: int)
    reads r.head
  {
    r.kind == Instantiated(0) && r.GetAnchoring() == anchoring
  }

  /** A tail-anchored child at this tail. */
  predicate TailChildAt(r: Rule, tail: int)
    reads r.body
  {
    r.kind == Instantiated(1) && |r.body| > 0 && r.GetTail() == tail
  }

  /** A both-anchored child at both ends of this instance. */
  predicate BothChildAt(r: Rule, instance: Pair)
    reads r.head, r.body
  {
    r.kind == Instantiated(2) && |r.body| > 0 && Pair(r.GetAnchoring(), r.GetTail()) == instance
  }

  lemma HeadsSnoc(built: seq<Rule>, anchorings: seq<int>, rule: Rule)
    requires |built| < |anchorings|
    requires forall j {:trigger HeadChildAt(built[j], anchorings[j])} :: 0 <= j < |built| ==> HeadChildAt(built[j], anchorings[j])
    requires rule.kind == Instantiated(0) && rule.GetAnchoring() == anchorings[|built|]
    ensures forall j {:trigger HeadChildAt((built + [rule])[j], anchorings[j])} :: 0 <= j < |built| + 1 ==>
      HeadChildAt((built + [rule])[j], anchorings[j])
  {
    forall j | 0 <= j < |built| + 1 ensures (built + [rule])[j] == if j < |built| then built[j] else rule { }
  }

  lemma TailsSnoc(built: seq<Rule>, tails: seq<int>, rule: Rule)
    requires |built| < |tails|
    requires forall j {:trigger TailChildAt(built[j], tails[j])} :: 0 <= j < |built| ==>
      TailChildAt(built[j], tails[j])
    requires rule.kind == Instantiated(1) && |rule.body| > 0 && rule.GetTail() == tails[|built|]
    ensures forall j {:trigger TailChildAt((built + [rule])[j], tails[j])} :: 0 <= j < |built| + 1 ==>
      TailChildAt((built + [rule])[j], tails[j])
  {
    forall j | 0 <= j < |built| + 1 ensures (built + [rule])[j] == if j < |built| then built[j] else rule { }
  }

  lemma BothsSnoc(built: seq<Rule>, candidates: seq<Pair>, rule: Rule)
    requires |built| < |candidates|
    requires forall j {:trigger BothChildAt(built[j], candidates[j])} :: 0 <= j < |built| ==>
      BothChildAt(built[j], candidates[j])
    requires rule.kind == Instantiated(2) && |rule.body| > 0 && Pair(rule.GetAnchoring(), rule.GetTail()) == candidates[|built|]
    ensures forall j {:trigger BothChildAt((built + [rule])[j], candidates[j])} :: 0 <= j < |built| + 1 ==>
      BothChildAt((built + [rule])[j], candidates[j])
  {
    forall j | 0 <= j < |built| + 1 ensures (built + [rule])[j] == if j < |built| then built[j] else rule { }
  }

  /** An evaluation whose counts make its child qualify. */
  predicate Keeps(e: Eval)
  {
    QualifiedStats(e.hits as real, Confidence(e.hits as real, e.made as real))
  }

  /** The children whose evaluations make them qualify. */
  ghost function KeptBy(built: seq<Rule>, evals: seq<Eval>): set<Rule>
    requires |built| == |evals|
  {
    set j | 0 <= j < |built| && Keeps(evals[j]) :: built[j]
  }

  lemma KeptBySnoc(built: seq<Rule>, evals: seq<Eval>, rule: Rule, e: Eval)
    requires |built| == |evals|
    ensures KeptBy(built + [rule], evals + [e]) == KeptBy(built, evals) + (if Keeps(e) then {rule} else {})
  {
    var b', e' := built + [rule], evals + [e];
    forall r | r in KeptBy(b', e') ensures r in KeptBy(built, evals) + (if Keeps(e) then {rule} else {}) {
      var j :| 0 <= j < |b'| && Keeps(e'[j]) && r == b'[j];
      if j < |built| { assert b'[j] == built[j] && e'[j] == evals[j]; }
    }
    forall r | r in KeptBy(built, evals) ensures r in KeptBy(b', e') {
      var j :| 0 <= j < |built| && Keeps(evals[j]) && r == built[j];
      assert b'[j] == built[j] && e'[j] == evals[j];
    }
    if Keeps(e) { assert b'[|built|] == rule && e'[|built|] == e; }
  }

  /** The j-th child's statistics are those of the j-th evaluation. */
  ghost predicate Scores(built: seq<Rule>, evals: seq<Eval>, gt: set<Pair>)
    reads StatsOf(built)
  {
    |evals| == |built| &&
    forall j {:trigger ScoredBy(built[j], evals[j], gt)} :: 0 <= j < |built| ==>
      (assert built[j] in built; ScoredBy(built[j], evals[j], gt))
  }

  lemma ScoresSnoc(built: seq<Rule>, evals: seq<Eval>, gt: set<Pair>, rule: Rule, e: Eval)
    requires Scores(built, evals, gt) && ScoredBy(rule, e, gt)
    ensures Scores(built + [rule], evals + [e], gt)
  {
    forall j | 0 <= j < |built| ensures ScoredBy((built + [rule])[j], (evals + [e])[j], gt) {
      assert (built + [rule])[j] == built[j] && (evals + [e])[j] == evals[j];
    }
    assert ScoredBy((built + [rule])[|built|], (evals + [e])[|built|], gt);
  }

  /** The children kept are those whose evaluations make them qualify. */
  lemma KeptByScores(built: seq<Rule>, evals: seq<Eval>, gt: set<Pair>)
    requires Scores(built, evals, gt)
    ensures KeptOf(built) == KeptBy(built, evals)
  {
    forall r | r in KeptOf(built) ensures r in KeptBy(built, evals) {
      var j :| 0 <= j < |built| && built[j] == r;
      assert ScoredBy(built[j], evals[j], gt);
    }
    forall r | r in KeptBy(built, evals) ensures r in KeptOf(built) {
      var j :| 0 <= j < |built| && Keeps(evals[j]) && r == built[j];
      assert ScoredBy(built[j], evals[j], gt);
    }
  }

  /** Every child is a new object with new statistics. */
  twostate predicate AllFresh(new built: seq<Rule>)
  {
    forall j :: 0 <= j < |built| ==> fresh(built[j]) && fresh(built[j].stats)
  }

  twostate lemma AllFreshSnoc(new built: seq<Rule>, new rule: Rule, new built': seq<Rule>)
    requires AllFresh(built) && fresh(rule) && fresh(rule.stats)
    requires |built'| == |built| + 1 && built'[..|built|] == built && built'[|built|] == rule
    ensures AllFresh(built')
  {
    assert forall j :: 0 <= j < |built| ==> built'[j] == built[j];
  }

  /** One turn of the head-anchored loop: nothing when the global
    * ins-rule counter has passed INS_RULE_CAP, which ends the loop;
    * otherwise the next child, appended to the children built so far. */
  method HeadStep(base: Rule, g: Graph, gt: set<Pair>, anchorings: seq<int>, originals: seq<int>,
                  counter: Counter, tables: Tables, k: nat, ghost built: seq<Rule>, ghost kept0: set<Rule>,
                  ghost evals: seq<Eval>)
    returns (made: bool, stop: bool, ghost built': seq<Rule>, ghost evals': seq<Eval>)
    requires base.Valid() && base.kind.Abstract? && !base.closed
    requires k == |built| < |anchorings|
    requires HeadEvals(evals, base.fromSubject, gt, anchorings, originals) && Scores(built, evals, gt)
    requires Chained(evals, counter.count)
    requires forall a :: a in anchorings ==> a in g.names
    requires counter != tables.globalInsRuleCounter
    requires base.headRules == kept0 + KeptBy(built, evals)
    requires forall j {:trigger HeadChildAt(built[j], anchorings[j])} :: 0 <= j < |built| ==> HeadChildAt(built[j], anchorings[j])
    modifies base, counter, tables.globalInsRuleCounter
    ensures base.Valid()
    ensures base.tailRules == old(base.tailRules) && base.bothRules == old(base.bothRules)
    ensures HeadEvals(evals', base.fromSubject, gt, anchorings, originals) && Scores(built', evals', gt)
    ensures base.headRules == kept0 + KeptBy(built', evals')
    ensures Chained(evals', counter.count)
    ensures |built'| <= k + 1
    ensures forall j {:trigger HeadChildAt(built'[j], anchorings[j])} :: 0 <= j < |built'| ==> HeadChildAt(built'[j], anchorings[j])
    ensures made <==> old(tables.globalInsRuleCounter.count) <= InsRuleCap
    ensures !made ==>
      stop && built' == built && tables.globalInsRuleCounter.count == old(tables.globalInsRuleCounter.count)
    ensures made ==>
      |built'| == k + 1 && built'[..k] == built && fresh(built'[k]) && fresh(built'[k].stats) &&
      tables.globalInsRuleCounter.count == old(tables.globalInsRuleCounter.count) + 1 &&
      (stop ==> counter.count > PredictionCap)
  {
    if tables.GetGlobalInsRuleCounter() > InsRuleCap {
      made, stop := false, true;
      built', evals' := built, evals;
    } else {
      var rule;
      ghost var e;
      ghost var c := counter.count;
      made := true;
      assert anchorings[k] in anchorings;
      stop, rule, e := HeadChild(base, g, gt, anchorings[k], originals, counter, tables);
      HeadsSnoc(built, anchorings, rule);
      KeptBySnoc(built, evals, rule, e);
      ChainedSnoc(evals, c, e);
      ScoresSnoc(built, evals, gt, rule, e);
      HeadEvalsSnoc(evals, base.fromSubject, gt, anchorings, originals, e);
      built', evals' := built + [rule], evals + [e];
    }
  }

  /** The head-anchored loop of GenSpecSharedMethod: one child per
    * anchoring, in order, while the global ins-rule counter is within
    * INS_RULE_CAP, each evaluated with one shared prediction counter, the
    * loop ending when an evaluation stops early. */
  method GenSpecHead(base: Rule, g: Graph, gt: set<Pair>, anchorings: seq<int>, originals: seq<int>, tables: Tables,
                     on: bool)
    returns (ghost run: Run)
    requires base.Valid() && base.kind.Abstract? && !base.closed
    requires forall a :: a in anchorings ==> a in g.names
    modifies base, tables.globalInsRuleCounter
    ensures base.Valid()
    ensures run.before == old(tables.globalInsRuleCounter.count) && run.after == tables.globalInsRuleCounter.count
    ensures Ran(run, |anchorings|, on)
    ensures base.tailRules == old(base.tailRules) && base.bothRules == old(base.bothRules)
    ensures base.headRules == old(base.headRules) + KeptOf(run.built)
    ensures AllFresh(run.built) && HeadsAt(run.built, anchorings)
    ensures HeadEvals(run.evals, base.fromSubject, gt, anchorings, originals) && Scores(run.built, run.evals, gt)
    ensures Chained(run.evals, run.predictions)
  {
    var counter := new Counter();
    ghost var c0 := tables.globalInsRuleCounter.count;
    ghost var built: seq<Rule> := [];
    ghost var evals: seq<Eval> := [];
    var k := 0;
    var stop := false;
    while on && k < |anchorings| && !stop
      invariant 0 <= k <= |anchorings| && |built| == k == |evals|
      decreases |anchorings| - k, if stop then 0 else 1
      invariant base.Valid()
      invariant tables.globalInsRuleCounter.count == c0 + k
      invariant CapKept(c0, tables.globalInsRuleCounter.count)
      invariant (!on || c0 > InsRuleCap) ==> k == 0
      invariant stop ==> tables.globalInsRuleCounter.count > InsRuleCap || counter.count > PredictionCap
      invariant base.tailRules == old(base.tailRules) && base.bothRules == old(base.bothRules)
      invariant base.headRules == old(base.headRules) + KeptBy(built, evals)
      invariant AllFresh(built)
      invariant forall j {:trigger HeadChildAt(built[j], anchorings[j])} :: 0 <= j < k ==> HeadChildAt(built[j], anchorings[j])
      invariant HeadEvals(evals, base.fromSubject, gt, anchorings, originals) && Scores(built, evals, gt)
      invariant Chained(evals, counter.count)
    {
      ghost var before := built;
      var made;
      made, stop, built, evals := HeadStep(base, g, gt, anchorings, originals, counter, tables, k, built,
        old(base.headRules), evals);
      if made {
        AllFreshSnoc(before, built[k], built);
        k := k + 1;
      }
    }
    KeptByScores(built, evals, gt);
    run := Run(built, evals, counter.count, c0, tables.globalInsRuleCounter.count);
  }

  /** One tail-anchored child, past the cap check: the global ins-rule
    * counter ticked, and the base rule with the tail bound as its last body
    * object, evaluated over every anchoring and the originals the
    * tail-to-original map holds for the tail (in some order), and kept in
    * tailRules when it qualifies. */
  method TailChild(base: Rule, g: Graph, gt: set<Pair>, tail: int, anchorings: seq<int>,
                   tailToOriginal: map<int, set<int>>, counter: Counter, tables: Tables)
    returns (stop: bool, rule: Rule, ghost e: Eval)
    requires base.Valid() && base.kind.Abstract? && !base.closed
    requires tail in g.names
    requires counter != tables.globalInsRuleCounter
    modifies base, counter, tables.globalInsRuleCounter
    ensures tables.globalInsRuleCounter.count == old(tables.globalInsRuleCounter.count) + 1
    ensures TailEval(e, base.fromSubject, gt, anchorings, Get(tailToOriginal, tail)) && e.start == old(counter.count)
    ensures ScoredBy(rule, e, gt) && counter.count == e.start + e.made
    ensures base.Valid()
    ensures base.headRules == old(base.headRules) && base.bothRules == old(base.bothRules)
    ensures base.tailRules == old(base.tailRules) + (if Qualified(rule) then {rule} else {})
    ensures fresh(rule) && fresh(rule.stats) && rule.kind == Instantiated(1)
    ensures |rule.body| > 0 && rule.GetTail() == tail
    ensures stop <==> |e.preds| > 0 && counter.count > PredictionCap
  {
    tables.TickGlobalInsRuleCounter();
    var listing := Enumerate(Get(tailToOriginal, tail));
    rule := TailAnchored(base, g, tail);
    ghost var preds := Predictions(base.fromSubject, anchorings, listing);
    ghost var n := Processed(|preds|, counter.count, PredictionCap);
    e := Eval(listing, preds, counter.count, n, Hits(preds[..n], gt));
    stop := EvaluateTailRules(base, rule, gt, anchorings, listing, TailRules, counter);
  }

  /** The base rule with the tail bound as its last body object. */
  method TailAnchored(base: Rule, g: Graph, tail: int) returns (rule: Rule)
    requires base.Valid() && base.kind.Abstract? && !base.closed
    requires tail in g.names
    ensures fresh(rule) && fresh(rule.stats) && rule.stats.Valid() && rule.kind == Instantiated(1)
    ensures |rule.body| > 0 && rule.GetTail() == tail
  {
    var made := InstantiateFromBase(base, [g.names[tail]], [tail], 1);
    rule := made.value;
    BindingsAreAnchoringAndTail(base.head.View(), Views(base.body), base.fromSubject, g.names[tail], tail);
  }

  /** One turn of the tail-anchored loop: nothing when the global
    * ins-rule counter has passed INS_RULE_CAP, which ends the loop;
    * otherwise the next child, appended to the children built so far. */
  method TailStep(base: Rule, g: Graph, gt: set<Pair>, anchorings: seq<int>, tails: seq<int>,
                  tailToOriginal: map<int, set<int>>, counter: Counter, tables: Tables, k: nat,
                  ghost built: seq<Rule>, ghost kept0: set<Rule>, ghost evals: seq<Eval>)
    returns (made: bool, stop: bool, ghost built': seq<Rule>, ghost evals': seq<Eval>)
    requires base.Valid() && base.kind.Abstract? && !base.closed
    requires k == |built| < |tails|
    requires TailEvals(evals, base.fromSubject, gt, anchorings, tails, tailToOriginal) && Scores(built, evals, gt)
    requires Chained(evals, counter.count)
    requires forall t :: t in tails ==> t in g.names
    requires counter != tables.globalInsRuleCounter
    requires base.tailRules == kept0 + KeptBy(built, evals)
    requires forall j {:trigger TailChildAt(built[j], tails[j])} :: 0 <= j < |built| ==>
      TailChildAt(built[j], tails[j])
    modifies base, counter, tables.globalInsRuleCounter
    ensures base.Valid()
    ensures base.headRules == old(base.headRules) && base.bothRules == old(base.bothRules)
    ensures TailEvals(evals', base.fromSubject, gt, anchorings, tails, tailToOriginal) && Scores(built', evals', gt)
    ensures base.tailRules == kept0 + KeptBy(built', evals')
    ensures Chained(evals', counter.count)
    ensures |built'| <= k + 1
    ensures forall j {:trigger TailChildAt(built'[j], tails[j])} :: 0 <= j < |built'| ==>
      TailChildAt(built'[j], tails[j])
    ensures made <==> old(tables.globalInsRuleCounter.count) <= InsRuleCap
    ensures !made ==>
      stop && built' == built && tables.globalInsRuleCounter.count == old(tables.globalInsRuleCounter.count)
    ensures made ==>
      |built'| == k + 1 && built'[..k] == built && fresh(built'[k]) && fresh(built'[k].stats) &&
      tables.globalInsRuleCounter.count == old(tables.globalInsRuleCounter.count) + 1 &&
      (stop ==> counter.count > PredictionCap)
  {
    if tables.GetGlobalInsRuleCounter() > InsRuleCap {
      made, stop := false, true;
      built', evals' := built, evals;
    } else {
      var rule;
      ghost var e;
      ghost var c := counter.count;
      made := true;
      assert tails[k] in tails;
      stop, rule, e := TailChild(base, g, gt, tails[k], anchorings, tailToOriginal, counter, tables);
      TailsSnoc(built, tails, rule);
      KeptBySnoc(built, evals, rule, e);
      ChainedSnoc(evals, c, e);
      ScoresSnoc(built, evals, gt, rule, e);
      TailEvalsSnoc(evals, base.fromSubject, gt, anchorings, tails, tailToOriginal, e);
      built', evals' := built + [rule], evals + [e];
    }
  }

  /** The tail-anchored loop: one child per ranked tail, in order, while
    * the global ins-rule counter is within INS_RULE_CAP, its originals
    * those the tail-to-original map holds for it (in some order), the loop
    * ending when an evaluation stops early. */
  method GenSpecTail(base: Rule, g: Graph, gt: set<Pair>, anchorings: seq<int>, tails: seq<int>,
                     tailToOriginal: map<int, set<int>>, tables: Tables, on: bool)
    returns (ghost run: Run)
    requires base.Valid() && base.kind.Abstract? && !base.closed
    requires forall t :: t in tails ==> t in g.names
    modifies base, tables.globalInsRuleCounter
    ensures base.Valid()
    ensures run.before == old(tables.globalInsRuleCounter.count) && run.after == tables.globalInsRuleCounter.count
    ensures Ran(run, |tails|, on)
    ensures base.headRules == old(base.headRules) && base.bothRules == old(base.bothRules)
    ensures base.tailRules == old(base.tailRules) + KeptOf(run.built)
    ensures AllFresh(run.built) && TailsAt(run.built, tails)
    ensures TailEvals(run.evals, base.fromSubject, gt, anchorings, tails, tailToOriginal) && Scores(run.built, run.evals, gt)
    ensures Chained(run.evals, run.predictions)
  {
    var counter := new Counter();
    ghost var c0 := tables.globalInsRuleCounter.count;
    ghost var built: seq<Rule> := [];
    ghost var evals: seq<Eval> := [];
    var k := 0;
    var stop := false;
    while on && k < |tails| && !stop
      invariant 0 <= k <= |tails| && |built| == k == |evals|
      decreases |tails| - k, if stop then 0 else 1
      invariant base.Valid()
      invariant tables.globalInsRuleCounter.count == c0 + k
      invariant CapKept(c0, tables.globalInsRuleCounter.count)
      invariant (!on || c0 > InsRuleCap) ==> k == 0
      invariant stop ==> tables.globalInsRuleCounter.count > InsRuleCap || counter.count > PredictionCap
      invariant base.headRules == old(base.headRules) && base.bothRules == old(base.bothRules)
      invariant base.tailRules == old(base.tailRules) + KeptBy(built, evals)
      invariant AllFresh(built)
      invariant forall j {:trigger TailChildAt(built[j], tails[j])} :: 0 <= j < k ==>
        TailChildAt(built[j], tails[j])
      invariant TailEvals(evals, base.fromSubject, gt, anchorings, tails, tailToOriginal) && Scores(built, evals, gt)
      invariant Chained(evals, counter.count)
    {
      ghost var before := built;
      var made;
      made, stop, built, evals := TailStep(base, g, gt, anchorings, tails, tailToOriginal, counter, tables, k, built,
        old(base.tailRules), evals);
      if made {
        AllFreshSnoc(before, built[k], built);
        k := k + 1;
      }
    }
    KeptByScores(built, evals, gt);
    run := Run(built, evals, counter.count, c0, tables.globalInsRuleCounter.count);
  }

  /** One both-anchored child, past the cap check: the global ins-rule
    * counter ticked, and the base rule with the instance's anchoring bound
    * in the head and its tail as the last body object, evaluated over the
    * originals the tail-to-original map holds for the tail (in some order),
    * and kept in bothRules when it qualifies. */
  method BothChild(base: Rule, g: Graph, gt: set<Pair>, instance: Pair, tailToOriginal: map<int, set<int>>,
                   counter: Counter, tables: Tables)
    returns (stop: bool, rule: Rule, ghost e: Eval)
    requires base.Valid() && base.kind.Abstract? && !base.closed
    requires instance.sub in g.names && instance.obj in g.names
    requires counter != tables.globalInsRuleCounter
    modifies base, counter, tables.globalInsRuleCounter
    ensures tables.globalInsRuleCounter.count == old(tables.globalInsRuleCounter.count) + 1
    ensures BothEval(e, base.fromSubject, gt, instance.sub, Get(tailToOriginal, instance.obj)) &&
      e.start == old(counter.count)
    ensures ScoredBy(rule, e, gt) && counter.count == e.start + e.made
    ensures base.Valid()
    ensures base.headRules == old(base.headRules) && base.tailRules == old(base.tailRules)
    ensures base.bothRules == old(base.bothRules) + (if Qualified(rule) then {rule} else {})
    ensures fresh(rule) && fresh(rule.stats) && rule.kind == Instantiated(2)
    ensures |rule.body| > 0 && rule.GetAnchoring() == instance.sub && rule.GetTail() == instance.obj
    ensures stop <==> |e.originals| > 0 && counter.count > PredictionCap
  {
    tables.TickGlobalInsRuleCounter();
    var listing := Enumerate(Get(tailToOriginal, instance.obj));
    rule := BothAnchored(base, g, instance);
    ghost var preds := Row(base.fromSubject, instance.sub, listing);
    ghost var n := Processed(|preds|, counter.count, PredictionCap);
    e := Eval(listing, preds, counter.count, n, Hits(preds[..n], gt));
    stop := EvaluateRule(base, rule, gt, instance.sub, listing, BothRules, counter);
  }

  /** The base rule with the instance's anchoring bound in the head and its
    * tail as the last body object. */
  method BothAnchored(base: Rule, g: Graph, instance: Pair) returns (rule: Rule)
    requires base.Valid() && base.kind.Abstract? && !base.closed
    requires instance.sub in g.names && instance.obj in g.names
    ensures fresh(rule) && fresh(rule.stats) && rule.stats.Valid() && rule.kind == Instantiated(2)
    ensures |rule.body| > 0 && rule.GetAnchoring() == instance.sub && rule.GetTail() == instance.obj
  {
    var names := [g.names[instance.sub], g.names[instance.obj]];
    var made := InstantiateFromBase(base, names, [instance.sub, instance.obj], 2);
    rule := made.value;
    BindingsAreAnchoringAndTail(base.head.View(), Views(base.body), base.fromSubject, names[0], instance.sub);
    BindingsAreAnchoringAndTail(base.head.View(), Views(base.body), base.fromSubject, names[1], instance.obj);
  }

  /** The instances the both-anchored loop builds children for: those that
    * are not trivial, in order. */
  function NonTrivial(base: Rule, instances: seq<Pair>): (r: seq<Pair>)
    ensures |r| <= |instances|
  {
    if instances == [] then []
    else
      var n := |instances| - 1;
      NonTrivial(base, instances[..n]) + (if IsTrivial(base, instances[n]) then [] else [instances[n]])
  }

  /** The non-trivial instances are the instances that are not trivial. */
  lemma {:induction false} NonTrivialMembers(base: Rule, instances: seq<Pair>, p: Pair)
    ensures p in NonTrivial(base, instances) <==> p in instances && !IsTrivial(base, p)
    decreases |instances|
  {
    if instances != [] {
      var n := |instances| - 1;
      NonTrivialMembers(base, instances[..n], p);
      assert instances == instances[..n] + [instances[n]];
    }
  }

  /** The non-trivial instances of named instances are named. */
  lemma NonTrivialNamed(base: Rule, instances: seq<Pair>, g: Graph)
    requires forall p :: p in instances ==> p.sub in g.names && p.obj in g.names
    ensures forall p :: p in NonTrivial(base, instances) ==> p.sub in g.names && p.obj in g.names
  {
    forall p | p in NonTrivial(base, instances) ensures p.sub in g.names && p.obj in g.names {
      NonTrivialMembers(base, instances, p);
    }
  }

  /** One turn of the both-anchored loop: nothing when the global
    * ins-rule counter has passed INS_RULE_CAP, which ends the loop;
    * otherwise the next child, appended to the children built so far. */
  method BothStep(base: Rule, g: Graph, gt: set<Pair>, candidates: seq<Pair>, tailToOriginal: map<int, set<int>>,
                  counter: Counter, tables: Tables, k: nat, ghost built: seq<Rule>, ghost kept0: set<Rule>,
                  ghost evals: seq<Eval>)
    returns (made: bool, stop: bool, ghost built': seq<Rule>, ghost evals': seq<Eval>)
    requires base.Valid() && base.kind.Abstract? && !base.closed
    requires k == |built| < |candidates|
    requires BothEvals(evals, base.fromSubject, gt, candidates, tailToOriginal) && Scores(built, evals, gt)
    requires Chained(evals, counter.count)
    requires forall p :: p in candidates ==> p.sub in g.names && p.obj in g.names
    requires counter != tables.globalInsRuleCounter
    requires base.bothRules == kept0 + KeptBy(built, evals)
    requires forall j {:trigger BothChildAt(built[j], candidates[j])} :: 0 <= j < |built| ==>
      BothChildAt(built[j], candidates[j])
    modifies base, counter, tables.globalInsRuleCounter
    ensures base.Valid()
    ensures base.headRules == old(base.headRules) && base.tailRules == old(base.tailRules)
    ensures BothEvals(evals', base.fromSubject, gt, candidates, tailToOriginal) && Scores(built', evals', gt)
    ensures base.bothRules == kept0 + KeptBy(built', evals')
    ensures Chained(evals', counter.count)
    ensures |built'| <= k + 1
    ensures forall j {:trigger BothChildAt(built'[j], candidates[j])} :: 0 <= j < |built'| ==>
      BothChildAt(built'[j], candidates[j])
    ensures made <==> old(tables.globalInsRuleCounter.count) <= InsRuleCap
    ensures !made ==>
      stop && built' == built && tables.globalInsRuleCounter.count == old(tables.globalInsRuleCounter.count)
    ensures made ==>
      |built'| == k + 1 && built'[..k] == built && fresh(built'[k]) && fresh(built'[k].stats) &&
      tables.globalInsRuleCounter.count == old(tables.globalInsRuleCounter.count) + 1 &&
      (stop ==> counter.count > PredictionCap)
  {
    if tables.GetGlobalInsRuleCounter() > InsRuleCap {
      made, stop := false, true;
      built', evals' := built, evals;
    } else {
      var rule;
      ghost var e;
      ghost var c := counter.count;
      made := true;
      assert candidates[k] in candidates;
      stop, rule, e := BothChild(base, g, gt, candidates[k], tailToOriginal, counter, tables);
      KeptBySnoc(built, evals, rule, e);
      ChainedSnoc(evals, c, e);
      ScoresSnoc(built, evals, gt, rule, e);
      BothEvalsSnoc(evals, base.fromSubject, gt, candidates, tailToOriginal, e);
      BothsSnoc(built, candidates, rule);
      built', evals' := built + [rule], evals + [e];
    }
  }

  /** The both-anchored loop: one child per (anchoring, tail) instance that
    * is not trivial, in order, while the global ins-rule counter is within
    * INS_RULE_CAP, its originals those the tail-to-original map holds for
    * the tail, the loop ending when an evaluation stops early. The trivial
    * instances are passed over before the loop rather than inside it: the
    * test has no effect, so the children built are the same. */
  method GenSpecBoth(base: Rule, g: Graph, gt: set<Pair>, instances: seq<Pair>,
                     tailToOriginal: map<int, set<int>>, tables: Tables, on: bool)
    returns (ghost run: Run)
    requires base.Valid() && base.kind.Abstract? && !base.closed
    requires forall p :: p in instances ==> p.sub in g.names && p.obj in g.names
    modifies base, tables.globalInsRuleCounter
    ensures base.Valid()
    ensures run.before == old(tables.globalInsRuleCounter.count) && run.after == tables.globalInsRuleCounter.count
    ensures Ran(run, |NonTrivial(base, instances)|, on)
    ensures base.headRules == old(base.headRules) && base.tailRules == old(base.tailRules)
    ensures base.bothRules == old(base.bothRules) + KeptOf(run.built)
    ensures AllFresh(run.built) && BothAt(run.built, NonTrivial(base, instances))
    ensures BothEvals(run.evals, base.fromSubject, gt, NonTrivial(base, instances), tailToOriginal)
    ensures Scores(run.built, run.evals, gt) && Chained(run.evals, run.predictions)
  {
    var candidates := NonTrivial(base, instances);
    NonTrivialNamed(base, instances, g);
    var counter := new Counter();
    ghost var c0 := tables.globalInsRuleCounter.count;
    ghost var built: seq<Rule> := [];
    ghost var evals: seq<Eval> := [];
    var k := 0;
    var stop := false;
    while on && k < |candidates| && !stop
      invariant 0 <= k <= |candidates| && |built| == k == |evals|
      decreases |candidates| - k, if stop then 0 else 1
      invariant base.Valid()
      invariant tables.globalInsRuleCounter.count == c0 + k
      invariant CapKept(c0, tables.globalInsRuleCounter.count)
      invariant (!on || c0 > InsRuleCap) ==> k == 0
      invariant stop ==> tables.globalInsRuleCounter.count > InsRuleCap || counter.count > PredictionCap
      invariant base.headRules == old(base.headRules) && base.tailRules == old(base.tailRules)
      invariant base.bothRules == old(base.bothRules) + KeptBy(built, evals)
      invariant AllFresh(built)
      invariant forall j {:trigger BothChildAt(built[j], candidates[j])} :: 0 <= j < k ==>
        BothChildAt(built[j], candidates[j])
      invariant BothEvals(evals, base.fromSubject, gt, candidates, tailToOriginal) && Scores(built, evals, gt)
      invariant Chained(evals, counter.count)
    {
      ghost var before := built;
      var made;
      made, stop, built, evals := BothStep(base, g, gt, candidates, tailToOriginal, counter, tables, k, built,
        old(base.bothRules), evals);
      if made {
        AllFreshSnoc(before, built[k], built);
        k := k + 1;
      }
    }
    KeptByScores(built, evals, gt);
    run := Run(built, evals, counter.count, c0, tables.globalInsRuleCounter.count);
  }

  // ---------------------------------------------------------------------
  // GenSpecSharedMethod
  // ---------------------------------------------------------------------

  /** A both-anchored instance: an anchoring, and a tail some body
    * grounding reaches from an original whose prediction at the anchoring
    * is a ground-truth fact. */
  ghost predicate BothInstance(p: Pair, fromSubject: bool, anchorings: seq<int>, pairs: set<Pair>, gt: set<Pair>)
  {
    p.sub in anchorings && exists o :: Pair(o, p.obj) in pairs && Prediction(fromSubject, o, p.sub) in gt
  }

  /** The both-anchored part: the (anchoring, tail) instances built from
    * the two multimaps, listed once each in some order, and specialised. */
  method GenSpecBothPart(base: Rule, g: Graph, gt: set<Pair>, anchorings: seq<int>,
                         tailToOriginal: map<int, set<int>>, anchoringToOriginal: map<int, set<int>>,
                         tables: Tables, on: bool, ghost groundings: seq<Pair>, ghost gtList: seq<Pair>,
                         ghost pairs: set<Pair>)
    returns (ghost listed: seq<Pair>, ghost run: Run)
    requires base.Valid() && base.kind.Abstract? && !base.closed
    requires forall a :: a in anchorings ==> a in g.names
    requires forall t :: t in Tails(groundings) ==> t in g.names
    requires IsTailToOriginal(tailToOriginal, groundings)
    requires IsAnchoringToOriginal(anchoringToOriginal, base.fromSubject, gtList, anchorings)
    requires forall x :: x in groundings <==> x in pairs
    requires forall x :: x in gtList <==> x in gt
    modifies base, tables.globalInsRuleCounter
    ensures base.Valid()
    ensures on ==>
      Distinct(listed) && forall p :: p in listed <==> BothInstance(p, base.fromSubject, anchorings, pairs, gt)
    ensures run.before == old(tables.globalInsRuleCounter.count) && run.after == tables.globalInsRuleCounter.count
    ensures Ran(run, |NonTrivial(base, listed)|, on)
    ensures base.headRules == old(base.headRules) && base.tailRules == old(base.tailRules)
    ensures base.bothRules == old(base.bothRules) + KeptOf(run.built)
    ensures AllFresh(run.built) && BothAt(run.built, NonTrivial(base, listed))
    ensures BothEvals(run.evals, base.fromSubject, gt, NonTrivial(base, listed), tailToOriginal)
    ensures Scores(run.built, run.evals, gt) && Chained(run.evals, run.predictions)
  {
    if !on {
      ghost var c := tables.globalInsRuleCounter.count;
      listed, run := [], Run([], [], 0, c, c);
      assert KeptOf([]) == {};
      return;
    }
    var instances := CreateBothRuleInstances(tailToOriginal, anchoringToOriginal);
    BothInstancesMeaning(instances, tailToOriginal, anchoringToOriginal, base.fromSubject, groundings, gtList, anchorings);
    TailKeys(tailToOriginal, groundings);
    AnchoringKeys(anchoringToOriginal, base.fromSubject, gtList, anchorings);
    var all := Enumerate(instances);
    listed := all;
    forall p | p in listed ensures p.sub in g.names && p.obj in g.names {
      assert Pair(p.sub, p.obj) in instances;
    }
    forall p ensures p in listed <==> BothInstance(p, base.fromSubject, anchorings, pairs, gt) {
      assert p == Pair(p.sub, p.obj);
    }
    run := GenSpecBoth(base, g, gt, all, tailToOriginal, tables, true);
  }

  /** What GenSpecSharedMethod's three specialisation loops did, in the
    * order head, tail, both, with the both-anchored instances listed. */
  datatype Children = Children(head: Run, tail: Run, listed: seq<Pair>, both: Run)

  /** The objects the children of the three loops are made of: their
    * statistics and their atoms. */
  ghost function Footprint(ch: Children): set<object>
  {
    StatsOf(ch.head.built) + StatsOf(ch.tail.built) + StatsOf(ch.both.built) +
    HeadAtoms(ch.head.built) + HeadAtoms(ch.both.built) + BodyAtoms(ch.tail.built) + BodyAtoms(ch.both.built)
  }

  /** Where the children of the three loops went: each bucket holds what
    * it held in `s0` and the children of its kind that qualify, and the
    * j-th child of each kind carries the j-th candidate of its loop. */
  ghost predicate Recorded(base: Rule, s0: Buckets, ch: Children, anchorings: seq<int>, tails: seq<int>)
    reads base, Footprint(ch)
  {
    base.headRules == s0.head + KeptOf(ch.head.built) &&
    base.tailRules == s0.tail + KeptOf(ch.tail.built) &&
    base.bothRules == s0.both + KeptOf(ch.both.built) &&
    HeadsAt(ch.head.built, anchorings) && TailsAt(ch.tail.built, tails) &&
    BothAt(ch.both.built, NonTrivial(base, ch.listed))
  }

  /** How the children of the three loops were scored: the j-th child of
    * each kind by the j-th evaluation of its loop against the ground
    * truth, the evaluations of one loop drawing on one prediction counter
    * from zero. */
  ghost predicate Evaluated(ch: Children, fromSubject: bool, gt: set<Pair>, anchorings: seq<int>, originals: seq<int>,
                            tails: seq<int>, tailToOriginal: map<int, set<int>>, instances: seq<Pair>)
    reads StatsOf(ch.head.built), StatsOf(ch.tail.built), StatsOf(ch.both.built)
  {
    HeadEvals(ch.head.evals, fromSubject, gt, anchorings, originals) && Scores(ch.head.built, ch.head.evals, gt) &&
    Chained(ch.head.evals, ch.head.predictions) &&
    TailEvals(ch.tail.evals, fromSubject, gt, anchorings, tails, tailToOriginal) &&
    Scores(ch.tail.built, ch.tail.evals, gt) && Chained(ch.tail.evals, ch.tail.predictions) &&
    BothEvals(ch.both.evals, fromSubject, gt, instances, tailToOriginal) && Scores(ch.both.built, ch.both.evals, gt) &&
    Chained(ch.both.evals, ch.both.predictions)
  }

  /** The first two specialisation loops, head-anchored then tail-anchored,
    * the global ins-rule counter running on from one to the next. */
  method GenSpecHeadTail(base: Rule, g: Graph, gt: set<Pair>, anchorings: seq<int>, originals: seq<int>,
                         tails: seq<int>, tailToOriginal: map<int, set<int>>, tables: Tables, sw: Switches)
    returns (ghost head: Run, ghost tail: Run)
    requires base.Valid() && base.kind.Abstract? && !base.closed
    requires forall a :: a in anchorings ==> a in g.names
    requires forall t :: t in tails ==> t in g.names
    modifies base, tables.globalInsRuleCounter
    ensures base.Valid()
    ensures head.before == old(tables.globalInsRuleCounter.count) && tail.before == head.after &&
      tail.after == tables.globalInsRuleCounter.count
    ensures Ran(head, |anchorings|, sw.useHeadRules) && Ran(tail, |tails|, sw.useTailRules)
    ensures base.headRules == old(base.headRules) + KeptOf(head.built)
    ensures base.tailRules == old(base.tailRules) + KeptOf(tail.built) && base.bothRules == old(base.bothRules)
    ensures AllFresh(head.built) && HeadsAt(head.built, anchorings)
    ensures AllFresh(tail.built) && TailsAt(tail.built, tails)
    ensures HeadEvals(head.evals, base.fromSubject, gt, anchorings, originals) && Scores(head.built, head.evals, gt)
    ensures Chained(head.evals, head.predictions)
    ensures TailEvals(tail.evals, base.fromSubject, gt, anchorings, tails, tailToOriginal) &&
      Scores(tail.built, tail.evals, gt)
    ensures Chained(tail.evals, tail.predictions)
  {
    head := GenSpecHead(base, g, gt, anchorings, originals, tables, sw.useHeadRules);
    tail := GenSpecTail(base, g, gt, anchorings, tails, tailToOriginal, tables, sw.useTailRules);
  }

  /** The children GenSpecSharedMethod makes for an open rule: the three
    * kinds the switches allow, in the order head, tail, both, the global
    * ins-rule counter running on from one loop to the next. */
  method GenSpecChildren(base: Rule, g: Graph, gt: set<Pair>, anchorings: seq<int>, originals: seq<int>,
                         tails: seq<int>, tailToOriginal: map<int, set<int>>, anchoringToOriginal: map<int, set<int>>,
                         tables: Tables, sw: Switches, ghost groundings: seq<Pair>, ghost gtList: seq<Pair>,
                         ghost pairs: set<Pair>)
    returns (ghost ch: Children)
    requires base.Valid() && base.kind.Abstract? && !base.closed
    requires forall a :: a in anchorings ==> a in g.names
    requires forall t :: t in tails ==> t in g.names
    requires forall t :: t in Tails(groundings) ==> t in g.names
    requires IsTailToOriginal(tailToOriginal, groundings)
    requires IsAnchoringToOriginal(anchoringToOriginal, base.fromSubject, gtList, anchorings)
    requires forall x :: x in groundings <==> x in pairs
    requires forall x :: x in gtList <==> x in gt
    modifies base, tables.globalInsRuleCounter
    ensures base.Valid()
    ensures ch.head.before == old(tables.globalInsRuleCounter.count) && ch.tail.before == ch.head.after &&
      ch.both.before == ch.tail.after && ch.both.after == tables.globalInsRuleCounter.count
    ensures Ran(ch.head, |anchorings|, sw.useHeadRules) && Ran(ch.tail, |tails|, sw.useTailRules) &&
      Ran(ch.both, |NonTrivial(base, ch.listed)|, sw.useBothRules)
    ensures sw.useBothRules ==>
      Distinct(ch.listed) &&
      forall p :: p in ch.listed <==> BothInstance(p, base.fromSubject, anchorings, pairs, gt)
    ensures Recorded(base, old(Snapshot(base)), ch, anchorings, tails)
    ensures AllFresh(ch.head.built) && AllFresh(ch.tail.built) && AllFresh(ch.both.built)
    ensures Evaluated(ch, base.fromSubject, gt, anchorings, originals, tails, tailToOriginal, NonTrivial(base, ch.listed))
    ensures CapKept(old(tables.globalInsRuleCounter.count), tables.globalInsRuleCounter.count)
    ensures old(base.headRules) <= base.headRules && (!sw.useHeadRules ==> base.headRules == old(base.headRules))
    ensures old(base.tailRules) <= base.tailRules && (!sw.useTailRules ==> base.tailRules == old(base.tailRules))
    ensures old(base.bothRules) <= base.bothRules && (!sw.useBothRules ==> base.bothRules == old(base.bothRules))
  {
    ghost var head, tail := GenSpecHeadTail(base, g, gt, anchorings, originals, tails, tailToOriginal, tables, sw);
    ghost var listed, both := GenSpecBothPart(base, g, gt, anchorings, tailToOriginal, anchoringToOriginal, tables,
      sw.useBothRules, groundings, gtList, pairs);
    ch := Children(head, tail, listed, both);
    CapKeptChain(head.before, head.after, tail.after, both.after);
  }

  /** The open branch of GenSpecSharedMethod: the children, then the base
    * rule's own statistics from its head-anchored children. */
  method GenSpecOpen(base: Rule, g: Graph, gt: set<Pair>, anchorings: seq<int>, originals: seq<int>,
                     tails: seq<int>, tailToOriginal: map<int, set<int>>, anchoringToOriginal: map<int, set<int>>,
                     tables: Tables, sw: Switches, ghost groundings: seq<Pair>, ghost gtList: seq<Pair>,
                     ghost pairs: set<Pair>)
    returns (ghost ch: Children, ghost order: seq<Rule>)
    requires base.Valid() && base.kind.Abstract? && !base.closed
    requires forall r :: r in base.headRules ==> r.stats != base.stats
    requires forall a :: a in anchorings ==> a in g.names
    requires forall t :: t in tails ==> t in g.names
    requires forall t :: t in Tails(groundings) ==> t in g.names
    requires IsTailToOriginal(tailToOriginal, groundings)
    requires IsAnchoringToOriginal(anchoringToOriginal, base.fromSubject, gtList, anchorings)
    requires forall x :: x in groundings <==> x in pairs
    requires forall x :: x in gtList <==> x in gt
    modifies base, base.stats, tables.globalInsRuleCounter
    ensures base.Valid()
    ensures ch.head.before == old(tables.globalInsRuleCounter.count) && ch.tail.before == ch.head.after &&
      ch.both.before == ch.tail.after && ch.both.after == tables.globalInsRuleCounter.count
    ensures CapKept(old(tables.globalInsRuleCounter.count), tables.globalInsRuleCounter.count)
    ensures Ran(ch.head, |anchorings|, !base.closed && sw.useHeadRules) &&
      Ran(ch.tail, |tails|, !base.closed && sw.useTailRules) &&
      Ran(ch.both, |NonTrivial(base, ch.listed)|, !base.closed && sw.useBothRules)
    ensures !base.closed && sw.useBothRules ==>
      Distinct(ch.listed) &&
      forall p :: p in ch.listed <==> BothInstance(p, base.fromSubject, anchorings, pairs, gt)
    ensures Recorded(base, old(Snapshot(base)), ch, anchorings, tails)
    ensures AllFresh(ch.head.built) && AllFresh(ch.tail.built) && AllFresh(ch.both.built)
    ensures Evaluated(ch, base.fromSubject, gt, anchorings, originals, tails, tailToOriginal, NonTrivial(base, ch.listed))
    ensures old(base.headRules) <= base.headRules && (!sw.useHeadRules ==> base.headRules == old(base.headRules))
    ensures old(base.tailRules) <= base.tailRules && (!sw.useTailRules ==> base.tailRules == old(base.tailRules))
    ensures old(base.bothRules) <= base.bothRules && (!sw.useBothRules ==> base.bothRules == old(base.bothRules))
    ensures Enumerates(order, base.headRules)
    ensures base.stats.support == SupportSum(order) && base.stats.totalPredictions == PredictionSum(order)
    ensures base.stats.groundTruth == LastGroundTruth(order)
    ensures base.stats.headAnchoredSize == |base.headRules| as real
    ensures base.stats.localAvgSupport == Ratio(base.stats.support, |base.headRules| as real)
    ensures base.stats.sc == Confidence(base.stats.support, base.stats.totalPredictions)
    ensures base.stats.hc == Ratio(base.stats.support, base.stats.groundTruth)
  {
    ch := GenSpecChildren(base, g, gt, anchorings, originals, tails, tailToOriginal, anchoringToOriginal, tables, sw,
      groundings, gtList, pairs);
    OldApart(base.stats, ch);
    ghost var c := tables.globalInsRuleCounter.count;
    assert base.stats != tables.globalInsRuleCounter as object;
    order := ScoreSpecialised(base, old(Snapshot(base)), ch, gt, anchorings, originals, tails, tailToOriginal,
      Footprint(ch));
    assert tables.globalInsRuleCounter.count == c;
    assert base as object != base.stats;
  }

  /** Statistics that existed before the loops are none of their
    * children's objects. */
  twostate lemma OldApart(s: RuleStats, new ch: Children)
    requires AllFresh(ch.head.built) && AllFresh(ch.tail.built) && AllFresh(ch.both.built)
    ensures s !in Footprint(ch)
  {
    assert s !in StatsOf(ch.head.built);
    assert s !in StatsOf(ch.tail.built) && s !in StatsOf(ch.both.built);
  }

  /** The cap is kept across consecutive loops. */
  lemma CapKeptChain(a: int, b: int, c: int, d: int)
    requires CapKept(a, b) && CapKept(b, c) && CapKept(c, d)
    ensures CapKept(a, d)
  {
  }

  /** ScoreOpen after the specialisation loops: their children, whose
    * statistics are not the base rule's, stay where they went. */
  method ScoreSpecialised(base: Rule, ghost s0: Buckets, ghost ch: Children, ghost gt: set<Pair>,
                          ghost anchorings: seq<int>, ghost originals: seq<int>, ghost tails: seq<int>,
                          ghost tailToOriginal: map<int, set<int>>, ghost footprint: set<object>)
    returns (ghost order: seq<Rule>)
    requires base.Valid() && base.kind.Abstract? && !base.closed
    requires forall r :: r in s0.head ==> r.stats != base.stats
    requires Recorded(base, s0, ch, anchorings, tails)
    requires Evaluated(ch, base.fromSubject, gt, anchorings, originals, tails, tailToOriginal, NonTrivial(base, ch.listed))
    requires footprint == Footprint(ch) && base.stats !in footprint
    modifies base.stats
    ensures base.Valid()
    ensures Recorded(base, s0, ch, anchorings, tails)
    ensures Evaluated(ch, base.fromSubject, gt, anchorings, originals, tails, tailToOriginal, NonTrivial(base, ch.listed))
    ensures Enumerates(order, base.headRules)
    ensures base.stats.support == SupportSum(order) && base.stats.totalPredictions == PredictionSum(order)
    ensures base.stats.groundTruth == LastGroundTruth(order)
    ensures base.stats.headAnchoredSize == |base.headRules| as real
    ensures base.stats.localAvgSupport == Ratio(base.stats.support, |base.headRules| as real)
    ensures base.stats.sc == Confidence(base.stats.support, base.stats.totalPredictions)
    ensures base.stats.hc == Ratio(base.stats.support, base.stats.groundTruth)
  {
    assert forall r :: r in base.headRules ==> r in s0.head || r.stats in StatsOf(ch.head.built);
    order := ScoreOpen(base);
    assert unchanged(footprint);
  }

  /** evaluateOpenRule over the head-anchored children in the order the set
    * yields them. */
  method ScoreOpen(base: Rule) returns (ghost order: seq<Rule>)
    requires base.Valid() && base.kind.Abstract? && !base.closed
    requires forall r :: r in base.headRules ==> r.stats != base.stats
    modifies base.stats
    ensures base.Valid()
    ensures Enumerates(order, base.headRules)
    ensures base.stats.support == SupportSum(order) && base.stats.totalPredictions == PredictionSum(order)
    ensures base.stats.groundTruth == LastGroundTruth(order)
    ensures base.stats.headAnchoredSize == |base.headRules| as real
    ensures base.stats.localAvgSupport == Ratio(base.stats.support, |base.headRules| as real)
    ensures base.stats.sc == Confidence(base.stats.support, base.stats.totalPredictions)
    ensures base.stats.hc == Ratio(base.stats.support, base.stats.groundTruth)
  {
    var heads := Enumerate(base.headRules);
    EnumeratesMembers(heads, base.headRules);
    EvaluateOpenRule(base, heads);
    order := heads;
  }

  /** The closed branch: the base rule scored on its own body groundings,
    * each oriented as the head reads it. */
  method GenSpecClosed(base: Rule, groundings: seq<Pair>, gt: set<Pair>, ghost pairs: set<Pair>)
    requires base.Valid() && base.kind.Abstract? && base.closed
    requires Enumerates(groundings, pairs)
    modifies base.stats
    ensures base.Valid()
    ensures base.stats.totalPredictions == |pairs| as real
    ensures base.stats.support == |set p | p in pairs && Oriented(base.fromSubject, p) in gt| as real
    ensures base.stats.groundTruth == |gt| as real
    ensures base.stats.sc == Confidence(base.stats.support, base.stats.totalPredictions)
    ensures base.stats.hc == Ratio(base.stats.support, base.stats.groundTruth)
  {
    EvaluateClosedRule(base, groundings, gt);
    ClosedRuleCounts(base.fromSubject, groundings, pairs, gt);
  }

  /** The end points of the abstract rule's body groundings (bodyGrounding
    * reduced to pairs, under the cap for learning or for application),
    * listed in the order the set yields them. */
  method BodyGroundingPairs(base: Rule, g: Graph, application: bool) returns (groundings: seq<Pair>, ghost pairs: set<Pair>)
    requires base.Valid() && base.kind.Abstract?
    ensures forall q :: q in pairs ==> exists p ::
      IsGrounding(g, Views(base.body), false, TailOf(Views(base.body)), p) &&
      q == Pair(p.StartNode(), p.EndNode())
    ensures Enumerates(groundings, pairs)
    ensures Named(g) ==> forall q :: q in pairs ==> q.sub in g.names && q.obj in g.names
  {
    var paths := BodyGroundingCore(g, base, application);
    assert forall p :: p in paths ==> |p.nodes| > 0;
    if Named(g) {
      GroundingPairsNamed(g, Views(base.body), ChecksTail(base.kind), TailOf(Views(base.body)), paths);
    }
    var found := PathsToPairs(paths);
    pairs := found;
    groundings := Enumerate(found);
  }

  /** What GenSpecSharedMethod derives from the body groundings and the
    * ground truth before it branches: the groundings' end points listed
    * once each, the originals, the two multimaps and the ranked tails. */
  method SharedInputs(base: Rule, g: Graph, gt: set<Pair>, anchorings: seq<int>)
    returns (groundings: seq<Pair>, originals: seq<int>, gtList: seq<Pair>,
             anchoringToOriginal: map<int, set<int>>, tailToOriginal: map<int, set<int>>, ranked: seq<int>,
             ghost pairs: set<Pair>)
    requires base.Valid() && base.kind.Abstract? && Named(g)
    ensures forall q :: q in pairs ==> exists p ::
      IsGrounding(g, Views(base.body), false, TailOf(Views(base.body)), p) &&
      q == Pair(p.StartNode(), p.EndNode())
    ensures Enumerates(groundings, pairs) && Enumerates(gtList, gt)
    ensures forall x :: x in groundings <==> x in pairs
    ensures forall x :: x in gtList <==> x in gt
    ensures Enumerates(originals, Starts(groundings))
    ensures IsAnchoringToOriginal(anchoringToOriginal, base.fromSubject, gtList, anchorings)
    ensures IsTailToOriginal(tailToOriginal, groundings)
    ensures Enumerates(ranked, Tails(groundings))
    ensures forall i, j :: 0 <= i < j < |ranked| ==> TailCount(groundings, ranked[i]) >= TailCount(groundings, ranked[j])
    ensures forall t :: t in ranked <==> exists o :: Pair(o, t) in pairs
    ensures forall t :: t in Tails(groundings) ==> t in g.names
  {
    groundings, pairs := BodyGroundingPairs(base, g, false);
    originals := Enumerate(Starts(groundings));
    gtList := Enumerate(gt);
    anchoringToOriginal := AnchoringToOriginal(base.fromSubject, gtList, anchorings);
    tailToOriginal := TailToOriginal(groundings);
    ranked := RankedTails(groundings);
    TailsOfListing(groundings, pairs);
    EnumeratesMembers(ranked, Tails(groundings));
    EnumeratesMembers(groundings, pairs);
    EnumeratesMembers(gtList, gt);
  }

  /** The closed branch with nothing specialised: the base rule scored on
    * its body groundings, no loop run and the counter left alone. */
  method GenSpecClosedRun(base: Rule, groundings: seq<Pair>, gt: set<Pair>, tables: Tables, ghost pairs: set<Pair>,
                          ghost anchorings: seq<int>, ghost tails: seq<int>)
    returns (ghost ch: Children)
    requires base.Valid() && base.kind.Abstract? && base.closed
    requires Enumerates(groundings, pairs)
    modifies base.stats
    ensures base.Valid()
    ensures base.stats.totalPredictions == |pairs| as real
    ensures base.stats.support == |set p | p in pairs && Oriented(base.fromSubject, p) in gt| as real
    ensures base.stats.groundTruth == |gt| as real
    ensures base.stats.sc == Confidence(base.stats.support, base.stats.totalPredictions)
    ensures base.stats.hc == Ratio(base.stats.support, base.stats.groundTruth)
    ensures tables.globalInsRuleCounter.count == old(tables.globalInsRuleCounter.count)
    ensures ch == Children(Run([], [], 0, tables.globalInsRuleCounter.count, tables.globalInsRuleCounter.count),
      Run([], [], 0, tables.globalInsRuleCounter.count, tables.globalInsRuleCounter.count), [],
      Run([], [], 0, tables.globalInsRuleCounter.count, tables.globalInsRuleCounter.count))
    ensures Recorded(base, old(Snapshot(base)), ch, anchorings, tails)
  {
    ghost var c := tables.globalInsRuleCounter.count;
    assert base.stats != tables.globalInsRuleCounter as object;
    GenSpecClosed(base, groundings, gt, pairs);
    ch := Children(Run([], [], 0, c, c), Run([], [], 0, c, c), [], Run([], [], 0, c, c));
    assert StatsOf([]) == {} && KeptOf([]) == {};
  }

  /** What GenSpecSharedMethod does once its inputs are derived: a closed
    * rule scored directly, an open one specialised and then scored. */
  method GenSpecBranches(base: Rule, g: Graph, gt: set<Pair>, anchorings: seq<int>, groundings: seq<Pair>,
                         originals: seq<int>, gtList: seq<Pair>, anchoringToOriginal: map<int, set<int>>,
                         tailToOriginal: map<int, set<int>>, tails: seq<int>, tables: Tables, sw: Switches,
                         ghost pairs: set<Pair>)
    returns (ghost c0: int, ghost ch: Children)
    requires base.Valid() && base.kind.Abstract?
    requires forall r :: r in base.headRules ==> r.stats != base.stats
    requires forall a :: a in anchorings ==> a in g.names
    requires forall t :: t in tails ==> t in g.names
    requires forall t :: t in Tails(groundings) ==> t in g.names
    requires Enumerates(groundings, pairs)
    requires IsTailToOriginal(tailToOriginal, groundings)
    requires IsAnchoringToOriginal(anchoringToOriginal, base.fromSubject, gtList, anchorings)
    requires forall x :: x in groundings <==> x in pairs
    requires forall x :: x in gtList <==> x in gt
    modifies base, base.stats, tables.globalInsRuleCounter
    ensures base.Valid()
    ensures c0 == old(tables.globalInsRuleCounter.count)
    ensures CapKept(old(tables.globalInsRuleCounter.count), tables.globalInsRuleCounter.count)
    ensures base.closed ==>
      base.headRules == old(base.headRules) && base.tailRules == old(base.tailRules) &&
      base.bothRules == old(base.bothRules) &&
      base.stats.totalPredictions == |pairs| as real &&
      base.stats.support == |set p | p in pairs && Oriented(base.fromSubject, p) in gt| as real &&
      base.stats.groundTruth == |gt| as real
    ensures !base.closed ==>
      base.stats.headAnchoredSize == |base.headRules| as real &&
      base.stats.localAvgSupport == Ratio(base.stats.support, |base.headRules| as real)
    ensures base.stats.sc == Confidence(base.stats.support, base.stats.totalPredictions)
    ensures base.stats.hc == Ratio(base.stats.support, base.stats.groundTruth)
    ensures old(base.headRules) <= base.headRules && (!sw.useHeadRules ==> base.headRules == old(base.headRules))
    ensures old(base.tailRules) <= base.tailRules && (!sw.useTailRules ==> base.tailRules == old(base.tailRules))
    ensures old(base.bothRules) <= base.bothRules && (!sw.useBothRules ==> base.bothRules == old(base.bothRules))
    ensures base.closed ==>
      c0 == tables.globalInsRuleCounter.count &&
      ch == Children(Run([], [], 0, c0, c0), Run([], [], 0, c0, c0), [], Run([], [], 0, c0, c0))
    ensures ch.head.before == c0 && ch.tail.before == ch.head.after &&
      ch.both.before == ch.tail.after && ch.both.after == tables.globalInsRuleCounter.count
    ensures Ran(ch.head, |anchorings|, !base.closed && sw.useHeadRules) &&
      Ran(ch.tail, |tails|, !base.closed && sw.useTailRules) &&
      Ran(ch.both, |NonTrivial(base, ch.listed)|, !base.closed && sw.useBothRules)
    ensures !base.closed && sw.useBothRules ==>
      Distinct(ch.listed) &&
      forall p :: p in ch.listed <==> BothInstance(p, base.fromSubject, anchorings, pairs, gt)
    ensures Recorded(base, old(Snapshot(base)), ch, anchorings, tails)
    ensures AllFresh(ch.head.built) && AllFresh(ch.tail.built) && AllFresh(ch.both.built)
    ensures Evaluated(ch, base.fromSubject, gt, anchorings, originals, tails, tailToOriginal, NonTrivial(base, ch.listed))
  {
    c0 := tables.globalInsRuleCounter.count;
    if base.closed {
      ch := GenSpecClosedRun(base, groundings, gt, tables, pairs, anchorings, tails);
    } else {
      ghost var order;
      ch, order := GenSpecOpen(base, g, gt, anchorings, originals, tails, tailToOriginal, anchoringToOriginal,
        tables, sw, groundings, gtList, pairs);
    }
  }

  /** GenSpecSharedMethod: the body groundings of the abstract rule taken
    * once and shared; a closed rule is scored on them directly, an open one
    * gets the children the switches allow and is scored from its
    * head-anchored children; the result is every child kept. The ghost
    * results name the body groundings' end points and the ranked tails. */
  method GenSpecShared(base: Rule, g: Graph, gt: set<Pair>, anchorings: seq<int>, tables: Tables, sw: Switches)
    returns (result: set<Rule>, ghost bodyGroundings: set<Pair>, ghost rankedTails: seq<int>, ghost c0: int,
             ghost ch: Children, ghost listing: seq<Pair>, ghost originalsListed: seq<int>,
             ghost tailsToOriginals: map<int, set<int>>)
    requires base.Valid() && base.kind.Abstract? && Named(g)
    requires forall r :: r in base.headRules ==> r.stats != base.stats
    requires forall a :: a in anchorings ==> a in g.names
    modifies base, base.stats, tables.globalInsRuleCounter
    ensures base.Valid()
    ensures result == base.headRules + base.tailRules + base.bothRules
    ensures forall q :: q in bodyGroundings ==> exists p ::
      IsGrounding(g, old(Views(base.body)), false, TailOf(old(Views(base.body))), p) &&
      q == Pair(p.StartNode(), p.EndNode())
    ensures c0 == old(tables.globalInsRuleCounter.count)
    ensures CapKept(old(tables.globalInsRuleCounter.count), tables.globalInsRuleCounter.count)
    ensures base.closed ==>
      base.headRules == old(base.headRules) && base.tailRules == old(base.tailRules) &&
      base.bothRules == old(base.bothRules) &&
      base.stats.totalPredictions == |bodyGroundings| as real &&
      base.stats.support == |set p | p in bodyGroundings && Oriented(base.fromSubject, p) in gt| as real &&
      base.stats.groundTruth == |gt| as real
    ensures !base.closed ==>
      base.stats.headAnchoredSize == |base.headRules| as real &&
      base.stats.localAvgSupport == Ratio(base.stats.support, |base.headRules| as real)
    ensures base.stats.sc == Confidence(base.stats.support, base.stats.totalPredictions)
    ensures base.stats.hc == Ratio(base.stats.support, base.stats.groundTruth)
    ensures old(base.headRules) <= base.headRules && (!sw.useHeadRules ==> base.headRules == old(base.headRules))
    ensures old(base.tailRules) <= base.tailRules && (!sw.useTailRules ==> base.tailRules == old(base.tailRules))
    ensures old(base.bothRules) <= base.bothRules && (!sw.useBothRules ==> base.bothRules == old(base.bothRules))
    ensures forall t :: t in rankedTails <==> exists o :: Pair(o, t) in bodyGroundings
    ensures base.closed ==>
      c0 == tables.globalInsRuleCounter.count &&
      ch == Children(Run([], [], 0, c0, c0), Run([], [], 0, c0, c0), [], Run([], [], 0, c0, c0))
    ensures ch.head.before == c0 && ch.tail.before == ch.head.after &&
      ch.both.before == ch.tail.after && ch.both.after == tables.globalInsRuleCounter.count
    ensures Ran(ch.head, |anchorings|, !base.closed && sw.useHeadRules) &&
      Ran(ch.tail, |Take(rankedTails, TailCap)|, !base.closed && sw.useTailRules) &&
      Ran(ch.both, |NonTrivial(base, ch.listed)|, !base.closed && sw.useBothRules)
    ensures !base.closed && sw.useBothRules ==>
      Distinct(ch.listed) &&
      forall p :: p in ch.listed <==> BothInstance(p, base.fromSubject, anchorings, bodyGroundings, gt)
    ensures Recorded(base, old(Snapshot(base)), ch, anchorings, Take(rankedTails, TailCap))
    ensures AllFresh(ch.head.built) && AllFresh(ch.tail.built) && AllFresh(ch.both.built)
    ensures Enumerates(listing, bodyGroundings) && Enumerates(originalsListed, Starts(listing))
    ensures IsTailToOriginal(tailsToOriginals, listing)
    ensures Evaluated(ch, base.fromSubject, gt, anchorings, originalsListed, Take(rankedTails, TailCap),
      tailsToOriginals, NonTrivial(base, ch.listed))
  {
    var groundings, originals, gtList, anchoringToOriginal, tailToOriginal, ranked, pairs :=
      SharedInputs(base, g, gt, anchorings);
    listing, originalsListed, tailsToOriginals := groundings, originals, tailToOriginal;
    bodyGroundings := pairs;
    rankedTails := ranked;
    var tails := Take(ranked, TailCap);
    c0, ch := GenSpecBranches(base, g, gt, anchorings, groundings, originals, gtList, anchoringToOriginal,
      tailToOriginal, tails, tables, sw, pairs);
    result := base.headRules + base.tailRules + base.bothRules;
  }

  // ---------------------------------------------------------------------
  // GenSharedMethod
  // ---------------------------------------------------------------------

  /** The originals of one tail: the start of every body grounding that
    * ends there, collected into a set and then listed in some order. */
  method OriginalsAt(groundings: seq<Pair>, tail: int) returns (listed: seq<int>)
    ensures forall o :: o in listed <==> Pair(o, tail) in groundings
    ensures Enumerates(listed, Behind(groundings, tail))
  {
    var originals := {};
    var k := 0;
    while k < |groundings|
      invariant 0 <= k <= |groundings|
      invariant forall o :: o in originals <==> Pair(o, tail) in groundings[..k]
    {
      assert groundings[..k + 1] == groundings[..k] + [groundings[k]];
      if groundings[k].obj == tail {
        originals := originals + {groundings[k].sub};
      }
      k := k + 1;
    }
    assert groundings[..k] == groundings;
    listed := Enumerate(originals);
    EnumeratesMembers(listed, originals);
    assert originals == Behind(groundings, tail) by {
      forall o ensures o in originals <==> o in Behind(groundings, tail) {
        if Pair(o, tail) in groundings {
          var i :| 0 <= i < |groundings| && groundings[i] == Pair(o, tail);
        }
      }
    }
  }

  /** The starts of the body groundings that end at `tail`. */
  function Behind(groundings: seq<Pair>, tail: int): (s: set<int>)
    ensures forall o :: o in s <==> Pair(o, tail) in groundings
  {
    set i | 0 <= i < |groundings| && groundings[i].obj == tail :: groundings[i].sub
  }

  /** How GenSharedMethod re-scored child `c`, by evaluation `e` with a
    * counter of its own: a head child at its anchoring over the originals,
    * a tail child at every recorded anchoring over the starts behind its
    * tail, a both child at its anchoring over the starts behind its tail. */
  ghost predicate Rescores(c: Rule, e: Eval, fromSubject: bool, gt: set<Pair>, groundings: seq<Pair>,
                           originals: seq<int>, recorded: seq<int>)
    reads c.head, c.body, c.stats
  {
    e.start == 0 && ScoredBy(c, e, gt) &&
    if c.kind == Instantiated(1) then
      |c.body| > 0 && TailEval(e, fromSubject, gt, recorded, Behind(groundings, c.GetTail()))
    else if c.kind == Instantiated(2) then
      |c.body| > 0 && BothEval(e, fromSubject, gt, c.GetAnchoring(), Behind(groundings, c.GetTail()))
    else
      HeadEval(e, fromSubject, gt, c.GetAnchoring(), originals)
  }

  /** The i-th child listed, when of a kind the switches re-score, was
    * re-scored by the i-th evaluation. */
  ghost predicate AllRescored(listed: seq<Rule>, evals: seq<Eval>, sw: Switches, fromSubject: bool, gt: set<Pair>,
                              groundings: seq<Pair>, originals: seq<int>, recorded: seq<int>)
    reads HeadAtoms(listed), BodyAtoms(listed), StatsOf(listed)
  {
    |evals| == |listed| &&
    forall i {:trigger Rescores(listed[i], evals[i], fromSubject, gt, groundings, originals, recorded)} ::
      0 <= i < |listed| && Rescored(listed[i].kind, sw) ==>
      (assert listed[i] in listed && forall a :: a in listed[i].body ==> a in BodyAtoms(listed);
       Rescores(listed[i], evals[i], fromSubject, gt, groundings, originals, recorded))
  }

  /** Children with distinct statistics: the k-th child's are none of
    * those before it. */
  lemma StatsApart(children: seq<Rule>, k: nat)
    requires k < |children|
    requires forall i, j :: 0 <= i < j < |children| ==> children[i].stats != children[j].stats
    ensures children[k].stats !in StatsOf(children[..k])
  {
  }

  lemma AllRescoredNext(children: seq<Rule>, k: nat, evals: seq<Eval>, sw: Switches, fromSubject: bool,
                        gt: set<Pair>, groundings: seq<Pair>, originals: seq<int>, recorded: seq<int>, e: Eval)
    requires k < |children|
    requires AllRescored(children[..k], evals, sw, fromSubject, gt, groundings, originals, recorded)
    requires Rescored(children[k].kind, sw) ==> Rescores(children[k], e, fromSubject, gt, groundings, originals, recorded)
    ensures AllRescored(children[..k + 1], evals + [e], sw, fromSubject, gt, groundings, originals, recorded)
  {
    var listed, c := children[..k], children[k];
    assert children[..k + 1] == listed + [c];
    var l', e' := listed + [c], evals + [e];
    forall i | 0 <= i < |l'| && Rescored(l'[i].kind, sw)
      ensures Rescores(l'[i], e'[i], fromSubject, gt, groundings, originals, recorded)
    {
      if i < |listed| {
        assert l'[i] == listed[i] && e'[i] == evals[i];
      }
    }
  }

  /** Whether GenSharedMethod re-scores a child of this kind. */
  predicate Rescored(kind: Kind, sw: Switches)
  {
    (kind == Instantiated(0) && sw.useHeadRules) ||
    (kind == Instantiated(1) && sw.useTailRules) ||
    (kind == Instantiated(2) && sw.useBothRules)
  }

  /** The bucket a child of this kind is kept in. */
  function BucketOf(kind: Kind): Bucket
  {
    if kind == Instantiated(1) then TailRules else if kind == Instantiated(2) then BothRules else HeadRules
  }

  /** One recorded child re-scored with a counter of its own: a head child
    * over the originals of the body groundings at its anchoring, a tail
    * child over every recorded anchoring and the originals of its tail, a
    * both child at its anchoring over the originals of its tail; a child
    * of a kind the switches leave out is not touched. */
  method GenSharedChild(base: Rule, child: Rule, gt: set<Pair>, groundings: seq<Pair>, originals: seq<int>,
                        anchorings: seq<int>, sw: Switches)
    returns (ghost e: Eval)
    requires base.Valid() && base.kind.Abstract?
    requires child.kind.Instantiated? && |child.body| > 0 && child.stats.Valid() && child.stats != base.stats
    modifies base, child.stats
    ensures base.Valid() && child.stats.Valid()
    ensures forall b :: (Of(Snapshot(base), b) ==
      old(Of(Snapshot(base), b)) + Kept(BucketOf(child.kind), b, child, Rescored(child.kind, sw) && Qualified(child)))
    ensures !Rescored(child.kind, sw) ==> unchanged(child.stats)
    ensures Rescored(child.kind, sw) ==> Rescores(child, e, base.fromSubject, gt, groundings, originals, anchorings)
  {
    e := Eval([], [], 0, 0, 0);
    if Rescored(child.kind, sw) {
      var counter := new Counter();
      if child.kind == Instantiated(1) {
        var listed := OriginalsAt(groundings, child.GetTail());
        ghost var preds := Predictions(base.fromSubject, anchorings, listed);
        ghost var n := Processed(|preds|, 0, PredictionCap);
        e := Eval(listed, preds, 0, n, Hits(preds[..n], gt));
        var _ := EvaluateTailRules(base, child, gt, anchorings, listed, TailRules, counter);
      } else {
        var listed := originals;
        if child.kind == Instantiated(2) {
          listed := OriginalsAt(groundings, child.GetTail());
        }
        ghost var preds := Row(base.fromSubject, child.GetAnchoring(), listed);
        ghost var n := Processed(|preds|, 0, PredictionCap);
        e := Eval(listed, preds, 0, n, Hits(preds[..n], gt));
        var _ := EvaluateRule(base, child, gt, child.GetAnchoring(), listed, BucketOf(child.kind), counter);
      }
    }
  }

  /** The three buckets of a base rule at one moment. */
  datatype Buckets = Buckets(head: set<Rule>, tail: set<Rule>, both: set<Rule>)

  function Snapshot(base: Rule): Buckets
    reads base
  {
    Buckets(base.headRules, base.tailRules, base.bothRules)
  }

  /** The bucket that keeps children of kind `b`. */
  function Of(bs: Buckets, b: Bucket): set<Rule>
  {
    match b
    case HeadRules => bs.head
    case TailRules => bs.tail
    case BothRules => bs.both
  }

  /** After the first `k` recorded children: every re-scored one among them
    * is in its bucket exactly when it was there at the start (`s0`) or now
    * qualifies, and a bucket has gained only such children. */
  ghost predicate SharedDone(base: Rule, children: seq<Rule>, k: nat, s0: Buckets, sw: Switches)
    requires k <= |children|
    reads base, set c | c in children :: c.stats
  {
    (forall c :: c in children ==> c.stats.Valid()) && DoneAt(Snapshot(base), children, k, s0, sw)
  }

  /** The part of SharedDone about the buckets `bs` and the first `k` children. */
  ghost predicate DoneAt(bs: Buckets, children: seq<Rule>, k: nat, s0: Buckets, sw: Switches)
    requires k <= |children|
    reads set i | 0 <= i < k :: children[i].stats
  {
    s0.head <= bs.head && s0.tail <= bs.tail && s0.both <= bs.both &&
    (forall i :: 0 <= i < k && Rescored(children[i].kind, sw) ==>
      (children[i] in Of(bs, BucketOf(children[i].kind)) <==>
       children[i] in Of(s0, BucketOf(children[i].kind)) || Qualified(children[i]))) &&
    (forall r :: r in bs.head && r !in s0.head ==>
      r in children[..k] && r.kind == Instantiated(0) && sw.useHeadRules && Qualified(r)) &&
    (forall r :: r in bs.tail && r !in s0.tail ==>
      r in children[..k] && r.kind == Instantiated(1) && sw.useTailRules && Qualified(r)) &&
    (forall r :: r in bs.both && r !in s0.both ==>
      r in children[..k] && r.kind == Instantiated(2) && sw.useBothRules && Qualified(r))
  }

  /** Visiting child `k` takes the buckets from `bs` to `bs'`, adding at
    * most that child to its own bucket. */
  lemma DoneNext(bs: Buckets, bs': Buckets, children: seq<Rule>, k: nat, s0: Buckets, sw: Switches)
    requires Distinct(children) && k < |children| && children[k].kind.Instantiated?
    requires DoneAt(bs, children, k, s0, sw)
    requires forall b :: Of(bs', b) == Of(bs, b) + Kept(BucketOf(children[k].kind), b, children[k],
      Rescored(children[k].kind, sw) && Qualified(children[k]))
    ensures DoneAt(bs', children, k + 1, s0, sw)
  {
    var child := children[k];
    assert Of(bs', HeadRules) == bs'.head && Of(bs', TailRules) == bs'.tail && Of(bs', BothRules) == bs'.both;
    forall i | 0 <= i < k + 1 && Rescored(children[i].kind, sw)
      ensures children[i] in Of(bs', BucketOf(children[i].kind)) <==>
        children[i] in Of(s0, BucketOf(children[i].kind)) || Qualified(children[i])
    {
      if i < k {
        assert children[i] != child;
      } else {
        assert child !in children[..k];
        assert child in Of(bs, BucketOf(child.kind)) <==> child in Of(s0, BucketOf(child.kind));
      }
    }
    assert children[..k + 1] == children[..k] + [child];
  }

  /** The invariant of GenSharedMethod's loop after `k` recorded children:
    * the buckets as SharedDone states, and each child so far re-scored by
    * its evaluation. */
  ghost predicate Looped(base: Rule, children: seq<Rule>, k: nat, s0: Buckets, sw: Switches, evals: seq<Eval>,
                        gt: set<Pair>, groundings: seq<Pair>, originals: seq<int>, recorded: seq<int>)
    requires k <= |children|
    reads base, StatsOf(children), HeadAtoms(children), BodyAtoms(children)
  {
    SharedDone(base, children, k, s0, sw) &&
    (assert HeadAtoms(children[..k]) <= HeadAtoms(children) && BodyAtoms(children[..k]) <= BodyAtoms(children) by {
       BodyAtomsPrefix(children, k);
     }
     AllRescored(children[..k], evals, sw, base.fromSubject, gt, groundings, originals, recorded))
  }

  lemma BodyAtomsPrefix(children: seq<Rule>, k: nat)
    requires k <= |children|
    ensures HeadAtoms(children[..k]) <= HeadAtoms(children) && BodyAtoms(children[..k]) <= BodyAtoms(children)
  {
    forall a | a in BodyAtoms(children[..k]) ensures a in BodyAtoms(children) {
      var j :| 0 <= j < k && a in children[..k][j].body;
      assert children[..k][j] == children[j];
    }
  }

  /** One turn of GenSharedMethod's loop over the recorded children. */
  method GenSharedStep(base: Rule, children: seq<Rule>, k: nat, gt: set<Pair>, groundings: seq<Pair>,
                       originals: seq<int>, anchorings: seq<int>, sw: Switches, ghost s0: Buckets,
                       ghost evals: seq<Eval>)
    returns (ghost e: Eval)
    requires base.Valid() && base.kind.Abstract? && Distinct(children) && k < |children|
    requires forall c :: c in children ==>
      c.kind.Instantiated? && |c.body| > 0 && c.stats != base.stats
    requires forall i, j :: 0 <= i < j < |children| ==> children[i].stats != children[j].stats
    requires Looped(base, children, k, s0, sw, evals, gt, groundings, originals, anchorings)
    modifies base, children[k].stats
    ensures base.Valid()
    ensures Looped(base, children, k + 1, s0, sw, evals + [e], gt, groundings, originals, anchorings)
    ensures Rescored(children[k].kind, sw) ==>
      Rescores(children[k], e, base.fromSubject, gt, groundings, originals, anchorings)
  {
    ghost var bs := Snapshot(base);
    StatsApart(children, k);
    e := GenSharedChild(base, children[k], gt, groundings, originals, anchorings, sw);
    DoneNext(bs, Snapshot(base), children, k, s0, sw);
    AllRescoredNext(children, k, evals, sw, base.fromSubject, gt, groundings, originals, anchorings, e);
  }

  /** The loop of GenSharedMethod over the recorded children, taken in
    * some order: each one of a kind the switches allow is re-scored, and
    * afterwards it is in its bucket exactly when it was there before or now
    * qualifies; nothing but such children joins a bucket. */
  method GenSharedChildren(base: Rule, children: set<Rule>, gt: set<Pair>, groundings: seq<Pair>,
                           originals: seq<int>, anchorings: seq<int>, sw: Switches)
    returns (ghost visited: seq<Rule>, ghost evals: seq<Eval>)
    requires base.Valid() && base.kind.Abstract?
    requires forall c :: c in children ==>
      c.kind.Instantiated? && |c.body| > 0 && c.stats.Valid() && c.stats != base.stats
    requires forall c, d :: c in children && d in children && c != d ==> c.stats != d.stats
    modifies base, set c | c in children :: c.stats
    ensures base.Valid()
    ensures forall c :: c in children ==> c.stats.Valid()
    ensures forall c :: c in children && Rescored(c.kind, sw) ==>
      (c in Of(Snapshot(base), BucketOf(c.kind)) <==> c in Of(old(Snapshot(base)), BucketOf(c.kind)) || Qualified(c))
    ensures forall r :: r in base.headRules && r !in old(base.headRules) ==>
      r in children && r.kind == Instantiated(0) && sw.useHeadRules && Qualified(r)
    ensures forall r :: r in base.tailRules && r !in old(base.tailRules) ==>
      r in children && r.kind == Instantiated(1) && sw.useTailRules && Qualified(r)
    ensures forall r :: r in base.bothRules && r !in old(base.bothRules) ==>
      r in children && r.kind == Instantiated(2) && sw.useBothRules && Qualified(r)
    ensures Enumerates(visited, children)
    ensures AllRescored(visited, evals, sw, base.fromSubject, gt, groundings, originals, anchorings)
  {
    var listed := Enumerate(children);
    EnumeratesMembers(listed, children);
    forall i, j | 0 <= i < j < |listed| ensures listed[i].stats != listed[j].stats {
      assert listed[i] in children && listed[j] in children;
    }
    ghost var s0 := Snapshot(base);
    evals := GenSharedLoop(base, listed, gt, groundings, originals, anchorings, sw, s0);
    visited := listed;
    forall c | c in children && Rescored(c.kind, sw)
      ensures c in Of(Snapshot(base), BucketOf(c.kind)) <==> c in Of(s0, BucketOf(c.kind)) || Qualified(c)
    {
      var i :| 0 <= i < |listed| && listed[i] == c;
    }
    forall r | r in base.headRules + base.tailRules + base.bothRules && r in listed ensures r in children {
    }
  }

  /** The loop itself, over the recorded children as listed. */
  method GenSharedLoop(base: Rule, listed: seq<Rule>, gt: set<Pair>, groundings: seq<Pair>, originals: seq<int>,
                       anchorings: seq<int>, sw: Switches, ghost s0: Buckets)
    returns (ghost evals: seq<Eval>)
    requires base.Valid() && base.kind.Abstract? && Distinct(listed) && s0 == Snapshot(base)
    requires forall c :: c in listed ==> c.kind.Instantiated? && |c.body| > 0 && c.stats.Valid() && c.stats != base.stats
    requires forall i, j :: 0 <= i < j < |listed| ==> listed[i].stats != listed[j].stats
    modifies base, set c | c in listed :: c.stats
    ensures base.Valid() && SharedDone(base, listed, |listed|, s0, sw)
    ensures AllRescored(listed, evals, sw, base.fromSubject, gt, groundings, originals, anchorings)
  {
    evals := [];
    for k := 0 to |listed|
      invariant base.Valid() && Looped(base, listed, k, s0, sw, evals, gt, groundings, originals, anchorings)
    {
      var e := GenSharedStep(base, listed, k, gt, groundings, originals, anchorings, sw, s0, evals);
      evals := evals + [e];
    }
    assert listed[..|listed|] == listed;
  }

  /** How GenSharedMethod's loop went: the recorded anchorings and the
    * originals as listed, the recorded children in the order visited and
    * the evaluation that re-scored each. */
  datatype Rescoring = Rescoring(recorded: seq<int>, originals: seq<int>, visited: seq<Rule>, evals: seq<Eval>)

  /** The loop re-scored every recorded child of a kind the switches
    * allow by its evaluation against the ground truth, each with a
    * prediction counter of its own. */
  ghost predicate Reevaluated(re: Rescoring, fromSubject: bool, gt: set<Pair>, groundings: seq<Pair>,
                             children: set<Rule>, anchorings: set<int>, sw: Switches)
    reads HeadAtoms(re.visited), BodyAtoms(re.visited), StatsOf(re.visited)
  {
    Enumerates(re.recorded, anchorings) && Enumerates(re.originals, Starts(groundings)) &&
    Enumerates(re.visited, children) &&
    AllRescored(re.visited, re.evals, sw, fromSubject, gt, groundings, re.originals, re.recorded)
  }

  /** The open branch of GenSharedMethod: the recorded children re-scored
    * in some order, then the base rule's own statistics from its
    * head-anchored children. */
  method GenSharedOpen(base: Rule, children: set<Rule>, gt: set<Pair>, groundings: seq<Pair>,
                       anchorings: set<int>, sw: Switches)
    returns (ghost order: seq<Rule>, ghost re: Rescoring)
    requires base.Valid() && base.kind.Abstract? && !base.closed
    requires forall c :: c in children ==>
      c.kind.Instantiated? && |c.body| > 0 && c.stats.Valid() && c.stats != base.stats
    requires forall c, d :: c in children && d in children && c != d ==> c.stats != d.stats
    requires forall r :: r in base.headRules ==> r.stats != base.stats
    modifies base, base.stats, set c | c in children :: c.stats
    ensures base.Valid()
    ensures forall c :: c in children && Rescored(c.kind, sw) ==>
      (c in Of(Snapshot(base), BucketOf(c.kind)) <==> c in Of(old(Snapshot(base)), BucketOf(c.kind)) || Qualified(c))
    ensures forall r :: r in base.headRules && r !in old(base.headRules) ==>
      r in children && r.kind == Instantiated(0) && sw.useHeadRules && Qualified(r)
    ensures forall r :: r in base.tailRules && r !in old(base.tailRules) ==>
      r in children && r.kind == Instantiated(1) && sw.useTailRules && Qualified(r)
    ensures forall r :: r in base.bothRules && r !in old(base.bothRules) ==>
      r in children && r.kind == Instantiated(2) && sw.useBothRules && Qualified(r)
    ensures Enumerates(order, base.headRules)
    ensures base.stats.support == SupportSum(order) && base.stats.totalPredictions == PredictionSum(order)
    ensures base.stats.groundTruth == LastGroundTruth(order)
    ensures base.stats.headAnchoredSize == |base.headRules| as real
    ensures base.stats.localAvgSupport == Ratio(base.stats.support, |base.headRules| as real)
    ensures base.stats.sc == Confidence(base.stats.support, base.stats.totalPredictions)
    ensures base.stats.hc == Ratio(base.stats.support, base.stats.groundTruth)
    ensures Reevaluated(re, base.fromSubject, gt, groundings, children, anchorings, sw)
  {
    var recorded := Enumerate(anchorings);
    var originals := Enumerate(Starts(groundings));
    assert Snapshot(base) == old(Snapshot(base));
    ghost var visited, evals := GenSharedChildren(base, children, gt, groundings, originals, recorded, sw);
    re := Rescoring(recorded, originals, visited, evals);
    forall r | r in base.headRules ensures r.stats != base.stats {
      assert r in Of(Snapshot(base), HeadRules);
      if r !in old(base.headRules) {
        assert r !in Of(old(Snapshot(base)), HeadRules);
      }
    }
    label scored:
    order := ScoreOpen(base);
    forall c | c in children ensures Qualified(c) == old@scored(Qualified(c)) {
      assert c.stats != base.stats;
    }
    assert base.stats !in StatsOf(visited);
  }

  /** GenSharedMethod: the body groundings of the abstract rule taken once;
    * a closed rule is scored on them directly, an open one has the children
    * recorded for it (`children`, deHierarchy.get) re-scored, tail children
    * over the anchorings recorded for it (`anchorings`, ruleToAnchorings.get),
    * and is then scored from its head-anchored children; the result is
    * every child kept. */
  method GenShared(base: Rule, g: Graph, gt: set<Pair>, children: set<Rule>, anchorings: set<int>, sw: Switches)
    returns (result: set<Rule>, ghost bodyGroundings: set<Pair>, ghost listing: seq<Pair>, ghost re: Rescoring)
    requires base.Valid() && base.kind.Abstract?
    requires forall c :: c in children ==>
      c.kind.Instantiated? && |c.body| > 0 && c.stats.Valid() && c.stats != base.stats
    requires forall c, d :: c in children && d in children && c != d ==> c.stats != d.stats
    requires forall r :: r in base.headRules ==> r.stats != base.stats
    modifies base, base.stats, set c | c in children :: c.stats
    ensures base.Valid()
    ensures result == base.headRules + base.tailRules + base.bothRules
    ensures forall q :: q in bodyGroundings ==> exists p ::
      IsGrounding(g, old(Views(base.body)), false, TailOf(old(Views(base.body))), p) &&
      q == Pair(p.StartNode(), p.EndNode())
    ensures base.closed ==>
      Snapshot(base) == old(Snapshot(base)) &&
      base.stats.totalPredictions == |bodyGroundings| as real &&
      base.stats.support == |set p | p in bodyGroundings && Oriented(base.fromSubject, p) in gt| as real &&
      base.stats.groundTruth == |gt| as real
    ensures !base.closed ==>
      base.stats.headAnchoredSize == |base.headRules| as real &&
      base.stats.localAvgSupport == Ratio(base.stats.support, |base.headRules| as real)
    ensures base.stats.sc == Confidence(base.stats.support, base.stats.totalPredictions)
    ensures base.stats.hc == Ratio(base.stats.support, base.stats.groundTruth)
    ensures !base.closed ==> forall c :: c in children && Rescored(c.kind, sw) ==>
      (c in Of(Snapshot(base), BucketOf(c.kind)) <==> c in Of(old(Snapshot(base)), BucketOf(c.kind)) || Qualified(c))
    ensures forall r :: r in base.headRules && r !in old(base.headRules) ==>
      r in children && r.kind == Instantiated(0) && sw.useHeadRules && Qualified(r)
    ensures forall r :: r in base.tailRules && r !in old(base.tailRules) ==>
      r in children && r.kind == Instantiated(1) && sw.useTailRules && Qualified(r)
    ensures forall r :: r in base.bothRules && r !in old(base.bothRules) ==>
      r in children && r.kind == Instantiated(2) && sw.useBothRules && Qualified(r)
    ensures Enumerates(listing, bodyGroundings)
    ensures !base.closed ==> Reevaluated(re, base.fromSubject, gt, listing, children, anchorings, sw)
  {
    ghost var pairs;
    var groundings;
    groundings, pairs := BodyGroundingPairs(base, g, false);
    bodyGroundings, listing := pairs, groundings;
    re := Rescoring([], [], [], []);
    if base.closed {
      GenSpecClosed(base, groundings, gt, pairs);
    } else {
      ghost var order;
      order, re := GenSharedOpen(base, children, gt, groundings, anchorings, sw);
    }
    result := base.headRules + base.tailRules + base.bothRules;
  }
}
