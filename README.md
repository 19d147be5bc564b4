# GPFL rule mining and application, modelled in Dafny

GPFL learns Horn rules over a knowledge graph and uses them to predict new
facts. For one target relation it works in five stages:

- It samples paths that close the target relation's training edges.
- It abstracts each path into a rule with variables, and counts how often
  each rule is met.
- It instantiates the frequent open rules into children that carry a head
  constant, a tail constant, or both. Each child is scored against the
  ground-truth pairs, and only qualified children are kept.
- It applies the rules to suggest facts.
- It ranks the suggestions of each test query by their rules' confidences,
  and reports hit@N and MRR.

This project models that pipeline over an abstract graph. The graph is a
finite sequence of typed, directed edges `(id, type, src, dst)` and a map
from node ids to names. The model covers:

- the rule data model:
  - atoms and their renderings;
  - abstract and instantiated rules, whose identity is their rendering
    (including the CAR/OAR/HAR/TAR/BAR kind tag);
  - Laplace-smoothed confidence;
  - pairs and their score comparator;
- the grounding engine:
  - the bounded, node-unique depth-first search for body groundings, with
    its tail check and grounding cap;
  - the path evaluator's decision table;
  - the Cypher query builder;
- rule mining: the frequency tables and counters of `GenOps`, and path
  abstraction;
- rule scoring and instantiation: generalise-then-specialise, the
  instantiation cap, and the both-anchored multimap intersection;
- rule application: `pairCheck` and the suggestion cap;
- ranking and evaluation:
  - query bucketing;
  - score vectors, and lexicographic ranking by recursive tie-breaking;
  - the in-place quicksort;
  - hit@N and MRR;
  - anchoring ranking;
  - the support/confidence filter;
  - the saturation bookkeeping of both path samplers;
  - the train/test split;
- GPFL2's frequency-based sample of abstract rules;
- the rule, prediction, verification and instance file formats;
- the triple reader and graph writer of `GraphBuilder`.

Each Java file becomes one or more Dafny modules, in the file's own form:

- Classes whose fields the source updates in place stay classes, with
  frames: `Atom`, `Rule`, `RuleStats`, the `GenOps` tables and counters,
  the grounding search, the path sampler and the graph writer.
- Pure code becomes functions and lemmas.
- Loops become methods, each proved against a function that states its result.

Two families of loops return a ghost record of what they did.

- Specialisation: each loop of `GenSpecSharedMethod` returns an
  `Instantiation.Run`. It holds the children built, in candidate order,
  one `Instantiation.Eval` per child, the final count of the loop's
  prediction counter, and the global ins-rule counter before and after.
  `Instantiation.Ran` says that:
  - the counter ticks once per child;
  - a loop that is switched off, or that starts past INS_RULE_CAP, builds
    nothing;
  - a candidate is left unbuilt only once a cap has been passed.

  An `Eval` records the predictions a child's evaluation runs over and
  the counts it makes of them. The loops further state that the j-th
  child's statistics are those of the j-th evaluation against the ground
  truth (`Instantiation.Scores`), and that the evaluations of one loop
  draw in turn on one prediction counter new at zero
  (`Instantiation.Chained`). `GenSharedMethod` re-scores each recorded
  child by an evaluation of its own on a new counter
  (`Instantiation.Rescores`).
- Application: each loop of `applyRule` returns an
  `Application.ChildRun`. It holds the children started and the
  candidates each one visited. The suggestions and the counter are then
  the fold `Application.Applied` over that run.

The modules, in import order:

- `Common`: shared helpers.
- Value types: `Graphs`, `Atoms`, `Stats`, `Pairs`, `Rules`, `Settings`.
- Grounding: `GraphOps`.
- Mining: `Counting` and `GenOps`.
- Scoring and instantiation: `Evaluation`, `Groundings` and
  `Instantiation`.
- `IO`.
- Application: `Application`.
- Ranking: `Ranking`, `PairSort` and `Engine`.
- `GPFL2`.
- `GraphBuilder`.

The following are parameters of the model, not modelled behaviour:

- randomness;
- the order in which Java hash sets and maps are iterated: an enumeration
  that lists each element once;
- the traversal framework's path enumeration;
- line I/O: lines in, lines out.

Settings are constants, with the source's defaults. The "0 means unbounded"
rewrites that the engine applies to its caps are modelled by
`Settings.Unbounded`.

Notes on the source's behaviour, which the model follows:

- hit@N divides by min(N', totalPositiveIns), where N' is N cut to the
  ranking's length.
- The Minerva protocol builds both subject and object queries.
- The counters of `rankAnchorings` start at 0. This leaves the order
  unchanged.

## Model

| member | source | states |
|---|---|---|
| Common.Take | src/main/java/ac/uk/ncl/model/GPFL2.java:104 | subList(0, min(n, size)) is the prefix of min(n, size) elements |
| Common.ParseLong | src/main/java/ac/uk/ncl/utils/IO.java:56 | Long.parseLong succeeds only on a non-empty signed or unsigned digit string and yields a 64-bit value |
| Common.ParseLongOfNatToString | src/main/java/ac/uk/ncl/utils/IO.java:75 | a written id parses back to itself |
| Common.RemoveFirstOf | src/main/java/ac/uk/ncl/utils/GraphBuilder.java:127 | replaceFirst leaves a word without bracket characters as it is and otherwise removes exactly one character |
| Common.UpperAscii | src/main/java/ac/uk/ncl/utils/GraphBuilder.java:109 | toUpperCase keeps the length and upper-cases each character |
| Common.Wrap32 | src/main/java/ac/uk/ncl/structure/Pair.java:26-29 | narrowing to int yields a 32-bit value congruent to the input modulo 2^32, and keeps a value already in range |
| Atoms.Hash | src/main/java/ac/uk/ncl/structure/Atom.java:135-138 | an atom's hash is the 32-bit Java string hash of its in-rule string |
| Atoms.Atom.ToString | src/main/java/ac/uk/ncl/structure/Atom.java:124-126 | toString is getPredicate, then `(`, the subject name and `,`, and ends with `)` |
| Atoms.PredicateMarksInverse | src/main/java/ac/uk/ncl/structure/Atom.java:111-121 | the `_` prefix of getPredicate marks exactly the INCOMING atoms, and the base predicate is what follows it |
| Atoms.InRuleIsForwardRendering | src/main/java/ac/uk/ncl/structure/Atom.java:128-133 | toInRuleString of an INCOMING atom is the rendering of the same relationship read forwards, with subject and object swapped; an OUTGOING atom's is its toString |
| Atoms.EqualAtomsHashAlike | src/main/java/ac/uk/ncl/structure/Atom.java:135-147 | atoms equal by toString have equal in-rule strings and so equal hash codes, for names free of the rendering's punctuation |
| Atoms.EdgeAtomFollowsPath | src/main/java/ac/uk/ncl/structure/Atom.java:55-73 | an atom read off a path edge has the path-side node as subject and the other end as object, names and ids alike, and is INCOMING exactly when reached from the edge's end node |
| Atoms.Atom.Copy | src/main/java/ac/uk/ncl/structure/Atom.java:22-30 | the copy constructor yields an atom with every field of the original |
| Atoms.Atom.FromInstance | src/main/java/ac/uk/ncl/structure/Atom.java:35-43 | the head atom of an instance is OUTGOING from its start node to its end node, with the instance's type as predicate |
| Atoms.Atom.FromEdge | src/main/java/ac/uk/ncl/structure/Atom.java:55-73 | the node-and-relationship constructor yields the path-edge atom described by EdgeAtomFollowsPath |
| Atoms.Atom.SetSubject | src/main/java/ac/uk/ncl/structure/Atom.java:79-81 | only the subject name changes |
| Atoms.Atom.SetObject | src/main/java/ac/uk/ncl/structure/Atom.java:87-89 | only the object name changes |
| Atoms.Atom.SetSubjectId | src/main/java/ac/uk/ncl/structure/Atom.java:95-97 | only the subject id changes |
| Atoms.Atom.SetObjectId | src/main/java/ac/uk/ncl/structure/Atom.java:103-105 | only the object id changes |
| Atoms.CopyThenRename | src/main/java/ac/uk/ncl/structure/Atom.java:22-30 | a copy is a distinct object: renaming it leaves the original unchanged |
| Rules.Tag | src/main/java/ac/uk/ncl/structure/AbstractRule.java:413-416 | the tag in front of a rendered rule is four characters ending in a tab: CAR/OAR for closed/open abstract rules, HAR/TAR/BAR for head-, tail- and both-anchored instances (also src/main/java/ac/uk/ncl/structure/InstantiatedRule.java:114-121) |
| Rules.Rule.ToString | src/main/java/ac/uk/ncl/structure/InstantiatedRule.java:115-120 | a rule's rendering starts with its kind tag: CAR/OAR for a closed/open abstract rule, HAR, TAR or BAR for a head-, tail- or both-anchored child |
| Rules.BodyStrings | src/main/java/ac/uk/ncl/structure/Rule.java:57-68 | a rule's body is rendered atom by atom in the atoms' in-rule form, one string per body atom |
| Rules.SameRuleSameKind | src/main/java/ac/uk/ncl/structure/Rule.java:79-86 | rules equal by toString have the same kind tag: abstract never equals instantiated, closed never equals open, and the three anchoring types stay apart |
| Rules.RenderIgnoresIds | src/main/java/ac/uk/ncl/structure/Rule.java:57-68 | two rules whose atoms agree on everything but node ids render alike, so they are equal |
| Rules.RuleHash | src/main/java/ac/uk/ncl/structure/Rule.java:70-77 | hashCode is the head's hash plus the body atoms' hashes, wrapped to a 32-bit int |
| Rules.AbstractAtom | src/main/java/ac/uk/ncl/structure/AbstractRule.java:22-35 | body atom i of the canonical form reads (V<i>, V<i+1>), except that the first subject is X or Y by where the body starts and a closed body's last object is the other head variable; predicate, direction and ids are kept |
| Rules.AbstractShape | src/main/java/ac/uk/ncl/structure/AbstractRule.java:18-36 | the canonical head reads (X, Y) and every body atom is renamed as AbstractAtom states, keeping predicates, directions and ids |
| Rules.CanonicalKeepsShape | src/main/java/ac/uk/ncl/structure/Rule.java:21-25 | renaming atoms to variables does not change whether a rule is closed or starts at the head's subject, since both are decided by node ids |
| Rules.AbstractionDependsOnShape | src/main/java/ac/uk/ncl/structure/AbstractRule.java:18-36 | abstraction forgets the nodes: instance paths with the same predicates, directions and closed/from-subject shape yield equal abstract rules |
| Rules.BindingsAreAnchoringAndTail | src/main/java/ac/uk/ncl/structure/Rule.java:88-94 | binding the head's free term makes it what getAnchoring returns, and binding the last object makes it what getTail returns; any other term is left alone |
| Rules.Rule.GetTail | src/main/java/ac/uk/ncl/structure/Rule.java:88-90 | getTail is the object id of the last body atom |
| Rules.Rule.GetAnchoring | src/main/java/ac/uk/ncl/structure/Rule.java:92-94 | getAnchoring is the head's object id when the body starts from the subject, and the head's subject id otherwise |
| Rules.RenameAtom | src/main/java/ac/uk/ncl/structure/Atom.java:79-89 | setSubject then setObject renames an atom's two terms and changes nothing else |
| Rules.Canonicalise | src/main/java/ac/uk/ncl/structure/AbstractRule.java:22-32 | the head becomes (X, Y), the body atoms (V<i>, V<i+1>) with the first subject tied to the head, each atom in place, node ids untouched |
| Rules.RenameBody | src/main/java/ac/uk/ncl/structure/AbstractRule.java:27-31 | the loop renames each body atom i, in place, to (V<i>, V<i+1>) and keeps its relation and node ids |
| Rules.InstantiateAtoms | src/main/java/ac/uk/ncl/structure/InstantiatedRule.java:25-49 | after canonical renaming, types 0 and 2 get their original head constant back and types 1 and 2 their original tail name |
| Rules.RenameTail | src/main/java/ac/uk/ncl/structure/AbstractRule.java:34-35 | a closed abstract rule's last object is renamed to the other head variable; no other atom and no id changes |
| Rules.BindHeadConstant | src/main/java/ac/uk/ncl/structure/InstantiatedRule.java:65-74 | the head's object (body from the subject) or subject (otherwise) is bound to a constant, name and id alike |
| Rules.BindTailConstant | src/main/java/ac/uk/ncl/structure/InstantiatedRule.java:76-83 | the object of the last body atom is bound to a constant, name and id alike, and the other atoms stay as they were |
| Rules.Rule.Make | src/main/java/ac/uk/ncl/structure/Rule.java:16-26 | a rule holds the given head and a copy of the given body list, its shape flags, fresh zero statistics and no child rules |
| Rules.Rule.CopyHead | src/main/java/ac/uk/ncl/structure/Rule.java:47-49 | copyHead returns a new atom equal to the head |
| Rules.Rule.CopyBody | src/main/java/ac/uk/ncl/structure/Rule.java:51-55 | copyBody returns one new atom per body atom, equal to it and in the same order, all distinct objects |
| Rules.Rule.SetStats | src/main/java/ac/uk/ncl/structure/Rule.java:28-33 | setStats stores support, total predictions and ground truth, and recomputes sc, hc and (open abstract rules only) the local average support as RuleStats.compute does (src/main/java/ac/uk/ncl/structure/RuleStats.java:28-33) |
| Rules.NewAbstractRule | src/main/java/ac/uk/ncl/structure/AbstractRule.java:18-36 | AbstractRule(h, b) decides closed and fromSubject from the original ids and leaves the given atoms in canonical form |
| Rules.InstantiateFromAtoms | src/main/java/ac/uk/ncl/structure/InstantiatedRule.java:20-50 | InstantiatedRule(h, b, type) fails exactly when h <- b is closed, before any atom is touched; otherwise it is open, and its atoms are canonical with the original head constant (types 0, 2) and tail name (types 1, 2) back in place |
| Rules.CopyAsInstantiated | src/main/java/ac/uk/ncl/structure/InstantiatedRule.java:61 | Rule(base.copyHead(), base.copyBody()) gives a fresh rule with fresh atoms equal to the base rule's, and the base rule's closed and from-subject shape |
| Rules.BindConstants | src/main/java/ac/uk/ncl/structure/InstantiatedRule.java:65-83 | binding the head's free term and the last body object to the given constants changes those terms only |
| Rules.InstantiateFromBase | src/main/java/ac/uk/ncl/structure/InstantiatedRule.java:60-84 | InstantiatedRule(base, ins, ids, type) fails exactly when the base rule is closed; otherwise the head gets ins[0] for types 0 and 2, and the tail gets ins[0] for type 1 and ins[1] for type 2 |
| Rules.InstantiateFromPath | src/main/java/ac/uk/ncl/structure/InstantiatedRule.java:86-108 | InstantiatedRule(base, instance, path, type) never fails; the head gets the instance's end node (body from the subject) or start node, and the tail gets the path's end node, name and id |
| Settings.Unbounded | src/main/java/ac/uk/ncl/core/Engine.java:102-108 | a cap setting of 0 means no cap: it is replaced by the largest int, and every other cap is kept |
| Stats.Ratio | src/main/java/ac/uk/ncl/structure/RuleStats.java:29-32 | the measures are quotients of the counts; a zero divisor, which Java turns into NaN or Infinity, gives 0 |
| Stats.Confidence | src/main/java/ac/uk/ncl/structure/RuleStats.java:29 | sc is the support divided by the predictions plus CONFIDENCE_OFFSET: times that divisor it gives the support back |
| Stats.ConfidenceMonotone | src/main/java/ac/uk/ncl/structure/RuleStats.java:29 | for a fixed number of predictions, more support never lowers the smoothed standard confidence |
| Stats.ConfidenceBelowRatio | src/main/java/ac/uk/ncl/structure/RuleStats.java:29 | the confidence offset makes the smoothed confidence strictly below support / predictions |
| Stats.ConfidenceIsFraction | src/main/java/ac/uk/ncl/structure/RuleStats.java:29 | when support never exceeds predictions, the smoothed confidence lies in [0, 1) |
| Stats.RuleStats.constructor | src/main/java/ac/uk/ncl/structure/RuleStats.java:10-18 | new statistics are all zero and remember whether their rule is an open abstract rule |
| Stats.RuleStats.Compute | src/main/java/ac/uk/ncl/structure/RuleStats.java:28-33 | compute sets sc to support / (predictions + 5), hc to support / ground truth, and the local average support of an open abstract rule to support / head-anchored size; the counts are unchanged |
| Pairs.PairHash | src/main/java/ac/uk/ncl/structure/Pair.java:26-29 | hashCode is a 32-bit int congruent to 20 sub + 31 obj modulo 2^32, the 64-bit product narrowed to an int |
| Pairs.PairHashConsistent | src/main/java/ac/uk/ncl/structure/Pair.java:26-37 | pairs equal by their two ids are equal and hash alike |
| Pairs.PairHashCollides | src/main/java/ac/uk/ncl/structure/Pair.java:26-29 | the hash is not injective: (31, 0) and (0, 20) differ but hash alike |
| Pairs.FlipInvolutive | src/main/java/ac/uk/ncl/structure/Pair.java:22-24 | reading a pair the other way round twice gives it back, and a pair is a self-loop exactly when it reads the same both ways |
| Pairs.IsSelfloop | src/main/java/ac/uk/ncl/structure/Pair.java:22-24 | a pair is a self-loop exactly when reading it the other way round gives it back |
| Pairs.ScoresCompare | src/main/java/ac/uk/ncl/structure/Pair.java:44-58 | scoresComparator returns -1, 0 or 1 |
| Pairs.CompareByScore | src/main/java/ac/uk/ncl/structure/Pair.java:46-50 | when both pairs have a score at l, the higher score goes first and equal scores compare 0 |
| Pairs.CompareByLength | src/main/java/ac/uk/ncl/structure/Pair.java:51-55 | otherwise the longer score array goes first, so a pair with a score at l precedes one without |
| Pairs.CompareAntisymmetric | src/main/java/ac/uk/ncl/structure/Pair.java:44-58 | swapping the arguments negates the comparison |
| Pairs.BeforeIsTotalPreorder | src/main/java/ac/uk/ncl/structure/Pair.java:44-58 | "compares at most 0" is total and transitive on any list, so sorting with the comparator is well defined |
| Pairs.CompareZero | src/main/java/ac/uk/ncl/structure/Pair.java:44-58 | a 0 comparison means the same score at l, or no score at l on either side and arrays of equal length |
| Graphs.RelsOf | src/main/java/ac/uk/ncl/core/GraphOps.java:274 | the relationships of a node in one direction and of one type are exactly the graph's edges of that type leaving (OUTGOING) or entering (INCOMING) it |
| Graphs.InstanceOf | src/main/java/ac/uk/ncl/core/GraphOps.java:347-351 | an instance wraps its relationship: its type, start node and end node are the edge's |
| Graphs.SeedPath | src/main/java/ac/uk/ncl/core/GraphOps.java:255 | the path a search starts from is a well-formed one-edge path over the seed relationship |
| Graphs.Extend | src/main/java/ac/uk/ncl/core/GraphOps.java:276-277 | extending a path adds the edge and the node at its other end; a well-formed path extended by an edge at its end node stays well formed |
| GraphOps.RelationshipsOfType | src/main/java/ac/uk/ncl/core/GraphOps.java:110-119 | getRelationshipsAPI keeps exactly the relationships of the given type |
| GraphOps.ExtendFollows | src/main/java/ac/uk/ncl/core/GraphOps.java:272-278 | extending a partial grounding by an edge of the next atom's type and direction whose other node is new keeps it a node-unique partial grounding |
| GraphOps.Grounder.constructor | src/main/java/ac/uk/ncl/core/GraphOps.java:242-250 | a search starts with no paths, the stop flag down and no attempts |
| GraphOps.Grounder.Tick | src/main/java/ac/uk/ncl/core/GraphOps.java:460-465 | a tick adds exactly one attempt and changes nothing else |
| GraphOps.Grounder.Search | src/main/java/ac/uk/ncl/core/GraphOps.java:252-258 | the seed loop keeps every stored path a grounding, at most the cap of them, stopping only at the cap or past the attempts limit |
| GraphOps.Grounder.DFS | src/main/java/ac/uk/ncl/core/GraphOps.java:263-283 | DFSGrounding only appends paths, each an extension of the path it was given, and keeps the search invariant |
| GraphOps.GroundingCap | src/main/java/ac/uk/ncl/core/GraphOps.java:267-268 | the grounding cap is APPLY_GROUNDINGS when applying and LEARN_GROUNDINGS when learning, with 0 meaning no cap, so it is always positive |
| GraphOps.BodyGroundingCore | src/main/java/ac/uk/ncl/core/GraphOps.java:241-261 | bodyGroundingCoreAPI returns at most the grounding cap of paths, each with exactly one edge per body atom, edge i of atom i's type and direction, never revisiting a node, and ending at the rule's tail when it is a tail- or both-anchored instance |
| GraphOps.PathsToPairs | src/main/java/ac/uk/ncl/core/GraphOps.java:237-239 | GPFLPathToPairAdaptor gives exactly the (start, end) node pairs of the paths |
| GraphOps.GroundingPairsNamed | src/main/java/ac/uk/ncl/core/GraphOps.java:237-239 | in a graph whose nodes are all named, the pairs of groundings are pairs of named nodes |
| GraphOps.CheckedPairsEndAtTail | src/main/java/ac/uk/ncl/core/GraphOps.java:265 | every pair a tail-checked grounding yields has the rule's tail as its object |
| GraphOps.CypherClose | src/main/java/ac/uk/ncl/core/GraphOps.java:225-230 | each atom's pattern is closed by a node pattern, and the last atom's also by the return clause |
| GraphOps.BuildCypherQuery | src/main/java/ac/uk/ncl/core/GraphOps.java:214-231 | the string-building loop produces exactly the query CypherQuery describes |
| GraphOps.CypherStepUsesBaseType | src/main/java/ac/uk/ncl/core/GraphOps.java:219-224 | an OUTGOING atom gives `-[:P]->` and an INCOMING atom `<-[:P]-` with its base predicate, the underscore removed |
| GraphOps.CypherPrefixIsSteps | src/main/java/ac/uk/ncl/core/GraphOps.java:216-230 | before the last atom the query is `Match p=()` followed by one relationship pattern and `()` per atom |
| GraphOps.CypherQueryShape | src/main/java/ac/uk/ncl/core/GraphOps.java:216-230 | the query is `Match p=()`, one relationship and node pattern per atom, then ` return p` (cap 0) or ` return p limit N` |
| GraphOps.CypherQuery | src/main/java/ac/uk/ncl/core/GraphOps.java:216-230 | the body-grounding query starts `Match p=()` |
| GraphOps.TakeTraversed | src/main/java/ac/uk/ncl/core/GraphOps.java:206-211 | bodyGroundingTraversal keeps the first LEARN_GROUNDINGS paths the traverser yields, never more |
| GraphOps.EvaluatorBounds | src/main/java/ac/uk/ncl/core/GraphOps.java:408-446 | the evaluator only expands the empty path or open, non-self-loop paths below the depth, and only includes non-empty paths, beyond the depth only closed paths from the instance's start or the one-edge reversal |
| GraphOps.ToDepthNoTrivial | src/main/java/ac/uk/ncl/core/GraphOps.java:408-446 | toDepthNoTrivial never includes the empty path, lets the search go on only below the depth (or from the empty path), and prunes a self-loop longer than one step |
| GraphOps.PathIsClosed | src/main/java/ac/uk/ncl/core/GraphOps.java:448-454 | a closed path ends at one of the instance's two nodes; on an instance from a node to itself, a path is closed exactly when it ends there |
| GraphOps.Selfloop | src/main/java/ac/uk/ncl/core/GraphOps.java:456-458 | a self-loop is a path with at least one edge whose first and last nodes coincide |
| GraphOps.InstanceEdgeExcluded | src/main/java/ac/uk/ncl/core/GraphOps.java:429-433 | the instance edge itself, walked from either end, is excluded and pruned |
| GraphOps.ReverseEdgeIncluded | src/main/java/ac/uk/ncl/core/GraphOps.java:419-426 | a target-type relationship from the instance's end node back to its start node is included and pruned |
| GraphOps.OpenPathsFollowDepth | src/main/java/ac/uk/ncl/core/GraphOps.java:440-443 | an open, non-self-loop path of length at least 2 is included iff its length is at most the depth and expanded iff it is below it |
| GraphOps.ClosedPathsAndSelfloops | src/main/java/ac/uk/ncl/core/GraphOps.java:435-441 | a path of length at least 2 that closes the instance is included and pruned when it starts at the instance's start node and excluded and pruned otherwise; an open self-loop is excluded and pruned |
| GenOps.PathAtoms | src/main/java/ac/uk/ncl/core/GenOps.java:85-93 | the body atoms of a path are one per edge, atom i read off edge i from node i |
| GenOps.PathAtomsChain | src/main/java/ac/uk/ncl/core/GenOps.java:85-93 | the atoms a path yields chain: each ends where the next starts, the first starts at the path's start and the last ends at its end, and atom i has edge i's type and is INCOMING exactly when the path crosses edge i backwards |
| GenOps.AbstractionShape | src/main/java/ac/uk/ncl/core/GenOps.java:61-64 | a mined rule is closed exactly when its path ends at either node of the instance, and starts from the subject exactly when the path starts at the instance's start node |
| GenOps.SamePathShapeSameRule | src/main/java/ac/uk/ncl/core/GenOps.java:61-64 | two paths with the same edge types and directions, for instances of one type with the same closed and from-subject shape, give equal abstract rules |
| GenOps.BuildBodyAtoms | src/main/java/ac/uk/ncl/core/GenOps.java:85-93 | buildBodyAtoms returns one new, distinct atom per path edge with the views PathAtoms describes |
| GenOps.Bumped | src/main/java/ac/uk/ncl/core/GenOps.java:66-67 | one more occurrence of a key sets its count to 1 when absent and adds 1 otherwise; the other counts are unchanged |
| GenOps.MineRule | src/main/java/ac/uk/ncl/core/GenOps.java:62-64 | the rule abstraction builds is a fresh abstract rule, the canonical form of the instance's head and the path's body atoms |
| GenOps.Tables.constructor | src/main/java/ac/uk/ncl/core/GenOps.java:14-23 | the tables start empty with every counter at 0 |
| GenOps.Tables.Reset | src/main/java/ac/uk/ncl/core/GenOps.java:46-55 | reset empties every table and zeroes all three counters |
| GenOps.Tables.ResetRuleCounter | src/main/java/ac/uk/ncl/core/GenOps.java:57-59 | resetRuleCounter zeroes the rule counter and leaves every table as it was |
| GenOps.Tables.TickGlobalInsRuleCounter | src/main/java/ac/uk/ncl/core/GenOps.java:25-27 | the instantiated-rule counter goes up by exactly one |
| GenOps.Tables.TickPredictionCounter | src/main/java/ac/uk/ncl/core/GenOps.java:33-35 | the prediction counter goes up by exactly one |
| GenOps.Tables.Abstraction | src/main/java/ac/uk/ncl/core/GenOps.java:61-71 | abstraction returns the mined abstract rule, bumps the frequency of its rendering and no other, stores the rule when the rendering is new, adds 1 to the rule counter and leaves the other tables |
| GenOps.Tables.Count | src/main/java/ac/uk/ncl/core/GenOps.java:66-68 | the frequency update counts one more occurrence of a rendering, stores its rule when it is new, and adds 1 to the rule counter |
| Counting.Row | src/main/java/ac/uk/ncl/structure/AbstractRule.java:262-263 | the predictions for one anchoring are one per original, (original, anchoring) from the subject and (anchoring, original) otherwise, in loop order |
| Counting.PredictionsSnoc | src/main/java/ac/uk/ncl/structure/AbstractRule.java:241-253 | one more anchoring appends its row to the nested loop's predictions |
| Counting.PredictionsPrefix | src/main/java/ac/uk/ncl/structure/AbstractRule.java:241-253 | the predictions of a prefix of the anchorings are a prefix of all the predictions |
| Counting.GridStep | src/main/java/ac/uk/ncl/structure/AbstractRule.java:241-253 | a row stopped after t originals extends the predictions so far to a prefix of all of them, and the hits add up |
| Counting.GridEnd | src/main/java/ac/uk/ncl/structure/AbstractRule.java:252 | the nested loop ends having made all the predictions or a prefix of them |
| Counting.Processed | src/main/java/ac/uk/ncl/structure/AbstractRule.java:266-270 | a capped loop makes every prediction, or stops at the first one after which the shared counter exceeds the cap, having made at least one |
| Counting.ProcessedAt | src/main/java/ac/uk/ncl/structure/AbstractRule.java:262-271 | a capped loop that ended after a given number of predictions, early or not, made exactly Processed of them |
| Counting.ProcessedStops | src/main/java/ac/uk/ncl/structure/AbstractRule.java:266-270 | a loop stops short exactly by passing the cap; a counter that starts at the cap or above stops after the first prediction, and room for all of them means none is skipped |
| Counting.Hits | src/main/java/ac/uk/ncl/structure/AbstractRule.java:264 | the correct predictions never outnumber the predictions |
| Counting.HitsSnoc | src/main/java/ac/uk/ncl/structure/AbstractRule.java:264 | one more prediction adds 1 to the hits exactly when it is a ground-truth fact |
| Counting.HitsAppend | src/main/java/ac/uk/ncl/structure/AbstractRule.java:241-253 | hits of two runs of predictions add up |
| Counting.HitSetSnoc | src/main/java/ac/uk/ncl/structure/AbstractRule.java:264 | the ground-truth facts among the predictions grow by the new prediction exactly when it is one |
| Counting.HitsOfDistinct | src/main/java/ac/uk/ncl/structure/AbstractRule.java:262-264 | over distinct originals the hit count is the number of distinct predicted facts in the ground truth |
| Counting.Counter.constructor | src/main/java/ac/uk/ncl/structure/AbstractRule.java:419-424 | a new counter is 0 |
| Counting.Counter.Tick | src/main/java/ac/uk/ncl/structure/AbstractRule.java:421 | a tick adds exactly one |
| Counting.Counter.Reset | src/main/java/ac/uk/ncl/core/GenOps.java:57-59 | a reset sets the count to 0 |
| Counting.CountRow | src/main/java/ac/uk/ncl/structure/AbstractRule.java:259-271 | evaluateRule's loop makes Processed(originals) predictions, ticks the shared counter once per prediction, counts the ground-truth hits among them, and reports an early stop exactly when the counter passed PREDICTION_CAP |
| Counting.CountGrid | src/main/java/ac/uk/ncl/structure/AbstractRule.java:238-253 | evaluateTailRules' nested loops make Processed of all the predictions, anchoring by anchoring, with the same counting and early-stop report, one stop leaving both loops |
| Evaluation.QualifiedByCounts | src/main/java/ac/uk/ncl/structure/AbstractRule.java:277-279 | with the default thresholds (support 1, confidence 0.0001, offset 5) a child with at least one correct prediction out of at most 9995 qualifies, and one without a correct prediction never does |
| Evaluation.Qualified | src/main/java/ac/uk/ncl/structure/AbstractRule.java:277-279 | qualified: support at least SUPPORT and sc at least STANDARD_CONF, so with the default thresholds a qualifying child has made at least one correct prediction and has positive confidence |
| Evaluation.Keep | src/main/java/ac/uk/ncl/structure/AbstractRule.java:273 | rules.add puts the child into the chosen bucket only, leaving the other two |
| Evaluation.EvaluateRule | src/main/java/ac/uk/ncl/structure/AbstractRule.java:259-275 | evaluateRule stores as total the predictions its capped loop made and as support the ground-truth facts among them, so support <= total <= number of originals; the counter moves by the total; the child is added to its bucket exactly when it qualifies; the result is true exactly when the counter passed PREDICTION_CAP |
| Evaluation.EvaluateTailRules | src/main/java/ac/uk/ncl/structure/AbstractRule.java:238-257 | evaluateTailRules does the same over every (anchoring, original) prediction in turn, with support <= total, the child kept exactly when it qualifies, and the early stop reported |
| Evaluation.OrientedAll | src/main/java/ac/uk/ncl/structure/AbstractRule.java:109-110 | the closed rule's predictions are its groundings, each reversed when the body starts at the head's object |
| Evaluation.EvaluateClosedRule | src/main/java/ac/uk/ncl/structure/AbstractRule.java:107-114 | a closed rule's total is the number of its distinct grounding pairs and its support the number whose oriented fact is in the ground truth; the ground-truth size is stored and no child is made (also src/main/java/ac/uk/ncl/structure/AbstractRule.java:45-52) |
| Evaluation.OrientedInvolutive | src/main/java/ac/uk/ncl/structure/AbstractRule.java:110 | orienting a prediction twice gives it back |
| Evaluation.HitsOriented | src/main/java/ac/uk/ncl/structure/AbstractRule.java:109-112 | counting oriented groundings against the ground truth equals counting the groundings against the oriented ground truth |
| Evaluation.ClosedRuleCounts | src/main/java/ac/uk/ncl/structure/AbstractRule.java:107-114 | over the set of body groundings, listed once each, the closed rule makes one prediction per grounding pair and its support is the number of pairs whose oriented fact is a ground-truth fact |
| Evaluation.EvaluateOpenRule | src/main/java/ac/uk/ncl/structure/AbstractRule.java:402-411 | evaluateOpenRule sets the open rule's support and predictions to the sums over its head-anchored children, headAnchoredSize to their number, and the ground truth to that of the child visited last, then recomputes the measures |
| Evaluation.SumsBounded | src/main/java/ac/uk/ncl/structure/AbstractRule.java:404-406 | when every child has no more support than predictions, neither has the open rule |
| Evaluation.SumsWithout | src/main/java/ac/uk/ncl/structure/AbstractRule.java:404-406 | taking a child out of the listing takes exactly its share out of both sums |
| Evaluation.SumsOrderFree | src/main/java/ac/uk/ncl/structure/AbstractRule.java:404-406 | the open rule's support and predictions do not depend on the order the hash set of children is visited in |
| Groundings.Put | src/main/java/ac/uk/ncl/structure/AbstractRule.java:176-180 | Multimap.put adds one value under one key and nothing else |
| Groundings.TailsOfListing | src/main/java/ac/uk/ncl/structure/AbstractRule.java:162-169 | the tails counted are exactly the objects of the grounding pairs |
| Groundings.TailsSnoc | src/main/java/ac/uk/ncl/structure/AbstractRule.java:164-168 | one more grounding adds its object to the tails and 1 to that tail's count only |
| Groundings.TailCountPositive | src/main/java/ac/uk/ncl/structure/AbstractRule.java:164-168 | a node has a positive count exactly when it is a tail of some grounding |
| Groundings.RankedTails | src/main/java/ac/uk/ncl/structure/AbstractRule.java:162-173 | getRankedTails lists every tail exactly once, in non-increasing order of the number of groundings ending there |
| Groundings.TailToOriginal | src/main/java/ac/uk/ncl/structure/AbstractRule.java:185-190 | getTailToOriginal stores o under t exactly when some grounding goes from o to t |
| Groundings.AnchoringToOriginal | src/main/java/ac/uk/ncl/structure/AbstractRule.java:175-183 | getAnchoringToOriginal stores o under a exactly when a is a listed anchoring and the fact predicted from o at a is in the ground truth |
| Groundings.TailKeys | src/main/java/ac/uk/ncl/structure/AbstractRule.java:185-190 | every key of the tail map is a tail of the groundings |
| Groundings.AnchoringKeys | src/main/java/ac/uk/ncl/structure/AbstractRule.java:175-183 | every key of the anchoring map is a listed anchoring |
| Groundings.Shares | src/main/java/ac/uk/ncl/structure/AbstractRule.java:305-310 | the inner loop finds a shared original exactly when the two value sets intersect |
| Groundings.CreateBothRuleInstances | src/main/java/ac/uk/ncl/structure/AbstractRule.java:301-314 | createBothRuleInstances holds (a, t) exactly when the originals under t and under a intersect |
| Groundings.BothInstancesMeaning | src/main/java/ac/uk/ncl/structure/AbstractRule.java:301-314 | (a, t) is a both-anchored instance exactly when a is a listed anchoring and some grounding from an original o ends at t while the fact o predicts at a is in the ground truth |
| Groundings.IsTrivial | src/main/java/ac/uk/ncl/structure/AbstractRule.java:195-197 | isTrivial: only an instance whose anchoring is its tail can be trivial, and only for a base rule with a one-atom body |
| Instantiation.HeadChild | src/main/java/ac/uk/ncl/structure/AbstractRule.java:120-123 | one head-anchored child: the global counter ticks once; the child is new, with getAnchoring the anchoring; its evaluation pairs the anchoring with each original in order, begins where the loop's prediction counter stood and advances it by the predictions made (none past PREDICTION_CAP), and its totalPredictions, support (the hits in the ground truth), groundTruth, sc and hc are that evaluation's; it joins headRules exactly when it qualifies; it stops the loop exactly when there are originals and the counter has passed PREDICTION_CAP |
| Instantiation.HeadAnchored | src/main/java/ac/uk/ncl/structure/AbstractRule.java:121-122 | the head-anchored child is a new rule with new statistics whose getAnchoring is the anchoring it was built with |
| Instantiation.HeadStep | src/main/java/ac/uk/ncl/structure/AbstractRule.java:119-123 | one turn of the head-anchored loop: past INS_RULE_CAP it builds nothing, ends the loop and leaves the counter alone; otherwise it ticks once and appends one fresh child anchored at the next anchoring, scored by its evaluation against the ground truth, the evaluations still chained on the loop's one prediction counter; headRules holds exactly the children so far whose evaluations qualify |
| Instantiation.GenSpecHead | src/main/java/ac/uk/ncl/structure/AbstractRule.java:116-125 | the head-anchored loop, switched by USE_HEAD_RULES, returns the children it built and their evaluations (as a Run): the global counter ticks exactly once per child; none is built when the switch is off or the counter starts past INS_RULE_CAP; an anchoring is left unbuilt only once the counter has passed INS_RULE_CAP or the shared prediction counter has passed PREDICTION_CAP; the j-th child is fresh, anchored at the j-th anchoring and scored by the j-th evaluation, which pairs that anchoring with each original and is counted against the ground truth; the evaluations draw in turn on one counter new at zero; headRules gains exactly the qualifying children |
| Instantiation.KeptByScores | src/main/java/ac/uk/ncl/structure/AbstractRule.java:272-273 | when each child has the statistics of its evaluation, the children that qualify are exactly those whose evaluations' counts qualify |
| Instantiation.TailChild | src/main/java/ac/uk/ncl/structure/AbstractRule.java:131-135 | one tail-anchored child: one tick; the child is new, with getTail the tail; its evaluation pairs every anchoring with each of a listing of the originals the tail-to-original map holds for the tail, begins where the loop's prediction counter stood and advances it by the predictions made, and its statistics are that evaluation's counts against the ground truth; it joins tailRules exactly when it qualifies; it stops the loop exactly when it made predictions and the counter has passed PREDICTION_CAP |
| Instantiation.TailAnchored | src/main/java/ac/uk/ncl/structure/AbstractRule.java:132-133 | the tail-anchored child is a new rule with new statistics and a non-empty body whose getTail is the tail it was built with |
| Instantiation.GenSpecTail | src/main/java/ac/uk/ncl/structure/AbstractRule.java:127-137 | the tail-anchored loop, switched by USE_TAIL_RULES, over the top TAIL_CAP ranked tails: one tick per child built, none when off or past the cap, a tail left unbuilt only once a cap is passed; the j-th child is fresh, tail-anchored at the j-th tail and scored by the j-th evaluation, over every anchoring and the originals behind that tail; the evaluations draw in turn on one counter new at zero; tailRules gains exactly the qualifying children |
| Instantiation.TailStep | src/main/java/ac/uk/ncl/structure/AbstractRule.java:130-135 | one turn of the tail-anchored loop: past INS_RULE_CAP it builds nothing and ends the loop; otherwise one tick and one fresh child anchored at the next tail and scored by its evaluation, chained on the loop's counter; tailRules holds exactly the children so far whose evaluations qualify |
| Instantiation.BothChild | src/main/java/ac/uk/ncl/structure/AbstractRule.java:144-149 | one both-anchored child: one tick; the child is new, with getAnchoring and getTail the instance's two nodes; its evaluation pairs the anchoring with each of a listing of the originals behind the tail, begins where the loop's prediction counter stood and advances it, and its statistics are that evaluation's counts against the ground truth; it joins bothRules exactly when it qualifies; it stops the loop exactly when there are originals and the counter has passed PREDICTION_CAP |
| Instantiation.BothAnchored | src/main/java/ac/uk/ncl/structure/AbstractRule.java:145-147 | the both-anchored child is a new rule with new statistics whose getAnchoring and getTail are the instance's two nodes |
| Instantiation.GenSpecBoth | src/main/java/ac/uk/ncl/structure/AbstractRule.java:139-151 | the both-anchored loop, switched by USE_BOTH_RULES, over the non-trivial instances: one tick per child built, none when off or past the cap, an instance left unbuilt only once a cap is passed; the j-th child is fresh, anchored at both ends of the j-th non-trivial instance and scored by the j-th evaluation, over the originals behind its tail; the evaluations draw in turn on one counter new at zero; bothRules gains exactly the qualifying children |
| Instantiation.BothStep | src/main/java/ac/uk/ncl/structure/AbstractRule.java:142-149 | one turn of the both-anchored loop: past INS_RULE_CAP it builds nothing and ends the loop; otherwise one tick and one fresh child anchored at both ends of the next non-trivial instance and scored by its evaluation, chained on the loop's counter; bothRules holds exactly the children so far whose evaluations qualify |
| Instantiation.NonTrivialMembers | src/main/java/ac/uk/ncl/structure/AbstractRule.java:142 | the instances the loop builds for are exactly the listed instances that are not trivial (the `continue` on isTrivial) |
| Instantiation.NonTrivial | src/main/java/ac/uk/ncl/structure/AbstractRule.java:142 | the instances left after passing over the trivial ones are no more than those listed |
| Instantiation.GenSpecBothPart | src/main/java/ac/uk/ncl/structure/AbstractRule.java:139-151 | with USE_BOTH_RULES on, the instances are listed once each and are exactly the pairs of an anchoring and a tail some body grounding reaches from an original whose prediction at that anchoring is a ground-truth fact; the loop over them then keeps all of GenSpecBoth's guarantees, evaluations included; off, nothing is built |
| Instantiation.GenSpecHeadTail | src/main/java/ac/uk/ncl/structure/AbstractRule.java:116-137 | the head-anchored and then the tail-anchored loop, the global counter running on from one to the next, each with its own guarantees: children, evaluations against the ground truth on a prediction counter of its own, and bucket |
| Instantiation.GenSpecChildren | src/main/java/ac/uk/ncl/structure/AbstractRule.java:115-152 | the three loops in the order head, tail, both, the global counter running on from one to the next: each keeps its own loop's guarantees, including that its j-th child is scored by its j-th evaluation against the ground truth and that its evaluations share one prediction counter new at zero (Evaluated); the cap is kept over all three, each bucket only grows, and a bucket whose switch is off is unchanged |
| Instantiation.GenSpecOpen | src/main/java/ac/uk/ncl/structure/AbstractRule.java:115-153 | the open branch: the children as GenSpecChildren states, still in their buckets and with the statistics of their evaluations after scoring, then the open rule's statistics as the sums over its head-anchored children, with headAnchoredSize their number |
| Instantiation.ScoreSpecialised | src/main/java/ac/uk/ncl/structure/AbstractRule.java:153 | evaluateOpenRule after the loops: the children stay where they went and the open rule is scored from its head-anchored children |
| Instantiation.ScoreOpen | src/main/java/ac/uk/ncl/structure/AbstractRule.java:153 | evaluateOpenRule over the children in the order the hash set yields them |
| Instantiation.GenSpecClosed | src/main/java/ac/uk/ncl/structure/AbstractRule.java:107-114 | a closed rule's total is the number of its distinct body-grounding pairs and its support the number whose oriented fact is in the ground truth |
| Instantiation.BodyGroundingPairs | src/main/java/ac/uk/ncl/structure/AbstractRule.java:97-98 | the body groundings reduced to pairs are the end points of groundings of the rule's body, listed once each |
| Instantiation.SharedInputs | src/main/java/ac/uk/ncl/structure/AbstractRule.java:97-105 | the shared inputs are the grounding pairs, their originals, the two multimaps, and the tails ranked by frequency |
| Instantiation.GenSpecShared | src/main/java/ac/uk/ncl/structure/AbstractRule.java:95-160 | GenSpecSharedMethod: a closed rule gets support and total from its distinct grounding pairs, builds no child and leaves the counter alone; an open rule runs the three loops as GenSpecChildren states, over the anchorings, the top TAIL_CAP ranked tails and the listed both-anchored instances, each child scored by its evaluation against the ground truth over the originals (or the originals behind its tail) of the listed body groundings, each loop's evaluations on one counter new at zero; each bucket only grows; the result is the union of the three buckets |
| Instantiation.GenSpecBranches | src/main/java/ac/uk/ncl/structure/AbstractRule.java:107-153 | the closed/open split of GenSpecSharedMethod once its inputs are derived: closed, scored on the grounding pairs with no child and no tick; open, the guarantees of GenSpecOpen, evaluations included |
| Instantiation.GenSpecClosedRun | src/main/java/ac/uk/ncl/structure/AbstractRule.java:107-114 | the closed branch: GenSpecClosed's statistics, no child built, no bucket changed and the counter left alone |
| Instantiation.OriginalsAt | src/main/java/ac/uk/ncl/structure/AbstractRule.java:74-76 | the originals of a tail are exactly the starts of the groundings that end there (Behind), listed once each |
| Instantiation.Behind | src/main/java/ac/uk/ncl/structure/AbstractRule.java:65-66 | the starts behind a tail are exactly the o with (o, tail) among the body groundings |
| Instantiation.GenSharedChild | src/main/java/ac/uk/ncl/structure/AbstractRule.java:54-78 | one recorded child is re-scored only when the switch for its kind is on, else its statistics are untouched; re-scored, its statistics are those of an evaluation on a new counter at zero against the ground truth: a head child at its anchoring over the originals, a tail child at every recorded anchoring over the starts behind its tail, a both child at its anchoring over the starts behind its tail; it then joins its own bucket exactly when it qualifies and no other bucket changes |
| Instantiation.GenSharedStep | src/main/java/ac/uk/ncl/structure/AbstractRule.java:54-79 | one turn of the loop over the recorded children keeps the loop invariant: each re-scored child so far is in its bucket exactly when it was before or now qualifies, only such children have joined a bucket, and each was re-scored by its own evaluation as GenSharedChild states |
| Instantiation.DoneNext | src/main/java/ac/uk/ncl/structure/AbstractRule.java:54-78 | visiting the next recorded child, which can join only its own bucket, keeps the loop's bucket invariant for one more child |
| Instantiation.GenSharedChildren | src/main/java/ac/uk/ncl/structure/AbstractRule.java:54-79 | after the loop, taken in some order of the recorded children, each recorded child of an allowed kind was re-scored by its own evaluation against the ground truth (on a new counter) and is in its bucket exactly when it was before or now qualifies, and only such children have joined a bucket |
| Instantiation.GenSharedLoop | src/main/java/ac/uk/ncl/structure/AbstractRule.java:54-79 | the loop over the recorded children as listed: afterwards every re-scored child is in its bucket exactly when it was before or now qualifies, only such children have joined a bucket, and the i-th child, when re-scored, has the statistics of the i-th evaluation, made with a counter of its own |
| Instantiation.GenSharedOpen | src/main/java/ac/uk/ncl/structure/AbstractRule.java:53-81 | the open branch of GenSharedMethod: the recorded children re-scored as GenSharedChildren states, over the recorded anchorings and the originals, each listed once (Reevaluated), then the open rule scored from its head-anchored children |
| Instantiation.GenShared | src/main/java/ac/uk/ncl/structure/AbstractRule.java:41-86 | GenSharedMethod: a closed rule is scored on its distinct grounding pairs with no bucket changed; an open one has each recorded child of an allowed kind re-scored by its own evaluation against the ground truth, with a new counter per child, bucketed exactly when it was before or now qualifies, and is scored from its head children; the result is the union of the buckets |
| IO.ScKey | src/main/java/ac/uk/ncl/utils/IO.java:108-109 | the sort key of a listed rule is its sc |
| IO.ComparatorIsDescendingSc | src/main/java/ac/uk/ncl/utils/IO.java:106-114 | ruleComparatorBySC puts the higher sc first, returns 0 exactly on equal sc, is antisymmetric, and "at most 0" is exactly the descending-sc order |
| IO.RuleComparatorBySC | src/main/java/ac/uk/ncl/utils/IO.java:106-114 | the comparison is negative exactly when the first rule has the higher sc and positive exactly when the second has |
| IO.RankedRulesBySC | src/main/java/ac/uk/ncl/utils/IO.java:116-120 | rankedRulesBySC returns a permutation of its input with non-increasing sc |
| IO.TopOfRanked | src/main/java/ac/uk/ncl/utils/IO.java:116-120 | in a list sorted by descending sc, every rule among the first k has an sc no lower than any rule left out |
| IO.RankedListsSet | src/main/java/ac/uk/ncl/utils/IO.java:116-120 | ranking a listing of a set lists that set, each rule once |
| IO.RankedTop | src/main/java/ac/uk/ncl/utils/IO.java:116-120 | the ranked top k of a listing holds min(k, length) rules |
| IO.RankedTopChosen | src/main/java/ac/uk/ncl/utils/IO.java:116-120 | of any listing of a set of rules, the top k of the ranking are min(k, size) distinct rules of the set, highest sc first, none below a rule left out |
| IO.TopOfListing | src/main/java/ac/uk/ncl/utils/IO.java:116-120 | the first k of a ranked listing of a set are rules of the set without repeats, highest sc first, none below a rule left out |
| IO.RuleLines | src/main/java/ac/uk/ncl/utils/IO.java:97-100 | writeRules writes one line per rule |
| IO.RuleLinesAt | src/main/java/ac/uk/ncl/utils/IO.java:97-100 | line i is the rendering of rule i, then its sc, total predictions and support, tab-separated |
| IO.WriteRules | src/main/java/ac/uk/ncl/utils/IO.java:87-104 | writeRules lists every rule of the set once, in non-increasing sc order, and writes exactly their lines |
| IO.QueryHeaderCounts | src/main/java/ac/uk/ncl/utils/IO.java:153-158 | the query header adds one opening and one closing parenthesis to those of the relation and the two slots |
| IO.ObjectHeaderAsWrittenIsQueryHeader | src/main/java/ac/uk/ncl/utils/IO.java:156-158 | the object-query header as written is the query header with `(?` in the subject slot |
| IO.ObjectHeaderAsWritten | src/main/java/ac/uk/ncl/utils/IO.java:156-158 | the object header as written opens with `Query: R((`: the doubled parenthesis |
| IO.ObjectHeaderAsWrittenUnbalanced | src/main/java/ac/uk/ncl/utils/IO.java:156-158 | the object-query header as written opens one parenthesis more than it closes, for every relation and name with balanced parentheses; the intended header balances |
| IO.HeaderBalanced | src/main/java/ac/uk/ncl/utils/IO.java:153-158 | both headers, the subject query's as written and the object query's as intended, balance their parentheses |
| IO.Header | src/main/java/ac/uk/ncl/utils/IO.java:153-158 | both headers open with `Query: R(` and close with `)`; the object header is one character shorter than as written (no doubled parenthesis) |
| IO.RankedQueries.constructor | src/main/java/ac/uk/ncl/utils/IO.java:149 | the ranked queries hold the per-type maps they are given |
| IO.FactLines | src/main/java/ac/uk/ncl/utils/IO.java:163-171 | one fact line per candidate, `(sub, R, obj)` and its first score |
| IO.QueryBlockShape | src/main/java/ac/uk/ncl/utils/IO.java:152-172 | a query block is its header, then the first min(TOP_K, n) candidates' fact lines in rank order, then a blank line |
| IO.WriteQueryType | src/main/java/ac/uk/ncl/utils/IO.java:152-173 | one block per query of a type, each key of the map once |
| IO.WritePredictedFacts | src/main/java/ac/uk/ncl/utils/IO.java:149-178 | the subject queries' blocks, then the object queries' blocks, each key of each map once; every block is its header, at most TOP_K fact lines and a blank line, the object header being the corrected `R(?, name)` (the as-written one is listed under Left out and Findings) |
| IO.ExplainedAtAdd | src/main/java/ac/uk/ncl/utils/IO.java:185-189 | one more query adds its first VERIFY_PREDICTION_SIZE pairs to the predictions |
| IO.ExplainedMembers | src/main/java/ac/uk/ncl/utils/IO.java:185-189 | a pair is a prediction to verify exactly when it is among the first VERIFY_PREDICTION_SIZE candidates of some query of some type |
| IO.CollectPredictions | src/main/java/ac/uk/ncl/utils/IO.java:183-189 | the collecting loops gather exactly those predictions |
| IO.CollectType | src/main/java/ac/uk/ncl/utils/IO.java:185-188 | the inner forEach adds the first VERIFY_PREDICTION_SIZE candidates of every query of one type |
| IO.ListRules | src/main/java/ac/uk/ncl/utils/IO.java:197 | each prediction's rule list holds every candidate rule of that prediction exactly once |
| IO.VerifiedRuleLines | src/main/java/ac/uk/ncl/utils/IO.java:205 | one line per chosen rule |
| IO.RecordOther | src/main/java/ac/uk/ncl/utils/IO.java:206 | recording one prediction's rules leaves every other prediction's verification as it was |
| IO.BlocksSnoc | src/main/java/ac/uk/ncl/utils/IO.java:193-208 | one more prediction appends its block to the file |
| IO.VerifyStep | src/main/java/ac/uk/ncl/utils/IO.java:197-207 | recording the chosen rules of the next prediction keeps every earlier prediction's verification |
| IO.VerifyNext | src/main/java/ac/uk/ncl/utils/IO.java:197-206 | one pass of the loop records the next prediction's ranked top rules, when there are any, and keeps every earlier prediction's verification |
| IO.BlocksNext | src/main/java/ac/uk/ncl/utils/IO.java:196-207 | one pass of the loop writes the next prediction's block after the earlier ones |
| IO.VerifyAll | src/main/java/ac/uk/ncl/utils/IO.java:192-213 | for each listed prediction, the rules listed and recorded are at most VERIFY_RULE_SIZE of its candidate rules, highest sc first, none below a rule left out; the multimap holds exactly these, and the file holds one block per prediction |
| IO.WriteVerifications | src/main/java/ac/uk/ncl/utils/IO.java:180-215 | writeVerifications empties the ranking it is passed, visits each prediction to verify exactly once, and returns and writes exactly the chosen rules of each |
| IO.WriteInstance | src/main/java/ac/uk/ncl/utils/IO.java:70-85 | one line per instance, in list order, each `id\tstart\ttype\tend` |
| IO.EdgeById | src/main/java/ac/uk/ncl/utils/IO.java:57 | the edge looked up by id has that id, and no edge has it when none is found |
| IO.ReadInstance | src/main/java/ac/uk/ncl/utils/IO.java:51-66 | readInstance before its shuffle yields, in file order, the instance whose edge id is each line's first tab field, and fails exactly when some line does not parse or names no edge |
| IO.InstanceLineRoundTrip | src/main/java/ac/uk/ncl/utils/IO.java:74-78 | a line written for an instance whose edge id is unique in the graph reads back as that instance |
| Application.Passing | src/main/java/ac/uk/ncl/structure/AbstractRule.java:326-328 | the candidates kept are those that are no self-loop and not a training fact, none added |
| Application.Emitted | src/main/java/ac/uk/ncl/structure/AbstractRule.java:366-374 | every fact an apply loop puts is one of its candidates that passes pairCheck |
| Application.PairCheck | src/main/java/ac/uk/ncl/structure/AbstractRule.java:326-328 | pairCheck holds exactly when the pair is not a self-loop (reading it the other way round changes it) and is not a training fact |
| Application.EmittedIsCappedPassing | src/main/java/ac/uk/ncl/structure/AbstractRule.java:366-374 | from a counter within the cap, an apply loop puts the candidates that pass pairCheck, in order, up to the one that takes the counter past SUGGESTION_CAP |
| Application.EmittedWithinCap | src/main/java/ac/uk/ncl/structure/AbstractRule.java:366-374 | the prediction counter ends at most one past the cap, and a loop that stays within the cap puts every candidate that passes pairCheck |
| Application.PutAllRules | src/main/java/ac/uk/ncl/structure/AbstractRule.java:370 | after the puts, a fact is a key exactly when it was one or was put, and it maps to its old rules plus the child rule exactly when it was put |
| Application.Emit | src/main/java/ac/uk/ncl/structure/AbstractRule.java:366-374 | the shared apply loop puts exactly the capped passing candidates with the child rule and ticks the counter once per put |
| Application.TailOriginals | src/main/java/ac/uk/ncl/structure/AbstractRule.java:351-353 | an original is behind a tail exactly when some body grounding runs from it to that tail |
| Application.TailToOriginalGet | src/main/java/ac/uk/ncl/structure/AbstractRule.java:351-353 | the tail-to-original multimap yields the originals behind each tail |
| Application.PredictionsMembers | src/main/java/ac/uk/ncl/structure/AbstractRule.java:353-354 | every candidate of the tail-anchored grid pairs an anchoring of the test facts with an original |
| Application.ApplyHead | src/main/java/ac/uk/ncl/structure/AbstractRule.java:363-375 | applyHeadAnchoredRules pairs each start node of the groundings with the child's anchoring and puts the capped passing candidates; each is a fact the child predicts |
| Application.ApplyTail | src/main/java/ac/uk/ncl/structure/AbstractRule.java:350-361 | applyTailAnchoredRules, with the cap ending both loops: pairs each original behind the child's tail with each test anchoring and puts the capped passing candidates |
| Application.ApplyBoth | src/main/java/ac/uk/ncl/structure/AbstractRule.java:377-392 | applyBothAnchoredRules pairs each original behind the child's tail with the child's anchoring and puts the capped passing candidates |
| Application.TailRowsPassCap | src/main/java/ac/uk/ncl/structure/AbstractRule.java:353-358 | the tail loop as written, with the counter at the cap, puts a fact for each further anchoring; the loop whose cap ends both loops puts only one |
| Application.EmittedByRows | src/main/java/ac/uk/ncl/structure/AbstractRule.java:353-360 | every pair the tail-anchored loop puts, row by row as written, passes pairCheck |
| Application.ClosedCandidates | src/main/java/ac/uk/ncl/structure/AbstractRule.java:394-398 | a closed rule's candidates are its groundings, turned round when the body starts from the head object, that pass pairCheck |
| Application.ApplyClosed | src/main/java/ac/uk/ncl/structure/AbstractRule.java:394-400 | applyClosedRule adds exactly the closed candidates as keys and adds the closed rule itself to each, without touching the other keys |
| Application.ApplyChildren | src/main/java/ac/uk/ncl/structure/AbstractRule.java:220-233 | one child loop of applyRule: every suggestion added passes pairCheck and is made by one of the sampled children that predicts it; the counter keeps to the cap; the loop's run is the fold Applied over the children it started, each visiting its own candidates, and it leaves children unstarted only once the counter has passed SUGGESTION_CAP |
| Application.ChildStep | src/main/java/ac/uk/ncl/structure/AbstractRule.java:220-223 | one turn of a child loop within the cap keeps its invariant: what the first k+1 children added, and the fold over them |
| Application.ApplyChild | src/main/java/ac/uk/ncl/structure/AbstractRule.java:220-233 | one started child by its kind's apply method: it visits its own candidates, puts exactly the capped passing ones with the child, each a fact the child predicts, and ticks once per put |
| Application.Applied | src/main/java/ac/uk/ncl/structure/AbstractRule.java:220-233 | the fold of one child loop: the counter never goes down, ends at most one past SUGGESTION_CAP when it started within it, and nothing happens when it started past it |
| Application.AppliedKeeps | src/main/java/ac/uk/ncl/structure/AbstractRule.java:220-233 | along the fold, no rule a fact already holds is lost |
| Application.AppliedComplete | src/main/java/ac/uk/ncl/structure/AbstractRule.java:220-233 | when a loop ends within SUGGESTION_CAP, every candidate of every child that passes pairCheck is suggested by that child |
| Application.AppliedSnoc | src/main/java/ac/uk/ncl/structure/AbstractRule.java:220-233 | one more child started within the cap extends the fold by exactly its capped passing candidates |
| Application.ChildLoopSnoc | src/main/java/ac/uk/ncl/structure/AbstractRule.java:220-233 | one more child started, visiting its own candidates, extends the loop's run |
| Application.AddedStep | src/main/java/ac/uk/ncl/structure/AbstractRule.java:220-233 | the suggestions of one more child extend what the earlier ones added |
| Application.AddedWithin | src/main/java/ac/uk/ncl/structure/AbstractRule.java:220-233 | what the first k children added, any longer prefix of the children added |
| Application.Sampled | src/main/java/ac/uk/ncl/structure/AbstractRule.java:214-216 | the sampled children of each kind are the top TOP_INS_RULES by sc of that kind, each with the ids read from it |
| Application.IdsOfAll | src/main/java/ac/uk/ncl/structure/AbstractRule.java:214-216 | one ids record per sampled child |
| Application.IdsOfAllAt | src/main/java/ac/uk/ncl/structure/AbstractRule.java:214-216 | the ids at each position are those read from the child at that position |
| Application.ApplyOpen | src/main/java/ac/uk/ncl/structure/AbstractRule.java:219-234 | the three loops of an open rule: every suggestion passes pairCheck and is made by a sampled head-, tail- or both-anchored child that predicts it; the counter keeps to the cap; the result and final counter are AppliedOpen of the three runs, and each loop leaves children unstarted only once the counter has passed SUGGESTION_CAP |
| Application.AppliedOpen | src/main/java/ac/uk/ncl/structure/AbstractRule.java:219-234 | the three folds chained from an empty map, head then tail then both, the counter running on and never going down |
| Application.OpenComplete | src/main/java/ac/uk/ncl/structure/AbstractRule.java:219-234 | when an open rule's application ends within SUGGESTION_CAP, every sampled child of every kind was started, and every candidate it visited that passes pairCheck is suggested by it |
| Application.ClosedFromEmpty | src/main/java/ac/uk/ncl/structure/AbstractRule.java:218 | on a fresh map, each candidate of a closed rule is suggested by that rule alone |
| Application.SampleChildren | src/main/java/ac/uk/ncl/structure/AbstractRule.java:214-216 | the three sampled lists are each ranked by sc and cut at TOP_INS_RULES, with the ids of each child |
| Application.ApplyRule | src/main/java/ac/uk/ncl/structure/AbstractRule.java:209-236 | applyRule: the groundings are those of the rule's body, the anchorings those of the test facts; a closed rule suggests exactly its closed candidates, each by itself, and leaves the counter alone; an open rule's suggestions each come from one of at most TOP_INS_RULES sampled children per kind that predicts it, and its result is the chained fold AppliedOpen over the children the loops started (complete under the cap by OpenComplete); every suggestion passes pairCheck |
| Application.TestAnchorings | src/main/java/ac/uk/ncl/structure/AbstractRule.java:211 | the anchorings are exactly the head node of each test fact that the body does not start from: its object when the body starts from the subject, else its subject |
| Ranking.FirstHit | src/main/java/ac/uk/ncl/core/Engine.java:864-869 | the position found is that of a test fact with none before it, and none is found exactly when the ranking holds no test fact |
| Ranking.Mrr | src/main/java/ac/uk/ncl/core/Engine.java:862-871 | mrr lies in [0, 1]; it is 1 exactly when the first pair is a test fact, 0 exactly when no pair is, and otherwise the reciprocal of the 1-based rank of the first test fact |
| Ranking.HitCount | src/main/java/ac/uk/ncl/core/Engine.java:876 | the count of test facts is at most the length, 0 exactly when none is listed, and the length exactly when every pair is one |
| Ranking.HitAt | src/main/java/ac/uk/ncl/core/Engine.java:873-880 | hitAt divides the test facts among the first min(n, length) pairs by that cut or by the number of test facts when that is smaller; it is 0 when there are no test facts or no hits, and never negative |
| Ranking.HitAtAtMostOne | src/main/java/ac/uk/ncl/core/Engine.java:873-880 | a ranking without repeats whose test facts all lie among the query's answers scores at most 1 when the answers are counted as totalPositiveIns |
| Ranking.HitsWithin | src/main/java/ac/uk/ncl/core/Engine.java:876 | distinct listed test facts that all lie among the answers are no more than the answers |
| Ranking.Confidences | src/main/java/ac/uk/ncl/core/Engine.java:886 | one confidence per rule, the rule's sc, in listing order |
| Ranking.ScoreVectorSpec | src/main/java/ac/uk/ncl/core/Engine.java:884-888 | a pair's scores array holds each suggesting rule's sc once and never rises |
| Ranking.ScoreVector | src/main/java/ac/uk/ncl/core/Engine.java:884-888 | the scores array holds exactly the confidences of the pair's rules, each as often as it occurs |
| Ranking.RunLength | src/main/java/ac/uk/ncl/core/Engine.java:943-955 | the leading run ties with the lead pair and ends at the first pair that does not |
| Ranking.Groups | src/main/java/ac/uk/ncl/core/Engine.java:939-958 | createTies cuts the array into non-empty runs that together are the array, each member tying with its run's first pair |
| Ranking.SortTies | src/main/java/ac/uk/ncl/core/Engine.java:893-910 | sortTies returns a permutation of its input |
| Ranking.SortGroups | src/main/java/ac/uk/ncl/core/Engine.java:902-909 | the loop over the runs returns a permutation of the runs' members |
| Ranking.LexGEShort | src/main/java/ac/uk/ncl/core/Engine.java:893-910 | pairs with no score at a position and vectors of one length compare equal from there on |
| Ranking.SortTiesLex | src/main/java/ac/uk/ncl/core/Engine.java:893-910 | sortTies orders the pairs by their score vectors position by position, highest first, a missing score below every present one, up to MAX_RECURSION_DEPTH |
| Ranking.SortGroupsLex | src/main/java/ac/uk/ncl/core/Engine.java:902-909 | the refined runs of a sorted array, concatenated in order, are in that lexicographic order |
| Ranking.RefinedRunLex | src/main/java/ac/uk/ncl/core/Engine.java:903-907 | a run of ties, refined by sortTies when it holds more than one pair, is in lexicographic order |
| Ranking.GroupsInOrder | src/main/java/ac/uk/ncl/core/Engine.java:939-958 | the runs createTies cuts from a sorted array come in order, and no pair ties with a later run |
| Ranking.RunInOrder | src/main/java/ac/uk/ncl/core/Engine.java:943-955 | the run at the front of a sorted array precedes, and ties with nothing in, the rest |
| Ranking.CrossSorted | src/main/java/ac/uk/ncl/core/Engine.java:902-909 | refining runs separately keeps every member of a run ahead of every member of the later runs |
| Ranking.RunSorted | src/main/java/ac/uk/ncl/core/Engine.java:903-907 | a refined run of ties, or a run of one, is in order |
| Ranking.ScoredAllAt | src/main/java/ac/uk/ncl/core/Engine.java:883-889 | each candidate carries the score vector of its own rules |
| Ranking.ListedSnoc | src/main/java/ac/uk/ncl/core/Engine.java:883-886 | listing the rules of one more candidate extends the rule lists |
| Ranking.RankCandidates | src/main/java/ac/uk/ncl/core/Engine.java:882-891 | rankCandidates scores each candidate exactly once with the sorted confidences of the rules suggesting it, and returns a permutation of the scored candidates in lexicographic score order |
| PairSort.Swap | src/main/java/ac/uk/ncl/core/Engine.java:933-937 | swap exchanges two cells and changes nothing else |
| PairSort.SwapInSegment | src/main/java/ac/uk/ncl/core/Engine.java:933-937 | exchanging two cells of a range rearranges that range only |
| PairSort.SidesSwap | src/main/java/ac/uk/ncl/core/Engine.java:924-928 | moving a cell that scores above the pivot to the end of the upper side grows both sides by one |
| PairSort.PartitioningInit | src/main/java/ac/uk/ncl/core/Engine.java:920-923 | before the first pass both sides are empty and nothing has moved |
| PairSort.PartitioningSwap | src/main/java/ac/uk/ncl/core/Engine.java:926-927 | a cell scoring above the pivot, exchanged with the first cell after the upper side, keeps the range rearranged and the sides ordered |
| PairSort.PartitioningKeep | src/main/java/ac/uk/ncl/core/Engine.java:926-927 | a cell not scoring above the pivot stays where it is and joins the lower side |
| PairSort.PartitionStep | src/main/java/ac/uk/ncl/core/Engine.java:924-928 | one pass of partition's loop keeps the cells scoring above the pivot before the rest, the pivot last and the rest of the array unchanged |
| PairSort.SidesPivot | src/main/java/ac/uk/ncl/core/Engine.java:929-930 | the final exchange puts the pivot between the cells that score more and those that do not |
| PairSort.PartitionEnd | src/main/java/ac/uk/ncl/core/Engine.java:929-930 | after the final exchange the range is still a rearrangement of the input and the pivot splits it |
| PairSort.PartitionFinish | src/main/java/ac/uk/ncl/core/Engine.java:929-930 | the final exchange returns a pivot position that splits the range |
| PairSort.Partition | src/main/java/ac/uk/ncl/core/Engine.java:920-931 | partition rearranges the range only and returns a pivot position with strictly higher scores before it and no higher scores after it, a missing score counting as -1 |
| PairSort.QuickSort | src/main/java/ac/uk/ncl/core/Engine.java:912-918 | quickSort rearranges the range only and leaves it in non-increasing score order |
| PairSort.QuickSortJoin | src/main/java/ac/uk/ncl/core/Engine.java:913-917 | the two recursive sorts around the pivot leave the range sorted and a rearrangement of the input |
| Engine.BucketsPartition | src/main/java/ac/uk/ncl/core/Engine.java:595-604 | each candidate sharing a test constant lies in the bucket of that constant, every bucket is non-empty and belongs to a test constant, and nothing else is bucketed |
| Engine.Buckets | src/main/java/ac/uk/ncl/core/Engine.java:595-604 | there is one bucket per constant that appears both in a test fact and in a candidate on that side, and no other |
| Engine.SeenStep | src/main/java/ac/uk/ncl/core/Engine.java:595 | a loop over a listing without repeats meets each element once |
| Engine.WithConstantAdd | src/main/java/ac/uk/ncl/core/Engine.java:596-603 | one more pair joins, and adds one to, the pairs that share its constant |
| Engine.BucketsAdd | src/main/java/ac/uk/ncl/core/Engine.java:596-603 | visiting one more candidate adds it to its constant's bucket, creating the bucket when needed, when that constant is a test constant, and changes nothing otherwise |
| Engine.BucketsAddHit | src/main/java/ac/uk/ncl/core/Engine.java:596-599 | a candidate with a test constant joins that constant's bucket |
| Engine.BucketsAddMiss | src/main/java/ac/uk/ncl/core/Engine.java:596-603 | a candidate with no test constant leaves the buckets alone |
| Engine.TestConstants | src/main/java/ac/uk/ncl/core/Engine.java:585-590 | the forEach over the test set collects exactly its subjects and its objects |
| Engine.CreateQueries | src/main/java/ac/uk/ncl/core/Engine.java:584-608 | createMinervaQueries and createGPFLQueries return the subject and object buckets of the candidates |
| Engine.AddCountsStep | src/main/java/ac/uk/ncl/core/Engine.java:615-618 | counting one more fact adds one to its constant's entry, creating it at 1 |
| Engine.CountAtAdd | src/main/java/ac/uk/ncl/core/Engine.java:615-624 | a constant's entry grows by one for each counted fact that carries it |
| Engine.CountListedAll | src/main/java/ac/uk/ncl/core/Engine.java:613-625 | counting the facts of a listing one by one counts the set it lists |
| Engine.CountsFromEmpty | src/main/java/ac/uk/ncl/core/Engine.java:613-625 | from empty tables, exactly the constants of test facts get an entry, equal to their number of test facts |
| Engine.CountQueryFrequencies | src/main/java/ac/uk/ncl/core/Engine.java:613-625 | each test fact adds one to the query frequency of its subject and of its object; the other tables are unchanged |
| Engine.CreateTransEQueries | src/main/java/ac/uk/ncl/core/Engine.java:610-643 | createTransEProtocol returns the same buckets as the other protocols, after counting the query frequencies |
| Engine.CountInAll | src/main/java/ac/uk/ncl/core/Engine.java:825-828 | over a listing without repeats, the count of matching facts is the size of the set of them |
| Engine.PositiveCount | src/main/java/ac/uk/ncl/core/Engine.java:824-829 | totalPositiveIns is the number of test facts whose constant on the query's side is the query's constant |
| Engine.TicksBelowCounts | src/main/java/ac/uk/ncl/core/Engine.java:962-966 | each anchoring's counter ends one below its number of occurrences |
| Engine.RankAnchorings | src/main/java/ac/uk/ncl/core/Engine.java:960-970 | rankAnchorings lists each anchoring of the ground truth once, in non-increasing order of how many facts it anchors |
| Engine.TicksAreOccurrences | src/main/java/ac/uk/ncl/core/Engine.java:962-966 | over a listing of the ground truth, the counters are kept exactly for its anchorings, each one below its count |
| Engine.RefinesIsStricter | src/main/java/ac/uk/ncl/core/Engine.java:467 | basicFilter's strict test implies the children's qualification test, and a rule at exactly the support threshold passes the latter but not the former |
| Engine.BasicFilter | src/main/java/ac/uk/ncl/core/Engine.java:465-476 | basicFilter returns exactly the abstract rules with support and sc above the thresholds and writes, highest sc first and once each, the refined closed rules and all instantiated rules |
| Engine.OverlapBounds | src/main/java/ac/uk/ncl/core/Engine.java:310-312 | a saturation lies in [0, 1]; it is 1 exactly when the batch brought nothing new and 0 exactly when everything in it was new |
| Engine.SubsetSize | src/main/java/ac/uk/ncl/core/Engine.java:311-312 | a batch's overlap with the earlier batches is no larger than the batch |
| Engine.BatchNotEmpty | src/main/java/ac/uk/ncl/core/Engine.java:309 | a batch ends only after at least one path, so the saturation never divides by zero |
| Engine.Sampler.constructor | src/main/java/ac/uk/ncl/core/Engine.java:337-344 | the sampler starts with no batches, saturation 0 and depth 1 |
| Engine.Sampler.RegularStep | src/main/java/ac/uk/ncl/core/Engine.java:308-325 | one path: at the end of a batch the saturation is the batch's overlap with the earlier ones and the batch joins them; the path's rules always join the batch under way, and no rule is lost |
| Engine.Sampler.ProgressiveStep | src/main/java/ac/uk/ncl/core/Engine.java:355-380 | one path of the progressive sampler: the saturation is computed only when earlier batches exist, and a saturation above SATURATION deepens the search by one |
| Engine.Sampler.RegularTraversal | src/main/java/ac/uk/ncl/core/Engine.java:308-326 | one traversal adds the rules of each of its paths and counts them |
| Engine.Sampler.RegularSample | src/main/java/ac/uk/ncl/core/Engine.java:305-327 | the do-while consumes at least one traversal and stops early only once the saturation reaches SATURATION; every consumed path's rules are kept |
| Engine.Sampler.ProgressiveTraversal | src/main/java/ac/uk/ncl/core/Engine.java:355-381 | one traversal of the progressive sampler adds the rules of its paths and never lowers the depth |
| Engine.Sampler.ProgressiveSample | src/main/java/ac/uk/ncl/core/Engine.java:345-386 | the do-while consumes at least one traversal, stops early only once the depth passes DEPTH, and returns exactly the abstract rules met |
| Engine.TrainSize | src/main/java/ac/uk/ncl/core/Engine.java:485 | the train size is the instance count times SPLIT_RATIO rounded down, and leaves at least one test instance |
| Engine.Split | src/main/java/ac/uk/ncl/core/Engine.java:484-487 | the train and test sets together are all the instances, in order, the train set of TrainSize, and the test set is non-empty when there is an instance |
| Engine.Copies | src/main/java/ac/uk/ncl/core/Engine.java:843 | count copies of one hit |
| Engine.TimesIsProduct | src/main/java/ac/uk/ncl/core/Engine.java:843 | repeated addition is the product |
| Engine.RepeatedSnoc | src/main/java/ac/uk/ncl/core/Engine.java:837-844 | one more query appends its copies and adds its weight and weighted hit |
| Engine.RepeatedSum | src/main/java/ac/uk/ncl/core/Engine.java:835-845 | the averaged list has one entry per unit of weight and sums to the weighted sum, so its mean is the frequency-weighted mean |
| Engine.SumOfRun | src/main/java/ac/uk/ncl/core/Engine.java:843 | repeat copies of a hit add repeat times the hit to the sum |
| Engine.RepeatedOnce | src/main/java/ac/uk/ncl/core/Engine.java:838 | outside the TransE protocol each query enters the mean once |
| Engine.HitsAtN | src/main/java/ac/uk/ncl/core/Engine.java:835-844 | getAvgHitsAtN visits each ranked query once and collects its hit@N, repeated by its query frequency under TransE and once otherwise |
| Engine.HitsOfNext | src/main/java/ac/uk/ncl/core/Engine.java:837-843 | one pass of the outer loop appends the next query's hit@N as many times as its weight |
| Engine.AppendCopies | src/main/java/ac/uk/ncl/core/Engine.java:843 | the inner loop appends repeat copies of the hit |
| Engine.WeightedStep | src/main/java/ac/uk/ncl/core/Engine.java:837-844 | one more listed query adds its hit@N copies |
| GraphBuilder.Pieces | src/main/java/ac/uk/ncl/utils/GraphBuilder.java:122 | splitting on single whitespace characters yields at least one piece |
| GraphBuilder.PiecesNoSpace | src/main/java/ac/uk/ncl/utils/GraphBuilder.java:122 | no piece holds whitespace, and there is one piece more than there are whitespace characters |
| GraphBuilder.PiecesOfWord | src/main/java/ac/uk/ncl/utils/GraphBuilder.java:122 | a word without whitespace is a single piece |
| GraphBuilder.PiecesSplit | src/main/java/ac/uk/ncl/utils/GraphBuilder.java:122 | a word followed by a whitespace character splits off as the first piece |
| GraphBuilder.Kept | src/main/java/ac/uk/ncl/utils/GraphBuilder.java:126-128 | processLine keeps no more words than there are pieces |
| GraphBuilder.KeptPrefix | src/main/java/ac/uk/ncl/utils/GraphBuilder.java:126-128 | the words kept from a prefix of the pieces are no more than from all of them |
| GraphBuilder.SlotsOf | src/main/java/ac/uk/ncl/utils/GraphBuilder.java:123 | processLine's result array has three slots |
| GraphBuilder.ProcessLine | src/main/java/ac/uk/ncl/utils/GraphBuilder.java:121-136 | processLine succeeds exactly when the line has at most three words, placing them in the three slots, null past the last; a fourth word is an error with the source's message |
| GraphBuilder.Relation | src/main/java/ac/uk/ncl/utils/GraphBuilder.java:108-110 | a relation word starting with an underscore loses it and is upper-cased; any other is kept as it is |
| GraphBuilder.LineTripleOk | src/main/java/ac/uk/ncl/utils/GraphBuilder.java:104-112 | a line yields a triple exactly when it has three words and the relation word is not empty after the bracket is removed; the triple is the three words with the relation normalised |
| GraphBuilder.KeptWords | src/main/java/ac/uk/ncl/utils/GraphBuilder.java:126-128 | words without whitespace or brackets are kept unchanged |
| GraphBuilder.ThreePieces | src/main/java/ac/uk/ncl/utils/GraphBuilder.java:122 | three words joined by tabs are three pieces |
| GraphBuilder.LineOfWords | src/main/java/ac/uk/ncl/utils/GraphBuilder.java:104-112 | a line of three tab-separated words yields the triple of those words, the relation normalised |
| GraphBuilder.ReadRendered | src/main/java/ac/uk/ncl/utils/GraphBuilder.java:104-112 | reading back the rendering of a triple of plain words whose relation does not start with an underscore gives the triple |
| GraphBuilder.TripleHash | src/main/java/ac/uk/ncl/utils/GraphBuilder.java:159-164 | the triple hash is a 32-bit int |
| GraphBuilder.TripleString | src/main/java/ac/uk/ncl/utils/GraphBuilder.java:155-157 | Triple.toString is the three fields with two tabs between them: it starts with the head, followed by a tab |
| GraphBuilder.GetNodes | src/main/java/ac/uk/ncl/utils/GraphBuilder.java:175-182 | getNodes is exactly the heads and tails of the triples |
| GraphBuilder.HashIgnoresDirection | src/main/java/ac/uk/ncl/utils/GraphBuilder.java:159-164 | the hash weighs head and tail alike, so a triple and its reverse collide |
| GraphBuilder.CollectErrStays | src/main/java/ac/uk/ncl/utils/GraphBuilder.java:104-117 | once a line fails, the whole read fails with that line's error |
| GraphBuilder.CollectOk | src/main/java/ac/uk/ncl/utils/GraphBuilder.java:101-119 | collecting succeeds exactly when every result does |
| GraphBuilder.ValuesSnoc | src/main/java/ac/uk/ncl/utils/GraphBuilder.java:112 | a successful line adds its triple to the set |
| GraphBuilder.CollectValue | src/main/java/ac/uk/ncl/utils/GraphBuilder.java:101-119 | a successful read holds the values of all the lines, and no more of them than there are lines |
| GraphBuilder.LineResults | src/main/java/ac/uk/ncl/utils/GraphBuilder.java:104-113 | one result per line, each that line's triple or error |
| GraphBuilder.ReadAllOk | src/main/java/ac/uk/ncl/utils/GraphBuilder.java:101-119 | the file is read exactly when every line is; equal triples are kept once, so there are no more triples than lines, and they are exactly the lines' triples |
| GraphBuilder.Rendered | src/main/java/ac/uk/ncl/utils/GraphBuilder.java:155-157 | one line per triple |
| GraphBuilder.TriplesOfSnoc | src/main/java/ac/uk/ncl/utils/GraphBuilder.java:112 | one more triple joins the set |
| GraphBuilder.ReadAllRendered | src/main/java/ac/uk/ncl/utils/GraphBuilder.java:101-119 | reading back the rendering of readable triples gives the set of them |
| GraphBuilder.ReadTriples | src/main/java/ac/uk/ncl/utils/GraphBuilder.java:101-119 | readTriples returns the set the lines yield, or the first failing line's error |
| GraphBuilder.NamesDistinct | src/main/java/ac/uk/ncl/utils/GraphBuilder.java:30-49 | in a well-formed store no two nodes carry the same name |
| GraphBuilder.Entered | src/main/java/ac/uk/ncl/utils/GraphBuilder.java:34-41 | after entering a name it is in the table, and no name is lost |
| GraphBuilder.AddTriple | src/main/java/ac/uk/ncl/utils/GraphBuilder.java:31-51 | one triple written: one relationship appended, the earlier ones kept; a node created for each of its distinct names not yet in the table, so a self-loop on a new name creates one; both names then in the table |
| GraphBuilder.AddTripleAsWritten | src/main/java/ac/uk/ncl/utils/GraphBuilder.java:31-51 | one triple written as the source does: one relationship appended, and one new node for the head and one for the tail whenever each was missing before the triple, so a self-loop on a new name creates two |
| GraphBuilder.SelfLoopDuplicatesNode | src/main/java/ac/uk/ncl/utils/GraphBuilder.java:31-49 | a self-loop on a new name, written as the source does, creates two nodes with that name and leaves the store ill-formed |
| GraphBuilder.SelfLoopOneNode | src/main/java/ac/uk/ncl/utils/GraphBuilder.java:31-51 | with the tail looked up after the head's node exists, the same self-loop creates one node and a relationship from it to itself |
| GraphBuilder.AsWrittenAgrees | src/main/java/ac/uk/ncl/utils/GraphBuilder.java:31-51 | outside that case the source's lookup order gives the same store as the corrected one |
| GraphBuilder.RelTypes | src/main/java/ac/uk/ncl/utils/GraphBuilder.java:57 | a relation type is present exactly when some relationship has it |
| GraphBuilder.EnteredShape | src/main/java/ac/uk/ncl/utils/GraphBuilder.java:34-41 | entering a name adds it to the written names, with a new node exactly when it is new, and keeps the relationships, nodes and ids already there |
| GraphBuilder.EnteredWellFormed | src/main/java/ac/uk/ncl/utils/GraphBuilder.java:34-41 | entering a name keeps the store well formed |
| GraphBuilder.AddTripleShape | src/main/java/ac/uk/ncl/utils/GraphBuilder.java:29-51 | writing one triple adds its head and tail to the written names, one new node per new name |
| GraphBuilder.AddTripleKeeps | src/main/java/ac/uk/ncl/utils/GraphBuilder.java:51 | writing one triple keeps the nodes already there and adds one relationship of its relation from the head's node to the tail's |
| GraphBuilder.AddTripleWellFormed | src/main/java/ac/uk/ncl/utils/GraphBuilder.java:29-51 | writing one triple keeps the store well formed, and its relationship leaves the node named by the head for the node named by the tail |
| GraphBuilder.RelTypesSnoc | src/main/java/ac/uk/ncl/utils/GraphBuilder.java:51 | one more relationship adds its type |
| GraphBuilder.GetNodesAdd | src/main/java/ac/uk/ncl/utils/GraphBuilder.java:175-182 | one more triple adds its head and tail to getNodes |
| GraphBuilder.GetRelationshipTypesAdd | src/main/java/ac/uk/ncl/utils/GraphBuilder.java:184-186 | one more triple adds its relation to getRelationshipTypes |
| GraphBuilder.StepsWellFormed | src/main/java/ac/uk/ncl/utils/GraphBuilder.java:29-53 | writing triples in turn keeps the store well formed |
| GraphBuilder.StepsNames | src/main/java/ac/uk/ncl/utils/GraphBuilder.java:29-53 | writing triples adds exactly their getNodes names to the table |
| GraphBuilder.StepsNodeCount | src/main/java/ac/uk/ncl/utils/GraphBuilder.java:29-53 | writing triples creates one node per new name |
| GraphBuilder.StepsRels | src/main/java/ac/uk/ncl/utils/GraphBuilder.java:29-53 | writing triples adds one relationship per triple and exactly their relation types |
| GraphBuilder.WriteFromEmpty | src/main/java/ac/uk/ncl/utils/GraphBuilder.java:26-57 | from the empty table, writing a set of triples in any order gives a well-formed graph with one node per getNodes name, one relationship per triple, and the getRelationshipTypes types |
| GraphBuilder.GraphWriter.constructor | src/main/java/ac/uk/ncl/utils/GraphBuilder.java:26-28 | the writer starts with an empty table and an empty graph |
| GraphBuilder.GraphWriter.WriteTripleAsWritten | src/main/java/ac/uk/ncl/utils/GraphBuilder.java:29-51 | the forEach body as the source has it: both lookups first, then the missing nodes, then the relationship |
| GraphBuilder.GraphWriter.WriteTriple | src/main/java/ac/uk/ncl/utils/GraphBuilder.java:29-51 | the forEach body with the corrected lookup order |
| GraphBuilder.GraphWriter.WriteToGraph | src/main/java/ac/uk/ncl/utils/GraphBuilder.java:26-53 | writeToGraph writes each triple of the set once, in the order the set is visited, each with the corrected lookup order of WriteTriple (the as-written order is listed under Left out and Findings) |
| GPFL2.ClosedKeys | src/main/java/ac/uk/ncl/model/GPFL2.java:98 | a mined rule is among the closed ones exactly when its stored rule is closed |
| GPFL2.OpenKeys | src/main/java/ac/uk/ncl/model/GPFL2.java:99 | a mined rule is among the open ones exactly when its stored rule is open |
| GPFL2.SampleRankedAbstractRules | src/main/java/ac/uk/ncl/model/GPFL2.java:94-109 | the sample is drawn from the mined rules and keeps every closed one; with sample size 0 or at least the number of mined rules it is all of them |
| GPFL2.RankedEnumerates | src/main/java/ac/uk/ncl/model/GPFL2.java:101-103 | the frequency-sorted list holds each open rule once |
| GPFL2.SelectedAreOpen | src/main/java/ac/uk/ncl/model/GPFL2.java:104 | every rule taken from the sorted list is open |
| GPFL2.SampleCountsOpen | src/main/java/ac/uk/ncl/model/GPFL2.java:101-107 | a sample smaller than the table holds exactly min(sampleSize, number of open rules) open rules |
| GPFL2.SampleKeepsMostFrequent | src/main/java/ac/uk/ncl/model/GPFL2.java:101-107 | every open rule in the sample is at least as frequent as every open rule left out |

## Left out

- Threads: `InstantiationTask`, `RuleApplicationTask`, the `Ranker` threads and `splitTasks`. Each stage is modelled sequentially, and a merge as a union or a put-all.
- Randomness. Several random choices are left out: `standardRandomWalker`, `pathSamplingCoreAPI` and its `DFS`, `randomAbstractRules`, `randomlySelectAnchored`, and `Collections.shuffle` before the split. The samplers' random instance picks become an input sequence of traversals, each given as the rules its paths contribute. The split takes the already shuffled list.
- The Neo4j machinery is replaced by the abstract graph. This covers transactions, node and relationship ids, the traversal framework's ordering and uniqueness, and the removal and re-adding of edges. Node ids are positions in the store's node list.
- `writeToRuleGraph`, `loadGraph`, `createEmptyGraph` and `deleteDirectory` are file-system and database management with no logic to model.
- Orchestration: `singleRun`, `run`, `ruleApplication`, `modelEvaluation` and `evaluateQueries*`. These are glue between the modelled stages. Logging, timers and memory reporting are left out too.
- `MathUtils.listMean` and `arrayMean` are not part of this model. The hit list handed to the mean is modelled (`Engine.HitsAtN`, `Engine.RepeatedSum`), but the mean itself is not.
- Floating point: every score is a real. These cases become 0:
  - hc with ground truth 0;
  - `hitAt` on an empty ranking, which is NaN in Java;
  - `localAvgSupport` of a rule with no head-anchored children.
- `DecimalFormat` and `Double.toString` rendering is a `show` parameter.
- `Engine.TrainSize`: the float product `size * SPLIT_RATIO` is taken exactly, as a real, before it is rounded down.
- `simpleWriteRules` only duplicates `writeRules` with a different layout.
- `readRules` and `readCandidates` are unimplemented and return null.
- The unused overloads of `createBothRuleInstances` (AbstractRule.java:281-299 and 316-324) are not called by the modelled code.
- `GenOps.apply` with an arbitrary operator is not modelled. `abstraction(head, body)` is the abstract-rule constructor, `Rules.NewAbstractRule`.
- Rule identity. The rule tables of `GenOps.Tables` (`ruleFrequency`, `ruleKeys`) are keyed by rendering, which is what the source's `equals` and `hashCode` compare (Rule.java:70-86). The other rule collections are sets of objects: the children buckets `Rule.headRules`, `Rule.tailRules` and `Rule.bothRules`, the `deHierarchy` values of `GenOps.Tables`, the result of `Instantiation.GenSpecShared` and the rule sets of the suggestion multimap. The source's `HashSet<Rule>` would merge two distinct children with equal renderings, and the model keeps both, so `headAnchoredSize` and the open-rule sums could then differ. A specialisation loop builds one child per distinct anchoring, ranked tail or both-anchored instance, and a child's rendering carries the names of its constants, so two children of one loop render alike only when two different nodes share a name. The model does not prove that renderings differ, and does not capture the merge.
- The Settings statics, JSON configuration and `Run.main` are not modelled. The settings appear as constants with the source's defaults.
- `toUpperCase` is restricted to ASCII letters.
- `GraphBuilder.GraphWriter.WriteToGraph` models only the single-property mode. Property maps and label lists are not modelled; every node gets the `Entity` label.
- Fatal errors become `Err` results carrying the source's message. These are the `System.exit` calls and the exceptions raised on a malformed triple line (null word, empty relation, more than three words) or on an instance line that does not parse.
- `Ranking.SortTies`: `createTies` keeps each run of ties in a hash multimap. The model keeps the run in array order, so the order among pairs with fully equal score vectors is not the source's.
- `IO.WritePredictedFacts` writes the corrected object-query header `Query: R(?, name)`, through `IO.Header`. The source writes `Query: R((?, name)` (IO.java:156-158); that header is `IO.ObjectHeaderAsWritten`, see Findings. Subject-query headers and every other line are as the source writes them.
- `GraphBuilder.GraphWriter.WriteToGraph` writes each triple with the corrected lookup order, `GraphBuilder.GraphWriter.WriteTriple`, which enters the head before looking up the tail. The source looks up both names first (GraphBuilder.java:31-32), which `GraphBuilder.GraphWriter.WriteTripleAsWritten` models; the two differ only on a self-loop whose name is new, see Findings.
- `IO.ReadInstance` returns the instances in file order. The source shuffles them (`Collections.shuffle`, IO.java:64) before returning, so its result is a random permutation of the model's.
- `Application.ApplyTail` models the loop with the cap ending both loops, as intended. The loop as written is `Application.EmittedByRows`; see Findings.
- `Instantiation.GenShared`: the recorded children must each have their own statistics object, separate from the base rule's. The source builds every child with fresh statistics but does not check this. The model does not capture aliasing between them.
- `GraphOps.Grounder.Search` and `GraphOps.Grounder.DFS`: these state the search's invariant, the old paths kept, and that each new path extends the start path. They do not state which groundings are found. Which ones the cap or the attempts limit cuts off depends on the graph's iteration order; when neither cuts in, the search finds every node-unique grounding from the seeds, in some order, but the model does not prove this completeness.
- Test classes (GeneralProfile, ProfilePathSampling, RunTests) are whole-system runs without assertions.

## Findings

| source | as written | input that shows it | evidently intended | confidence | as-written member | corrected member |
|---|---|---|---|---|---|---|
| src/main/java/ac/uk/ncl/utils/GraphBuilder.java:31-49 | both names are looked up before either node is created, so a self-loop triple on a new name creates the node twice; the table keeps only the second | the triple `a r a` with `a` not yet written: two nodes named `a`, and the relationship joins them | one node per name, and the self-loop on that node | not executed | GraphBuilder.SelfLoopDuplicatesNode | GraphBuilder.SelfLoopOneNode |
| src/main/java/ac/uk/ncl/utils/IO.java:156-158 | the object-query header is written `Query: R((?, name)` | any object query: the header opens two parentheses and closes one | `Query: R(?, name)` | not executed | IO.ObjectHeaderAsWrittenUnbalanced | IO.HeaderBalanced |
| src/main/java/ac/uk/ncl/structure/AbstractRule.java:353-358 | the `break` at the suggestion cap leaves only the loop over originals, so each further anchoring puts one more suggestion | counter at SUGGESTION_CAP, two anchorings and one original: two suggestions, and the counter ends two past the cap | the cap ends both loops, as in the other apply methods | not executed | Application.TailRowsPassCap | Application.ApplyTail |
