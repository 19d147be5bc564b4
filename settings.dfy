// The run-time settings the modelled code reads, fixed at their default
// values. A cap whose setting is 0 is replaced by Integer.MAX_VALUE when a
// run starts; `Unbounded` applies that rewrite.
module Settings {

  const MaxInt: nat := 0x7fff_ffff

  /** The "0 means no cap" rewrite applied to the cap settings. */
  function Unbounded(cap: nat): (c: nat)
    ensures c > 0
    ensures cap > 0 ==> c == cap
  {
    if cap == 0 then MaxInt else cap
  }

  const GroundingAttempts: nat := 10_000_000
  const PredictionCap: nat := 10_000_000
  const SuggestionCap: nat := 15_000_000
  const MaxRecursionDepth: nat := 1000
  const InsRuleCap: nat := 15_000_000
  const Saturation: real := 0.99
  const LearnGroundings: nat := 5000
  const ApplyGroundings: nat := 1000
  const StandardConf: real := 0.0001
  const Support: real := 1.0
  const ConfidenceOffset: real := 5.0
  const SplitRatio: real := 0.7
  const Depth: nat := 3
  const TopK: nat := 10
  const BatchSize: nat := 20000
  const UseTailRules: bool := false
  const UseBothRules: bool := true
  const UseHeadRules: bool := true
  const TopInsRules: nat := 200
  const TailCap: nat := 2000
  const VerifyRuleSize: nat := 10
  const VerifyPredictionSize: nat := 20
}
