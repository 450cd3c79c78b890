/** Optional values and outcomes of calls that may raise. */
module Options {

  datatype Option<T> = None | Some(value: T)

  datatype Result<T, E> = Success(value: T) | Failure(error: E)

  /** What a call into code outside the model produced: a value, or an exception with its message. */
  datatype Outcome<T> = Ok(value: T) | Raised(message: string)
}

/**
 * Python dicts whose insertion order matters (the score breakdown, the weight
 * table), as association lists. `Get` is `dict.get(key, default)`.
 */
module Tables {

  type Table = seq<(string, real)>

  function Keys(t: Table): (ks: seq<string>)
    ensures |ks| == |t|
    ensures forall i :: 0 <= i < |t| ==> ks[i] == t[i].0
  {
    if t == [] then [] else [t[0].0] + Keys(t[1..])
  }

  /** A dict never holds the same key twice. */
  predicate DistinctKeys(t: Table)
  {
    forall i, j :: 0 <= i < j < |t| ==> t[i].0 != t[j].0
  }

  predicate HasKey(t: Table, key: string)
  {
    exists i | 0 <= i < |t| :: t[i].0 == key
  }

  /** `dict.get(key, default)`. */
  function Get(t: Table, key: string, default: real): (v: real)
    ensures !HasKey(t, key) ==> v == default
    ensures forall i :: 0 <= i < |t| && t[i].0 == key && DistinctKeys(t) ==> v == t[i].1
  {
    if t == [] then default
    else if t[0].0 == key then t[0].1
    else Get(t[1..], key, default)
  }

  /** `sum(d.values())`. */
  function SumValues(t: Table): real
  {
    if t == [] then 0.0 else t[0].1 + SumValues(t[1..])
  }

  predicate NonNegativeValues(t: Table)
  {
    forall i :: 0 <= i < |t| ==> t[i].1 >= 0.0
  }

  function Abs(x: real): real { if x < 0.0 then -x else x }

  function Min(x: real, y: real): real { if x <= y then x else y }
}

/** Module-level constants of config.py that the scorer and the analysis read. */
module Config {
  import opened Tables

  const BiasScoreThreshold: real := 0.30
  const MinSourcesForFlag: real := 2.0

  const RaceLabelAvailability := "race_label_availability"
  const DarkSkinRepresentation := "dark_skin_representation"
  const SubgroupMetrics := "subgroup_metrics"
  const GeographicConcentration := "geographic_concentration"
  const FairnessMethodCoverage := "fairness_method_coverage"
  const ExternalValidation := "external_validation"

  /** The six score dimensions, in the order the scorer builds its breakdown. */
  const BreakdownKeys: seq<string> := [RaceLabelAvailability, DarkSkinRepresentation, SubgroupMetrics,
                                       GeographicConcentration, FairnessMethodCoverage, ExternalValidation]

  const ScoreWeights: Table := [
    (RaceLabelAvailability, 0.15),
    (DarkSkinRepresentation, 0.25),
    (SubgroupMetrics, 0.20),
    (GeographicConcentration, 0.15),
    (FairnessMethodCoverage, 0.15),
    (ExternalValidation, 0.10)
  ]

  const TargetDarkSkinProportion: real := 0.25

  /** The default weight table is a valid one: positive weights, one per dimension, summing to exactly 1. */
  lemma DefaultWeightsAreValid()
    ensures DistinctKeys(ScoreWeights)
    ensures forall i :: 0 <= i < |ScoreWeights| ==> ScoreWeights[i].1 > 0.0
    ensures SumValues(ScoreWeights) == 1.0
    ensures Keys(ScoreWeights) == BreakdownKeys
  {
    var w := ScoreWeights;
    assert SumValues(w[5..]) == 0.10;
    assert SumValues(w[4..]) == 0.15 + SumValues(w[5..]);
    assert SumValues(w[3..]) == 0.15 + SumValues(w[4..]);
    assert SumValues(w[2..]) == 0.20 + SumValues(w[3..]);
    assert SumValues(w[1..]) == 0.25 + SumValues(w[2..]);
  }
}
