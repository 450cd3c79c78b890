/**
 * The Under-Explored Bias Score: six component scores ("higher is worse")
 * computed from the three analysis dicts, their weighted sum, the flag, the
 * top drivers and a confidence label.
 */
module Scoring {
  import opened Options
  import opened Tables
  import opened Text
  import Config

  /**
   * One analysis dict as the scorer reads it. A key missing from a map is a
   * key missing from the dict (or holding None): every read below names its
   * default, as the `.get` calls do.
   *   summary           numeric entries of "summary"
   *   summaryLabels     text entries of "summary" (geographic_diversity)
   *   topLevel          numeric top-level entries (no_subgroup_reporting)
   *   validationLabels  text entries of the "validation" dict
   *   studies           the "studies" list (read by the mitigation advice)
   */
  datatype Findings = Findings(
    summary: map<string, real>,
    summaryLabels: map<string, string>,
    topLevel: map<string, real>,
    validationLabels: map<string, string>,
    studies: seq<Study>)

  /** One entry of a "studies" list: a missing "paper" key is `None`, a missing "url" is "". */
  datatype Study = Study(paper: Option<string>, fairnessMethods: seq<string>, url: string)

  function GetNum(m: map<string, real>, key: string, default: real): real
  {
    if key in m then m[key] else default
  }

  function GetLabel(m: map<string, string>, key: string, default: string): string
  {
    if key in m then m[key] else default
  }

  /** `min(1 - part/total, 1)`, with 1.0 when there is nothing to count. */
  function MissingRatio(part: real, total: real): (r: real)
    ensures r <= 1.0
    ensures total == 0.0 ==> r == 1.0
    ensures total > 0.0 && 0.0 <= part <= total ==> 0.0 <= r <= 1.0 && r == 1.0 - part / total
  {
    if total == 0.0 then 1.0 else Min(1.0 - part / total, 1.0)
  }

  function RaceLabelScore(dataset: Findings): (r: real)
    ensures r <= 1.0
    ensures GetNum(dataset.summary, "total_datasets", 0.0) == 0.0 ==> r == 1.0
    ensures var total := GetNum(dataset.summary, "total_datasets", 0.0);
      var withLabels := GetNum(dataset.summary, "datasets_with_race_labels", 0.0);
      total > 0.0 && 0.0 <= withLabels <= total ==> 0.0 <= r && r == 1.0 - withLabels / total
  {
    var total := GetNum(dataset.summary, "total_datasets", 0.0);
    var withLabels := GetNum(dataset.summary, "datasets_with_race_labels", 0.0);
    MissingRatio(withLabels, total)
  }

  /** The relative shortfall of `p` below `target`, capped at 1. */
  function RepresentationGap(p: real, target: real): (r: real)
    requires target > 0.0
    ensures 0.0 <= r <= 1.0
    ensures r == 0.0 <==> p >= target
    ensures r == 1.0 <==> p <= 0.0
    ensures 0.0 <= p < target ==> r == (target - p) / target
  {
    if p >= target then 0.0
    else
      var gap := target - p;
      var maxGap := target;
      var score := if maxGap > 0.0 then gap / maxGap else 1.0;
      RatioAgainstOne(gap, maxGap);
      Min(score, 1.0)
  }

  /** `a / b` compared with 1 and 0, for a positive `b`. */
  lemma RatioAgainstOne(a: real, b: real)
    requires b > 0.0
    ensures a / b >= 1.0 <==> a >= b
    ensures a / b > 0.0 <==> a > 0.0
    ensures 0.0 <= a <= b ==> 0.0 <= a / b <= 1.0
  {
    var q := a / b;
    assert q * b == a;
    SignOfProduct(q - 1.0, b);
    SignOfProduct(q, b);
  }

  lemma SignOfProduct(x: real, b: real)
    requires b > 0.0
    ensures x * b >= 0.0 <==> x >= 0.0
    ensures x * b > 0.0 <==> x > 0.0
  {
  }

  const MinorityTarget: real := 0.25

  function DarkSkinScore(dataset: Findings): (r: real)
    ensures 0.0 <= r <= 1.0
    ensures "avg_dark_skin_proportion" in dataset.summary ==>
      (r == 0.0 <==> dataset.summary["avg_dark_skin_proportion"] >= Config.TargetDarkSkinProportion)
    ensures "avg_dark_skin_proportion" !in dataset.summary && "avg_minority_representation" !in dataset.summary ==> r == 1.0
    ensures "avg_dark_skin_proportion" in dataset.summary ==>
      r == RepresentationGap(dataset.summary["avg_dark_skin_proportion"], Config.TargetDarkSkinProportion)
    ensures "avg_dark_skin_proportion" !in dataset.summary ==>
      r == RepresentationGap(GetNum(dataset.summary, "avg_minority_representation", 0.0), MinorityTarget)
  {
    if "avg_dark_skin_proportion" in dataset.summary then
      RepresentationGap(dataset.summary["avg_dark_skin_proportion"], Config.TargetDarkSkinProportion)
    else
      RepresentationGap(GetNum(dataset.summary, "avg_minority_representation", 0.0), MinorityTarget)
  }

  function SubgroupScore(subgroup: Findings): (r: real)
    ensures r <= 1.0
    ensures GetNum(subgroup.summary, "total_studies", 0.0) == 0.0 ==> r == 1.0
    ensures GetNum(subgroup.topLevel, "no_subgroup_reporting", 0.0) <= 0.0 ==>
      r == MissingRatio(GetNum(subgroup.summary, "studies_with_subgroup_metrics", 0.0),
                        GetNum(subgroup.summary, "total_studies", 0.0))
    ensures var total := GetNum(subgroup.summary, "total_studies", 0.0);
      var noReporting := GetNum(subgroup.topLevel, "no_subgroup_reporting", 0.0);
      total > 0.0 && 0.0 < noReporting <= total ==> 0.0 < r && r == noReporting / total
  {
    var total := GetNum(subgroup.summary, "total_studies", 0.0);
    var withMetrics := GetNum(subgroup.summary, "studies_with_subgroup_metrics", 0.0);
    var noReporting := GetNum(subgroup.topLevel, "no_subgroup_reporting", 0.0);
    if total == 0.0 then 1.0
    else
      var missing := if noReporting > 0.0 then noReporting / total else 1.0 - withMetrics / total;
      Min(missing, 1.0)
  }

  /** `{"low": 1.0, "medium": 0.5, "high": 0.0}.get(level.lower(), 1.0)`. */
  function DiversityScore(level: string): (r: real)
    ensures r == 0.0 <==> Lower(level) == "high"
    ensures r == 0.5 <==> Lower(level) == "medium"
    ensures r == 1.0 <==> Lower(level) != "high" && Lower(level) != "medium"
  {
    var key := Lower(level);
    if key == "low" then 1.0
    else if key == "medium" then 0.5
    else if key == "high" then 0.0
    else 1.0
  }

  predicate IsQuarterStep(r: real)
  {
    r == 0.0 || r == 0.25 || r == 0.5 || r == 0.75 || r == 1.0
  }

  function GeographicScore(dataset: Findings, mitigation: Findings): (r: real)
    ensures IsQuarterStep(r)
    ensures r == 0.0 <==>
      Lower(GetLabel(dataset.summaryLabels, "geographic_diversity", "low")) == "high" &&
      Lower(GetLabel(mitigation.validationLabels, "geographic_diversity", "low")) == "high"
    ensures r == (DiversityScore(GetLabel(dataset.summaryLabels, "geographic_diversity", "low"))
                  + DiversityScore(GetLabel(mitigation.validationLabels, "geographic_diversity", "low"))) / 2.0
  {
    var datasetScore := DiversityScore(GetLabel(dataset.summaryLabels, "geographic_diversity", "low"));
    var validationScore := DiversityScore(GetLabel(mitigation.validationLabels, "geographic_diversity", "low"));
    (datasetScore + validationScore) / 2.0
  }

  function FairnessMethodScore(mitigation: Findings): (r: real)
    ensures r <= 1.0
    ensures GetNum(mitigation.summary, "total_studies", 0.0) == 0.0 ==> r == 1.0
    ensures var total := GetNum(mitigation.summary, "total_studies", 0.0);
      var withMethods := GetNum(mitigation.summary, "studies_with_fairness_methods", 0.0);
      total > 0.0 && 0.0 <= withMethods <= total ==> 0.0 <= r && r == 1.0 - withMethods / total
  {
    MissingRatio(GetNum(mitigation.summary, "studies_with_fairness_methods", 0.0),
                 GetNum(mitigation.summary, "total_studies", 0.0))
  }

  function ExternalValidationScore(mitigation: Findings): (r: real)
    ensures r <= 1.0
    ensures GetNum(mitigation.summary, "total_studies", 0.0) == 0.0 ==> r == 1.0
    ensures var total := GetNum(mitigation.summary, "total_studies", 0.0);
      var validated := GetNum(mitigation.summary, "studies_with_external_validation", 0.0);
      total > 0.0 && 0.0 <= validated <= total ==> 0.0 <= r && r == 1.0 - validated / total
  {
    MissingRatio(GetNum(mitigation.summary, "studies_with_external_validation", 0.0),
                 GetNum(mitigation.summary, "total_studies", 0.0))
  }

  /** The counts a well-formed provider reply carries: non-negative, parts within totals. */
  predicate WellFormed(dataset: Findings, subgroup: Findings, mitigation: Findings)
  {
    var datasets := GetNum(dataset.summary, "total_datasets", 0.0);
    var studies := GetNum(subgroup.summary, "total_studies", 0.0);
    var mstudies := GetNum(mitigation.summary, "total_studies", 0.0);
    && 0.0 <= GetNum(dataset.summary, "datasets_with_race_labels", 0.0) <= datasets
    && 0.0 <= GetNum(subgroup.summary, "studies_with_subgroup_metrics", 0.0) <= studies
    && 0.0 <= GetNum(subgroup.topLevel, "no_subgroup_reporting", 0.0) <= studies
    && 0.0 <= GetNum(mitigation.summary, "studies_with_fairness_methods", 0.0) <= mstudies
    && 0.0 <= GetNum(mitigation.summary, "studies_with_external_validation", 0.0) <= mstudies
  }

  function Breakdown(dataset: Findings, subgroup: Findings, mitigation: Findings): (b: Table)
    ensures Keys(b) == Config.BreakdownKeys
    ensures DistinctKeys(b)
    ensures Get(b, Config.RaceLabelAvailability, 0.0) == RaceLabelScore(dataset)
    ensures Get(b, Config.DarkSkinRepresentation, 0.0) == DarkSkinScore(dataset)
    ensures Get(b, Config.SubgroupMetrics, 0.0) == SubgroupScore(subgroup)
    ensures Get(b, Config.GeographicConcentration, 0.0) == GeographicScore(dataset, mitigation)
    ensures Get(b, Config.FairnessMethodCoverage, 0.0) == FairnessMethodScore(mitigation)
    ensures Get(b, Config.ExternalValidation, 0.0) == ExternalValidationScore(mitigation)
  {
    DimensionTable(RaceLabelScore(dataset), DarkSkinScore(dataset), SubgroupScore(subgroup),
                   GeographicScore(dataset, mitigation), FairnessMethodScore(mitigation),
                   ExternalValidationScore(mitigation))
  }

  /** The breakdown dict literal: the six dimensions in order, each under its own key. */
  function DimensionTable(race: real, darkSkin: real, subgroup: real, geographic: real,
                          fairness: real, validation: real): (b: Table)
    ensures Keys(b) == Config.BreakdownKeys
    ensures DistinctKeys(b)
    ensures Get(b, Config.RaceLabelAvailability, 0.0) == race
    ensures Get(b, Config.DarkSkinRepresentation, 0.0) == darkSkin
    ensures Get(b, Config.SubgroupMetrics, 0.0) == subgroup
    ensures Get(b, Config.GeographicConcentration, 0.0) == geographic
    ensures Get(b, Config.FairnessMethodCoverage, 0.0) == fairness
    ensures Get(b, Config.ExternalValidation, 0.0) == validation
  {
    var b := [ (Config.RaceLabelAvailability, race), (Config.DarkSkinRepresentation, darkSkin),
               (Config.SubgroupMetrics, subgroup), (Config.GeographicConcentration, geographic),
               (Config.FairnessMethodCoverage, fairness), (Config.ExternalValidation, validation) ];
    DimensionKeysDistinct(b);
    DimensionLookups(b);
    b
  }

  lemma DimensionTableInUnit(race: real, darkSkin: real, subgroup: real, geographic: real,
                             fairness: real, validation: real)
    requires 0.0 <= race <= 1.0 && 0.0 <= darkSkin <= 1.0 && 0.0 <= subgroup <= 1.0
    requires 0.0 <= geographic <= 1.0 && 0.0 <= fairness <= 1.0 && 0.0 <= validation <= 1.0
    ensures InUnitInterval(DimensionTable(race, darkSkin, subgroup, geographic, fairness, validation))
  {
    var b := DimensionTable(race, darkSkin, subgroup, geographic, fairness, validation);
    assert b[..] == [b[0], b[1], b[2], b[3], b[4], b[5]];
  }

  /** A table keyed by the six dimensions, in order, has distinct keys. */
  lemma DimensionKeysDistinct(b: Table)
    requires Keys(b) == Config.BreakdownKeys
    ensures DistinctKeys(b)
  {
    BreakdownKeysDistinct();
    forall i, j | 0 <= i < j < |b|
      ensures b[i].0 != b[j].0
    {
      assert b[i].0 == Keys(b)[i] && b[j].0 == Keys(b)[j];
    }
  }

  /** In such a table each dimension reads back its own entry. */
  lemma DimensionLookups(b: Table)
    requires Keys(b) == Config.BreakdownKeys && DistinctKeys(b)
    ensures Get(b, Config.RaceLabelAvailability, 0.0) == b[0].1
    ensures Get(b, Config.DarkSkinRepresentation, 0.0) == b[1].1
    ensures Get(b, Config.SubgroupMetrics, 0.0) == b[2].1
    ensures Get(b, Config.GeographicConcentration, 0.0) == b[3].1
    ensures Get(b, Config.FairnessMethodCoverage, 0.0) == b[4].1
    ensures Get(b, Config.ExternalValidation, 0.0) == b[5].1
  {
    forall i | 0 <= i < |b|
      ensures b[i].0 == Config.BreakdownKeys[i]
    {
      assert b[i].0 == Keys(b)[i];
    }
  }

  predicate InUnitInterval(t: Table)
  {
    forall i :: 0 <= i < |t| ==> 0.0 <= t[i].1 <= 1.0
  }

  /** On well-formed findings every component score lies in [0, 1]. */
  lemma BreakdownInUnitInterval(dataset: Findings, subgroup: Findings, mitigation: Findings)
    requires WellFormed(dataset, subgroup, mitigation)
    ensures InUnitInterval(Breakdown(dataset, subgroup, mitigation))
  {
    var total := GetNum(subgroup.summary, "total_studies", 0.0);
    var noReporting := GetNum(subgroup.topLevel, "no_subgroup_reporting", 0.0);
    if total != 0.0 && noReporting > 0.0 {
      RatioAgainstOne(noReporting, total);
    }
    assert 0.0 <= SubgroupScore(subgroup) <= 1.0;
    assert 0.0 <= RaceLabelScore(dataset) <= 1.0;
    assert 0.0 <= FairnessMethodScore(mitigation) <= 1.0;
    assert 0.0 <= ExternalValidationScore(mitigation) <= 1.0;
    DimensionTableInUnit(RaceLabelScore(dataset), DarkSkinScore(dataset), SubgroupScore(subgroup),
                         GeographicScore(dataset, mitigation), FairnessMethodScore(mitigation),
                         ExternalValidationScore(mitigation));
  }

  // ---------------------------------------------------------------------
  // Construction

  datatype Scorer = Scorer(weights: Table, threshold: real)

  datatype ScorerError = WeightsDoNotSumToOne(total: real)

  /** `weights or SCORE_WEIGHTS`: None and the empty dict both fall back. */
  function EffectiveWeights(weights: Option<Table>): (w: Table)
    ensures weights.Some? && weights.value != [] ==> w == weights.value
    ensures weights.None? || weights.value == [] ==> w == Config.ScoreWeights
  {
    if weights.Some? && weights.value != [] then weights.value else Config.ScoreWeights
  }

  /** `threshold or BIAS_SCORE_THRESHOLD`: None and 0.0 both fall back. */
  function EffectiveThreshold(threshold: Option<real>): (t: real)
    ensures threshold.Some? && threshold.value != 0.0 ==> t == threshold.value
    ensures threshold.None? || threshold.value == 0.0 ==> t == Config.BiasScoreThreshold
  {
    if threshold.Some? && threshold.value != 0.0 then threshold.value else Config.BiasScoreThreshold
  }

  /** `BiasScorer.__init__`: refuses a weight table whose sum is more than 0.01 away from 1. */
  function NewScorer(weights: Option<Table>, threshold: Option<real>): (r: Result<Scorer, ScorerError>)
    ensures r.Success? <==> Abs(SumValues(EffectiveWeights(weights)) - 1.0) <= 0.01
    ensures r.Success? ==> r.value == Scorer(EffectiveWeights(weights), EffectiveThreshold(threshold))
    ensures r.Failure? ==> r.error == WeightsDoNotSumToOne(SumValues(EffectiveWeights(weights)))
  {
    var w := EffectiveWeights(weights);
    var total := SumValues(w);
    if Abs(total - 1.0) > 0.01 then Failure(WeightsDoNotSumToOne(total))
    else Success(Scorer(w, EffectiveThreshold(threshold)))
  }

  /** The scorer the conversation handler builds always constructs. */
  lemma DefaultScorerConstructs()
    ensures NewScorer(None, None) == Success(Scorer(Config.ScoreWeights, 0.30))
    ensures NewScorer(Some(Config.ScoreWeights), Some(Config.BiasScoreThreshold)) == NewScorer(None, None)
  {
    Config.DefaultWeightsAreValid();
  }

  // ---------------------------------------------------------------------
  // Stable descending sort of a breakdown (`sorted(..., key=score, reverse=True)`)

  /** Inserts `x` in front of the first entry whose score is not above its own. */
  function InsertDesc(x: (string, real), s: Table): (r: Table)
    ensures multiset(r) == multiset(s) + multiset{x}
    ensures |r| == |s| + 1
  {
    if s == [] || x.1 >= s[0].1 then [x] + s
    else
      assert s == [s[0]] + s[1..];
      [s[0]] + InsertDesc(x, s[1..])
  }

  function SortDesc(t: Table): (r: Table)
    ensures multiset(r) == multiset(t)
    ensures |r| == |t|
  {
    if t == [] then []
    else
      assert t == [t[0]] + t[1..];
      InsertDesc(t[0], SortDesc(t[1..]))
  }

  predicate Descending(t: Table)
  {
    forall i, j :: 0 <= i < j < |t| ==> t[i].1 >= t[j].1
  }

  /** The entries of `t` that carry score `v`, in order. */
  function WithScore(t: Table, v: real): Table
  {
    if t == [] then [] else (if t[0].1 == v then [t[0]] else []) + WithScore(t[1..], v)
  }

  lemma {:induction false} InsertDescSorted(x: (string, real), s: Table)
    requires Descending(s)
    ensures Descending(InsertDesc(x, s))
  {
    if s != [] && x.1 < s[0].1 {
      InsertDescSorted(x, s[1..]);
      var r := InsertDesc(x, s[1..]);
      assert multiset(r) == multiset(s[1..]) + multiset{x};
      forall j | 0 <= j < |r| ensures s[0].1 >= r[j].1 {
        assert r[j] in multiset(r);
        if r[j] != x {
          assert r[j] in multiset(s[1..]);
          var k :| 0 <= k < |s[1..]| && s[1..][k] == r[j];
          assert s[k + 1] == r[j];
        }
      }
    }
  }

  lemma {:induction false} InsertDescStable(x: (string, real), s: Table, v: real)
    requires Descending(s)
    ensures WithScore(InsertDesc(x, s), v) == if x.1 == v then [x] + WithScore(s, v) else WithScore(s, v)
  {
    if s == [] || x.1 >= s[0].1 {
      assert InsertDesc(x, s)[1..] == s;
    } else {
      assert InsertDesc(x, s)[1..] == InsertDesc(x, s[1..]);
      InsertDescStable(x, s[1..], v);
      if x.1 == v {
        assert s[0].1 > v;
      }
    }
  }

  /**
   * The sort is ordered, a permutation, and stable: for every score the
   * entries carrying it appear in their original (declaration) order.
   */
  lemma {:induction false} SortDescCorrect(t: Table)
    ensures Descending(SortDesc(t))
    ensures multiset(SortDesc(t)) == multiset(t)
    ensures forall v :: WithScore(SortDesc(t), v) == WithScore(t, v)
  {
    if t != [] {
      SortDescCorrect(t[1..]);
      InsertDescSorted(t[0], SortDesc(t[1..]));
      forall v ensures WithScore(SortDesc(t), v) == WithScore(t, v) {
        InsertDescStable(t[0], SortDesc(t[1..]), v);
      }
    }
  }

  // ---------------------------------------------------------------------
  // The score

  datatype Confidence = Low | Medium | High

  /**
   * The result dict. Each driver is named by its dimension key; the sentence
   * `_get_driver_description` renders for it is not modelled.
   */
  datatype ScoreResult = ScoreResult(
    score: real,
    threshold: real,
    flagged: bool,
    breakdown: Table,
    drivers: seq<string>,
    confidence: Confidence)

  /** `sum(breakdown[k] * weights.get(k, 0.0) for k in breakdown)`. */
  function WeightedSum(breakdown: Table, weights: Table): (r: real)
    ensures InUnitInterval(breakdown) && NonNegativeValues(weights) ==>
      0.0 <= r <= WeightOfKeys(Keys(breakdown), weights)
  {
    if breakdown == [] then 0.0
    else
      var rest := breakdown[1..];
      var g := Get(weights, breakdown[0].0, 0.0);
      var r := Weighted(breakdown[0].1, g) + WeightedSum(rest, weights);
      if InUnitInterval(breakdown) && NonNegativeValues(weights) then
        GetNonNegative(weights, breakdown[0].0);
        ScaledWithinUnit(breakdown[0].1, g);
        assert Keys(breakdown)[1..] == Keys(rest);
        assert WeightOfKeys(Keys(breakdown), weights) == g + WeightOfKeys(Keys(rest), weights);
        r
      else r
  }

  function Weighted(score: real, weight: real): real
  {
    score * weight
  }

  /** The entries behind the drivers: among the three highest scores, those above 0.5. */
  function DriverEntries(breakdown: Table): (d: Table)
    ensures |d| <= 3
    ensures Descending(d)
    ensures forall x :: x in d ==> x in breakdown
    ensures forall i :: 0 <= i < |d| ==> d[i].1 > 0.5
    ensures forall x :: x in d ==> x in PyTake(SortDesc(breakdown), 3)
    ensures forall i :: 0 <= i < |breakdown| && i < 3 && SortDesc(breakdown)[i].1 > 0.5 ==>
      SortDesc(breakdown)[i] in d
    ensures forall v :: v > 0.5 ==> WithScore(d, v) == WithScore(PyTake(SortDesc(breakdown), 3), v)
  {
    var sorted := SortDesc(breakdown);
    var top := PyTake(sorted, 3);
    SortDescCorrect(breakdown);
    assert Descending(top);
    AboveHalfDescends(top);
    AboveHalfKeepsHigh(top);
    assert forall i :: 0 <= i < |breakdown| && i < 3 ==> i < |top| && top[i] == sorted[i];
    assert forall x :: x in AboveHalf(top) ==> x in multiset(sorted);
    AboveHalf(top)
  }

  function AboveHalf(t: Table): (r: Table)
    ensures |r| <= |t|
    ensures forall x :: x in r ==> x in t
    ensures forall i :: 0 <= i < |r| ==> r[i].1 > 0.5
    ensures forall v :: v > 0.5 ==> WithScore(r, v) == WithScore(t, v)
  {
    if t == [] then []
    else
      assert t == [t[0]] + t[1..];
      var rest := AboveHalf(t[1..]);
      if t[0].1 > 0.5 then
        assert ([t[0]] + rest)[1..] == rest;
        [t[0]] + rest
      else
        assert [] + rest == rest;
        rest
  }

  /** Filtering a descending table keeps it descending. */
  lemma {:induction false} AboveHalfDescends(t: Table)
    requires Descending(t)
    ensures Descending(AboveHalf(t))
  {
    if t != [] {
      AboveHalfDescends(t[1..]);
      if t[0].1 > 0.5 {
        HeadAboveRest(t);
      }
    }
  }

  /** The first entry of a descending table scores at least as high as every kept entry of the rest. */
  lemma HeadAboveRest(t: Table)
    requires t != [] && Descending(t)
    ensures forall j :: 0 <= j < |AboveHalf(t[1..])| ==> t[0].1 >= AboveHalf(t[1..])[j].1
  {
    var rest := AboveHalf(t[1..]);
    forall j | 0 <= j < |rest| ensures t[0].1 >= rest[j].1 {
      assert rest[j] in t[1..];
    }
  }

  /** Every entry above 0.5 is kept. */
  lemma {:induction false} AboveHalfKeepsHigh(t: Table)
    ensures forall i :: 0 <= i < |t| && t[i].1 > 0.5 ==> t[i] in AboveHalf(t)
  {
    if t != [] {
      AboveHalfKeepsHigh(t[1..]);
      forall i | 0 < i < |t| && t[i].1 > 0.5 ensures t[i] in AboveHalf(t) {
        assert t[1..][i - 1] == t[i];
      }
    }
  }

  /** When the highest score is above 0.5, its dimension leads the drivers. */
  lemma DriverEntriesLead(breakdown: Table)
    requires breakdown != [] && SortDesc(breakdown)[0].1 > 0.5
    ensures DriverEntries(breakdown) != [] && DriverEntries(breakdown)[0] == SortDesc(breakdown)[0]
  {
    var sorted := SortDesc(breakdown);
    var top := PyTake(sorted, 3);
    assert top[0] == sorted[0];
    assert top == [top[0]] + top[1..];
  }

  /** Every driver names a dimension of the breakdown whose score is above 0.5. */
  lemma DriverKeysInBreakdown(breakdown: Table)
    ensures forall k :: k in Keys(DriverEntries(breakdown)) ==>
      exists i :: 0 <= i < |breakdown| && breakdown[i].0 == k && breakdown[i].1 > 0.5
  {
    var entries := DriverEntries(breakdown);
    forall k | k in Keys(entries)
      ensures exists i :: 0 <= i < |breakdown| && breakdown[i].0 == k && breakdown[i].1 > 0.5
    {
      var j :| 0 <= j < |entries| && Keys(entries)[j] == k;
      assert entries[j] in breakdown;
      var i :| 0 <= i < |breakdown| && breakdown[i] == entries[j];
    }
  }

  function ConfidenceFor(totalSources: real): (c: Confidence)
    ensures c == High <==> totalSources >= Config.MinSourcesForFlag
    ensures c == Low <==> totalSources <= 0.0
  {
    if totalSources >= Config.MinSourcesForFlag then High
    else if totalSources > 0.0 then Medium
    else Low
  }

  function TotalSources(dataset: Findings, subgroup: Findings, mitigation: Findings): real
  {
    GetNum(dataset.summary, "total_datasets", 0.0) + GetNum(subgroup.summary, "total_studies", 0.0)
    + GetNum(mitigation.summary, "total_studies", 0.0)
  }

  /** `BiasScorer.compute_bias_score`. */
  function ComputeBiasScore(scorer: Scorer, dataset: Findings, subgroup: Findings, mitigation: Findings): (r: ScoreResult)
    ensures r.breakdown == Breakdown(dataset, subgroup, mitigation)
    ensures r.score == WeightedSum(r.breakdown, scorer.weights)
    ensures r.flagged <==> r.score >= scorer.threshold
    ensures r.threshold == scorer.threshold
    ensures r.drivers == Keys(DriverEntries(r.breakdown))
    ensures r.confidence == ConfidenceFor(TotalSources(dataset, subgroup, mitigation))
  {
    var breakdown := Breakdown(dataset, subgroup, mitigation);
    var total := WeightedSum(breakdown, scorer.weights);
    ScoreResult(total, scorer.threshold, total >= scorer.threshold, breakdown, Keys(DriverEntries(breakdown)),
                ConfidenceFor(TotalSources(dataset, subgroup, mitigation)))
  }

  /**
   * The config.py constants at work in the default scorer: a result is flagged from 0.30 on,
   * confidence is "high" from two sources on, and a dark-skin proportion scores 0 from 0.25 on,
   * half-way (0.125) scoring 0.5.
   */
  lemma DefaultThresholds(dataset: Findings, subgroup: Findings, mitigation: Findings)
    ensures var r := ComputeBiasScore(NewScorer(None, None).value, dataset, subgroup, mitigation);
      && (r.flagged <==> r.score >= 0.30)
      && (r.confidence == High <==> TotalSources(dataset, subgroup, mitigation) >= 2.0)
    ensures "avg_dark_skin_proportion" in dataset.summary ==>
      var p := dataset.summary["avg_dark_skin_proportion"];
      && (DarkSkinScore(dataset) == 0.0 <==> p >= 0.25)
      && (p == 0.125 ==> DarkSkinScore(dataset) == 0.5)
  {
    DefaultScorerConstructs();
  }

  /** The drivers are exactly the keys of the three highest-scoring components that score above 0.5. */
  lemma DriverKeysFromTop(breakdown: Table)
    ensures var sorted := SortDesc(breakdown);
      && (forall i :: 0 <= i < |sorted| && i < 3 && sorted[i].1 > 0.5 ==> sorted[i].0 in Keys(DriverEntries(breakdown)))
      && (forall k :: k in Keys(DriverEntries(breakdown)) ==>
           exists i :: 0 <= i < |sorted| && i < 3 && sorted[i].0 == k && sorted[i].1 > 0.5)
  {
    var entries := DriverEntries(breakdown);
    var sorted := SortDesc(breakdown);
    var top := PyTake(sorted, 3);
    forall i | 0 <= i < |sorted| && i < 3 && sorted[i].1 > 0.5 ensures sorted[i].0 in Keys(entries) {
      var j :| 0 <= j < |entries| && entries[j] == sorted[i];
      assert Keys(entries)[j] == sorted[i].0;
    }
    forall k | k in Keys(entries)
      ensures exists i :: 0 <= i < |sorted| && i < 3 && sorted[i].0 == k && sorted[i].1 > 0.5
    {
      var j :| 0 <= j < |entries| && Keys(entries)[j] == k;
      assert entries[j] in top;
      var i :| 0 <= i < |top| && top[i] == entries[j];
      assert sorted[i] == top[i];
    }
  }

  /**
   * At most three drivers, each the key of a component scoring above 0.5; the drivers are
   * exactly the keys of the three highest-scoring components that score above 0.5.
   */
  lemma ComputeBiasScoreDrivers(scorer: Scorer, dataset: Findings, subgroup: Findings, mitigation: Findings)
    ensures var r := ComputeBiasScore(scorer, dataset, subgroup, mitigation);
      && |r.drivers| <= 3
      && (forall k :: k in r.drivers ==>
           exists i :: 0 <= i < |r.breakdown| && r.breakdown[i].0 == k && r.breakdown[i].1 > 0.5)
    ensures var r := ComputeBiasScore(scorer, dataset, subgroup, mitigation);
      var sorted := SortDesc(r.breakdown);
      && (forall i :: 0 <= i < |sorted| && i < 3 && sorted[i].1 > 0.5 ==> sorted[i].0 in r.drivers)
      && (forall k :: k in r.drivers ==>
           exists i :: 0 <= i < |sorted| && i < 3 && sorted[i].0 == k && sorted[i].1 > 0.5)
  {
    var breakdown := Breakdown(dataset, subgroup, mitigation);
    DriverKeysInBreakdown(breakdown);
    DriverKeysFromTop(breakdown);
  }


  // ---------------------------------------------------------------------
  // Bounds of the weighted sum

  /** `sum(weights.get(k, 0.0) for k in keys)`. */
  function WeightOfKeys(keys: seq<string>, weights: Table): real
  {
    if keys == [] then 0.0 else Get(weights, keys[0], 0.0) + WeightOfKeys(keys[1..], weights)
  }

  predicate DistinctSeq(keys: seq<string>)
  {
    forall i, j :: 0 <= i < j < |keys| ==> keys[i] != keys[j]
  }

  /** Peeling the first weight off: over distinct keys its value counts once if its key is among them. */
  lemma {:induction false} WeightOfKeysPeel(keys: seq<string>, weights: Table)
    requires weights != [] && DistinctKeys(weights) && DistinctSeq(keys)
    ensures WeightOfKeys(keys, weights)
      == (if weights[0].0 in keys then weights[0].1 else 0.0) + WeightOfKeys(keys, weights[1..])
  {
    if keys != [] {
      var w := weights[0].1;
      var rest := weights[1..];
      assert DistinctSeq(keys[1..]) by {
        forall i, j | 0 <= i < j < |keys[1..]| ensures keys[1..][i] != keys[1..][j] {
          assert keys[1..][i] == keys[i + 1] && keys[1..][j] == keys[j + 1];
        }
      }
      WeightOfKeysPeel(keys[1..], weights);
      assert WeightOfKeys(keys, rest) == Get(rest, keys[0], 0.0) + WeightOfKeys(keys[1..], rest);
      if keys[0] == weights[0].0 {
        assert !HasKey(rest, keys[0]) by {
          forall i | 0 <= i < |rest| ensures rest[i].0 != keys[0] {
            assert rest[i] == weights[i + 1];
          }
        }
        assert weights[0].0 !in keys[1..] by {
          forall i | 0 <= i < |keys[1..]| ensures keys[1..][i] != keys[0] {
            assert keys[1..][i] == keys[i + 1];
          }
        }
        assert Get(weights, keys[0], 0.0) == w;
      } else {
        assert Get(weights, keys[0], 0.0) == Get(rest, keys[0], 0.0);
        assert weights[0].0 in keys <==> weights[0].0 in keys[1..];
      }
    }
  }

  /** Distinct keys never collect more weight than the whole table holds. */
  lemma {:induction false} WeightOfKeysBounded(keys: seq<string>, weights: Table)
    requires DistinctSeq(keys)
    requires DistinctKeys(weights) && NonNegativeValues(weights)
    ensures 0.0 <= WeightOfKeys(keys, weights) <= SumValues(weights)
  {
    if weights == [] {
      WeightOfKeysEmpty(keys);
    } else {
      var rest := weights[1..];
      assert DistinctKeys(rest) && NonNegativeValues(rest) by {
        forall i | 0 <= i < |rest| ensures rest[i] == weights[i + 1] { }
      }
      WeightOfKeysPeel(keys, weights);
      WeightOfKeysBounded(keys, rest);
      assert SumValues(weights) == weights[0].1 + SumValues(rest);
    }
  }

  lemma {:induction false} WeightOfKeysEmpty(keys: seq<string>)
    ensures WeightOfKeys(keys, []) == 0.0
  {
    if keys != [] {
      WeightOfKeysEmpty(keys[1..]);
    }
  }

  /** `x * g`, for a fraction `x`, lies between 0 and `g`. */
  lemma ScaledWithinUnit(x: real, g: real)
    requires 0.0 <= x <= 1.0 && 0.0 <= g
    ensures 0.0 <= Weighted(x, g) <= g
  {
    assert g - x * g == (1.0 - x) * g;
  }

  lemma {:induction false} GetNonNegative(weights: Table, key: string)
    requires NonNegativeValues(weights)
    ensures Get(weights, key, 0.0) >= 0.0
  {
    if weights != [] && weights[0].0 != key {
      GetNonNegative(weights[1..], key);
    }
  }

  /**
   * With component scores in [0, 1] and non-negative weights, the overall
   * score lies between 0 and the total weight; for the default weights (or
   * any table summing to 1) it lies in [0, 1].
   */
  lemma ScoreInRange(scorer: Scorer, dataset: Findings, subgroup: Findings, mitigation: Findings)
    requires WellFormed(dataset, subgroup, mitigation)
    requires DistinctKeys(scorer.weights) && NonNegativeValues(scorer.weights)
    ensures 0.0 <= ComputeBiasScore(scorer, dataset, subgroup, mitigation).score <= SumValues(scorer.weights)
    ensures SumValues(scorer.weights) == 1.0 ==> ComputeBiasScore(scorer, dataset, subgroup, mitigation).score <= 1.0
  {
    var b := Breakdown(dataset, subgroup, mitigation);
    BreakdownInUnitInterval(dataset, subgroup, mitigation);
    BreakdownKeysDistinct();
    WeightedSumInRange(b, scorer.weights);
  }

  /** Component scores in [0, 1] under distinct keys and non-negative weights sum to at most the total weight. */
  lemma WeightedSumInRange(b: Table, weights: Table)
    requires InUnitInterval(b) && DistinctSeq(Keys(b))
    requires DistinctKeys(weights) && NonNegativeValues(weights)
    ensures 0.0 <= WeightedSum(b, weights) <= SumValues(weights)
  {
    WeightOfKeysBounded(Keys(b), weights);
  }

  /** The six dimension keys are pairwise distinct. */
  lemma BreakdownKeysDistinct()
    ensures DistinctSeq(Config.BreakdownKeys)
  {
    Config.DefaultWeightsAreValid();
    var w := Config.ScoreWeights;
    forall i, j | 0 <= i < j < |Config.BreakdownKeys|
      ensures Config.BreakdownKeys[i] != Config.BreakdownKeys[j]
    {
      assert Keys(w)[i] == w[i].0 && Keys(w)[j] == w[j].0;
    }
  }

  /** A table already in descending order is left exactly as it is. */
  lemma {:induction false} SortDescOfDescending(t: Table)
    requires Descending(t)
    ensures SortDesc(t) == t
  {
    if t != [] {
      SortDescOfDescending(t[1..]);
      assert t == [t[0]] + t[1..];
    }
  }

  // ---------------------------------------------------------------------
  // The worked example of the design notes: 2 of 10 datasets labelled and 10%
  // dark skin give 0.8 and 0.6; with every other component at 0 the default
  // scorer gives 0.27, below the 0.30 threshold, with both as drivers.

  const ExampleDataset := Findings(
    map["total_datasets" := 10.0, "datasets_with_race_labels" := 2.0, "avg_dark_skin_proportion" := 0.10],
    map["geographic_diversity" := "high"], map[], map[], [])
  const ExampleSubgroup := Findings(
    map["total_studies" := 10.0, "studies_with_subgroup_metrics" := 10.0], map[], map[], map[], [])
  const ExampleMitigation := Findings(
    map["total_studies" := 10.0, "studies_with_fairness_methods" := 10.0, "studies_with_external_validation" := 10.0],
    map[], map[], map["geographic_diversity" := "high"], [])
  const ExampleBreakdown: Table := [
    (Config.RaceLabelAvailability, 0.8), (Config.DarkSkinRepresentation, 0.6),
    (Config.SubgroupMetrics, 0.0), (Config.GeographicConcentration, 0.0),
    (Config.FairnessMethodCoverage, 0.0), (Config.ExternalValidation, 0.0)]

  lemma ExampleComponents()
    ensures Breakdown(ExampleDataset, ExampleSubgroup, ExampleMitigation) == ExampleBreakdown
  {
    LowerOfLower("high");
    assert RaceLabelScore(ExampleDataset) == 0.8;
    assert DarkSkinScore(ExampleDataset) == 0.6;
    assert SubgroupScore(ExampleSubgroup) == 0.0;
    assert GeographicScore(ExampleDataset, ExampleMitigation) == 0.0;
    assert FairnessMethodScore(ExampleMitigation) == 0.0;
    assert ExternalValidationScore(ExampleMitigation) == 0.0;
    assert DimensionTable(0.8, 0.6, 0.0, 0.0, 0.0, 0.0) == ExampleBreakdown;
  }

  lemma ExampleWeightedSum()
    ensures WeightedSum(ExampleBreakdown, Config.ScoreWeights) == 0.27
  {
    var b := ExampleBreakdown;
    var w := Config.ScoreWeights;
    assert Get(w, Config.RaceLabelAvailability, 0.0) == 0.15;
    assert Get(w, Config.DarkSkinRepresentation, 0.0) == 0.25;
    WeightedSumOfZeros(b[2..], w);
  }

  lemma WeightedSumOfZeros(b: Table, w: Table)
    requires forall i :: 0 <= i < |b| ==> b[i].1 == 0.0
    ensures WeightedSum(b, w) == 0.0
  {
  }

  /** In a descending table whose first two scores are above 0.5 and whose third is not, those two are the drivers. */
  lemma TwoDrivers(b: Table)
    requires Descending(b) && |b| >= 3
    requires b[0].1 > 0.5 && b[1].1 > 0.5 && b[2].1 <= 0.5
    ensures DriverEntries(b) == [b[0], b[1]]
  {
    SortDescOfDescending(b);
    var top := PyTake(b, 3);
    assert top == [b[0], b[1], b[2]];
    assert [b[1], b[2]][1..] == [b[2]];
    assert AboveHalf([b[2]]) == [];
    assert AboveHalf([b[1], b[2]]) == [b[1]];
    assert top[1..] == [b[1], b[2]];
    assert AboveHalf(top) == [b[0], b[1]];
  }

  lemma ExampleDrivers()
    ensures Keys(DriverEntries(ExampleBreakdown)) == [Config.RaceLabelAvailability, Config.DarkSkinRepresentation]
  {
    var b := ExampleBreakdown;
    DescendingWithZeroTail(b);
    TwoDrivers(b);
  }

  /** Two leading scores in order, then zeros: the table is descending. */
  lemma DescendingWithZeroTail(b: Table)
    requires |b| >= 2 && b[0].1 >= b[1].1 >= 0.0
    requires forall i :: 2 <= i < |b| ==> b[i].1 == 0.0
    ensures Descending(b)
  {
  }

  /** The worked example end to end: score 0.27, not flagged, two drivers, high confidence. */
  lemma WorkedExample()
    ensures var r := ComputeBiasScore(Scorer(Config.ScoreWeights, Config.BiasScoreThreshold),
                                      ExampleDataset, ExampleSubgroup, ExampleMitigation);
            && r.breakdown == ExampleBreakdown
            && r.score == 0.27 && !r.flagged
            && r.drivers == [Config.RaceLabelAvailability, Config.DarkSkinRepresentation]
            && r.confidence == High
  {
    var r := ComputeBiasScore(Scorer(Config.ScoreWeights, Config.BiasScoreThreshold),
                              ExampleDataset, ExampleSubgroup, ExampleMitigation);
    ExampleComponents();
    ExampleWeightedSum();
    ExampleDrivers();
    ExampleSources();
  }

  lemma ExampleSources()
    ensures TotalSources(ExampleDataset, ExampleSubgroup, ExampleMitigation) == 30.0
  {
    assert GetNum(ExampleDataset.summary, "total_datasets", 0.0) == 10.0;
    assert GetNum(ExampleSubgroup.summary, "total_studies", 0.0) == 10.0;
    assert GetNum(ExampleMitigation.summary, "total_studies", 0.0) == 10.0;
  }
}
