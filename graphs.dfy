/**
 * The numbers behind the metrics charts (`generate_metrics_graphs.py`):
 * `calculate_metrics` pools the claims and gaps of stored sessions,
 * `extract_metrics_from_batch_data` overrides pooled values with per-session
 * averages and the batch reproducibility rate, and each chart states whether
 * its target is met. The result is a dictionary from metric name to value.
 */
module Graphs {
  import opened Options
  import opened Stats
  import opened Metrics

  /** The five keys of the metrics dictionary. */
  datatype MetricKey = CitationKey | FalseUncitedKey | FlaggingKey | FirstGapKey | ReproducibilityKey

  /** The dictionary key each metric is stored under. */
  function Name(k: MetricKey): string
  {
    match k
    case CitationKey => "citation_verification_rate"
    case FalseUncitedKey => "false_uncited_claims_rate"
    case FlaggingKey => "demographic_flagging_rate"
    case FirstGapKey => "median_time_to_first_gap"
    case ReproducibilityKey => "reproducibility_rate"
  }

  /** `d.get(key, default)` on a boolean flag. */
  function Flag(o: Option<bool>, default: bool): bool
  {
    if o.Some? then o.value else default
  }

  function SessionClaims(s: SessionEntry): seq<ClaimEntry>
  {
    if s.claims.Some? then s.claims.value else []
  }

  function SessionGaps(s: SessionEntry): seq<GapEntry>
  {
    if s.gaps.Some? then s.gaps.value else []
  }

  /** The claims of all sessions, session by session (the `extend` loop). */
  function AllClaims(sessions: seq<SessionEntry>): seq<ClaimEntry>
  {
    if sessions == [] then []
    else AllClaims(sessions[..|sessions| - 1]) + SessionClaims(sessions[|sessions| - 1])
  }

  /** The gaps of all sessions, session by session. */
  function AllGaps(sessions: seq<SessionEntry>): seq<GapEntry>
  {
    if sessions == [] then []
    else AllGaps(sessions[..|sessions| - 1]) + SessionGaps(sessions[|sessions| - 1])
  }

  /** A missing `has_citation` reads as uncited. */
  predicate Cited(c: ClaimEntry)
  {
    Flag(c.hasCitation, false)
  }

  /** A missing `is_verified` reads as verified. */
  predicate FalseOrUncited(c: ClaimEntry)
  {
    !Flag(c.hasCitation, false) || !Flag(c.isVerified, true)
  }

  function CountCitedEntries(claims: seq<ClaimEntry>): (k: nat)
    ensures k <= |claims|
  {
    if claims == [] then 0 else (if Cited(claims[0]) then 1 else 0) + CountCitedEntries(claims[1..])
  }

  function CountFalseEntries(claims: seq<ClaimEntry>): (k: nat)
    ensures k <= |claims|
  {
    if claims == [] then 0 else (if FalseOrUncited(claims[0]) then 1 else 0) + CountFalseEntries(claims[1..])
  }

  function SourcedEntries(gaps: seq<GapEntry>): (r: seq<GapEntry>)
    ensures |r| <= |gaps|
  {
    if gaps == [] then []
    else (if Flag(gaps[0].hasSources, false) then [gaps[0]] else []) + SourcedEntries(gaps[1..])
  }

  function FlaggedEntries(gaps: seq<GapEntry>): (r: seq<GapEntry>)
    ensures |r| <= |gaps|
  {
    if gaps == [] then []
    else (if Flag(gaps[0].flagsDemographic, false) || Flag(gaps[0].flagsGeographic, false) then [gaps[0]] else [])
         + FlaggedEntries(gaps[1..])
  }

  function PooledFlaggingRate(gaps: seq<GapEntry>): real
  {
    var sourced := SourcedEntries(gaps);
    Rate(|FlaggedEntries(sourced)|, |sourced|)
  }

  /** The five values computed from pooled claims, gaps and first-gap times. */
  function Pooled(claims: seq<ClaimEntry>, gaps: seq<GapEntry>, gapTimes: seq<real>): map<MetricKey, real>
  {
    map[CitationKey := Rate(CountCitedEntries(claims), |claims|),
        FalseUncitedKey := Rate(CountFalseEntries(claims), |claims|),
        FlaggingKey := PooledFlaggingRate(gaps),
        FirstGapKey := UpperMedian(gapTimes),
        ReproducibilityKey := 0.0]
  }

  /**
   * `calculate_metrics`: `{}` for no sessions; otherwise the five keys are
   * present, the rates lie in [0, 1], the false/uncited rate is at least one
   * minus the citation rate when there are claims, and reproducibility is 0.0.
   */
  function Computed(sessions: seq<SessionEntry>): (m: map<MetricKey, real>)
    ensures sessions == [] <==> m == map[]
    ensures sessions != [] ==>
      && m.Keys == {CitationKey, FalseUncitedKey, FlaggingKey, FirstGapKey, ReproducibilityKey}
      && 0.0 <= m[CitationKey] <= 1.0 && 0.0 <= m[FalseUncitedKey] <= 1.0 && 0.0 <= m[FlaggingKey] <= 1.0
      && (AllClaims(sessions) != [] ==> m[FalseUncitedKey] >= 1.0 - m[CitationKey])
      && m[ReproducibilityKey] == 0.0
    ensures sessions != [] ==> m == Pooled(AllClaims(sessions), AllGaps(sessions), Present(FirstGapTimes(sessions)))
  {
    if sessions == [] then map[]
    else
      var m := Pooled(AllClaims(sessions), AllGaps(sessions), Present(FirstGapTimes(sessions)));
      PooledValues(AllClaims(sessions), AllGaps(sessions), Present(FirstGapTimes(sessions)));
      assert CitationKey in m;
      m
  }

  /** `calculate_metrics`, with its accumulation loops. */
  method CalculateMetrics(sessions: seq<SessionEntry>) returns (metrics: map<MetricKey, real>)
    ensures metrics == Computed(sessions)
  {
    if sessions == [] {
      return map[];
    }
    var claims := CollectClaims(sessions);
    var gaps := CollectGaps(sessions);
    var gapTimes := CollectFirstGapTimes(sessions);
    metrics := Pooled(claims, gaps, gapTimes);
  }

  /** The loop extending `all_claims` session by session. */
  method CollectClaims(sessions: seq<SessionEntry>) returns (claims: seq<ClaimEntry>)
    ensures claims == AllClaims(sessions)
  {
    claims := [];
    for i := 0 to |sessions|
      invariant claims == AllClaims(sessions[..i])
    {
      PrefixStep(sessions, i);
      if sessions[i].claims.Some? {
        claims := claims + sessions[i].claims.value;
      }
    }
    assert sessions[..|sessions|] == sessions;
  }

  /** The loop extending `all_gaps` session by session. */
  method CollectGaps(sessions: seq<SessionEntry>) returns (gaps: seq<GapEntry>)
    ensures gaps == AllGaps(sessions)
  {
    gaps := [];
    for i := 0 to |sessions|
      invariant gaps == AllGaps(sessions[..i])
    {
      PrefixStep(sessions, i);
      if sessions[i].gaps.Some? {
        gaps := gaps + sessions[i].gaps.value;
      }
    }
    assert sessions[..|sessions|] == sessions;
  }

  /** The loop collecting the first-gap times that are not `None`. */
  method CollectFirstGapTimes(sessions: seq<SessionEntry>) returns (gapTimes: seq<real>)
    ensures gapTimes == Present(FirstGapTimes(sessions))
  {
    ghost var values := FirstGapTimes(sessions);
    gapTimes := [];
    for i := 0 to |sessions|
      invariant gapTimes + Present(values[i..]) == Present(values)
    {
      PresentAdvance(values, i, gapTimes);
      assert values[i] == sessions[i].firstGapTime;
      if sessions[i].firstGapTime.Some? {
        gapTimes := gapTimes + [sessions[i].firstGapTime.value];
      }
    }
    assert values[|sessions|..] == [];
  }

  lemma PrefixStep(sessions: seq<SessionEntry>, i: nat)
    requires i < |sessions|
    ensures AllClaims(sessions[..i + 1]) == AllClaims(sessions[..i]) + SessionClaims(sessions[i])
    ensures AllGaps(sessions[..i + 1]) == AllGaps(sessions[..i]) + SessionGaps(sessions[i])
  {
    assert sessions[..i + 1][..i] == sessions[..i];
  }

  /** One step of collecting the present values: the i-th value, when present, moves to the collected ones. */
  lemma PresentAdvance(values: seq<Option<real>>, i: nat, collected: seq<real>)
    requires i < |values|
    requires collected + Present(values[i..]) == Present(values)
    ensures (if values[i].Some? then collected + [values[i].value] else collected) + Present(values[i + 1..])
            == Present(values)
  {
    assert values[i..][1..] == values[i + 1..];
    if values[i].Some? {
      var rest := Present(values[i + 1..]);
      assert (collected + [values[i].value]) + rest == collected + ([values[i].value] + rest);
    }
  }


  /** What `extract_metrics_from_batch_data` reads from a batch file. */
  datatype BatchData = BatchData(sessions: seq<SessionEntry>, reproducibility: Option<real>)

  function WithReproducibility(m: map<MetricKey, real>, r: Option<real>): map<MetricKey, real>
  {
    if r.Some? then m[ReproducibilityKey := r.value] else m
  }

  /** The mean of the per-session values replaces the pooled one when some session has the key. */
  function WithMean(m: map<MetricKey, real>, k: MetricKey, values: seq<real>): map<MetricKey, real>
  {
    if values != [] then m[k := Mean(values)] else m
  }

  function WithMedian(m: map<MetricKey, real>, k: MetricKey, values: seq<real>): map<MetricKey, real>
  {
    if values != [] then m[k := UpperMedian(values)] else m
  }

  /**
   * The pooled values with each override applied in turn: a batch
   * reproducibility rate replaces the computed 0.0, and a per-session rate
   * present in some session replaces the pooled value by the mean of the
   * present ones.
   */
  function FromBatch(batch: BatchData): (m: map<MetricKey, real>)
    ensures batch.reproducibility.Some? ==>
      ReproducibilityKey in m && m[ReproducibilityKey] == batch.reproducibility.value
    ensures Present(CitationRates(batch.sessions)) != [] ==>
      CitationKey in m && m[CitationKey] == Mean(Present(CitationRates(batch.sessions)))
    ensures Present(CitationRates(batch.sessions)) == [] && batch.sessions != [] ==>
      CitationKey in m && m[CitationKey] == Computed(batch.sessions)[CitationKey]
    ensures batch.reproducibility.None? && batch.sessions != [] ==>
      ReproducibilityKey in m && m[ReproducibilityKey] == 0.0
    ensures Present(FalseUncitedRates(batch.sessions)) != [] ==>
      FalseUncitedKey in m && m[FalseUncitedKey] == Mean(Present(FalseUncitedRates(batch.sessions)))
    ensures Present(FalseUncitedRates(batch.sessions)) == [] && batch.sessions != [] ==>
      FalseUncitedKey in m && m[FalseUncitedKey] == Computed(batch.sessions)[FalseUncitedKey]
    ensures Present(FlaggingRates(batch.sessions)) != [] ==>
      FlaggingKey in m && m[FlaggingKey] == Mean(Present(FlaggingRates(batch.sessions)))
    ensures Present(FlaggingRates(batch.sessions)) == [] && batch.sessions != [] ==>
      FlaggingKey in m && m[FlaggingKey] == Computed(batch.sessions)[FlaggingKey]
    ensures Present(FirstGapTimes(batch.sessions)) != [] ==>
      FirstGapKey in m && m[FirstGapKey] == UpperMedian(Present(FirstGapTimes(batch.sessions)))
    ensures Present(FirstGapTimes(batch.sessions)) == [] && batch.sessions != [] ==>
      FirstGapKey in m && m[FirstGapKey] == 0.0
    ensures batch.sessions == [] ==> m.Keys <= {ReproducibilityKey}
  {
    var sessions := batch.sessions;
    var m0 := Computed(sessions);
    var m1 := WithReproducibility(m0, batch.reproducibility);
    var m2 := WithMean(m1, CitationKey, Present(CitationRates(sessions)));
    var m3 := WithMean(m2, FalseUncitedKey, Present(FalseUncitedRates(sessions)));
    var m4 := WithMean(m3, FlaggingKey, Present(FlaggingRates(sessions)));
    var m5 := WithMedian(m4, FirstGapKey, Present(FirstGapTimes(sessions)));
    NoSessionsNoRates(sessions);
    OverrideStages(m0, batch.reproducibility, Present(CitationRates(sessions)), Present(FalseUncitedRates(sessions)),
                   Present(FlaggingRates(sessions)), Present(FirstGapTimes(sessions)));
    m5
  }

  /**
   * The overrides in turn, from any starting dictionary: each key with
   * values takes their mean (their upper median for the first-gap time),
   * the reproducibility key takes the batch rate, and every other key keeps
   * its starting value.
   */
  lemma OverrideStages(m0: map<MetricKey, real>, repro: Option<real>, citation: seq<real>, falseUncited: seq<real>,
                       flagging: seq<real>, gapTimes: seq<real>)
    ensures var m := WithMedian(WithMean(WithMean(WithMean(WithReproducibility(m0, repro),
                       CitationKey, citation), FalseUncitedKey, falseUncited), FlaggingKey, flagging), FirstGapKey, gapTimes);
      && (repro.Some? ==> ReproducibilityKey in m && m[ReproducibilityKey] == repro.value)
      && (repro.None? && ReproducibilityKey in m0 ==> ReproducibilityKey in m && m[ReproducibilityKey] == m0[ReproducibilityKey])
      && (citation != [] ==> CitationKey in m && m[CitationKey] == Mean(citation))
      && (citation == [] && CitationKey in m0 ==> CitationKey in m && m[CitationKey] == m0[CitationKey])
      && (falseUncited != [] ==> FalseUncitedKey in m && m[FalseUncitedKey] == Mean(falseUncited))
      && (falseUncited == [] && FalseUncitedKey in m0 ==> FalseUncitedKey in m && m[FalseUncitedKey] == m0[FalseUncitedKey])
      && (flagging != [] ==> FlaggingKey in m && m[FlaggingKey] == Mean(flagging))
      && (flagging == [] && FlaggingKey in m0 ==> FlaggingKey in m && m[FlaggingKey] == m0[FlaggingKey])
      && (gapTimes != [] ==> FirstGapKey in m && m[FirstGapKey] == UpperMedian(gapTimes))
      && (gapTimes == [] && FirstGapKey in m0 ==> FirstGapKey in m && m[FirstGapKey] == m0[FirstGapKey])
      && (m0 == map[] && citation == [] && falseUncited == [] && flagging == [] && gapTimes == [] ==>
            m.Keys <= {ReproducibilityKey})
  {
    var m1 := WithReproducibility(m0, repro);
    var m2 := WithMean(m1, CitationKey, citation);
    var m3 := WithMean(m2, FalseUncitedKey, falseUncited);
    var m4 := WithMean(m3, FlaggingKey, flagging);
    StageKeeps(m2, FalseUncitedKey, falseUncited, CitationKey);
    StageKeeps(m3, FlaggingKey, flagging, CitationKey);
    StageKeeps(m4, FirstGapKey, gapTimes, CitationKey);
    StageKeeps(m1, CitationKey, citation, ReproducibilityKey);
    StageKeeps(m2, FalseUncitedKey, falseUncited, ReproducibilityKey);
    StageKeeps(m3, FlaggingKey, flagging, ReproducibilityKey);
    StageKeeps(m4, FirstGapKey, gapTimes, ReproducibilityKey);
    StageKeeps(m1, CitationKey, citation, FalseUncitedKey);
    StageKeeps(m3, FlaggingKey, flagging, FalseUncitedKey);
    StageKeeps(m4, FirstGapKey, gapTimes, FalseUncitedKey);
    StageKeeps(m1, CitationKey, citation, FlaggingKey);
    StageKeeps(m2, FalseUncitedKey, falseUncited, FlaggingKey);
    StageKeeps(m4, FirstGapKey, gapTimes, FlaggingKey);
    StageKeeps(m1, CitationKey, citation, FirstGapKey);
    StageKeeps(m2, FalseUncitedKey, falseUncited, FirstGapKey);
    StageKeeps(m3, FlaggingKey, flagging, FirstGapKey);
  }

  /** No sessions have no per-session values. */
  lemma NoSessionsNoRates(sessions: seq<SessionEntry>)
    ensures sessions == [] ==>
      && Present(CitationRates(sessions)) == [] && Present(FalseUncitedRates(sessions)) == []
      && Present(FlaggingRates(sessions)) == [] && Present(FirstGapTimes(sessions)) == []
  {
  }

  /** `extract_metrics_from_batch_data`: the dictionary is overwritten key by key. */
  method ExtractMetricsFromBatchData(batch: BatchData) returns (metrics: map<MetricKey, real>)
    ensures metrics == FromBatch(batch)
  {
    var sessions := batch.sessions;
    metrics := CalculateMetrics(sessions);
    if batch.reproducibility.Some? {
      metrics := metrics[ReproducibilityKey := batch.reproducibility.value];
    }
    metrics := OverrideWithMean(metrics, CitationKey, Present(CitationRates(sessions)));
    metrics := OverrideWithMean(metrics, FalseUncitedKey, Present(FalseUncitedRates(sessions)));
    metrics := OverrideWithMean(metrics, FlaggingKey, Present(FlaggingRates(sessions)));
    var gapTimes := Present(FirstGapTimes(sessions));
    if gapTimes != [] {
      metrics := metrics[FirstGapKey := UpperMedian(gapTimes)];
    }
    FromBatchStages(batch);
  }

  /** One `if values: metrics[key] = mean(values)` step. */
  method OverrideWithMean(metrics: map<MetricKey, real>, k: MetricKey, values: seq<real>)
    returns (m: map<MetricKey, real>)
    ensures m == WithMean(metrics, k, values)
  {
    m := metrics;
    if values != [] {
      m := m[k := Mean(values)];
    }
  }

  /** `FromBatch` as its five stages. */
  lemma FromBatchStages(batch: BatchData)
    ensures var sessions := batch.sessions;
      FromBatch(batch) ==
        WithMedian(
          WithMean(
            WithMean(
              WithMean(WithReproducibility(Computed(sessions), batch.reproducibility),
                       CitationKey, Present(CitationRates(sessions))),
              FalseUncitedKey, Present(FalseUncitedRates(sessions))),
            FlaggingKey, Present(FlaggingRates(sessions))),
          FirstGapKey, Present(FirstGapTimes(sessions)))
  {
  }

  // ---------------------------------------------------------------------
  // Properties of the pooled values

  lemma PooledValues(claims: seq<ClaimEntry>, gaps: seq<GapEntry>, gapTimes: seq<real>)
    ensures var m := Pooled(claims, gaps, gapTimes);
      && m.Keys == {CitationKey, FalseUncitedKey, FlaggingKey, FirstGapKey, ReproducibilityKey}
      && 0.0 <= m[CitationKey] <= 1.0 && 0.0 <= m[FalseUncitedKey] <= 1.0 && 0.0 <= m[FlaggingKey] <= 1.0
      && (claims != [] ==> m[FalseUncitedKey] >= 1.0 - m[CitationKey])
      && m[ReproducibilityKey] == 0.0
  {
    var sourced := SourcedEntries(gaps);
    RateInUnit(CountCitedEntries(claims), |claims|);
    RateInUnit(CountFalseEntries(claims), |claims|);
    RateInUnit(|FlaggedEntries(sourced)|, |sourced|);
    if claims != [] {
      EntriesCitedOrFalse(claims);
      ComplementaryRates(CountCitedEntries(claims), CountFalseEntries(claims), |claims|);
    }
  }

  lemma {:induction false} EntriesCitedOrFalse(claims: seq<ClaimEntry>)
    ensures CountCitedEntries(claims) + CountFalseEntries(claims) >= |claims|
    decreases |claims|
  {
    if claims != [] {
      EntriesCitedOrFalse(claims[1..]);
    }
  }

  /**
   * A claim without flags counts as uncited and so as false/uncited; one with
   * a citation but no `is_verified` counts as verified.
   */
  lemma MissingClaimFlags(claims: seq<ClaimEntry>)
    ensures CountCitedEntries(claims + [ClaimEntry(None, None)]) == CountCitedEntries(claims)
    ensures CountFalseEntries(claims + [ClaimEntry(None, None)]) == CountFalseEntries(claims) + 1
    ensures CountFalseEntries(claims + [ClaimEntry(Some(true), None)]) == CountFalseEntries(claims)
  {
    CountsSnoc(claims, ClaimEntry(None, None));
    CountsSnoc(claims, ClaimEntry(Some(true), None));
  }

  lemma {:induction false} CountsSnoc(claims: seq<ClaimEntry>, c: ClaimEntry)
    ensures CountCitedEntries(claims + [c]) == CountCitedEntries(claims) + (if Cited(c) then 1 else 0)
    ensures CountFalseEntries(claims + [c]) == CountFalseEntries(claims) + (if FalseOrUncited(c) then 1 else 0)
    decreases |claims|
  {
    if claims == [] {
      assert [c][1..] == [];
    } else {
      assert (claims + [c])[1..] == claims[1..] + [c];
      CountsSnoc(claims[1..], c);
    }
  }

  lemma {:induction false} CountsOfRecorded(claims: seq<ClaimRecord>)
    ensures CountCitedEntries(ClaimEntries(claims)) == CountCited(claims)
    ensures CountFalseEntries(ClaimEntries(claims)) == CountFalseOrUncited(claims)
    decreases |claims|
  {
    if claims != [] {
      CountsOfRecorded(claims[1..]);
      assert ClaimEntries(claims)[1..] == ClaimEntries(claims[1..]);
    }
  }

  lemma {:induction false} GapsOfRecorded(gaps: seq<GapRecord>)
    ensures |SourcedEntries(GapEntries(gaps))| == |Applicable(gaps)|
    ensures |FlaggedEntries(SourcedEntries(GapEntries(gaps)))| == |Flagged(Applicable(gaps))|
    decreases |gaps|
  {
    var entries := GapEntries(gaps);
    if gaps != [] {
      GapsOfRecorded(gaps[1..]);
      assert entries[1..] == GapEntries(gaps[1..]);
      var h := if gaps[0].hasSources then [entries[0]] else [];
      var hr := if gaps[0].hasSources then [gaps[0]] else [];
      assert SourcedEntries(entries) == h + SourcedEntries(entries[1..]);
      assert Applicable(gaps) == hr + Applicable(gaps[1..]);
      FlaggedConcat(h, SourcedEntries(entries[1..]));
      FlaggedRecordsConcat(hr, Applicable(gaps[1..]));
    }
  }

  lemma {:induction false} FlaggedConcat(a: seq<GapEntry>, b: seq<GapEntry>)
    ensures FlaggedEntries(a + b) == FlaggedEntries(a) + FlaggedEntries(b)
    decreases |a|
  {
    if a != [] {
      var head := if Flag(a[0].flagsDemographic, false) || Flag(a[0].flagsGeographic, false) then [a[0]] else [];
      assert (a + b)[0] == a[0];
      assert (a + b)[1..] == a[1..] + b;
      FlaggedConcat(a[1..], b);
      assert FlaggedEntries(a + b) == head + (FlaggedEntries(a[1..]) + FlaggedEntries(b));
      assert head + (FlaggedEntries(a[1..]) + FlaggedEntries(b)) == (head + FlaggedEntries(a[1..])) + FlaggedEntries(b);
    } else {
      assert a + b == b;
    }
  }

  lemma {:induction false} FlaggedRecordsConcat(a: seq<GapRecord>, b: seq<GapRecord>)
    ensures Flagged(a + b) == Flagged(a) + Flagged(b)
    decreases |a|
  {
    if a != [] {
      var head := if a[0].flagsDemographic || a[0].flagsGeographic then [a[0]] else [];
      assert (a + b)[0] == a[0];
      assert (a + b)[1..] == a[1..] + b;
      FlaggedRecordsConcat(a[1..], b);
      assert Flagged(a + b) == head + (Flagged(a[1..]) + Flagged(b));
      assert head + (Flagged(a[1..]) + Flagged(b)) == (head + Flagged(a[1..])) + Flagged(b);
    } else {
      assert a + b == b;
    }
  }

  /** Pooling a single tracked session gives back the rates that session's summary reports. */
  lemma PoolingOneSessionAgrees(s: SessionSummary)
    requires s.citationRate == CitationRate(s.claims) && s.falseUncitedRate == FalseUncitedRate(s.claims)
    requires s.flaggingRate == FlaggingRate(s.gaps)
    ensures var m := Computed([EntryOf(s)]);
      m[CitationKey] == s.citationRate && m[FalseUncitedKey] == s.falseUncitedRate && m[FlaggingKey] == s.flaggingRate
  {
    var e := EntryOf(s);
    var claims, gaps := e.claims.value, e.gaps.value;
    PoolOfOne(e);
    CountsOfRecorded(s.claims);
    GapsOfRecorded(s.gaps);
    assert |claims| == |s.claims|;
    PooledRates(claims, gaps, Present(FirstGapTimes([e])));
  }

  lemma PoolOfOne(e: SessionEntry)
    ensures AllClaims([e]) == SessionClaims(e) && AllGaps([e]) == SessionGaps(e)
  {
    assert [e][..0] == [];
  }

  lemma PooledRates(claims: seq<ClaimEntry>, gaps: seq<GapEntry>, gapTimes: seq<real>)
    ensures var m := Pooled(claims, gaps, gapTimes);
      && m[CitationKey] == Rate(CountCitedEntries(claims), |claims|)
      && m[FalseUncitedKey] == Rate(CountFalseEntries(claims), |claims|)
      && m[FlaggingKey] == PooledFlaggingRate(gaps)
      && m[FirstGapKey] == UpperMedian(gapTimes)
  {
    var m := Pooled(claims, gaps, gapTimes);
    assert m[CitationKey] == Rate(CountCitedEntries(claims), |claims|);
    assert m[FalseUncitedKey] == Rate(CountFalseEntries(claims), |claims|);
    assert m[FlaggingKey] == PooledFlaggingRate(gaps);
    assert m[FirstGapKey] == UpperMedian(gapTimes);
  }

  /** An override stage leaves every other key as it was. */
  lemma StageKeeps(m: map<MetricKey, real>, k: MetricKey, values: seq<real>, other: MetricKey)
    requires other != k
    ensures other in WithMean(m, k, values) <==> other in m
    ensures other in m ==> WithMean(m, k, values)[other] == m[other]
    ensures other in WithMedian(m, k, values) <==> other in m
    ensures other in m ==> WithMedian(m, k, values)[other] == m[other]
  {
  }

  // ---------------------------------------------------------------------
  // The met / not-met rule of the charts

  datatype MetricConfig = MetricConfig(key: MetricKey, target: real, higherIsBetter: bool)

  const Configs: seq<MetricConfig> := [
    MetricConfig(CitationKey, 0.95, true),
    MetricConfig(FalseUncitedKey, 0.02, false),
    MetricConfig(FlaggingKey, 0.80, true),
    MetricConfig(FirstGapKey, 90.0, false),
    MetricConfig(ReproducibilityKey, 0.95, true)
  ]

  /**
   * `metrics.get(key, 0.0)` compared with the target in the metric's
   * direction: a missing metric reads as 0.0, so against a positive target it
   * counts as met exactly when lower is better.
   */
  predicate Met(metrics: map<MetricKey, real>, c: MetricConfig): (r: bool)
    ensures c.key !in metrics && c.target > 0.0 ==> (r <==> !c.higherIsBetter)
  {
    var value := if c.key in metrics then metrics[c.key] else 0.0;
    if c.higherIsBetter then value >= c.target else value <= c.target
  }

  /**
   * The chart targets are the tracker's targets, so for a session summary's
   * rates the chart verdicts agree with the tracker's `targets_met`.
   */
  lemma ChartTargetsAgree(a: AggregateMetrics)
    requires a.targets == Targets(a.citationRate, a.falseUncitedRate, a.flaggingRate, a.medianFirstGap)
    ensures var m := map[CitationKey := a.citationRate, FalseUncitedKey := a.falseUncitedRate,
                         FlaggingKey := a.flaggingRate];
      && (Met(m, Configs[0]) <==> a.targets.citation)
      && (Met(m, Configs[1]) <==> a.targets.falseUncited)
      && (Met(m, Configs[2]) <==> a.targets.flagging)
    ensures a.medianFirstGap.Some? ==>
      (Met(map[FirstGapKey := a.medianFirstGap.value], Configs[3]) <==> a.targets.responseTime)
  {
  }

  /** Improving a value in the metric's direction never turns met into not met. */
  lemma MetMonotone(c: MetricConfig, key: MetricKey, v: real, w: real)
    requires c.key == key
    requires if c.higherIsBetter then w >= v else w <= v
    ensures Met(map[key := v], c) ==> Met(map[key := w], c)
  {
  }
}
