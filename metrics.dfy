/**
 * The success-metrics tracker (`metrics.py`): a session records claims, gaps
 * and response times; ending it computes the citation, false/uncited and
 * flagging rates and the upper median of the response times, and appends the
 * summary to the history. Aggregation averages the rates of many sessions and
 * checks them against fixed targets.
 *
 * Clock readings are parameters (`now`, in seconds, and `stamp`, the ISO
 * text of the same reading).
 */
module Metrics {
  import opened Options
  import opened Stats

  // ---------------------------------------------------------------------
  // Targets

  const CitationTarget: real := 0.95
  const FalseUncitedTarget: real := 0.02
  const FlaggingTarget: real := 0.80
  const ResponseTimeTarget: real := 90.0
  const ReproducibilityTarget: real := 0.95

  // ---------------------------------------------------------------------
  // What a session records

  datatype ClaimRecord = ClaimRecord(claim: string, hasCitation: bool, isVerified: bool, at: real)

  datatype GapRecord = GapRecord(description: string, flagsDemographic: bool, flagsGeographic: bool,
                                 hasSources: bool, at: real)

  /** The dictionary `end_session` returns and appends to `metrics_history` (its end timestamp aside). */
  datatype SessionSummary = SessionSummary(
    sessionId: string,
    citationRate: real,
    falseUncitedRate: real,
    flaggingRate: real,
    medianResponseTime: real,
    firstGapTime: Option<real>,
    totalClaims: nat,
    totalGaps: nat,
    duration: real,
    claims: seq<ClaimRecord>,
    gaps: seq<GapRecord>)

  // ---------------------------------------------------------------------
  // Per-session rates

  /** `x / n if n > 0 else 0.0` on counts. */
  function Rate(x: nat, n: nat): real
  {
    if n > 0 then (x as real) / (n as real) else 0.0
  }

  function CountCited(claims: seq<ClaimRecord>): (k: nat)
    ensures k <= |claims|
  {
    if claims == [] then 0 else (if claims[0].hasCitation then 1 else 0) + CountCited(claims[1..])
  }

  /** Claims lacking a citation or not verified. */
  function CountFalseOrUncited(claims: seq<ClaimRecord>): (k: nat)
    ensures k <= |claims|
  {
    if claims == [] then 0
    else (if !claims[0].hasCitation || !claims[0].isVerified then 1 else 0) + CountFalseOrUncited(claims[1..])
  }

  /** The gaps with sources, in order. */
  function Applicable(gaps: seq<GapRecord>): (r: seq<GapRecord>)
    ensures |r| <= |gaps|
    ensures forall g :: g in r <==> g in gaps && g.hasSources
  {
    if gaps == [] then []
    else (if gaps[0].hasSources then [gaps[0]] else []) + Applicable(gaps[1..])
  }

  /** The gaps flagging demographics or geography, in order. */
  function Flagged(gaps: seq<GapRecord>): (r: seq<GapRecord>)
    ensures |r| <= |gaps|
    ensures forall g :: g in r <==> g in gaps && (g.flagsDemographic || g.flagsGeographic)
  {
    if gaps == [] then []
    else (if gaps[0].flagsDemographic || gaps[0].flagsGeographic then [gaps[0]] else []) + Flagged(gaps[1..])
  }

  function CitationRate(claims: seq<ClaimRecord>): real
  {
    Rate(CountCited(claims), |claims|)
  }

  function FalseUncitedRate(claims: seq<ClaimRecord>): real
  {
    Rate(CountFalseOrUncited(claims), |claims|)
  }

  /** Flagged share among the gaps with sources only. */
  function FlaggingRate(gaps: seq<GapRecord>): real
  {
    var applicable := Applicable(gaps);
    Rate(|Flagged(applicable)|, |applicable|)
  }

  /** The first gap with sources, if any. */
  function FirstVetted(gaps: seq<GapRecord>): (r: Option<GapRecord>)
    ensures r.Some? ==> r.value in gaps && r.value.hasSources
    ensures r.None? <==> forall g :: g in gaps ==> !g.hasSources
  {
    if gaps == [] then None
    else if gaps[0].hasSources then Some(gaps[0])
    else FirstVetted(gaps[1..])
  }

  /** Seconds from the start of the session to the first gap with sources. */
  function FirstGapTime(gaps: seq<GapRecord>, start: real): Option<real>
  {
    match FirstVetted(gaps)
    case None => None
    case Some(g) => Some(g.at - start)
  }

  /**
   * The summary `end_session` builds: the session's rates, which lie in
   * [0, 1], the counts of claims and gaps, the duration, and a first-gap time
   * exactly when some gap has sources.
   */
  function Summarize(sessionId: string, start: real, now: real, claims: seq<ClaimRecord>,
                     gaps: seq<GapRecord>, responseTimes: seq<real>): (s: SessionSummary)
    ensures SummaryRatesHold(s)
    ensures s.totalClaims == |claims| && s.totalGaps == |gaps| && s.duration == now - start
    ensures s.claims == claims && s.gaps == gaps && s.sessionId == sessionId
    ensures s.firstGapTime.Some? <==> exists g :: g in gaps && g.hasSources
    ensures s.citationRate == CitationRate(claims) && s.falseUncitedRate == FalseUncitedRate(claims)
    ensures s.flaggingRate == FlaggingRate(gaps)
    ensures s.medianResponseTime == UpperMedian(responseTimes) && s.firstGapTime == FirstGapTime(gaps, start)
  {
    SessionRates(claims, gaps);
    SessionSummary(sessionId, CitationRate(claims), FalseUncitedRate(claims), FlaggingRate(gaps),
                   UpperMedian(responseTimes), FirstGapTime(gaps, start), |claims|, |gaps|,
                   now - start, claims, gaps)
  }

  lemma RateInUnit(x: nat, n: nat)
    requires x <= n
    ensures 0.0 <= Rate(x, n) <= 1.0
  {
    if n > 0 {
      RatioInUnit(x as real, n as real);
    }
  }

  lemma {:induction false} CitedOrFalse(claims: seq<ClaimRecord>)
    ensures CountCited(claims) + CountFalseOrUncited(claims) >= |claims|
    decreases |claims|
  {
    if claims != [] {
      CitedOrFalse(claims[1..]);
    }
  }

  lemma ComplementaryRates(a: nat, b: nat, n: nat)
    requires n > 0 && a + b >= n
    ensures Rate(b, n) >= 1.0 - Rate(a, n)
  {
    var x, y, m := a as real, b as real, n as real;
    assert x + y >= m;
    SumOfRatios(x, y, m);
  }

  lemma SumOfRatios(x: real, y: real, m: real)
    requires m > 0.0 && x + y >= m
    ensures x / m + y / m >= 1.0
  {
    assert x / m + y / m == (x + y) / m;
    assert (x + y) / m >= m / m;
  }

  /**
   * All three rates lie in [0, 1], and every claim is cited or counted as
   * false/uncited, so the false/uncited rate is at least one minus the citation
   * rate whenever there are claims.
   */
  lemma SessionRates(claims: seq<ClaimRecord>, gaps: seq<GapRecord>)
    ensures 0.0 <= CitationRate(claims) <= 1.0
    ensures 0.0 <= FalseUncitedRate(claims) <= 1.0
    ensures 0.0 <= FlaggingRate(gaps) <= 1.0
    ensures claims != [] ==> FalseUncitedRate(claims) >= 1.0 - CitationRate(claims)
  {
    RateInUnit(CountCited(claims), |claims|);
    RateInUnit(CountFalseOrUncited(claims), |claims|);
    RateInUnit(|Flagged(Applicable(gaps))|, |Applicable(gaps)|);
    if claims != [] {
      CitedOrFalse(claims);
      ComplementaryRates(CountCited(claims), CountFalseOrUncited(claims), |claims|);
    }
  }

  /** A gap without sources leaves the flagging rate where it was. */
  lemma {:induction false} UnsourcedGapIgnored(gaps: seq<GapRecord>, g: GapRecord)
    requires !g.hasSources
    ensures Applicable(gaps + [g]) == Applicable(gaps)
    ensures FlaggingRate(gaps + [g]) == FlaggingRate(gaps)
    decreases |gaps|
  {
    if gaps == [] {
      assert Applicable([g]) == [] + Applicable([g][1..]);
    } else {
      assert (gaps + [g])[1..] == gaps[1..] + [g];
      UnsourcedGapIgnored(gaps[1..], g);
    }
  }

  /** Cited, verified claims only: a full citation rate and no false/uncited claims. */
  lemma {:induction false} AllCitedAndVerified(claims: seq<ClaimRecord>)
    requires claims != []
    requires forall i :: 0 <= i < |claims| ==> claims[i].hasCitation && claims[i].isVerified
    ensures CitationRate(claims) == 1.0 && FalseUncitedRate(claims) == 0.0
  {
    CountsOfVetted(claims);
  }

  lemma {:induction false} CountsOfVetted(claims: seq<ClaimRecord>)
    requires forall i :: 0 <= i < |claims| ==> claims[i].hasCitation && claims[i].isVerified
    ensures CountCited(claims) == |claims| && CountFalseOrUncited(claims) == 0
    decreases |claims|
  {
    if claims != [] {
      CountsOfVetted(claims[1..]);
    }
  }

  /** The rates a summary reports lie in [0, 1], and false/uncited complements the citation rate. */
  predicate SummaryRatesHold(s: SessionSummary)
  {
    && 0.0 <= s.citationRate <= 1.0
    && 0.0 <= s.falseUncitedRate <= 1.0
    && 0.0 <= s.flaggingRate <= 1.0
    && (s.totalClaims > 0 ==> s.falseUncitedRate >= 1.0 - s.citationRate)
  }

  // ---------------------------------------------------------------------
  // The tracker

  class MetricsTracker {
    var history: seq<SessionSummary>
    var claims: seq<ClaimRecord>
    var gaps: seq<GapRecord>
    var responseTimes: seq<real>
    var sessionId: Option<string>
    var startTime: Option<real>

    /** Every summary in the history was computed by `end_session`, so its rates hold. */
    ghost predicate Valid()
      reads this
    {
      forall i :: 0 <= i < |history| ==> SummaryRatesHold(history[i])
    }

    constructor()
      ensures Valid()
      ensures history == [] && claims == [] && gaps == [] && responseTimes == []
      ensures sessionId == None && startTime == None
    {
      history := [];
      claims := [];
      gaps := [];
      responseTimes := [];
      sessionId := None;
      startTime := None;
    }

    /** `start_session`: empty lists, the given id or one made from the clock, and the start time. */
    method StartSession(id: Option<string>, now: real, stamp: string)
      requires Valid()
      modifies this
      ensures Valid()
      ensures claims == [] && gaps == [] && responseTimes == []
      ensures sessionId == Some(if id.Some? then id.value else "session_" + stamp)
      ensures startTime == Some(now)
      ensures history == old(history)
    {
      claims := [];
      gaps := [];
      responseTimes := [];
      sessionId := Some(if id.Some? then id.value else "session_" + stamp);
      startTime := Some(now);
    }

    /** `record_claim`: one more claim and nothing else. */
    method RecordClaim(claim: string, hasCitation: bool, isVerified: bool, now: real)
      requires Valid()
      modifies this
      ensures Valid()
      ensures claims == old(claims) + [ClaimRecord(claim, hasCitation, isVerified, now)]
      ensures history == old(history) && gaps == old(gaps) && responseTimes == old(responseTimes)
      ensures sessionId == old(sessionId) && startTime == old(startTime)
    {
      claims := claims + [ClaimRecord(claim, hasCitation, isVerified, now)];
    }

    /** `record_gap`: one more gap and nothing else. */
    method RecordGap(description: string, flagsDemographic: bool, flagsGeographic: bool,
                     hasSources: bool, now: real)
      requires Valid()
      modifies this
      ensures Valid()
      ensures gaps == old(gaps) + [GapRecord(description, flagsDemographic, flagsGeographic, hasSources, now)]
      ensures history == old(history) && claims == old(claims) && responseTimes == old(responseTimes)
      ensures sessionId == old(sessionId) && startTime == old(startTime)
    {
      gaps := gaps + [GapRecord(description, flagsDemographic, flagsGeographic, hasSources, now)];
    }

    /** `record_response_time`: one more time and nothing else. */
    method RecordResponseTime(seconds: real)
      requires Valid()
      modifies this
      ensures Valid()
      ensures responseTimes == old(responseTimes) + [seconds]
      ensures history == old(history) && claims == old(claims) && gaps == old(gaps)
      ensures sessionId == old(sessionId) && startTime == old(startTime)
    {
      responseTimes := responseTimes + [seconds];
    }

    /**
     * `end_session`: nothing (`{}`) when no session was started; otherwise the
     * summary of the current records, appended to the history. The current
     * records stay as they are.
     */
    method EndSession(now: real) returns (summary: Option<SessionSummary>)
      requires Valid()
      modifies this
      ensures Valid()
      ensures old(startTime).None? ==> summary == None && history == old(history)
      ensures old(startTime).Some? ==>
        && summary == Some(Summarize(if old(sessionId).Some? then old(sessionId).value else "",
                                     old(startTime).value, now, old(claims), old(gaps), old(responseTimes)))
        && history == old(history) + [summary.value]
      ensures claims == old(claims) && gaps == old(gaps) && responseTimes == old(responseTimes)
      ensures sessionId == old(sessionId) && startTime == old(startTime)
    {
      if startTime.None? {
        return None;
      }
      var id := if sessionId.Some? then sessionId.value else "";
      var s := Summarize(id, startTime.value, now, claims, gaps, responseTimes);
      history := history + [s];
      summary := Some(s);
    }

    /** `calculate_aggregate_metrics`: over the given sessions, or over the history when none are given. */
    method CalculateAggregateMetrics(sessions: Option<seq<SessionEntry>>) returns (r: Option<AggregateMetrics>)
      requires Valid()
      ensures r == Aggregate(if sessions.Some? then sessions.value else Entries(history))
      ensures sessions.None? && r.Some? ==> RatesInUnit(r.value)
    {
      if sessions.Some? {
        r := Aggregate(sessions.value);
      } else {
        HistoryRatesInUnit(history);
        r := Aggregate(Entries(history));
      }
    }
  }

  // ---------------------------------------------------------------------
  // Aggregation over stored sessions

  /** A claim as read back from a stored session: either flag may be missing. */
  datatype ClaimEntry = ClaimEntry(hasCitation: Option<bool>, isVerified: Option<bool>)

  /** A gap as read back from a stored session: any flag may be missing. */
  datatype GapEntry = GapEntry(hasSources: Option<bool>, flagsDemographic: Option<bool>,
                               flagsGeographic: Option<bool>)

  /** A stored session dictionary: every key may be missing (a `None` value reads like a missing one). */
  datatype SessionEntry = SessionEntry(
    citationRate: Option<real>,
    falseUncitedRate: Option<real>,
    flaggingRate: Option<real>,
    medianResponseTime: Option<real>,
    firstGapTime: Option<real>,
    claims: Option<seq<ClaimEntry>>,
    gaps: Option<seq<GapEntry>>)

  function ClaimEntryOf(c: ClaimRecord): ClaimEntry
  {
    ClaimEntry(Some(c.hasCitation), Some(c.isVerified))
  }

  function GapEntryOf(g: GapRecord): GapEntry
  {
    GapEntry(Some(g.hasSources), Some(g.flagsDemographic), Some(g.flagsGeographic))
  }

  function ClaimEntries(claims: seq<ClaimRecord>): (r: seq<ClaimEntry>)
    ensures |r| == |claims|
  {
    if claims == [] then [] else [ClaimEntryOf(claims[0])] + ClaimEntries(claims[1..])
  }

  function GapEntries(gaps: seq<GapRecord>): (r: seq<GapEntry>)
    ensures |r| == |gaps|
  {
    if gaps == [] then [] else [GapEntryOf(gaps[0])] + GapEntries(gaps[1..])
  }

  /** A summary as a stored session: every key present. */
  function EntryOf(s: SessionSummary): SessionEntry
  {
    SessionEntry(Some(s.citationRate), Some(s.falseUncitedRate), Some(s.flaggingRate),
                 Some(s.medianResponseTime), s.firstGapTime,
                 Some(ClaimEntries(s.claims)), Some(GapEntries(s.gaps)))
  }

  function Entries(history: seq<SessionSummary>): (r: seq<SessionEntry>)
    ensures |r| == |history|
    ensures forall i :: 0 <= i < |history| ==> r[i] == EntryOf(history[i])
  {
    seq(|history|, i requires 0 <= i < |history| => EntryOf(history[i]))
  }

  /** The values present under one key, in session order. */
  function Present(values: seq<Option<real>>): (r: seq<real>)
    ensures |r| <= |values|
    ensures forall x :: x in r <==> Some(x) in values
  {
    if values == [] then []
    else (if values[0].Some? then [values[0].value] else []) + Present(values[1..])
  }

  /** The values present under one key and truthy (non-zero), in session order. */
  function PresentNonZero(values: seq<Option<real>>): (r: seq<real>)
    ensures |r| <= |values|
    ensures forall x :: x in r <==> Some(x) in values && x != 0.0
  {
    if values == [] then []
    else (if values[0].Some? && values[0].value != 0.0 then [values[0].value] else []) + PresentNonZero(values[1..])
  }

  function CitationRates(sessions: seq<SessionEntry>): seq<Option<real>>
  {
    seq(|sessions|, i requires 0 <= i < |sessions| => sessions[i].citationRate)
  }

  function FalseUncitedRates(sessions: seq<SessionEntry>): seq<Option<real>>
  {
    seq(|sessions|, i requires 0 <= i < |sessions| => sessions[i].falseUncitedRate)
  }

  function FlaggingRates(sessions: seq<SessionEntry>): seq<Option<real>>
  {
    seq(|sessions|, i requires 0 <= i < |sessions| => sessions[i].flaggingRate)
  }

  function MedianResponseTimes(sessions: seq<SessionEntry>): seq<Option<real>>
  {
    seq(|sessions|, i requires 0 <= i < |sessions| => sessions[i].medianResponseTime)
  }

  function FirstGapTimes(sessions: seq<SessionEntry>): seq<Option<real>>
  {
    seq(|sessions|, i requires 0 <= i < |sessions| => sessions[i].firstGapTime)
  }

  datatype TargetsMet = TargetsMet(citation: bool, falseUncited: bool, flagging: bool,
                                   responseTime: bool, reproducibility: bool)

  datatype AggregateMetrics = AggregateMetrics(
    citationRate: real,
    falseUncitedRate: real,
    flaggingRate: real,
    medianResponseTime: real,
    medianFirstGap: Option<real>,
    totalSessions: nat,
    targets: TargetsMet)

  /** The `targets_met` dictionary; the time target is checked against the first-gap median. */
  function Targets(citation: real, falseUncited: real, flagging: real, firstGap: Option<real>): TargetsMet
  {
    TargetsMet(citation >= CitationTarget, falseUncited <= FalseUncitedTarget, flagging >= FlaggingTarget,
               firstGap.Some? && firstGap.value <= ResponseTimeTarget, true)
  }

  /**
   * `calculate_aggregate_metrics` on a list of sessions: nothing (`{}`) for
   * an empty list, and otherwise the session count and the targets: at least
   * 95% cited, at most 2% false/uncited, at least 80% flagged, and a
   * first-gap median of at most 90 seconds, which fails when no session has
   * a first-gap time.
   */
  function Aggregate(sessions: seq<SessionEntry>): (r: Option<AggregateMetrics>)
    ensures r.None? <==> sessions == []
    ensures r.Some? ==> r.value.totalSessions == |sessions|
    ensures r.Some? ==>
      var a := r.value;
      && (a.targets.citation <==> a.citationRate >= 0.95)
      && (a.targets.falseUncited <==> a.falseUncitedRate <= 0.02)
      && (a.targets.flagging <==> a.flaggingRate >= 0.80)
      && (a.targets.responseTime <==> a.medianFirstGap.Some? && a.medianFirstGap.value <= 90.0)
      && (a.medianFirstGap.Some? ==> exists i :: 0 <= i < |sessions| && sessions[i].firstGapTime.Some?)
    ensures r.Some? ==>
      var a := r.value;
      && a.citationRate == Mean(Present(CitationRates(sessions)))
      && a.falseUncitedRate == Mean(Present(FalseUncitedRates(sessions)))
      && a.flaggingRate == Mean(Present(FlaggingRates(sessions)))
      && a.medianResponseTime == UpperMedian(PresentNonZero(MedianResponseTimes(sessions)))
      && a.medianFirstGap == (if Present(FirstGapTimes(sessions)) == [] then None
                              else Some(UpperMedian(Present(FirstGapTimes(sessions)))))
  {
    if sessions == [] then None
    else
      FirstGapWitness(sessions);
      var citation := Mean(Present(CitationRates(sessions)));
      var falseUncited := Mean(Present(FalseUncitedRates(sessions)));
      var flagging := Mean(Present(FlaggingRates(sessions)));
      var gapTimes := Present(FirstGapTimes(sessions));
      var firstGap := if gapTimes == [] then None else Some(UpperMedian(gapTimes));
      Some(AggregateMetrics(citation, falseUncited, flagging, UpperMedian(PresentNonZero(MedianResponseTimes(sessions))),
                            firstGap, |sessions|, Targets(citation, falseUncited, flagging, firstGap)))
  }

  predicate RatesInUnit(a: AggregateMetrics)
  {
    0.0 <= a.citationRate <= 1.0 && 0.0 <= a.falseUncitedRate <= 1.0 && 0.0 <= a.flaggingRate <= 1.0
  }

  /** Every present rate of every session lies in [0, 1]. */
  predicate StoredRatesInUnit(sessions: seq<SessionEntry>)
  {
    forall i :: 0 <= i < |sessions| ==>
      && (sessions[i].citationRate.Some? ==> 0.0 <= sessions[i].citationRate.value <= 1.0)
      && (sessions[i].falseUncitedRate.Some? ==> 0.0 <= sessions[i].falseUncitedRate.value <= 1.0)
      && (sessions[i].flaggingRate.Some? ==> 0.0 <= sessions[i].flaggingRate.value <= 1.0)
  }

  lemma PresentInUnit(values: seq<Option<real>>)
    requires forall i :: 0 <= i < |values| ==> values[i].Some? ==> 0.0 <= values[i].value <= 1.0
    ensures AllIn(Present(values), 0.0, 1.0)
  {
    var r := Present(values);
    forall k | 0 <= k < |r| ensures 0.0 <= r[k] <= 1.0 {
      assert Some(r[k]) in values;
    }
  }

  /** Averaging rates in [0, 1] gives rates in [0, 1]. */
  lemma AggregateRatesInUnit(sessions: seq<SessionEntry>)
    requires sessions != [] && StoredRatesInUnit(sessions)
    ensures Aggregate(sessions).Some? && RatesInUnit(Aggregate(sessions).value)
  {
    PresentInUnit(CitationRates(sessions));
    PresentInUnit(FalseUncitedRates(sessions));
    PresentInUnit(FlaggingRates(sessions));
  }

  /** The tracker's own history aggregates to rates in [0, 1]. */
  lemma HistoryRatesInUnit(history: seq<SessionSummary>)
    requires forall i :: 0 <= i < |history| ==> SummaryRatesHold(history[i])
    ensures Aggregate(Entries(history)).Some? ==> RatesInUnit(Aggregate(Entries(history)).value)
  {
    if history != [] {
      AggregateRatesInUnit(Entries(history));
    }
  }

  /** A session whose median response time is missing or zero does not move the aggregate median. */
  lemma ZeroMedianExcluded(sessions: seq<SessionEntry>, e: SessionEntry)
    requires sessions != []
    requires e.medianResponseTime.None? || e.medianResponseTime.value == 0.0
    ensures Aggregate(sessions + [e]).value.medianResponseTime == Aggregate(sessions).value.medianResponseTime
  {
    var all := sessions + [e];
    assert MedianResponseTimes(all) == MedianResponseTimes(sessions) + [e.medianResponseTime];
    PresentNonZeroSnoc(MedianResponseTimes(sessions), e.medianResponseTime);
  }

  lemma {:induction false} PresentNonZeroSnoc(values: seq<Option<real>>, v: Option<real>)
    requires v.None? || v.value == 0.0
    ensures PresentNonZero(values + [v]) == PresentNonZero(values)
    decreases |values|
  {
    if values == [] {
      assert PresentNonZero([v]) == [] + PresentNonZero([v][1..]);
    } else {
      assert (values + [v])[1..] == values[1..] + [v];
      PresentNonZeroSnoc(values[1..], v);
    }
  }

  /** A first-gap median exists only when some session recorded a first-gap time. */
  lemma FirstGapWitness(sessions: seq<SessionEntry>)
    ensures Present(FirstGapTimes(sessions)) != [] ==> exists i :: 0 <= i < |sessions| && sessions[i].firstGapTime.Some?
  {
    var values := FirstGapTimes(sessions);
    var gapTimes := Present(values);
    if gapTimes != [] {
      assert Some(gapTimes[0]) in values;
      var i :| 0 <= i < |values| && values[i] == Some(gapTimes[0]);
      assert sessions[i].firstGapTime.Some?;
    }
  }

  /** Sessions that all report the same citation rate aggregate to that rate. */
  lemma UniformCitationRate(sessions: seq<SessionEntry>, c: real)
    requires sessions != []
    requires forall i :: 0 <= i < |sessions| ==> sessions[i].citationRate == Some(c)
    ensures Aggregate(sessions).value.citationRate == c
  {
    var values := CitationRates(sessions);
    AllPresent(values, c);
    ConstantStatistics(Present(values), c);
  }

  lemma {:induction false} AllPresent(values: seq<Option<real>>, c: real)
    requires forall i :: 0 <= i < |values| ==> values[i] == Some(c)
    ensures |Present(values)| == |values|
    ensures forall i :: 0 <= i < |Present(values)| ==> Present(values)[i] == c
    decreases |values|
  {
    if values != [] {
      AllPresent(values[1..], c);
    }
  }
}
