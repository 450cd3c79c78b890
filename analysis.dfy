/**
 * The deterministic helpers of the in-depth analyser: severity bands, the
 * notable-case selection, the baseline comparison, the exact-title paper
 * deduplication, the `**Header**` section parser and the default case focus.
 * The language-model calls around them are not modelled.
 */
module Analysis {
  import opened Options
  import opened Tables
  import opened Text
  import Scoring
  import opened Research
  import Config

  // ---------------------------------------------------------------------
  // Severity

  datatype Severity = Low | Moderate | High | Critical

  /** The position of a severity on the scale Low < Moderate < High < Critical. */
  function Rank(s: Severity): nat
  {
    match s
    case Low => 0
    case Moderate => 1
    case High => 2
    case Critical => 3
  }

  /** `_classify_severity`. */
  function ClassifySeverity(score: real): (r: Severity)
    ensures r == Critical <==> score >= 0.7
    ensures r == High <==> 0.5 <= score < 0.7
    ensures r == Moderate <==> 0.3 <= score < 0.5
    ensures r == Low <==> score < 0.3
  {
    if score >= 0.7 then Critical
    else if score >= 0.5 then High
    else if score >= 0.3 then Moderate
    else Low
  }

  /** A higher score never gets a milder severity. */
  lemma SeverityMonotone(a: real, b: real)
    requires a <= b
    ensures Rank(ClassifySeverity(a)) <= Rank(ClassifySeverity(b))
  {
  }

  // ---------------------------------------------------------------------
  // Notable cases

  /** A case of `identify_notable_cases`; its descriptive sentence is not modelled. */
  datatype NotableCase = NotableCase(component: string, score: real, severity: Severity)

  /** The (component, score) entries the cases were made from. */
  function Pairs(cases: seq<NotableCase>): (t: Table)
    ensures |t| == |cases|
    ensures forall i :: 0 <= i < |cases| ==> t[i] == (cases[i].component, cases[i].score)
  {
    if cases == [] then [] else [(cases[0].component, cases[0].score)] + Pairs(cases[1..])
  }

  /** The entries scoring above 0.3, as cases, in order. */
  function Notables(t: Table): (r: seq<NotableCase>)
    ensures |r| <= |t|
    ensures forall c :: c in r ==> (c.component, c.score) in t && c.score > 0.3 && c.severity == ClassifySeverity(c.score)
    ensures forall v :: v > 0.3 ==> Scoring.WithScore(Pairs(r), v) == Scoring.WithScore(t, v)
  {
    if t == [] then []
    else
      assert t == [t[0]] + t[1..];
      var rest := Notables(t[1..]);
      if t[0].1 > 0.3 then
        var r := [NotableCase(t[0].0, t[0].1, ClassifySeverity(t[0].1))] + rest;
        assert r[1..] == rest;
        assert Pairs(r) == [t[0]] + Pairs(rest);
        assert ([t[0]] + Pairs(rest))[1..] == Pairs(rest);
        r
      else
        assert [] + rest == rest;
        rest
  }

  /** `identify_notable_cases`: among the `topN` highest components, those scoring above 0.3. */
  function NotableCases(breakdown: Table, topN: int): (r: seq<NotableCase>)
    ensures |r| <= |breakdown|
    ensures topN >= 0 ==> |r| <= topN
    ensures forall i, j :: 0 <= i < j < |r| ==> r[i].score >= r[j].score
    ensures forall c :: c in r ==> c.score > 0.3 && c.severity == ClassifySeverity(c.score) && c.severity != Low
    ensures forall c :: c in r ==> (c.component, c.score) in breakdown
    ensures forall c :: c in r ==> (c.component, c.score) in PyTake(Scoring.SortDesc(breakdown), topN)
    ensures forall i :: 0 <= i < |breakdown| && i < topN && Scoring.SortDesc(breakdown)[i].1 > 0.3 ==>
      var x := Scoring.SortDesc(breakdown)[i];
      NotableCase(x.0, x.1, ClassifySeverity(x.1)) in r
    ensures forall v :: v > 0.3 ==>
      Scoring.WithScore(Pairs(r), v) == Scoring.WithScore(PyTake(Scoring.SortDesc(breakdown), topN), v)
  {
    var sorted := Scoring.SortDesc(breakdown);
    var top := PyTake(sorted, topN);
    TopOfSorted(breakdown, topN);
    NotablesDescend(top);
    NotablesKeepHigh(top);
    assert forall i :: 0 <= i < |breakdown| && i < topN ==> i < |top| && top[i] == sorted[i];
    Notables(top)
  }

  /** Cases of a table in descending order come out in descending order. */
  lemma {:induction false} NotablesDescend(t: Table)
    requires Scoring.Descending(t)
    ensures forall i, j :: 0 <= i < j < |Notables(t)| ==> Notables(t)[i].score >= Notables(t)[j].score
  {
    if t != [] {
      NotablesDescend(t[1..]);
      if t[0].1 > 0.3 {
        HeadAboveNotables(t);
      }
    }
  }

  /** The first entry of a descending table scores at least as high as every case of the rest. */
  lemma HeadAboveNotables(t: Table)
    requires t != [] && Scoring.Descending(t)
    ensures forall j :: 0 <= j < |Notables(t[1..])| ==> t[0].1 >= Notables(t[1..])[j].score
  {
    var rest := Notables(t[1..]);
    forall j | 0 <= j < |rest| ensures t[0].1 >= rest[j].score {
      assert rest[j] in rest;
      var k :| 0 <= k < |t[1..]| && t[1..][k] == (rest[j].component, rest[j].score);
      assert t[k + 1] == t[1..][k];
    }
  }

  /** Every entry scoring above 0.3 becomes a case. */
  lemma {:induction false} NotablesKeepHigh(t: Table)
    ensures forall i :: 0 <= i < |t| && t[i].1 > 0.3 ==> NotableCase(t[i].0, t[i].1, ClassifySeverity(t[i].1)) in Notables(t)
  {
    if t != [] {
      NotablesKeepHigh(t[1..]);
      forall i | 0 < i < |t| && t[i].1 > 0.3
        ensures NotableCase(t[i].0, t[i].1, ClassifySeverity(t[i].1)) in Notables(t)
      {
        assert t[1..][i - 1] == t[i];
      }
    }
  }

  /** The first `topN` of the sorted breakdown are in descending order and come from the breakdown. */
  lemma TopOfSorted(breakdown: Table, topN: int)
    ensures var top := PyTake(Scoring.SortDesc(breakdown), topN);
      Scoring.Descending(top) && forall x :: x in top ==> x in breakdown
  {
    var sorted := Scoring.SortDesc(breakdown);
    var top := PyTake(sorted, topN);
    Scoring.SortDescCorrect(breakdown);
    forall x | x in top ensures x in breakdown {
      assert x in multiset(sorted);
    }
  }

  /** When `topN` covers the whole breakdown, every component scoring above 0.3 is reported. */
  lemma NotableCasesComplete(breakdown: Table, topN: int)
    requires topN >= |breakdown|
    ensures forall x :: x in breakdown && x.1 > 0.3 ==>
      NotableCase(x.0, x.1, ClassifySeverity(x.1)) in NotableCases(breakdown, topN)
  {
    var sorted := Scoring.SortDesc(breakdown);
    Scoring.SortDescCorrect(breakdown);
    assert PyTake(sorted, topN) == sorted;
    NotablesKeepHigh(sorted);
    forall x | x in breakdown && x.1 > 0.3 ensures NotableCase(x.0, x.1, ClassifySeverity(x.1)) in Notables(sorted) {
      assert x in multiset(sorted);
      var i :| 0 <= i < |sorted| && sorted[i] == x;
    }
  }

  // ---------------------------------------------------------------------
  // Baseline comparison

  const StandardBaseline: Table := [
    (Config.RaceLabelAvailability, 0.4),
    (Config.DarkSkinRepresentation, 0.3),
    (Config.SubgroupMetrics, 0.5),
    (Config.GeographicConcentration, 0.6),
    (Config.FairnessMethodCoverage, 0.7),
    (Config.ExternalValidation, 0.6)
  ]

  const ConservativeBaseline: Table := [
    (Config.RaceLabelAvailability, 0.6),
    (Config.DarkSkinRepresentation, 0.5),
    (Config.SubgroupMetrics, 0.7),
    (Config.GeographicConcentration, 0.8),
    (Config.FairnessMethodCoverage, 0.8),
    (Config.ExternalValidation, 0.7)
  ]

  const OptimisticBaseline: Table := [
    (Config.RaceLabelAvailability, 0.2),
    (Config.DarkSkinRepresentation, 0.1),
    (Config.SubgroupMetrics, 0.3),
    (Config.GeographicConcentration, 0.4),
    (Config.FairnessMethodCoverage, 0.4),
    (Config.ExternalValidation, 0.3)
  ]

  /** `baseline_strategies.get(baseline_type, baseline_strategies["standard"])`. */
  function BaselineFor(baselineType: string): (r: Table)
    ensures Keys(r) == Config.BreakdownKeys
    ensures forall i :: 0 <= i < |r| ==> 0.0 < r[i].1 < 1.0
    ensures baselineType != "conservative" && baselineType != "optimistic" ==> r == StandardBaseline
  {
    if baselineType == "conservative" then ConservativeBaseline
    else if baselineType == "optimistic" then OptimisticBaseline
    else StandardBaseline
  }

  /** How the analysed score compares with the baseline; `gap` is its size. */
  datatype Interpretation = SimilarToBaseline | HigherThanBaseline(gap: real) | LowerThanBaseline(gap: real)

  /** `_interpret_comparison`. */
  function Interpret(difference: real): (r: Interpretation)
    ensures r.SimilarToBaseline? <==> -0.05 < difference < 0.05
    ensures r.HigherThanBaseline? ==> difference >= 0.05 && r.gap == difference
    ensures r.LowerThanBaseline? ==> difference <= -0.05 && r.gap == -difference
  {
    if Abs(difference) < 0.05 then SimilarToBaseline
    else if difference > 0.0 then HigherThanBaseline(difference)
    else LowerThanBaseline(Abs(difference))
  }

  datatype Comparison = Comparison(
    baselineType: string,
    baselineScore: real,
    llmScore: real,
    difference: real,
    baselineBreakdown: Table,
    llmBreakdown: Table,
    differences: Table,
    improvementNeeded: bool,
    interpretation: Interpretation)

  /** `{key: llm.get(key, 0.0) - baseline.get(key, 0.0) for key in baseline}`. */
  function Differences(llm: Table, baseline: Table): (d: Table)
    ensures |d| == |baseline|
    ensures forall i :: 0 <= i < |baseline| ==> d[i] == (baseline[i].0, Get(llm, baseline[i].0, 0.0) - baseline[i].1)
  {
    if baseline == [] then []
    else [(baseline[0].0, Get(llm, baseline[0].0, 0.0) - baseline[0].1)] + Differences(llm, baseline[1..])
  }

  /**
   * `generate_baseline_comparison`. The analysed results are the score dict
   * of an earlier analysis, if any: a missing one reads as an empty
   * breakdown and a score of 0.
   */
  function BaselineComparison(scoreResults: Option<Scoring.ScoreResult>, baselineType: string): (c: Comparison)
    ensures c.baselineBreakdown == BaselineFor(baselineType)
    ensures c.baselineScore == Scoring.WeightedSum(c.baselineBreakdown, Config.ScoreWeights)
    ensures c.llmBreakdown == (if scoreResults.Some? then scoreResults.value.breakdown else [])
    ensures c.llmScore == (if scoreResults.Some? then scoreResults.value.score else 0.0)
    ensures Keys(c.differences) == Keys(c.baselineBreakdown)
    ensures forall i :: 0 <= i < |c.differences| ==>
      c.baselineBreakdown[i].1 + c.differences[i].1 == Get(c.llmBreakdown, c.differences[i].0, 0.0)
    ensures c.llmScore == c.baselineScore + c.difference
    ensures c.improvementNeeded <==> c.llmScore > c.baselineScore
    ensures c.interpretation.SimilarToBaseline? <==> Abs(c.llmScore - c.baselineScore) < 0.05
    ensures c.interpretation.HigherThanBaseline? ==> c.improvementNeeded && c.interpretation.gap == c.difference
    ensures c.interpretation.LowerThanBaseline? ==> !c.improvementNeeded && c.interpretation.gap == -c.difference
  {
    var baseline := BaselineFor(baselineType);
    var baselineScore := Scoring.WeightedSum(baseline, Config.ScoreWeights);
    var llmBreakdown := if scoreResults.Some? then scoreResults.value.breakdown else [];
    var llmScore := if scoreResults.Some? then scoreResults.value.score else 0.0;
    var difference := llmScore - baselineScore;
    Comparison(baselineType, baselineScore, llmScore, difference, baseline, llmBreakdown,
               Differences(llmBreakdown, baseline), difference > 0.0, Interpret(difference))
  }

  /** An unknown baseline type falls back to the standard strategy. */
  lemma UnknownBaselineIsStandard(baselineType: string)
    requires baselineType !in {"standard", "conservative", "optimistic"}
    ensures BaselineFor(baselineType) == BaselineFor("standard")
    ensures BaselineComparison(None, baselineType).baselineScore == BaselineComparison(None, "standard").baselineScore
  {
  }

  /** The baseline scores under the default weights: 0.49, 0.665 and 0.265. */
  lemma BaselineScores()
    ensures Scoring.WeightedSum(StandardBaseline, Config.ScoreWeights) == 0.49
    ensures Scoring.WeightedSum(ConservativeBaseline, Config.ScoreWeights) == 0.665
    ensures Scoring.WeightedSum(OptimisticBaseline, Config.ScoreWeights) == 0.265
  {
    BaselineScoreOf(0.4, 0.3, 0.5, 0.6, 0.7, 0.6);
    BaselineScoreOf(0.6, 0.5, 0.7, 0.8, 0.8, 0.7);
    BaselineScoreOf(0.2, 0.1, 0.3, 0.4, 0.4, 0.3);
  }

  /** The weighted sum of a six-entry table over the breakdown keys, weight by weight. */
  lemma BaselineScoreOf(a: real, b: real, c: real, d: real, e: real, f: real)
    ensures Scoring.WeightedSum([(Config.RaceLabelAvailability, a), (Config.DarkSkinRepresentation, b),
                         (Config.SubgroupMetrics, c), (Config.GeographicConcentration, d),
                         (Config.FairnessMethodCoverage, e), (Config.ExternalValidation, f)], Config.ScoreWeights)
            == a * 0.15 + b * 0.25 + c * 0.20 + d * 0.15 + e * 0.15 + f * 0.10
  {
    var t := [(Config.RaceLabelAvailability, a), (Config.DarkSkinRepresentation, b),
              (Config.SubgroupMetrics, c), (Config.GeographicConcentration, d),
              (Config.FairnessMethodCoverage, e), (Config.ExternalValidation, f)];
    var w := Config.ScoreWeights;
    Config.DefaultWeightsAreValid();
    assert Get(w, Config.RaceLabelAvailability, 0.0) == 0.15 by { assert w[0].0 == Config.RaceLabelAvailability; }
    assert Get(w, Config.DarkSkinRepresentation, 0.0) == 0.25 by { assert w[1].0 == Config.DarkSkinRepresentation; }
    assert Get(w, Config.SubgroupMetrics, 0.0) == 0.20 by { assert w[2].0 == Config.SubgroupMetrics; }
    assert Get(w, Config.GeographicConcentration, 0.0) == 0.15 by { assert w[3].0 == Config.GeographicConcentration; }
    assert Get(w, Config.FairnessMethodCoverage, 0.0) == 0.15 by { assert w[4].0 == Config.FairnessMethodCoverage; }
    assert Get(w, Config.ExternalValidation, 0.0) == 0.10 by { assert w[5].0 == Config.ExternalValidation; }
    assert Scoring.WeightedSum(t[5..], w) == f * 0.10;
    assert Scoring.WeightedSum(t[4..], w) == e * 0.15 + Scoring.WeightedSum(t[5..], w);
    assert Scoring.WeightedSum(t[3..], w) == d * 0.15 + Scoring.WeightedSum(t[4..], w);
    assert Scoring.WeightedSum(t[2..], w) == c * 0.20 + Scoring.WeightedSum(t[3..], w);
    assert Scoring.WeightedSum(t[1..], w) == b * 0.25 + Scoring.WeightedSum(t[2..], w);
  }

  // ---------------------------------------------------------------------
  // Papers referenced by an analysis

  /** A paper's title as `paper.get('title', '')` reads it. */
  function Title(p: Paper): string
  {
    TitleOr(p, "")
  }

  predicate SameTitle(a: string, b: string)
  {
    a == b
  }

  /** `_extract_papers`: first paper per exact, non-empty title. */
  function FirstByTitle(papers: seq<Paper>): (r: seq<Paper>)
    ensures IsSubsequence(r, papers)
    ensures forall i :: 0 <= i < |r| ==> Title(r[i]) != ""
    ensures forall i, j :: 0 <= i < j < |r| ==> Title(r[i]) != Title(r[j])
    ensures forall p :: p in papers && Title(p) != "" ==> exists q :: q in r && Title(q) == Title(p)
    ensures forall i :: 0 <= i < |r| ==>
      exists k :: 0 <= k < |papers| && papers[k] == r[i] && forall k' :: 0 <= k' < k ==> Title(papers[k']) != Title(r[i])
  {
    FirstOccurrences(papers, {});
    DedupIsSubsequence(Title, SameTitle, papers, {});
    DedupKeepsDissimilar(Title, SameTitle, papers, {});
    KeptTitlesDistinct(Title, SameTitle, papers, {});
    TitlesCovered(papers, {});
    DedupBy(Title, SameTitle, papers, {})
  }

  /** With exact matching, "near some seen title" is "one of the seen titles". */
  lemma NearAnySame(t: string, seen: set<string>)
    ensures NearAny(SameTitle, t, seen) <==> t in seen
  {
    if t in seen {
      assert SameTitle(t, t);
    }
  }

  /** `_extract_papers`. A missing analysis or `real_papers` list is the empty list. */
  method ExtractPapers(dataset: seq<Paper>, subgroup: seq<Paper>, mitigation: seq<Paper>) returns (unique: seq<Paper>)
    ensures unique == FirstByTitle(dataset + subgroup + mitigation)
  {
    var papers := dataset + subgroup + mitigation;
    var seen: set<string> := {};
    unique := [];
    assert papers[0..] == papers;
    for i := 0 to |papers|
      invariant unique + DedupBy(Title, SameTitle, papers[i..], seen) == FirstByTitle(papers)
    {
      var title := Title(papers[i]);
      NearAnySame(title, seen);
      DedupByAdvance(Title, SameTitle, papers, i, unique, seen, FirstByTitle(papers));
      if title != "" && title !in seen {
        seen := seen + {title};
        unique := unique + [papers[i]];
      }
    }
  }

  /** Every kept paper is the first paper of its title, and its title is neither blank nor seen beforehand. */
  lemma {:induction false} FirstOccurrences(papers: seq<Paper>, seen: set<string>)
    ensures forall q :: q in DedupBy(Title, SameTitle, papers, seen) ==>
      && Title(q) != "" && Title(q) !in seen
      && exists k :: 0 <= k < |papers| && papers[k] == q && forall k' :: 0 <= k' < k ==> Title(papers[k']) != Title(q)
    decreases |papers|
  {
    if papers != [] {
      var t := Title(papers[0]);
      NearAnySame(t, seen);
      var r := DedupBy(Title, SameTitle, papers, seen);
      if KeepsBy(SameTitle, t, seen) {
        FirstOccurrences(papers[1..], seen + {t});
        var rest := DedupBy(Title, SameTitle, papers[1..], seen + {t});
        assert r == [papers[0]] + rest;
        forall q | q in r
          ensures exists k :: 0 <= k < |papers| && papers[k] == q && forall k' :: 0 <= k' < k ==> Title(papers[k']) != Title(q)
        {
          if q in rest {
            var k :| 0 <= k < |papers[1..]| && papers[1..][k] == q &&
              forall k' :: 0 <= k' < k ==> Title(papers[1..][k']) != Title(q);
            assert papers[k + 1] == q;
            forall k' | 0 <= k' < k + 1 ensures Title(papers[k']) != Title(q) {
              if k' > 0 {
                assert papers[k'] == papers[1..][k' - 1];
              }
            }
          } else {
            assert papers[0] == q;
          }
        }
      } else {
        FirstOccurrences(papers[1..], seen);
        assert r == DedupBy(Title, SameTitle, papers[1..], seen);
        forall q | q in r
          ensures exists k :: 0 <= k < |papers| && papers[k] == q && forall k' :: 0 <= k' < k ==> Title(papers[k']) != Title(q)
        {
          var k :| 0 <= k < |papers[1..]| && papers[1..][k] == q &&
            forall k' :: 0 <= k' < k ==> Title(papers[1..][k']) != Title(q);
          assert papers[k + 1] == q;
          forall k' | 0 <= k' < k + 1 ensures Title(papers[k']) != Title(q) {
            if k' > 0 {
              assert papers[k'] == papers[1..][k' - 1];
            }
          }
        }
      }
    }
  }

  /** Every titled paper's title is kept or was already seen. */
  lemma {:induction false} TitlesCovered(papers: seq<Paper>, seen: set<string>)
    ensures forall p :: p in papers && Title(p) != "" ==>
      Title(p) in seen || exists q :: q in DedupBy(Title, SameTitle, papers, seen) && Title(q) == Title(p)
    decreases |papers|
  {
    if papers != [] {
      var t := Title(papers[0]);
      NearAnySame(t, seen);
      var r := DedupBy(Title, SameTitle, papers, seen);
      if KeepsBy(SameTitle, t, seen) {
        TitlesCovered(papers[1..], seen + {t});
        assert r == [papers[0]] + DedupBy(Title, SameTitle, papers[1..], seen + {t});
        forall p | p in papers && Title(p) != ""
          ensures Title(p) in seen || exists q :: q in r && Title(q) == Title(p)
        {
          if p == papers[0] {
            assert papers[0] in r;
          } else {
            assert p in papers[1..];
          }
        }
      } else {
        TitlesCovered(papers[1..], seen);
        assert r == DedupBy(Title, SameTitle, papers[1..], seen);
        forall p | p in papers && Title(p) != ""
          ensures Title(p) in seen || exists q :: q in r && Title(q) == Title(p)
        {
          if p != papers[0] {
            assert p in papers[1..];
          }
        }
      }
    }
  }

  // ---------------------------------------------------------------------
  // Sections of a structured answer

  /** A line of the answer as the section parser sees it. */
  datatype Line = Header(name: string) | Body(text: string)

  /** A line that, stripped, starts and ends with `**`. */
  predicate IsHeader(line: string)
  {
    StartsWith(Strip(line), "**") && EndsWith(Strip(line), "**")
  }

  /** `line.strip().strip('*').strip()`. */
  function HeaderName(line: string): string
  {
    Strip(StripStars(Strip(line)))
  }

  function ClassifyLine(line: string): Line
  {
    if IsHeader(line) then Header(HeaderName(line)) else Body(line)
  }

  function ClassifyLines(lines: seq<string>): (r: seq<Line>)
    ensures |r| == |lines|
    ensures forall i :: 0 <= i < |lines| ==> r[i] == ClassifyLine(lines[i])
  {
    seq(|lines|, i requires 0 <= i < |lines| => ClassifyLine(lines[i]))
  }

  /**
   * The parser's state: the sections closed so far, the open section's
   * name ("" when none is open: `None` and an empty name behave alike), and
   * the lines collected for it.
   */
  datatype Parse = Parse(sections: map<string, string>, current: string, content: seq<string>)

  const Start := Parse(map[], "", [])

  /** The sections with the open one, if any, stored under its name. */
  function Closed(st: Parse): map<string, string>
  {
    if st.current != "" then st.sections[st.current := Strip(Join(st.content, "\n"))] else st.sections
  }

  /** One line of the loop of `_extract_structured_sections`. */
  function Consume(st: Parse, line: Line): Parse
  {
    match line
    case Header(name) => Parse(Closed(st), name, [])
    case Body(text) => if st.current != "" then st.(content := st.content + [text]) else st
  }

  function ConsumeAll(st: Parse, lines: seq<Line>): Parse
    decreases |lines|
  {
    if lines == [] then st else Consume(ConsumeAll(st, lines[..|lines| - 1]), lines[|lines| - 1])
  }

  function SectionsOf(lines: seq<Line>): map<string, string>
  {
    Closed(ConsumeAll(Start, lines))
  }

  /** `_extract_structured_sections` over the text's lines. */
  function StructuredSections(text: string): (r: map<string, string>)
    ensures r.Keys == HeaderNames(ClassifyLines(SplitOn(text, '\n')))
  {
    ConsumeAllNames(ClassifyLines(SplitOn(text, '\n')));
    SectionsOf(ClassifyLines(SplitOn(text, '\n')))
  }

  /** `_extract_structured_sections`. */
  method ExtractStructuredSections(text: string) returns (sections: map<string, string>)
    ensures sections == StructuredSections(text)
  {
    sections := map[];
    var current := "";
    var content: seq<string> := [];
    var lines := SplitOn(text, '\n');
    ghost var kinds := ClassifyLines(lines);
    for i := 0 to |lines|
      invariant Parse(sections, current, content) == ConsumeAll(Start, kinds[..i])
    {
      var line := lines[i];
      ConsumeAllStep(kinds, i);
      assert kinds[i] == ClassifyLine(line);
      if IsHeader(line) {
        if current != "" {
          sections := sections[current := Strip(Join(content, "\n"))];
        }
        current := HeaderName(line);
        content := [];
      } else if current != "" {
        content := content + [line];
      }
    }
    assert kinds[..|lines|] == kinds;
    if current != "" {
      sections := sections[current := Strip(Join(content, "\n"))];
    }
  }

  /** Reading one more line is one more step of the parser. */
  lemma ConsumeAllStep(lines: seq<Line>, i: nat)
    requires i < |lines|
    ensures ConsumeAll(Start, lines[..i + 1]) == Consume(ConsumeAll(Start, lines[..i]), lines[i])
  {
    assert lines[..i + 1][..i] == lines[..i];
  }

  /** The names of the header lines whose name is not empty. */
  ghost function HeaderNames(lines: seq<Line>): set<string>
  {
    set i | 0 <= i < |lines| && lines[i].Header? && lines[i].name != "" :: lines[i].name
  }

  lemma HeaderNamesSnoc(lines: seq<Line>, line: Line)
    ensures HeaderNames(lines + [line]) ==
      HeaderNames(lines) + (if line.Header? && line.name != "" then {line.name} else {})
  {
    var all := lines + [line];
    forall k | k in HeaderNames(all)
      ensures k in HeaderNames(lines) || (line.Header? && line.name == k && k != "")
    {
      var i :| 0 <= i < |all| && all[i].Header? && all[i].name != "" && all[i].name == k;
      if i < |lines| {
        assert all[i] == lines[i];
      }
    }
    forall k | k in HeaderNames(lines) ensures k in HeaderNames(all) {
      var i :| 0 <= i < |lines| && lines[i].Header? && lines[i].name != "" && lines[i].name == k;
      assert all[i] == lines[i];
    }
    if line.Header? && line.name != "" {
      assert all[|lines|] == line;
    }
  }

  /** One line adds its name to the sections named so far when it is a header with a non-empty name. */
  lemma ConsumeNames(st: Parse, line: Line)
    ensures Closed(Consume(st, line)).Keys ==
      Closed(st).Keys + (if line.Header? && line.name != "" then {line.name} else {})
  {
    match line
    case Header(name) =>
      HeaderKeys(st, name);
    case Body(text) =>
      assert Consume(st, line) == if st.current != "" then st.(content := st.content + [text]) else st;
      ClosedKeys(st);
      ClosedKeys(Consume(st, line));
  }

  /** A header closes the open section and opens one under its name. */
  lemma HeaderKeys(st: Parse, name: string)
    ensures Closed(Parse(Closed(st), name, [])).Keys == Closed(st).Keys + (if name != "" then {name} else {})
  {
    ClosedKeys(Parse(Closed(st), name, []));
  }

  /** The sections named after closing: those closed so far and the open one, if any. */
  lemma ClosedKeys(st: Parse)
    ensures Closed(st).Keys == st.sections.Keys + (if st.current != "" then {st.current} else {})
  {
  }

  /** The closed sections and the open one together are named by the non-empty headers read so far. */
  lemma {:induction false} ConsumeAllNames(lines: seq<Line>)
    ensures Closed(ConsumeAll(Start, lines)).Keys == HeaderNames(lines)
    decreases |lines|
  {
    if lines != [] {
      var init := lines[..|lines| - 1];
      var line := lines[|lines| - 1];
      assert init + [line] == lines;
      ConsumeAllNames(init);
      HeaderNamesSnoc(init, line);
      ConsumeNames(ConsumeAll(Start, init), line);
    }
  }

  predicate NoHeader(lines: seq<Line>)
  {
    forall i :: 0 <= i < |lines| ==> lines[i].Body?
  }

  /** The raw text of body lines. */
  function Texts(lines: seq<Line>): (r: seq<string>)
    requires NoHeader(lines)
    ensures |r| == |lines|
    ensures forall i :: 0 <= i < |lines| ==> r[i] == lines[i].text
  {
    seq(|lines|, i requires 0 <= i < |lines| => lines[i].text)
  }

  /** Reading `a` and then `b` is reading `a + b`. */
  lemma {:induction false} ConsumeAllAppend(st: Parse, a: seq<Line>, b: seq<Line>)
    ensures ConsumeAll(st, a + b) == ConsumeAll(ConsumeAll(st, a), b)
    decreases |b|
  {
    if b == [] {
      assert a + b == a;
    } else {
      ConsumeAllAppend(st, a, b[..|b| - 1]);
      assert (a + b)[..|a + b| - 1] == a + b[..|b| - 1];
      assert (a + b)[|a + b| - 1] == b[|b| - 1];
    }
  }

  /** Before the first header nothing is collected. */
  lemma {:induction false} PreambleIgnored(a: seq<Line>)
    requires NoHeader(a)
    ensures ConsumeAll(Start, a) == Start
    decreases |a|
  {
    if a != [] {
      PreambleIgnored(a[..|a| - 1]);
    }
  }

  /** Lines before the first header are discarded. */
  lemma PreambleDiscarded(a: seq<Line>, b: seq<Line>)
    requires NoHeader(a)
    ensures SectionsOf(a + b) == SectionsOf(b)
  {
    ConsumeAllAppend(Start, a, b);
    PreambleIgnored(a);
  }

  /** Inside an open section every body line is collected. */
  lemma {:induction false} CollectBody(m: map<string, string>, name: string, b: seq<Line>)
    requires name != "" && NoHeader(b)
    ensures ConsumeAll(Parse(m, name, []), b) == Parse(m, name, Texts(b))
    decreases |b|
  {
    if b != [] {
      var init := b[..|b| - 1];
      CollectBody(m, name, init);
      assert Texts(init) + [b[|b| - 1].text] == Texts(b);
    }
  }

  /**
   * The last header's section holds the stripped text of every line after
   * it, replacing whatever an earlier section of the same name held; the
   * other sections are those closed before it.
   */
  lemma LastSection(a: seq<Line>, name: string, b: seq<Line>)
    requires name != "" && NoHeader(b)
    ensures SectionsOf(a + [Header(name)] + b) ==
      Closed(ConsumeAll(Start, a))[name := Strip(Join(Texts(b), "\n"))]
  {
    var m := Closed(ConsumeAll(Start, a));
    var headed := a + [Header(name)];
    assert ConsumeAll(Start, headed + b) == Parse(m, name, Texts(b)) by {
      ConsumeAllAppend(Start, headed, b);
      HeaderOpens(a, name);
      CollectBody(m, name, b);
    }
  }

  /** A header closes the open section and opens an empty one under its name. */
  lemma HeaderOpens(a: seq<Line>, name: string)
    ensures ConsumeAll(Start, a + [Header(name)]) == Parse(Closed(ConsumeAll(Start, a)), name, [])
  {
    assert (a + [Header(name)])[..|a|] == a;
  }

  // ---------------------------------------------------------------------
  // Default case focus

  /** The index of the first entry with the highest score (what `max` over `dict.items()` picks). */
  function FirstMaxIndex(t: Table): (i: nat)
    requires |t| > 0
    ensures i < |t|
    ensures forall j :: 0 <= j < |t| ==> t[j].1 <= t[i].1
    ensures forall j :: 0 <= j < i ==> t[j].1 < t[i].1
    decreases |t|
  {
    if |t| == 1 then 0
    else
      var k := FirstMaxIndex(t[..|t| - 1]);
      if t[|t| - 1].1 > t[k].1 then |t| - 1 else k
  }

  /** The case focus of `analyze_case_study`: the given one unless it is falsy, else the highest component. */
  function CaseFocus(given: Option<string>, breakdown: Table): (r: Option<string>)
    ensures given.Some? && given.value != "" ==> r == given
    ensures !(given.Some? && given.value != "") ==> (r.None? <==> breakdown == [])
    ensures !(given.Some? && given.value != "") && breakdown != [] ==>
      exists i :: 0 <= i < |breakdown| && r == Some(breakdown[i].0)
        && (forall j :: 0 <= j < |breakdown| ==> breakdown[j].1 <= breakdown[i].1)
        && (forall j :: 0 <= j < i ==> breakdown[j].1 < breakdown[i].1)
  {
    if given.Some? && given.value != "" then given
    else if breakdown == [] then None
    else
      var i := FirstMaxIndex(breakdown);
      Some(breakdown[i].0)
  }
}
