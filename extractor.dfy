/**
 * The metrics extractor (`metrics_extractor.py`): it reads claims and gaps
 * out of a reply's text. Text is split into sentences on runs of `.`, `!`
 * and `?`; each stripped sentence is kept as a claim or as a gap by keyword
 * and length rules.
 *
 * The citation regular expressions are parameters: `hasCitation(s)` is
 * whether any citation pattern occurs in `s`, `citations(s)` the matches.
 */
module Extractor {
  import opened Options
  import opened Text

  type CitationCheck = string -> bool
  type CitationList = string -> seq<string>

  // ---------------------------------------------------------------------
  // Sentences

  predicate IsTerminator(c: char) { c == '.' || c == '!' || c == '?' }

  /**
   * `re.split(r'[.!?]+', text)`: the pieces between maximal runs of
   * terminators, including the empty pieces before a leading run and after a
   * trailing one.
   */
  function Sentences(text: string): (pieces: seq<string>)
    ensures |pieces| >= 1
    decreases |text|
  {
    if text == [] then [""]
    else
      var init := text[..|text| - 1];
      var c := text[|text| - 1];
      var prev := Sentences(init);
      if !IsTerminator(c) then prev[..|prev| - 1] + [prev[|prev| - 1] + [c]]
      else if init != [] && IsTerminator(init[|init| - 1]) then prev
      else prev + [""]
  }

  predicate NoTerminator(s: string)
  {
    forall i :: 0 <= i < |s| ==> !IsTerminator(s[i])
  }

  function Concat(pieces: seq<string>): string
  {
    if pieces == [] then [] else Concat(pieces[..|pieces| - 1]) + pieces[|pieces| - 1]
  }

  function WithoutTerminators(s: string): (r: string)
  {
    if s == [] then []
    else WithoutTerminators(s[..|s| - 1]) + (if IsTerminator(s[|s| - 1]) then [] else [s[|s| - 1]])
  }

  /** No piece holds a terminator, and the pieces together are the text with its terminators removed. */
  lemma SentencesSplit(text: string)
    ensures forall k :: 0 <= k < |Sentences(text)| ==> NoTerminator(Sentences(text)[k])
    ensures Concat(Sentences(text)) == WithoutTerminators(text)
  {
    PiecesHaveNoTerminator(text);
    PiecesConcat(text);
  }

  lemma {:induction false} PiecesHaveNoTerminator(text: string)
    ensures forall k :: 0 <= k < |Sentences(text)| ==> NoTerminator(Sentences(text)[k])
    decreases |text|
  {
    if text != [] {
      var init := text[..|text| - 1];
      PiecesHaveNoTerminator(init);
      var prev := Sentences(init);
      var c := text[|text| - 1];
      if !IsTerminator(c) {
        var last := prev[|prev| - 1] + [c];
        assert NoTerminator(last) by {
          assert NoTerminator(prev[|prev| - 1]);
        }
      }
    }
  }

  lemma {:induction false} PiecesConcat(text: string)
    ensures Concat(Sentences(text)) == WithoutTerminators(text)
    decreases |text|
  {
    if text != [] {
      var init := text[..|text| - 1];
      var c := text[|text| - 1];
      var prev := Sentences(init);
      PiecesConcat(init);
      if !IsTerminator(c) {
        ExtendLastPiece(prev, c);
      } else if !(init != [] && IsTerminator(init[|init| - 1])) {
        assert (prev + [""])[..|prev|] == prev;
      }
    }
  }

  /** Appending a character to the last piece appends it to the concatenation. */
  lemma ExtendLastPiece(prev: seq<string>, c: char)
    requires prev != []
    ensures Concat(prev[..|prev| - 1] + [prev[|prev| - 1] + [c]]) == Concat(prev) + [c]
  {
    var n := |prev|;
    var next := prev[..n - 1] + [prev[n - 1] + [c]];
    assert next[..n - 1] == prev[..n - 1];
    assert Concat(prev) == Concat(prev[..n - 1]) + prev[n - 1];
  }

  /** Stripping only removes characters, so what it leaves holds no terminator either. */
  lemma StripKeepsNoTerminator(s: string)
    requires NoTerminator(s)
    ensures NoTerminator(Strip(s))
  {
    var lo := StripIsInfix(s);
    var r := Strip(s);
    forall i | 0 <= i < |r| ensures !IsTerminator(r[i]) {
      assert r[i] == s[lo + i];
    }
  }

  // ---------------------------------------------------------------------
  // Claims

  const QuestionWords: seq<string> := ["what", "how", "why", "when", "where", "can you", "would you"]

  predicate HasDigit(s: string)
  {
    exists i :: 0 <= i < |s| && IsDigit(s[i])
  }

  /**
   * `_is_claim`: not opening with a question word, and holding a digit or
   * more than five words. The question-word test is a prefix test on the
   * lower-cased text, so any text opening with "how" in any casing (such as
   * "However") is no claim.
   */
  predicate IsClaim(text: string): (r: bool)
    ensures r ==> HasDigit(text) || |Words(text)| > 5
    ensures |text| >= 3 && Lower(text[..3]) == "how" ==> !r
  {
    if |text| >= 3 && Lower(text[..3]) == "how" then
      assert Lower(text)[..3] == Lower(text[..3]);
      assert StartsWith(Lower(text), QuestionWords[1]);
      !StartsWithAny(Lower(text), QuestionWords) && (HasDigit(text) || |Words(text)| > 5)
    else
      !StartsWithAny(Lower(text), QuestionWords) && (HasDigit(text) || |Words(text)| > 5)
  }

  /**
   * The claim rule both ways: a text is a claim exactly when no question
   * word opens it, in any casing, and it holds a digit or more than five words.
   */
  lemma IsClaimExactly(text: string)
    ensures IsClaim(text) <==>
      && (forall q :: q in QuestionWords && |q| <= |text| ==> Lower(text[..|q|]) != q)
      && (HasDigit(text) || |Words(text)| > 5)
  {
    LowerOfPrefixes(text);
  }

  /** Lower-casing a prefix is the prefix of the lower-cased text. */
  lemma LowerOfPrefixes(text: string)
    ensures forall n :: 0 <= n <= |text| ==> Lower(text)[..n] == Lower(text[..n])
  {
    forall n | 0 <= n <= |text| ensures Lower(text)[..n] == Lower(text[..n]) {
      assert forall i :: 0 <= i < n ==> Lower(text)[..n][i] == Lower(text[..n])[i];
    }
  }

  /** Whatever the casing of its opening, a text that opens with a question word is no claim. */
  lemma QuestionIsNoClaim(text: string, q: string)
    requires q in QuestionWords
    requires |q| <= |text| && Lower(text[..|q|]) == q
    ensures !IsClaim(text)
  {
    assert Lower(text)[..|q|] == Lower(text[..|q|]);
    assert StartsWith(Lower(text), q);
  }

  /** The question-word test is a prefix test, so a sentence opening with "However" is never a claim. */
  lemma HoweverIsNoClaim(rest: string)
    ensures !IsClaim("However" + rest)
  {
    var text := "However" + rest;
    assert text[..3] == "How";
    QuestionIsNoClaim(text, "how");
  }

  datatype Claim = Claim(claim: string, hasCitation: bool, citations: seq<string>, isVerified: bool)

  /** A stripped sentence is kept when it has at least 20 characters and reads as a claim. */
  predicate KeptAsClaim(sentence: string)
  {
    |sentence| >= 20 && IsClaim(sentence)
  }

  function ClaimOf(sentence: string, hasCitation: CitationCheck, citations: CitationList): Claim
  {
    Claim(sentence, hasCitation(sentence), citations(sentence), hasCitation(sentence))
  }

  /** Every claim reads as a claim, has at least 20 characters, and is verified exactly when cited. */
  function ClaimsOf(pieces: seq<string>, hasCitation: CitationCheck, citations: CitationList): (r: seq<Claim>)
    ensures forall c :: c in r ==>
      && KeptAsClaim(c.claim)
      && c.isVerified == c.hasCitation == hasCitation(c.claim)
      && c.citations == citations(c.claim)
    decreases |pieces|
  {
    if pieces == [] then []
    else
      var s := Strip(pieces[|pieces| - 1]);
      ClaimsOf(pieces[..|pieces| - 1], hasCitation, citations)
        + (if KeptAsClaim(s) then [ClaimOf(s, hasCitation, citations)] else [])
  }

  /** `extract_claims_with_citations`. */
  method ExtractClaimsWithCitations(text: string, hasCitation: CitationCheck, citations: CitationList)
    returns (claims: seq<Claim>)
    ensures claims == ClaimsOf(Sentences(text), hasCitation, citations)
  {
    var sentences := Sentences(text);
    claims := [];
    for i := 0 to |sentences|
      invariant claims == ClaimsOf(sentences[..i], hasCitation, citations)
    {
      assert sentences[..i + 1][..i] == sentences[..i];
      var sentence := Strip(sentences[i]);
      if |sentence| < 20 {
        continue;
      }
      if !IsClaim(sentence) {
        continue;
      }
      var has := hasCitation(sentence);
      var found := citations(sentence);
      claims := claims + [Claim(sentence, has, found, has)];
    }
    assert sentences[..|sentences|] == sentences;
  }

  /** Every claim is one of the pieces, stripped. */
  lemma {:induction false} ClaimsFromPieces(pieces: seq<string>, hasCitation: CitationCheck, citations: CitationList)
    ensures forall c :: c in ClaimsOf(pieces, hasCitation, citations) ==>
      exists k :: 0 <= k < |pieces| && Strip(pieces[k]) == c.claim
    decreases |pieces|
  {
    if pieces != [] {
      var init := pieces[..|pieces| - 1];
      ClaimsFromPieces(init, hasCitation, citations);
      forall c | c in ClaimsOf(init, hasCitation, citations)
        ensures exists k :: 0 <= k < |pieces| && Strip(pieces[k]) == c.claim
      {
        var k :| 0 <= k < |init| && Strip(init[k]) == c.claim;
        assert pieces[k] == init[k];
      }
    }
  }

  /** Every piece that strips to a kept sentence yields a claim. */
  lemma {:induction false} ClaimsComplete(pieces: seq<string>, hasCitation: CitationCheck, citations: CitationList, k: nat)
    requires k < |pieces| && KeptAsClaim(Strip(pieces[k]))
    ensures ClaimOf(Strip(pieces[k]), hasCitation, citations) in ClaimsOf(pieces, hasCitation, citations)
    decreases |pieces|
  {
    var init := pieces[..|pieces| - 1];
    if k < |pieces| - 1 {
      assert init[k] == pieces[k];
      ClaimsComplete(init, hasCitation, citations, k);
    }
  }

  /** The claims of a text hold no sentence terminator. */
  lemma ClaimsHaveNoTerminator(text: string, hasCitation: CitationCheck, citations: CitationList)
    ensures forall c :: c in ClaimsOf(Sentences(text), hasCitation, citations) ==> NoTerminator(c.claim)
  {
    var pieces := Sentences(text);
    SentencesSplit(text);
    ClaimsFromPieces(pieces, hasCitation, citations);
    forall c | c in ClaimsOf(pieces, hasCitation, citations) ensures NoTerminator(c.claim) {
      var k :| 0 <= k < |pieces| && Strip(pieces[k]) == c.claim;
      StripKeepsNoTerminator(pieces[k]);
    }
  }

  /** `check_claim_verification`: an empty citation list fails, any other passes. */
  function CheckClaimVerification(claim: string, citations: seq<string>): (verified: bool)
    ensures verified <==> citations != []
  {
    if citations == [] then false else |citations| > 0
  }

  // ---------------------------------------------------------------------
  // Gaps

  const GapKeywords: seq<string> := ["gap", "lack", "missing", "insufficient", "under-represented",
                                     "underrepresented", "bias", "disparity", "inequality", "limitation"]

  const DemographicKeywords: seq<string> := [
    "demographic", "race", "racial", "ethnic", "ethnicity", "minority",
    "african american", "black", "hispanic", "latino", "asian", "white",
    "under-represented", "underrepresented", "demographic gap",
    "population bias", "demographic bias"]

  const GeographicKeywords: seq<string> := [
    "geographic", "geographical", "region", "country", "continent",
    "US-only", "US only", "United States", "Europe", "Asia", "Africa",
    "geographic gap", "geographical gap", "geographic bias",
    "location bias", "regional", "global", "international"]

  /** The geographic keywords without capitals: the only ones a lower-cased text can contain. */
  const LowerGeographicKeywords: seq<string> := [
    "geographic", "geographical", "region", "country", "continent",
    "geographic gap", "geographical gap", "geographic bias",
    "location bias", "regional", "global", "international"]

  predicate MentionsGap(sentence: string)
  {
    ContainsAny(Lower(sentence), GapKeywords)
  }

  predicate FlagsDemographic(text: string)
  {
    ContainsAny(Lower(text), DemographicKeywords)
  }

  predicate FlagsGeographic(text: string)
  {
    ContainsAny(Lower(text), GeographicKeywords)
  }

  /**
   * The keywords "US-only", "US only", "United States", "Europe", "Asia" and
   * "Africa" are tested against lower-cased text and so never match: the
   * geographic flag is decided by the lower-case keywords alone.
   */
  lemma GeographicFlagUsesLowerKeywords(text: string)
    ensures FlagsGeographic(text) <==> ContainsAny(Lower(text), LowerGeographicKeywords)
  {
    var t := Lower(text);
    LowerNeverContainsUpper(text, "US-only", 0);
    LowerNeverContainsUpper(text, "US only", 0);
    LowerNeverContainsUpper(text, "United States", 0);
    LowerNeverContainsUpper(text, "Europe", 0);
    LowerNeverContainsUpper(text, "Asia", 0);
    LowerNeverContainsUpper(text, "Africa", 0);
    if FlagsGeographic(text) {
      var k :| k in GeographicKeywords && Contains(t, k);
      assert k in LowerGeographicKeywords;
    }
    if ContainsAny(t, LowerGeographicKeywords) {
      var k :| k in LowerGeographicKeywords && Contains(t, k);
      assert k in GeographicKeywords;
    }
  }

  /**
   * The analysis summaries `_gap_in_analysis_results` reads: `None` when the
   * section is absent, otherwise its total (0 when the summary or the total
   * is missing).
   */
  datatype AnalysisResults = AnalysisResults(datasetTotal: Option<int>, subgroupTotal: Option<int>,
                                             mitigationTotal: Option<int>)

  function TotalOf(section: Option<int>): int
  {
    if section.Some? then section.value else 0
  }

  /** `_gap_in_analysis_results`: the gap text is not consulted. */
  predicate GapInAnalysis(gapText: string, results: AnalysisResults)
  {
    if results.datasetTotal.Some? && TotalOf(results.datasetTotal) > 0 then true
    else if results.subgroupTotal.Some? && TotalOf(results.subgroupTotal) > 0 then true
    else results.mitigationTotal.Some? && TotalOf(results.mitigationTotal) > 0
  }

  /** The check holds iff some summary total is positive, whatever the gap says. */
  lemma GapInAnalysisRule(gapText: string, other: string, results: AnalysisResults)
    ensures GapInAnalysis(gapText, results) <==>
      TotalOf(results.datasetTotal) > 0 || TotalOf(results.subgroupTotal) > 0 || TotalOf(results.mitigationTotal) > 0
    ensures GapInAnalysis(gapText, results) == GapInAnalysis(other, results)
  {
  }

  datatype Gap = Gap(description: string, flagsDemographic: bool, flagsGeographic: bool,
                     hasSources: bool, sources: seq<string>)

  function GapOf(sentence: string, analysis: Option<AnalysisResults>,
                 hasCitation: CitationCheck, citations: CitationList): Gap
  {
    var cited := hasCitation(sentence);
    var sources := if cited then citations(sentence) else [];
    var hasSources := if analysis.Some? then cited || GapInAnalysis(sentence, analysis.value) else cited;
    Gap(sentence, FlagsDemographic(sentence), FlagsGeographic(sentence), hasSources, sources)
  }

  /**
   * Every gap is a stripped piece that mentions a gap keyword, its flags are
   * the keyword tests, and it lists sources only when it cites some itself.
   */
  function GapsOf(pieces: seq<string>, analysis: Option<AnalysisResults>,
                  hasCitation: CitationCheck, citations: CitationList): (r: seq<Gap>)
    ensures forall g :: g in r ==>
      && MentionsGap(g.description)
      && g.flagsDemographic == FlagsDemographic(g.description)
      && g.flagsGeographic == FlagsGeographic(g.description)
      && (g.sources != [] ==> hasCitation(g.description))
      && (hasCitation(g.description) ==> g.hasSources)
    ensures forall g :: g in r ==>
      && g.sources == (if hasCitation(g.description) then citations(g.description) else [])
      && g.hasSources == (hasCitation(g.description) || (analysis.Some? && GapInAnalysis(g.description, analysis.value)))
    ensures analysis.None? ==> forall g :: g in r ==>
      g.hasSources == hasCitation(g.description) && g.sources == (if g.hasSources then citations(g.description) else [])
    decreases |pieces|
  {
    if pieces == [] then []
    else
      var s := Strip(pieces[|pieces| - 1]);
      GapsOf(pieces[..|pieces| - 1], analysis, hasCitation, citations)
        + (if MentionsGap(s) then [GapOf(s, analysis, hasCitation, citations)] else [])
  }

  /** `extract_gaps`. */
  method ExtractGaps(text: string, analysis: Option<AnalysisResults>,
                     hasCitation: CitationCheck, citations: CitationList) returns (gaps: seq<Gap>)
    ensures gaps == GapsOf(Sentences(text), analysis, hasCitation, citations)
  {
    var sentences := Sentences(text);
    gaps := [];
    for i := 0 to |sentences|
      invariant gaps == GapsOf(sentences[..i], analysis, hasCitation, citations)
    {
      GapsOfStep(sentences, i, analysis, hasCitation, citations);
      var sentence := Strip(sentences[i]);
      if !MentionsGap(sentence) {
        continue;
      }
      var flagsDemographic := FlagsDemographic(sentence);
      var flagsGeographic := FlagsGeographic(sentence);
      var hasSources := hasCitation(sentence);
      var sources := if hasSources then citations(sentence) else [];
      if analysis.Some? {
        hasSources := hasSources || GapInAnalysis(sentence, analysis.value);
      }
      gaps := gaps + [Gap(sentence, flagsDemographic, flagsGeographic, hasSources, sources)];
    }
    assert sentences[..|sentences|] == sentences;
  }

  /** Every piece that, stripped, mentions a gap keyword yields its gap. */
  lemma {:induction false} GapsComplete(pieces: seq<string>, analysis: Option<AnalysisResults>,
                                        hasCitation: CitationCheck, citations: CitationList, k: nat)
    requires k < |pieces| && MentionsGap(Strip(pieces[k]))
    ensures GapOf(Strip(pieces[k]), analysis, hasCitation, citations) in GapsOf(pieces, analysis, hasCitation, citations)
    decreases |pieces|
  {
    var init := pieces[..|pieces| - 1];
    if k < |pieces| - 1 {
      assert init[k] == pieces[k];
      GapsComplete(init, analysis, hasCitation, citations, k);
    }
  }

  /** One more piece adds its gap, if it mentions one. */
  lemma GapsOfStep(pieces: seq<string>, i: nat, analysis: Option<AnalysisResults>,
                   hasCitation: CitationCheck, citations: CitationList)
    requires i < |pieces|
    ensures var s := Strip(pieces[i]);
      GapsOf(pieces[..i + 1], analysis, hasCitation, citations) ==
        GapsOf(pieces[..i], analysis, hasCitation, citations) + (if MentionsGap(s) then [GapOf(s, analysis, hasCitation, citations)] else [])
  {
    assert pieces[..i + 1][..i] == pieces[..i];
  }

  /** What supplying analysis results does to one gap found without them. */
  function WithAnalysis(g: Gap, results: AnalysisResults): Gap
  {
    g.(hasSources := g.hasSources || GapInAnalysis(g.description, results))
  }

  function AllWithAnalysis(gaps: seq<Gap>, results: AnalysisResults): (r: seq<Gap>)
    ensures |r| == |gaps|
    ensures forall k :: 0 <= k < |gaps| ==> r[k] == WithAnalysis(gaps[k], results)
  {
    if gaps == [] then [] else AllWithAnalysis(gaps[..|gaps| - 1], results) + [WithAnalysis(gaps[|gaps| - 1], results)]
  }

  /**
   * Supplying analysis results keeps the same gaps with the same descriptions,
   * flags and sources, and only ors each `hasSources` with the analysis check.
   */
  lemma {:induction false} AnalysisOnlyAddsSources(pieces: seq<string>, results: AnalysisResults,
                                                   hasCitation: CitationCheck, citations: CitationList)
    ensures GapsOf(pieces, Some(results), hasCitation, citations)
         == AllWithAnalysis(GapsOf(pieces, None, hasCitation, citations), results)
    decreases |pieces|
  {
    if pieces != [] {
      var init := pieces[..|pieces| - 1];
      var before := GapsOf(init, None, hasCitation, citations);
      AnalysisOnlyAddsSources(init, results, hasCitation, citations);
      var s := Strip(pieces[|pieces| - 1]);
      if MentionsGap(s) {
        assert (before + [GapOf(s, None, hasCitation, citations)])[..|before|] == before;
      } else {
        assert before + [] == before;
      }
    }
  }

  /** Analysis results with no positive total change nothing. */
  lemma {:induction false} EmptyAnalysisChangesNothing(gaps: seq<Gap>, results: AnalysisResults)
    requires TotalOf(results.datasetTotal) <= 0 && TotalOf(results.subgroupTotal) <= 0
    requires TotalOf(results.mitigationTotal) <= 0
    ensures AllWithAnalysis(gaps, results) == gaps
    decreases |gaps|
  {
    if gaps != [] {
      var init := gaps[..|gaps| - 1];
      EmptyAnalysisChangesNothing(init, results);
      assert init + [gaps[|gaps| - 1]] == gaps;
    }
  }
}
