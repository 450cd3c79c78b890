/**
 * The literature-search helpers: title-similarity deduplication of the
 * combined search results, the final truncation of `search_all`, and the
 * numbered text block handed to the language model.
 *
 * The three HTTP searches are not modelled: each source's outcome (its
 * papers, or the exception it raised) is an input.
 */
module Research {
  import opened Options
  import opened Text

  /**
   * A paper record. `title` and `source` are None when the key is absent
   * (their defaults differ between callers); the other fields read as ""
   * when absent.
   */
  datatype Paper = Paper(title: Option<string>, year: string, abstractText: string, url: string, source: Option<string>)

  function TitleOr(p: Paper, default: string): string
  {
    if p.title.Some? then p.title.value else default
  }

  /** `paper.get("title", "").lower().strip()`. */
  function NormalTitle(p: Paper): (r: string)
    ensures NoUpper(r)
    ensures r == [] || (!IsSpace(r[0]) && !IsSpace(r[|r| - 1]))
  {
    var lower := Lower(TitleOr(p, ""));
    StripKeepsNoUpper(lower);
    Strip(lower)
  }

  /** `set(t.split())`. */
  function WordSet(t: string): set<string>
  {
    set w | w in Words(t)
  }

  function MaxNat(a: nat, b: nat): nat
  {
    if a >= b then a else b
  }

  /** The share of the larger word set that the two word sets have in common. */
  function Overlap(wa: set<string>, wb: set<string>): real
    requires |wa| > 0 && |wb| > 0
  {
    (|wa * wb| as real) / (MaxNat(|wa|, |wb|) as real)
  }

  /** Two normalised titles are near-duplicates: more than 80% of the larger word set is shared. */
  predicate Similar(a: string, b: string): (r: bool)
    ensures r ==> a != "" && b != "" && WordSet(a) * WordSet(b) != {}
  {
    if a == "" || b == "" then false
    else
      var wa, wb := WordSet(a), WordSet(b);
      OverlapOfDisjoint(wa, wb);
      |wa| > 0 && |wb| > 0 && Overlap(wa, wb) > 0.8
  }

  /** Word sets with nothing in common have no overlap. */
  lemma OverlapOfDisjoint(wa: set<string>, wb: set<string>)
    ensures |wa| > 0 && |wb| > 0 && wa * wb == {} ==> Overlap(wa, wb) == 0.0
  {
  }

  /**
   * The deduplication, for any normalisation `key` of a paper's title and
   * any nearness test `near` between two normalised titles, starting from
   * the titles in `seen`: a paper is kept when its normalised title is
   * non-blank and near no title kept so far, and its title is then
   * remembered.
   */
  function DedupBy(key: Paper -> string, near: (string, string) -> bool, papers: seq<Paper>, seen: set<string>): seq<Paper>
  {
    if papers == [] then []
    else
      var t := key(papers[0]);
      if KeepsBy(near, t, seen) then [papers[0]] + DedupBy(key, near, papers[1..], seen + {t})
      else DedupBy(key, near, papers[1..], seen)
  }

  predicate NearAny(near: (string, string) -> bool, t: string, seen: set<string>)
  {
    exists s :: s in seen && near(t, s)
  }

  predicate KeepsBy(near: (string, string) -> bool, t: string, seen: set<string>)
  {
    !NearAny(near, t, seen) && t != ""
  }

  /** `_deduplicate_papers` with its own normalisation and similarity. */
  function Dedup(papers: seq<Paper>, seen: set<string>): (r: seq<Paper>)
    ensures IsSubsequence(r, papers)
    ensures forall j :: 0 <= j < |r| ==> NormalTitle(r[j]) != "" && !NearAny(Similar, NormalTitle(r[j]), seen)
    ensures forall i, j :: 0 <= i < j < |r| ==> !Similar(NormalTitle(r[j]), NormalTitle(r[i]))
    ensures forall i, j :: 0 <= i < j < |r| ==> NormalTitle(r[i]) != NormalTitle(r[j])
  {
    DedupIsSubsequence(NormalTitle, Similar, papers, seen);
    DedupKeepsDissimilar(NormalTitle, Similar, papers, seen);
    NormalTitlesNearThemselves();
    KeptTitlesDistinct(NormalTitle, Similar, papers, seen);
    DedupBy(NormalTitle, Similar, papers, seen)
  }

  function KeptTitles(key: Paper -> string, papers: seq<Paper>): set<string>
  {
    set p | p in papers :: key(p)
  }

  /** The inner `for seen in seen_titles` scan. */
  method FindSimilar(t: string, seen: set<string>) returns (dup: bool)
    ensures dup == NearAny(Similar, t, seen)
  {
    dup := false;
    var rest := seen;
    while rest != {} && !dup
      invariant rest <= seen
      invariant dup ==> NearAny(Similar, t, seen)
      invariant !dup ==> forall s :: s in seen - rest ==> !Similar(t, s)
      decreases |rest|
    {
      var s :| s in rest;
      if t != "" && s != "" {
        var wt := WordSet(t);
        var ws := WordSet(s);
        if |wt| > 0 && |ws| > 0 {
          var similarity := (|wt * ws| as real) / (MaxNat(|wt|, |ws|) as real);
          if similarity > 0.8 {
            dup := true;
          }
        }
      }
      rest := rest - {s};
    }
  }

  /** `_deduplicate_papers`. */
  method DeduplicatePapers(papers: seq<Paper>) returns (unique: seq<Paper>)
    ensures unique == Dedup(papers, {})
  {
    var seen: set<string> := {};
    unique := [];
    assert papers[0..] == papers;
    for i := 0 to |papers|
      invariant unique + DedupBy(NormalTitle, Similar, papers[i..], seen) == Dedup(papers, {})
    {
      var t := NormalTitle(papers[i]);
      var dup := FindSimilar(t, seen);
      DedupByAdvance(NormalTitle, Similar, papers, i, unique, seen, Dedup(papers, {}));
      if !dup && t != "" {
        seen := seen + {t};
        unique := unique + [papers[i]];
      }
    }
  }

  /** One step of the loop of `_deduplicate_papers`: the i-th paper is kept or skipped as `DedupBy` says. */
  lemma DedupByAdvance(key: Paper -> string, near: (string, string) -> bool, papers: seq<Paper>, i: nat,
                       kept: seq<Paper>, seen: set<string>, goal: seq<Paper>)
    requires i < |papers|
    requires kept + DedupBy(key, near, papers[i..], seen) == goal
    ensures var t := key(papers[i]);
      if KeepsBy(near, t, seen) then (kept + [papers[i]]) + DedupBy(key, near, papers[i + 1..], seen + {t}) == goal
      else kept + DedupBy(key, near, papers[i + 1..], seen) == goal
  {
    assert papers[i..][0] == papers[i] && papers[i..][1..] == papers[i + 1..];
    var t := key(papers[i]);
    if KeepsBy(near, t, seen) {
      assert kept + ([papers[i]] + DedupBy(key, near, papers[i + 1..], seen + {t})) == (kept + [papers[i]]) + DedupBy(key, near, papers[i + 1..], seen + {t});
    }
  }

  /** `a` can be obtained from `b` by deleting elements. */
  predicate IsSubsequence<T(==)>(a: seq<T>, b: seq<T>)
    decreases |b|
  {
    a == [] || (b != [] && ((a[0] == b[0] && IsSubsequence(a[1..], b[1..])) || IsSubsequence(a, b[1..])))
  }

  /** The kept papers are a subsequence of the input: nothing is reordered or invented. */
  lemma {:induction false} DedupIsSubsequence(key: Paper -> string, near: (string, string) -> bool,
                                              papers: seq<Paper>, seen: set<string>)
    ensures IsSubsequence(DedupBy(key, near, papers, seen), papers)
    decreases |papers|
  {
    if papers != [] {
      var t := key(papers[0]);
      if KeepsBy(near, t, seen) {
        DedupIsSubsequence(key, near, papers[1..], seen + {t});
        assert DedupBy(key, near, papers, seen) == [papers[0]] + DedupBy(key, near, papers[1..], seen + {t});
      } else {
        DedupIsSubsequence(key, near, papers[1..], seen);
      }
    }
  }

  /**
   * Every kept paper has a non-blank title that is near neither a title
   * seen beforehand nor the title of any paper kept before it.
   */
  lemma {:induction false} DedupKeepsDissimilar(key: Paper -> string, near: (string, string) -> bool,
                                                papers: seq<Paper>, seen: set<string>)
    ensures forall j :: 0 <= j < |DedupBy(key, near, papers, seen)| ==>
      && key(DedupBy(key, near, papers, seen)[j]) != ""
      && !NearAny(near, key(DedupBy(key, near, papers, seen)[j]), seen)
    ensures forall i, j :: 0 <= i < j < |DedupBy(key, near, papers, seen)| ==>
      !near(key(DedupBy(key, near, papers, seen)[j]), key(DedupBy(key, near, papers, seen)[i]))
    decreases |papers|
  {
    if papers != [] {
      var t := key(papers[0]);
      if KeepsBy(near, t, seen) {
        var seen' := seen + {t};
        DedupKeepsDissimilar(key, near, papers[1..], seen');
        var r := DedupBy(key, near, papers, seen);
        var rest := DedupBy(key, near, papers[1..], seen');
        assert r == [papers[0]] + rest;
        forall j | 0 < j < |r|
          ensures key(r[j]) != ""
          ensures !NearAny(near, key(r[j]), seen)
        {
          assert r[j] == rest[j - 1];
        }
        forall i, j | 0 <= i < j < |r| ensures !near(key(r[j]), key(r[i])) {
          assert r[j] == rest[j - 1];
          if i == 0 {
            assert key(r[i]) == t && t in seen';
          } else {
            assert r[i] == rest[i - 1];
          }
        }
      } else {
        DedupKeepsDissimilar(key, near, papers[1..], seen);
        assert DedupBy(key, near, papers, seen) == DedupBy(key, near, papers[1..], seen);
      }
    }
  }

  /** A title that is not blank and carries no surrounding space is near itself: the overlap is the whole word set. */
  lemma SimilarToItself(t: string)
    requires t != "" && Strip(t) == t
    ensures Similar(t, t)
  {
    var w := WordSet(t);
    WordSetOfNonBlank(t);
    SelfOverlap(w);
  }

  /** A title that is not blank has at least one word. */
  lemma WordSetOfNonBlank(t: string)
    requires Strip(t) != []
    ensures |WordSet(t)| > 0
  {
    WordsOfNonBlank(t);
    assert Words(t)[0] in WordSet(t);
  }

  lemma SelfOverlap(w: set<string>)
    requires |w| > 0
    ensures Overlap(w, w) == 1.0
  {
    assert w * w == w;
  }

  ghost predicate NearItself(key: Paper -> string, near: (string, string) -> bool)
  {
    forall p :: key(p) != "" ==> near(key(p), key(p))
  }

  /** Every non-blank normalised title is similar to itself. */
  lemma NormalTitlesNearThemselves()
    ensures NearItself(NormalTitle, Similar)
  {
    forall p | NormalTitle(p) != "" ensures Similar(NormalTitle(p), NormalTitle(p)) {
      StripIdempotent(Lower(TitleOr(p, "")));
      SimilarToItself(NormalTitle(p));
    }
  }

  /**
   * Exact duplicate titles collapse to their first occurrence: when every
   * non-blank title is near itself (as `NormalTitlesNearThemselves` shows
   * for `NormalTitle` and `Similar`), the kept titles are pairwise distinct.
   */
  lemma KeptTitlesDistinct(key: Paper -> string, near: (string, string) -> bool, papers: seq<Paper>, seen: set<string>)
    requires NearItself(key, near)
    ensures var r := DedupBy(key, near, papers, seen);
      forall i, j :: 0 <= i < j < |r| ==> key(r[i]) != key(r[j])
  {
    DedupKeepsDissimilar(key, near, papers, seen);
  }

  lemma StripIdempotent(s: string)
    ensures Strip(Strip(s)) == Strip(s)
  {
    var r := Strip(s);
    TrimStartNoop(r, IsSpace);
    TrimEndNoop(r, IsSpace);
  }

  lemma TrimStartNoop(s: string, drop: char -> bool)
    requires s == [] || !drop(s[0])
    ensures TrimStart(s, drop) == s
  {
  }

  lemma TrimEndNoop(s: string, drop: char -> bool)
    requires s == [] || !drop(s[|s| - 1])
    ensures TrimEnd(s, drop) == s
  {
  }

  /**
   * The deduplication read one paper at a time: appending a paper appends it
   * to the result exactly when its title is non-blank and near no title
   * seen beforehand or kept so far.
   */
  lemma {:induction false} DedupSnoc(key: Paper -> string, near: (string, string) -> bool,
                                     papers: seq<Paper>, p: Paper, seen: set<string>)
    ensures DedupBy(key, near, papers + [p], seen) ==
            DedupBy(key, near, papers, seen)
            + (if KeepsBy(near, key(p), seen + KeptTitles(key, DedupBy(key, near, papers, seen))) then [p] else [])
    decreases |papers|
  {
    if papers == [] {
      assert [p][1..] == [];
      assert KeptTitles(key, []) == {};
      assert seen + {} == seen;
    } else {
      var t := key(papers[0]);
      assert (papers + [p])[0] == papers[0];
      assert (papers + [p])[1..] == papers[1..] + [p];
      if KeepsBy(near, t, seen) {
        var seen' := seen + {t};
        DedupSnoc(key, near, papers[1..], p, seen');
        var rest := DedupBy(key, near, papers[1..], seen');
        assert DedupBy(key, near, papers, seen) == [papers[0]] + rest;
        assert KeptTitles(key, [papers[0]] + rest) == {t} + KeptTitles(key, rest) by {
          assert forall q :: q in [papers[0]] + rest <==> q == papers[0] || q in rest;
        }
        assert seen' + KeptTitles(key, rest) == seen + KeptTitles(key, [papers[0]] + rest);
      } else {
        DedupSnoc(key, near, papers[1..], p, seen);
      }
    }
  }

  /**
   * `search_all`: the papers of the sources that answered, in order,
   * deduplicated, then cut to three times the per-source maximum.
   */
  function SearchAll(pubmed: Outcome<seq<Paper>>, openalex: Outcome<seq<Paper>>, arxiv: Outcome<seq<Paper>>,
                     maxPerSource: int): (r: seq<Paper>)
    ensures maxPerSource >= 0 ==> |r| <= 3 * maxPerSource
    ensures forall p :: p in r ==> p in Answered(pubmed) + Answered(openalex) + Answered(arxiv)
    ensures forall j :: 0 <= j < |r| ==> NormalTitle(r[j]) != ""
    ensures forall i, j :: 0 <= i < j < |r| ==> !Similar(NormalTitle(r[j]), NormalTitle(r[i]))
    ensures var unique := Dedup(Answered(pubmed) + Answered(openalex) + Answered(arxiv), {});
      && |r| <= |unique| && r == unique[..|r|]
      && (maxPerSource >= 0 ==> |r| == if 3 * maxPerSource < |unique| then 3 * maxPerSource else |unique|)
  {
    var all := Answered(pubmed) + Answered(openalex) + Answered(arxiv);
    TakeOfDedup(all, maxPerSource * 3);
    PyTake(Dedup(all, {}), maxPerSource * 3)
  }

  /** A prefix of the deduplicated papers keeps their provenance and their pairwise dissimilar titles. */
  lemma TakeOfDedup(all: seq<Paper>, n: int)
    ensures n >= 0 ==> |PyTake(Dedup(all, {}), n)| <= n
    ensures forall p :: p in PyTake(Dedup(all, {}), n) ==> p in all
    ensures forall j :: 0 <= j < |PyTake(Dedup(all, {}), n)| ==> NormalTitle(PyTake(Dedup(all, {}), n)[j]) != ""
    ensures forall i, j :: 0 <= i < j < |PyTake(Dedup(all, {}), n)| ==>
      !Similar(NormalTitle(PyTake(Dedup(all, {}), n)[j]), NormalTitle(PyTake(Dedup(all, {}), n)[i]))
  {
    var unique := Dedup(all, {});
    SubsequenceMembers(unique, all);
    PrefixKeeps(unique, all, PyTake(unique, n));
  }

  /** A prefix of pairwise dissimilar papers drawn from `all` is again pairwise dissimilar and drawn from `all`. */
  lemma PrefixKeeps(unique: seq<Paper>, all: seq<Paper>, r: seq<Paper>)
    requires |r| <= |unique| && r == unique[..|r|]
    requires forall p :: p in unique ==> p in all
    requires forall j :: 0 <= j < |unique| ==> NormalTitle(unique[j]) != ""
    requires forall i, j :: 0 <= i < j < |unique| ==> !Similar(NormalTitle(unique[j]), NormalTitle(unique[i]))
    ensures forall p :: p in r ==> p in all
    ensures forall j :: 0 <= j < |r| ==> NormalTitle(r[j]) != ""
    ensures forall i, j :: 0 <= i < j < |r| ==> !Similar(NormalTitle(r[j]), NormalTitle(r[i]))
  {
    assert forall j :: 0 <= j < |r| ==> r[j] == unique[j];
    forall p | p in r ensures p in all {
      var k :| 0 <= k < |r| && r[k] == p;
      assert unique[k] == p;
    }
  }

  /** A failed search contributes no papers. */
  function Answered(o: Outcome<seq<Paper>>): seq<Paper>
  {
    if o.Ok? then o.value else []
  }

  /** Every element of a subsequence occurs in the sequence it was taken from. */
  lemma {:induction false} SubsequenceMembers<T>(a: seq<T>, b: seq<T>)
    requires IsSubsequence(a, b)
    ensures forall x :: x in a ==> x in b
    decreases |b|
  {
    if a != [] {
      if a[0] == b[0] && IsSubsequence(a[1..], b[1..]) {
        SubsequenceMembers(a[1..], b[1..]);
        forall x | x in a ensures x in b {
          if x != a[0] {
            assert x in a[1..];
          }
        }
      } else {
        SubsequenceMembers(a, b[1..]);
      }
    }
  }

  // ---------------------------------------------------------------------
  // Formatting for the language model

  /** One numbered entry of `format_papers_for_llm`: number, details, source line. */
  function Entry(n: nat, p: Paper): string
  {
    EntryNumber(n) + EntryDetails(p) + SourceLine(p)
  }

  function EntryNumber(n: nat): string
  {
    NatToString(n) + ". "
  }

  /** Title, optional year, at most 500 characters of abstract, optional URL. */
  function EntryDetails(p: Paper): string
  {
    var abstractText := PyTake(p.abstractText, 500);
    TitleOr(p, "Unknown")
    + (if p.year != "" then " (" + p.year + ")" else "")
    + (if abstractText != "" then "\n   Abstract: " + abstractText + "..." else "")
    + (if p.url != "" then "\n   URL: " + p.url else "")
  }

  function SourceLine(p: Paper): string
  {
    "\n   Source: " + (if p.source.Some? then p.source.value else "unknown")
  }

  /** The entries for the first `maxPapers` papers, numbered from `first`. */
  function Entries(papers: seq<Paper>, first: nat): (r: seq<string>)
    ensures |r| == |papers|
    ensures forall i :: 0 <= i < |papers| ==> r[i] == Entry(first + i, papers[i])
  {
    seq(|papers|, i requires 0 <= i < |papers| => Entry(first + i, papers[i]))
  }

  /**
   * `format_papers_for_llm`: the placeholder exactly for an empty list, and
   * otherwise the numbered entries, the first paper's entry first.
   */
  function FormattedPapers(papers: seq<Paper>, maxPapers: int): (r: string)
    ensures r == "No papers found." <==> papers == []
    ensures papers != [] && maxPapers > 0 ==> StartsWith(r, Entry(1, papers[0]))
  {
    if papers == [] then "No papers found."
    else
      var entries := Entries(PyTake(papers, maxPapers), 1);
      var text := Join(entries, "\n\n");
      if entries != [] then
        EntryShape(1, PyTake(papers, maxPapers)[0]);
        JoinStartsWithFirst(entries, "\n\n");
        assert text[0] == entries[0][0];
        assert !IsDigit("No papers found."[0]);
        text
      else
        text
  }

  /** `format_papers_for_llm`. */
  method FormatPapersForLlm(papers: seq<Paper>, maxPapers: int) returns (text: string)
    ensures text == FormattedPapers(papers, maxPapers)
  {
    if papers == [] {
      return "No papers found.";
    }
    var shown := PyTake(papers, maxPapers);
    var formatted: seq<string> := [];
    for i := 0 to |shown|
      invariant formatted == Entries(shown, 1)[..i]
    {
      formatted := formatted + [Entry(i + 1, shown[i])];
    }
    assert formatted == Entries(shown, 1);
    text := Join(formatted, "\n\n");
  }

  /** Each entry opens with its number, a dot and a space, and ends with the source line. */
  lemma EntryShape(n: nat, p: Paper)
    ensures StartsWith(Entry(n, p), EntryNumber(n))
    ensures EndsWith(Entry(n, p), SourceLine(p))
    ensures IsDigit(Entry(n, p)[0])
  {
    ConcatShape(EntryNumber(n), EntryDetails(p), SourceLine(p));
    NatToStringDigits(n);
  }

  lemma ConcatShape(a: string, b: string, c: string)
    requires a != []
    ensures StartsWith(a + b + c, a) && EndsWith(a + b + c, c)
    ensures (a + b + c)[0] == a[0]
  {
    assert (a + b + c)[..|a|] == a;
    assert (a + b + c)[|a + b + c| - |c|..] == c;
  }

  lemma {:induction false} NatToStringDigits(n: nat)
    ensures forall i :: 0 <= i < |NatToString(n)| ==> IsDigit(NatToString(n)[i])
    decreases n
  {
    if n >= 10 {
      NatToStringDigits(n / 10);
    }
  }

  lemma JoinStartsWithFirst(parts: seq<string>, sep: string)
    requires |parts| >= 1
    ensures StartsWith(Join(parts, sep), parts[0])
  {
  }

  /**
   * At most `maxPapers` entries appear, numbered from 1; the i-th shows at
   * most 500 characters of the i-th paper's abstract.
   */
  lemma FormattedEntries(papers: seq<Paper>, maxPapers: int)
    requires papers != [] && maxPapers >= 0
    ensures var entries := Entries(PyTake(papers, maxPapers), 1);
      && FormattedPapers(papers, maxPapers) == Join(entries, "\n\n")
      && |entries| == (if maxPapers < |papers| then maxPapers else |papers|)
      && forall i :: 0 <= i < |entries| ==> entries[i] == Entry(i + 1, papers[i])
  {
  }
}
