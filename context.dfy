/**
 * The conversation context: what the user has said about the medical field,
 * the condition, the time window and the bias aspects of interest, plus the
 * conversation history. The state lives in `ContextManager`, whose methods
 * update it in place; every method is specified by a pure function on a
 * `Ctx` snapshot, and the properties are proved about those functions.
 */
module Context {
  import opened Options
  import opened Text

  datatype Message = Message(role: string, content: string)

  /**
   * The context dict. A field holding Python's None is `None`; a field set
   * from extracted information may hold any string, including the empty one.
   */
  datatype Ctx = Ctx(
    medicalField: Option<string>,
    specificCondition: Option<string>,
    timeRange: Option<int>,
    biasAspects: seq<string>)

  const Fresh := Ctx(None, None, None, [])

  /** Python truthiness of an optional string: None and "" are falsy. */
  predicate Truthy(o: Option<string>) { o.Some? && o.value != "" }

  /** Python truthiness of an optional number: None and 0 are falsy. */
  predicate TruthyInt(o: Option<int>) { o.Some? && o.value != 0 }

  // ---------------------------------------------------------------------
  // Keyword taxonomies, in declaration order

  type Taxonomy = seq<(string, seq<string>)>

  const MedicalFields: Taxonomy := [
    ("dermatology", ["dermatology", "skin", "melanoma", "acne", "eczema", "dermatological", "skin cancer"]),
    ("cardiology", ["cardiology", "heart", "cardiovascular", "ecg", "troponin", "cardiac"]),
    ("radiology", ["radiology", "x-ray", "xray", "ct scan", "mri", "imaging", "radiographic"]),
    ("oncology", ["oncology", "cancer", "tumor", "tumour", "malignancy"]),
    ("pulmonology", ["pulmonology", "lung", "pneumonia", "respiratory", "pulmonary"]),
    ("ophthalmology", ["ophthalmology", "eye", "retinal", "retina", "diabetic retinopathy"]),
    ("pathology", ["pathology", "histopathology", "biopsy"])
  ]

  const Conditions: Taxonomy := [
    ("melanoma", ["melanoma", "skin cancer"]),
    ("heart disease", ["heart disease", "cardiovascular disease", "cardiac", "heart failure"]),
    ("pneumonia", ["pneumonia", "lung infection"]),
    ("acne", ["acne"]),
    ("eczema", ["eczema", "atopic dermatitis"]),
    ("diabetic retinopathy", ["diabetic retinopathy", "retinopathy"])
  ]

  const FiveYearPhrases: seq<string> := ["5 years", "past 5", "last 5", "5 year"]
  const ThreeYearPhrases: seq<string> := ["3 years", "past 3", "last 3", "3 year"]
  const TenYearPhrases: seq<string> := ["10 years", "past 10", "last 10", "10 year"]
  const RecentPhrases: seq<string> := ["recent", "latest", "current"]

  /** Every category of both taxonomies has a non-empty name. */
  lemma TaxonomyNamesNonEmpty()
    ensures forall i :: 0 <= i < |MedicalFields| ==> MedicalFields[i].0 != ""
    ensures forall i :: 0 <= i < |Conditions| ==> Conditions[i].0 != ""
  {
  }

  /**
   * The position of the first category, in declaration order, one of whose
   * keywords occurs in `text`.
   */
  function FirstMatchIndex(tax: Taxonomy, text: string): (r: Option<nat>)
    ensures r.Some? ==> r.value < |tax| && ContainsAny(text, tax[r.value].1)
    ensures r.Some? ==> forall j :: 0 <= j < r.value ==> !ContainsAny(text, tax[j].1)
    ensures r.None? <==> forall j :: 0 <= j < |tax| ==> !ContainsAny(text, tax[j].1)
  {
    if tax == [] then None
    else if ContainsAny(text, tax[0].1) then Some(0)
    else
      var rest := FirstMatchIndex(tax[1..], text);
      assert forall j :: 1 <= j < |tax| ==> tax[j] == tax[1..][j - 1];
      if rest.None? then None else Some(rest.value + 1)
  }

  /** The category name `_extract_from_input` picks, if any. */
  function FirstMatch(tax: Taxonomy, text: string): Option<string>
  {
    var i := FirstMatchIndex(tax, text);
    if i.Some? then Some(tax[i.value].0) else None
  }

  /** The time window a message names, in the order 5, 3, 10 years, then "recent" (3 years). */
  function TimeFromText(text: string): (r: Option<int>)
    ensures r == Some(5) <==> ContainsAny(text, FiveYearPhrases)
    ensures r == Some(10) <==>
      !ContainsAny(text, FiveYearPhrases) && !ContainsAny(text, ThreeYearPhrases) && ContainsAny(text, TenYearPhrases)
    ensures r.None? <==>
      !ContainsAny(text, FiveYearPhrases) && !ContainsAny(text, ThreeYearPhrases)
      && !ContainsAny(text, TenYearPhrases) && !ContainsAny(text, RecentPhrases)
    ensures r.Some? ==> r.value == 3 || r.value == 5 || r.value == 10
  {
    if ContainsAny(text, FiveYearPhrases) then Some(5)
    else if ContainsAny(text, ThreeYearPhrases) then Some(3)
    else if ContainsAny(text, TenYearPhrases) then Some(10)
    else if ContainsAny(text, RecentPhrases) then Some(3)
    else None
  }

  /** `if a not in aspects: aspects.append(a)`. */
  function AddAspect(aspects: seq<string>, a: string): seq<string>
  {
    if a in aspects then aspects else aspects + [a]
  }

  function AddAspectIf(aspects: seq<string>, mentioned: bool, a: string): seq<string>
  {
    if mentioned then AddAspect(aspects, a) else aspects
  }

  predicate MentionsImbalance(text: string)
  {
    Contains(text, "data imbalance") || Contains(text, "data representation")
  }

  predicate MentionsDiagnosticBias(text: string)
  {
    Contains(text, "diagnostic bias")
  }

  predicate MentionsPerformanceGap(text: string)
  {
    Contains(text, "performance") && Contains(text, "gap")
  }

  function AspectsFrom(aspects: seq<string>, text: string): seq<string>
  {
    var s1 := AddAspectIf(aspects, MentionsImbalance(text), "data imbalance");
    var s2 := AddAspectIf(s1, MentionsDiagnosticBias(text), "diagnostic bias");
    AddAspectIf(s2, MentionsPerformanceGap(text), "performance gaps")
  }

  /** The field step of extraction: only an unset field takes the first matching category. */
  function FieldStep(c: Ctx, text: string): Ctx
  {
    var field := FirstMatch(MedicalFields, text);
    if !Truthy(c.medicalField) && field.Some? then c.(medicalField := field) else c
  }

  function ConditionStep(c: Ctx, text: string): Ctx
  {
    var condition := FirstMatch(Conditions, text);
    if !Truthy(c.specificCondition) && condition.Some? then c.(specificCondition := condition) else c
  }

  function TimeStep(c: Ctx, text: string): Ctx
  {
    var time := TimeFromText(text);
    if !TruthyInt(c.timeRange) && time.Some? then c.(timeRange := time) else c
  }

  function AspectStep(c: Ctx, text: string): Ctx
  {
    c.(biasAspects := AspectsFrom(c.biasAspects, text))
  }

  /** `_extract_from_input`: keyword extraction from the lower-cased message. */
  function Extract(c: Ctx, input: string): (r: Ctx)
    ensures Truthy(c.medicalField) ==> r.medicalField == c.medicalField
    ensures Truthy(c.specificCondition) ==> r.specificCondition == c.specificCondition
    ensures TruthyInt(c.timeRange) ==> r.timeRange == c.timeRange
    ensures c.biasAspects <= r.biasAspects
  {
    var text := Lower(input);
    AspectsFromGrows(c.biasAspects, text);
    AspectStep(TimeStep(ConditionStep(FieldStep(c, text), text), text), text)
  }

  // ---------------------------------------------------------------------
  // Structured information supplied by the caller

  /**
   * The optional `extracted_info` dict: the outer `Option` says whether the
   * key is present, the inner one whether its value is None.
   */
  datatype ExtractedInfo = ExtractedInfo(
    medicalField: Option<Option<string>>,
    condition: Option<Option<string>>,
    specificCondition: Option<Option<string>>,
    timeRange: Option<Option<int>>,
    years: Option<Option<int>>,
    biasAspects: Option<seq<string>>)

  /** `extracted_info=None`. */
  const NoInfo := ExtractedInfo(None, None, None, None, None, None)

  /** `dict.get(key)`: a missing key reads as None. */
  function GetValue<T>(entry: Option<Option<T>>): Option<T>
  {
    if entry.Some? then entry.value else None
  }

  /** Python's `a or b` on optional strings. */
  function OrString(a: Option<string>, b: Option<string>): Option<string>
  {
    if Truthy(a) then a else b
  }

  /** Python's `a or b` on optional numbers. */
  function OrInt(a: Option<int>, b: Option<int>): Option<int>
  {
    if TruthyInt(a) then a else b
  }

  /** The overwrites `update_context` applies from `extracted_info`, before any keyword extraction. */
  function ApplyInfo(c: Ctx, info: ExtractedInfo): (r: Ctx)
    ensures info == NoInfo ==> r == c
    ensures info.medicalField.None? ==> r.medicalField == c.medicalField
    ensures info.condition.None? && info.specificCondition.None? ==> r.specificCondition == c.specificCondition
    ensures info.timeRange.None? && info.years.None? ==> r.timeRange == c.timeRange
    ensures info.biasAspects.None? ==> r.biasAspects == c.biasAspects
    ensures info.medicalField.Some? ==> r.medicalField == info.medicalField.value
    ensures info.condition.Some? && Truthy(info.condition.value) ==> r.specificCondition == info.condition.value
    ensures (info.condition.Some? || info.specificCondition.Some?) && !(info.condition.Some? && Truthy(info.condition.value))
      ==> r.specificCondition == GetValue(info.specificCondition)
    ensures info.timeRange.Some? && TruthyInt(info.timeRange.value) ==> r.timeRange == info.timeRange.value
    ensures (info.timeRange.Some? || info.years.Some?) && !(info.timeRange.Some? && TruthyInt(info.timeRange.value))
      ==> r.timeRange == GetValue(info.years)
    ensures info.biasAspects.Some? ==> r.biasAspects == info.biasAspects.value
  {
    Ctx(if info.medicalField.Some? then info.medicalField.value else c.medicalField,
        if info.condition.Some? || info.specificCondition.Some?
        then OrString(GetValue(info.condition), GetValue(info.specificCondition))
        else c.specificCondition,
        if info.timeRange.Some? || info.years.Some?
        then OrInt(GetValue(info.timeRange), GetValue(info.years))
        else c.timeRange,
        if info.biasAspects.Some? then info.biasAspects.value else c.biasAspects)
  }

  // ---------------------------------------------------------------------
  // Properties of extraction

  /**
   * An unset field becomes the first category, in declaration order, with a
   * keyword in the lower-cased message; with no such category it is left as it was.
   */
  lemma ExtractChoosesFirstCategory(c: Ctx, input: string)
    requires !Truthy(c.medicalField)
    ensures var r := Extract(c, input).medicalField;
      || (r == c.medicalField && forall j :: 0 <= j < |MedicalFields| ==> !ContainsAny(Lower(input), MedicalFields[j].1))
      || (exists i :: 0 <= i < |MedicalFields| && r == Some(MedicalFields[i].0)
            && ContainsAny(Lower(input), MedicalFields[i].1)
            && forall j :: 0 <= j < i ==> !ContainsAny(Lower(input), MedicalFields[j].1))
  {
    var m := FirstMatchIndex(MedicalFields, Lower(input));
    if m.Some? {
      assert Extract(c, input).medicalField == Some(MedicalFields[m.value].0);
    }
  }

  /** The same for the condition. */
  lemma ExtractChoosesFirstCondition(c: Ctx, input: string)
    requires !Truthy(c.specificCondition)
    ensures var r := Extract(c, input).specificCondition;
      || (r == c.specificCondition && forall j :: 0 <= j < |Conditions| ==> !ContainsAny(Lower(input), Conditions[j].1))
      || (exists i :: 0 <= i < |Conditions| && r == Some(Conditions[i].0)
            && ContainsAny(Lower(input), Conditions[i].1)
            && forall j :: 0 <= j < i ==> !ContainsAny(Lower(input), Conditions[j].1))
  {
    var m := FirstMatchIndex(Conditions, Lower(input));
    if m.Some? {
      assert Extract(c, input).specificCondition == Some(Conditions[m.value].0);
    }
  }

  /** A time window set by keywords is 3, 5 or 10 years. */
  lemma ExtractTimeValues(c: Ctx, input: string)
    requires !TruthyInt(c.timeRange)
    ensures var r := Extract(c, input).timeRange;
      r == c.timeRange || r == Some(3) || r == Some(5) || r == Some(10)
  {
  }

  predicate NoDuplicates(s: seq<string>)
  {
    forall i, j :: 0 <= i < j < |s| ==> s[i] != s[j]
  }

  predicate IsAspectName(a: string)
  {
    a == "data imbalance" || a == "diagnostic bias" || a == "performance gaps"
  }

  lemma AddAspectGrows(aspects: seq<string>, a: string)
    ensures |AddAspect(aspects, a)| >= |aspects| && AddAspect(aspects, a)[..|aspects|] == aspects
    ensures a in AddAspect(aspects, a)
    ensures NoDuplicates(aspects) ==> NoDuplicates(AddAspect(aspects, a))
    ensures forall x :: x in AddAspect(aspects, a) ==> x in aspects || x == a
  {
  }

  lemma AddAspectIfGrows(aspects: seq<string>, mentioned: bool, a: string)
    requires IsAspectName(a)
    ensures var r := AddAspectIf(aspects, mentioned, a);
      && |r| >= |aspects| && r[..|aspects|] == aspects
      && (NoDuplicates(aspects) ==> NoDuplicates(r))
      && forall i :: |aspects| <= i < |r| ==> IsAspectName(r[i])
  {
    if mentioned {
      AddAspectGrows(aspects, a);
    }
  }

  /**
   * The aspect list only grows: the old list is a prefix of the new one,
   * nothing is duplicated, and every added entry is one of the three aspect names.
   */
  lemma AspectsFromGrows(aspects: seq<string>, text: string)
    ensures var r := AspectsFrom(aspects, text);
      && |r| >= |aspects| && r[..|aspects|] == aspects
      && (NoDuplicates(aspects) ==> NoDuplicates(r))
      && forall i :: |aspects| <= i < |r| ==> IsAspectName(r[i])
  {
    var a1 := AddAspectIf(aspects, MentionsImbalance(text), "data imbalance");
    var a2 := AddAspectIf(a1, MentionsDiagnosticBias(text), "diagnostic bias");
    var a3 := AddAspectIf(a2, MentionsPerformanceGap(text), "performance gaps");
    AddAspectIfGrows(aspects, MentionsImbalance(text), "data imbalance");
    AddAspectIfGrows(a1, MentionsDiagnosticBias(text), "diagnostic bias");
    AddAspectIfGrows(a2, MentionsPerformanceGap(text), "performance gaps");
    assert a2[..|aspects|] == aspects by { assert a2[..|a1|] == a1; }
    assert a3[..|aspects|] == aspects by { assert a3[..|a2|] == a2; }
    forall i | |aspects| <= i < |a3| ensures IsAspectName(a3[i]) {
      if i < |a2| {
        assert a3[i] == a2[..|a2|][i];
        if i < |a1| {
          assert a2[i] == a2[..|a1|][i];
        }
      }
    }
  }

  lemma ExtractGrowsAspects(c: Ctx, input: string)
    ensures var r := Extract(c, input).biasAspects;
      && |r| >= |c.biasAspects| && r[..|c.biasAspects|] == c.biasAspects
      && (NoDuplicates(c.biasAspects) ==> NoDuplicates(r))
      && forall i :: |c.biasAspects| <= i < |r| ==> IsAspectName(r[i])
  {
    AspectsFromGrows(c.biasAspects, Lower(input));
  }

  lemma AddAspectIfIdempotent(aspects: seq<string>, mentioned: bool, a: string)
    ensures AddAspectIf(AddAspectIf(aspects, mentioned, a), mentioned, a) == AddAspectIf(aspects, mentioned, a)
  {
    if mentioned {
      AddAspectGrows(aspects, a);
    }
  }

  /** Adding the aspects a message mentions a second time adds nothing. */
  lemma AspectsFromIdempotent(aspects: seq<string>, text: string)
    ensures AspectsFrom(AspectsFrom(aspects, text), text) == AspectsFrom(aspects, text)
  {
    var i1, i2, i3 := MentionsImbalance(text), MentionsDiagnosticBias(text), MentionsPerformanceGap(text);
    var a1 := AddAspectIf(aspects, i1, "data imbalance");
    var a2 := AddAspectIf(a1, i2, "diagnostic bias");
    var a3 := AddAspectIf(a2, i3, "performance gaps");
    AddAspectGrows(aspects, "data imbalance");
    AddAspectGrows(a1, "diagnostic bias");
    AddAspectGrows(a2, "performance gaps");
    AddAspectGrows(a3, "data imbalance");
    var b1 := AddAspectIf(a3, i1, "data imbalance");
    if i1 {
      assert "data imbalance" in a1;
      assert "data imbalance" in a3;
    }
    assert b1 == a3;
    AddAspectGrows(b1, "diagnostic bias");
    var b2 := AddAspectIf(b1, i2, "diagnostic bias");
    if i2 {
      assert "diagnostic bias" in a3;
    }
    assert b2 == a3;
    var b3 := AddAspectIf(b2, i3, "performance gaps");
    assert b3 == a3;
  }

  /** Running extraction twice on the same message changes nothing the second time. */
  lemma ExtractIdempotent(c: Ctx, input: string)
    ensures Extract(Extract(c, input), input) == Extract(c, input)
  {
    TaxonomyNamesNonEmpty();
    AspectsFromIdempotent(c.biasAspects, Lower(input));
  }

  /** A message naming a field keyword leaves a context from which analysis can start. */
  lemma ExtractFindsField(c: Ctx, input: string, i: nat)
    requires i < |MedicalFields| && ContainsAny(Lower(input), MedicalFields[i].1)
    ensures HasSufficientContext(Extract(c, input))
  {
  }

  // ---------------------------------------------------------------------
  // Getters

  /** `has_sufficient_context`: a field is known (an `is not None` test, so "" counts). */
  predicate HasSufficientContext(c: Ctx)
  {
    c.medicalField.Some?
  }

  /** `get_time_range`: the time window, or 5 years when it is unset or 0. */
  function TimeRangeOrDefault(c: Ctx): (years: int)
    ensures years != 0
    ensures !TruthyInt(c.timeRange) ==> years == 5
    ensures TruthyInt(c.timeRange) ==> years == c.timeRange.value
  {
    if TruthyInt(c.timeRange) then c.timeRange.value else 5
  }

  const RequiredFields: seq<string> := ["medical_field", "specific_condition", "time_range"]

  function FieldRank(name: string): int
  {
    if name == "medical_field" then 0 else if name == "specific_condition" then 1 else 2
  }

  /** `get_missing_fields`: the unset fields, in the order field, condition, time range. */
  function MissingFields(c: Ctx): (missing: seq<string>)
    ensures "medical_field" in missing <==> !Truthy(c.medicalField)
    ensures "specific_condition" in missing <==> !Truthy(c.specificCondition)
    ensures "time_range" in missing <==> !TruthyInt(c.timeRange)
    ensures forall x :: x in missing ==> x in RequiredFields
    ensures forall i, j :: 0 <= i < j < |missing| ==> FieldRank(missing[i]) < FieldRank(missing[j])
  {
    (if !Truthy(c.medicalField) then ["medical_field"] else [])
    + (if !Truthy(c.specificCondition) then ["specific_condition"] else [])
    + (if !TruthyInt(c.timeRange) then ["time_range"] else [])
  }

  /** `get_scope`: the known field and condition joined by a space, else "medical AI". */
  function Scope(c: Ctx): (scope: string)
    ensures !Truthy(c.medicalField) && !Truthy(c.specificCondition) ==> scope == "medical AI"
    ensures Truthy(c.medicalField) && Truthy(c.specificCondition) ==>
      scope == c.medicalField.value + " " + c.specificCondition.value
    ensures Truthy(c.medicalField) && !Truthy(c.specificCondition) ==> scope == c.medicalField.value
    ensures !Truthy(c.medicalField) && Truthy(c.specificCondition) ==> scope == c.specificCondition.value
  {
    var parts := (if Truthy(c.medicalField) then [c.medicalField.value] else [])
                 + (if Truthy(c.specificCondition) then [c.specificCondition.value] else []);
    if parts == [] then "medical AI"
    else
      assert |parts| == 2 ==> Join(parts, " ") == parts[0] + " " + parts[1] by {
        if |parts| == 2 {
          JoinTwo(parts, " ");
        }
      }
      Join(parts, " ")
  }

  /** One summary line: `role: content[:200]`. */
  function SummaryLine(m: Message): string
  {
    m.role + ": " + PyTake(m.content, 200)
  }

  /** The lines of the summary: one per message among the last six. */
  function SummaryLines(history: seq<Message>): (lines: seq<string>)
    ensures |lines| == if |history| < 6 then |history| else 6
    ensures forall i :: 0 <= i < |lines| ==> lines[i] == SummaryLine(history[|history| - |lines| + i])
  {
    var recent := history[|history| - (if |history| < 6 then |history| else 6)..];
    seq(|recent|, i requires 0 <= i < |recent| => SummaryLine(recent[i]))
  }

  /** `get_conversation_summary`. */
  function Summary(history: seq<Message>): (summary: string)
    ensures summary == "" <==> history == []
    ensures history != [] ==> summary == Join(SummaryLines(history), "\n")
  {
    if history == [] then ""
    else
      var lines := SummaryLines(history);
      JoinNonEmpty(lines, "\n");
      Join(lines, "\n")
  }

  /** Joining parts of which the first is non-empty gives a non-empty text. */
  lemma JoinNonEmpty(parts: seq<string>, sep: string)
    requires |parts| >= 1 && forall p :: p in parts ==> p != ""
    ensures Join(parts, sep) != ""
  {
    assert parts[0] in parts;
    if |parts| > 1 {
      assert |Join(parts, sep)| >= |parts[0]|;
    }
  }

  /**
   * The summary can be read back line by line: when no role and no kept
   * content holds a newline, splitting it on newlines gives one line per
   * message among the last six, each `role: content[:200]`.
   */
  lemma SummaryReadsBack(history: seq<Message>)
    requires history != []
    requires forall m :: m in history ==> '\n' !in m.role && '\n' !in PyTake(m.content, 200)
    ensures SplitOn(Summary(history), '\n') == SummaryLines(history)
  {
    var lines := SummaryLines(history);
    forall p | p in lines ensures '\n' !in p {
      var i :| 0 <= i < |lines| && lines[i] == p;
      var m := history[|history| - |lines| + i];
      assert m in history;
      assert p == m.role + ": " + PyTake(m.content, 200);
    }
    SplitOnJoin(lines, '\n');
  }

  // ---------------------------------------------------------------------
  // The stateful manager

  class ContextManager {
    var medicalField: Option<string>
    var specificCondition: Option<string>
    var timeRange: Option<int>
    var biasAspects: seq<string>
    var history: seq<Message>

    /** The context dict as a value. */
    function State(): Ctx
      reads this
    {
      Ctx(medicalField, specificCondition, timeRange, biasAspects)
    }

    constructor()
      ensures State() == Fresh && history == []
    {
      medicalField := None;
      specificCondition := None;
      timeRange := None;
      biasAspects := [];
      history := [];
    }

    /** `update_context`: one user entry in the history, then the overwrites, then keyword extraction. */
    method UpdateContext(userInput: string, info: ExtractedInfo)
      modifies this
      ensures history == old(history) + [Message("user", userInput)]
      ensures State() == Extract(ApplyInfo(old(State()), info), userInput)
    {
      history := history + [Message("user", userInput)];
      ApplyExtractedInfo(info);
      ExtractFromInput(userInput);
    }

    /** The overwrites of `update_context` from the structured information. */
    method ApplyExtractedInfo(info: ExtractedInfo)
      modifies this
      ensures history == old(history)
      ensures State() == ApplyInfo(old(State()), info)
    {
      if info.medicalField.Some? {
        medicalField := info.medicalField.value;
      }
      if info.condition.Some? || info.specificCondition.Some? {
        specificCondition := OrString(GetValue(info.condition), GetValue(info.specificCondition));
      }
      if info.timeRange.Some? || info.years.Some? {
        timeRange := OrInt(GetValue(info.timeRange), GetValue(info.years));
      }
      if info.biasAspects.Some? {
        biasAspects := info.biasAspects.value;
      }
    }

    /** `_extract_from_input`. */
    method ExtractFromInput(userInput: string)
      modifies this
      ensures history == old(history)
      ensures State() == Extract(old(State()), userInput)
    {
      var text := Lower(userInput);
      ExtractField(text);
      ExtractCondition(text);
      ExtractTime(text);
      ExtractAspects(text);
    }

    method ExtractField(text: string)
      modifies this
      ensures history == old(history)
      ensures State() == FieldStep(old(State()), text)
    {
      if !Truthy(medicalField) {
        var field := FindFirst(MedicalFields, text);
        if field.Some? {
          medicalField := field;
        }
      }
    }

    method ExtractCondition(text: string)
      modifies this
      ensures history == old(history)
      ensures State() == ConditionStep(old(State()), text)
    {
      if !Truthy(specificCondition) {
        var condition := FindFirst(Conditions, text);
        if condition.Some? {
          specificCondition := condition;
        }
      }
    }

    method ExtractTime(text: string)
      modifies this
      ensures history == old(history)
      ensures State() == TimeStep(old(State()), text)
    {
      if !TruthyInt(timeRange) {
        if ContainsAny(text, FiveYearPhrases) {
          timeRange := Some(5);
        } else if ContainsAny(text, ThreeYearPhrases) {
          timeRange := Some(3);
        } else if ContainsAny(text, TenYearPhrases) {
          timeRange := Some(10);
        } else if ContainsAny(text, RecentPhrases) {
          timeRange := Some(3);
        }
      }
    }

    method ExtractAspects(text: string)
      modifies this
      ensures history == old(history)
      ensures State() == AspectStep(old(State()), text)
    {
      if MentionsImbalance(text) {
        if "data imbalance" !in biasAspects {
          biasAspects := biasAspects + ["data imbalance"];
        }
      }
      if MentionsDiagnosticBias(text) {
        if "diagnostic bias" !in biasAspects {
          biasAspects := biasAspects + ["diagnostic bias"];
        }
      }
      if MentionsPerformanceGap(text) {
        if "performance gaps" !in biasAspects {
          biasAspects := biasAspects + ["performance gaps"];
        }
      }
    }

    /** `add_assistant_response`. */
    method AddAssistantResponse(response: string)
      modifies this
      ensures history == old(history) + [Message("assistant", response)]
      ensures State() == old(State())
    {
      history := history + [Message("assistant", response)];
    }

    /** The handler's assignment of the field the language model named. */
    method SetMedicalField(field: string)
      modifies this
      ensures State() == old(State()).(medicalField := Some(field))
      ensures history == old(history)
    {
      medicalField := Some(field);
    }

    /** The handler's `"all"` branch: `bias_aspects = ["all"]`. */
    method SetAllAspects()
      modifies this
      ensures State() == old(State()).(biasAspects := ["all"])
      ensures history == old(history)
    {
      biasAspects := ["all"];
    }
  }

  /** The `for ... if any(...): ... break` scan over a taxonomy. */
  method FindFirst(tax: Taxonomy, text: string) returns (r: Option<string>)
    ensures r == FirstMatch(tax, text)
  {
    r := None;
    var i := 0;
    while i < |tax|
      invariant 0 <= i <= |tax|
      invariant forall j :: 0 <= j < i ==> !ContainsAny(text, tax[j].1)
    {
      if ContainsAny(text, tax[i].1) {
        FirstMatchIsFirst(tax, text, i);
        return Some(tax[i].0);
      }
      i := i + 1;
    }
  }

  /** A matching category preceded only by non-matching ones is the first match. */
  lemma FirstMatchIsFirst(tax: Taxonomy, text: string, i: nat)
    requires i < |tax| && ContainsAny(text, tax[i].1)
    requires forall j :: 0 <= j < i ==> !ContainsAny(text, tax[j].1)
    ensures FirstMatchIndex(tax, text) == Some(i)
  {
  }
}
