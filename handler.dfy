/**
 * The message router of the chat tool. Each user message updates the
 * context and is then routed, in a fixed priority order, to an analysis, the
 * clarifying question, mitigation advice, a follow-up answer or the default
 * reply.
 *
 * The language model and the analysis provider are an `Oracle`: for each
 * call the handler can make while answering one message, the value it
 * returned or the exception it raised. The prose the model writes is
 * opaque; the route taken, the state changes and which exceptions escape
 * are modelled exactly.
 */
module Handler {
  import opened Options
  import opened Text
  import opened Context
  import opened Scoring
  import Config

  /** The scorer's `compute_bias_score`, as a function of the three analyses. */
  type ScoreFn = (Findings, Findings, Findings) -> ScoreResult

  /** The `analysis_results` dict. */
  datatype Results = Results(
    scope: string,
    years: int,
    dataset: Findings,
    subgroup: Findings,
    mitigation: Findings,
    score: ScoreResult)

  /** What one message's external calls produce, in the order the handler can make them. */
  datatype Oracle = Oracle(
    fieldGuess: Outcome<string>,
    dataset: Outcome<Findings>,
    subgroup: Outcome<Findings>,
    mitigation: Outcome<Findings>,
    narrative: Outcome<string>,
    recommendations: Outcome<string>,
    suggestedPapers: Outcome<string>,
    followUp: Outcome<string>)

  /** The handler's state as a value: the context, the history and the analysis results. */
  datatype Session = Session(ctx: Ctx, history: seq<Message>, analysis: Option<Results>)

  /** The state after a message and the reply; `Raised` is an exception escaping `handle_message`. */
  datatype Turn = Turn(session: Session, reply: Outcome<string>)

  /** The branch `handle_message` takes. */
  datatype Route =
    | Proactive          // a field is known, nothing analysed yet, no deferral word
    | AllAspects         // "all" with a field known and nothing analysed
    | LlmField           // no field known, but the model named a valid one
    | Clarify            // no field known: ask for one
    | AnalysisRequest
    | MitigationRequest
    | FollowUp
    | AffirmMitigation   // "yes" and the like, when mitigation was mentioned or an analysis exists
    | Default

  // ---------------------------------------------------------------------
  // Fixed replies

  const ClarifyQuestion := "What medical field or condition would you like me to analyze? (e.g., dermatology, cardiology, radiology, skin cancer, heart disease)"

  const OptionsMenu := "I can help you with:\n1. Provide mitigation method recommendations\n2. Answer specific questions about bias in medical AI\n3. Analyze a different medical field"

  const AgreementReply := "Exactly. The issue starts with who's represented in the data and extends to how disease is diagnosed and treated. When clinical norms are built from biased datasets, the AI inherits and amplifies those biases."

  const FollowUpOffer := "\n\nI can also provide specific mitigation methods, show recent papers that address these gaps, or analyze a different medical field."

  function ErrorReply(message: string): string
  {
    "I encountered an error while analyzing: " + message + ". Please try again or provide more specific information."
  }

  function MitigationIntro(scope: string): string
  {
    "Based on the identified gaps in " + scope + " research, here are recommended mitigation methods:\n\n"
  }

  // ---------------------------------------------------------------------
  // Intent predicates

  const Deferrals: seq<string> := ["wait", "not yet", "don't", "no", "later"]
  const BiasTerms: seq<string> := ["bias", "areas", "gaps", "under-explored"]
  const QuestionWords: seq<string> := ["find", "identify", "help", "what", "where"]
  const AnalysisKeywords: seq<string> :=
    ["analyze", "find", "identify", "look at", "study", "examine", "check", "help", "can you", "areas", "gaps", "bias"]
  const MitigationKeywords: seq<string> := ["mitigation", "method", "solution", "address", "reduce", "fix", "improve"]
  const FollowUpOpenings: seq<string> := ["what", "how", "why", "when", "where", "can you", "show me", "tell me"]
  const Affirmations: seq<string> := ["yes", "y", "yeah", "sure", "please"]
  const ValidFields: seq<string> :=
    ["dermatology", "cardiology", "radiology", "oncology", "pulmonology", "ophthalmology", "pathology"]

  /** `_is_analysis_request`. */
  predicate IsAnalysisRequest(input: string, c: Ctx)
  {
    var text := Lower(input);
    (ContainsAny(text, BiasTerms) && ContainsAny(text, QuestionWords))
    || (ContainsAny(text, AnalysisKeywords) && HasSufficientContext(c))
  }

  /** `_is_mitigation_request`. */
  predicate IsMitigationRequest(input: string)
  {
    ContainsAny(Lower(input), MitigationKeywords)
  }

  /** `_is_follow_up`: the message opens with a question phrase. */
  predicate IsFollowUp(input: string)
  {
    StartsWithAny(Lower(input), FollowUpOpenings)
  }

  /** The entry before the current message mentions mitigation. */
  predicate PreviousMentionsMitigation(history: seq<Message>)
  {
    |history| > 1 && Contains(Lower(history[|history| - 2].content), "mitigation")
  }

  /** `_extract_medical_field_llm`: the model's answer, kept only when it names one of the seven fields. */
  function FieldFromModel(answer: Outcome<string>): (r: Option<string>)
    ensures r.Some? ==> r.value in ValidFields && answer.Ok? && r.value == Lower(Strip(answer.value))
    ensures answer.Ok? && Lower(Strip(answer.value)) in ValidFields ==> r.Some?
  {
    if answer.Ok? && Lower(Strip(answer.value)) in ValidFields then Some(Lower(Strip(answer.value))) else None
  }

  /** The fields the model may name are exactly the categories of the keyword taxonomy. */
  lemma ValidFieldsAreTaxonomyNames()
    ensures |ValidFields| == |MedicalFields|
    ensures forall i :: 0 <= i < |ValidFields| ==> ValidFields[i] == MedicalFields[i].0
  {
  }

  // ---------------------------------------------------------------------
  // Routing

  /** The branch taken for `input` once the context has been updated with it. */
  function RouteFor(s: Session, input: string, fieldGuess: Outcome<string>): (r: Route)
    ensures r == Clarify <==> !HasSufficientContext(s.ctx) && FieldFromModel(fieldGuess).None?
    ensures r == LlmField ==> !Truthy(s.ctx.medicalField) && FieldFromModel(fieldGuess).Some?
    ensures HasSufficientContext(s.ctx) && s.analysis.None? ==> r in {Proactive, AllAspects, IntentRoute(s, input)}
    ensures HasSufficientContext(s.ctx) && s.analysis.Some? ==> r == IntentRoute(s, input)
    ensures r == Proactive <==> HasSufficientContext(s.ctx) && s.analysis.None? && !ContainsAny(Lower(input), Deferrals)
    ensures r == AllAspects <==>
      && Truthy(s.ctx.medicalField) && s.analysis.None? && ContainsAny(Lower(input), Deferrals)
      && (Contains(Lower(input), "all of them") || Contains(Lower(input), "all"))
    ensures HasSufficientContext(s.ctx) && r != Proactive && r != AllAspects ==> r == IntentRoute(s, input)
  {
    var text := Lower(input);
    if HasSufficientContext(s.ctx) && s.analysis.None? && !ContainsAny(text, Deferrals) then Proactive
    else if (Contains(text, "all of them") || Contains(text, "all")) && Truthy(s.ctx.medicalField) && s.analysis.None?
    then AllAspects
    else if !HasSufficientContext(s.ctx) then
      (if !Truthy(s.ctx.medicalField) && FieldFromModel(fieldGuess).Some? then LlmField else Clarify)
    else IntentRoute(s, input)
  }

  /** The branch taken once a field is known and no special case applied: the intent of the message. */
  function IntentRoute(s: Session, input: string): (r: Route)
    ensures r in {AnalysisRequest, MitigationRequest, FollowUp, AffirmMitigation, Default}
  {
    if IsAnalysisRequest(input, s.ctx) then AnalysisRequest
    else if IsMitigationRequest(input) then MitigationRequest
    else if IsFollowUp(input) then FollowUp
    else if Lower(input) in Affirmations && (PreviousMentionsMitigation(s.history) || s.analysis.Some?) then AffirmMitigation
    else Default
  }

  /**
   * The intents are tried in a fixed order: analysis, mitigation, follow-up,
   * then a bare affirmation, which leads to mitigation advice only when the
   * previous entry spoke of mitigation or results exist.
   */
  lemma IntentPriority(s: Session, input: string)
    ensures IntentRoute(s, input) == AnalysisRequest <==> IsAnalysisRequest(input, s.ctx)
    ensures IntentRoute(s, input) == MitigationRequest <==>
      !IsAnalysisRequest(input, s.ctx) && IsMitigationRequest(input)
    ensures IntentRoute(s, input) == FollowUp <==>
      !IsAnalysisRequest(input, s.ctx) && !IsMitigationRequest(input) && IsFollowUp(input)
    ensures IntentRoute(s, input) == AffirmMitigation <==>
      && !IsAnalysisRequest(input, s.ctx) && !IsMitigationRequest(input) && !IsFollowUp(input)
      && Lower(input) in Affirmations && (PreviousMentionsMitigation(s.history) || s.analysis.Some?)
  {
  }

  function AddAssistant(s: Session, response: string): Session
  {
    s.(history := s.history + [Message("assistant", response)])
  }

  /**
   * `_perform_analysis`: the three provider calls, then scoring, then the
   * results are stored, then the narrative is written. An exception anywhere
   * becomes the error reply; one raised before the results are stored leaves
   * them as they were.
   */
  function Analyze(score: ScoreFn, s: Session, o: Oracle): (t: (Session, string))
    ensures t.0.ctx == s.ctx
    ensures IsExtension(t.0.history, s.history)
    ensures ProviderFailure(o).Some? ==> t.0 == s && Contains(Lower(t.1), "error")
    ensures ProviderFailure(o).None? ==>
      t.0.analysis == Some(Results(Scope(s.ctx), TimeRangeOrDefault(s.ctx), o.dataset.value, o.subgroup.value,
                                   o.mitigation.value, score(o.dataset.value, o.subgroup.value, o.mitigation.value)))
  {
    match ProviderFailure(o)
    case Some(message) => ErrorReplyMentionsError(message); (s, ErrorReply(message))
    case None => Narrate(Store(score, s, o.dataset.value, o.subgroup.value, o.mitigation.value), o)
  }

  /** The message of the first provider call that raised, if any; the calls after it are not made. */
  function ProviderFailure(o: Oracle): (r: Option<string>)
    ensures r.None? <==> o.dataset.Ok? && o.subgroup.Ok? && o.mitigation.Ok?
  {
    if o.dataset.Raised? then Some(o.dataset.message)
    else if o.subgroup.Raised? then Some(o.subgroup.message)
    else if o.mitigation.Raised? then Some(o.mitigation.message)
    else None
  }

  /** The results stored once all three provider calls have returned. */
  function Store(score: ScoreFn, s: Session, dataset: Findings, subgroup: Findings, mitigation: Findings): (t: Session)
    ensures t.ctx == s.ctx && t.history == s.history
    ensures t.analysis == Some(Results(Scope(s.ctx), TimeRangeOrDefault(s.ctx), dataset, subgroup, mitigation,
                                       score(dataset, subgroup, mitigation)))
  {
    var result := score(dataset, subgroup, mitigation);
    s.(analysis := Some(Results(Scope(s.ctx), TimeRangeOrDefault(s.ctx), dataset, subgroup, mitigation, result)))
  }

  /** `_format_analysis_response`: the model's narrative and the follow-up offer, recorded in the history. */
  function Narrate(s: Session, o: Oracle): (t: (Session, string))
    ensures t.0.ctx == s.ctx && t.0.analysis == s.analysis
    ensures o.narrative.Raised? ==> t == (s, ErrorReply(o.narrative.message))
    ensures o.narrative.Ok? ==>
      t.1 == o.narrative.value + FollowUpOffer && t.0.history == s.history + [Message("assistant", t.1)]
  {
    if o.narrative.Raised? then (s, ErrorReply(o.narrative.message))
    else
      var response := o.narrative.value + FollowUpOffer;
      (AddAssistant(s, response), response)
  }

  /** The studies that name a fairness method, as (title, methods, url). */
  function FairnessPapers(studies: seq<Study>): (papers: seq<Study>)
    ensures |papers| <= |studies|
    ensures forall p :: p in papers ==> p in studies && p.fairnessMethods != []
    ensures forall p :: p in studies && p.fairnessMethods != [] ==> p in papers
  {
    if studies == [] then []
    else (if studies[0].fairnessMethods != [] then [studies[0]] else []) + FairnessPapers(studies[1..])
  }

  function PaperLine(p: Study): string
  {
    var title := if p.paper.Some? then p.paper.value else "Unknown";
    "- " + title + " - Methods: " + Join(p.fairnessMethods, ", ") + (if p.url != "" then " (" + p.url + ")" else "")
  }

  function PaperLines(papers: seq<Study>): (lines: seq<string>)
    ensures |lines| == |papers|
    ensures forall i :: 0 <= i < |papers| ==> lines[i] == PaperLine(papers[i])
  {
    seq(|papers|, i requires 0 <= i < |papers| => PaperLine(papers[i]))
  }

  /** The papers section: at most five papers, one line each. */
  function PapersSection(papers: seq<Study>): string
  {
    "\n\nRecent papers that applied fairness methods:\n" + Join(PaperLines(PyTake(papers, 5)), "\n")
  }

  /** The part of `_provide_mitigation_recommendations` after an analysis exists. */
  function Recommend(s: Session, o: Oracle): (r: Turn)
    requires s.analysis.Some?
    ensures r.session.ctx == s.ctx && r.session.analysis == s.analysis
    ensures r.reply.Raised? ==> r.session == s && AdviceError(o, r.reply.message)
    ensures r.reply.Ok? ==>
      && MitigationIntro(Scope(s.ctx)) <= r.reply.value
      && r.session.history == s.history + [Message("assistant", r.reply.value)]
  {
    var scope := Scope(s.ctx);
    var papers := FairnessPapers(s.analysis.value.mitigation.studies);
    if o.recommendations.Raised? then Turn(s, Raised(o.recommendations.message))
    else if papers == [] && o.suggestedPapers.Raised? then Turn(s, Raised(o.suggestedPapers.message))
    else
      var papersText := if papers != [] then PapersSection(papers) else "\n\n" + o.suggestedPapers.value;
      var response := MitigationIntro(scope) + o.recommendations.value + (if papersText != "" then papersText else "");
      Turn(AddAssistant(s, response), Ok(response))
  }

  /** `_provide_mitigation_recommendations`: analyse first when needed, and stop at a reply mentioning an error. */
  function Mitigate(score: ScoreFn, s: Session, o: Oracle): (r: Turn)
    ensures r.session.ctx == s.ctx
    ensures IsExtension(r.session.history, s.history)
    ensures s.analysis.Some? ==> r.session.analysis == s.analysis
    ensures s.analysis.None? && ProviderFailure(o).Some? ==> r.session == s && r.reply.Ok?
    ensures r.reply.Raised? ==> AdviceError(o, r.reply.message)
  {
    if s.analysis.None? then
      var (s1, r) := Analyze(score, s, o);
      if Contains(Lower(r), "error") then Turn(s1, Ok(r))
      else
        AnalysisStoredUnlessError(score, s, o);
        ExtensionTrans(Recommend(s1, o).session.history, s1.history, s.history);
        Recommend(s1, o)
    else Recommend(s, o)
  }

  lemma ExtensionTrans<T>(a: seq<T>, b: seq<T>, c: seq<T>)
    requires IsExtension(a, b) && IsExtension(b, c)
    ensures IsExtension(a, c)
  {
    assert a[..|c|] == a[..|b|][..|c|];
  }

  /** `_handle_follow_up`. */
  function FollowUpAnswer(score: ScoreFn, s: Session, input: string, o: Oracle): (r: Turn)
    ensures r.session.ctx == s.ctx
    ensures IsExtension(r.session.history, s.history)
    ensures s.analysis.Some? ==> r.session.analysis == s.analysis
    ensures r.reply.Raised? ==> AdviceError(o, r.reply.message)
  {
    var text := Lower(input);
    if (Contains(text, "concerning") || Contains(text, "that's")) && s.analysis.Some? then
      Turn(AddAssistant(s, AgreementReply), Ok(AgreementReply))
    else if (Contains(text, "what can i") || Contains(text, "how can i"))
            && (Contains(text, "focus") || Contains(text, "study") || Contains(text, "reduce")) then
      Mitigate(score, s, o)
    else if o.followUp.Raised? then Turn(s, Raised(o.followUp.message))
    else Turn(AddAssistant(s, o.followUp.value), Ok(o.followUp.value))
  }

  /** `_default_response`. */
  function DefaultAnswer(score: ScoreFn, s: Session, o: Oracle): (r: Turn)
    ensures r.reply.Ok? && r.session.ctx == s.ctx
    ensures IsExtension(r.session.history, s.history)
    ensures HasSufficientContext(s.ctx) && s.analysis.Some? ==> r.session == s && r.reply == Ok(OptionsMenu)
    ensures HasSufficientContext(s.ctx) && s.analysis.None? ==> (r.session.analysis.Some? <==> ProviderFailure(o).None?)
    ensures !HasSufficientContext(s.ctx) ==> r == Turn(s, Ok(ClarifyQuestion))
  {
    if HasSufficientContext(s.ctx) && s.analysis.None? then
      var (s1, r) := Analyze(score, s, o);
      Turn(s1, Ok(r))
    else if HasSufficientContext(s.ctx) then Turn(s, Ok(OptionsMenu))
    else Turn(s, Ok(ClarifyQuestion))
  }

  function AnalyzeTurn(score: ScoreFn, s: Session, o: Oracle): Turn
  {
    var (s1, r) := Analyze(score, s, o);
    Turn(s1, Ok(r))
  }

  /** The context and history once `update_context(user_input)` has run. */
  function Receive(s: Session, input: string): (r: Session)
    ensures r.history == s.history + [Message("user", input)] && r.analysis == s.analysis
    ensures Truthy(s.ctx.medicalField) ==> r.ctx.medicalField == s.ctx.medicalField
  {
    Session(Extract(s.ctx, input), s.history + [Message("user", input)], s.analysis)
  }

  /** `handle_message`. */
  function Step(score: ScoreFn, s: Session, input: string, o: Oracle): (r: Turn)
    ensures IsExtension(r.session.history, s.history + [Message("user", input)])
    ensures s.analysis.Some? ==> r.session.analysis.Some?
    ensures Truthy(s.ctx.medicalField) ==> r.session.ctx.medicalField == s.ctx.medicalField
    ensures r.reply.Raised? ==> AdviceError(o, r.reply.message)
  {
    var s1 := Receive(s, input);
    Dispatch(score, s1, RouteFor(s1, input, o.fieldGuess), input, o)
  }

  /** What each branch does once the context has been updated. */
  function Dispatch(score: ScoreFn, s1: Session, route: Route, input: string, o: Oracle): (r: Turn)
    ensures IsExtension(r.session.history, s1.history)
    ensures s1.analysis.Some? ==> r.session.analysis.Some?
    ensures route != LlmField ==> r.session.ctx.medicalField == s1.ctx.medicalField
    ensures r.reply.Raised? ==> route in {MitigationRequest, FollowUp, AffirmMitigation} && AdviceError(o, r.reply.message)
  {
    match route
    case Proactive => AnalyzeTurn(score, s1, o)
    case AllAspects => AnalyzeTurn(score, s1.(ctx := s1.ctx.(biasAspects := ["all"])), o)
    case LlmField => AnalyzeTurn(score, s1.(ctx := s1.ctx.(medicalField := FieldFromModel(o.fieldGuess))), o)
    case Clarify => Turn(s1, Ok(ClarifyQuestion))
    case AnalysisRequest => AnalyzeTurn(score, s1, o)
    case MitigationRequest => Mitigate(score, s1, o)
    case FollowUp => FollowUpAnswer(score, s1, input, o)
    case AffirmMitigation => Mitigate(score, s1, o)
    case Default => DefaultAnswer(score, s1, o)
  }

  // ---------------------------------------------------------------------
  // Properties

  /** Every failure reply of the analysis mentions an error. */
  lemma ErrorReplyMentionsError(message: string)
    ensures Contains(Lower(ErrorReply(message)), "error")
  {
    var prefix := "I encountered an error while analyzing: ";
    var e := ErrorReply(message);
    assert e[..|prefix|] == prefix;
    assert e[17] == 'e' && e[18] == 'r' && e[19] == 'r' && e[20] == 'o' && e[21] == 'r';
    assert e[17..22] == "error";
    assert MatchAt(e, "error", 17);
    ContainsLower(e, "error");
  }

  /** Whenever the analysis reply does not mention an error, results have been stored. */
  lemma AnalysisStoredUnlessError(score: ScoreFn, s: Session, o: Oracle)
    ensures var (s1, r) := Analyze(score, s, o);
      !Contains(Lower(r), "error") ==> s1.analysis.Some?
  {
    if o.dataset.Raised? {
      ErrorReplyMentionsError(o.dataset.message);
    } else if o.subgroup.Raised? {
      ErrorReplyMentionsError(o.subgroup.message);
    } else if o.mitigation.Raised? {
      ErrorReplyMentionsError(o.mitigation.message);
    }
  }

  /**
   * Results are stored only when all three provider calls returned, and
   * they are then exactly the provider's findings and their score; a failing
   * provider call leaves the stored results unchanged.
   */
  lemma AnalyzeStoresOnlyAfterProviders(score: ScoreFn, s: Session, o: Oracle)
    ensures var (s1, r) := Analyze(score, s, o);
      && (s1.analysis != s.analysis ==>
            && o.dataset.Ok? && o.subgroup.Ok? && o.mitigation.Ok?
            && s1.analysis == Some(Results(Scope(s.ctx), TimeRangeOrDefault(s.ctx),
                                           o.dataset.value, o.subgroup.value, o.mitigation.value,
                                           score(o.dataset.value, o.subgroup.value, o.mitigation.value))))
      && (o.dataset.Raised? || o.subgroup.Raised? || o.mitigation.Raised? ==> s1 == s && Contains(Lower(r), "error"))
      && (o.dataset.Ok? && o.subgroup.Ok? && o.mitigation.Ok? && o.narrative.Raised? ==>
            r == ErrorReply(o.narrative.message) && s1.history == s.history)
      && s1.ctx == s.ctx
  {
    if o.dataset.Raised? {
      ErrorReplyMentionsError(o.dataset.message);
    } else if o.subgroup.Raised? {
      ErrorReplyMentionsError(o.subgroup.message);
    } else if o.mitigation.Raised? {
      ErrorReplyMentionsError(o.mitigation.message);
    }
  }

  predicate IsExtension<T(==)>(longer: seq<T>, shorter: seq<T>)
  {
    |longer| >= |shorter| && longer[..|shorter|] == shorter
  }

  lemma AnalyzeAppends(score: ScoreFn, s: Session, o: Oracle)
    ensures IsExtension(Analyze(score, s, o).0.history, s.history)
    ensures IsExtension(AnalyzeTurn(score, s, o).session.history, s.history)
  {
    if o.dataset.Raised? || o.subgroup.Raised? || o.mitigation.Raised? {
      assert Analyze(score, s, o).0 == s;
    } else {
      var st := Store(score, s, o.dataset.value, o.subgroup.value, o.mitigation.value);
      assert st.history == s.history;
      NarrateAppends(st, o);
      assert Analyze(score, s, o) == Narrate(st, o);
    }
  }

  lemma NarrateAppends(s: Session, o: Oracle)
    ensures IsExtension(Narrate(s, o).0.history, s.history)
  {
  }

  lemma MitigateAppends(score: ScoreFn, s: Session, o: Oracle)
    ensures IsExtension(Mitigate(score, s, o).session.history, s.history)
  {
    if s.analysis.None? {
      var (s1, r) := Analyze(score, s, o);
      AnalyzeAppends(score, s, o);
      if !Contains(Lower(r), "error") {
        AnalysisStoredUnlessError(score, s, o);
        var h := Recommend(s1, o).session.history;
        assert h[..|s1.history|] == s1.history;
        assert h[..|s.history|] == s1.history[..|s.history|];
      }
    }
  }

  /** Every branch after the update only appends to the history. */
  lemma DispatchAppends(score: ScoreFn, s1: Session, route: Route, input: string, o: Oracle)
    ensures IsExtension(Dispatch(score, s1, route, input, o).session.history, s1.history)
  {
    match route
    case Proactive => AnalyzeAppends(score, s1, o);
    case AllAspects => AnalyzeAppends(score, s1.(ctx := s1.ctx.(biasAspects := ["all"])), o);
    case LlmField => AnalyzeAppends(score, s1.(ctx := s1.ctx.(medicalField := FieldFromModel(o.fieldGuess))), o);
    case Clarify =>
    case AnalysisRequest => AnalyzeAppends(score, s1, o);
    case MitigationRequest => MitigateAppends(score, s1, o);
    case FollowUp => FollowUpAppends(score, s1, input, o);
    case AffirmMitigation => MitigateAppends(score, s1, o);
    case Default => DefaultAppends(score, s1, o);
  }

  lemma FollowUpAppends(score: ScoreFn, s: Session, input: string, o: Oracle)
    ensures IsExtension(FollowUpAnswer(score, s, input, o).session.history, s.history)
  {
    MitigateAppends(score, s, o);
  }

  lemma DefaultAppends(score: ScoreFn, s: Session, o: Oracle)
    ensures IsExtension(DefaultAnswer(score, s, o).session.history, s.history)
  {
    AnalyzeAppends(score, s, o);
  }

  /** Each turn first records the user's message, and no branch removes or rewrites history. */
  lemma StepRecordsMessage(score: ScoreFn, s: Session, input: string, o: Oracle)
    ensures IsExtension(Step(score, s, input, o).session.history, s.history + [Message("user", input)])
  {
    var s1 := Receive(s, input);
    DispatchAppends(score, s1, RouteFor(s1, input, o.fieldGuess), input, o);
  }

  /** The clarifying question is asked exactly when no field is known after the update and the model names none. */
  lemma ClarifyExactly(s1: Session, input: string, fieldGuess: Outcome<string>)
    ensures RouteFor(s1, input, fieldGuess) == Clarify <==>
            !HasSufficientContext(s1.ctx) && FieldFromModel(fieldGuess).None?
  {
  }

  /** With a field known, nothing analysed and no deferral word, the message is answered by the analysis. */
  lemma ProactiveAnalysis(score: ScoreFn, s: Session, input: string, o: Oracle)
    requires var s1 := Receive(s, input);
      HasSufficientContext(s1.ctx) && s1.analysis.None? && !ContainsAny(Lower(input), Deferrals)
    ensures Step(score, s, input, o) == AnalyzeTurn(score, Receive(s, input), o)
  {
  }

  /**
   * A deferral word does not prevent the analysis: with a field known and
   * nothing analysed, a message that asks neither for mitigation nor a
   * follow-up is answered by an analysis, which stores results whenever the
   * providers answer.
   */
  lemma DeferralStillAnalyses(score: ScoreFn, s: Session, input: string, o: Oracle)
    requires var s1 := Receive(s, input);
      HasSufficientContext(s1.ctx) && s1.analysis.None? && IntentRoute(s1, input) in {AnalysisRequest, Default}
    ensures Step(score, s, input, o).reply.Ok?
    ensures Step(score, s, input, o).session.analysis.Some? <==> ProviderFailure(o).None?
  {
    var s1 := Receive(s, input);
    var route := RouteFor(s1, input, o.fieldGuess);
    RouteWithFieldAndNoResults(s1, input, o.fieldGuess);
    DispatchAnalyses(score, s1, route, input, o);
  }

  /**
   * With a field known and nothing analysed, a deferral word together with
   * "all" takes the "all" branch: the aspects become ["all"] and the message
   * is answered by an analysis, which stores results whenever the providers
   * answer.
   */
  lemma AllAspectsAnalyses(score: ScoreFn, s: Session, input: string, o: Oracle)
    requires var s1 := Receive(s, input);
      && Truthy(s1.ctx.medicalField) && s1.analysis.None?
      && ContainsAny(Lower(input), Deferrals) && Contains(Lower(input), "all")
    ensures RouteFor(Receive(s, input), input, o.fieldGuess) == AllAspects
    ensures Step(score, s, input, o).session.ctx.biasAspects == ["all"]
    ensures Step(score, s, input, o).reply.Ok?
    ensures Step(score, s, input, o).session.analysis.Some? <==> ProviderFailure(o).None?
  {
    var s1 := Receive(s, input);
    assert RouteFor(s1, input, o.fieldGuess) == AllAspects;
    DispatchAnalyses(score, s1, AllAspects, input, o);
  }

  /** "not really" reads as a deferral ("no" inside "not") and as "all" (inside "really"). */
  lemma NotReallyMeansAll()
    ensures ContainsAny(Lower("not really"), Deferrals)
    ensures Contains(Lower("not really"), "all")
  {
    var text := Lower("not really");
    assert text == "not really";
    assert MatchAt(text, "no", 0);
    assert "no" in Deferrals;
    assert MatchAt(text, "all", 6);
  }

  /** With a field known and nothing analysed yet, the route is a special case or the intent. */
  lemma RouteWithFieldAndNoResults(s1: Session, input: string, fieldGuess: Outcome<string>)
    requires HasSufficientContext(s1.ctx) && s1.analysis.None?
    ensures RouteFor(s1, input, fieldGuess) in {Proactive, AllAspects, IntentRoute(s1, input)}
  {
  }

  /** The routes that analyse reply without raising, and store results exactly when the providers all answer. */
  lemma DispatchAnalyses(score: ScoreFn, s1: Session, route: Route, input: string, o: Oracle)
    requires HasSufficientContext(s1.ctx) && s1.analysis.None?
    requires route in {Proactive, AllAspects, AnalysisRequest, Default}
    ensures Dispatch(score, s1, route, input, o).reply.Ok?
    ensures Dispatch(score, s1, route, input, o).session.analysis.Some? <==> ProviderFailure(o).None?
  {
    match route
    case Proactive => AnalyzeStoresOnlyAfterProviders(score, s1, o);
    case AnalysisRequest => AnalyzeStoresOnlyAfterProviders(score, s1, o);
    case Default => AnalyzeStoresOnlyAfterProviders(score, s1, o);
    case AllAspects => AnalyzeStoresOnlyAfterProviders(score, s1.(ctx := s1.ctx.(biasAspects := ["all"])), o);
  }

  /** Stored results are never dropped by a later message. */
  lemma ResultsPersist(score: ScoreFn, s: Session, input: string, o: Oracle)
    requires s.analysis.Some?
    ensures Step(score, s, input, o).session.analysis.Some?
  {
    var s1 := Receive(s, input);
    DispatchKeepsResults(score, s1, RouteFor(s1, input, o.fieldGuess), input, o);
  }

  lemma DispatchKeepsResults(score: ScoreFn, s1: Session, route: Route, input: string, o: Oracle)
    requires s1.analysis.Some?
    ensures Dispatch(score, s1, route, input, o).session.analysis.Some?
  {
    match route
    case Proactive => AnalyzeKeepsResults(score, s1, o);
    case AllAspects => AnalyzeKeepsResults(score, s1.(ctx := s1.ctx.(biasAspects := ["all"])), o);
    case LlmField => AnalyzeKeepsResults(score, s1.(ctx := s1.ctx.(medicalField := FieldFromModel(o.fieldGuess))), o);
    case Clarify =>
    case AnalysisRequest => AnalyzeKeepsResults(score, s1, o);
    case MitigationRequest => MitigateKeepsResults(score, s1, o);
    case FollowUp => FollowUpKeepsResults(score, s1, input, o);
    case AffirmMitigation => MitigateKeepsResults(score, s1, o);
    case Default => DefaultKeepsResults(score, s1, o);
  }

  lemma FollowUpKeepsResults(score: ScoreFn, s: Session, input: string, o: Oracle)
    requires s.analysis.Some?
    ensures FollowUpAnswer(score, s, input, o).session.analysis.Some?
  {
    MitigateKeepsResults(score, s, o);
  }

  lemma DefaultKeepsResults(score: ScoreFn, s: Session, o: Oracle)
    requires s.analysis.Some?
    ensures DefaultAnswer(score, s, o).session.analysis.Some?
  {
  }

  lemma AnalyzeKeepsResults(score: ScoreFn, s: Session, o: Oracle)
    requires s.analysis.Some?
    ensures Analyze(score, s, o).0.analysis.Some?
  {
  }

  lemma MitigateKeepsResults(score: ScoreFn, s: Session, o: Oracle)
    requires s.analysis.Some?
    ensures Mitigate(score, s, o).session.analysis == s.analysis
  {
  }

  /** A known field is never replaced: neither keyword extraction nor any branch overwrites it. */
  lemma StepKeepsKnownField(score: ScoreFn, s: Session, input: string, o: Oracle)
    requires Truthy(s.ctx.medicalField)
    ensures Step(score, s, input, o).session.ctx.medicalField == s.ctx.medicalField
  {
    var s1 := Receive(s, input);
    assert s1.ctx.medicalField == s.ctx.medicalField;
    KnownFieldRoute(s1, input, o.fieldGuess);
    DispatchKeepsField(score, s1, RouteFor(s1, input, o.fieldGuess), input, o);
  }

  /** With a field known, the model is never asked for one. */
  lemma KnownFieldRoute(s1: Session, input: string, fieldGuess: Outcome<string>)
    requires Truthy(s1.ctx.medicalField)
    ensures RouteFor(s1, input, fieldGuess) != LlmField
  {
  }

  lemma DispatchKeepsField(score: ScoreFn, s1: Session, route: Route, input: string, o: Oracle)
    requires route != LlmField
    ensures Dispatch(score, s1, route, input, o).session.ctx.medicalField == s1.ctx.medicalField
  {
    match route
    case Proactive => AnalyzeStoresOnlyAfterProviders(score, s1, o);
    case AllAspects => AnalyzeStoresOnlyAfterProviders(score, s1.(ctx := s1.ctx.(biasAspects := ["all"])), o);
    case Clarify =>
    case AnalysisRequest => AnalyzeStoresOnlyAfterProviders(score, s1, o);
    case MitigationRequest => MitigateKeepsContext(score, s1, o);
    case FollowUp => MitigateKeepsContext(score, s1, o);
    case AffirmMitigation => MitigateKeepsContext(score, s1, o);
    case Default => AnalyzeStoresOnlyAfterProviders(score, s1, o);
  }

  lemma MitigateKeepsContext(score: ScoreFn, s: Session, o: Oracle)
    ensures Mitigate(score, s, o).session.ctx == s.ctx
  {
    AnalyzeStoresOnlyAfterProviders(score, s, o);
  }

  /**
   * The provider calls and the analysis narrative never raise out of
   * `handle_message`: an exception escapes only from the model calls of the
   * mitigation advice and the follow-up answer, on those three routes.
   */
  lemma OnlyAdviceErrorsEscape(score: ScoreFn, s: Session, input: string, o: Oracle)
    ensures var t := Step(score, s, input, o);
      t.reply.Raised? ==>
        && RouteFor(Receive(s, input), input, o.fieldGuess) in {MitigationRequest, FollowUp, AffirmMitigation}
        && AdviceError(o, t.reply.message)
  {
    var s1 := Receive(s, input);
    DispatchErrors(score, s1, RouteFor(s1, input, o.fieldGuess), input, o);
  }

  /** `message` is that of a model call made for the mitigation advice or the follow-up answer. */
  predicate AdviceError(o: Oracle, message: string)
  {
    || (o.recommendations.Raised? && message == o.recommendations.message)
    || (o.suggestedPapers.Raised? && message == o.suggestedPapers.message)
    || (o.followUp.Raised? && message == o.followUp.message)
  }

  lemma DispatchErrors(score: ScoreFn, s1: Session, route: Route, input: string, o: Oracle)
    ensures var t := Dispatch(score, s1, route, input, o);
      t.reply.Raised? ==> route in {MitigationRequest, FollowUp, AffirmMitigation} && AdviceError(o, t.reply.message)
  {
    match route
    case Proactive =>
    case AllAspects =>
    case LlmField =>
    case Clarify =>
    case AnalysisRequest =>
    case MitigationRequest => MitigateErrors(score, s1, o);
    case FollowUp => MitigateErrors(score, s1, o);
    case AffirmMitigation => MitigateErrors(score, s1, o);
    case Default =>
  }

  lemma MitigateErrors(score: ScoreFn, s: Session, o: Oracle)
    ensures var t := Mitigate(score, s, o);
      t.reply.Raised? ==> AdviceError(o, t.reply.message)
  {
  }

  /** Filtering a list extended by one study extends the filtered list by that study when it names a method. */
  lemma {:induction false} FairnessPapersSnoc(studies: seq<Study>, x: Study)
    ensures FairnessPapers(studies + [x]) == FairnessPapers(studies) + (if x.fairnessMethods != [] then [x] else [])
    decreases |studies|
  {
    if studies == [] {
      assert studies + [x] == [x];
      assert FairnessPapers([x][1..]) == [];
    } else {
      assert (studies + [x])[0] == studies[0];
      assert (studies + [x])[1..] == studies[1..] + [x];
      FairnessPapersSnoc(studies[1..], x);
    }
  }

  /** One more study of the prefix adds that study exactly when it names a fairness method. */
  lemma FairnessPapersPrefix(studies: seq<Study>, i: nat)
    requires i < |studies|
    ensures FairnessPapers(studies[..i + 1])
         == FairnessPapers(studies[..i]) + (if studies[i].fairnessMethods != [] then [studies[i]] else [])
  {
    var prefix, x := studies[..i], studies[i];
    assert studies[..i + 1] == prefix + [x];
    FairnessPapersSnoc(prefix, x);
  }

  // ---------------------------------------------------------------------
  // The stateful handler

  class ConversationHandler {
    var cm: ContextManager
    var analysis: Option<Results>
    /** `self.scorer.compute_bias_score`. */
    const score: ScoreFn

    /** The handler's state as a value. */
    function Snapshot(): Session
      reads this, cm
    {
      Session(cm.State(), cm.history, analysis)
    }

    /** Without a scorer, the one built from the configured weights and threshold. */
    constructor(given: Option<Scorer>)
      ensures Snapshot() == Session(Fresh, [], None)
      ensures var scorer := if given.Some? then given.value else Scorer(Config.ScoreWeights, Config.BiasScoreThreshold);
        forall d, g, m :: score(d, g, m) == ComputeBiasScore(scorer, d, g, m)
      ensures fresh(cm)
    {
      cm := new ContextManager();
      analysis := None;
      var scorer := if given.Some? then given.value else Scorer(Config.ScoreWeights, Config.BiasScoreThreshold);
      score := (d, g, m) => ComputeBiasScore(scorer, d, g, m);
    }

    /** `reset`: a new context manager and no results. */
    method Reset()
      modifies this
      ensures Snapshot() == Session(Fresh, [], None)
      ensures !HasSufficientContext(Snapshot().ctx)
      ensures fresh(cm)
    {
      cm := new ContextManager();
      analysis := None;
    }

    /** `handle_message`. */
    method HandleMessage(userInput: string, o: Oracle) returns (reply: Outcome<string>)
      modifies this, cm
      ensures cm == old(cm)
      ensures Turn(Snapshot(), reply) == Step(score, old(Snapshot()), userInput, o)
    {
      cm.UpdateContext(userInput, NoInfo);
      reply := Respond(userInput, o);
    }

    /** `handle_message` after `update_context`: the special cases, then the intent. */
    method Respond(userInput: string, o: Oracle) returns (reply: Outcome<string>)
      modifies this, cm
      ensures cm == old(cm)
      ensures Turn(Snapshot(), reply) ==
              Dispatch(score, old(Snapshot()), RouteFor(old(Snapshot()), userInput, o.fieldGuess), userInput, o)
    {
      var route := RouteFor(Snapshot(), userInput, o.fieldGuess);
      if route == Proactive {
        var r := PerformAnalysis(o);
        reply := Ok(r);
      } else if route == AllAspects {
        // a truthy field is a sufficient context, so the analysis always follows
        cm.SetAllAspects();
        var r := PerformAnalysis(o);
        reply := Ok(r);
      } else if route == LlmField {
        cm.SetMedicalField(FieldFromModel(o.fieldGuess).value);
        var r := PerformAnalysis(o);
        reply := Ok(r);
      } else if route == Clarify {
        reply := Ok(ClarifyQuestion);
      } else {
        reply := RespondToIntent(userInput, o);
      }
    }

    /** The intent checks of `handle_message`, in order, then `_default_response`. */
    method RespondToIntent(userInput: string, o: Oracle) returns (reply: Outcome<string>)
      modifies this, cm
      ensures cm == old(cm)
      ensures Turn(Snapshot(), reply) == Dispatch(score, old(Snapshot()), IntentRoute(old(Snapshot()), userInput), userInput, o)
    {
      var route := IntentRoute(Snapshot(), userInput);
      if route == AnalysisRequest {
        var r := PerformAnalysis(o);
        reply := Ok(r);
      } else if route == MitigationRequest || route == AffirmMitigation {
        reply := ProvideMitigation(o);
      } else if route == FollowUp {
        reply := HandleFollowUp(userInput, o);
      } else {
        reply := DefaultResponse(o);
      }
    }

    /** `_perform_analysis` with `_format_analysis_response`. */
    method PerformAnalysis(o: Oracle) returns (r: string)
      modifies this, cm
      ensures cm == old(cm)
      ensures (Snapshot(), r) == Analyze(score, old(Snapshot()), o)
    {
      ghost var s0 := Snapshot();
      var failure := ProviderFailure(o);
      if failure.Some? {
        return ErrorReply(failure.value);
      }
      StoreResults(o.dataset.value, o.subgroup.value, o.mitigation.value);
      ghost var stored := Snapshot();
      assert stored == Store(score, s0, o.dataset.value, o.subgroup.value, o.mitigation.value);
      r := FormatAnalysisResponse(o);
      assert (Snapshot(), r) == Narrate(stored, o);
    }

    /** The scoring and the assignment of `analysis_results`. */
    method StoreResults(dataset: Findings, subgroup: Findings, mitigation: Findings)
      modifies this
      ensures cm == old(cm)
      ensures Snapshot() == Store(score, old(Snapshot()), dataset, subgroup, mitigation)
    {
      ghost var s0 := Snapshot();
      var scope := Scope(cm.State());
      var years := TimeRangeOrDefault(cm.State());
      var result := score(dataset, subgroup, mitigation);
      analysis := Some(Results(scope, years, dataset, subgroup, mitigation, result));
      assert Snapshot() == s0.(analysis := analysis);
    }

    /** `_format_analysis_response`. */
    method FormatAnalysisResponse(o: Oracle) returns (r: string)
      modifies cm
      ensures (Snapshot(), r) == Narrate(old(Snapshot()), o)
    {
      if o.narrative.Raised? {
        return ErrorReply(o.narrative.message);
      }
      r := o.narrative.value + FollowUpOffer;
      cm.AddAssistantResponse(r);
    }

    /** `_provide_mitigation_recommendations`. */
    method ProvideMitigation(o: Oracle) returns (reply: Outcome<string>)
      modifies this, cm
      ensures cm == old(cm)
      ensures Turn(Snapshot(), reply) == Mitigate(score, old(Snapshot()), o)
    {
      ghost var s0 := Snapshot();
      if analysis.None? {
        var r := PerformAnalysis(o);
        if Contains(Lower(r), "error") {
          return Ok(r);
        }
        AnalysisStoredUnlessError(score, s0, o);
      }
      ghost var s1 := Snapshot();
      assert s1.analysis.Some?;
      assert Mitigate(score, s0, o) == Recommend(s1, o);
      reply := Recommendations(o);
    }

    /** The part of `_provide_mitigation_recommendations` once results exist. */
    method Recommendations(o: Oracle) returns (reply: Outcome<string>)
      requires analysis.Some?
      modifies cm
      ensures Turn(Snapshot(), reply) == Recommend(old(Snapshot()), o)
    {
      var scope := Scope(cm.State());
      var papers := CollectFairnessPapers(analysis.value.mitigation.studies);
      if o.recommendations.Raised? {
        return Raised(o.recommendations.message);
      }
      var papersText: string;
      if papers != [] {
        papersText := FormatPapers(papers);
      } else {
        if o.suggestedPapers.Raised? {
          return Raised(o.suggestedPapers.message);
        }
        papersText := "\n\n" + o.suggestedPapers.value;
      }
      var response := MitigationIntro(scope) + o.recommendations.value;
      if papersText != "" {
        response := response + papersText;
      }
      cm.AddAssistantResponse(response);
      reply := Ok(response);
    }

    /** `_handle_follow_up`. */
    method HandleFollowUp(userInput: string, o: Oracle) returns (reply: Outcome<string>)
      modifies this, cm
      ensures cm == old(cm)
      ensures Turn(Snapshot(), reply) == FollowUpAnswer(score, old(Snapshot()), userInput, o)
    {
      var text := Lower(userInput);
      if Contains(text, "concerning") || Contains(text, "that's") {
        if analysis.Some? {
          cm.AddAssistantResponse(AgreementReply);
          return Ok(AgreementReply);
        }
      }
      if Contains(text, "what can i") || Contains(text, "how can i") {
        if Contains(text, "focus") || Contains(text, "study") || Contains(text, "reduce") {
          reply := ProvideMitigation(o);
          return;
        }
      }
      if o.followUp.Raised? {
        return Raised(o.followUp.message);
      }
      cm.AddAssistantResponse(o.followUp.value);
      reply := Ok(o.followUp.value);
    }

    /** `_default_response`. */
    method DefaultResponse(o: Oracle) returns (reply: Outcome<string>)
      modifies this, cm
      ensures cm == old(cm)
      ensures Turn(Snapshot(), reply) == DefaultAnswer(score, old(Snapshot()), o)
    {
      if HasSufficientContext(cm.State()) && analysis.None? {
        var r := PerformAnalysis(o);
        reply := Ok(r);
      } else if HasSufficientContext(cm.State()) {
        reply := Ok(OptionsMenu);
      } else {
        reply := Ok(ClarifyQuestion);
      }
    }
  }

  /** The loop collecting the studies that name a fairness method. */
  method CollectFairnessPapers(studies: seq<Study>) returns (papers: seq<Study>)
    ensures papers == FairnessPapers(studies)
  {
    papers := [];
    for i := 0 to |studies|
      invariant papers == FairnessPapers(studies[..i])
    {
      FairnessPapersPrefix(studies, i);
      if studies[i].fairnessMethods != [] {
        papers := papers + [studies[i]];
      }
    }
    assert studies[..|studies|] == studies;
  }

  /** The loop writing one line for each of the first five papers. */
  method FormatPapers(papers: seq<Study>) returns (text: string)
    ensures text == PapersSection(papers)
  {
    var top := PyTake(papers, 5);
    var lines: seq<string> := [];
    for i := 0 to |top|
      invariant lines == PaperLines(top)[..i]
    {
      lines := lines + [PaperLine(top[i])];
    }
    assert lines == PaperLines(top);
    text := "\n\nRecent papers that applied fairness methods:\n" + Join(lines, "\n");
  }
}
