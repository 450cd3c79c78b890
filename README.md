# Bias-analysis chat tool: a Dafny model of its decision logic

The system is a chat assistant for researchers who study racial bias in
medical AI. A user names a medical field, a condition or a time window. The
assistant then does four things:

- it asks a language model and a literature-analysis provider for three
  findings dictionaries: dataset composition, subgroup performance, and
  mitigation and validation;
- it turns those findings into a bias score, where higher is worse;
- it explains the score and recommends mitigation methods;
- it keeps evaluation metrics about its own answers: citations, flagged
  gaps, response times and reproducibility across repeated batch runs.

This project models the deterministic part of that system, file by file.
Every call to the language model, the paper search services or the analysis
provider is a parameter:

- **Scoring** (`scoring.dfy`, with the `config.py` constants in `common.dfy`):
  - the six component scores and their edge cases;
  - the weighted sum and the flag;
  - the top-3 drivers after a stable descending sort;
  - the confidence label;
  - the construction-time weight check.
- **Context** (`context.dfy`): the conversation context as a `ContextManager`
  class whose methods update its fields in place. This covers keyword
  extraction over fixed taxonomies, time-window phrases, the aspect list,
  and the getters: scope, default time range, missing fields and summary.
- **Handler** (`handler.dfy`): the message router.
  - `ConversationHandler` is a class. Its methods update the context manager
    and the stored analysis results.
  - Each method is proved equal to a function on a `Session` value.
  - The properties of the routing and of the state changes are proved about
    those functions.
  - The language model and the analysis provider are an `Oracle`: the value
    or the exception each call produced.
- **Analysis** (`analysis.dfy`):
  - severity bands;
  - notable cases;
  - the baseline comparison;
  - title deduplication of papers;
  - the line-based `**Header**` section parser;
  - the default case focus.
- **Research** (`research.dfy`):
  - word-overlap deduplication of papers;
  - the cap on the combined search result;
  - the numbered paper list for the model's prompt.
- **Metrics** (`metrics.dfy`): the per-session tracker as a class, the
  session rates, the upper median, the aggregate over sessions and the
  target checks.
- **Graphs** (`graphs.dfy`): pooled metrics over stored sessions, batch-level
  overrides, and the met/not-met rule of the metric chart.
- **Batch** (`batch.dfy`): the batch runner as a class. This covers its
  bookkeeping, output comparison, and the pairwise reproducibility rate over
  sessions grouped by (corpus, seed).
- **Extractor** (`extractor.dfy`): sentence splitting on runs of `.!?`, claim
  and gap extraction, and the flag predicates.
- **Support modules**:
  - `text.dfy`: ASCII lower-casing, substring tests, strip, split, join and
    Python slicing;
  - `stats.dfy`: insertion sort, upper median and mean.

Numbers are exact `real`s. Python dictionaries with a fixed key set are
datatypes. A missing key is `None`, or the `.get` default written out.
Dictionaries whose insertion order matters are association lists: the score
breakdown and the weight table are `Tables.Table`.

## Model

| member | source | states |
|---|---|---|
| Config.DefaultWeightsAreValid | config.py:23-30 | the six default weights are positive, have distinct keys, sum to exactly 1, and their keys are the breakdown's six keys in order |
| Scoring.MissingRatio | scoring.py:41-45 | 1.0 when the total is 0; otherwise capped at 1, and equal to 1 − part/total in [0,1] when 0 ≤ part ≤ total |
| Scoring.RaceLabelScore | scoring.py:37-45 | 1.0 with no datasets; otherwise 1 − labelled/total, at most 1 |
| Scoring.RepresentationGap | scoring.py:63-70 | lies in [0,1]; is 0 exactly when the proportion reaches the target, 1 exactly when it is 0 or below, and (target − p)/target in between |
| Scoring.DarkSkinScore | scoring.py:58-82 | the gap of `avg_dark_skin_proportion` to 0.25 when that key is present; otherwise the gap of `avg_minority_representation` (default 0) to the minority target; in [0,1] |
| Scoring.SubgroupScore | scoring.py:95-104 | 1.0 with no studies; the top-level `no_subgroup_reporting`/total when that count is positive; otherwise the missing-metrics ratio; capped at 1 |
| Scoring.DiversityScore | scoring.py:128-130 | case-insensitively, "high" gives 0, "medium" 0.5, and anything else 1 |
| Scoring.GeographicScore | scoring.py:120-133 | the mean of the diversity scores of the dataset's and the validation's geographic labels (missing reads "low"); one of 0, 0.25, 0.5, 0.75, 1, and 0 iff both read "high" |
| Scoring.FairnessMethodScore | scoring.py:146-154 | 1.0 with no studies; otherwise 1 − with-methods/total, at most 1 |
| Scoring.ExternalValidationScore | scoring.py:167-175 | 1.0 with no studies; otherwise 1 − validated/total, at most 1 |
| Scoring.Breakdown | scoring.py:192-201 | exactly the six dimension keys, in declaration order, with no key repeated, each looking up its own dimension score |
| Scoring.DimensionTable | scoring.py:192-201 | the six named scores under the six dimension keys, in order, each key looking up its own score |
| Scoring.DefaultThresholds | config.py:19-42 | with the default configuration, flagged iff the score is ≥ 0.30, "high" confidence iff at least 2 sources, and a dark-skin proportion ≥ 0.25 closes the gap |
| Scoring.BreakdownInUnitInterval | scoring.py:192-201 | on findings whose parts lie within their totals, every component lies in [0,1] |
| Scoring.EffectiveWeights | scoring.py:18 | a missing or empty weight table is replaced by the default |
| Scoring.EffectiveThreshold | scoring.py:19 | a missing threshold, or 0.0, is replaced by the default 0.30 |
| Scoring.NewScorer | scoring.py:16-24 | construction fails, reporting the sum, iff the effective weights' sum is more than 0.01 away from 1; on success it keeps the effective weights and threshold |
| Scoring.DefaultScorerConstructs | scoring.py:16-24 | the default scorer is accepted, and passing the defaults explicitly builds the same scorer |
| Scoring.InsertDesc | scoring.py:210 | inserting keeps the multiset of entries and adds one |
| Scoring.SortDesc | scoring.py:210 | the sorted breakdown is a permutation of the breakdown |
| Scoring.SortDescCorrect | scoring.py:210 | `sorted(…, reverse=True)`: descending by score, a permutation, and stable (entries with equal scores keep their order) |
| Scoring.InsertDescSorted | scoring.py:210 | inserting into a descending list keeps it descending |
| Scoring.InsertDescStable | scoring.py:210 | an insertion places the new entry before the existing entries with the same score (the fold runs from the back) |
| Scoring.SortDescOfDescending | scoring.py:210 | sorting an already descending breakdown changes nothing |
| Scoring.AboveHalf | scoring.py:213-217 | keeps only entries from the list that score above 0.5, and for every score above 0.5 exactly the list's entries with that score, in order, once each |
| Scoring.AboveHalfDescends | scoring.py:213-217 | the filter keeps a descending list descending |
| Scoring.AboveHalfKeepsHigh | scoring.py:213-217 | every entry above 0.5 survives the filter |
| Scoring.DriverEntries | scoring.py:210-217 | at most 3 drivers, in descending order, each an entry of the breakdown scoring above 0.5; every driver is among the first three of the sorted breakdown, and each of those first three scoring above 0.5 is a driver; for every score above 0.5 the drivers with that score are those of the first three, in their order, once each, so ties keep declaration order |
| Scoring.DriverEntriesLead | scoring.py:210-217 | when the top sorted entry is above 0.5 it is the first driver |
| Scoring.DriverKeysInBreakdown | scoring.py:210-217 | every driver key names a breakdown entry that scores above 0.5 |
| Scoring.TwoDrivers | scoring.py:213-217 | with the third entry at or below 0.5, exactly the first two become drivers |
| Scoring.ConfidenceFor | scoring.py:223-229 | "high" iff the total sources are ≥ 2, "low" iff there are none, "medium" otherwise |
| Scoring.ComputeBiasScore | scoring.py:177-238 | the result has the six-key breakdown, the weighted sum as score, flagged iff score ≥ threshold, the driver keys, and the confidence of the total sources |
| Scoring.DriverKeysFromTop | scoring.py:210-217 | the driver keys are exactly the keys of the first three sorted entries that score above 0.5 |
| Scoring.ComputeBiasScoreDrivers | scoring.py:210-220 | at most 3 drivers, each naming a breakdown component above 0.5; a key is a driver iff it is among the first three of the sorted breakdown with a score above 0.5 |
| Scoring.WeightedSum | scoring.py:204-207 | with components in [0,1] and non-negative weights, the sum lies between 0 and the weight of the breakdown's keys |
| Scoring.WeightOfKeysBounded | scoring.py:204-207 | the weight of distinct keys lies between 0 and the total weight |
| Scoring.WeightedSumInRange | scoring.py:204-207 | a weighted sum of unit-interval components lies in [0, Σ weights] |
| Scoring.ScoreInRange | scoring.py:204-207 | on well-formed findings the score lies in [0, Σ weights], so in [0,1] for weights summing to 1 |
| Scoring.GetNonNegative | scoring.py:206 | `weights.get(k, 0.0)` is non-negative for a non-negative table |
| Scoring.WeightedSumOfZeros | scoring.py:204-207 | an all-zero breakdown scores 0 |
| Scoring.ExampleComponents | scoring.py:37-175 | the six components of a concrete dermatology-like input |
| Scoring.WorkedExample | scoring.py:177-238 | on that input the score is 0.27, so not flagged; the drivers are race labels then dark skin, and confidence is high |
| Context.TaxonomyNamesNonEmpty | context_manager.py:51-80 | every field and condition category has a non-empty name |
| Context.FirstMatchIndex | context_manager.py:51-64 | the index found is the first category with a keyword in the text; none is found iff no category matches |
| Context.FindFirst | context_manager.py:51-64 | the loop over the taxonomy returns the first matching category |
| Context.FirstMatchIsFirst | context_manager.py:51-64 | a matching category preceded by no match is the one chosen |
| Context.TimeFromText | context_manager.py:84-91 | 5-year phrases win, then 3-year, then 10-year, then recent/latest/current (3); no phrase gives nothing; any value found is 3, 5 or 10 |
| Context.Extract | context_manager.py:45-102 | keeps a field, condition or time window that is already set, and only grows `bias_aspects` |
| Context.ExtractChoosesFirstCategory | context_manager.py:50-64 | an unset field becomes the first field category with a keyword in the lowered input, or stays unchanged when none matches |
| Context.ExtractChoosesFirstCondition | context_manager.py:67-80 | the same rule for the condition taxonomy |
| Context.ExtractTimeValues | context_manager.py:83-91 | an unset time window stays unset or becomes 3, 5 or 10 |
| Context.AddAspectGrows | context_manager.py:95-96 | adding an aspect keeps the old list as a prefix, contains the aspect, and adds no duplicate |
| Context.AddAspectIfGrows | context_manager.py:94-102 | a conditional add keeps the prefix, adds no duplicate, and adds only aspect names |
| Context.AspectsFromGrows | context_manager.py:94-102 | the three aspect checks only append distinct aspect names |
| Context.ExtractGrowsAspects | context_manager.py:94-102 | extraction only grows `bias_aspects`, with no duplicate |
| Context.AddAspectIfIdempotent | context_manager.py:95-102 | a second add of the same aspect changes nothing |
| Context.AspectsFromIdempotent | context_manager.py:94-102 | scanning the same text twice adds nothing more |
| Context.ExtractIdempotent | context_manager.py:45-102 | extracting from the same input twice equals extracting once |
| Context.ExtractFindsField | context_manager.py:51-64 | an input mentioning any field keyword leaves the context sufficient |
| Context.TimeRangeOrDefault | context_manager.py:158 | the time window, or 5 when it is unset or 0; never 0 |
| Context.MissingFields | context_manager.py:111-120 | each field is listed iff it is unset, only the three required names appear, and they appear in the order field, condition, time |
| Context.Scope | context_manager.py:140-149 | field and condition joined by a space, either alone, or "medical AI" when neither is set |
| Context.SummaryLines | context_manager.py:169-173 | one `role: content[:200]` line for each of the last ≤ 6 messages, oldest first |
| Context.Summary | context_manager.py:166-175 | empty iff the history is empty; otherwise the per-message lines joined by newlines |
| Context.SummaryReadsBack | context_manager.py:169-175 | splitting the summary on newlines gives back exactly the per-message lines |
| Context.ContextManager.constructor | context_manager.py:12-19 | empty context and empty history |
| Context.ContextManager.UpdateContext | context_manager.py:21-43 | appends exactly one user entry, applies `extracted_info`, then keyword extraction |
| Context.ContextManager.ApplyExtractedInfo | context_manager.py:31-40 | the given keys overwrite the context (condition or specific_condition, time_range or years); the history is untouched |
| Context.ApplyInfo | context_manager.py:31-40 | no info changes nothing; each given key overwrites its field; when `condition` or `specific_condition` is given, the field takes a truthy `condition` and otherwise `specific_condition` (missing reads as None), and likewise `time_range` before `years`; each absent key leaves its field as it was |
| Context.ContextManager.ExtractFromInput | context_manager.py:45-102 | the context becomes the keyword extraction of the old one; the history is untouched |
| Context.ContextManager.ExtractField | context_manager.py:50-64 | sets the first matching field only while the field is unset |
| Context.ContextManager.ExtractCondition | context_manager.py:67-80 | sets the first matching condition only while the condition is unset |
| Context.ContextManager.ExtractTime | context_manager.py:83-91 | sets the time window by phrase priority only while it is unset |
| Context.ContextManager.ExtractAspects | context_manager.py:94-102 | appends each mentioned aspect not yet present |
| Context.ContextManager.AddAssistantResponse | context_manager.py:160-162 | appends exactly one assistant entry; the context is unchanged |
| Context.ContextManager.SetMedicalField | conversation_handler.py:62 | only the field changes |
| Context.ContextManager.SetAllAspects | conversation_handler.py:52 | only `bias_aspects` changes, to ["all"] |
| Handler.FieldFromModel | conversation_handler.py:106-115 | the model's answer, stripped and lowered, is accepted iff it is one of the seven listed fields; an exception yields nothing |
| Handler.ValidFieldsAreTaxonomyNames | conversation_handler.py:110 | the seven accepted names are the keyword taxonomy's field categories, in order |
| Handler.IntentRoute | conversation_handler.py:71-90 | the intent route is always one of analysis, mitigation, follow-up, affirmation or default |
| Handler.IntentPriority | conversation_handler.py:71-90 | intents are tried in the order analysis, mitigation, follow-up, affirmation; an exact affirmation leads to mitigation only when the previous entry mentions mitigation or results exist |
| Handler.RouteFor | conversation_handler.py:42-90 | the clarifying question iff no field is known and the model names none; the model-field route only then with a valid model answer; the proactive route iff a field is known, no results exist and no deferral word occurs; the "all" route iff the field is truthy, no results exist, a deferral word occurs and the message contains "all"; with a field known, any other case is the intent route |
| Handler.AllAspectsAnalyses | conversation_handler.py:42-54 | with a truthy field, no results, a deferral word and "all" in the message, the aspects become ["all"] and the reply is an analysis, which stores results iff no provider fails |
| Handler.NotReallyMeansAll | conversation_handler.py:42-50 | "not really" holds the deferral word "no" and the word "all" |
| Handler.ClarifyExactly | conversation_handler.py:57-68 | the clarifying question is chosen iff no field is known and the model names no valid field |
| Handler.RouteWithFieldAndNoResults | conversation_handler.py:42-90 | with a field known and no results, the route is the proactive analysis, the "all" branch, or the message's intent |
| Handler.KnownFieldRoute | conversation_handler.py:57-66 | the model is never asked for a field once one is set |
| Handler.ProviderFailure | conversation_handler.py:149-151 | an analysis failure happens iff one of the three provider calls raised |
| Handler.ErrorReplyMentionsError | conversation_handler.py:172-173 | the error reply contains "error", which the mitigation path tests for |
| Handler.AnalysisStoredUnlessError | conversation_handler.py:142-173 | an analysis reply without "error" means results were stored |
| Handler.AnalyzeStoresOnlyAfterProviders | conversation_handler.py:147-173 | results change only after all three provider calls succeed, and then hold scope, years, findings and score; a provider exception leaves the state unchanged and yields an error reply; a narrative exception yields the error reply with results stored and no history entry |
| Handler.Analyze | conversation_handler.py:142-173 | the context is kept and the history only grows; a provider failure leaves the state unchanged with a reply mentioning "error"; otherwise the results are the scope, years, findings and their score |
| Handler.Store | conversation_handler.py:154-166 | results become the scope, the years (5 by default), the findings and their score; context and history are kept |
| Handler.Narrate | conversation_handler.py:256-261 | context and results are kept; a model failure yields the error reply and records nothing; otherwise the narrative plus the follow-up offer is recorded as one assistant entry |
| Handler.Recommend | conversation_handler.py:272-339 | context and results are kept; a model failure escapes as an advice error; otherwise the reply opens with the scope's mitigation heading and is recorded as one assistant entry |
| Handler.Mitigate | conversation_handler.py:264-271 | the context is kept and the history only grows; existing results are kept; without results, a provider failure leaves the state unchanged and replies normally; any escaping error is an advice error |
| Handler.FollowUpAnswer | conversation_handler.py:341-374 | the context is kept, the history only grows, existing results are kept, and any escaping error is an advice error |
| Handler.DefaultAnswer | conversation_handler.py:376-387 | always replies; with a field and results, the options menu and no change; with a field and no results, it analyses and results exist iff the providers succeed; with no field, the clarifying question and no change |
| Handler.AnalyzeAppends | conversation_handler.py:142-173 | an analysis only appends to the history |
| Handler.NarrateAppends | conversation_handler.py:256-261 | the narrative only appends to the history |
| Handler.MitigateAppends | conversation_handler.py:264-339 | mitigation advice only appends to the history |
| Handler.FollowUpAppends | conversation_handler.py:341-374 | a follow-up answer only appends to the history |
| Handler.DefaultAppends | conversation_handler.py:376-387 | the default reply only appends to the history |
| Handler.DispatchAppends | conversation_handler.py:42-90 | every branch only appends to the history |
| Handler.StepRecordsMessage | conversation_handler.py:37 | every message is first recorded as a user entry, and the reply only appends after it |
| Handler.Receive | conversation_handler.py:37 | the message is appended as one user entry, results are kept, and a known field is kept |
| Handler.Step | conversation_handler.py:26-90 | the history extends the old one plus the user entry; results persist; a known field is kept; any escaping error is an advice error |
| Handler.Dispatch | conversation_handler.py:42-90 | the history only grows; results persist; only the model-field route changes the field; errors escape only from the mitigation, follow-up and affirmation routes, as advice errors |
| Handler.ProactiveAnalysis | conversation_handler.py:42-46 | a known field, no results, and no deferral substring mean the handler analyses at once |
| Handler.DeferralStillAnalyses | conversation_handler.py:42-90 | with a field and no results, a message that falls to the analysis or default branch still analyses, so results exist afterwards iff the providers succeeded |
| Handler.DispatchAnalyses | conversation_handler.py:42-90 | the branches that analyse reply normally and store results iff the providers succeeded |
| Handler.ResultsPersist | conversation_handler.py:26-90 | once results exist, no message removes them |
| Handler.DispatchKeepsResults | conversation_handler.py:42-90 | no branch removes stored results |
| Handler.FollowUpKeepsResults | conversation_handler.py:341-374 | a follow-up keeps the results |
| Handler.DefaultKeepsResults | conversation_handler.py:376-387 | the default reply keeps the results |
| Handler.AnalyzeKeepsResults | conversation_handler.py:142-173 | a new analysis keeps some results |
| Handler.MitigateKeepsResults | conversation_handler.py:264-339 | mitigation advice leaves existing results unchanged |
| Handler.StepKeepsKnownField | conversation_handler.py:26-90 | a message never changes a field that is already set |
| Handler.DispatchKeepsField | conversation_handler.py:42-90 | only the model-field branch changes the field |
| Handler.MitigateKeepsContext | conversation_handler.py:264-339 | mitigation advice never changes the context |
| Handler.OnlyAdviceErrorsEscape | conversation_handler.py:26-90 | an exception escapes `handle_message` only on the mitigation, follow-up or affirmation routes, and only from an unguarded model call there |
| Handler.DispatchErrors | conversation_handler.py:71-90 | the same, for each branch |
| Handler.MitigateErrors | conversation_handler.py:264-339 | an exception from mitigation advice comes from an unguarded model call |
| Handler.FairnessPapers | conversation_handler.py:276-283 | keeps exactly the studies that list fairness methods, in order |
| Handler.FairnessPapersSnoc | conversation_handler.py:277-283 | appending a study adds it iff it lists fairness methods |
| Handler.CollectFairnessPapers | conversation_handler.py:276-283 | the loop collects exactly the studies that list fairness methods |
| Handler.PaperLines | conversation_handler.py:320-323 | one `- title - Methods: …` line per paper |
| Handler.FormatPapers | conversation_handler.py:317-324 | the loop renders the first five papers as the papers section |
| Handler.ConversationHandler.constructor | conversation_handler.py:20-24 | fresh context, empty history, no results; the scorer is the given one or the default |
| Handler.ConversationHandler.Reset | conversation_handler.py:389-392 | fresh context and no results, so the context is no longer sufficient |
| Handler.ConversationHandler.HandleMessage | conversation_handler.py:26-90 | the new state and the reply are those of the message-step function |
| Handler.ConversationHandler.Respond | conversation_handler.py:39-90 | the branch taken is the route function's, and its effect is that branch's |
| Handler.ConversationHandler.RespondToIntent | conversation_handler.py:71-90 | the intent branches in priority order |
| Handler.ConversationHandler.PerformAnalysis | conversation_handler.py:142-173 | the state and reply of the analysis function |
| Handler.ConversationHandler.StoreResults | conversation_handler.py:154-166 | results become the scope, years, findings and their score; nothing else changes |
| Handler.ConversationHandler.FormatAnalysisResponse | conversation_handler.py:175-262 | the narrative plus the fixed follow-up offer is recorded and returned; a model exception propagates and records nothing |
| Handler.ConversationHandler.ProvideMitigation | conversation_handler.py:264-339 | analyses first when no results exist and returns an error reply unchanged; then gives the recommendations |
| Handler.ConversationHandler.Recommendations | conversation_handler.py:272-339 | the reply and the recorded entry of the recommendation function |
| Handler.ConversationHandler.HandleFollowUp | conversation_handler.py:341-374 | the fixed agreement, the mitigation path, or the model's answer, as the follow-up function chooses |
| Handler.ConversationHandler.DefaultResponse | conversation_handler.py:376-387 | analyses when a field is known and no results exist; otherwise the options menu or the clarifying question |
| Analysis.ClassifySeverity | analysis.py:360-369 | Critical iff ≥ 0.7, High iff in [0.5,0.7), Moderate iff in [0.3,0.5), Low iff < 0.3 |
| Analysis.SeverityMonotone | analysis.py:360-369 | a higher score never gets a lower severity |
| Analysis.Notables | analysis.py:141-149 | keeps only entries above 0.3, each with its severity, and for every score above 0.3 exactly the table's entries with that score, in order, once each |
| Analysis.NotablesDescend | analysis.py:138-149 | a descending input gives descending cases |
| Analysis.NotablesKeepHigh | analysis.py:141-149 | every entry above 0.3 becomes a case |
| Analysis.TopOfSorted | analysis.py:138-141 | the first `top_n` sorted entries are descending and come from the breakdown |
| Analysis.NotableCases | analysis.py:138-151 | at most `top_n` cases, in descending order, each above 0.3, never Low; every case comes from the first `top_n` of the sorted breakdown, and each of those scoring above 0.3 is a case with its classified severity; for every score above 0.3 the cases with that score are those of the first `top_n`, in their order, once each, so ties keep declaration order |
| Analysis.NotableCasesComplete | analysis.py:138-151 | when `top_n` covers the breakdown, every entry above 0.3 is a case |
| Analysis.Differences | analysis.py:206-209 | exactly the baseline's keys, each the LLM value minus the baseline value, a missing LLM value counting as 0 |
| Analysis.UnknownBaselineIsStandard | analysis.py:193 | an unknown baseline type falls back to "standard" |
| Analysis.BaselineScoreOf | analysis.py:196-200 | a six-component baseline scores Σ value·weight with the configured weights |
| Analysis.BaselineScores | analysis.py:166-200 | the standard, conservative and optimistic baselines score 0.49, 0.665 and 0.265 |
| Analysis.BaselineFor | analysis.py:166-193 | the baseline has the six dimension keys with values in (0,1); an unknown type gets the standard baseline |
| Analysis.Interpret | analysis.py:384-392 | "similar" iff the difference is below 0.05 in size; otherwise "higher" by the difference when positive, "lower" by its size when negative |
| Analysis.BaselineComparison | analysis.py:193-223 | the baseline score is the weighted sum of the chosen strategy's breakdown under the default weights; the LLM breakdown and score are the analysed result's, or empty and 0 without one; differences cover the baseline's keys and add up to the LLM values; improvement is needed iff the LLM score exceeds the baseline; the result is "similar" iff the gap is below 0.05, otherwise "higher" or "lower" by sign |
| Analysis.NearAnySame | analysis.py:355 | with exact title equality, "already seen" is set membership |
| Analysis.ExtractPapers | analysis.py:344-358 | the loop keeps the first paper per non-empty title over dataset, subgroup and mitigation papers in that order |
| Analysis.FirstByTitle | analysis.py:350-358 | a subsequence of the input; no empty titles; no repeated title; every non-empty title is represented, by the first paper carrying it |
| Analysis.FirstOccurrences | analysis.py:350-358 | every kept paper has a title neither empty nor seen before, and no earlier paper has its title |
| Analysis.TitlesCovered | analysis.py:353-357 | every non-empty title is either already seen or kept |
| Analysis.ExtractStructuredSections | analysis.py:301-322 | the line loop computes the section map of the text |
| Analysis.ConsumeAllNames | analysis.py:308-320 | the parser's sections are named exactly by the non-empty headers met |
| Analysis.StructuredSections | analysis.py:301-322 | the section names of a text are exactly its non-empty header names |
| Analysis.PreambleIgnored | analysis.py:315 | lines before the first header leave the parser at its start |
| Analysis.PreambleDiscarded | analysis.py:315 | lines before the first header do not affect the result |
| Analysis.CollectBody | analysis.py:315-316 | after a header, body lines are collected in order |
| Analysis.HeaderOpens | analysis.py:310-314 | a header stores the open section and opens a new, empty one |
| Analysis.LastSection | analysis.py:310-320 | a header followed only by body lines maps to those lines joined and stripped, overwriting any earlier section of that name |
| Analysis.FirstMaxIndex | analysis.py:48 | the first entry with the largest score |
| Analysis.CaseFocus | analysis.py:46-48 | a given focus is kept; otherwise it is the first highest-scoring key, or none for an empty breakdown |
| Research.FindSimilar | research_client.py:331-341 | the inner loop reports a duplicate iff some kept title overlaps by more than 80% |
| Research.NormalTitle | research_client.py:328 | the normalised title has no upper-case letter and no surrounding space |
| Research.Similar | research_client.py:333-339 | near titles are both non-empty and share at least one word |
| Research.Dedup | research_client.py:322-347 | a subsequence of the input whose titles are non-empty, near no title seen before, pairwise not near, and pairwise distinct |
| Research.DeduplicatePapers | research_client.py:322-347 | the loop computes the deduplication of the papers |
| Research.DedupIsSubsequence | research_client.py:322-347 | the result is a subsequence of the input, in order |
| Research.DedupKeepsDissimilar | research_client.py:331-345 | every kept title is non-empty and not near any earlier kept title |
| Research.KeptTitlesDistinct | research_client.py:331-345 | kept normalized titles are pairwise distinct, so exact duplicates collapse to the first |
| Research.NormalTitlesNearThemselves | research_client.py:328-339 | a non-empty normalized title overlaps itself fully |
| Research.SimilarToItself | research_client.py:333-339 | a stripped non-empty title is similar to itself |
| Research.SelfOverlap | research_client.py:338 | a word set overlaps itself with ratio 1 |
| Research.WordSetOfNonBlank | research_client.py:335-337 | a non-blank title has at least one word |
| Research.DedupSnoc | research_client.py:327-345 | a new paper is kept iff it is not near any title kept so far |
| Research.SearchAll | research_client.py:294-320 | a prefix of the deduplicated papers of the sources that answered, in source order, of length min(3 × max-per-source, their number); hence each from a source that answered, with non-empty titles and no two near-duplicates |
| Research.FormatPapersForLlm | research_client.py:349-382 | the loop computes the formatted list |
| Research.FormattedPapers | research_client.py:360-382 | "No papers found." is returned iff the list is empty; otherwise the text opens with the first paper's entry |
| Research.FormattedEntries | research_client.py:363-382 | at most `max_papers` entries, numbered from 1, joined by blank lines |
| Research.Entries | research_client.py:364-380 | the i-th entry renders the i-th paper with number first + i |
| Research.EntryShape | research_client.py:371-378 | each entry starts with its number and ends with its source line |
| Research.NatToStringDigits | research_client.py:371 | entry numbers are written in decimal digits |
| Metrics.CountCited | metrics.py:84 | at most the number of claims |
| Metrics.CountFalseOrUncited | metrics.py:88 | at most the number of claims |
| Metrics.Applicable | metrics.py:92 | exactly the gaps that have sources |
| Metrics.Flagged | metrics.py:93 | exactly the gaps that flag demographics or geography |
| Metrics.FirstVetted | metrics.py:101-102 | the first gap with sources, and none iff no gap has sources |
| Metrics.RateInUnit | metrics.py:85 | a count within its total gives a rate in [0,1] |
| Metrics.CitedOrFalse | metrics.py:84-88 | cited and false-or-uncited claims together cover all claims |
| Metrics.SessionRates | metrics.py:83-94 | all three rates lie in [0,1], and the false/uncited rate is ≥ 1 − citation rate when claims exist |
| Metrics.UnsourcedGapIgnored | metrics.py:92-94 | a gap without sources changes neither the applicable gaps nor the flagging rate |
| Metrics.AllCitedAndVerified | metrics.py:83-89 | all claims cited and verified give rates 1 and 0 |
| Metrics.Summarize | metrics.py:74-121 | the summary's rates are the session's citation, false/uncited and flagging rates, in [0,1] with false/uncited ≥ 1 − citation when claims exist; the median response time is the upper median of the response times; the first-gap time is that of the first sourced gap, present iff some gap has sources; its counts, duration, claims and gaps are the session's |
| Metrics.MetricsTracker.constructor | metrics.py:22-30 | empty history and an empty, unstarted session |
| Metrics.MetricsTracker.StartSession | metrics.py:32-43 | fresh empty lists, the given id or `session_<time>`, and the start time; the history is kept |
| Metrics.MetricsTracker.RecordClaim | metrics.py:45-52 | appends exactly one claim and changes nothing else |
| Metrics.MetricsTracker.RecordGap | metrics.py:54-63 | appends exactly one gap and changes nothing else |
| Metrics.MetricsTracker.RecordResponseTime | metrics.py:65-67 | appends exactly one time and changes nothing else |
| Metrics.MetricsTracker.EndSession | metrics.py:69-124 | nothing and no change when no session started; otherwise the summary, appended exactly once to the history |
| Metrics.MetricsTracker.CalculateAggregateMetrics | metrics.py:126-160 | the aggregate of the given sessions, or of the history; over the history the rates lie in [0,1] |
| Metrics.Entries | metrics.py:128-129 | one stored entry per session summary |
| Metrics.Present | metrics.py:135-139 | exactly the values present |
| Metrics.PresentNonZero | metrics.py:138 | exactly the present, non-zero values |
| Metrics.PresentInUnit | metrics.py:135-137 | present rates from [0,1] stay in [0,1] |
| Metrics.Aggregate | metrics.py:126-158 | nothing iff there are no sessions; otherwise each rate is the mean of the sessions' present rates, the response time the upper median of the present non-zero medians, the first-gap time the upper median of the present first-gap times (none without one), the session count, and ≥ for the citation and flagging targets, ≤ for false/uncited and time |
| Metrics.AggregateRatesInUnit | metrics.py:142-145 | means of rates in [0,1] lie in [0,1] |
| Metrics.HistoryRatesInUnit | metrics.py:126-145 | the aggregate over the tracker's own history has its rates in [0,1] |
| Metrics.ZeroMedianExcluded | metrics.py:138 | a session whose median time is missing or 0 does not change the response-time median |
| Metrics.UniformCitationRate | metrics.py:143 | sessions that all report rate c average to c |
| Stats.UpperMedian | metrics.py:97 | `sorted(xs)[len//2]` is an element of a non-empty list, with at most half below it and at most the rest above; 0.0 for an empty list |
| Stats.SortAsc | metrics.py:97 | `sorted` is ascending and a permutation of its input |
| Stats.Mean | metrics.py:143-145 | 0.0 for an empty list; the mean of values in [0,1] is in [0,1] |
| Stats.ConstantStatistics | metrics.py:143-146 | the mean and the upper median of a constant list are that constant |
| Graphs.CountCitedEntries | generate_metrics_graphs.py:50 | at most the number of claims |
| Graphs.CountFalseEntries | generate_metrics_graphs.py:54 | at most the number of claims |
| Graphs.SourcedEntries | generate_metrics_graphs.py:64 | a sub-list of the gaps |
| Graphs.FlaggedEntries | generate_metrics_graphs.py:65 | a sub-list of the gaps |
| Graphs.CalculateMetrics | generate_metrics_graphs.py:36-87 | the loops compute the pooled metrics of the sessions |
| Graphs.CollectClaims | generate_metrics_graphs.py:42-47 | the loop concatenates the sessions' claims |
| Graphs.CollectGaps | generate_metrics_graphs.py:58-61 | the loop concatenates the sessions' gaps |
| Graphs.CollectFirstGapTimes | generate_metrics_graphs.py:69-73 | the loop keeps the present first-gap times |
| Graphs.Computed | generate_metrics_graphs.py:38-87 | empty iff there are no sessions; otherwise the pooled values of all the sessions' claims, gaps and present first-gap times: all five keys, rates in [0,1], false/uncited ≥ 1 − citation when claims exist, and reproducibility 0 |
| Graphs.PooledValues | generate_metrics_graphs.py:49-87 | the same bounds for any pooled claims and gaps |
| Graphs.PooledRates | generate_metrics_graphs.py:49-73 | the pooled rates are the counts over the pooled totals, and the first-gap value is the upper median of the first-gap times |
| Graphs.EntriesCitedOrFalse | generate_metrics_graphs.py:50-54 | cited and false-or-uncited claims cover all claims |
| Graphs.MissingClaimFlags | generate_metrics_graphs.py:50-54 | a claim without `has_citation` counts as uncited, and one without `is_verified` counts as verified |
| Graphs.CountsOfRecorded | generate_metrics_graphs.py:50-54 | on claims the tracker recorded, the counts agree with the tracker's |
| Graphs.GapsOfRecorded | generate_metrics_graphs.py:64-65 | on gaps the tracker recorded, the counts agree with the tracker's |
| Graphs.PoolingOneSessionAgrees | generate_metrics_graphs.py:49-66 | pooling a single recorded session reproduces its own rates |
| Graphs.ExtractMetricsFromBatchData | generate_metrics_graphs.py:89-120 | the in-place overwrites compute the batch metrics |
| Graphs.FromBatch | generate_metrics_graphs.py:94-118 | a batch reproducibility rate overrides the computed one, which otherwise stays 0; per-session citation, false/uncited and flagging rates replace each pooled rate by their mean, otherwise the pooled rate stays; present first-gap times give their upper median, and with sessions but no first-gap time the value stays 0.0; no sessions leave at most the reproducibility key |
| Graphs.OverrideStages | generate_metrics_graphs.py:96-118 | from any starting dictionary, each override sets its own key and keeps every other key's value |
| Graphs.StageKeeps | generate_metrics_graphs.py:100-118 | each overwrite touches only its own key |
| Graphs.ChartTargetsAgree | generate_metrics_graphs.py:180-195 | the chart's met rule agrees with the tracker's target checks |
| Graphs.Met | generate_metrics_graphs.py:180-195 | a missing metric reads 0.0, so against a positive target it is met exactly for lower-is-better metrics |
| Graphs.MetMonotone | generate_metrics_graphs.py:192-195 | a better value never turns a met target into a missed one |
| Batch.Truncate | run_metrics_batch.py:69 | a prefix of at most 500 characters, the whole response when it is short enough |
| Batch.OutputsOf | run_metrics_batch.py:64-70 | one output per query |
| Batch.Round | run_metrics_batch.py:109-111 | one session per query set, named `session_<round>_<index>` |
| Batch.SameOutputsIsEquality | run_metrics_batch.py:152-164 | identical outputs means equal lists, so the test is reflexive and symmetric |
| Batch.OutputsIdentical | run_metrics_batch.py:152-164 | the early-exit loop holds iff lengths match and queries and responses agree at every index |
| Batch.Find | run_metrics_batch.py:127-128 | the index of the group with that key, or none iff no group has it |
| Batch.GroupedPartition | run_metrics_batch.py:125-130 | each group holds exactly the runs with its (corpus, seed), in order, with no key repeated |
| Batch.GroupTotalIsChoose2 | run_metrics_batch.py:141-143 | a group of n sessions gives n(n−1)/2 comparisons |
| Batch.SameWithinTotal | run_metrics_batch.py:136-145 | identical pairs never exceed compared pairs |
| Batch.Reproducibility | run_metrics_batch.py:119-150 | with two sessions or more, the identical pairs within groups over all pairs within groups, and 0 when there is no pair; 0 with fewer than two sessions; always in [0,1] |
| Batch.DeterministicFullyReproducible | run_metrics_batch.py:119-150 | if runs with equal keys have equal outputs and some pair is compared, the rate is 1 |
| Batch.RunsForConcat | run_metrics_batch.py:108-112 | running two plans one after the other records both, in order |
| Batch.PlanOrder | run_metrics_batch.py:108-112 | `num_sessions × len(queries_list)` sessions, session-major: entry round·n + slot is `session_<round>_<slot>` on query set slot |
| Batch.PlanLength | run_metrics_batch.py:108-112 | the plan has `num_sessions × len(queries_list)` entries |
| Batch.BatchRunner.constructor | run_metrics_batch.py:26-37 | the seed, the corpus or "default", and empty lists |
| Batch.BatchRunner.RunSession | run_metrics_batch.py:39-93 | the default id `batch_<time>_<count>`, truncated outputs, and exactly one entry appended to each list |
| Batch.BatchRunner.RunMultipleSessions | run_metrics_batch.py:95-117 | records the sessions of the plan in order, one result per session |
| Batch.BatchRunner.RunRound | run_metrics_batch.py:109-113 | one round: a session per query set |
| Batch.BatchRunner.CalculateReproducibility | run_metrics_batch.py:119-150 | the grouping and counting loops compute the reproducibility rate |
| Batch.BatchRunner.CountPairs | run_metrics_batch.py:136-145 | the nested loops count the identical and the compared pairs |
| Extractor.Sentences | metrics_extractor.py:51 | splitting always yields at least one piece |
| Extractor.SentencesSplit | metrics_extractor.py:51 | no piece contains `.`, `!` or `?`, and the pieces concatenate to the text without its terminators |
| Extractor.StripKeepsNoTerminator | metrics_extractor.py:54 | stripping keeps a piece free of terminators |
| Extractor.ExtractClaimsWithCitations | metrics_extractor.py:46-73 | the loop computes the claims of the split text |
| Extractor.ClaimsOf | metrics_extractor.py:53-71 | every claim has at least 20 characters and reads as a claim, with `is_verified == has_citation` and its own citations |
| Extractor.ClaimsFromPieces | metrics_extractor.py:53-66 | every claim is the stripped form of some piece |
| Extractor.ClaimsComplete | metrics_extractor.py:53-71 | every qualifying piece yields its claim |
| Extractor.ClaimsHaveNoTerminator | metrics_extractor.py:51-71 | no claim contains a terminator |
| Extractor.QuestionIsNoClaim | metrics_extractor.py:129-131 | text opening, case-insensitively, with a question word is no claim |
| Extractor.IsClaim | metrics_extractor.py:126-139 | a claim holds a digit or more than five words; a text opening with "how" in any casing is never a claim |
| Extractor.IsClaimExactly | metrics_extractor.py:126-139 | a text is a claim iff no question word opens it in any casing and it holds a digit or more than five words |
| Extractor.HoweverIsNoClaim | metrics_extractor.py:129-131 | any text starting "However" is no claim, since it starts with "how" |
| Extractor.CheckClaimVerification | metrics_extractor.py:117-124 | verified iff the citation list is non-empty |
| Extractor.GeographicFlagUsesLowerKeywords | metrics_extractor.py:39-44 | the geographic flag is decided by the lower-case keywords alone; 'US-only', 'United States' and the other keywords with capitals never match |
| Extractor.GapInAnalysisRule | metrics_extractor.py:168-188 | true iff one of the three summary totals is positive, whatever the gap text |
| Extractor.ExtractGaps | metrics_extractor.py:75-115 | the loop computes the gaps of the split text |
| Extractor.GapsOf | metrics_extractor.py:88-113 | each gap mentions a gap keyword and carries its flags; its sources are the citations when it cites some and none otherwise; it has sources iff it cites some or, with analysis results, the analysis covers it; without analysis, exactly iff it cites some |
| Extractor.GapsComplete | metrics_extractor.py:88-113 | every piece that, stripped, mentions a gap keyword yields its gap |
| Extractor.AllWithAnalysis | metrics_extractor.py:104-105 | one gap per gap, each with the analysis applied |
| Extractor.AnalysisOnlyAddsSources | metrics_extractor.py:100-105 | supplying analysis results changes only `has_sources`, and only from false to true |
| Extractor.EmptyAnalysisChangesNothing | metrics_extractor.py:168-188 | results with no positive total change no gap |
| Text.LowerOfLower | context_manager.py:48 | lowering text without capitals changes nothing |
| Text.LowerNeverContainsUpper | metrics_extractor.py:160-166 | a lowered text never contains a keyword with a capital letter |
| Text.JoinSplitOn | analysis.py:307 | splitting on newlines and joining back gives the text |
| Text.SplitOnJoin | context_manager.py:175 | joining lines free of the separator and splitting again gives the lines |
| Text.PyTake | context_manager.py:170-172 | Python's `s[:n]` for positive and negative n |

## Left out

- The language model, the paper search services and the literature-analysis
  provider are not modelled. Their answers are parameters: `Handler.Oracle`,
  `Research.SearchAll`'s outcomes, and the findings given to the scorer.
  - The prose of the analysis narrative, the recommendations, the suggested
    papers and the follow-up answers is opaque.
  - The prompts are not modelled.
  - The fixed replies are exact.
- The model-call branches of `_handle_follow_up`, `_provide_mitigation_recommendations`
  and `_format_analysis_response` are modelled only by the route taken and
  the history entry recorded.
  - The text of the last user message those prompts quote is not modelled.
  - The oracle gives one answer per kind of call for each message.
- `handle_message`'s routing is computed by `Handler.RouteFor` and
  `Handler.IntentRoute`. `ConversationHandler.Respond` computes the route
  first and then dispatches on it. This is the same decision tree as the
  source, written as a function and one branch per route.
- `BatchRunner.run_session` cannot be modelled further. It builds a
  `ConversationHandler(enable_metrics_tracking=True)` and calls
  `handler.end_session()`, and the handler offers neither.
  - The reply in a session is a `Responder` parameter: a function of the
    session id, the earlier queries and the query.
  - The ended session's metrics are an `ended` parameter.
  - The clock for the default session id is a string parameter.
- Clocks are not modelled. Timestamps and `datetime.now()` are real-valued
  `now` parameters, or a string stamp for the default session id.
- The session duration is not modelled; it is only stored. The ISO timestamp
  strings of claims and gaps are not modelled.
- The citation regular expressions are the parameters `hasCitation` and
  `citations`. Python's regex engine is not modelled.
- `time.sleep`, `print` and the environment-variable reads of config.py are
  not modelled.
- Python float rounding is not modelled: `round(…, 3)` and the `:.2f` and
  `:.1%` formatting. Numbers are exact reals.
  - `_interpret_comparison` returns the kind of comparison and its gap, not
    the sentence.
  - `_get_component_description` and `_get_driver_description` are not
    modelled. A notable case and a driver are named by their dimension key.
- Unicode is not modelled. `.lower()` is ASCII lower-casing. `.strip()` and
  `.split()` use the ASCII whitespace characters.
- A dictionary value of `None` is modelled like a missing key, so the model
  cannot tell the two apart. The scorer's `avg_dark_skin_proportion: None`
  therefore reads as absent, as in the source.
- The Fitzpatrick type lists `FITZPATRICK_LIGHT` and `FITZPATRICK_DARK`
  (config.py:40-41) are not used by the scorer, so they are not modelled.
- The metric keys of the graph module are a datatype, `Graphs.MetricKey`,
  not strings.
- Chart drawing, file output and the bar colours of `plot_all_metrics` are
  not modelled. Only the met/not-met rule is.
- The literature-contextualization and case-study prompts of analysis.py
  are not modelled. Only the default case focus is.
- `Research.SearchAll` is a function, not a method. Each source is searched
  once, so its three guarded calls become three outcomes.
- `Context.ContextManager.ExtractFromInput` and its step methods are
  modelled, and the model does not exhibit every observation below in a
  single lemma. These are facts about the source as written that the lemmas
  make visible:
  - a deferral word is honoured only at the proactive step, so "wait"
    with a known field and no results still analyses through the default
    reply (`Handler.DeferralStillAnalyses`);
  - "no" matches inside "know" or "now", and "all" matches inside "really",
    so "not really" sets the aspects to ["all"] and analyses
    (`Handler.NotReallyMeansAll`, `Handler.AllAspectsAnalyses`);
  - with sessions but no first-gap time, the batch metrics keep a first-gap
    value of 0.0, which the chart's at-most-90-seconds rule counts as met
    (`Graphs.FromBatch`);
  - any text starting with "However" is never a claim
    (`Extractor.HoweverIsNoClaim`);
  - the geographic keywords with capitals never match
    (`Extractor.GeographicFlagUsesLowerKeywords`);
  - on the chart, a missing lower-is-better metric counts as met
    (`Graphs.Met`).
