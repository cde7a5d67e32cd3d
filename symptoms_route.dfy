/**
 * The symptom-analysis route (POST /analyze): validates the symptom list, builds the
 * prompt (symptoms, optional follow-up answers, optional profile block, answer language),
 * asks the completion service and returns its JSON or a fixed fallback assessment.
 */
module SymptomsRoute {
  import opened Wrappers
  import opened Strings
  import opened Completion
  import opened ServerProfile
  import opened Extraction

  /**
   * The request body. `followUpAnswers` holds the JSON text of a truthy answers value;
   * `language` is "" when absent.
   */
  datatype SymptomRequest = SymptomRequest(
    symptoms: Option<seq<string>>,
    followUpAnswers: Option<string>,
    userProfile: Option<ProfileFields>,
    language: string)

  /** One assessed condition, as in the fallback reply. */
  datatype Disease = Disease(
    name: string,
    confidence: int,
    reasoning: string,
    riskLevel: string,
    recommendedPlants: seq<string>,
    remedies: seq<string>,
    preventiveMeasures: seq<string>,
    diet: seq<string>,
    exercises: seq<string>)

  /** The route's reply: the model's own JSON value, or the fallback assessment. */
  datatype Analysis<V> = Parsed(value: V) | Unparsed(diseases: seq<Disease>, generalAdvice: string)

  const SymptomSystem := "You are a helpful medical AI assistant specializing in symptom analysis and natural remedies. Always include medical disclaimers and recommend professional consultation for serious conditions."

  const ProfileInstruction := "IMPORTANT: Check for any potential conflicts between recommended remedies/plants and the user's medications or conditions. Warn specifically if any exist."

  const SymptomFormat := "{\n  \"diseases\": [\n    {\n      \"name\": \"Disease name\",\n      \"confidence\": 0-100,\n      \"reasoning\": \"Why this disease is likely based on symptoms\",\n      \"riskLevel\": \"low|moderate|high|emergency\",\n      \"profileAnalysis\": {\n        \"matchScore\": \"High/Medium/Low\",\n        \"explanation\": \"Specific reason why this matches the user's profile (e.g., 'Your history of Asthma makes this more likely...')\"\n      },\n      \"recommendedPlants\": [\"Plant 1\", \"Plant 2\"],\n      \"remedies\": [\"Remedy 1\", \"Remedy 2\"],\n      \"preventiveMeasures\": [\"Measure 1\", \"Measure 2\"],\n      \"diet\": [\"Food 1\", \"Food 2\"],\n      \"exercises\": [\"Exercise 1\", \"Exercise 2\"]\n    }\n  ],\n  \"followUpQuestions\": [\"Question 1?\", \"Question 2?\"],\n  \"generalAdvice\": \"Overall health advice. Include specific warnings if user's profile conflicts with recommendations.\"\n}\n\nReturn top 5 most probable diseases. Include a medical disclaimer."

  const SymptomsRequired := HttpError(400, "Symptoms are required", None, None)

  /** The lines of the profile block, in prompt order. */
  function ProfileLines(p: ProfileFields): seq<string> {
    [ "User Profile:",
      "- Age: " + OrElse(p.age, "Unknown"),
      "- Gender: " + OrElse(p.gender, "Unknown"),
      "- Known Conditions: " + ListOr(p.conditions, "None"),
      "- Current Medications: " + ListOr(p.medications, "None"),
      "- Allergies: " + ListOr(p.allergies, "None"),
      "",
      ProfileInstruction ]
  }

  /** The profile block of the prompt; empty when no profile was sent. */
  function ProfileContext(profile: Option<ProfileFields>): string {
    match profile
    case None => ""
    case Some(p) => "\n" + Join(ProfileLines(p), "\n") + "\n"
  }

  function FollowUpLine(answers: Option<string>): string {
    match answers
    case None => ""
    case Some(a) => "Additional information: " + a
  }

  const PromptOpening := "You are a medical AI assistant. Analyze the following symptoms and provide a detailed health assessment.\n\nSymptoms: "

  function SymptomLine(symptoms: seq<string>): string {
    PromptOpening + Join(symptoms, ", ") + "\n"
  }

  /** The prompt up to where the profile block goes. */
  function PromptHead(symptoms: seq<string>, answers: Option<string>): string {
    SymptomLine(symptoms) + FollowUpLine(answers) + "\n"
  }

  /** The prompt after the profile block: the answer language and the JSON layout asked for. */
  function PromptTail(language: string): string {
    "\n\nProvide your response in the following JSON format " + AnswerLanguage(language) + ":\n" + SymptomFormat
  }

  function SymptomPrompt(symptoms: seq<string>, answers: Option<string>, profile: Option<ProfileFields>, language: string): string {
    PromptHead(symptoms, answers) + ProfileContext(profile) + PromptTail(language)
  }

  /** The symptom line is the prompt's first piece. */
  lemma PromptStartsWithLine(symptoms: seq<string>, answers: Option<string>, profile: Option<ProfileFields>, language: string)
    ensures var line := SymptomLine(symptoms);
      var p := SymptomPrompt(symptoms, answers, profile, language);
      |line| <= |p| && p[..|line|] == line
  {
    HeadOf5(SymptomLine(symptoms), FollowUpLine(answers), "\n", ProfileContext(profile), PromptTail(language));
  }

  /** The prompt opens with the symptoms joined by ", " in their given order, and so names every one. */
  lemma PromptListsSymptoms(symptoms: seq<string>, answers: Option<string>, profile: Option<ProfileFields>, language: string)
    ensures var line := PromptOpening + Join(symptoms, ", ") + "\n";
      var p := SymptomPrompt(symptoms, answers, profile, language);
      |line| <= |p| && p[..|line|] == line
    ensures forall x :: x in symptoms ==> Includes(SymptomPrompt(symptoms, answers, profile, language), x)
  {
    PromptStartsWithLine(symptoms, answers, profile, language);
    forall x | x in symptoms ensures Includes(SymptomPrompt(symptoms, answers, profile, language), x) {
      JoinIncludes(symptoms, ", ", x);
      IncludesRight(PromptOpening, Join(symptoms, ", "), x);
      IncludesLeft(PromptOpening + Join(symptoms, ", "), "\n", x);
      IncludesLeft(SymptomLine(symptoms), FollowUpLine(answers), x);
      IncludesLeft(SymptomLine(symptoms) + FollowUpLine(answers), "\n", x);
      IncludesLeft(PromptHead(symptoms, answers), ProfileContext(profile), x);
      IncludesLeft(PromptHead(symptoms, answers) + ProfileContext(profile), PromptTail(language), x);
    }
  }

  /** The prompt asks for the answer in the language the request named. */
  lemma PromptNamesLanguage(symptoms: seq<string>, answers: Option<string>, profile: Option<ProfileFields>, language: string)
    ensures Includes(SymptomPrompt(symptoms, answers, profile, language), "(ensure all text is in " + LanguageName(language) + ")")
  {
    var key := AnswerLanguage(language);
    var lead := "\n\nProvide your response in the following JSON format ";
    IncludesSelf(key);
    IncludesRight(lead, key, key);
    IncludesLeft(lead + key, ":\n", key);
    IncludesLeft(lead + key + ":\n", SymptomFormat, key);
    IncludesRight(PromptHead(symptoms, answers) + ProfileContext(profile), PromptTail(language), key);
  }

  /**
   * Sending a profile inserts exactly its block into the prompt, after the line that
   * holds the follow-up answers, and changes nothing else.
   */
  lemma ProfileOnlyAddsBlock(symptoms: seq<string>, answers: Option<string>, profile: ProfileFields, language: string)
    ensures var bare := SymptomPrompt(symptoms, answers, None, language);
      var cut := |PromptHead(symptoms, answers)|;
      cut <= |bare| &&
      SymptomPrompt(symptoms, answers, Some(profile), language) == bare[..cut] + ProfileContext(Some(profile)) + bare[cut..]
  {
    var head := PromptHead(symptoms, answers);
    assert head + ProfileContext(None) == head;
    Splice(head, ProfileContext(Some(profile)), PromptTail(language));
  }

  /** Follow-up answers are inserted, labelled, right after the symptom line, and change nothing else. */
  lemma FollowUpOnlyAddsLine(symptoms: seq<string>, answers: string, profile: Option<ProfileFields>, language: string)
    ensures var bare := SymptomPrompt(symptoms, None, profile, language);
      var cut := |SymptomLine(symptoms)|;
      cut <= |bare| &&
      SymptomPrompt(symptoms, Some(answers), profile, language) == bare[..cut] + ("Additional information: " + answers) + bare[cut..]
  {
    var line := SymptomLine(symptoms);
    assert line + FollowUpLine(None) == line;
    SpliceBefore3(line, FollowUpLine(Some(answers)), "\n", ProfileContext(profile), PromptTail(language));
  }

  /** Every non-empty medication, condition and allergy of a sent profile is named in the prompt. */
  lemma PromptMentionsProfile(symptoms: seq<string>, answers: Option<string>, profile: ProfileFields, language: string, x: string)
    requires x != ""
    requires || (profile.conditions.Some? && x in profile.conditions.value)
             || (profile.medications.Some? && x in profile.medications.value)
             || (profile.allergies.Some? && x in profile.allergies.value)
    ensures Includes(SymptomPrompt(symptoms, answers, Some(profile), language), x)
  {
    var lines := ProfileLines(profile);
    if profile.conditions.Some? && x in profile.conditions.value {
      ListOrMentions(profile.conditions, "None", x);
      IncludesRight("- Known Conditions: ", ListOr(profile.conditions, "None"), x);
      JoinIncludesPart(lines, "\n", 3, x);
    } else if profile.medications.Some? && x in profile.medications.value {
      ListOrMentions(profile.medications, "None", x);
      IncludesRight("- Current Medications: ", ListOr(profile.medications, "None"), x);
      JoinIncludesPart(lines, "\n", 4, x);
    } else {
      ListOrMentions(profile.allergies, "None", x);
      IncludesRight("- Allergies: ", ListOr(profile.allergies, "None"), x);
      JoinIncludesPart(lines, "\n", 5, x);
    }
    IncludesRight("\n", Join(lines, "\n"), x);
    IncludesLeft("\n" + Join(lines, "\n"), "\n", x);
    var head := PromptHead(symptoms, answers);
    IncludesRight(head, ProfileContext(Some(profile)), x);
    IncludesLeft(head + ProfileContext(Some(profile)), PromptTail(language), x);
  }

  /** The completion request for a body, or the 400 reply for a missing or empty symptom list. */
  function ComposeRequest(req: SymptomRequest, aiModel: string): (r: Result<CompletionRequest, HttpError>)
    ensures r.Failure? <==> req.symptoms.None? || req.symptoms.value == []
    ensures r.Failure? ==> r.error == SymptomsRequired
    ensures r.Success? ==> r.value.model == ModelId(aiModel) && r.value.reasoningEnabled
    ensures r.Success? ==> r.value.messages == [SystemText(SymptomSystem), UserText(SymptomPrompt(req.symptoms.value, req.followUpAnswers, req.userProfile, req.language))]
  {
    match req.symptoms
    case None => Failure(SymptomsRequired)
    case Some(s) =>
      if s == [] then Failure(SymptomsRequired)
      else Success(CompletionRequest(
        ModelId(aiModel),
        [SystemText(SymptomSystem), UserText(SymptomPrompt(s, req.followUpAnswers, req.userProfile, req.language))],
        true))
  }

  const FallbackReasoning := "The AI response could not be parsed. Please try again."

  const FallbackDisease := Disease("Unable to analyze", 0, FallbackReasoning, "moderate", [], [], [], [], [])

  /** The model's JSON if the extracted text parses, else one placeholder disease with the raw reply as advice. */
  function AnalyzeReply<V>(reply: string, parse: string -> Option<V>): (r: Analysis<V>)
    ensures r.Parsed? <==> parse(JsonText(reply)).Some?
    ensures r.Parsed? ==> r.value == parse(JsonText(reply)).value
    ensures r.Unparsed? ==> r.diseases == [FallbackDisease] && r.generalAdvice == reply
  {
    match parse(JsonText(reply))
    case Some(v) => Parsed(v)
    case None => Unparsed([FallbackDisease], reply)
  }

  /** A backtick-free JSON payload in a "```json" fence is what the route returns. */
  lemma FencedReplyParsed<V>(pre: string, payload: string, post: string, parse: string -> Option<V>)
    requires '`' !in pre && '`' !in payload
    requires parse(payload).Some?
    ensures AnalyzeReply(pre + JsonOpen + payload + Close + post, parse) == Parsed(parse(payload).value)
  {
    JsonFenceRoundTrip(pre, payload, post);
  }

  /** The whole route: 400 before any call, 500 when the service fails, else the analysis. */
  function AnalyzeSymptoms<V>(req: SymptomRequest, aiModel: string, call: CompletionRequest -> Upstream, parse: string -> Option<V>): (r: Result<Analysis<V>, HttpError>)
    ensures r.Failure? && r.error.status == 400 <==> ComposeRequest(req, aiModel).Failure?
    ensures ComposeRequest(req, aiModel).Success? ==> match call(ComposeRequest(req, aiModel).value)
      case Answered(content, _) => r == Success(AnalyzeReply(content, parse))
      case ServiceFailure(message, _) => r == Failure(HttpError(500, "Failed to analyze symptoms", Some(message), None))
  {
    match ComposeRequest(req, aiModel)
    case Failure(e) => Failure(e)
    case Success(request) =>
      match call(request)
      case Answered(content, _) => Success(AnalyzeReply(content, parse))
      case ServiceFailure(message, _) => Failure(HttpError(500, "Failed to analyze symptoms", Some(message), None))
  }

  /** A rejected body never reaches the completion service: the reply does not depend on it. */
  lemma RejectedBodyNeverCalls<V>(req: SymptomRequest, aiModel: string, call1: CompletionRequest -> Upstream, call2: CompletionRequest -> Upstream, parse: string -> Option<V>)
    requires req.symptoms.None? || req.symptoms.value == []
    ensures AnalyzeSymptoms(req, aiModel, call1, parse) == AnalyzeSymptoms(req, aiModel, call2, parse) == Failure(SymptomsRequired)
  {
  }
}
