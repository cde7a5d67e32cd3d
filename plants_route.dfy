/**
 * The plant-identification route (POST /identify): accepts up to three uploaded images,
 * builds a multi-part prompt (text, optional safety annex from the sender's profile,
 * answer language, then the images as data URLs), asks the vision model and returns its
 * JSON or a fixed "could not identify" card.
 */
module PlantsRoute {
  import opened Wrappers
  import opened Strings
  import opened Completion
  import opened ServerProfile
  import opened Extraction

  /** An uploaded file; `base64` is its content already encoded (the encoding is not modelled). */
  datatype IncomingFile = IncomingFile(originalName: string, mimetype: string, size: nat, base64: string)

  /** Why the upload layer turned the request away before the route ran. */
  datatype UploadError = TooManyFiles | NotAnImage(name: string) | TooLarge(name: string)

  /** The card sent back when the model's reply does not parse. */
  datatype PlantCard = PlantCard(
    plantName: string,
    scientificName: string,
    confidence: int,
    identificationReasoning: string,
    medicinalBenefits: seq<string>,
    preparation: seq<string>,
    dosage: string,
    sideEffects: seq<string>,
    warnings: seq<string>,
    alternativePlants: seq<string>,
    treatsConditions: seq<string>)

  datatype PlantAnalysis<V> = PlantParsed(value: V) | PlantUnparsed(card: PlantCard)

  /** The outcome of one request: refused by the upload layer, or answered by the route. */
  datatype PlantOutcome<V> = UploadRejected(reason: UploadError) | Responded(response: Result<PlantAnalysis<V>, HttpError>)

  const MaxImages: nat := 3
  const MaxFileSize: nat := 10 * 1024 * 1024
  const VisionModel := "google/gemini-2.0-flash-exp:free"
  const PlantSystem := "You are a botanical expert specializing in medicinal plants. Provide accurate identification and comprehensive medicinal information."
  const PlantFormat := "{\n  \"plantName\": \"Common Name\",\n  \"scientificName\": \"Scientific Name\",\n  \"confidence\": 0.0-1.0,\n  \"identificationReasoning\": \"Brief explanation of visual features\",\n  \"medicinalBenefits\": [\"Benefit 1\", \"Benefit 2\"],\n  \"treatsConditions\": [\"Condition 1\", \"Condition 2\"],\n  \"preparation\": [\"Prep method 1\", \"Prep method 2\"],\n  \"dosage\": \"Recommended dosage\",\n  \"sideEffects\": [\"Side effect 1\", \"Side effect 2\"],\n  \"warnings\": [\"General warning 1\", \"General warning 2\"],\n  \"profileWarning\": {\n    \"hasWarning\": boolean,\n    \"type\": \"Allergy\" | \"Interaction\" | \"Condition\" | \"None\",\n    \"severity\": \"High\" | \"Moderate\" | \"Low\" | \"None\",\n    \"description\": \"Specific warning based on user profile. E.g., 'DANGEROUS: You are taking Warfarin, and this plant contains Vitamin K...'\",\n    \"action\": \"What the user should do (e.g., 'Avoid completely')\"\n  },\n  \"alternativePlants\": [\"Alt Plant 1\", \"Alt Plant 2\"]\n}"
  const ImagesRequired := HttpError(400, "At least one image is required", None, None)

  /** `path` with its trailing slashes dropped. */
  function StripTrailingSlashes(path: string): (r: string)
    ensures |r| <= |path| && r == path[..|r|]
    ensures r == [] || r[|r| - 1] != '/'
  {
    if path != [] && path[|path| - 1] == '/' then StripTrailingSlashes(path[..|path| - 1]) else path
  }

  /** The last path component. */
  function BaseName(path: string): (r: string)
    ensures '/' !in r
  {
    var p := StripTrailingSlashes(path);
    match LastIndexOf(p, '/')
    case None => p
    case Some(k) => p[k + 1..]
  }

  /**
   * `path.extname`: from the last dot of the last component to its end, or "" when the
   * component has no dot, starts with its only dot, or is "..".
   */
  function Extname(path: string): (r: string)
    ensures r == "" || (r[0] == '.' && '.' !in r[1..] && '/' !in r)
  {
    var b := BaseName(path);
    match LastIndexOf(b, '.')
    case None => ""
    case Some(d) =>
      if d == 0 || b == ".." then ""
      else b[d..]
  }

  /** A plain "stem.ext" name has extension ".ext". */
  lemma ExtnameOfPlainName(stem: string, ext: string)
    requires stem != "" && ext != ""
    requires '/' !in stem && '/' !in ext && '.' !in ext
    ensures Extname(stem + "." + ext) == "." + ext
  {
    var name := stem + "." + ext;
    assert name[|name| - 1] == ext[|ext| - 1];
    assert StripTrailingSlashes(name) == name;
    assert '/' !in name by {
      forall j | 0 <= j < |name| ensures name[j] != '/' {
        if j < |stem| { assert name[j] == stem[j]; }
        else if j > |stem| { assert name[j] == ext[j - |stem| - 1]; }
      }
    }
    assert BaseName(name) == name;
    var d := |stem|;
    assert name[d] == '.';
    forall j | d < j < |name| ensures name[j] != '.' {
      assert name[j] == ext[j - d - 1];
    }
    assert LastIndexOf(name, '.') == Some(d);
    assert name != "..";
    assert name[d..] == "." + ext;
  }

  /** The file-type test `/jpeg|jpg|png|webp/.test(s)`. */
  predicate AllowedType(s: string) {
    Includes(s, "jpeg") || Includes(s, "jpg") || Includes(s, "png") || Includes(s, "webp")
  }

  /** The upload filter: both the lower-cased extension and the (unchanged) MIME type must pass. */
  predicate IsImage(f: IncomingFile) {
    AllowedType(ToLower(Extname(f.originalName))) && AllowedType(f.mimetype)
  }

  predicate FileAccepted(f: IncomingFile) {
    IsImage(f) && f.size <= MaxFileSize
  }

  /**
   * The upload layer, file by file in arrival order: a fourth file, a non-image or a file
   * over the size limit stops the request with that reason.
   */
  function Upload(files: seq<IncomingFile>): (r: Result<seq<IncomingFile>, UploadError>)
    ensures r.Success? <==> |files| <= MaxImages && forall f :: f in files ==> FileAccepted(f)
    ensures r.Success? ==> r.value == files
  {
    UploadFrom(files, 0)
  }

  function UploadFrom(files: seq<IncomingFile>, i: nat): (r: Result<seq<IncomingFile>, UploadError>)
    requires i <= |files| && i <= MaxImages
    decreases |files| - i
    ensures r.Success? <==> |files| <= MaxImages && forall j :: i <= j < |files| ==> FileAccepted(files[j])
    ensures r.Success? ==> r.value == files
  {
    if i == |files| then Success(files)
    else if i >= MaxImages then Failure(TooManyFiles)
    else if !IsImage(files[i]) then Failure(NotAnImage(files[i].originalName))
    else if files[i].size > MaxFileSize then Failure(TooLarge(files[i].originalName))
    else UploadFrom(files, i + 1)
  }

  /** The lines of the safety annex built from a parsed profile. */
  function AnnexLines(p: ProfileFields): seq<string> {
    [ "User Profile for Safety Check:",
      "- Allergies: " + ListOr(p.allergies, "None"),
      "- Current Medications: " + ListOr(p.medications, "None"),
      "- Medical Conditions: " + ListOr(p.conditions, "None"),
      "",
      "CRITICAL SAFETY INSTRUCTION:",
      "You MUST cross-reference the identified plant with the User Profile above.",
      "1. Check for ALLERGIES: Is the user allergic to this plant, its family, or its compounds?",
      "2. Check for DRUG INTERACTIONS: Does this plant interact with " + ListOr(p.medications, "any medications") + "? (e.g., Ginger/Garlic + Warfarin/Blood Thinners is a MAJOR RISK).",
      "3. Check for CONDITIONS: Is this plant contraindicated for " + ListOr(p.conditions, "any conditions") + "?",
      "",
      "If ANY risk is found, you MUST set \"hasWarning\": true in the JSON response and provide a severe warning." ]
  }

  /**
   * The safety annex: present only when the form carries a profile field that parses;
   * an absent or unparseable field leaves it empty.
   */
  function SafetyAnnex(profileField: string, parseProfile: string -> Option<ProfileFields>): string {
    if profileField == "" then ""
    else match parseProfile(profileField)
      case None => ""
      case Some(p) => "\n" + Join(AnnexLines(p), "\n") + "\n"
  }

  const PlantOpening := "Identify this plant from the image and provide detailed medicinal information.\n"

  function PlantTail(language: string): string {
    "\n\nProvide the response in the following JSON format " + AnswerLanguage(OrElse(language, "en")) + ":\n" + PlantFormat
  }

  function PlantPrompt(profileField: string, parseProfile: string -> Option<ProfileFields>, language: string): string {
    PlantOpening + SafetyAnnex(profileField, parseProfile) + PlantTail(language)
  }

  /** An unparseable profile field gives the same prompt as no profile at all. */
  lemma UnparseableProfileIgnored(profileField: string, parseProfile: string -> Option<ProfileFields>, language: string)
    requires parseProfile(profileField).None?
    ensures PlantPrompt(profileField, parseProfile, language) == PlantPrompt("", parseProfile, language)
  {
  }

  /** The prompt asks for the answer in the requested language, English when none was sent. */
  lemma PlantPromptNamesLanguage(profileField: string, parseProfile: string -> Option<ProfileFields>, language: string)
    ensures Includes(PlantPrompt(profileField, parseProfile, language), AnswerLanguage(OrElse(language, "en")))
  {
    var key := AnswerLanguage(OrElse(language, "en"));
    var lead := "\n\nProvide the response in the following JSON format ";
    IncludesSelf(key);
    IncludesRight(lead, key, key);
    IncludesLeft(lead + key, ":\n", key);
    IncludesLeft(lead + key + ":\n", PlantFormat, key);
    IncludesRight(PlantOpening + SafetyAnnex(profileField, parseProfile), PlantTail(language), key);
  }

  /** A missing language field asks for English, as an unknown code does. */
  lemma PlantLanguageDefault()
    ensures AnswerLanguage(OrElse("", "en")) == "(ensure all text is in English)"
  {
  }

  /** Every non-empty medication, condition and allergy of a profile is named in its annex. */
  lemma AnnexMentionsProfile(p: ProfileFields, x: string)
    requires x != ""
    requires || (p.conditions.Some? && x in p.conditions.value)
             || (p.medications.Some? && x in p.medications.value)
             || (p.allergies.Some? && x in p.allergies.value)
    ensures Includes("\n" + Join(AnnexLines(p), "\n") + "\n", x)
  {
    var lines := AnnexLines(p);
    if p.allergies.Some? && x in p.allergies.value {
      ListOrMentions(p.allergies, "None", x);
      IncludesRight("- Allergies: ", ListOr(p.allergies, "None"), x);
      JoinIncludesPart(lines, "\n", 1, x);
    } else if p.medications.Some? && x in p.medications.value {
      ListOrMentions(p.medications, "None", x);
      IncludesRight("- Current Medications: ", ListOr(p.medications, "None"), x);
      JoinIncludesPart(lines, "\n", 2, x);
    } else {
      ListOrMentions(p.conditions, "None", x);
      IncludesRight("- Medical Conditions: ", ListOr(p.conditions, "None"), x);
      JoinIncludesPart(lines, "\n", 3, x);
    }
    IncludesRight("\n", Join(lines, "\n"), x);
    IncludesLeft("\n" + Join(lines, "\n"), "\n", x);
  }

  /** Every non-empty medication, condition and allergy of a parsed profile is named in the prompt. */
  lemma PlantPromptMentionsProfile(profileField: string, parseProfile: string -> Option<ProfileFields>, language: string, x: string)
    requires profileField != "" && parseProfile(profileField).Some?
    requires x != ""
    requires var p := parseProfile(profileField).value;
      || (p.conditions.Some? && x in p.conditions.value)
      || (p.medications.Some? && x in p.medications.value)
      || (p.allergies.Some? && x in p.allergies.value)
    ensures Includes(PlantPrompt(profileField, parseProfile, language), x)
  {
    var p := parseProfile(profileField).value;
    var annex := SafetyAnnex(profileField, parseProfile);
    assert annex == "\n" + Join(AnnexLines(p), "\n") + "\n";
    AnnexMentionsProfile(p, x);
    IncludesRight(PlantOpening, annex, x);
    IncludesLeft(PlantOpening + annex, PlantTail(language), x);
  }

  /** `data:<mimetype>;base64,<content>`. */
  function DataUrl(f: IncomingFile): string {
    "data:" + f.mimetype + ";base64," + f.base64
  }

  /** One image part per file, in upload order. */
  function ImageParts(files: seq<IncomingFile>): (r: seq<Part>)
    ensures |r| == |files|
    ensures forall i :: 0 <= i < |files| ==> r[i] == ImageUrlPart(DataUrl(files[i]))
  {
    if files == [] then [] else [ImageUrlPart(DataUrl(files[0]))] + ImageParts(files[1..])
  }

  /** The user message: the prompt text first, then every image in upload order. */
  function UserParts(prompt: string, files: seq<IncomingFile>): (r: seq<Part>)
    ensures |r| == |files| + 1 && r[0] == TextPart(prompt)
    ensures forall i :: 0 <= i < |files| ==> r[i + 1] == ImageUrlPart(DataUrl(files[i]))
  {
    [TextPart(prompt)] + ImageParts(files)
  }

  /** The completion request for the accepted files, or the 400 reply when there are none. */
  function ComposePlantRequest(files: seq<IncomingFile>, profileField: string, language: string, parseProfile: string -> Option<ProfileFields>): (r: Result<CompletionRequest, HttpError>)
    ensures r.Failure? <==> files == []
    ensures r.Failure? ==> r.error == ImagesRequired
    ensures r.Success? ==> r.value.model == VisionModel && !r.value.reasoningEnabled
    ensures r.Success? ==> r.value.messages == [SystemText(PlantSystem), Message("user", Parts(UserParts(PlantPrompt(profileField, parseProfile, language), files)), None)]
  {
    if files == [] then Failure(ImagesRequired)
    else
      var prompt := PlantPrompt(profileField, parseProfile, language);
      Success(CompletionRequest(VisionModel, [SystemText(PlantSystem), Message("user", Parts(UserParts(prompt, files)), None)], false))
  }

  const FallbackCard := PlantCard(
    "Unknown", "Unable to identify", 0,
    "The AI response could not be parsed. Please try again with clearer images.",
    [], [], "", [], ["Unable to identify plant. Do not consume unknown plants."], [], [])

  /** The model's JSON if the extracted text parses, else the fallback card. */
  function IdentifyReply<V>(reply: string, parse: string -> Option<V>): (r: PlantAnalysis<V>)
    ensures r.PlantParsed? <==> parse(JsonText(reply)).Some?
    ensures r.PlantParsed? ==> r.value == parse(JsonText(reply)).value
    ensures r.PlantUnparsed? ==> r.card == FallbackCard
  {
    match parse(JsonText(reply))
    case Some(v) => PlantParsed(v)
    case None => PlantUnparsed(FallbackCard)
  }

  /** The fallback card never presents an unknown plant as safe: it names no benefit and carries a warning. */
  lemma FallbackCardWarns<V>(reply: string, parse: string -> Option<V>)
    requires parse(JsonText(reply)).None?
    ensures var r := IdentifyReply(reply, parse);
      r.PlantUnparsed? && r.card.confidence == 0 && r.card.medicinalBenefits == [] && |r.card.warnings| == 1
  {
  }

  /** A backtick-free JSON payload in an untagged fence, in a reply with no other backticks, is what the route returns. */
  lemma PlainFencedReplyParsed<V>(pre: string, payload: string, post: string, parse: string -> Option<V>)
    requires '`' !in pre && '`' !in payload && '`' !in post
    requires parse(payload).Some?
    ensures IdentifyReply(pre + PlainOpen + payload + Close + post, parse) == PlantParsed(parse(payload).value)
  {
    PlainFenceRoundTrip(pre, payload, post);
  }

  /** The route on the accepted files: 400 before any call, 500 with details when the service fails. */
  function IdentifyPlant<V>(files: seq<IncomingFile>, profileField: string, language: string, parseProfile: string -> Option<ProfileFields>, call: CompletionRequest -> Upstream, parse: string -> Option<V>): (r: Result<PlantAnalysis<V>, HttpError>)
    ensures r.Failure? && r.error.status == 400 <==> files == []
    ensures files != [] ==> match call(ComposePlantRequest(files, profileField, language, parseProfile).value)
      case Answered(content, _) => r == Success(IdentifyReply(content, parse))
      case ServiceFailure(message, data) => r == Failure(HttpError(500, "Failed to identify plant", Some(message), Some(OrElse(data, "No additional details"))))
  {
    match ComposePlantRequest(files, profileField, language, parseProfile)
    case Failure(e) => Failure(e)
    case Success(request) =>
      match call(request)
      case Answered(content, _) => Success(IdentifyReply(content, parse))
      case ServiceFailure(message, data) => Failure(HttpError(500, "Failed to identify plant", Some(message), Some(OrElse(data, "No additional details"))))
  }

  /** Upload layer, then route. */
  function Identify<V>(files: seq<IncomingFile>, profileField: string, language: string, parseProfile: string -> Option<ProfileFields>, call: CompletionRequest -> Upstream, parse: string -> Option<V>): (r: PlantOutcome<V>)
    ensures r.UploadRejected? <==> Upload(files).Failure?
    ensures r.Responded? ==> r.response == IdentifyPlant(files, profileField, language, parseProfile, call, parse)
  {
    match Upload(files)
    case Failure(e) => UploadRejected(e)
    case Success(accepted) => Responded(IdentifyPlant(accepted, profileField, language, parseProfile, call, parse))
  }

  /** The service sees every accepted image, in order, behind the prompt text. */
  lemma ServiceSeesAllImages(files: seq<IncomingFile>, profileField: string, language: string, parseProfile: string -> Option<ProfileFields>)
    requires files != [] && Upload(files).Success?
    ensures var m := ComposePlantRequest(files, profileField, language, parseProfile).value.messages;
      |m| == 2 && m[1].content.Parts? && |m[1].content.parts| == |files| + 1 &&
      forall i :: 0 <= i < |files| ==> m[1].content.parts[i + 1] == ImageUrlPart(DataUrl(files[i]))
  {
  }
}
