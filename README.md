# Medtech core, modelled in Dafny

Medtech is a health assistant. Its React client lets a user do five things:

- enter symptoms, typed or dictated;
- photograph plants;
- check herb–drug interactions;
- keep a health profile;
- browse a saved history.

Its Express server turns each request into a prompt for an external chat-completion service. It turns the free-text reply back into typed results.

This project models the logic around that call:

- **History store and risk lookups** (`helpers.js`). One newest-first, 50-entry log per category is kept in the browser's key-value storage. Risk levels map to badge colours and icons.
- **Symptom route** (`symptoms.js`). It validates the input, builds the prompt with its optional profile block and answer language, and extracts the JSON from the reply. When that fails it returns a fixed placeholder assessment.
- **Plant route** (`plants.js`). The upload filter takes at most 3 images, each checked by file type and size. The route builds the profile safety annex and the multi-part message (text first, then one image part per file). It uses the same extraction, with a fixed fallback card.
- **Chat route** (`chat.js`). It rejects an empty message. It then assembles the conversation step by step: system instruction, forwarded history, new user message. Finally it wraps the reply.
- **Interaction checker page**. It guards its two inputs, sends its prompt through the chat route with an empty history, extracts the text from the first `{` to the last `}`, and falls back to a fixed result. It also maps severity to a badge.
- **Profile provider** (`UserContext.jsx`). It holds the default profile, does a shallow merge, and keeps duplicate-free add/remove lists for conditions, medications and allergies. Profile and language are persisted after every change.
- **Symptom checker page**. It adds and removes symptoms, splits and merges a voice transcript, refuses to analyse an empty list, and has its own risk badge and icon. It decides when the doctor panel is shown.
- **Doctor panel**. A keyword lookup picks the specialist; the first key in map order wins. It also builds the search address and normalises the city.
- **Plant identifier page**. It keeps at most 3 selected images, each with one preview. It removes an image, fills the identification form, and picks the profile-warning heading.

Modules follow the source files:

- `helpers.dfy`, `symptoms_route.dfy`, `plants_route.dfy`, `chat_route.dfy`, `interaction_checker.dfy`, `user_context.dfy`, `symptom_checker.dfy`, `doctor_connect.dfy` and `plant_identifier.dfy` model one source file each.
- Shared pieces live in their own modules:
  - `wrappers.dfy`: Option and Result.
  - `strings.dfy`: the JavaScript string operations used.
  - `lists.dfy`: filter, append-if-absent and Set-based dedup.
  - `completion.dfy`: the completion-service message shapes, model id and language name.
  - `server_profile.dfy`: the profile as the server receives it.
  - `extraction.dfy`: the fence search.

Code that changes state in place is modelled with classes, `modifies` clauses and specification functions:

- the history store;
- the profile provider;
- the three page states;
- the chat route's push loop;
- the specialist loop.

Foreign calls are parameters of the functions that use them. They are `JSON.parse`, `JSON.stringify`, `encodeURIComponent`, `URL.createObjectURL`, the completion service, `Date.now()` and its ISO form.

Where the code and its prose description disagree, the model follows the code:

- **Corrupt history storage.** `getHistory`/`saveToHistory` do not guard `JSON.parse` (`frontend/src/utils/helpers.js:52`, `:64`). Stored text that does not parse makes them throw; they do not fall back to an empty list. `Helpers.Load` returns a `Failure`, and the store then writes nothing.
- **Tagged fences.** Only a fence tagged `json`, or one with no tag at all, is unwrapped. A fence tagged with anything else, say `javascript`, leaves the whole reply, fence markers included, to be parsed (`Extraction.OtherTagKeepsFence`).
- **Corrupt stored profile.** The profile provider also throws on a stored profile that does not parse (`UserContext.LoadProfile`).

## Model

| member | source | states |
|---|---|---|
| Helpers.HistoryKeyInjective | frontend/src/utils/helpers.js:52 | distinct categories use distinct storage keys (`${type}History`) |
| Helpers.Load | frontend/src/utils/helpers.js:63-65 | a stored list loads as itself; an absent key or the empty string loads as the empty list; loading fails, carrying the text, exactly when the stored text does not parse |
| Helpers.Prepend | frontend/src/utils/helpers.js:58-59 | the new entry is first, the old entries follow in order, and the list is cut to 50 |
| Helpers.WithoutId | frontend/src/utils/helpers.js:67-71 | keeps exactly the entries whose id differs; an absent id leaves the list unchanged |
| Helpers.WithoutIdAppend | frontend/src/utils/helpers.js:69 | deleting by id keeps the order of the rest (filtering distributes over concatenation) |
| Helpers.WriteIsolated | frontend/src/utils/helpers.js:52-59 | writing one category's key leaves what every other category loads unchanged |
| Helpers.RemoveIsolated | frontend/src/utils/helpers.js:73-75 | clearing one category leaves every other category unchanged |
| Helpers.Reverse | frontend/src/utils/helpers.js:58 | reverses a sequence element by element (helper for the newest-first order) |
| Helpers.CapOfCap | frontend/src/utils/helpers.js:59 | cutting to 50 before prepending and cutting again equals cutting once |
| Helpers.SaveAllNewestFirst | frontend/src/utils/helpers.js:51-61 | after any series of saves, the log is the saved entries newest first, followed by the old log, cut to 50 |
| Helpers.RiskColorFindsConstructor | frontend/src/utils/helpers.js:17-25 | as written, the level "constructor" finds the inherited Object constructor instead of a colour |
| Helpers.RiskIconFindsPrototype | frontend/src/utils/helpers.js:27-35 | as written, the level "__proto__" finds Object.prototype instead of an icon |
| Helpers.RiskColor | frontend/src/utils/helpers.js:17-25 | low/moderate/high/emergency in any case give success/warning/danger/danger; anything else, or no level, gives default; each colour in both directions |
| Helpers.RiskIcon | frontend/src/utils/helpers.js:27-35 | low in any case gives the check mark, moderate or high the warning sign, emergency the siren, and anything else (or no level) the bullet; each case in both directions |
| Helpers.LookupsAgree | frontend/src/utils/helpers.js:17-35 | away from the inherited names, the lookups as written return exactly the table's colour and icon |
| Helpers.HistoryStore.GetHistory | frontend/src/utils/helpers.js:63-65 | reads the category as `Load` does: the stored list itself, the empty list when nothing is stored, a failure when the text does not parse |
| Helpers.HistoryStore.SaveToHistory | frontend/src/utils/helpers.js:51-61 | returns the entry with id = now, the ISO time and the data; stores it in front of the old log cut to 50, under the category's key only; fails and writes nothing on corrupt storage |
| Helpers.HistoryStore.DeleteHistoryItem | frontend/src/utils/helpers.js:67-71 | writes back the log without the entries carrying the id, under the category's key only; fails on corrupt storage |
| Helpers.HistoryStore.ClearHistory | frontend/src/utils/helpers.js:73-75 | removes the category's key, after which the category loads as the empty list |
| Completion.ModelId | backend/routes/chat.js:63 | the configured model when set, otherwise the default free model; never empty |
| Completion.LanguageName | backend/routes/symptoms.js:35 | hi, es and fr give Hindi, Spanish and French, and exactly every other code gives English |
| ServerProfile.ListOr | backend/routes/symptoms.js:21-23 | a missing list, `[]` or `[""]` renders as the fallback; any other list as its items joined by ", " |
| ServerProfile.ListOrMentions | backend/routes/symptoms.js:21-23 | every non-empty item of a list appears in its rendering |
| Extraction.FenceMatch | backend/routes/symptoms.js:92 | the leftmost opening fence that has a closing after it, and the first closing after that opening; none exactly when no opening is followed by a closing |
| Extraction.Captured | backend/routes/symptoms.js:92-93 | the captured group is exactly the text between the matched opening and closing |
| Extraction.JsonText | backend/routes/symptoms.js:92-93 | the json fence's body if there is one, else the untagged fence's body, else the whole reply |
| Extraction.BareReply | backend/routes/symptoms.js:93 | a reply without backticks is parsed whole |
| Extraction.JsonFenceRoundTrip | backend/routes/symptoms.js:92-93 | a backtick-free payload in a json fence is extracted exactly, whatever follows it |
| Extraction.PlainFenceRoundTrip | backend/routes/plants.js:152-153 | a backtick-free payload in an untagged fence, with no other backticks around, is extracted exactly |
| Extraction.OtherTagKeepsFence | backend/routes/symptoms.js:92-93 | a fence tagged other than json is not unwrapped: the whole text, markers included, is what gets parsed |
| SymptomsRoute.PromptListsSymptoms | backend/routes/symptoms.js:29-31 | the prompt opens with the fixed lead-in followed by the symptoms joined by ", " in their given order and a line break, so every symptom is named |
| SymptomsRoute.PromptNamesLanguage | backend/routes/symptoms.js:35 | the prompt asks for the answer in the language the code maps to |
| SymptomsRoute.ProfileOnlyAddsBlock | backend/routes/symptoms.js:14-33 | a profile inserts exactly its block after the follow-up line and changes nothing else |
| SymptomsRoute.FollowUpOnlyAddsLine | backend/routes/symptoms.js:32 | follow-up answers insert exactly their labelled line after the symptom line and change nothing else |
| SymptomsRoute.PromptMentionsProfile | backend/routes/symptoms.js:16-27 | every non-empty condition, medication and allergy of a sent profile is named in the prompt |
| SymptomsRoute.ComposeRequest | backend/routes/symptoms.js:10-75 | 400 "Symptoms are required" exactly for a missing or empty list; otherwise the configured model, reasoning on, the system message then the prompt |
| SymptomsRoute.AnalyzeReply | backend/routes/symptoms.js:89-111 | the parsed value unchanged when the extracted text parses, else exactly one "Unable to analyze" disease (confidence 0, moderate, empty lists) with the raw reply as advice |
| SymptomsRoute.FencedReplyParsed | backend/routes/symptoms.js:92-94 | a json-fenced payload that parses is what the route returns |
| SymptomsRoute.AnalyzeSymptoms | backend/routes/symptoms.js:6-121 | 400 exactly for a rejected body; 500 "Failed to analyze symptoms" with the failure's message when the service fails; otherwise the analysis of the reply |
| SymptomsRoute.RejectedBodyNeverCalls | backend/routes/symptoms.js:10-12 | a rejected body gets the 400 whatever the service would have said |
| PlantsRoute.StripTrailingSlashes | backend/routes/plants.js:28 | a prefix of the path that does not end in a slash |
| PlantsRoute.BaseName | backend/routes/plants.js:28 | the last path component, with no slash in it |
| PlantsRoute.Extname | backend/routes/plants.js:28 | empty, or a dot followed by no further dot and no slash |
| PlantsRoute.ExtnameOfPlainName | backend/routes/plants.js:28 | a "stem.ext" name has extension ".ext" |
| PlantsRoute.Upload | backend/routes/plants.js:23-40 | the upload passes exactly when there are at most 3 files and each has an allowed lower-cased extension, an allowed MIME type and at most 10 MB; the files pass unchanged |
| PlantsRoute.UploadFrom | backend/routes/plants.js:23-40 | the same check from a given file onwards |
| PlantsRoute.UnparseableProfileIgnored | backend/routes/plants.js:58-86 | a profile field that does not parse gives the same prompt as no profile |
| PlantsRoute.PlantPromptNamesLanguage | backend/routes/plants.js:88-94 | the prompt asks for the language of the code, 'en' when none was sent |
| PlantsRoute.PlantLanguageDefault | backend/routes/plants.js:88-89 | a missing language asks for English |
| PlantsRoute.AnnexMentionsProfile | backend/routes/plants.js:67-80 | every non-empty allergy, medication and condition is named in the annex |
| PlantsRoute.PlantPromptMentionsProfile | backend/routes/plants.js:58-92 | every non-empty allergy, medication and condition of a parsed profile is named in the prompt |
| PlantsRoute.ImageParts | backend/routes/plants.js:47-56 | one data-URL image part per file, in upload order |
| PlantsRoute.UserParts | backend/routes/plants.js:128-134 | the prompt text first, then each file's image part in order |
| PlantsRoute.ComposePlantRequest | backend/routes/plants.js:42-136 | 400 "At least one image is required" exactly for no files; otherwise the vision model, reasoning off, the system message then the multi-part message |
| PlantsRoute.IdentifyReply | backend/routes/plants.js:150-171 | the parsed value unchanged when the extracted text parses, else the fallback card |
| PlantsRoute.FallbackCardWarns | backend/routes/plants.js:158-170 | an unparseable reply yields the fallback card: confidence 0, no medicinal benefits, and a single warning |
| PlantsRoute.PlainFencedReplyParsed | backend/routes/plants.js:152-154 | an untagged-fenced payload that parses is what the route returns |
| PlantsRoute.IdentifyPlant | backend/routes/plants.js:40-200 | 400 exactly for no files; 500 "Failed to identify plant" with the message and the service's error body, or "No additional details"; otherwise the identification |
| PlantsRoute.Identify | backend/routes/plants.js:23-44 | the upload layer refuses exactly the uploads it rejects; otherwise the route's answer |
| PlantsRoute.ServiceSeesAllImages | backend/routes/plants.js:128-134 | the service receives every accepted image, in order, after the prompt text |
| ChatRoute.Forwarded | backend/routes/chat.js:41-49 | a forwarded history entry keeps its role, its content and its reasoning trace |
| ChatRoute.Conversation | backend/routes/chat.js:15-58 | the system instruction first, the user message last, and each history entry forwarded in between, in order |
| ChatRoute.BuildMessages | backend/routes/chat.js:15-58 | the push loop builds exactly that conversation |
| ChatRoute.NonArrayHistoryIgnored | backend/routes/chat.js:40 | a history that is not an array is ignored |
| ChatRoute.HistoryRoundTrip | backend/routes/chat.js:42-50 | each history entry can be read back from its forwarded message |
| ChatRoute.HandleChat | backend/routes/chat.js:6-91 | 400 "Message is required" for an empty message; otherwise the reply content, its reasoning trace and no suggestions, or 500 "Failed to process chat message" with the failure's message |
| InteractionChecker.PromptNamesBoth | frontend/src/pages/InteractionChecker.jsx:29-39 | the prompt names the herb and the medication |
| InteractionChecker.PromptIsSoleUserMessage | frontend/src/pages/InteractionChecker.jsx:41-44 | with an empty history the server's conversation is the system instruction and the prompt only |
| InteractionChecker.BraceSpan | frontend/src/pages/InteractionChecker.jsx:50 | the first `{` and the last `}` after it; none exactly when no `}` follows a `{` |
| InteractionChecker.BraceCandidate | frontend/src/pages/InteractionChecker.jsx:50 | the candidate starts with `{` and ends with `}` |
| InteractionChecker.BraceRoundTrip | frontend/src/pages/InteractionChecker.jsx:50 | an object in brace-free surrounding text comes out whole, inner braces included |
| InteractionChecker.AnalyzeInteraction | frontend/src/pages/InteractionChecker.jsx:48-66 | the parsed value when the candidate parses; otherwise interaction true, severity "Unknown", the raw reply as mechanism and "Consult a doctor." |
| InteractionChecker.SeverityBadge | frontend/src/pages/InteractionChecker.jsx:187-191 | High exactly gives danger, Moderate exactly gives warning, and everything else success |
| InteractionChecker.FallbackShowsSuccessBadge | frontend/src/pages/InteractionChecker.jsx:187-191 | the fallback, which claims an interaction, is shown with the success badge |
| InteractionChecker.InteractionPage.BeginCheck | frontend/src/pages/InteractionChecker.jsx:16-24 | a missing herb or medication sets the error and sends nothing; otherwise the page is busy, cleared, and the prompt is sent |
| InteractionChecker.InteractionPage.FinishCheck | frontend/src/pages/InteractionChecker.jsx:48-72 | a failed request sets the retry error; a reply sets the analysed result; the page is no longer busy |
| UserContext.LoadProfile | frontend/src/context/UserContext.jsx:15-25 | nothing stored gives the empty default profile; stored text is parsed, and text that does not parse is an error |
| UserContext.LoadLanguage | frontend/src/context/UserContext.jsx:27-29 | the stored code, or 'en' when none |
| UserContext.Merge | frontend/src/context/UserContext.jsx:41-43 | each supplied key is replaced and every other field kept |
| UserContext.MergeIdempotent | frontend/src/context/UserContext.jsx:41-43 | merging a patch twice equals merging it once |
| UserContext.MergeNothing | frontend/src/context/UserContext.jsx:41-43 | an empty patch changes nothing |
| UserContext.MergeEverything | frontend/src/context/UserContext.jsx:41-43 | a patch with every key replaces the whole profile |
| UserContext.UserProvider.UpdateProfile | frontend/src/context/UserContext.jsx:31-43 | the profile becomes the merge and is persisted under 'userProfile' |
| UserContext.UserProvider.SetLanguage | frontend/src/context/UserContext.jsx:36-39 | the language changes and is persisted under 'appLanguage' |
| UserContext.UserProvider.AddCondition | frontend/src/context/UserContext.jsx:45-49 | appends the condition if absent, only to conditions, keeps the list duplicate-free, and persists |
| UserContext.UserProvider.RemoveCondition | frontend/src/context/UserContext.jsx:51-53 | drops every equal condition, keeps the rest in order, touches no other field, and persists |
| UserContext.UserProvider.AddMedication | frontend/src/context/UserContext.jsx:55-59 | the same append-if-absent rule on medications |
| UserContext.UserProvider.RemoveMedication | frontend/src/context/UserContext.jsx:61-63 | the same filter on medications |
| UserContext.UserProvider.AddAllergy | frontend/src/context/UserContext.jsx:65-69 | the same append-if-absent rule on allergies |
| UserContext.UserProvider.RemoveAllergy | frontend/src/context/UserContext.jsx:71-73 | the same filter on allergies |
| UserContext.AddThenRemove | frontend/src/context/UserContext.jsx:45-53 | adding then removing an absent item restores the list |
| UserContext.AddPresentIsNoOp | frontend/src/context/UserContext.jsx:45-49 | adding a listed item changes nothing |
| Lists.RemoveAll | frontend/src/context/UserContext.jsx:52 | exactly every copy of the item goes (as multisets) and all else stays |
| Lists.RemoveAllAppend | frontend/src/pages/SymptomChecker.jsx:34 | filtering keeps the order of the rest |
| Lists.Dedup | frontend/src/pages/SymptomChecker.jsx:44 | the Set copy has no duplicates and the same members |
| Lists.DedupPrefix | frontend/src/pages/SymptomChecker.jsx:44 | the Set copy of a longer list starts with the Set copy of its prefix |
| Lists.DedupOfDistinct | frontend/src/pages/SymptomChecker.jsx:44 | a duplicate-free list is its own Set copy |
| SymptomChecker.FirstSeparator | frontend/src/pages/SymptomChecker.jsx:43 | the first "," or "and" at or after a position, none exactly when there is no later one |
| SymptomChecker.SplitPieces | frontend/src/pages/SymptomChecker.jsx:43 | the split yields at least one piece and no piece holds a separator |
| SymptomChecker.SplitAfterPiece | frontend/src/pages/SymptomChecker.jsx:43 | a separator-free piece followed by a separator is split off unchanged |
| SymptomChecker.CleanPiecesNoSeparator | frontend/src/pages/SymptomChecker.jsx:43 | trimming cannot create a separator |
| SymptomChecker.TranscriptSymptoms | frontend/src/pages/SymptomChecker.jsx:43 | the dictated symptoms are non-empty, without white space at either end, and contain neither "," nor "and" |
| SymptomChecker.MergeDictatedKeepsList | frontend/src/pages/SymptomChecker.jsx:44 | the current list stays in front, in order; every dictated symptom is added; nothing else is; no duplicate remains |
| SymptomChecker.AndInsideWordSplits | frontend/src/pages/SymptomChecker.jsx:43 | "and" is matched inside words: "Hand" is dictated as "H" |
| SymptomChecker.LocalRiskColorAsWritten | frontend/src/pages/SymptomChecker.jsx:83-90 | high gives error, medium warning, low success (any case), and everything else default, each in both directions |
| SymptomChecker.LocalRiskIconAsWritten | frontend/src/pages/SymptomChecker.jsx:92-99 | as written: high gives the red icon, medium the yellow, low the green, and every other level (or none) the white one; each in both directions |
| SymptomChecker.LocalColorMissesModerate | frontend/src/pages/SymptomChecker.jsx:83-90 | as written, the server's "moderate", including the route's fallback level, gets the neutral badge |
| SymptomChecker.LocalRiskMissesEmergency | frontend/src/pages/SymptomChecker.jsx:83-99 | as written, "emergency" gets the neutral badge and the neutral icon |
| SymptomChecker.LocalColorHighUnstyled | frontend/src/pages/SymptomChecker.jsx:85 | as written, "high" gets a variant the badge component does not style |
| SymptomChecker.LocalRiskColor | frontend/src/pages/SymptomChecker.jsx:83-90 | corrected: high/emergency give danger, moderate/medium warning, low success, all else default, always a styled variant |
| SymptomChecker.LocalRiskIcon | frontend/src/pages/SymptomChecker.jsx:92-99 | corrected: the same levels give the red, yellow and green icons |
| SymptomChecker.LocalRiskColorMatchesTable | frontend/src/pages/SymptomChecker.jsx:83-90 | the corrected badge agrees with the shared colour table on every level except "medium" |
| SymptomChecker.DoctorPanel | frontend/src/pages/SymptomChecker.jsx:361-365 | the panel appears exactly for a non-empty disease list, for its first disease |
| SymptomChecker.SymptomPage.AddSymptom | frontend/src/pages/SymptomChecker.jsx:26-31 | an empty or listed symptom changes nothing; otherwise it is appended and the input cleared; the list stays duplicate-free |
| SymptomChecker.SymptomPage.RemoveSymptom | frontend/src/pages/SymptomChecker.jsx:33-35 | every equal entry is removed |
| SymptomChecker.SymptomPage.OnTranscript | frontend/src/pages/SymptomChecker.jsx:42-46 | the list becomes the merge, keeping the old list as its prefix and staying duplicate-free |
| SymptomChecker.SymptomPage.BeginAnalyze | frontend/src/pages/SymptomChecker.jsx:54-61 | an empty list sets "Please add at least one symptom" and sends nothing; otherwise the list is sent and the page is busy |
| SymptomChecker.SymptomPage.FinishAnalyze | frontend/src/pages/SymptomChecker.jsx:63-70 | a result is shown, or the page's failure text; the page is no longer busy |
| DoctorConnect.FirstMatch | frontend/src/components/DoctorConnect.jsx:38-40 | the first map entry, at or after a position, whose keyword occurs in the text; none exactly when no later keyword occurs |
| DoctorConnect.Specialty | frontend/src/components/DoctorConnect.jsx:7-42 | always a map value or 'General Physician'; the value of the first matching keyword in map order; 'General Physician' when no keyword occurs |
| DoctorConnect.GetSpecialty | frontend/src/components/DoctorConnect.jsx:36-42 | the early-return loop over the lower-cased disease name and symptoms computes exactly that specialty |
| DoctorConnect.HeartBeforeEar | frontend/src/components/DoctorConnect.jsx:16-40 | a text with "heart" also holds the keyword "ear" yet goes to the cardiologist, because the earlier key wins |
| DoctorConnect.PractoQuery | frontend/src/components/DoctorConnect.jsx:48-52 | one item: the specialty as word, autocompleted true, category "subspeciality" |
| DoctorConnect.PractoLocation | frontend/src/components/DoctorConnect.jsx:55 | the trimmed, lower-cased city: no white space at either end and no upper-case letter |
| DoctorConnect.PractoLocationIdempotent | frontend/src/components/DoctorConnect.jsx:55 | normalising a normalised city changes nothing |
| DoctorConnect.DefaultCityLocation | frontend/src/components/DoctorConnect.jsx:33-55 | the default city is searched as "bangalore" |
| DoctorConnect.PractoUrl | frontend/src/components/DoctorConnect.jsx:54-58 | the address is the doctor search, then the encoded query for the specialist, then "&city=" with the encoded normalised city, then the doctor result type |
| DoctorConnect.PractoUrlNamesSpecialty | frontend/src/components/DoctorConnect.jsx:54-58 | with a one-to-one serialiser and encoder, two specialists searched in the same city give two different addresses |
| DoctorConnect.SameUrlSameQuery | frontend/src/components/DoctorConnect.jsx:54-58 | two addresses for the same city are equal only when their encoded queries are |
| PlantIdentifier.Selected | frontend/src/pages/PlantIdentifier.jsx:19 | the first 3 files, all of them when there are at most 3 |
| PlantIdentifier.RemovedAsWrittenDesyncs | frontend/src/pages/PlantIdentifier.jsx:46-50 | as written, removing a selected image leaves one preview too many |
| PlantIdentifier.RemovedKeepsPairs | frontend/src/pages/PlantIdentifier.jsx:46-50 | corrected: removing an image together with its preview keeps every image with its own preview |
| PlantIdentifier.FormFields | frontend/src/pages/PlantIdentifier.jsx:62-72 | one images field per image in order, the profile JSON exactly when present, then the language or 'en' |
| PlantIdentifier.WarningHeading | frontend/src/pages/PlantIdentifier.jsx:264-267 | HEALTH WARNING exactly for a warning of severity 'High', CAUTION exactly for any other warning, Safe for You exactly without one |
| PlantIdentifier.PlantPage.HandleFileSelect | frontend/src/pages/PlantIdentifier.jsx:18-26 | keeps the first 3 files, one preview per kept file at the same index, and clears the error |
| PlantIdentifier.PlantPage.RemoveImage | frontend/src/pages/PlantIdentifier.jsx:46-52 | as written: the image goes, the previews stay; the old previews and results become an entry stamped with the given time, stored first in the capped plant log and under that key only; when the plant history does not parse, the failure is returned and the storage is unchanged |
| PlantIdentifier.PlantPage.RemoveImageCorrected | frontend/src/pages/PlantIdentifier.jsx:46-50 | corrected: image and preview go together and the pairing is kept |
| PlantIdentifier.PlantPage.HandleSaveToHistory | frontend/src/pages/PlantIdentifier.jsx:89-92 | the current previews and results become an entry stamped with the given time, stored first in the capped plant log and under that key only; when the plant history does not parse, the failure is returned and the storage is unchanged |
| PlantIdentifier.PlantPage.BeginIdentify | frontend/src/pages/PlantIdentifier.jsx:56-72 | without images nothing happens; otherwise the page is busy, the error cleared, and the form built |
| PlantIdentifier.PlantPage.FinishIdentify | frontend/src/pages/PlantIdentifier.jsx:74-82 | a result is shown, or the page's failure text; the page is no longer busy |

## Left out

- The HTTP plumbing is not modelled. The completion service is a function parameter returning an answer or a failure. Express, multer's disk storage, random file names and the `fs` read/unlink clean-up are left out as I/O.
- Multer's error rendering is not modelled. A rejected upload is the `UploadRejected` outcome carrying its reason, not a rendered error page.
- Foreign library calls are parameters:
  - `JSON.parse` may fail;
  - `JSON.stringify`, `encodeURIComponent` and `URL.createObjectURL` are plain functions;
  - base64 encoding of a file is taken as already done;
  - the `/jpeg|jpg|png|webp/` test is the substring test it amounts to.
- Regular expressions are direct string searches:
  - the fence patterns become the leftmost opening plus the first closing after it;
  - the brace pattern becomes the first `{` plus the last `}` after it;
  - the transcript split becomes a left-to-right search for "," or "and".
- The fence round-trip lemmas assume a payload without backticks. The plain-fence lemma also assumes no backticks around the fence. Payloads with backticks are covered only by the general `JsonText`/`FenceMatch` contracts.
- `toLowerCase` folds ASCII letters only; no other Unicode case mapping is modelled.
- `Date.now()` and `new Date().toISOString()` are parameters of the history save. Two saves in the same millisecond sharing an id are not ruled out, since the source does not rule them out.
- `process.env.AI_MODEL` is a parameter, with an unset variable read as "".
- Non-string request fields are not modelled:
  - a `symptoms` value that is not an array (the server would throw on `join`);
  - a stored profile missing one of its list fields (the provider would throw on `includes`);
  - non-string ages;
  - stored history text that is valid JSON but not a list, such as "null" or "{}": the code returns it from `getHistory` as it is, and `saveToHistory` and `deleteHistoryItem` then throw on `unshift` and `filter`. `Slot` holds only a list, a blank value or text that does not parse.
- Floating-point display is not modelled: `confidence * 100`, rounding and the low-confidence banner.
- Browser APIs are not modelled:
  - speech recognition and synthesis;
  - PDF export;
  - `window.open`, which would receive `PractoUrl`'s address;
  - `alert`/`confirm`.
  - React rendering, batching of state updates and stale closures are not modelled either; each handler runs on the state it was given.
- The client wrapper's `history.slice(-10)` before a chat call would only bound the history length. The chat route itself accepts any length, and so does the model.
- `frontend/src/services/api.js` is not part of this model. From it only one fact is used: a failed call throws a bare string. As a result `err.message` is undefined and the pages always show their own failure text.

## Findings

| source | as written | input that shows it | evidently intended | confidence | as-written member | corrected member |
|---|---|---|---|---|---|---|
| frontend/src/utils/helpers.js:17-25 | the colour lookup reads a plain object, so inherited member names are found too and are truthy | risk level "constructor" yields the Object constructor instead of "default" | only the four own keys map; everything else gives "default" | high, not executed | Helpers.RiskColorFindsConstructor | Helpers.RiskColor |
| frontend/src/utils/helpers.js:27-35 | the icon lookup has the same inherited-member hole | risk level "__proto__" yields Object.prototype instead of the bullet | only the four own keys map; everything else gives the bullet | high, not executed | Helpers.RiskIconFindsPrototype | Helpers.RiskIcon |
| frontend/src/pages/SymptomChecker.jsx:83-90 | the page's badge knows high, medium and low, but the server asks for low, moderate, high and emergency | risk level "moderate", including the route's own fallback disease, gets the neutral badge | moderate shows warning, as in the shared colour table | medium, not executed | SymptomChecker.LocalColorMissesModerate | SymptomChecker.LocalRiskColor |
| frontend/src/pages/SymptomChecker.jsx:85 | "high" maps to 'error', which the badge component has no style for | risk level "high" | high shows the danger variant | medium, not executed | SymptomChecker.LocalColorHighUnstyled | SymptomChecker.LocalRiskColorMatchesTable |
| frontend/src/pages/SymptomChecker.jsx:92-99 | the page's icon ignores emergency | risk level "emergency" gets the neutral icon | emergency shows the red icon | medium, not executed | SymptomChecker.LocalRiskMissesEmergency | SymptomChecker.LocalRiskIcon |
| frontend/src/pages/PlantIdentifier.jsx:46-50 | removing an image computes the new previews but never stores them | select two images and remove the first: one image is left with two previews, the first of them showing the removed image | the preview goes with its image | high, not executed | PlantIdentifier.RemovedAsWrittenDesyncs | PlantIdentifier.RemovedKeepsPairs |
