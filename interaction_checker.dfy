/**
 * The herb-drug interaction page: checks both inputs, sends a prompt through the chat
 * route with an empty history, takes the text from the first `{` to the last `}` of the
 * reply as JSON, and falls back to a fixed result carrying the raw reply.
 */
module InteractionChecker {
  import opened Wrappers
  import opened Strings
  import opened Completion
  import ChatRoute

  /** What the page shows: the parsed JSON value, or the fallback built from the raw reply. */
  datatype InteractionResult<V> =
    | Reported(value: V)
    | Fallback(interaction: bool, severity: string, mechanism: string, recommendation: string)

  const BothRequired := "Please enter both a herb/supplement and a medication"
  const CheckFailed := "Failed to check interactions. Please try again."

  const PromptLead := "Check for interactions between:\n            Herb/Supplement: "
  const PromptMid := "\n            Medication: "
  const PromptTail := "\n            \n            Provide response in JSON format:\n            {\n                \"interaction\": boolean,\n                \"severity\": \"High\" | \"Moderate\" | \"Low\" | \"None\",\n                \"mechanism\": \"Brief explanation of how they interact\",\n                \"recommendation\": \"Medical advice\"\n            }"

  function InteractionPrompt(herb: string, medication: string): string {
    PromptLead + herb + PromptMid + medication + PromptTail
  }

  /** The prompt names the herb and the medication. */
  lemma PromptNamesBoth(herb: string, medication: string)
    ensures Includes(InteractionPrompt(herb, medication), herb)
    ensures Includes(InteractionPrompt(herb, medication), medication)
  {
    IncludesSelf(herb);
    IncludesRight(PromptLead, herb, herb);
    IncludesLeft(PromptLead + herb, PromptMid, herb);
    IncludesLeft(PromptLead + herb + PromptMid, medication, herb);
    IncludesLeft(PromptLead + herb + PromptMid + medication, PromptTail, herb);
    IncludesSelf(medication);
    IncludesRight(PromptLead + herb + PromptMid, medication, medication);
    IncludesLeft(PromptLead + herb + PromptMid + medication, PromptTail, medication);
  }

  /** Sent with an empty history, the prompt reaches the model as the only message after the system instruction. */
  lemma PromptIsSoleUserMessage(herb: string, medication: string)
    ensures ChatRoute.Conversation(ChatRoute.ChatRequest(InteractionPrompt(herb, medication), Some([])))
      == [SystemText(ChatRoute.ChatSystem), UserText(InteractionPrompt(herb, medication))]
  {
  }

  /**
   * The match of the greedy pattern `\{[\s\S]*\}`: the first `{` and the last `}`,
   * when that `}` comes after that `{`.
   */
  function BraceSpan(reply: string): (r: Option<(nat, nat)>)
    ensures r.Some? ==> r.value.0 < r.value.1 < |reply| && reply[r.value.0] == '{' && reply[r.value.1] == '}'
    ensures r.Some? ==> forall k :: 0 <= k < r.value.0 ==> reply[k] != '{'
    ensures r.Some? ==> forall k :: r.value.1 < k < |reply| ==> reply[k] != '}'
    ensures r.None? ==> forall i, j :: 0 <= i < j < |reply| && reply[i] == '{' ==> reply[j] != '}'
  {
    match IndexOf(reply, "{", 0)
    case None =>
      assert forall i :: 0 <= i < |reply| ==> (reply[i] == '{' ==> OccursAt(reply, "{", i));
      None
    case Some(i) =>
      assert forall k :: 0 <= k < i ==> (reply[k] == '{' ==> OccursAt(reply, "{", k));
      assert reply[i..i + 1] == "{";
      match LastIndexOf(reply, '}')
      case None => None
      case Some(j) => if i < j then Some((i, j)) else None
  }

  /** The candidate JSON text. */
  function BraceCandidate(reply: string): (r: Option<string>)
    ensures r.Some? <==> BraceSpan(reply).Some?
    ensures r.Some? ==> |r.value| >= 2 && r.value[0] == '{' && r.value[|r.value| - 1] == '}'
  {
    match BraceSpan(reply)
    case None => None
    case Some((i, j)) => Some(reply[i..j + 1])
  }

  /** An object wrapped in brace-free text comes out whole, braces inside it included. */
  lemma BraceRoundTrip(pre: string, body: string, post: string)
    requires '{' !in pre && '}' !in post
    ensures BraceCandidate(pre + "{" + body + "}" + post) == Some("{" + body + "}")
  {
    var text := pre + "{" + body + "}" + post;
    var i := |pre|;
    var j := |pre| + 1 + |body|;
    assert text[i] == '{' && text[j] == '}';
    forall k | 0 <= k < i ensures text[k] != '{' {
      assert text[k] == pre[k];
    }
    forall k | j < k < |text| ensures text[k] != '}' {
      assert text[k] == post[k - j - 1];
    }
    assert BraceSpan(text) == Some((i, j));
    assert text[i..j + 1] == "{" + body + "}";
  }

  function FallbackFor<V>(reply: string): InteractionResult<V> {
    Fallback(true, "Unknown", reply, "Consult a doctor.")
  }

  /**
   * The reply's analysis: the parsed candidate, or — when there is no candidate or it does
   * not parse — the fallback that reports an interaction of unknown severity with the raw
   * reply as the mechanism. (A candidate starts with `{`, so whatever it parses to is an
   * object and never falsy.)
   */
  function AnalyzeInteraction<V>(reply: string, parse: string -> Option<V>): (r: InteractionResult<V>)
    ensures r.Reported? <==> BraceCandidate(reply).Some? && parse(BraceCandidate(reply).value).Some?
    ensures r.Reported? ==> r.value == parse(BraceCandidate(reply).value).value
    ensures r.Fallback? ==> r.interaction && r.severity == "Unknown" && r.mechanism == reply && r.recommendation == "Consult a doctor."
  {
    match BraceCandidate(reply)
    case None => FallbackFor(reply)
    case Some(t) =>
      match parse(t)
      case None => FallbackFor(reply)
      case Some(v) => Reported(v)
  }

  /** The badge variant for a severity: High is danger, Moderate is warning, anything else success. */
  function SeverityBadge(severity: string): (r: string)
    ensures r in {"danger", "warning", "success"}
    ensures r == "danger" <==> severity == "High"
    ensures r == "warning" <==> severity == "Moderate"
  {
    if severity == "High" then "danger" else if severity == "Moderate" then "warning" else "success"
  }

  /** The fallback, which claims an interaction, is shown with the success badge. */
  lemma FallbackShowsSuccessBadge<V>(reply: string, parse: string -> Option<V>)
    requires AnalyzeInteraction(reply, parse).Fallback?
    ensures SeverityBadge(AnalyzeInteraction(reply, parse).severity) == "success"
    ensures AnalyzeInteraction(reply, parse).interaction
  {
  }

  /** The page's state. */
  class InteractionPage<V> {
    var herb: string
    var medication: string
    var isAnalyzing: bool
    var result: Option<InteractionResult<V>>
    var error: string

    constructor ()
      ensures herb == "" && medication == "" && !isAnalyzing && result == None && error == ""
    {
      herb := "";
      medication := "";
      isAnalyzing := false;
      result := None;
      error := "";
    }

    /**
     * The synchronous part of `handleCheck`: with either field empty only the error is
     * set and nothing is sent; otherwise the page enters the analyzing state and returns
     * the chat message to send.
     */
    method BeginCheck() returns (message: Option<string>)
      modifies this
      ensures old(herb) == "" || old(medication) == "" ==>
        message == None && error == BothRequired && isAnalyzing == old(isAnalyzing) && result == old(result)
      ensures old(herb) != "" && old(medication) != "" ==>
        message == Some(InteractionPrompt(herb, medication)) && isAnalyzing && error == "" && result == None
      ensures herb == old(herb) && medication == old(medication)
    {
      if herb == "" || medication == "" {
        error := BothRequired;
        return None;
      }
      isAnalyzing := true;
      error := "";
      result := None;
      message := Some(InteractionPrompt(herb, medication));
    }

    /** The rest of `handleCheck`, once the chat request settled (`None` when it failed). */
    method FinishCheck(reply: Option<string>, parse: string -> Option<V>)
      modifies this
      ensures !isAnalyzing
      ensures reply.None? ==> error == CheckFailed && result == old(result)
      ensures reply.Some? ==> result == Some(AnalyzeInteraction(reply.value, parse)) && error == old(error)
      ensures herb == old(herb) && medication == old(medication)
    {
      match reply {
        case None =>
          error := CheckFailed;
        case Some(text) =>
          result := Some(AnalyzeInteraction(text, parse));
      }
      isAnalyzing := false;
    }
  }
}
