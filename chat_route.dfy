/**
 * The chat route (POST /): rejects an empty message, assembles the conversation (fixed
 * system instruction, then the client's history, then the new message) and wraps the
 * assistant's answer in the reply envelope.
 */
module ChatRoute {
  import opened Wrappers
  import opened Completion

  /**
   * A history entry as the client sends it; `reasoningDetails` is `Some` exactly when
   * the entry's `reasoning_details` is truthy.
   */
  datatype IncomingMessage = IncomingMessage(role: string, content: string, reasoningDetails: Option<string>)

  /** The body: `message` is "" when missing; `history` is `None` unless it is an array. */
  datatype ChatRequest = ChatRequest(message: string, history: Option<seq<IncomingMessage>>)

  /** The envelope sent back to the client. */
  datatype ChatReply = ChatReply(reply: string, reasoningDetails: Option<string>, suggestions: seq<string>)

  const ChatSystem := "You are a helpful health and medicinal plant assistant. You provide:\n- Information about symptoms and diseases\n- Medicinal plant knowledge\n- Herbal remedy suggestions\n- General wellness advice\n\nGuidelines:\n- Always include medical disclaimers\n- Recommend professional medical help for serious conditions\n- Be empathetic and supportive\n- Provide evidence-based information\n- Keep responses concise (2-3 paragraphs max)\n- Use simple, non-technical language\n\nNever:\n- Provide definitive diagnoses\n- Prescribe medications\n- Replace professional medical advice"

  const MessageRequired := HttpError(400, "Message is required", None, None)

  /** One history entry as forwarded: role, content and, if it had one, its reasoning trace. */
  function Forwarded(m: IncomingMessage): (r: Message)
    ensures r.role == m.role && r.content == Text(m.content)
    ensures r.reasoningDetails == m.reasoningDetails
  {
    Message(m.role, Text(m.content), m.reasoningDetails)
  }

  function HistoryOf(req: ChatRequest): seq<IncomingMessage> {
    match req.history
    case None => []
    case Some(h) => h
  }

  /**
   * The conversation the route sends: the system instruction first, every history entry
   * in its original order, and the new user message last.
   */
  ghost function Conversation(req: ChatRequest): (r: seq<Message>)
    ensures |r| == |HistoryOf(req)| + 2
    ensures r[0] == SystemText(ChatSystem)
    ensures r[|r| - 1] == UserText(req.message)
    ensures forall i :: 0 <= i < |HistoryOf(req)| ==> r[i + 1] == Forwarded(HistoryOf(req)[i])
  {
    var h := HistoryOf(req);
    [SystemText(ChatSystem)] + seq(|h|, i requires 0 <= i < |h| => Forwarded(h[i])) + [UserText(req.message)]
  }

  /** The route's loop: push the system message, each history entry in turn, then the user message. */
  method BuildMessages(req: ChatRequest) returns (messages: seq<Message>)
    ensures messages == Conversation(req)
  {
    messages := [SystemText(ChatSystem)];
    var h := HistoryOf(req);
    var i := 0;
    while i < |h|
      invariant 0 <= i <= |h|
      invariant |messages| == i + 1 && messages[0] == SystemText(ChatSystem)
      invariant forall j :: 0 <= j < i ==> messages[j + 1] == Forwarded(h[j])
    {
      messages := messages + [Forwarded(h[i])];
      i := i + 1;
    }
    messages := messages + [UserText(req.message)];
    assert messages == Conversation(req) by {
      var c := Conversation(req);
      assert |messages| == |c|;
      forall k | 0 <= k < |c| ensures messages[k] == c[k] {
        if 1 <= k <= |h| {
          assert messages[k] == Forwarded(h[k - 1]) && c[k] == Forwarded(h[k - 1]);
        }
      }
    }
  }

  /** A history that is not an array is ignored: the conversation is the system and user messages only. */
  lemma NonArrayHistoryIgnored(message: string)
    ensures Conversation(ChatRequest(message, None)) == [SystemText(ChatSystem), UserText(message)]
  {
  }

  /** Forwarding drops nothing a history entry carries: role, content and reasoning trace survive. */
  lemma HistoryRoundTrip(req: ChatRequest, i: int)
    requires 0 <= i < |HistoryOf(req)|
    ensures var m := Conversation(req)[i + 1];
      m.content.Text? && IncomingMessage(m.role, m.content.text, m.reasoningDetails) == HistoryOf(req)[i]
  {
  }

  /**
   * The whole route: 400 for an empty message before any call; otherwise the
   * conversation goes out with the configured model and reasoning on, and the answer
   * comes back with its reasoning trace and no suggestions, or the failure becomes a 500.
   */
  method HandleChat(req: ChatRequest, aiModel: string, call: CompletionRequest -> Upstream) returns (r: Result<ChatReply, HttpError>)
    ensures req.message == "" ==> r == Failure(MessageRequired)
    ensures req.message != "" ==> match call(CompletionRequest(ModelId(aiModel), Conversation(req), true))
      case Answered(content, details) => r == Success(ChatReply(content, details, []))
      case ServiceFailure(message, _) => r == Failure(HttpError(500, "Failed to process chat message", Some(message), None))
  {
    if req.message == "" {
      return Failure(MessageRequired);
    }
    var messages := BuildMessages(req);
    match call(CompletionRequest(ModelId(aiModel), messages, true))
    case Answered(content, details) =>
      r := Success(ChatReply(content, details, []));
    case ServiceFailure(message, _) =>
      r := Failure(HttpError(500, "Failed to process chat message", Some(message), None));
  }
}
