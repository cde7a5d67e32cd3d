/**
 * The request and reply shapes of the external chat-completion service, shared by the
 * three server routes, and the two settings they share: the model identifier and the
 * answer language.
 */
module Completion {
  import opened Wrappers
  import opened Strings

  /** One part of a multi-part user message. */
  datatype Part = TextPart(text: string) | ImageUrlPart(url: string)

  datatype Content = Text(text: string) | Parts(parts: seq<Part>)

  /** A conversation message; `reasoningDetails` is an opaque trace passed through untouched. */
  datatype Message = Message(role: string, content: Content, reasoningDetails: Option<string>)

  /** The body posted to the completion service. */
  datatype CompletionRequest = CompletionRequest(model: string, messages: seq<Message>, reasoningEnabled: bool)

  /**
   * What came back from the service: the assistant message, or a failure with its
   * message and the error body the service sent ("" when there was none).
   */
  datatype Upstream = Answered(content: string, reasoningDetails: Option<string>) | ServiceFailure(message: string, responseData: string)

  /**
   * An error response: status and `error`; server failures add the failure's `message`,
   * and the plant route also adds `details`.
   */
  datatype HttpError = HttpError(status: nat, error: string, message: Option<string>, details: Option<string>)

  function UserText(text: string): Message {
    Message("user", Text(text), None)
  }

  function SystemText(text: string): Message {
    Message("system", Text(text), None)
  }

  const DefaultModel := "x-ai/grok-4.1-fast:free"

  /** `process.env.AI_MODEL || 'x-ai/grok-4.1-fast:free'`, with an unset variable read as "". */
  function ModelId(aiModel: string): (r: string)
    ensures r != ""
    ensures aiModel != "" ==> r == aiModel
    ensures aiModel == "" ==> r == DefaultModel
  {
    OrElse(aiModel, DefaultModel)
  }

  /**
   * The language named in a prompt: hi, es and fr give Hindi, Spanish and French;
   * every other code, and no code at all (read as ""), gives English.
   */
  function LanguageName(code: string): (r: string)
    ensures r in {"Hindi", "Spanish", "French", "English"}
    ensures r == "English" <==> code !in {"hi", "es", "fr"}
    ensures r == "Hindi" <==> code == "hi"
    ensures r == "Spanish" <==> code == "es"
    ensures r == "French" <==> code == "fr"
  {
    if code == "hi" then "Hindi"
    else if code == "es" then "Spanish"
    else if code == "fr" then "French"
    else "English"
  }

  /** The parenthesis of a prompt naming the answer language. */
  function AnswerLanguage(code: string): string {
    "(ensure all text is in " + LanguageName(code) + ")"
  }
}
