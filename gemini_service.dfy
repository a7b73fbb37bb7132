/**
 * The chat back-end call: the request payload sent to the chatbot webhook,
 * and how the webhook's answer, or its failure, becomes the reply text.
 */
module MonolithService {
  import opened JsValues

  const FallbackReply := "Received response from Monolith."
  const InterruptedReply := "Thinking process interrupted. Re-establishing link..."

  datatype Role = User | Model

  /** One history entry as the webhook receives it: `{ role, parts: [{ text }] }`. */
  datatype HistoryEntry = HistoryEntry(role: Role, parts: seq<string>)

  /** The JSON body posted to the webhook. */
  datatype Payload = Payload(message: string, currentUrl: string, history: seq<HistoryEntry>)

  /** The request for `text`, sent from the page at `currentUrl`: the text and the history go out unchanged. */
  function RequestPayload(text: string, history: seq<HistoryEntry>, currentUrl: string): (p: Payload)
    ensures p.message == text && p.history == history && p.currentUrl == currentUrl
  {
    Payload(text, currentUrl, history)
  }

  /** What `response.json()` yields. */
  datatype Json =
    | Null                                                                    // `null`: reading a key throws
    | Object(output: Option<string>, text: Option<string>, message: Option<string>)
    | Primitive                                                               // a string, number or boolean: every key reads as undefined
    | NotJson                                                                 // `response.json()` rejects

  /** What the `fetch` call comes back with. */
  datatype Response = NetworkFailure | Status(ok: bool, body: Json)

  /** `data.output || data.text || data.message || "Received response from Monolith."` on an object. */
  function ReplyFromObject(output: Option<string>, text: Option<string>, message: Option<string>): (r: string)
    ensures Truthy(output) ==> r == output.value
    ensures !Truthy(output) && Truthy(text) ==> r == text.value
    ensures !Truthy(output) && !Truthy(text) && Truthy(message) ==> r == message.value
    ensures !Truthy(output) && !Truthy(text) && !Truthy(message) ==> r == FallbackReply
    ensures r != ""
  {
    OrElse(output, OrElse(text, OrElse(message, FallbackReply)))
  }

  /**
   * The reply text for a response: the body's first non-empty field, the
   * fixed acknowledgement when there is none, and the interruption notice
   * whenever anything on the way fails.
   */
  function MonolithResponse(response: Response): (r: string)
    ensures r != ""
    ensures response.NetworkFailure? || (response.Status? && !response.ok) ==> r == InterruptedReply
    ensures response.Status? && response.ok && (response.body.Null? || response.body.NotJson?) ==> r == InterruptedReply
    ensures response.Status? && response.ok && response.body.Primitive? ==> r == FallbackReply
    ensures response.Status? && response.ok && response.body.Object?
            ==> r == ReplyFromObject(response.body.output, response.body.text, response.body.message)
  {
    match response
    case NetworkFailure => InterruptedReply
    case Status(ok, body) =>
      if !ok then InterruptedReply
      else match body
        case Object(output, text, message) => ReplyFromObject(output, text, message)
        case Primitive => FallbackReply
        case _ => InterruptedReply
  }

  /**
   * A reply equal to the interruption notice comes from a failure, or from
   * a body that itself carries that text.
   */
  lemma InterruptedOnlyOnFailure(response: Response)
    requires MonolithResponse(response) == InterruptedReply
    ensures response.NetworkFailure? || !response.ok || response.body.Null? || response.body.NotJson?
            || (response.body.Object?
                && Some(InterruptedReply) in {response.body.output, response.body.text, response.body.message})
  {
    assert FallbackReply != InterruptedReply by {
      assert |FallbackReply| == 32 && |InterruptedReply| == 53;
    }
  }
}
