/**
 * The chat panel on the card's back: the message log, the input box and
 * the loading flag, the submit guard, the history sent with each question,
 * and the reply (or failure notice) appended when the call settles.
 */
module MonolithChat {
  import opened JsValues
  import opened MonolithService

  /** `init` for the greeting; otherwise the millisecond clock reading the id was made from. */
  datatype MessageId = Init | Stamp(ms: int)

  datatype Message = Message(id: MessageId, role: Role, text: string)

  const Greeting := Message(Init, Model, "Monolith AI online.")
  const ConnectionUnstable := "Connection unstable."

  /** The history sent with a question: one entry per message, in order, role and text kept. */
  function History(log: seq<Message>): (h: seq<HistoryEntry>)
    ensures |h| == |log|
  {
    if log == [] then [] else [HistoryEntry(log[0].role, [log[0].text])] + History(log[1..])
  }

  /** History is taken message by message, so it distributes over a log split in two. */
  lemma {:induction false} HistoryAppend(a: seq<Message>, b: seq<Message>)
    ensures History(a + b) == History(a) + History(b)
  {
    if a == [] {
      assert a + b == b;
    } else {
      assert (a + b)[1..] == a[1..] + b;
      HistoryAppend(a[1..], b);
    }
  }

  /** Entry `i` of the history is message `i`'s role and text. */
  lemma {:induction false} HistoryEntryAt(log: seq<Message>, i: nat)
    requires i < |log|
    ensures History(log)[i] == HistoryEntry(log[i].role, [log[i].text])
  {
    if i > 0 {
      HistoryEntryAt(log[1..], i - 1);
    }
  }

  /** The submit guard: blank (white-space only) input, or a question already in flight. */
  predicate SubmitIgnored(input: string, loading: bool) {
    TrimsToEmpty(input) || loading
  }

  class ChatPanel {
    var input: string
    var messages: seq<Message>
    var loading: bool

    /** A fresh panel: empty input, the greeting alone in the log, not loading. */
    constructor ()
      ensures input == "" && messages == [Greeting] && !loading
    {
      input, messages, loading := "", [Greeting], false;
    }

    /** The send button is disabled exactly while loading. */
    function SendDisabled(): (disabled: bool)
      reads this
      ensures disabled <==> loading
    {
      loading
    }

    /** Typing into the box. */
    method SetInput(value: string)
      modifies this
      ensures input == value && messages == old(messages) && loading == old(loading)
    {
      input := value;
    }

    /**
     * Submit at clock `now` from the page at `currentUrl`: unless the guard
     * holds, log the question as typed, clear the box, start loading, and
     * return the request that goes out.
     */
    method HandleSubmit(now: int, currentUrl: string) returns (request: Option<Payload>)
      modifies this
      ensures SubmitIgnored(old(input), old(loading)) ==>
        request == None && input == old(input) && messages == old(messages) && loading == old(loading)
      ensures !SubmitIgnored(old(input), old(loading)) ==>
        && messages == old(messages) + [Message(Stamp(now), User, old(input))]
        && input == "" && loading
        && request == Some(RequestPayload(old(input), History(old(messages)), currentUrl))
    {
      if TrimsToEmpty(input) || loading {
        return None;
      }
      var userMsg := Message(Stamp(now), User, input);
      var history := History(messages);
      messages := messages + [userMsg];
      input := "";
      loading := true;
      request := Some(RequestPayload(userMsg.text, history, currentUrl));
    }

    /**
     * The call has settled at clock `now`: append the reply, or the
     * connection notice when the call threw, and stop loading.
     */
    method ReceiveReply(reply: Option<string>, now: int)
      modifies this
      ensures messages == old(messages) + [Message(Stamp(now + 1), Model, if reply.Some? then reply.value else ConnectionUnstable)]
      ensures !loading && input == old(input)
    {
      var text := if reply.Some? then reply.value else ConnectionUnstable;
      messages := messages + [Message(Stamp(now + 1), Model, text)];
      loading := false;
    }
  }

  /**
   * The history sent with the question after `log` covers every earlier
   * message, and the next question's history extends it by the question and
   * its reply.
   */
  lemma HistoryGrowsWithLog(log: seq<Message>, question: Message, reply: Message)
    ensures History(log + [question, reply]) == History(log) + [HistoryEntry(question.role, [question.text]), HistoryEntry(reply.role, [reply.text])]
  {
    HistoryAppend(log, [question, reply]);
    HistoryEntryAt([question, reply], 0);
    HistoryEntryAt([question, reply], 1);
  }
}
