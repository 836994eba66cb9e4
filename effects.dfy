/**
 * The calls the relay makes on its collaborators, recorded in the order the
 * handlers make them. The collaborators' answers are inputs of the handlers;
 * these records are what a handler asked for.
 */
module Effects {
  import opened Wrappers
  import opened JsValues
  import opened Messages

  /** The body posted to the workflow engine: `{from, body, isGroup, quotedMessage}`. */
  datatype WebhookPayload = WebhookPayload(
    from: string,
    body: string,
    isGroup: bool,
    quotedMessage: Option<QuotedView>)

  datatype Effect =
    | ClientSend(to: string, text: string)                     // client.sendMessage(to, text)
    | GetQuotedMessage(of: MessageKey)                         // message.getQuotedMessage()
    | PostWebhook(url: string, payload: WebhookPayload)        // axios.post(url, payload)
    | GetChat(id: JsValue)                                     // client.getChatById(id)
    | FetchMessages(chatId: string, limit: nat)                // chat.fetchMessages({limit})
    | LoadMedia(path: JsValue)                                 // MessageMedia.fromFilePath(path)
    | SendText(chatId: string, content: JsValue)               // chat.sendMessage(content)
    | SendMedia(chatId: string, path: JsValue, caption: JsValue) // chat.sendMessage(media, {caption})

  /** A message actually sent to a chat, by whichever call. */
  predicate IsSend(e: Effect)
  {
    e.ClientSend? || e.SendText? || e.SendMedia?
  }

  /** The sends among the effects, in order. */
  function Sends(es: seq<Effect>): (r: seq<Effect>)
  {
    if es == [] then []
    else if IsSend(es[0]) then [es[0]] + Sends(es[1..])
    else Sends(es[1..])
  }

  /** Collecting the sends distributes over concatenation. */
  lemma {:induction false} SendsAppend(a: seq<Effect>, b: seq<Effect>)
    ensures Sends(a + b) == Sends(a) + Sends(b)
  {
    if a == [] {
      assert a + b == b;
    } else {
      assert (a + b)[1..] == a[1..] + b;
      SendsAppend(a[1..], b);
    }
  }

  /** Exactly the sends are kept, and nothing else. */
  lemma {:induction false} SendsSound(es: seq<Effect>)
    ensures forall e :: e in Sends(es) <==> e in es && IsSend(e)
  {
    if es != [] {
      SendsSound(es[1..]);
      assert es == [es[0]] + es[1..];
    }
  }

  /** A single effect contributes itself when it is a send, nothing otherwise. */
  lemma SendsOne(e: Effect)
    ensures Sends([e]) == if IsSend(e) then [e] else []
  {
    assert [e][1..] == [];
  }
}
