/**
 * The automation client's message events: the `!ping` auto-responder on
 * `message_create` and the webhook forward on `message`.
 */
module Inbound {
  import opened Wrappers
  import opened ChatIds
  import opened Messages
  import opened Effects

  const PingCommand: string := "!ping"
  const PongReply: string := "pong"
  const NodeRedUrl: string := "http://localhost:1880/whatsapp"

  /** The `message_create` handler: the calls it makes for one created message. */
  function OnMessageCreate(message: RawMessage): (effects: seq<Effect>)
    ensures message.body == PingCommand <==> effects == [ClientSend(message.from, PongReply)]
    ensures message.body != PingCommand ==> effects == []
  {
    if message.body == PingCommand then [ClientSend(message.from, PongReply)] else []
  }

  /** The auto-responder sends exactly one message iff the body is exactly `!ping`. */
  lemma PingSendsOnce(message: RawMessage)
    ensures |Sends(OnMessageCreate(message))| == (if message.body == PingCommand then 1 else 0)
  {
    if message.body == PingCommand {
      SendsOne(ClientSend(message.from, PongReply));
    }
  }

  /** Near misses get no answer. */
  lemma NearMissesIgnored(message: RawMessage)
    requires message.body in {"!ping ", "ping", "!PING", ""}
    ensures OnMessageCreate(message) == []
  {
  }

  /** The outcome of `message.getQuotedMessage()`. */
  datatype QuoteLookup =
    | QuoteFound(quoted: RawMessage)
    | QuoteMissing                  // resolves to nothing: reading `quoted.from` throws
    | QuoteFailed(error: string)    // the call rejects

  /** What the forwarded payload must be for a message and a quote lookup outcome. */
  ghost predicate PayloadFor(message: RawMessage, lookup: QuoteLookup, p: WebhookPayload)
  {
    && p.from == message.from
    && p.body == message.body
    && (p.isGroup <==> EndsWith(message.from, GroupSuffix))
    && (p.quotedMessage.None? <==> !message.hasQuotedMsg || !lookup.QuoteFound?)
    && (p.quotedMessage.Some? ==>
          p.quotedMessage.value.from == lookup.quoted.from
          && p.quotedMessage.value.body == lookup.quoted.body
          && p.quotedMessage.value.timestamp == lookup.quoted.timestamp)
  }

  /** The description leaves no freedom: at most one payload meets it. */
  lemma PayloadForUnique(message: RawMessage, lookup: QuoteLookup, p: WebhookPayload, q: WebhookPayload)
    requires PayloadFor(message, lookup, p) && PayloadFor(message, lookup, q)
    ensures p == q
  {
  }

  /**
   * Builds the webhook payload as the handler does: `quotedMessage` starts
   * as null and is filled in only when there is a quote and its lookup
   * yields a message; any failure of the lookup leaves it null.
   */
  method BuildPayload(message: RawMessage, lookup: QuoteLookup) returns (payload: WebhookPayload)
    ensures PayloadFor(message, lookup, payload)
  {
    var quotedMessage: Option<QuotedView> := None;
    if message.hasQuotedMsg {
      match lookup {
        case QuoteFound(quoted) =>
          quotedMessage := Some(QuoteOf(quoted));
        case QuoteMissing =>
        case QuoteFailed(_) =>
      }
    }
    var isGroupMessage := IsGroupMessage(message.from);
    payload := WebhookPayload(message.from, message.body, isGroupMessage, quotedMessage);
  }

  /**
   * The `message` handler: asks for the quoted message when there is one,
   * then posts exactly one payload to the workflow engine, whatever the
   * lookup gave. Nothing is sent to any chat.
   */
  method OnMessage(message: RawMessage, lookup: QuoteLookup) returns (effects: seq<Effect>)
    ensures message.hasQuotedMsg ==> |effects| == 2 && effects[0] == GetQuotedMessage(message.key)
    ensures !message.hasQuotedMsg ==> |effects| == 1
    ensures effects[|effects| - 1].PostWebhook?
    ensures effects[|effects| - 1].url == NodeRedUrl
    ensures PayloadFor(message, lookup, effects[|effects| - 1].payload)
    ensures Sends(effects) == []
  {
    var payload := BuildPayload(message, lookup);
    var post := PostWebhook(NodeRedUrl, payload);
    if message.hasQuotedMsg {
      effects := [GetQuotedMessage(message.key), post];
      SendsAppend([GetQuotedMessage(message.key)], [post]);
      SendsOne(GetQuotedMessage(message.key));
    } else {
      effects := [post];
    }
    SendsOne(post);
  }
}
