/**
 * The automation client's message record as far as the relay reads it, and
 * the two projections the relay builds from it: the view the
 * `/fetch-messages` endpoint returns and the quoted-message part of the
 * webhook payload.
 */
module Messages {

  /** A message key, of which the relay reads only the inner `id`. */
  datatype MessageKey = MessageKey(id: string)

  /** A message as the automation client delivers it (timestamps in seconds). */
  datatype RawMessage = RawMessage(
    key: MessageKey,
    from: string,
    body: string,
    timestamp: int,
    hasQuotedMsg: bool)

  /** One element of the `/fetch-messages` answer: `{id, from, body, timestamp}`. */
  datatype MessageView = MessageView(id: string, from: string, body: string, timestamp: int)

  /** The quoted message inside a webhook payload: `{from, body, timestamp}`. */
  datatype QuotedView = QuotedView(from: string, body: string, timestamp: int)

  /** The projection of one fetched message. */
  function ProjectMessage(m: RawMessage): (v: MessageView)
    ensures v.id == m.key.id && v.from == m.from && v.body == m.body && v.timestamp == m.timestamp
  {
    MessageView(m.key.id, m.from, m.body, m.timestamp)
  }

  /** `messages.map(...)`: the projection applied to every fetched message, in order. */
  function FormatMessages(ms: seq<RawMessage>): (vs: seq<MessageView>)
    ensures |vs| == |ms|
  {
    if ms == [] then [] else [ProjectMessage(ms[0])] + FormatMessages(ms[1..])
  }

  /**
   * The formatted list has the length and the order of the fetched list, and
   * each element copies id, from, body and timestamp of its source message.
   */
  lemma {:induction false} FormatMessagesAt(ms: seq<RawMessage>)
    ensures |FormatMessages(ms)| == |ms|
    ensures forall k :: 0 <= k < |ms| ==>
      FormatMessages(ms)[k] == MessageView(ms[k].key.id, ms[k].from, ms[k].body, ms[k].timestamp)
  {
    if ms != [] {
      FormatMessagesAt(ms[1..]);
    }
  }

  /** Formatting distributes over concatenation, so it keeps relative order. */
  lemma {:induction false} FormatMessagesAppend(a: seq<RawMessage>, b: seq<RawMessage>)
    ensures FormatMessages(a + b) == FormatMessages(a) + FormatMessages(b)
  {
    if a == [] {
      assert a + b == b;
    } else {
      assert (a + b)[1..] == a[1..] + b;
      FormatMessagesAppend(a[1..], b);
    }
  }

  /** The quoted-message projection. */
  function QuoteOf(q: RawMessage): (v: QuotedView)
    ensures v.from == q.from && v.body == q.body && v.timestamp == q.timestamp
  {
    QuotedView(q.from, q.body, q.timestamp)
  }
}
