/**
 * The two HTTP handlers, `GET /fetch-messages` and `POST /send`, as
 * functions from the request fields and the automation client's answers to
 * the response and the calls made on the way.
 */
module HttpApi {
  import opened Wrappers
  import opened JsValues
  import opened ChatIds
  import opened Messages
  import opened Effects

  /** What `client.getChatById(id)` gives. */
  datatype ChatLookup =
    | ChatFound(chatId: string)
    | ChatMissing                 // resolves to undefined or null
    | LookupFailed(error: string) // rejects

  /** What `chat.fetchMessages({limit})` gives. */
  datatype FetchOutcome = Fetched(messages: seq<RawMessage>) | FetchFailed(error: string)

  /** What `MessageMedia.fromFilePath(path)` gives: a media object, or a throw. */
  datatype MediaOutcome = MediaLoaded | MediaUnreadable(error: string)

  /** What `chat.sendMessage(...)` gives. */
  datatype SendOutcome = Delivered | SendFailed(error: string)

  /** The JSON bodies the handlers answer with. */
  datatype ResponseBody =
    | ErrorBody(error: string)                     // {error}
    | FailureBody(error: string)                   // {success: false, error}
    | SentBody(message: string)                    // {success: true, message}
    | MessagesBody(messages: seq<MessageView>)     // {success: true, messages}

  datatype Response = Response(status: nat, body: ResponseBody)

  /** A handled request: the response and the collaborator calls, in order. */
  datatype Exchange = Exchange(response: Response, effects: seq<Effect>)

  const SendParamsRequired: string := "Parâmetros \"to\" e \"message\" são obrigatórios."
  const NumberRequired: string := "O parâmetro \"number\" é obrigatório."
  const ChatNotFound: string := "Chat não encontrado."
  const SentOk: string := "Mensagem enviada com sucesso!"
  const FetchLimit: nat := 10
  /** The engine's message when `to` is a truthy non-string and `to.includes` is called. */
  const IncludesNotAFunction: string := "to.includes is not a function"
  /** The engine's message when the chat lookup resolved to nothing and `chat.fetchMessages` is read. */
  const FetchOnMissingChat: string := "Cannot read properties of undefined (reading 'fetchMessages')"

  /** The `success` flag of a body; the 400 bodies have none. */
  function SuccessFlag(b: ResponseBody): (flag: Option<bool>)
  {
    match b
    case ErrorBody(_) => None
    case FailureBody(_) => Some(false)
    case SentBody(_) => Some(true)
    case MessagesBody(_) => Some(true)
  }

  function Fail500(error: string, effects: seq<Effect>): (x: Exchange)
  {
    Exchange(Response(500, FailureBody(error)), effects)
  }

  // ---------------------------------------------------------------- /fetch-messages

  /** `GET /fetch-messages?number=...` */
  function FetchMessagesHandler(number: JsValue, lookup: ChatLookup, fetch: FetchOutcome): (x: Exchange)
    ensures x.response.status == 400 <==> !Truthy(number)
    ensures x.response.status == 400 ==> x.response.body == ErrorBody(NumberRequired) && x.effects == []
    ensures x.response.status in {200, 400, 500}
    ensures x.response.status == 200 <==> Truthy(number) && lookup.ChatFound? && fetch.Fetched?
    ensures x.response.status == 500 ==> SuccessFlag(x.response.body) == Some(false)
    ensures Truthy(number) ==> |x.effects| > 0 && x.effects[0] == GetChat(number)
    ensures Sends(x.effects) == []
  {
    if !Truthy(number) then
      Exchange(Response(400, ErrorBody(NumberRequired)), [])
    else
      var get := GetChat(number);
      SendsOne(get);
      match lookup
      case LookupFailed(e) => Fail500(e, [get])
      case ChatMissing => Fail500(FetchOnMissingChat, [get])
      case ChatFound(c) =>
        var effects := [get, FetchMessages(c, FetchLimit)];
        SendsAppend([get], [FetchMessages(c, FetchLimit)]);
        SendsOne(FetchMessages(c, FetchLimit));
        match fetch
        case FetchFailed(e) => Fail500(e, effects)
        case Fetched(ms) => Exchange(Response(200, MessagesBody(FormatMessages(ms))), effects)
  }

  /**
   * On success the answer lists the fetched messages in their order, one view
   * per message with its id, sender, body and timestamp, after asking the
   * found chat for at most ten.
   */
  lemma FetchMessagesSuccess(number: JsValue, c: string, ms: seq<RawMessage>)
    requires Truthy(number)
    ensures var x := FetchMessagesHandler(number, ChatFound(c), Fetched(ms));
      && x.effects == [GetChat(number), FetchMessages(c, FetchLimit)]
      && x.response.body.MessagesBody?
      && |x.response.body.messages| == |ms|
      && (forall k :: 0 <= k < |ms| ==>
            x.response.body.messages[k] == MessageView(ms[k].key.id, ms[k].from, ms[k].body, ms[k].timestamp))
  {
    FormatMessagesAt(ms);
  }

  /** When the chat honours the limit, so does the answer. */
  lemma FetchMessagesBounded(number: JsValue, c: string, ms: seq<RawMessage>)
    requires Truthy(number) && |ms| <= FetchLimit
    ensures |FetchMessagesHandler(number, ChatFound(c), Fetched(ms)).response.body.messages| <= 10
  {
    FormatMessagesAt(ms);
  }

  /** Upstream failures pass their message through. */
  lemma FetchMessagesUpstreamError(number: JsValue, lookup: ChatLookup, fetch: FetchOutcome)
    requires Truthy(number)
    ensures lookup.LookupFailed? ==>
      FetchMessagesHandler(number, lookup, fetch).response == Response(500, FailureBody(lookup.error))
    ensures lookup.ChatFound? && fetch.FetchFailed? ==>
      FetchMessagesHandler(number, lookup, fetch).response == Response(500, FailureBody(fetch.error))
  {
  }

  // ---------------------------------------------------------------- /send

  /** The request passes validation: both `to` and `message` are truthy. */
  predicate SendFieldsPresent(to: JsValue, message: JsValue)
  {
    Truthy(to) && Truthy(message)
  }

  /** A send is attempted: the request is valid, `to` is a string, the chat is found and the media (if any) loads. */
  predicate SendAttempted(to: JsValue, message: JsValue, imagePath: JsValue, lookup: ChatLookup, media: MediaOutcome)
  {
    SendFieldsPresent(to, message) && to.Str? && lookup.ChatFound?
    && (Truthy(imagePath) ==> media.MediaLoaded?)
  }

  /** The one message sent to the found chat: media with the message as caption, or the message as text. */
  function ExpectedSend(c: string, message: JsValue, imagePath: JsValue): (e: Effect)
  {
    if Truthy(imagePath) then SendMedia(c, imagePath, message) else SendText(c, message)
  }

  /** `POST /send` with body `{to, message, imagePath}`. */
  function SendHandler(to: JsValue, message: JsValue, imagePath: JsValue,
                       lookup: ChatLookup, media: MediaOutcome, send: SendOutcome): (x: Exchange)
    ensures x.response.status == 400 <==> !SendFieldsPresent(to, message)
    ensures x.response.status == 400 ==> x.response.body == ErrorBody(SendParamsRequired) && x.effects == []
    ensures x.response.status in {200, 400, 404, 500}
    ensures x.response.status == 404 <==> SendFieldsPresent(to, message) && to.Str? && lookup.ChatMissing?
    ensures x.response.status == 404 ==> x.response.body == FailureBody(ChatNotFound)
    ensures x.response.status == 200 <==> SendAttempted(to, message, imagePath, lookup, media) && send.Delivered?
    ensures x.response.status == 200 ==> x.response.body == SentBody(SentOk)
    ensures x.response.status == 500 ==> SuccessFlag(x.response.body) == Some(false)
    ensures SendFieldsPresent(to, message) && to.Str? && lookup.LookupFailed? ==>
      x.response == Response(500, FailureBody(lookup.error))
    ensures SendFieldsPresent(to, message) && to.Str? && lookup.ChatFound? && Truthy(imagePath)
            && media.MediaUnreadable? ==>
      x.response == Response(500, FailureBody(media.error))
    ensures SendAttempted(to, message, imagePath, lookup, media) && send.SendFailed? ==>
      x.response == Response(500, FailureBody(send.error))
    ensures SendFieldsPresent(to, message) && to.Str? ==>
      |x.effects| > 0 && x.effects[0] == GetChat(Str(NormalizeChatId(to.s)))
    ensures Sends(x.effects) ==
      if SendAttempted(to, message, imagePath, lookup, media)
      then [ExpectedSend(lookup.chatId, message, imagePath)] else []
  {
    if !Truthy(to) || !Truthy(message) then
      Exchange(Response(400, ErrorBody(SendParamsRequired)), [])
    else if !to.Str? then
      Fail500(IncludesNotAFunction, [])
    else
      var chatId := NormalizeChatId(to.s);
      var get := GetChat(Str(chatId));
      SendsOne(get);
      match lookup
      case LookupFailed(e) => Fail500(e, [get])
      case ChatMissing => Exchange(Response(404, FailureBody(ChatNotFound)), [get])
      case ChatFound(c) =>
        if Truthy(imagePath) then
          var load := LoadMedia(imagePath);
          SendsAppend([get], [load]);
          SendsOne(load);
          match media
          case MediaUnreadable(e) => Fail500(e, [get, load])
          case MediaLoaded =>
            var out := SendMedia(c, imagePath, message);
            SendsAppend([get, load], [out]);
            SendsOne(out);
            Delivery(send, [get, load, out])
        else
          var out := SendText(c, message);
          SendsAppend([get], [out]);
          SendsOne(out);
          Delivery(send, [get, out])
  }

  /** The response once the send call has been made. */
  function Delivery(send: SendOutcome, effects: seq<Effect>): (x: Exchange)
    ensures x.effects == effects
    ensures send.Delivered? ==> x.response == Response(200, SentBody(SentOk))
    ensures send.SendFailed? ==> x.response == Response(500, FailureBody(send.error))
  {
    match send
    case Delivered => Exchange(Response(200, SentBody(SentOk)), effects)
    case SendFailed(e) => Fail500(e, effects)
  }

  /**
   * Every upstream failure on the way to the send (a rejected lookup, an
   * unreadable media file, a rejected send) is answered 500 with its own message.
   */
  lemma SendUpstreamError(to: string, message: JsValue, imagePath: JsValue,
                          lookup: ChatLookup, media: MediaOutcome, send: SendOutcome)
    requires Truthy(Str(to)) && Truthy(message)
    ensures lookup.LookupFailed? ==>
      SendHandler(Str(to), message, imagePath, lookup, media, send).response
        == Response(500, FailureBody(lookup.error))
    ensures lookup.ChatFound? && Truthy(imagePath) && media.MediaUnreadable? ==>
      SendHandler(Str(to), message, imagePath, lookup, media, send).response
        == Response(500, FailureBody(media.error))
    ensures SendAttempted(Str(to), message, imagePath, lookup, media) && send.SendFailed? ==>
      SendHandler(Str(to), message, imagePath, lookup, media, send).response
        == Response(500, FailureBody(send.error))
  {
  }

  /** At most one message goes out per request, and exactly one when a send is attempted. */
  lemma SendAtMostOnce(to: JsValue, message: JsValue, imagePath: JsValue,
                       lookup: ChatLookup, media: MediaOutcome, send: SendOutcome)
    ensures |Sends(SendHandler(to, message, imagePath, lookup, media, send).effects)|
         == if SendAttempted(to, message, imagePath, lookup, media) then 1 else 0
  {
  }

  /**
   * A request that fails validation is answered 400 without any call on the
   * client: no chat lookup and no send.
   */
  lemma SendInvalidTouchesNothing(to: JsValue, message: JsValue, imagePath: JsValue,
                                  lookup: ChatLookup, media: MediaOutcome, send: SendOutcome)
    requires !Truthy(to) || !Truthy(message)
    ensures SendHandler(to, message, imagePath, lookup, media, send)
         == Exchange(Response(400, ErrorBody(SendParamsRequired)), [])
  {
  }

  /** Any truthy `to` that is not a string makes `to.includes` throw: 500 before any lookup. */
  lemma SendNonStringDestination(to: JsValue, message: JsValue, imagePath: JsValue,
                                 lookup: ChatLookup, media: MediaOutcome, send: SendOutcome)
    requires Truthy(to) && Truthy(message) && !to.Str?
    ensures SendHandler(to, message, imagePath, lookup, media, send)
         == Exchange(Response(500, FailureBody(IncludesNotAFunction)), [])
  {
  }

  /** A bare number is looked up with the contact suffix appended. */
  lemma SendBareNumberLooksUpContact(to: string, message: JsValue, imagePath: JsValue,
                                     lookup: ChatLookup, media: MediaOutcome, send: SendOutcome)
    requires to == "5511999999999" && Truthy(message)
    ensures SendHandler(Str(to), message, imagePath, lookup, media, send).effects[0]
         == GetChat(Str("5511999999999@c.us"))
  {
    NormalizeBareNumber(to);
  }

  /** A destination carrying a group suffix is looked up unchanged. */
  lemma SendGroupLooksUpUnchanged(to: string, message: JsValue, imagePath: JsValue,
                                  lookup: ChatLookup, media: MediaOutcome, send: SendOutcome)
    requires Contains(to, GroupSuffix) && Truthy(message)
    ensures SendHandler(Str(to), message, imagePath, lookup, media, send).effects[0] == GetChat(Str(to))
  {
  }
}
