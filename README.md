# WhatsApp to Node-RED relay — a verified model of its decision logic

The relay (`index.js`) connects a WhatsApp Web automation client to an
Express HTTP server and to a Node-RED webhook. Almost all of it is library
calls. This project models in Dafny the decisions in its handlers and proves
their contracts:

- **Chat identifiers** (`chat_ids.dfy`). The `/send` handler normalises its
  destination. A destination that already includes `@g.us` or `@c.us` is kept.
  Any other destination gets `@c.us` appended. The inbound handler calls a sender
  a group exactly when its id *ends with* `@g.us`. The model keeps both tests
  (`includes` versus `endsWith`) and proves where they differ.
- **Inbound events** (`inbound.dfy`). The `message_create` auto-responder sends
  `pong` only for the exact body `!ping`. The `message` handler builds the webhook
  payload `{from, body, isGroup, quotedMessage}` step by step and posts it.
- **Session tracker** (`session.dfy`). This covers the two module-level variables
  `qrCodeImage` and `clientInfo`, and the `qr`, `ready` and `authenticated`
  handlers. They are modelled as a class with one method per event, plus a
  value-level transition function and a "last relevant event" reading proved
  equal to it.
- **HTTP handlers** (`http_api.dfy`). `GET /fetch-messages` and `POST /send` are
  functions. Each takes the request fields and the automation client's answers
  and returns the response together with the list of client calls made, in order.
- Supporting modules: `wrappers.dfy` (`Option` for `null`), `js_values.dfy` (JSON
  field values and JavaScript truthiness), `messages.dfy` (the message record and
  its projections) and `effects.dfy` (the recorded client calls).

The collaborators' answers are inputs of the handlers:
- the QR render callback: `RenderOutcome`;
- `client.getState()`: `StateQuery`;
- `getChatById`: `ChatLookup`;
- `fetchMessages`: `FetchOutcome`;
- `MessageMedia.fromFilePath`: `MediaOutcome`;
- `chat.sendMessage`: `SendOutcome`;
- `getQuotedMessage`: `QuoteLookup`.

Each event or request is one atomic step.

Notes on what the code does:
- `authenticated` does not clear the QR image. Only `ready` does (`Session.AuthenticatedKeepsQr`).
- The `qr` handler's log line (index.js:21) points at `/qrcode-wpp`, but `index.js` defines no route with that path. Nothing reads `qrCodeImage` over HTTP, so no such route is modelled.
- A `/fetch-messages` chat lookup that resolves to nothing is not a 404. It reaches `chat.fetchMessages` on `undefined` and is answered 500.
- A truthy `to` that is not a string makes `to.includes` throw inside the `try` block, so the answer is 500 with no lookup.

## Model

| member | source | states |
|---|---|---|
| JsValues.FalsyValues | index.js:110 | the validation `!x` rejects exactly undefined, null, false, 0 and "" |
| ChatIds.ContainsIffOccurs | index.js:117-119 | the search modelling `includes` holds iff the pattern occurs at some position (both directions) |
| ChatIds.IsGroupMessage | index.js:67 | a sender is a group iff its id ends with `@g.us`, i.e. it is some string followed by `@g.us` |
| ChatIds.ContainsAppended | index.js:122 | a string with `@c.us` appended includes `@c.us` |
| ChatIds.NormalizeChatId | index.js:115-123 | the chat id is `to` when `to` includes `@g.us` or `@c.us`, else `to + "@c.us"`; it always includes one of the two suffixes |
| ChatIds.NormalizeIdempotent | index.js:117-123 | normalising a normalised id leaves it unchanged |
| ChatIds.NormalizeExtends | index.js:117-123 | `to` is a prefix of its chat id, which is at most five characters longer |
| ChatIds.NormalizeWithoutAt | index.js:121-123 | a destination with no `@` is given the contact suffix |
| ChatIds.NormalizeBareNumber | index.js:122 | `5511999999999` becomes `5511999999999@c.us` |
| ChatIds.EndsWithContains | index.js:67 | an id ending in a suffix also includes it |
| ChatIds.GroupIdKeptByNormalize | index.js:117-118 | every id that the inbound test calls a group is kept unchanged by normalisation |
| ChatIds.IncludesIsNotEndsWith | index.js:67 | `120363@g.us.x` includes `@g.us`, so it is kept as a destination, yet it is not a group sender |
| Messages.ProjectMessage | index.js:94-99 | the view of one fetched message holds its `id.id`, `from`, `body` and `timestamp` |
| Messages.FormatMessages | index.js:94-99 | `messages.map(...)`: one view per fetched message, so the answer has the fetched list's length |
| Messages.QuoteOf | index.js:57-61 | the quoted object holds the quoted message's `from`, `body` and `timestamp` |
| Messages.FormatMessagesAt | index.js:94-99 | the projection keeps the length and order, and element k holds message k's `id.id`, `from`, `body` and `timestamp` |
| Messages.FormatMessagesAppend | index.js:94-99 | the projection distributes over concatenation |
| Inbound.OnMessageCreate | index.js:32-36 | the handler's calls are exactly one `pong` to `message.from` iff the body is `!ping`, otherwise none |
| Inbound.PingSendsOnce | index.js:32-36 | the number of messages sent is 1 iff the body is `!ping`, else 0 |
| Inbound.NearMissesIgnored | index.js:33 | `!ping `, `ping`, `!PING` and the empty body get no reply |
| Inbound.PayloadForUnique | index.js:52-73 | the payload description determines the payload, so it fixes every field |
| Inbound.BuildPayload | index.js:52-73 | `from` and `body` are copied; `isGroup` holds iff `from` ends with `@g.us`; `quotedMessage` is null iff there is no quote or its lookup fails or yields nothing, and otherwise copies the quoted `from`, `body` and `timestamp` |
| Inbound.OnMessage | index.js:49-79 | the quoted message is asked for only when there is one; then exactly one payload is posted to the Node-RED URL; no chat message is sent |
| Session.Record | index.js:41 | `clientInfo = await client.getState()`: an answered query assigns its state; a rejected one keeps the previous value |
| Session.Step | index.js:20-47 | one event: `qr` sets the image to the URL or null and keeps `clientInfo`; `ready` clears the image; `authenticated` keeps the image; both of these record the state query |
| Session.QrStoresRender | index.js:20-30 | after `qr`, the image is the rendered URL, or null if rendering failed; `clientInfo` is unchanged |
| Session.ReadyClearsQr | index.js:38-42 | after `ready`, the image is null, even when the state query rejects; an answered query sets `clientInfo` |
| Session.AuthenticatedKeepsQr | index.js:44-47 | `authenticated` keeps the image and only overwrites `clientInfo`; a rejected query changes nothing |
| Session.RunSnoc | index.js:17-47 | one more event is one more step of the tracker |
| Session.RunMatchesLastEvent | index.js:17-47 | after any history, the image is set by the last `qr` or `ready` and `clientInfo` is the last answered state (or the initial values) |
| Session.QrAfterNoQr | index.js:38-47 | in the last-event reading, events without `qr` after a `ready` leave the image null |
| Session.NoQrAfterReady | index.js:38-47 | after `ready`, the image stays null until the next `qr` event |
| Session.SessionTracker.constructor | index.js:17-18 | both variables start as null |
| Session.SessionTracker.OnQr | index.js:20-30 | stores the URL or null and leaves `clientInfo` alone; the new state is the transition function's |
| Session.SessionTracker.OnReady | index.js:38-42 | clears the image, then records the answered state |
| Session.SessionTracker.OnAuthenticated | index.js:44-47 | keeps the image and records the answered state |
| Session.SessionTracker.Dispatch | index.js:20-47 | each event takes the tracker through the transition function |
| HttpApi.FetchMessagesHandler | index.js:83-105 | 400 with an `error` body and no call iff `number` is falsy; 200 iff the chat is found and fetched; every failure is 500 with `success:false`; the first call is the lookup of `number`; nothing is sent |
| HttpApi.FetchMessagesSuccess | index.js:90-101 | on success, the calls are the lookup and a fetch with limit 10, and the answer lists one view per fetched message, in order, with copied fields |
| HttpApi.FetchMessagesBounded | index.js:92 | when the chat returns at most the limit, the answer has at most 10 messages |
| HttpApi.FetchMessagesUpstreamError | index.js:102-104 | a failed lookup or fetch is answered 500 with its own error message |
| HttpApi.SendHandler | index.js:107-143 | 400 with no call iff `to` or `message` is falsy; 404 `Chat não encontrado.` iff the lookup yields nothing; 200 with the success message iff a send is attempted and delivered; a rejected lookup, an unreadable media file or a rejected send is answered 500 with that error's own message; the first call looks up the normalised id; the sends are exactly the expected media-with-caption or text send when one is attempted, and none otherwise |
| HttpApi.Delivery | index.js:133-141 | after the send call, the answer is 200 with the success message when the send resolved, and 500 with the send's own error message when it rejected |
| HttpApi.SendUpstreamError | index.js:125-141 | for a string `to`, a rejected lookup, an unreadable media file or a rejected send is answered 500 with that error's message |
| HttpApi.SendAtMostOnce | index.js:131-136 | a request sends exactly one message when a send is attempted and none otherwise |
| HttpApi.SendInvalidTouchesNothing | index.js:110-112 | an invalid request is answered 400 with the required-parameters error and makes no call |
| HttpApi.SendNonStringDestination | index.js:114-142 | a truthy non-string `to` is answered 500 with the engine's TypeError message and makes no call |
| HttpApi.SendBareNumberLooksUpContact | index.js:121-125 | `to = 5511999999999` is looked up as `5511999999999@c.us` |
| HttpApi.SendGroupLooksUpUnchanged | index.js:117-125 | a `to` that includes `@g.us` is looked up unchanged |

## Left out

- The automation client itself is not modelled: `Client`, `LocalAuth`, the puppeteer session and `client.initialize()`. Its answers are handler inputs.
- Express, body-parser and `app.listen` are not modelled. Handlers are functions from request fields to a response.
- `QRCode.toDataURL` is not modelled. Its callback outcome is the opaque input `RenderOutcome`, and the raw pairing string is not used.
- The webhook POST is not delivered or logged. It is recorded as one `PostWebhook` call with its payload. The post is fire-and-forget, so its outcome affects nothing.
- `MessageMedia.fromFilePath` does no file reading. Its outcome is an input: loaded, or thrown before any send.
- `console.log` and `console.error` are logging only and are not modelled.
- Async interleaving and `await` ordering across handlers are not modelled. For example, a `qr` render callback that lands after `ready` is not covered. Each event or request is one atomic step.
- JSON numbers are integers, and JSON arrays are not modelled as request values.
  - A `to` array has an `includes` method and would be stringified.
  - An `Object` value stands for non-array objects only.
- Engine-specific error texts are fixed constants: V8's wording for calling `to.includes` on a non-string, and for reading `fetchMessages` of an undefined chat.
- The response to the `null` variant of a missing chat in `/fetch-messages` is not modelled separately. It differs only in that error text.
- Exceptions that escape a handler are left out. An example is a rejected `client.getState()`: it becomes an unhandled rejection, and the model only records that nothing is assigned. Node 15 and later end the process on an unhandled rejection by default. So a history in `Session.Run` or `Session.RunMatchesLastEvent` that goes on after a `QueryFailed` describes a relay that would normally have stopped. The same holds for a rejection of the `pong` send, which is not awaited.
- Thrown values: `FailureBody` assumes every rejection is an `Error` with a string `message`. If a thrown value is not an `Error`, `error.message` is `undefined` and the JSON body has no `error` key.
- Falsy chat answers: for `ChatMissing`, only a lookup that resolves to `undefined` or `null` is modelled. Other falsy answers are not modelled: `false`, `0` or `""`. For `/send` they would also give the 404. For `/fetch-messages` they would give a 500 with a different engine message ("chat.fetchMessages is not a function").
