/**
 * The session-state tracker: the two module-level variables `qrCodeImage`
 * and `clientInfo` and the `qr`, `ready` and `authenticated` handlers that
 * overwrite them.
 */
module Session {
  import opened Wrappers

  /** The callback outcome of rendering a pairing payload to a data URL. */
  datatype RenderOutcome = Rendered(url: string) | RenderFailed(error: string)

  /** The outcome of `client.getState()`: a state name, null, or a rejection. */
  datatype StateQuery = Answered(state: Option<string>) | QueryFailed(error: string)

  datatype SessionEvent =
    | Qr(render: RenderOutcome)
    | Ready(query: StateQuery)
    | Authenticated(query: StateQuery)

  /** The two variables; `None` stands for `null`. */
  datatype SessionState = SessionState(qrCodeImage: Option<string>, clientInfo: Option<string>)

  /** Both variables start as null. */
  const Initial: SessionState := SessionState(None, None)

  /** `clientInfo = await client.getState()`: a rejected query assigns nothing. */
  function Record(prev: Option<string>, query: StateQuery): (info: Option<string>)
    ensures query.Answered? ==> info == query.state
    ensures query.QueryFailed? ==> info == prev
  {
    match query
    case Answered(s) => s
    case QueryFailed(_) => prev
  }

  /** One event, as one atomic step. */
  function Step(s: SessionState, e: SessionEvent): (t: SessionState)
    ensures e.Qr? ==> t.qrCodeImage == (if e.render.Rendered? then Some(e.render.url) else None)
    ensures e.Qr? ==> t.clientInfo == s.clientInfo
    ensures e.Ready? ==> t.qrCodeImage == None
    ensures e.Authenticated? ==> t.qrCodeImage == s.qrCodeImage
    ensures !e.Qr? ==> t.clientInfo == Record(s.clientInfo, e.query)
  {
    match e
    case Qr(Rendered(url)) => s.(qrCodeImage := Some(url))
    case Qr(RenderFailed(_)) => s.(qrCodeImage := None)
    case Ready(q) => SessionState(None, Record(s.clientInfo, q))
    case Authenticated(q) => s.(clientInfo := Record(s.clientInfo, q))
  }

  /** A successful render stores the URL, a failed one stores null; `clientInfo` is untouched. */
  lemma QrStoresRender(s: SessionState, r: RenderOutcome)
    ensures Step(s, Qr(r)).qrCodeImage == (if r.Rendered? then Some(r.url) else None)
    ensures Step(s, Qr(r)).clientInfo == s.clientInfo
  {
  }

  /** `ready` always clears the QR image, even when the state query rejects. */
  lemma ReadyClearsQr(s: SessionState, q: StateQuery)
    ensures Step(s, Ready(q)).qrCodeImage == None
    ensures q.Answered? ==> Step(s, Ready(q)).clientInfo == q.state
  {
  }

  /** `authenticated` keeps the QR image and only overwrites `clientInfo`. */
  lemma AuthenticatedKeepsQr(s: SessionState, q: StateQuery)
    ensures Step(s, Authenticated(q)).qrCodeImage == s.qrCodeImage
    ensures q.Answered? ==> Step(s, Authenticated(q)).clientInfo == q.state
    ensures q.QueryFailed? ==> Step(s, Authenticated(q)) == s
  {
  }

  /** A sequence of events, applied in order. */
  function Run(s: SessionState, es: seq<SessionEvent>): (t: SessionState)
    decreases |es|
  {
    if es == [] then s else Run(Step(s, es[0]), es[1..])
  }

  /** Running a sequence with one more event takes one more step. */
  lemma {:induction false} RunSnoc(s: SessionState, es: seq<SessionEvent>, e: SessionEvent)
    ensures Run(s, es + [e]) == Step(Run(s, es), e)
    decreases |es|
  {
    if es == [] {
      assert es + [e] == [e];
      assert [e][1..] == [];
    } else {
      assert (es + [e])[1..] == es[1..] + [e];
      RunSnoc(Step(s, es[0]), es[1..], e);
    }
  }

  /**
   * Independent reading of the QR image: it is set by the last `qr` or
   * `ready` event in the history, or is the initial one if there is none.
   */
  function QrAfter(initial: Option<string>, es: seq<SessionEvent>): (qr: Option<string>)
  {
    if es == [] then initial
    else
      match es[|es| - 1]
      case Qr(Rendered(url)) => Some(url)
      case Qr(RenderFailed(_)) => None
      case Ready(_) => None
      case Authenticated(_) => QrAfter(initial, es[..|es| - 1])
  }

  /** Independent reading of `clientInfo`: the last answered state query, if any. */
  function ClientInfoAfter(initial: Option<string>, es: seq<SessionEvent>): (info: Option<string>)
  {
    if es == [] then initial
    else
      match es[|es| - 1]
      case Qr(_) => ClientInfoAfter(initial, es[..|es| - 1])
      case Ready(Answered(st)) => st
      case Authenticated(Answered(st)) => st
      case Ready(QueryFailed(_)) => ClientInfoAfter(initial, es[..|es| - 1])
      case Authenticated(QueryFailed(_)) => ClientInfoAfter(initial, es[..|es| - 1])
  }

  /** The step-by-step tracker agrees with the "last relevant event" readings. */
  lemma {:induction false} RunMatchesLastEvent(s: SessionState, es: seq<SessionEvent>)
    ensures Run(s, es).qrCodeImage == QrAfter(s.qrCodeImage, es)
    ensures Run(s, es).clientInfo == ClientInfoAfter(s.clientInfo, es)
    decreases |es|
  {
    if es != [] {
      var front, last := es[..|es| - 1], es[|es| - 1];
      assert es == front + [last];
      RunMatchesLastEvent(s, front);
      RunSnoc(s, front, last);
    }
  }

  /** After a `ready`, the QR image stays null until the next `qr` event. */
  lemma {:induction false} NoQrAfterReady(s: SessionState, q: StateQuery, later: seq<SessionEvent>)
    requires forall k :: 0 <= k < |later| ==> !later[k].Qr?
    ensures Run(s, [Ready(q)] + later).qrCodeImage == None
    decreases |later|
  {
    RunMatchesLastEvent(s, [Ready(q)] + later);
    QrAfterNoQr(s.qrCodeImage, [Ready(q)], later);
  }

  /** Events without `qr` after a history ending in a `ready` leave the QR image null. */
  lemma {:induction false} QrAfterNoQr(initial: Option<string>, es: seq<SessionEvent>, later: seq<SessionEvent>)
    requires es != [] && es[|es| - 1].Ready?
    requires forall k :: 0 <= k < |later| ==> !later[k].Qr?
    ensures QrAfter(initial, es + later) == None
    decreases |later|
  {
    if later != [] {
      var all := es + later;
      assert all[..|all| - 1] == es + later[..|later| - 1];
      assert all[|all| - 1] == later[|later| - 1];
      QrAfterNoQr(initial, es, later[..|later| - 1]);
    } else {
      assert es + later == es;
    }
  }

  /** The tracker object: one instance per running process. */
  class SessionTracker {
    var qrCodeImage: Option<string>
    var clientInfo: Option<string>

    /** The current values, as a state. */
    function Snapshot(): (s: SessionState)
      reads this
    {
      SessionState(qrCodeImage, clientInfo)
    }

    constructor ()
      ensures Snapshot() == Initial
    {
      qrCodeImage := None;
      clientInfo := None;
    }

    /** The `qr` handler, once the render callback has fired. */
    method OnQr(render: RenderOutcome)
      modifies this
      ensures qrCodeImage == (if render.Rendered? then Some(render.url) else None)
      ensures clientInfo == old(clientInfo)
      ensures Snapshot() == Step(old(Snapshot()), Qr(render))
    {
      match render {
        case RenderFailed(_) =>
          qrCodeImage := None;
        case Rendered(url) =>
          qrCodeImage := Some(url);
      }
    }

    /** The `ready` handler: the QR image is cleared before the state is queried. */
    method OnReady(query: StateQuery)
      modifies this
      ensures qrCodeImage == None
      ensures clientInfo == Record(old(clientInfo), query)
      ensures Snapshot() == Step(old(Snapshot()), Ready(query))
    {
      qrCodeImage := None;
      if query.Answered? {
        clientInfo := query.state;
      }
    }

    /** The `authenticated` handler: only `clientInfo` is overwritten. */
    method OnAuthenticated(query: StateQuery)
      modifies this
      ensures qrCodeImage == old(qrCodeImage)
      ensures clientInfo == Record(old(clientInfo), query)
      ensures Snapshot() == Step(old(Snapshot()), Authenticated(query))
    {
      if query.Answered? {
        clientInfo := query.state;
      }
    }

    /** Routes one event to its handler. */
    method Dispatch(e: SessionEvent)
      modifies this
      ensures Snapshot() == Step(old(Snapshot()), e)
    {
      match e {
        case Qr(r) => OnQr(r);
        case Ready(q) => OnReady(q);
        case Authenticated(q) => OnAuthenticated(q);
      }
    }
  }
}
