/** The connection state the server keeps about its WhatsApp client (the
    readiness flag and the latest pairing QR payload), how the client
    library's events and the HTTP routes change and read it, and which calls
    each of them makes into the client library. As values: `Handle` is one
    step, `Run` a sequence of steps. */
module Relay {
  import opened Address

  datatype Option<+T> = None | Some(value: T)

  /** How an asynchronous call into the client library settled: it resolved,
      or it rejected with an error whose message is given. */
  datatype Outcome = Resolved | Rejected(message: string)

  /** `isClientReady` and `latestQR` (`None` for JavaScript's `null`). */
  datatype ConnState = ConnState(ready: bool, qr: Option<string>)

  /** The state at process start: not ready, no QR seen yet. */
  const Initial: ConnState := ConnState(false, None)

  /** What can happen to the server: an event the client library emits, or
      an HTTP request. Requests that await the library carry the outcome the
      library call will have. */
  datatype Input =
    | QrEvent(payload: string)
    | ReadyEvent
    | AuthFailureEvent(msg: string)
    | DisconnectedEvent(reason: string)
    | HealthRequest
    | StatusRequest
    | GetQrRequest
    | LogoutRequest(logout: Outcome)
      /** `phone` is `None` when the request body has no phone field. */
    | SendRequest(phone: Option<string>, message: string, send: Outcome)

  /** Calls the server makes into the client library. */
  datatype ClientCall =
    | Initialize
    | Destroy
    | Logout
    | SendMessage(to: string, text: string)

  /** JSON (or, for the health check, plain text) bodies of the replies. */
  datatype Body =
    | TextBody(text: string)
    | StatusBody(success: bool, ready: bool)
    | QrBody(success: bool, ready: bool, qr: Option<string>)
    | MessageBody(success: bool, message: string)
    | SentBody(success: bool)
    | ErrorBody(error: string)

  datatype Response = Response(code: int, body: Body)

  /** The effect of one input: the next state, the HTTP reply (none for a
      library event), and the client calls made, in order. */
  datatype Reaction = Reaction(next: ConnState, reply: Option<Response>, calls: seq<ClientCall>)

  const NotReadyError: string := "WhatsApp not ready"
  const LoggedOutMessage: string := "Logged out successfully"
  /** The message of the TypeError raised by `phone.toString()` when the
      body has no phone field. */
  const MissingPhoneError: string := "Cannot read properties of undefined (reading 'toString')"

  predicate IsEvent(i: Input) {
    i.QrEvent? || i.ReadyEvent? || i.AuthFailureEvent? || i.DisconnectedEvent?
  }

  /** Inputs after which the client is not ready, whatever it was before. */
  predicate ClearsReady(i: Input) {
    i.AuthFailureEvent? || i.DisconnectedEvent? || (i.LogoutRequest? && i.logout.Resolved?)
  }

  /** Inputs that overwrite the stored QR payload. */
  predicate ReplacesQr(i: Input) {
    i.QrEvent? || i.ReadyEvent? || (i.LogoutRequest? && i.logout.Resolved?)
  }

  /** The reply of `/api/get-qr` in state `s`. */
  function QrReply(s: ConnState): (r: Response)
    ensures r.code == 200 && r.body.QrBody? && r.body.success && r.body.ready == s.ready
    ensures s.ready ==> r.body.qr == None
    ensures !s.ready ==> r.body.qr == s.qr
  {
    if s.ready then Response(200, QrBody(true, true, None))
    else Response(200, QrBody(true, false, s.qr))
  }

  /** One step: how input `i` is handled in state `s`. */
  function Handle(s: ConnState, i: Input): (r: Reaction)
    // Library events produce no reply; every request gets exactly one.
    ensures r.reply.None? <==> IsEvent(i)
    // Readiness becomes true only on `ready`, and is kept until cleared.
    ensures r.next.ready <==> i.ReadyEvent? || (s.ready && !ClearsReady(i))
    // The QR payload is set by `qr`, cleared by `ready` and a successful
    // logout, and otherwise kept.
    ensures i.QrEvent? ==> r.next.qr == Some(i.payload)
    ensures ReplacesQr(i) && !i.QrEvent? ==> r.next.qr == None
    ensures !ReplacesQr(i) ==> r.next.qr == s.qr
    // Status and QR requests always succeed and change nothing.
    ensures i.StatusRequest? ==> r == Reaction(s, Some(Response(200, StatusBody(true, s.ready))), [])
    ensures i.GetQrRequest? ==> r.next == s && r.calls == [] && r.reply == Some(QrReply(s))
    // A send is refused with 503, and nothing is sent, unless ready.
    ensures i.SendRequest? && !s.ready ==> r == Reaction(s, Some(Response(503, ErrorBody(NotReadyError))), [])
    // The only message ever sent is the one a send request asks for, to its
    // normalised address, and only while ready.
    ensures forall k :: 0 <= k < |r.calls| && r.calls[k].SendMessage? ==>
      i.SendRequest? && s.ready && i.phone.Some?
      && r.calls[k] == SendMessage(NormalizeAddress(i.phone.value), i.message)
    // A failed library call is reported as 500 with its message, verbatim.
    ensures i.LogoutRequest? && i.logout.Rejected? ==>
      r == Reaction(s, Some(Response(500, ErrorBody(i.logout.message))), [Logout])
    ensures i.SendRequest? && s.ready && i.phone.Some? && i.send.Rejected? ==>
      r.reply == Some(Response(500, ErrorBody(i.send.message)))
    // A send while ready with a phone makes exactly one call, to the
    // normalised address, and answers `{success: true}` once it resolves.
    ensures i.SendRequest? && s.ready && i.phone.Some? ==>
      r.calls == [SendMessage(NormalizeAddress(i.phone.value), i.message)]
      && (i.send.Resolved? ==> r.reply == Some(Response(200, SentBody(true))))
    // A send without a phone fails inside the handler, before any call.
    ensures i.SendRequest? && s.ready && i.phone.None? ==>
      r == Reaction(s, Some(Response(500, ErrorBody(MissingPhoneError))), [])
    // A successful logout answers with its message; logout always calls the client.
    ensures i.LogoutRequest? && i.logout.Resolved? ==>
      r.reply == Some(Response(200, MessageBody(true, LoggedOutMessage))) && r.calls == [Logout]
    // The health check answers "OK" and changes nothing.
    ensures i.HealthRequest? ==> r == Reaction(s, Some(Response(200, TextBody("OK"))), [])
    // Of the library events, only a disconnect calls the client.
    ensures IsEvent(i) && !i.DisconnectedEvent? ==> r.calls == []
    // A disconnect tears the client down and starts it again.
    ensures i.DisconnectedEvent? ==> r.calls == [Destroy, Initialize]
  {
    match i
    case QrEvent(payload) => Reaction(s.(qr := Some(payload)), None, [])
    case ReadyEvent => Reaction(ConnState(true, None), None, [])
    case AuthFailureEvent(_) => Reaction(s.(ready := false), None, [])
    case DisconnectedEvent(_) => Reaction(s.(ready := false), None, [Destroy, Initialize])
    case HealthRequest => Reaction(s, Some(Response(200, TextBody("OK"))), [])
    case StatusRequest => Reaction(s, Some(Response(200, StatusBody(true, s.ready))), [])
    case GetQrRequest => Reaction(s, Some(QrReply(s)), [])
    case LogoutRequest(logout) =>
      (match logout
       case Resolved => Reaction(ConnState(false, None), Some(Response(200, MessageBody(true, LoggedOutMessage))), [Logout])
       case Rejected(e) => Reaction(s, Some(Response(500, ErrorBody(e))), [Logout]))
    case SendRequest(phone, message, send) =>
      if !s.ready then Reaction(s, Some(Response(503, ErrorBody(NotReadyError))), [])
      else
        match phone
        case None => Reaction(s, Some(Response(500, ErrorBody(MissingPhoneError))), [])
        case Some(p) =>
          var reply := if send.Resolved? then Response(200, SentBody(true))
            else Response(500, ErrorBody(send.message));
          Reaction(s, Some(reply), [SendMessage(NormalizeAddress(p), message)])
  }

  /** The state after handling `inputs` in order, starting from `s`. */
  function Run(s: ConnState, inputs: seq<Input>): ConnState
    decreases |inputs|
  {
    if inputs == [] then s else Run(Handle(s, inputs[0]).next, inputs[1..])
  }

  /** Inputs that do not overwrite the QR payload keep it. */
  lemma {:induction false} QrKept(s: ConnState, inputs: seq<Input>)
    requires forall k :: 0 <= k < |inputs| ==> !ReplacesQr(inputs[k])
    ensures Run(s, inputs).qr == s.qr
    decreases |inputs|
  {
    if inputs != [] {
      QrKept(Handle(s, inputs[0]).next, inputs[1..]);
    }
  }

  /** After a `qr` event, `/api/get-qr` returns that payload verbatim,
      whenever the client is not ready, until the next `qr` or `ready` event
      or a successful logout. */
  lemma QrShownUntilReplaced(s: ConnState, payload: string, inputs: seq<Input>)
    requires forall k :: 0 <= k < |inputs| ==> !ReplacesQr(inputs[k])
    ensures var t := Run(Handle(s, QrEvent(payload)).next, inputs);
      t.qr == Some(payload)
      && (!t.ready ==> QrReply(t) == Response(200, QrBody(true, false, Some(payload))))
  {
    QrKept(Handle(s, QrEvent(payload)).next, inputs);
  }

  /** Without a `ready` event, a client that is not ready stays not ready. */
  lemma {:induction false} NotReadyKept(s: ConnState, inputs: seq<Input>)
    requires !s.ready
    requires forall k :: 0 <= k < |inputs| ==> !inputs[k].ReadyEvent?
    ensures !Run(s, inputs).ready
    decreases |inputs|
  {
    if inputs != [] {
      NotReadyKept(Handle(s, inputs[0]).next, inputs[1..]);
    }
  }

  /** Until the first `ready` event, every send is refused with 503 and no
      message goes to the client library, whatever the request body. */
  lemma SendRefusedUntilReady(inputs: seq<Input>, phone: Option<string>, message: string, send: Outcome)
    requires forall k :: 0 <= k < |inputs| ==> !inputs[k].ReadyEvent?
    ensures var t := Run(Initial, inputs);
      Handle(t, SendRequest(phone, message, send))
      == Reaction(t, Some(Response(503, ErrorBody(NotReadyError))), [])
  {
    NotReadyKept(Initial, inputs);
  }

  /** Once the QR payload is cleared, it stays cleared until the next `qr`
      event. */
  lemma {:induction false} NoQrKept(s: ConnState, inputs: seq<Input>)
    requires s.qr == None
    requires forall k :: 0 <= k < |inputs| ==> !inputs[k].QrEvent?
    ensures Run(s, inputs).qr == None
    decreases |inputs|
  {
    if inputs != [] {
      NoQrKept(Handle(s, inputs[0]).next, inputs[1..]);
    }
  }

  /** After a `ready` event, `/api/get-qr` reports no QR, even if one was
      stored before, until the next `qr` event; right after it the reply is
      `{success: true, ready: true, qr: null}`. */
  lemma ReadyHidesQr(s: ConnState, inputs: seq<Input>)
    requires forall k :: 0 <= k < |inputs| ==> !inputs[k].QrEvent?
    ensures QrReply(Handle(s, ReadyEvent).next) == Response(200, QrBody(true, true, None))
    ensures QrReply(Run(Handle(s, ReadyEvent).next, inputs)).body.qr == None
  {
    NoQrKept(Handle(s, ReadyEvent).next, inputs);
  }

  /** A `qr` event does not look at readiness, so a ready client can hold a
      stored payload; `/api/get-qr` still reports none while it is ready. */
  lemma QrWhileReady(payload: string)
    ensures var t := Run(Initial, [ReadyEvent, QrEvent(payload)]);
      t == ConnState(true, Some(payload)) && QrReply(t).body.qr == None
  {
    var t1 := Handle(Initial, ReadyEvent).next;
    assert Run(Initial, [ReadyEvent, QrEvent(payload)]) == Run(t1, [QrEvent(payload)]);
    assert Run(t1, [QrEvent(payload)]) == Run(Handle(t1, QrEvent(payload)).next, []);
  }
}
