/** The server as the program runs it: two module-level variables updated in
    place by the client library's event handlers and the logout route, and
    read by the status, QR and send routes. Every call the server makes into
    the client library is appended to `issued`. Each method is specified by
    the step function `Relay.Handle`. */
module Server {
  import opened Address
  import opened Relay

  class WhatsAppServer {
    var isClientReady: bool
    var latestQR: Option<string>
    /** The calls made into the client library so far, oldest first. */
    var issued: seq<ClientCall>

    function State(): ConnState
      reads this
    {
      ConnState(isClientReady, latestQR)
    }

    /** Process start: the state variables are initialised and the client's
        initialisation is started. */
    constructor ()
      ensures State() == Initial && issued == [Initialize]
    {
      isClientReady := false;
      latestQR := None;
      issued := [Initialize];
    }

    /** The `qr` handler: stores the payload, leaves readiness alone. */
    method OnQr(qr: string)
      modifies this`latestQR
      ensures latestQR == Some(qr)
      ensures State() == Handle(old(State()), QrEvent(qr)).next
    {
      latestQR := Some(qr);
    }

    /** The `ready` handler. */
    method OnReady()
      modifies this`isClientReady, this`latestQR
      ensures isClientReady && latestQR == None
      ensures State() == Handle(old(State()), ReadyEvent).next
    {
      isClientReady := true;
      latestQR := None;
    }

    /** The `auth_failure` handler: readiness is cleared, the QR kept. */
    method OnAuthFailure(msg: string)
      modifies this`isClientReady
      ensures !isClientReady
      ensures State() == Handle(old(State()), AuthFailureEvent(msg)).next
    {
      isClientReady := false;
    }

    /** The `disconnected` handler: readiness is cleared, the QR kept, and the
        client is destroyed and initialised again. */
    method OnDisconnected(reason: string)
      modifies this`isClientReady, this`issued
      ensures !isClientReady
      ensures State() == Handle(old(State()), DisconnectedEvent(reason)).next
      ensures issued == old(issued) + [Destroy, Initialize]
    {
      isClientReady := false;
      issued := issued + [Destroy, Initialize];
    }

    /** `GET /api/status`. */
    method Status() returns (r: Response)
      ensures r == Response(200, StatusBody(true, isClientReady))
      ensures Some(r) == Handle(State(), StatusRequest).reply
    {
      r := Response(200, StatusBody(true, isClientReady));
    }

    /** `GET /api/get-qr`: no QR while ready, else the stored one. */
    method GetQr() returns (r: Response)
      ensures r.code == 200 && r.body.QrBody? && r.body.success && r.body.ready == isClientReady
      ensures r.body.qr == if isClientReady then None else latestQR
      ensures Some(r) == Handle(State(), GetQrRequest).reply
    {
      if isClientReady {
        return Response(200, QrBody(true, true, None));
      }
      r := Response(200, QrBody(true, false, latestQR));
    }

    /** `POST /api/logout`; `logout` is how the client's logout settles. */
    method Logout(logout: Outcome) returns (r: Response)
      modifies this
      ensures issued == old(issued) + [ClientCall.Logout]
      ensures logout.Resolved? ==>
        !isClientReady && latestQR == None
        && r == Response(200, MessageBody(true, LoggedOutMessage))
      ensures logout.Rejected? ==>
        State() == old(State()) && r == Response(500, ErrorBody(logout.message))
      ensures var h := Handle(old(State()), LogoutRequest(logout));
        State() == h.next && Some(r) == h.reply && issued == old(issued) + h.calls
    {
      issued := issued + [ClientCall.Logout];
      match logout
      case Resolved =>
        isClientReady := false;
        latestQR := None;
        r := Response(200, MessageBody(true, LoggedOutMessage));
      case Rejected(e) =>
        r := Response(500, ErrorBody(e));
    }

    /** `POST /api/send`; `send` is how the client's sendMessage settles. */
    method Send(phone: Option<string>, message: string, send: Outcome) returns (r: Response)
      modifies this`issued
      ensures !isClientReady ==>
        r == Response(503, ErrorBody(NotReadyError)) && issued == old(issued)
      ensures isClientReady && phone.Some? ==>
        issued == old(issued) + [SendMessage(NormalizeAddress(phone.value), message)]
        && r == (if send.Resolved? then Response(200, SentBody(true)) else Response(500, ErrorBody(send.message)))
      ensures isClientReady && phone.None? ==>
        r == Response(500, ErrorBody(MissingPhoneError)) && issued == old(issued)
      ensures var h := Handle(State(), SendRequest(phone, message, send));
        Some(r) == h.reply && issued == old(issued) + h.calls
    {
      if !isClientReady {
        return Response(503, ErrorBody(NotReadyError));
      }
      if phone.None? {
        return Response(500, ErrorBody(MissingPhoneError));
      }
      var num := Digits(phone.value);
      if |num| == LocalLength {
        num := CountryCode + num;
      }
      issued := issued + [SendMessage(num + Suffix, message)];
      match send
      case Resolved =>
        r := Response(200, SentBody(true));
      case Rejected(e) =>
        r := Response(500, ErrorBody(e));
    }
  }

  /** Pairing: a QR is shown until the client is ready, then hidden. */
  method PairingScenario() returns (shown: Response, afterReady: Response, status: Response)
    ensures shown == Response(200, QrBody(true, false, Some("ABC123")))
    ensures afterReady == Response(200, QrBody(true, true, None))
    ensures status == Response(200, StatusBody(true, true))
  {
    var server := new WhatsAppServer();
    server.OnQr("ABC123");
    shown := server.GetQr();
    server.OnReady();
    afterReady := server.GetQr();
    status := server.Status();
  }

  /** Sending to a ten-digit number once ready: exactly one message goes to
      the client, to the number with the country code. */
  method SendScenario() returns (r: Response, sent: seq<ClientCall>)
    ensures r == Response(200, SentBody(true))
    ensures sent == [SendMessage("911234567890@c.us", "hi")]
  {
    var phone := "1234567890";
    var address := NormalizeAddress(phone);
    assert address == "911234567890@c.us" by {
      PlainLocalExample();
    }
    var server := new WhatsAppServer();
    server.OnReady();
    var before := server.issued;
    r := server.Send(Some(phone), "hi", Resolved);
    sent := server.issued[|before|..];
    assert sent == [SendMessage(address, "hi")];
  }

  /** A disconnect clears readiness and restarts the client exactly once. */
  method DisconnectScenario() returns (ready: bool, restarts: seq<ClientCall>)
    ensures !ready
    ensures restarts == [Destroy, Initialize]
  {
    var server := new WhatsAppServer();
    server.OnReady();
    var before := server.issued;
    server.OnDisconnected("NAVIGATION");
    ready := server.isClientReady;
    restarts := server.issued[|before|..];
  }
}
