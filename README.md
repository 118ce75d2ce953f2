# WhatsApp HTTP façade: connection state and recipient addresses

This project models the logic that the server (`server.js`) owns. The server
wraps a WhatsApp Web client library behind a small HTTP API. It keeps two
process-wide variables: `isClientReady` and `latestQR`, the last pairing QR
payload. The library's `qr`, `ready`, `auth_failure` and `disconnected`
events update them. The routes `/api/status`, `/api/get-qr`, `/api/logout` and
`/api/send` read and update them. Before it sends a message, the send route
turns the phone input into a chat address. It strips every non-digit. It
prefixes the country code `91` when exactly ten digits remain. It then
appends `@c.us`.

- `address.dfy` (module `Address`): address normalisation as pure functions,
  with lemmas about the address's shape, the ten-digit rule, separators,
  idempotence and which inputs reach the same recipient.
- `relay.dfy` (module `Relay`): the state machine as values. `Handle` gives the
  next state, the HTTP reply and the client-library calls for one input, which
  is a library event or an HTTP request. `Run` applies a sequence of inputs.
  The lemmas say what holds across sequences of inputs.
- `server.dfy` (module `Server`): the class `WhatsAppServer`. Its fields are
  updated in place by one method per event handler and route, and each method
  is specified by `Handle`. The field `issued` logs the calls made into the
  client library, so "no message was sent" is a statement about the model. Three
  end-to-end scenarios are included.

Calls into the client library (`logout`, `sendMessage`) are modelled by their
outcome only: they resolve, or they reject with an error message. The caller
supplies that outcome as a parameter.

Two facts about the code that a reader might not expect:
- The `qr` handler (server.js:49-54) does not check readiness. So a `qr` event
  after `ready` stores a payload while the client is ready. `/api/get-qr` still
  reports no QR while ready (`Relay.QrWhileReady`).
- A QR payload stays visible until the next `qr` or `ready` event, or until a
  successful logout, which also clears it (server.js:101).
  `Relay.QrShownUntilReplaced` lists all three.

## Model

| member | source | states |
|---|---|---|
| `Address.Digits` | server.js:112 | the result has only digits, is no longer than the input, is the input itself when that is all digits, and is empty when the input has no digits |
| `Address.NormalizeAddress` | server.js:112-114 | the address ends in `@c.us` and only digits precede it; it is `91` + digits + `@c.us` exactly when ten digits remain, and digits + `@c.us` exactly when not |
| `Address.DigitsConcat` | server.js:112 | stripping non-digits distributes over concatenation |
| `Address.DigitsSkipSeparator` | server.js:112 | a run of non-digits between two parts contributes nothing to the digits |
| `Address.SeparatorsIgnored` | server.js:112-114 | inserting non-digit separators anywhere in the phone input leaves the address unchanged |
| `Address.NormalizeIdempotent` | server.js:112-114 | normalising a normalised address returns it unchanged, so no second country code is added |
| `Address.SameAddressIff` | server.js:112-114 | two inputs give the same address if and only if their digits are equal or one is the ten-digit local form of the other's `91`-prefixed number |
| `Address.SeparatedLocalExample` | server.js:112-114 | `"98-765 43210"` becomes `"919876543210@c.us"` |
| `Address.PlainLocalExample` | server.js:112-114 | `"1234567890"` becomes `"911234567890@c.us"` |
| `Address.InternationalExample` | server.js:112-114 | `"+91 98765 43210"` becomes `"919876543210@c.us"` and is not prefixed again |
| `Address.ShortNumberExample` | server.js:112-114 | `"12345"` becomes `"12345@c.us"` |
| `Relay.QrReply` | server.js:90-95 | `/api/get-qr` always answers 200 with `success: true` and the readiness; no QR while ready, the stored one otherwise |
| `Relay.Handle` | server.js:49-119 | only library events have no reply; readiness is true after an input if and only if the input is `ready`, or the client was ready and the input does not clear readiness; the QR is set by `qr`, cleared by `ready` and a successful logout, and kept otherwise; status, QR and health requests change nothing and make no call; a send while not ready gets 503 and makes no call; a send while ready with a phone makes exactly one call, to the normalised address, and answers `{success: true}` when it resolves; a send without a phone answers 500 with no call; no other input sends a message; a logout always calls the client and answers with the success message when it resolves; library failures become 500 with their message; a disconnect destroys and re-initialises the client, and no other event calls the client |
| `Relay.QrKept` | server.js:49-106 | inputs other than `qr`, `ready` and a successful logout keep the stored QR |
| `Relay.QrShownUntilReplaced` | server.js:49-94 | after `qr(p)`, the stored QR is `p` until the next `qr`, `ready` or successful logout, and `/api/get-qr` returns `p` verbatim while not ready |
| `Relay.NotReadyKept` | server.js:56-73 | without a `ready` event, a client that is not ready stays not ready |
| `Relay.SendRefusedUntilReady` | server.js:109 | from process start until the first `ready` event, every send gets 503 and no message is sent, whatever the body |
| `Relay.NoQrKept` | server.js:49-60 | once the QR is cleared it stays cleared until the next `qr` event |
| `Relay.ReadyHidesQr` | server.js:56-93 | right after `ready`, `/api/get-qr` returns `{success: true, ready: true, qr: null}`, and reports no QR until the next `qr` event |
| `Relay.QrWhileReady` | server.js:49-93 | a `qr` event after `ready` stores the payload while ready, and `/api/get-qr` still reports none |
| `Server.WhatsAppServer.constructor` | server.js:45-79 | at process start the client is not ready, no QR is stored, and the only client call is `initialize` |
| `Server.WhatsAppServer.OnQr` | server.js:49-54 | the stored QR becomes exactly the payload; readiness is unchanged |
| `Server.WhatsAppServer.OnReady` | server.js:56-60 | the client is ready and no QR is stored |
| `Server.WhatsAppServer.OnAuthFailure` | server.js:62-65 | readiness is cleared and the QR is unchanged |
| `Server.WhatsAppServer.OnDisconnected` | server.js:67-73 | readiness is cleared, the QR is unchanged, and `destroy` then `initialize` are called |
| `Server.WhatsAppServer.Status` | server.js:86-88 | answers 200 with `success: true` and the readiness, changing nothing |
| `Server.WhatsAppServer.GetQr` | server.js:90-95 | answers 200 with `success: true`, the readiness, and the stored QR only when not ready; changes nothing |
| `Server.WhatsAppServer.Logout` | server.js:97-106 | calls the client's logout; on success clears both variables and answers with the success message; on failure changes no state and answers 500 with the error text |
| `Server.WhatsAppServer.Send` | server.js:108-119 | when not ready, answers 503 and makes no call; when ready with a phone, sends exactly one message to the normalised address and answers `{success: true}` if it resolves or 500 with the error text if it rejects; when ready without a phone, answers 500 and makes no call |
| `Server.PairingScenario` | server.js:49-95 | after `qr("ABC123")` get-qr shows `"ABC123"`; after `ready` it shows `null` and status reports ready |
| `Server.SendScenario` | server.js:108-119 | when ready, sending `"hi"` to `"1234567890"` makes exactly one send, to `"911234567890@c.us"`, and answers `{success: true}` |
| `Server.DisconnectScenario` | server.js:67-73 | a disconnect clears readiness at once and restarts the client exactly once |

## Left out

- Express setup, CORS, JSON body parsing and `app.listen` (server.js:1-11, 132): HTTP plumbing. The `GET /health` reply is modelled only as an input of `Relay.Handle`.
- The HTML status page at `GET /` (server.js:121-130): presentation.
- Client and auth-strategy construction, browser flags, the remote web-version cache, and the environment-derived port and session path (server.js:13-43): configuration data for the external library, and `path.join` is a foreign call.
- What `initialize`, `destroy`, `logout` and `sendMessage` do inside the library: each is only a logged call, with a given outcome where the route awaits it.
- Console output and terminal QR rendering (server.js:50-53, 57, 63, 68, 76-78): I/O.
- A failing `initialize` at start-up is caught and logged (server.js:77-79). It changes no state, so the model records only the call.
- `Server.WhatsAppServer.OnDisconnected`: logs `destroy` and `initialize` together. In the source, `initialize` runs only once `destroy` has resolved, and a rejected `destroy` ends the chain. This is asynchronous ordering. The restart chain has no rejection handler: a rejected `destroy` or a rejected second `initialize` is not caught. Only the start-up `initialize` is caught and logged (server.js:77-79).
- `Relay.Handle`: each request is handled as one atomic step. In the source, the logout and send handlers suspend at `await`, and events or other requests can run before they resume. The logout's state update happens after that point. Interleavings are not modelled.
- `Relay.Handle`: `phone` is a string or missing. `toString()` on numbers and other JavaScript values is not modelled. A `null` phone gives the same 500 as a missing one, with a different message text.
- The message text is forwarded unchanged. A missing `message` field is left to the library's send outcome.
