/** The HTTP handlers (src/controllers/whatsappController.js): each one is a
    sequence of early-return guards followed by calls into the service, the
    registry and the socket. The guards are pure decisions over the request and
    the registry; the handlers run them against a `Gateway` and then act. A
    request field is `None` when it is missing or null. */
module Controller {
  import opened Wrappers
  import opened Service
  import Address

  /** The JSON body of a response. `SessionStatus.state` is sent as the
      `status` field; it is a string where the other bodies carry a boolean. */
  datatype Body =
    | Message(status: bool, message: string)
    | Detailed(status: bool, message: string, detail: string)
    | SessionStatus(state: string, user: Option<string>)

  /** What a handler produces: a JSON response with its HTTP status code, or a
      rejected promise (the handler answered nothing itself). */
  datatype Response = Json(code: nat, body: Body) | Rejected(reason: string)

  const IdRequired: string := "sessionId is required!"
  const AlreadyExists: string := "Session already exists!"
  const FieldsRequired: string := "sessionId, number & message are required!"
  const NotConnected: string := "Session does not exist or not connected!"
  const MessageSent: string := "Message sent!"
  const SendFailed: string := "Failed to send message!"
  const DoesNotExist: string := "Session does not exist!"
  const ResetFailed: string := "Gagal reset session."

  /** A 400 answer with `status: false`. */
  function BadRequest(message: string): Response {
    Json(400, Message(false, message))
  }

  /** A session's socket is logged in: `session && session.sock?.user`. */
  predicate Connected(user: Option<Option<string>>) {
    user.Some? && user.value.Some?
  }

  /** The guards of `startSession`: the early answer, or None to go on and start. */
  function StartGuard(sessionId: Option<string>, registered: set<string>): (r: Option<Response>)
    ensures r.None? <==> Truthy(sessionId) && sessionId.value !in registered
    ensures !Truthy(sessionId) ==> r == Some(BadRequest(IdRequired))
    ensures Truthy(sessionId) && sessionId.value in registered ==> r == Some(BadRequest(AlreadyExists))
  {
    if !Truthy(sessionId) then Some(BadRequest(IdRequired))
    else if sessionId.value in registered then Some(BadRequest(AlreadyExists))
    else None
  }

  /** The guards of `sendMessage`, in the source's order: all three fields,
      then the session and its login, then the number. The result is the
      address to send to, or the early answer. */
  function SendGuard(sessionId: Option<string>, number: Option<string>, message: Option<string>,
                     user: Option<Option<string>>): (r: Result<string, Response>)
    ensures r.Ok? <==> Truthy(sessionId) && Truthy(number) && Truthy(message) && Connected(user)
                       && Address.FormatNumber(number.value).Ok?
    ensures r.Ok? ==> Address.FormatNumber(number.value) == Ok(r.value) && Address.IsCanonical(r.value)
    ensures r.Err? ==> r.error.Json? && r.error.code == 400 && r.error.body.Message? && !r.error.body.status
    ensures !(Truthy(sessionId) && Truthy(number) && Truthy(message)) ==> r == Err(BadRequest(FieldsRequired))
    ensures Truthy(sessionId) && Truthy(number) && Truthy(message) && !Connected(user)
            ==> r == Err(BadRequest(NotConnected))
    ensures Truthy(sessionId) && Truthy(number) && Truthy(message) && Connected(user) && r.Err?
            ==> r == Err(BadRequest(Address.PrefixError))
  {
    if !Truthy(sessionId) || !Truthy(number) || !Truthy(message) then Err(BadRequest(FieldsRequired))
    else if !Connected(user) then Err(BadRequest(NotConnected))
    else
      match Address.FormatNumber(number.value)
      case Err(e) => Err(BadRequest(e))
      case Ok(jid) => Ok(jid)
  }

  /** The answer of `checkSession`, given what the registry holds for the id:
      nothing, or a session whose socket has the given `user`. */
  function CheckAnswer(user: Option<Option<string>>): (r: Response)
    ensures r.Json? && r.code == 200
    ensures user.None? ==> r.body == Message(false, DoesNotExist)
    ensures user.Some? ==> r.body.SessionStatus? && r.body.user == user.value
    ensures user.Some? ==> (r.body.state == "connected" <==> user.value.Some?)
    ensures user.Some? ==> (r.body.state == "disconnected" <==> user.value.None?)
  {
    match user
    case None => Json(200, Message(false, DoesNotExist))
    case Some(u) => Json(200, SessionStatus(if u.Some? then "connected" else "disconnected", u))
  }

  /** The guards of `resetSession`: the early answer, or None to go on and reset. */
  function ResetGuard(sessionId: Option<string>, registered: set<string>): (r: Option<Response>)
    ensures r.None? <==> Truthy(sessionId) && sessionId.value in registered
    ensures !Truthy(sessionId) ==> r == Some(BadRequest(IdRequired))
    ensures Truthy(sessionId) && sessionId.value !in registered ==> r == Some(BadRequest(DoesNotExist))
  {
    if !Truthy(sessionId) then Some(BadRequest(IdRequired))
    else if sessionId.value !in registered then Some(BadRequest(DoesNotExist))
    else None
  }

  /** `startSession`: a missing id or an id already registered is refused with
      400 and nothing changes; otherwise the session is started and the answer
      is 200, unless starting rejects, which leaves the handler without an answer.
      `stored` is the identity the provider finds in an existing credential
      folder for the id. */
  method StartSession(g: Gateway, sessionId: Option<string>, authState: Outcome, stored: Option<string>)
    returns (resp: Response)
    modifies g, g.registry
    ensures g.restarts == old(g.restarts)
    ensures var guard := StartGuard(sessionId, old(g.registry.sessions).Keys);
            guard.Some? ==> && resp == guard.value
                            && g.registry.sessions == old(g.registry.sessions)
                            && g.credentials == old(g.credentials)
    ensures StartGuard(sessionId, old(g.registry.sessions).Keys).None? && authState.Failed? ==>
            && resp == Rejected(authState.reason)
            && g.registry.sessions == old(g.registry.sessions)
            && g.credentials == old(g.credentials)
    ensures StartGuard(sessionId, old(g.registry.sessions).Keys).None? && authState == Done ==>
            var id := sessionId.value;
            && resp == Json(200, Message(true, "Session " + id + " started!"))
            && id in g.registry.sessions
            && g.registry.sessions == old(g.registry.sessions)[id := g.registry.sessions[id]]
            && fresh(g.registry.sessions[id]) && g.registry.sessions[id].lastQr == None
            && fresh(g.registry.sessions[id].sock)
            && g.registry.sessions[id].sock.user == (if id in old(g.credentials) then stored else None)
            && g.registry.sessions[id].sock.outbox == []
            && g.credentials == old(g.credentials) + {id}
  {
    if !Truthy(sessionId) {
      return BadRequest(IdRequired);
    }
    var registered := g.registry.Exists(sessionId.value);
    if registered {
      return BadRequest(AlreadyExists);
    }
    var started := g.StartSock(sessionId.value, authState, stored);
    if started.Failed? {
      return Rejected(started.reason);
    }
    resp := Json(200, Message(true, "Session " + sessionId.value + " started!"));
  }

  /** The socket of the session a request names, as a frame. */
  function RequestSocket(g: Gateway, sessionId: Option<string>): set<object>
    reads g, g.registry
  {
    if sessionId.Some? then g.SocketOf(sessionId.value) else {}
  }

  /** What the registry holds for the session a request names. */
  function RequestUser(g: Gateway, sessionId: Option<string>): Option<Option<string>>
    reads g, g.registry, RequestSocket(g, sessionId)
  {
    if sessionId.Some? then g.UserOf(sessionId.value) else None
  }

  /** `sendMessage`: every guard answers 400 and sends nothing; past them the
      text is handed to the session's socket for the formatted address, and
      the answer is 200 when the provider accepts it and 500 otherwise. */
  method SendMessage(g: Gateway, sessionId: Option<string>, number: Option<string>,
                     message: Option<string>, delivery: Outcome) returns (resp: Response)
    modifies RequestSocket(g, sessionId)
    ensures var guard := SendGuard(sessionId, number, message, old(RequestUser(g, sessionId)));
            guard.Err? ==> resp == guard.error && unchanged(RequestSocket(g, sessionId))
    ensures var guard := SendGuard(sessionId, number, message, old(RequestUser(g, sessionId)));
            guard.Ok? ==>
              var sock := g.registry.sessions[sessionId.value].sock;
              && sock.outbox == old(sock.outbox) + [Outgoing(guard.value, message.value)]
              && sock.user == old(sock.user) && sock.loggedOut == old(sock.loggedOut)
              && resp == (if delivery == Done then Json(200, Message(true, MessageSent))
                          else Json(500, Detailed(false, SendFailed, delivery.reason)))
  {
    if !Truthy(sessionId) || !Truthy(number) || !Truthy(message) {
      return BadRequest(FieldsRequired);
    }
    var session := g.registry.Get(sessionId.value);
    if session.None? || session.value.sock.user.None? {
      return BadRequest(NotConnected);
    }
    var formatted := Address.FormatNumber(number.value);
    if formatted.Err? {
      return BadRequest(formatted.error);
    }
    var sent := session.value.sock.SendMessage(formatted.value, message.value, delivery);
    if sent == Done {
      resp := Json(200, Message(true, MessageSent));
    } else {
      resp := Json(500, Detailed(false, SendFailed, sent.reason));
    }
  }

  /** `checkSession`: reads the registry and the session's socket, changes nothing. */
  method CheckSession(g: Gateway, sessionId: string) returns (resp: Response)
    ensures resp == CheckAnswer(g.UserOf(sessionId))
  {
    var session := g.registry.Get(sessionId);
    if session.None? {
      return Json(200, Message(false, DoesNotExist));
    }
    var user := session.value.sock.user;
    resp := Json(200, SessionStatus(if user.Some? then "connected" else "disconnected", user));
  }

  /** `resetSession`: a missing or unregistered id is refused with 400 and
      nothing changes; otherwise the service reset runs (credentials deleted,
      best-effort logout, unregistered) and then the session is started again.
      The answer is 200, or 500 when the restart rejects, in which case the
      session stays unregistered. The folder was just deleted, so the new
      socket starts unpaired. */
  method ResetSession(g: Gateway, sessionId: Option<string>, logoutOutcome: Outcome, authState: Outcome)
    returns (resp: Response)
    modifies g, g.registry, RequestSocket(g, sessionId)
    ensures g.restarts == old(g.restarts)
    ensures var guard := ResetGuard(sessionId, old(g.registry.sessions).Keys);
            guard.Some? ==> && resp == guard.value
                            && g.registry.sessions == old(g.registry.sessions)
                            && g.credentials == old(g.credentials)
                            && unchanged(RequestSocket(g, sessionId))
    ensures ResetGuard(sessionId, old(g.registry.sessions).Keys).None? ==>
            var id, sock := sessionId.value, old(g.registry.sessions[sessionId.value].sock);
            && sock.loggedOut == (old(sock.loggedOut) || logoutOutcome == Done)
            && sock.user == old(sock.user) && sock.outbox == old(sock.outbox)
    ensures ResetGuard(sessionId, old(g.registry.sessions).Keys).None? && authState.Failed? ==>
            var id := sessionId.value;
            && resp == Json(500, Detailed(false, ResetFailed, authState.reason))
            && g.registry.sessions == old(g.registry.sessions) - {id}
            && g.credentials == old(g.credentials) - {id}
    ensures ResetGuard(sessionId, old(g.registry.sessions).Keys).None? && authState == Done ==>
            var id := sessionId.value;
            && resp == Json(200, Message(true, "Session " + id + " reset! Silakan scan ulang QR."))
            && id in g.registry.sessions
            && g.registry.sessions == old(g.registry.sessions)[id := g.registry.sessions[id]]
            && fresh(g.registry.sessions[id]) && fresh(g.registry.sessions[id].sock)
            && g.registry.sessions[id].lastQr == None
            && g.registry.sessions[id].sock.user == None && g.registry.sessions[id].sock.outbox == []
            && g.credentials == old(g.credentials) + {id}
  {
    if !Truthy(sessionId) {
      return BadRequest(IdRequired);
    }
    var session := g.registry.Get(sessionId.value);
    if session.None? {
      return BadRequest(DoesNotExist);
    }
    g.ResetSession(sessionId.value, logoutOutcome);
    var started := g.StartSock(sessionId.value, authState, None);
    if started.Failed? {
      return Json(500, Detailed(false, ResetFailed, started.reason));
    }
    resp := Json(200, Message(true, "Session " + sessionId.value + " reset! Silakan scan ulang QR."));
  }
}
