/** Session lifecycle and message pipeline (src/services/whatsappService.js).
    The Baileys socket is abstracted to the state the gateway reads or causes:
    the logged-in `user`, the messages handed to it for sending, and whether a
    logout was accepted. What the provider answers (a send, a logout, loading
    the credential folder) is a parameter of the operation that asks. The
    restart timer is a queue of session ids waiting to be restarted. */
module Service {
  import opened Wrappers
  import opened SessionRepo
  import opened InboxRepo
  import AutoReply

  /** A message handed to the provider: `sock.sendMessage(jid, { text })`. */
  datatype Outgoing = Outgoing(jid: string, text: string)

  /** The Baileys socket. */
  class Socket {
    /** `sock.user`: set by the provider once the device is paired. */
    var user: Option<string>
    /** Every `sendMessage` call made on this socket, in call order. */
    var outbox: seq<Outgoing>
    /** Whether the provider accepted a `logout` on this socket. */
    var loggedOut: bool

    /** `makeWASocket({ auth: state })`: a new socket carries the identity
        stored in the credentials it was built from (none for a folder that
        was never paired), has sent nothing and is not logged out. */
    constructor (user: Option<string>)
      ensures this.user == user && outbox == [] && !loggedOut
    {
      this.user, outbox, loggedOut := user, [], false;
    }

    /** The provider's own update of `sock.user` (pairing completed or lost). */
    method SetUser(u: Option<string>)
      modifies this
      ensures user == u && outbox == old(outbox) && loggedOut == old(loggedOut)
    {
      user := u;
    }

    /** `sendMessage`: the request is handed over; the provider's answer is `outcome`. */
    method SendMessage(jid: string, text: string, outcome: Outcome) returns (result: Outcome)
      modifies this
      ensures outbox == old(outbox) + [Outgoing(jid, text)]
      ensures result == outcome
      ensures user == old(user) && loggedOut == old(loggedOut)
    {
      outbox := outbox + [Outgoing(jid, text)];
      result := outcome;
    }

    /** `logout`: the provider's answer is `outcome`. */
    method Logout(outcome: Outcome) returns (result: Outcome)
      modifies this
      ensures loggedOut == (old(loggedOut) || outcome == Done)
      ensures result == outcome
      ensures user == old(user) && outbox == old(outbox)
    {
      if outcome == Done {
        loggedOut := true;
      }
      result := outcome;
    }
  }

  /** The registry's value for a session: `{ sock, lastQr }`. */
  class Session {
    const sock: Socket
    /** The last pairing QR payload, cleared once the connection opens. */
    var lastQr: Option<string>

    constructor (sock: Socket)
      ensures this.sock == sock && lastQr == None
    {
      this.sock := sock;
      lastQr := None;
    }
  }

  datatype Connection = Connecting | Open | Close

  /** The fields of a `connection.update` event the handler reads. */
  datatype ConnectionUpdate = ConnectionUpdate(connection: Option<Connection>, qr: Option<string>)

  /** `lastQr` after a `connection.update`: a truthy `qr` is stored first, and
      `connection === 'open'` is looked at afterwards and clears it. */
  function QrAfter(lastQr: Option<string>, u: ConnectionUpdate): (r: Option<string>)
    ensures u.connection == Some(Open) ==> r == None
    ensures u.connection != Some(Open) && Truthy(u.qr) ==> r == u.qr
    ensures u.connection != Some(Open) && !Truthy(u.qr) ==> r == lastQr
  {
    var afterQr := if Truthy(u.qr) then u.qr else lastQr;
    if u.connection == Some(Open) then None else afterQr
  }

  /** The handler dereferences the looked-up session exactly when it has a QR to
      store or an `open` to record; with no session registered that throws. */
  predicate UpdateThrows(registered: bool, u: ConnectionUpdate) {
    !registered && (Truthy(u.qr) || u.connection == Some(Open))
  }

  /** The restarts one `connection.update` schedules: one per `close`. */
  function RestartsFor(sessionId: string, registered: bool, u: ConnectionUpdate): (r: seq<string>)
    ensures |r| <= 1
    ensures r == [sessionId] <==> u.connection == Some(Close) && !UpdateThrows(registered, u)
    ensures r == [] <==> u.connection != Some(Close) || UpdateThrows(registered, u)
  {
    if u.connection == Some(Close) && !UpdateThrows(registered, u) then [sessionId] else []
  }

  datatype MessageKey = MessageKey(remoteJid: string, fromMe: bool, id: string)

  /** The parts of `msg.message` the pipeline reads: `conversation` and
      `extendedTextMessage?.text`. */
  datatype Content = Content(conversation: Option<string>, extendedText: Option<string>)

  /** One message of a `messages.upsert` batch. */
  datatype WAMessage = WAMessage(key: MessageKey, message: Option<Content>, messageTimestamp: int)

  /** `msg.message.conversation || msg.message.extendedTextMessage?.text || ''` */
  function TextOf(c: Content): (t: string)
    ensures Truthy(c.conversation) ==> t == c.conversation.value
    ensures t != "" ==> Some(t) == c.conversation || Some(t) == c.extendedText
    ensures t == "" <==> !Truthy(c.conversation) && !Truthy(c.extendedText)
  {
    if Truthy(c.conversation) then c.conversation.value
    else if Truthy(c.extendedText) then c.extendedText.value
    else ""
  }

  /** `!msg.key.fromMe && msg.message`: only messages from others that carry a
      message body are stored and answered. */
  predicate Qualifies(msg: WAMessage) {
    !msg.key.fromMe && msg.message.Some?
  }

  /** The inbox entry `{ from: remoteJid, text, timestamp, id }`. */
  function EntryOf(msg: WAMessage): (e: Entry)
    requires msg.message.Some?
    ensures e.from == msg.key.remoteJid && e.id == msg.key.id
    ensures e.text == TextOf(msg.message.value) && e.timestamp == msg.messageTimestamp
  {
    Entry(msg.key.remoteJid, TextOf(msg.message.value), msg.messageTimestamp, msg.key.id)
  }

  /** The auto-reply a message gets: at most one, to its sender, with the reply
      of the first matching rule; none for a non-qualifying message or when no
      rule matches. */
  function ReplyFor(msg: WAMessage, rules: seq<AutoReply.Rule>): (r: Option<Outgoing>)
    ensures r.Some? ==> Qualifies(msg) && r.value.jid == msg.key.remoteJid
    ensures r.Some? ==> exists rule :: rule in rules && AutoReply.Matches(EntryOf(msg).text, rule)
                                       && r.value.text == rule.reply
    ensures r.Some? ==> var k := AutoReply.FirstMatch(rules, EntryOf(msg).text);
                        k.Some? && r.value.text == rules[k.value].reply
    ensures r.None? <==> !Qualifies(msg)
                         || forall rule :: rule in rules ==> !AutoReply.Matches(EntryOf(msg).text, rule)
  {
    if !Qualifies(msg) then None
    else
      match AutoReply.Find(rules, EntryOf(msg).text)
      case None => None
      case Some(rule) => Some(Outgoing(msg.key.remoteJid, rule.reply))
  }

  function AsSeq<T>(o: Option<T>): (s: seq<T>)
    ensures o.None? ==> s == []
    ensures o.Some? ==> s == [o.value]
  {
    if o.Some? then [o.value] else []
  }

  /** The gateway's state: the session registry, the inbox files, the
      credential folders on disk and the pending restart timers. */
  class Gateway {
    const registry: Registry<Session>
    const inbox: InboxStore
    /** Ids whose `auth_info/auth_<id>` folder exists. */
    var credentials: set<string>
    /** Session ids with a restart timer pending, in firing order (all timers
        share the same 2000 ms delay, so they fire in the order they were set). */
    var restarts: seq<string>

    constructor ()
      ensures fresh(registry) && fresh(inbox)
      ensures registry.sessions == map[] && inbox.files == map[]
      ensures credentials == {} && restarts == []
    {
      registry := new Registry<Session>();
      inbox := new InboxStore();
      credentials, restarts := {}, [];
    }

    /** The handle registered under `id`, as a frame. */
    function HandleOf(id: string): set<object>
      reads this, registry
    {
      if id in registry.sessions then {registry.sessions[id]} else {}
    }

    /** The socket of the handle registered under `id`, as a frame. */
    function SocketOf(id: string): set<object>
      reads this, registry
    {
      if id in registry.sessions then {registry.sessions[id].sock} else {}
    }

    /** `sessionRepo.get(id)?.sock.user`: None when no session is registered
        under `id`, otherwise the registered socket's `user`. */
    function UserOf(id: string): (r: Option<Option<string>>)
      reads this, registry, SocketOf(id)
      ensures r.None? <==> id !in registry.sessions
      ensures r.Some? ==> r.value == registry.sessions[id].sock.user
    {
      if id in registry.sessions then Some(registry.sessions[id].sock.user) else None
    }

    /** `startSock`: load (or create) the credential folder, make a socket from
        it and register a fresh handle `{ sock, lastQr: null }` under
        `sessionId`, replacing any handle already there. `stored` is the
        identity the provider finds in an existing folder; a folder created
        now holds none, so its socket starts unpaired. When loading the
        credentials rejects, nothing is registered and the rejection is
        returned. */
    method StartSock(sessionId: string, authState: Outcome, stored: Option<string>) returns (result: Outcome)
      modifies this, registry
      ensures result == authState
      ensures restarts == old(restarts)
      ensures result.Failed? ==> registry.sessions == old(registry.sessions) && credentials == old(credentials)
      ensures result == Done ==> credentials == old(credentials) + {sessionId}
      ensures result == Done ==> sessionId in registry.sessions
      ensures result == Done ==>
        var session := registry.sessions[sessionId];
        && registry.sessions == old(registry.sessions)[sessionId := session]
        && fresh(session) && fresh(session.sock)
        && session.lastQr == None
        && session.sock.user == (if sessionId in old(credentials) then stored else None)
        && session.sock.outbox == [] && !session.sock.loggedOut
    {
      result := authState;
      if authState.Failed? {
        return;
      }
      var user := if sessionId in credentials then stored else None;
      credentials := credentials + {sessionId};
      var sock := new Socket(user);
      var session := new Session(sock);
      registry.Add(sessionId, session);
    }

    /** The `connection.update` handler of the socket started for `sessionId`.
        It looks the session up in the registry by id, stores a truthy `qr`,
        clears it on `open`, and on `close` schedules one restart. `threw`
        reports the TypeError raised when the session is no longer registered
        and the handler has a QR or an `open` to record; it then stops there. */
    method OnConnectionUpdate(sessionId: string, u: ConnectionUpdate) returns (threw: bool)
      modifies this, HandleOf(sessionId)
      ensures threw == UpdateThrows(sessionId in registry.sessions, u)
      ensures sessionId in registry.sessions ==>
        registry.sessions[sessionId].lastQr == QrAfter(old(registry.sessions[sessionId].lastQr), u)
      ensures restarts == old(restarts) + RestartsFor(sessionId, sessionId in registry.sessions, u)
      ensures credentials == old(credentials)
    {
      var session := registry.Get(sessionId);
      threw := false;
      if Truthy(u.qr) {
        if session.None? {
          threw := true;
          return;
        }
        session.value.lastQr := u.qr;
      }
      if u.connection == Some(Open) {
        if session.None? {
          threw := true;
          return;
        }
        session.value.lastQr := None;
      }
      if u.connection == Some(Close) {
        restarts := restarts + [sessionId];
      }
    }

    /** A pending restart timer fires: the oldest one runs `startSock` for its
        session id, which reloads that session's credential folder (`stored`
        is the identity found there). A rejection of that call is not handled
        by anyone. */
    method FireRestart(authState: Outcome, stored: Option<string>) returns (sessionId: string)
      requires restarts != []
      modifies this, registry
      ensures sessionId == old(restarts[0])
      ensures restarts == old(restarts[1..])
      ensures authState.Failed? ==> registry.sessions == old(registry.sessions) && credentials == old(credentials)
      ensures authState == Done ==> credentials == old(credentials) + {sessionId}
      ensures authState == Done ==> sessionId in registry.sessions
      ensures authState == Done ==>
        var session := registry.sessions[sessionId];
        && registry.sessions == old(registry.sessions)[sessionId := session]
        && fresh(session) && fresh(session.sock) && session.lastQr == None
        && session.sock.user == (if sessionId in old(credentials) then stored else None)
        && session.sock.outbox == []
    {
      sessionId := restarts[0];
      restarts := restarts[1..];
      var _ := StartSock(sessionId, authState, stored);
    }

    /** The `messages.upsert` handler of the socket `sock` started for
        `sessionId`. Only `messages[0]` is looked at; if it is from someone else
        and has a body, its entry is appended to the session's inbox, and then
        the first matching rule's reply, if any, is sent back to the sender on
        the same socket. The send is not awaited, so its outcome changes
        nothing here. `threw` reports an empty batch (`messages[0].key` throws). */
    method OnMessagesUpsert(sessionId: string, sock: Socket, messages: seq<WAMessage>,
                            rules: seq<AutoReply.Rule>, replyOutcome: Outcome)
      returns (threw: bool)
      modifies inbox, sock
      ensures threw <==> messages == []
      ensures !threw && Qualifies(messages[0]) ==>
        inbox.files == Saved(old(inbox.files), sessionId, EntryOf(messages[0]))
      ensures threw || !Qualifies(messages[0]) ==> inbox.files == old(inbox.files)
      ensures sock.outbox == old(sock.outbox) + (if threw then [] else AsSeq(ReplyFor(messages[0], rules)))
      ensures sock.user == old(sock.user) && sock.loggedOut == old(sock.loggedOut)
    {
      if messages == [] {
        return true;
      }
      threw := false;
      var msg := messages[0];
      if !msg.key.fromMe && msg.message.Some? {
        var messageData := EntryOf(msg);
        inbox.SaveMessage(sessionId, messageData);
        var reply := AutoReply.Find(rules, messageData.text);
        if reply.Some? {
          var _ := sock.SendMessage(msg.key.remoteJid, reply.value.reply, replyOutcome);
        }
      }
    }

    /** `resetSession`: delete the credential folder if present, ask the
        registered socket (if any) to log out and ignore its answer, then
        unregister the session. It never fails. */
    method ResetSession(sessionId: string, logoutOutcome: Outcome)
      modifies this, registry, SocketOf(sessionId)
      ensures credentials == old(credentials) - {sessionId}
      ensures registry.sessions == old(registry.sessions) - {sessionId}
      ensures restarts == old(restarts)
      ensures sessionId in old(registry.sessions) ==>
        var sock := old(registry.sessions[sessionId].sock);
        && sock.loggedOut == (old(sock.loggedOut) || logoutOutcome == Done)
        && sock.user == old(sock.user) && sock.outbox == old(sock.outbox)
    {
      if sessionId in credentials {
        credentials := credentials - {sessionId};
      }
      var session := registry.Get(sessionId);
      if session.Some? {
        var _ := session.value.sock.Logout(logoutOutcome);
      }
      registry.Remove(sessionId);
    }
  }
}
