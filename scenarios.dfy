/** Request sequences a client of the gateway runs, proved from the
    contracts of the handlers and the service alone. */
module Scenarios {
  import opened Wrappers
  import opened Service
  import opened Controller
  import InboxRepo
  import AutoReply

  /** Starting a session twice: the second start is refused with 400 and the
      handle registered by the first one stays in place. */
  method DuplicateStart() returns (first: Response, second: Response, intact: bool)
    ensures first == Json(200, Message(true, "Session s1 started!"))
    ensures second == BadRequest(AlreadyExists)
    ensures intact
  {
    var g := new Gateway();
    first := StartSession(g, Some("s1"), Done, None);
    assert "Session " + "s1" + " started!" == "Session s1 started!";
    var handle := g.registry.sessions["s1"];
    second := StartSession(g, Some("s1"), Done, None);
    intact := "s1" in g.registry.sessions && g.registry.sessions["s1"] == handle;
  }

  /** Start, receive a QR, pair, open, close, let the restart timer fire: the
      QR is surfaced until `open`, the session reads as connected while open,
      one restart is scheduled by the close, and the restarted session, built
      from the same credential folder with the paired identity in it, reads as
      connected again with that identity. */
  method ConnectThenDrop() returns (qrBeforeOpen: Option<string>, whileOpen: Response,
                                    scheduled: seq<string>, afterRestart: Response)
    ensures qrBeforeOpen == Some("qr-1")
    ensures whileOpen == Json(200, SessionStatus("connected", Some("6281234567")))
    ensures scheduled == ["s1"]
    ensures afterRestart == Json(200, SessionStatus("connected", Some("6281234567")))
  {
    var g := new Gateway();
    var _ := StartSession(g, Some("s1"), Done, None);
    var threw := g.OnConnectionUpdate("s1", ConnectionUpdate(None, Some("qr-1")));
    qrBeforeOpen := g.registry.sessions["s1"].lastQr;
    g.registry.sessions["s1"].sock.SetUser(Some("6281234567"));
    threw := g.OnConnectionUpdate("s1", ConnectionUpdate(Some(Open), None));
    whileOpen := CheckSession(g, "s1");
    threw := g.OnConnectionUpdate("s1", ConnectionUpdate(Some(Close), None));
    scheduled := g.restarts;
    var restarted := g.FireRestart(Done, Some("6281234567"));
    afterRestart := CheckSession(g, "s1");
  }

  /** A session that is not logged in refuses to send, even to a valid number,
      and hands nothing to its socket. */
  method SendBeforeLogin() returns (resp: Response, handed: seq<Outgoing>)
    ensures resp == BadRequest(NotConnected)
    ensures handed == []
  {
    var g := new Gateway();
    var _ := StartSession(g, Some("s1"), Done, None);
    var sock := g.registry.sessions["s1"].sock;
    resp := SendMessage(g, Some("s1"), Some("081234567"), Some("hello"), Done);
    handed := sock.outbox;
  }

  /** An inbound `Hi there` under the rules `hi -> A`, `hi there -> B` is
      stored in the inbox and answered once, with `A`, to its sender. */
  method InboundWithAutoReply() returns (inbox: seq<InboxRepo.Entry>, replies: seq<Outgoing>)
    ensures inbox == [InboxRepo.Entry("628111@s.whatsapp.net", "Hi there", 1700000000, "m1")]
    ensures replies == [Outgoing("628111@s.whatsapp.net", "A")]
  {
    var g := new Gateway();
    var _ := StartSession(g, Some("s1"), Done, None);
    var sock := g.registry.sessions["s1"].sock;
    var rules := [AutoReply.Rule("hi", "A"), AutoReply.Rule("hi there", "B")];
    var msg := WAMessage(MessageKey("628111@s.whatsapp.net", false, "m1"),
                         Some(Content(Some("Hi there"), None)), 1700000000);
    AutoReply.FirstMatchWinsExample();
    var threw := g.OnMessagesUpsert("s1", sock, [msg], rules, Done);
    inbox := g.inbox.GetInbox("s1");
    replies := sock.outbox;
  }

  /** Start, pair, reset: the reset deletes the credential folder, so the
      session started again in its place is unpaired and reads as
      disconnected, while the old socket keeps its identity and is logged out. */
  method ResetUnpairs() returns (afterReset: Response, oldUser: Option<string>, oldLoggedOut: bool)
    ensures afterReset == Json(200, SessionStatus("disconnected", None))
    ensures oldUser == Some("6281234567")
    ensures oldLoggedOut
  {
    var g := new Gateway();
    var _ := StartSession(g, Some("s1"), Done, None);
    var sock := g.registry.sessions["s1"].sock;
    sock.SetUser(Some("6281234567"));
    var _ := Controller.ResetSession(g, Some("s1"), Done, Done);
    afterReset := CheckSession(g, "s1");
    oldUser, oldLoggedOut := sock.user, sock.loggedOut;
  }
}
