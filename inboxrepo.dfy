/** The inbox store (src/repositories/inboxRepo.js): one JSON file per session
    holding that session's received messages in arrival order. The files are
    modelled as a map from session id to the stored list; a session without a
    file has no key in the map. */
module InboxRepo {

  /** One stored message: `{from, text, timestamp, id}`. */
  datatype Entry = Entry(from: string, text: string, timestamp: int, id: string)

  /** What `getInbox` answers: the stored list, or `[]` when there is no file. */
  function InboxOf(files: map<string, seq<Entry>>, sessionId: string): (r: seq<Entry>)
    ensures sessionId !in files ==> r == []
    ensures sessionId in files ==> r == files[sessionId]
  {
    if sessionId in files then files[sessionId] else []
  }

  /** The files after `saveMessage(sessionId, message)`: the session's list,
      read (or `[]`), with the message pushed at the end, written back. */
  function Saved(files: map<string, seq<Entry>>, sessionId: string, message: Entry)
    : (r: map<string, seq<Entry>>)
    ensures InboxOf(r, sessionId) == InboxOf(files, sessionId) + [message]
    ensures forall other :: other != sessionId ==> InboxOf(r, other) == InboxOf(files, other)
    ensures r.Keys == files.Keys + {sessionId}
  {
    files[sessionId := InboxOf(files, sessionId) + [message]]
  }

  /** The files after saving `messages` one after another, in that order. */
  function SavedAll(files: map<string, seq<Entry>>, sessionId: string, messages: seq<Entry>)
    : map<string, seq<Entry>>
    decreases |messages|
  {
    if messages == [] then files
    else SavedAll(Saved(files, sessionId, messages[0]), sessionId, messages[1..])
  }

  /** N saves to one session leave exactly those N messages, in arrival order,
      after what was stored before: nothing is lost, reordered or duplicated. */
  lemma {:induction false} SavedAllAppends(files: map<string, seq<Entry>>, sessionId: string, messages: seq<Entry>)
    ensures InboxOf(SavedAll(files, sessionId, messages), sessionId) == InboxOf(files, sessionId) + messages
    decreases |messages|
  {
    if messages != [] {
      var next := Saved(files, sessionId, messages[0]);
      SavedAllAppends(next, sessionId, messages[1..]);
      assert InboxOf(files, sessionId) + messages
          == (InboxOf(files, sessionId) + [messages[0]]) + messages[1..];
    }
  }

  /** Saves to one session never touch another session's inbox. */
  lemma {:induction false} SavedAllIsolated(files: map<string, seq<Entry>>, sessionId: string,
                                            messages: seq<Entry>, other: string)
    requires other != sessionId
    ensures InboxOf(SavedAll(files, sessionId, messages), other) == InboxOf(files, other)
    decreases |messages|
  {
    if messages != [] {
      SavedAllIsolated(Saved(files, sessionId, messages[0]), sessionId, messages[1..], other);
    }
  }

  /** The first message saved for a session without a file becomes its whole inbox. */
  lemma SaveFirst(files: map<string, seq<Entry>>, sessionId: string, message: Entry)
    requires sessionId !in files
    ensures InboxOf(Saved(files, sessionId, message), sessionId) == [message]
  {
  }

  class InboxStore {
    /** The `inbox_<sessionId>.json` files, decoded. */
    var files: map<string, seq<Entry>>

    constructor ()
      ensures files == map[]
    {
      files := map[];
    }

    /** `saveMessage`: read the session's list, push the message, write it back. */
    method SaveMessage(sessionId: string, message: Entry)
      modifies this
      ensures files == Saved(old(files), sessionId, message)
    {
      var inbox := if sessionId in files then files[sessionId] else [];
      inbox := inbox + [message];
      files := files[sessionId := inbox];
    }

    /** `getInbox`: the session's stored list, or `[]`; changes nothing. */
    method GetInbox(sessionId: string) returns (inbox: seq<Entry>)
      ensures sessionId in files ==> inbox == files[sessionId]
      ensures sessionId !in files ==> inbox == []
    {
      inbox := if sessionId in files then files[sessionId] else [];
    }
  }
}
