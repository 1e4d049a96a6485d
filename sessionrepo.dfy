/** The in-memory session registry (src/repositories/whatsappSessionRepo.js):
    a map from session id to the session's handle. `Add` overwrites whatever
    was registered under the id; rejecting a duplicate start is the
    controller's job, not the registry's. */
module SessionRepo {
  import opened Wrappers

  /** What `get` answers for `id`: the handle, or `undefined` (None). */
  function Lookup<H>(sessions: map<string, H>, id: string): Option<H> {
    if id in sessions then Some(sessions[id]) else None
  }

  class Registry<H> {
    /** The module-level `sessions` object. */
    var sessions: map<string, H>

    constructor ()
      ensures sessions == map[]
    {
      sessions := map[];
    }

    /** `add`: `sessions[sessionId] = sessionData`; never fails. */
    method Add(id: string, handle: H)
      modifies this
      ensures sessions == old(sessions)[id := handle]
      ensures Lookup(sessions, id) == Some(handle)
      ensures forall other :: other != id ==> Lookup(sessions, other) == Lookup(old(sessions), other)
    {
      sessions := sessions[id := handle];
    }

    /** `get`: the handle registered under `id`, if any; reads only. */
    method Get(id: string) returns (r: Option<H>)
      ensures r.Some? <==> id in sessions
      ensures r.Some? ==> r.value == sessions[id]
    {
      if id in sessions {
        r := Some(sessions[id]);
      } else {
        r := None;
      }
    }

    /** `remove`: `delete sessions[sessionId]`; a no-op when `id` is absent. */
    method Remove(id: string)
      modifies this
      ensures sessions == old(sessions) - {id}
      ensures Lookup(sessions, id) == None
      ensures forall other :: other != id ==> Lookup(sessions, other) == Lookup(old(sessions), other)
      ensures id !in old(sessions) ==> sessions == old(sessions)
    {
      sessions := sessions - {id};
    }

    /** `exists`: `sessionId in sessions`; reads only. */
    method Exists(id: string) returns (b: bool)
      ensures b <==> Lookup(sessions, id).Some?
    {
      b := id in sessions;
    }
  }

  /** Removing an id twice from a registry holding `initial` leaves what
      removing it once does. */
  method RemoveIdempotent<H>(initial: map<string, H>, id: string)
    returns (once: map<string, H>, twice: map<string, H>)
    ensures once == initial - {id}
    ensures twice == once
  {
    var registry := new Registry<H>();
    registry.sessions := initial;
    registry.Remove(id);
    once := registry.sessions;
    registry.Remove(id);
    twice := registry.sessions;
  }

  /** Two `add` calls under one id leave only the second handle: the first is
      replaced outright and every other id keeps what `initial` held. */
  method AddReplaces<H>(initial: map<string, H>, id: string, first: H, second: H)
    returns (after: map<string, H>)
    ensures after == initial[id := second]
    ensures Lookup(after, id) == Some(second)
  {
    var registry := new Registry<H>();
    registry.sessions := initial;
    registry.Add(id, first);
    registry.Add(id, second);
    after := registry.sessions;
  }
}
