/**
 * The session store (app/memory.py): one process-wide map from session id to a chat
 * history, with the history created on first use.
 */
module Memory {

  /** An in-memory chat history: the messages of one session, appended in place. */
  class History {
    var messages: seq<string>

    constructor ()
      ensures messages == []
    {
      messages := [];
    }

    /** Adds one message at the end of this history and touches nothing else. */
    method AddMessage(m: string)
      modifies this
      ensures messages == old(messages) + [m]
    {
      messages := messages + [m];
    }
  }

  /** `_STORE`: session id to history. */
  class SessionStore {
    var store: map<string, History>

    /** Distinct sessions never share a history object. */
    ghost predicate Valid()
      reads this
    {
      forall a, b :: a in store && b in store && a != b ==> store[a] != store[b]
    }

    constructor ()
      ensures store == map[] && Valid()
    {
      store := map[];
    }

    /**
     * `get_session_history`: the history stored under `sessionId`, created empty and
     * stored on first use. Other sessions, and every existing history, are untouched.
     */
    method GetSessionHistory(sessionId: string) returns (h: History)
      requires Valid()
      modifies this
      ensures Valid()
      ensures sessionId in store && store[sessionId] == h
      ensures sessionId in old(store) ==> store == old(store)
      ensures sessionId !in old(store) ==> fresh(h) && h.messages == [] && store == old(store)[sessionId := h]
      ensures store.Keys == old(store.Keys) + {sessionId}
      ensures forall id :: id in old(store) ==> store[id] == old(store)[id] && store[id].messages == old(store[id].messages)
    {
      if sessionId !in store {
        var created := new History();
        store := store[sessionId := created];
      }
      h := store[sessionId];
    }
  }

  /** Asking twice for the same session gives the same history object, and the second call changes nothing. */
  method GetTwice(s: SessionStore, sessionId: string) returns (h1: History, h2: History)
    requires s.Valid()
    modifies s
    ensures s.Valid()
    ensures sessionId in s.store && h1 == h2 && s.store[sessionId] == h1
  {
    h1 := s.GetSessionHistory(sessionId);
    ghost var between := s.store;
    h2 := s.GetSessionHistory(sessionId);
    assert s.store == between;
  }

  /** Appending to one session's history leaves every other session's messages as they were. */
  method AppendToSession(s: SessionStore, sessionId: string, m: string)
    requires s.Valid()
    modifies s, s.store.Values
    ensures s.Valid()
    ensures s.store.Keys == old(s.store.Keys) + {sessionId}
    ensures s.store[sessionId].messages ==
              (if sessionId in old(s.store) then old(s.store[sessionId].messages) else []) + [m]
    ensures forall id :: id in old(s.store) && id != sessionId ==>
              s.store[id] == old(s.store[id]) && s.store[id].messages == old(s.store[id].messages)
  {
    var h := s.GetSessionHistory(sessionId);
    h.AddMessage(m);
  }
}
