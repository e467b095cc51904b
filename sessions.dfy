/**
 * The in-memory chat history store: a process-wide dictionary from session
 * id to a history object, filled lazily by `get_session_history`.
 */
module Sessions {

  datatype ChatMessage = HumanMessage(content: string) | AIMessage(content: string)

  /** An `InMemoryChatMessageHistory`: a list of messages that starts empty. */
  class ChatHistory {
    var messages: seq<ChatMessage>

    constructor ()
      ensures messages == []
    {
      messages := [];
    }
  }

  /** The module-level `store` dictionary of the chatbot, as an object. */
  class SessionStore {
    var store: map<string, ChatHistory>

    /** No two sessions share a history object. */
    ghost predicate Valid()
      reads this
    {
      forall a, b :: a in store && b in store && a != b ==> store[a] != store[b]
    }

    /** `store = {}` */
    constructor ()
      ensures Valid() && store == map[]
    {
      store := map[];
    }

    /**
     * `get_session_history(session_id)`: the history stored for the session,
     * created empty and stored on first use. No other session's entry and no
     * history's messages change.
     */
    method GetSessionHistory(sessionId: string) returns (history: ChatHistory)
      requires Valid()
      modifies this
      ensures Valid()
      ensures sessionId in store && store[sessionId] == history
      ensures sessionId in old(store) ==> store == old(store)
      ensures sessionId !in old(store) ==>
                fresh(history) && history.messages == [] && store == old(store)[sessionId := history]
    {
      if sessionId !in store {
        var created := new ChatHistory();
        store := store[sessionId := created];
      }
      history := store[sessionId];
    }
  }

  /**
   * Two lookups of one session give the same history object, and a lookup of
   * another session in between neither changes it nor shares it.
   */
  method RepeatedLookup(sessions: SessionStore, id: string, other: string)
    returns (first: ChatHistory, second: ChatHistory)
    requires sessions.Valid()
    modifies sessions
    ensures first == second
    ensures sessions.store.Keys == old(sessions.store.Keys) + {id, other}
    ensures other != id ==> sessions.store[other] != first
  {
    first := sessions.GetSessionHistory(id);
    var between := sessions.GetSessionHistory(other);
    second := sessions.GetSessionHistory(id);
  }
}
