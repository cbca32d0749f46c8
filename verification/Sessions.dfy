/**
 The engines of one agent, one per session.
 */
module Sessions {
  import opened Wrappers
  import opened Topics
  import opened Engine

  class SessionManager {
    var sessions: map<string, AgentEngine>

    constructor ()
      ensures sessions == map[] && Isolated()
    {
      sessions := map[];
    }

    /** No engine, and no topic state, serves two sessions. */
    ghost predicate Isolated()
      reads this
    {
      forall a, b | a in sessions && b in sessions && a != b ::
        sessions[a] != sessions[b] && sessions[a].topics != sessions[b].topics
    }

    /** The engine of a session: created once from the stored history, the same object ever after. */
    method GetOrCreate(sessionId: string, restored: seq<MessageEntry>, words: string -> set<string>, topicId: string)
      returns (engine: AgentEngine)
      requires Isolated()
      modifies this
      ensures Isolated()
      ensures sessionId in sessions && engine == sessions[sessionId]
      ensures forall k | k in old(sessions) :: k in sessions && sessions[k] == old(sessions[k])
      ensures forall k | k in sessions :: k in old(sessions) || k == sessionId
      ensures sessionId !in old(sessions) ==>
                fresh(engine) && engine.State() == EngineState(restored, topicId) && engine.topics.recentMessages == []
                && engine.topics.words == words && engine.topics.knownTopics == []
    {
      if sessionId in sessions {
        return sessions[sessionId];
      }
      var topics := new TopicManager(words, topicId);
      engine := new AgentEngine(topics, restored);
      sessions := sessions[sessionId := engine];
    }
  }
}
