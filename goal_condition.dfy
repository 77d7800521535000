/** GoalCondition: the episode is done for every agent as soon as a goal
    has been scored. */
module GoalCondition {
  import opened Api

  /** `reset` keeps no bookkeeping: shared info comes back as it went in. */
  function Reset(initialState: GameState, sharedInfo: SharedInfo): (info: SharedInfo)
    ensures info == sharedInfo
  {
    sharedInfo
  }

  /** One entry per agent, each the snapshot's `goal_scored` flag. The
      shared info is only read, so `is_done` cannot change it. */
  function IsDone(agents: seq<AgentID>, state: GameState, sharedInfo: SharedInfo): (dones: map<AgentID, bool>)
    ensures dones.Keys == AgentSet(agents)
    ensures forall a :: a in dones ==> dones[a] == state.goalScored
  {
    map a | a in agents :: state.goalScored
  }

  /** The verdict does not depend on the agent. */
  lemma SameVerdictForAll(agents: seq<AgentID>, state: GameState, sharedInfo: SharedInfo, a: AgentID, b: AgentID)
    requires a in agents && b in agents
    ensures a in IsDone(agents, state, sharedInfo) && b in IsDone(agents, state, sharedInfo)
    ensures IsDone(agents, state, sharedInfo)[a] == IsDone(agents, state, sharedInfo)[b]
  {
  }

  /** No agents, no verdicts. */
  lemma NoAgentsNoVerdicts(state: GameState, sharedInfo: SharedInfo)
    ensures IsDone([], state, sharedInfo) == map[]
  {
  }
}
