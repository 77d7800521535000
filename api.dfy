/** The types the done conditions exchange with the environment: agent
    identifiers, the game-state snapshot and the shared-info dictionary that
    the harness passes through every call of a step. */
module Api {

  /** An agent identifier: opaque and hashable, strings in practice. */
  type AgentID = string

  /** A value stored in the shared-info dictionary. */
  datatype Value = IntValue(i: int) | RealValue(r: real) | BoolValue(b: bool) | TextValue(s: string)

  /** The shared-info dictionary, seen as its contents at the moment of a call. */
  type SharedInfo = map<string, Value>

  /** The game-state snapshot. Only `goal_scored` is read by the core; the
      rest of the snapshot (ball, cars, tick count) is kept as opaque numbers
      that other done conditions may read. */
  datatype GameState = GameState(goalScored: bool, rest: seq<real>)

  /** The key set of a dictionary built by iterating over `agents`. */
  function AgentSet(agents: seq<AgentID>): (s: set<AgentID>)
    ensures forall a :: a in s <==> a in agents
  {
    set a | a in agents
  }
}
