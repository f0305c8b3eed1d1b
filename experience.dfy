/**
 * The values the agent exchanges with its collaborators: game snapshots,
 * actions, network weights and the transitions handed to the replay memory.
 */
module Experience {

  /** An opaque snapshot of the game grid, as returned by getState() and step(). */
  type GameState = seq<seq<int>>

  /** An index into the game's fixed enumeration of actions (ALL_ACTIONS). */
  type Action = nat

  /** The weights of a network; the agent only reads, replaces and copies them. */
  type Weights = seq<real>

  /** One `[state, action, reward, done, nextState]` record of experience. */
  datatype Transition = Transition(
    state: GameState,
    action: Action,
    reward: real,
    done: bool,
    nextState: GameState)
}
