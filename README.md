# rlgym episode start and done conditions, in Dafny

This project models three pieces of the rlgym reinforcement-learning environment for Rocket League:

- **`RandomState`** is the state setter that starts an episode. It writes a random position for the ball, then a random position and rotation for each car, into a mutable state wrapper. Velocities are given only when a probability draw passes. A second draw per car may snap the car onto the ground.
- **`AllCondition`** combines child done conditions. Its `reset` forwards to every child in order. Its `is_done` builds a per-agent dictionary from the children's verdicts.
- **`GoalCondition`** is the done condition that maps every agent to the snapshot's `goal_scored` flag.

Files:

- `api.dfy` (module `Api`): agent identifiers, the game-state snapshot and the shared-info dictionary.
- `goal_condition.dfy` (module `GoalCondition`): pure functions, as in the source.
- `all_condition.dfy` (module `AllCondition`):
  - a class whose methods loop over the children;
  - a `Condition` datatype for a child, either a GoalCondition or any other condition given by its behaviour;
  - the intended conjunction, as a separate function.
- `state_wrapper.dfy` (module `StateWrapper`): the state wrapper as a class. The ball is a record and the cars are an array of records. Setters take an optional value per axis.
- `random_state.dfy` (module `RandomState`):
  - the constants;
  - the draw records;
  - two specification functions, `BallAfterReset` and `CarAfterReset`;
  - the `RandomState` class, whose methods call the partial setters in the source's order and are proved equal to those functions.

How the model is set up:

- **Random draws** are parameters. Each value lies in the range its distribution can produce. Uniform and triangular draws lie in their closed range, `random()` in [0, 1), and `rand_uvec3()` is a unit vector. Reals stand in for floats.
- **The game's common values** are symbolic: the wall positions, ceiling, ball radius and speed maxima. They sit in a `CommonValues` record whose `Valid` predicate states the orderings the sampling ranges need. π is the abstract positive field `pi`.
- **The shared-info dictionary** is threaded as a value from one child call to the next, so each child sees what its predecessors left; this fold fixes the order of the calls. A ghost `calls` log records how many children were called.

Quirks of the code, modelled as written:

- `reset` gates the ball with `cars_rand_speed_prob` and the cars with `ball_rand_speed_prob` (random_state.py:46-47). The constructor's docstring describes the opposite.
- A car's drawn height is bounded above by `Z_MAX_BALL`, not `Z_MAX_CAR` (random_state.py:77).
- The yaw range is `[-YAW_MAX, ROLL_MAX]` (random_state.py:79).
- A grounded car sits at height 17, below `CAR_MARGIN`. The bound "margin ≤ z" therefore holds only for cars that are not grounded.
- The combinator seeds every agent with False and combines with `&=` (all_condition.py:18, 22). Every verdict is therefore False, also with zero children.
- A child that omits a requested agent is not an error: the entry stays False. A child that names an agent that was not requested raises a KeyError.
- Probabilities are not validated.

## Model

| member | source | states |
|---|---|---|
| `GoalCondition.Reset` | rlgym/rocket_league/done_conditions/goal_condition.py:8-9 | `reset` keeps no bookkeeping: the shared info is returned unchanged |
| `GoalCondition.IsDone` | rlgym/rocket_league/done_conditions/goal_condition.py:11-12 | the key set is exactly the set of requested agents; every value is `state.goal_scored`; the shared info is only read |
| `GoalCondition.SameVerdictForAll` | rlgym/rocket_league/done_conditions/goal_condition.py:12 | any two requested agents get the same verdict in one call |
| `GoalCondition.NoAgentsNoVerdicts` | rlgym/rocket_league/done_conditions/goal_condition.py:12 | an empty agent list gives an empty dictionary |
| `AllCondition.AllCondition.constructor` | rlgym/rocket_league/done_conditions/all_condition.py:9-10 | the children are stored as given, in order |
| `AllCondition.AllCondition.Reset` | rlgym/rocket_league/done_conditions/all_condition.py:12-14 | every child's `reset` is called, with the same initial state; the shared info is what the children's resets leave when applied one after another in constructor order |
| `AllCondition.AllCondition.IsDone` | rlgym/rocket_league/done_conditions/all_condition.py:16-24 | for children that return normally: children are called in order, each seeing the shared info its predecessors left. The result is a KeyError exactly when some child names an unrequested agent: no later child is called, and the error names an unrequested agent of the first such child. Otherwise every child was called, the key set is exactly the requested agents and every value is False, whatever the children said, also with zero children or with children that omit agents |
| `AllCondition.AllFalse` | rlgym/rocket_league/done_conditions/all_condition.py:18 | the seed dictionary: key set is the requested agents, every value False |
| `AllCondition.IntendedIsConjunction` | rlgym/rocket_league/done_conditions/all_condition.py:18-22 | the same fold seeded with True has exactly the requested agents as keys. An agent is True exactly when every child that reports it reports True (both directions) |
| `AllCondition.IntendedNoChildren` | rlgym/rocket_league/done_conditions/all_condition.py:18-19 | with zero children the intended result is vacuously True for every agent |
| `AllCondition.SeedDefect` | rlgym/rocket_league/done_conditions/all_condition.py:18-22 | for children that name only requested agents and all report a requested agent True: the modelled `is_done` returns `Done` with that agent False, and the intended fold gives True |
| `AllCondition.GoalConforms` | rlgym/rocket_league/done_conditions/goal_condition.py:12 | a GoalCondition child never names an unrequested agent and leaves the shared info alone, so it never causes a KeyError |
| `AllCondition.SeedDefectExample` | rlgym/rocket_league/done_conditions/all_condition.py:16-24 | children {a: True, b: False} and {a: True, b: True}: the code returns {a: False, b: False}; the intended conjunction is {a: True, b: False} |
| `StateWrapper.Pick` | rlgym/utils/state_setters/random_state.py:93-101 | a partial setter writes an axis that is given and keeps an axis that is omitted |
| `StateWrapper.LaterSetWins` | rlgym/utils/state_setters/random_state.py:91-101 | a later partial write replaces the axes it names and keeps what the earlier write left on the others |
| `StateWrapper.StateWrapper.SetBallPos` | rlgym/utils/state_setters/random_state.py:56-58 | only the named axes of the ball's position change; no car changes |
| `StateWrapper.StateWrapper.SetBallLinVel` | rlgym/utils/state_setters/random_state.py:62 | only the named axes of the ball's linear velocity change; no car changes |
| `StateWrapper.StateWrapper.SetBallAngVel` | rlgym/utils/state_setters/random_state.py:63 | only the named axes of the ball's angular velocity change; no car changes |
| `StateWrapper.StateWrapper.SetCarPos` | rlgym/utils/state_setters/random_state.py:75-77 | only the named axes of one car's position change; other cars and the ball are unchanged |
| `StateWrapper.StateWrapper.SetCarRot` | rlgym/utils/state_setters/random_state.py:78-80 | only the named angles of one car's rotation change; other cars and the ball are unchanged |
| `StateWrapper.StateWrapper.SetCarLinVel` | rlgym/utils/state_setters/random_state.py:86 | only the named axes of one car's linear velocity change; other cars and the ball are unchanged |
| `StateWrapper.StateWrapper.SetCarAngVel` | rlgym/utils/state_setters/random_state.py:87 | only the named axes of one car's angular velocity change; other cars and the ball are unchanged |
| `RandomState.ScaledUnitNormBound` | rlgym/utils/state_setters/random_state.py:84-85 | a magnitude in [0, max] times a unit vector has magnitude at most max |
| `RandomState.ZeroingAxesShrinks` | rlgym/utils/state_setters/random_state.py:95-101 | zeroing some axes of a velocity never makes it longer, so the clamp keeps velocities within their maxima |
| `RandomState.BallAfterReset` | rlgym/utils/state_setters/random_state.py:56-63 | the ball's position is the drawn one, with x in [-X_MAX, X_MAX], y in [-Y_MAX, Y_MAX] and z in [BALL_RADIUS, Z_MAX_BALL]. Velocities are the drawn ones, within BALL_MAX_SPEED and BALL_MAX_ANG_VEL, exactly when the gate draw is below the probability; otherwise the prior velocities are kept |
| `RandomState.CarAfterReset` | rlgym/utils/state_setters/random_state.py:75-101 | x, y and yaw are always the drawn values, in their bounds; yaw lies in [-YAW_MAX, ROLL_MAX]. When the ground draw passes: z = 17, pitch = roll = 0, vertical linear velocity 0, x/y angular velocity 0. Otherwise z is in [CAR_MARGIN, Z_MAX_BALL], pitch in [-π/2, π/2] and roll in [-π, π]. Velocities are drawn only when the speed draw passes, and then stay within CAR_MAX_SPEED and CAR_MAX_ANG_VEL even after the clamp; otherwise the prior values are kept on every axis the clamp does not write |
| `RandomState.ZeroSpeedProbKeepsBallVelocity` | rlgym/utils/state_setters/random_state.py:59-63 | with probability 0 the ball's velocities are never written |
| `RandomState.DefaultOnGroundProbGroundsCar` | rlgym/utils/state_setters/random_state.py:91-101 | with the default on-ground probability 1 (line 26), every car ends at z = 17 with zero pitch, roll, vertical velocity and x/y angular velocity |
| `RandomState.GroundedCarBelowMargin` | rlgym/utils/state_setters/random_state.py:93 | a grounded car's height is below CAR_MARGIN |
| `RandomState.RandomState.constructor` | rlgym/utils/state_setters/random_state.py:23-38 | the three probabilities are stored unchanged; the defaults are 0, 0 and 1 |
| `RandomState.RandomState.Reset` | rlgym/utils/state_setters/random_state.py:40-47 | the ball becomes `BallAfterReset` gated by `cars_rand_speed_prob`. Each car becomes `CarAfterReset` of itself, gated by `cars_on_ground_prob` for the ground and by `ball_rand_speed_prob` for speed. The probabilities are not modified |
| `RandomState.RandomState.ResetBallRandom` | rlgym/utils/state_setters/random_state.py:49-63 | the ball becomes `BallAfterReset` of its old value; no car changes |
| `RandomState.RandomState.ResetCarsRandom` | rlgym/utils/state_setters/random_state.py:65-101 | every car in the list is visited once, with its own draws, and becomes `CarAfterReset` of its old value; the list keeps its length and the ball is unchanged |

## Left out

- The shape of the random distributions (uniform, or triangular with the mode at the lower bound): each draw is an arbitrary value in its range, and statistical properties cannot be stated.
- The order in which the random generators are consumed: the source uses numpy's generator for positions, gates and speeds and Python's `random` for rotations. Draws are grouped per body, and a velocity draw is simply unused when its gate fails.
- `rand_uvec3` (in `rlgym.utils.math`, not part of this model): assumed to return a vector of magnitude 1.
- Floating-point rounding: reals are used.
- The numeric values of `SIDE_WALL_X`, `BACK_WALL_Y`, `CORNER_CATHETUS_LENGTH`, `CEILING_Z`, `BALL_RADIUS` and the speed maxima: `rlgym.utils.common_values` is not part of this model, so they are symbolic.
- numpy's ValueError for a degenerate triangular range: excluded by `CommonValues.Valid`, which `Reset`, `ResetBallRandom` and `ResetCarsRandom` all require.
- The internals of `StateWrapper`, `PhysicsWrapper` and `CarWrapper` (boost, team, identifiers): not part of this model. Only the four partial setters are modelled, from how the source uses them.
- The internals of `GameState` beyond `goal_scored`: the rest of the snapshot is opaque.
- The `StateSetter` and `DoneCondition` base classes and their generics.
- Other done-condition classes, including an AllCondition nested as a child: these are represented by `Condition.Other`, an arbitrary total behaviour.
- A child's own fields: each child is a fixed behaviour for the life of the AllCondition (`conditions` is a constant and `Condition.Other` holds functions), so a child whose `reset` stores bookkeeping on itself, such as a start tick that its `is_done` later reads, cannot be represented. A child's `reset` can affect its later `is_done` only through the shared info, and `AllCondition.AllCondition.Reset` states the effect of the child resets only on the shared info.
- A child whose `reset` or `is_done` raises an exception (for instance a nested AllCondition raising KeyError at all_condition.py:22): `Condition.Other` always returns, so such a child cannot be represented. In the source the exception propagates from line 14 or 20 and no later child is called; the ensures of `AllCondition.AllCondition.Reset` and `AllCondition.AllCondition.IsDone` say nothing about that case.
- Aliasing of the shared-info dictionary: it is passed by reference in the source and threaded as a value here. What a child changes is therefore seen by the next child, as in the source.
- `AllCondition.AllCondition.IsDone`: the KeyError names some unrequested agent of the failing child. Python reports the first such agent in the child's dictionary order; dictionary order is not modelled.
- Concurrency and ownership of a random generator shared across environment instances.

## Findings

| source | as written | input that shows it | evidently intended | confidence | as-written member | corrected member |
|---|---|---|---|---|---|---|
| rlgym/rocket_league/done_conditions/all_condition.py:18 | `combined_dones` is seeded with False and combined with `&=`, so every agent is always False | children {a: True, b: False} and {a: True, b: True} give {a: False, b: False} | the per-agent conjunction of the children's verdicts, {a: True, b: False}: the same fold seeded with True | high; not executed | `AllCondition.SeedDefectExample` | `AllCondition.IntendedIsConjunction` |

The combinator itself keeps the code as written: `AllCondition.AllCondition.IsDone` returns all False. The corrected fold is `AllCondition.IntendedIsDone`. `AllCondition.SeedDefect` runs the modelled `is_done` on any children that name only requested agents and proves that it differs from the corrected fold on every agent that all children report done. `IntendedIsDone` combines only the requested agents: for a child that names an unrequested agent the code raises a KeyError either way, so the two are compared only for children that do not.
