# FastResetWrapper, modelled in Dafny

MineDojo's `FastResetWrapper` wraps a Minecraft simulator. After the first
episode it stops regenerating the world. Instead, it resets an episode by
replaying a fixed list of in-game commands: kill, set time, set weather,
refill the inventory, teleport to the start, clear the ground. It can then
move the agent a random distance away from its first position with
`/spreadplayers`, followed by 20 "respread if standing on leaves" commands.

The model has four modules:

- `Base` (base.dfy): `Option`, `Result`, positions, and Python's `int()` on a float (`Truncate`).
- `Commands` (commands.dfy): one datatype constructor per command string. Each carries the values the string interpolates.
- `Simulation` (simulator.dfy): the wrapped simulator as an opaque oracle class.
  - Every `reset()` and `execute_cmd(cmd)` is appended to a ghost `log`.
  - Each call answers with an arbitrary observation, recorded in the ghost `replies`.
  - `Issued(cmds)` is the log entries that executing `cmds` in order produces.
- `FastReset` (fast_reset.dfy): the wrapper.
  - `CheckRange` covers the teleport-range handling of `__init__`.
  - `ResetCommands` is the reference definition of `_reset_cmds`, and `BuildResetCommands` is the constructor's appending loop, proved equal to it.
  - `LaterResetCommands` is everything a later reset issues, in order.
  - The class `FastResetWrapper` has the constructor, `Create` (construction that can fail) and `Reset`, which is split into the three phases of the source's `reset`.
  - `moveFlag`, `low`, `high` and `resetCmds` are `const`: the source never reassigns them after `__init__`. `serverStart`, `initPosition` and `birthPosition` are the fields `reset` updates.

scenario.dfy is a client. It replays the usage of the repository's test
script (range 0 to 300, ground cleared) through the contracts alone: the
first reset issues no command, and the second issues the five reset commands,
one spread and 20 retries, and records the new birth position.

Two details of the source are reproduced as written:

- `init_position` read from an observation takes its `y` from `pos[2]` and its `z` from `pos[1]` (`InitPositionOf`). The spread is centred on `init_position`'s `x` and `y` (`SpreadCentre`), which are then the two horizontal coordinates.
- When a start position is configured, `init_position` is `{x, y, z}` of that position. The spread centre then uses the start position's vertical `y` as its second coordinate.

Four further details of the code that the model keeps:

- The sampled distance comes from `random.uniform(low, high)` (fast_reset.py:122), which may return `high` itself. `Reset` therefore accepts any `relDis` with `low <= relDis <= high`.
- The return to `birth_position` is an absolute `/tp x y z ~ ~` (fast_reset.py:116).
- `init_position` is set at construction when a start position is configured (fast_reset.py:86). Otherwise it is set from the first replayed command's observation (fast_reset.py:111-113).
- The `high > 0` guard of `reset` (fast_reset.py:121) can never fail on a constructed wrapper (`EffectiveMove`).

## Model

| member | source | states |
|---|---|---|
| `Base.Truncate` | minedojo/sim/wrappers/fast_reset.py:124 | `int()` of a float: the result lies within 1 of the input, on the zero side of it (floor for non-negative, ceiling for negative). |
| `FastReset.CheckRange` | minedojo/sim/wrappers/fast_reset.py:50-64 | Construction is accepted exactly when both effective bounds are non-negative and high > low. The first failing assertion (high, then low, then order) names the error. Missing high is 20 and missing low is 0. Moving is enabled exactly when at least one bound was given. An accepted range has 0 <= low < high. |
| `FastReset.StartWeather` | minedojo/sim/wrappers/fast_reset.py:71 | `start_weather or "normal"`: the configured weather when it is set and non-empty, otherwise "normal"; never an empty string. |
| `FastReset.ReplaceItemsSpec` | minedojo/sim/wrappers/fast_reset.py:73-78 | One `/replaceitem` command per inventory item: as many commands as items, item i giving command i. |
| `FastReset.ResetCommandsShape` | minedojo/sim/wrappers/fast_reset.py:67-91 | `_reset_cmds` is kill, time (`start_time or 0`), weather, the item commands in inventory order, the start teleport when a start position is given, and the two entity kills last when the ground is cleared. Its length is 3 + items + [start] + 2·[clear]. |
| `FastReset.BuildResetCommands` | minedojo/sim/wrappers/fast_reset.py:67-91 | The constructor's appends, including the loop over the inventory, produce exactly `ResetCommands`. |
| `FastReset.SpreadCentre` | minedojo/sim/wrappers/fast_reset.py:124 | The spread centre is `init_position`'s x and y, each truncated toward zero: less than 1 away and never farther from zero than the coordinate. |
| `FastReset.RepeatSpec` | minedojo/sim/wrappers/fast_reset.py:127-130 | The retry block is exactly n copies of the same leaves command. |
| `FastReset.LaterResetShape` | minedojo/sim/wrappers/fast_reset.py:108-130 | A later reset issues `_reset_cmds` unchanged and first. Next comes one `/tp` to the birth position exactly when one exists. On a move, one `/spreadplayers` at distance d with range d+1 follows, then exactly 20 leaves retries. The total count is \|cmds\| + [birth] + 21·[move]. |
| `FastReset.FastResetWrapper.constructor` | minedojo/sim/wrappers/fast_reset.py:38-95 | Once the range checks pass: `_move_flag`, low and high come from `CheckRange`, `_reset_cmds` is `ResetCommands`, `init_position` is the start position if configured and unset otherwise, the server is not started, and there is no birth position. |
| `FastReset.FastResetWrapper.Create` | minedojo/sim/wrappers/fast_reset.py:29-95 | Construction fails exactly when `CheckRange` fails, with its error. Otherwise it yields a fresh, valid wrapper in the constructor's initial state. |
| `FastReset.FastResetWrapper.EffectiveMove` | minedojo/sim/wrappers/fast_reset.py:102-103 | A reset moves exactly when the caller asks to and moving was configured. The `high > 0` test (line 121) never blocks a move. |
| `FastReset.FastResetWrapper.InfoPrevReset` | minedojo/sim/wrappers/fast_reset.py:174-176 | `info_prev_reset` is always None: `_info_prev_reset` is set to None at line 94 and never written again. |
| `FastReset.FastResetWrapper.Reset` | minedojo/sim/wrappers/fast_reset.py:101-136 | First call: marks the server started, makes exactly one full reset and no command, returns that observation, and leaves both positions alone. Later calls: the log grows by exactly `LaterResetCommands`. `init_position` is kept once set, or else read from the first command's reply with y/z swapped. `birth_position` is the last observation's position after a move and unchanged otherwise. The observation of the last call made is returned. |
| `FastReset.FastResetWrapper.LaterReset` | minedojo/sim/wrappers/fast_reset.py:107-136 | The `else` branch of `reset` for a given effective move flag: the same log, position and return guarantees as the later-call case of `Reset`. |
| `FastReset.FastResetWrapper.ReplayResetCommands` | minedojo/sim/wrappers/fast_reset.py:108-113 | Executes exactly `_reset_cmds` in order, one reply each, and returns the last reply. `init_position` is set from the first reply only when it was unset. |
| `FastReset.FastResetWrapper.ReturnToBirth` | minedojo/sim/wrappers/fast_reset.py:115-117 | Issues one `/tp` to `birth_position` exactly when it is set. The returned observation is the latest reply either way. |
| `FastReset.FastResetWrapper.SpreadFrom` | minedojo/sim/wrappers/fast_reset.py:121-133 | Issues one spread and exactly 20 leaves retries around the centre. `birth_position` becomes the position (in x, y, z order) of the last retry's reply, which is also returned. |
| `Simulation.Simulator.Reset` | minedojo/sim/wrappers/fast_reset.py:106 | The collaborator's `env.reset()`: one full-reset entry is logged and its observation recorded. |
| `Simulation.Simulator.ExecuteCmd` | minedojo/sim/wrappers/fast_reset.py:110 | The collaborator's `env.execute_cmd(cmd)`: exactly that command is logged and its observation recorded. |
| `Simulation.IssuedSpec` | minedojo/sim/wrappers/fast_reset.py:108-110 | Executing a command list in order logs one entry per command, in the same order. |

## Left out

- The pass-through methods and properties (`random_teleport`, `execute_cmd`, `spawn_mobs`, `set_block`, `clear_inventory`, `set_inventory`, `teleport_agent`, `kill_agent`, `set_time`, `set_weather`, `prev_obs`, `prev_info`, `prev_action`, `is_terminated`): each only forwards to the simulator and holds no logic.
- The health/food warning of `__init__`: it only prints a message.
- The unused `random_teleport_range` argument, the `set_start_position` flag (written, never read), `TRANS_SLOPE` and the unused imports: they affect no behaviour.
- The textual form of each command, including the float formatting of the spread distance: commands are datatype values that carry the interpolated values.
- `parse_inventory_item` and `map_slot_number_to_cmd_slot` are not part of this model. A `/replaceitem` command carries the configured inventory entry unparsed.
- The distribution of `random.uniform`: the drawn distance is a parameter of `Reset`, known only to lie in [low, high].
- Reset: requires the drawn distance to lie in [low, high] even on a call that does not move, where the value goes unused.
- The simulator's behaviour: world state, the meaning of the commands, and everything in an observation except `location_stats["pos"]`. The reward, done flag and info that `execute_cmd` returns are never used by the wrapper and are dropped.
- Python's `-O` flag, which removes `assert` statements: construction is modelled with its assertions in force, and a failed assertion becomes `Failure` of `Create`.
- Failures of the simulator: `reset()` and `execute_cmd` always answer in the model, whereas in the source an exception propagates out of `reset`. So the model does not show that a failing first `env.reset()` leaves `_server_start` already true (fast_reset.py:105-106), nor that a replay failing part-way keeps the `init_position` read from its first command (fast_reset.py:111-113).
- The default arguments `move_flag=True` of `reset` (fast_reset.py:101) and `clear_ground=True` of `__init__` (fast_reset.py:36): Dafny callers pass both explicitly.
- The repository's test script: it drives the simulator and writes GIF files. Its configuration appears only as the scenario in scenario.dfy.
