/** `FastResetWrapper`: resets an episode by replaying a fixed list of in-game
    commands on the running world instead of generating a new one, and can
    move the agent a random distance away from where the world first placed it. */
module FastReset {
  import opened Base
  import opened Commands
  import opened Simulation

  /** Range bounds used when the caller leaves them unset. */
  const DefaultHigh: int := 20
  const DefaultLow: int := 0
  /** Number of "respread if standing on leaves" commands after a spread. */
  const LeavesRetries: nat := 20

  // ---------------------------------------------------------------------------
  // Construction: teleport range
  // ---------------------------------------------------------------------------

  /** Which construction-time assertion failed. */
  datatype RangeError =
    | HighNegative   // random_teleport_range_high >= 0 fails
    | LowNegative    // random_teleport_range_low >= 0 fails
    | EmptyRange     // random_teleport_range_high > random_teleport_range_low fails

  /** The validated range; `enabled` is the wrapper's `_move_flag`. */
  datatype TeleportRange = TeleportRange(enabled: bool, low: int, high: int)

  /** The bound handling of the constructor: the move switch, the defaults,
      and the three assertions, in the order the constructor checks them. */
  function CheckRange(high: Option<int>, low: Option<int>): (r: Result<TeleportRange, RangeError>)
    // accepted exactly when both effective bounds are non-negative and high exceeds low
    ensures r.Success? <==> (high.GetOr(DefaultHigh) >= 0 && low.GetOr(DefaultLow) >= 0
                             && high.GetOr(DefaultHigh) > low.GetOr(DefaultLow))
    // the first failing check decides the error
    ensures r == Failure(HighNegative) <==> high.Some? && high.value < 0
    ensures r == Failure(LowNegative) <==> high.GetOr(DefaultHigh) >= 0 && low.Some? && low.value < 0
    ensures r == Failure(EmptyRange) <==> (high.GetOr(DefaultHigh) >= 0 && low.GetOr(DefaultLow) >= 0
                                           && high.GetOr(DefaultHigh) <= low.GetOr(DefaultLow))
    // a missing bound takes its default; moving is off only when both are missing
    ensures r.Success? ==> r.value.high == (if high.Some? then high.value else 20)
    ensures r.Success? ==> r.value.low == (if low.Some? then low.value else 0)
    ensures r.Success? ==> (r.value.enabled <==> high.Some? || low.Some?)
    ensures r.Success? ==> 0 <= r.value.low < r.value.high
  {
    var enabled := !(high.None? && low.None?);
    var h := if high.None? then DefaultHigh else high.value;
    if !(h >= 0) then Failure(HighNegative)
    else
      var l := if low.None? then DefaultLow else low.value;
      if !(l >= 0) then Failure(LowNegative)
      else if !(h > l) then Failure(EmptyRange)
      else Success(TeleportRange(enabled, l, h))
  }

  // ---------------------------------------------------------------------------
  // Construction: the reset command list
  // ---------------------------------------------------------------------------

  /** `start_time or 0` (0 is the default whether the time is unset or 0). */
  function StartTime(t: Option<int>): int {
    t.GetOr(0)
  }

  /** `start_weather or "normal"`: an unset or empty weather becomes "normal". */
  function StartWeather(w: Option<string>): (r: string)
    ensures w.Some? && w.value != "" ==> r == w.value
    ensures w.None? || w.value == "" ==> r == "normal"
    ensures r != ""
  {
    if w.Some? && w.value != "" then w.value else "normal"
  }

  function InventoryOf(inv: Option<seq<InventoryItem>>): seq<InventoryItem> {
    inv.GetOr([])
  }

  /** One `/replaceitem` command per inventory item, in order. */
  function ReplaceItems(items: seq<InventoryItem>): seq<Cmd>
  {
    if items == [] then [] else ReplaceItems(items[..|items| - 1]) + [ReplaceItem(items[|items| - 1])]
  }

  lemma {:induction false} ReplaceItemsSpec(items: seq<InventoryItem>)
    ensures |ReplaceItems(items)| == |items|
    ensures forall i :: 0 <= i < |items| ==> ReplaceItems(items)[i] == ReplaceItem(items[i])
  {
    if items != [] {
      ReplaceItemsSpec(items[..|items| - 1]);
    }
  }

  /** The two entity-kill commands of `clear_ground`. */
  function ClearGroundCommands(clearGround: bool): seq<Cmd> {
    if clearGround then [KillNonPlayers, KillItems] else []
  }

  function StartTeleport(start: Option<StartPosition>): seq<Cmd> {
    if start.Some? then [TeleportStart(start.value)] else []
  }

  /** `_reset_cmds`, the list a later reset replays. */
  function ResetCommands(config: SimConfig, clearGround: bool): seq<Cmd>
  {
    [KillAll, SetTime(StartTime(config.startTime)), SetWeather(StartWeather(config.initialWeather))]
    + ReplaceItems(InventoryOf(config.initialInventory))
    + StartTeleport(config.startPosition)
    + ClearGroundCommands(clearGround)
  }

  /** The layout of `_reset_cmds`: kill, time, weather, one item command per
      inventory entry in order, the start teleport if a start position is set,
      and the two kill commands last if the ground is cleared. */
  lemma ResetCommandsShape(config: SimConfig, clearGround: bool)
    ensures var cmds := ResetCommands(config, clearGround);
            var inv := InventoryOf(config.initialInventory);
            var tp := if config.startPosition.Some? then 1 else 0;
            && |cmds| == 3 + |inv| + tp + (if clearGround then 2 else 0)
            && cmds[0] == KillAll
            && cmds[1] == SetTime(StartTime(config.startTime))
            && cmds[2] == SetWeather(StartWeather(config.initialWeather))
            && (forall i :: 0 <= i < |inv| ==> cmds[3 + i] == ReplaceItem(inv[i]))
            && (config.startPosition.Some? ==> cmds[3 + |inv|] == TeleportStart(config.startPosition.value))
            && (clearGround ==> cmds[|cmds| - 2..] == [KillNonPlayers, KillItems])
  {
    ReplaceItemsSpec(InventoryOf(config.initialInventory));
  }

  /** The constructor's building of `_reset_cmds`, appending one command at a time. */
  method BuildResetCommands(config: SimConfig, clearGround: bool) returns (cmds: seq<Cmd>)
    ensures cmds == ResetCommands(config, clearGround)
  {
    cmds := [KillAll];
    cmds := cmds + [SetTime(StartTime(config.startTime)), SetWeather(StartWeather(config.initialWeather))];
    ghost var head := cmds;
    if config.initialInventory.Some? {
      var items := config.initialInventory.value;
      for i := 0 to |items|
        invariant cmds == head + ReplaceItems(items[..i])
      {
        assert items[..i + 1][..i] == items[..i];
        cmds := cmds + [ReplaceItem(items[i])];
      }
      assert items[..|items|] == items;
    }
    if config.startPosition.Some? {
      var start := config.startPosition.value;
      cmds := cmds + [TeleportStart(start)];
    }
    if clearGround {
      cmds := cmds + [KillNonPlayers];
      cmds := cmds + [KillItems];
    }
  }

  // ---------------------------------------------------------------------------
  // Later resets
  // ---------------------------------------------------------------------------

  /** `init_position` read from an observation: y from `pos[2]`, z from `pos[1]`. */
  function InitPositionOf(obs: Observation): Pos {
    Pos(obs.pos.0, obs.pos.2, obs.pos.1)
  }

  /** `birth_position` read from an observation, coordinates in order. */
  function BirthPositionOf(obs: Observation): Pos {
    Pos(obs.pos.0, obs.pos.1, obs.pos.2)
  }

  /** `init_position` taken from a configured start position. */
  function InitPositionOfStart(start: StartPosition): Pos {
    Pos(start.x, start.y, start.z)
  }

  /** Centre of the spread: `int()` of `init_position`'s x and y fields. */
  function SpreadCentre(init: Pos): (c: (int, int))
    // each coordinate is truncated toward zero: less than 1 away, on the zero side
    ensures -1.0 < init.x - c.0 as real < 1.0 && -1.0 < init.y - c.1 as real < 1.0
    ensures (0.0 <= init.x ==> c.0 as real <= init.x) && (init.x < 0.0 ==> init.x <= c.0 as real)
    ensures (0.0 <= init.y ==> c.1 as real <= init.y) && (init.y < 0.0 ==> init.y <= c.1 as real)
  {
    (Truncate(init.x), Truncate(init.y))
  }

  /** `n` copies of `cmd`. */
  function Repeat(cmd: Cmd, n: nat): seq<Cmd>
  {
    if n == 0 then [] else Repeat(cmd, n - 1) + [cmd]
  }

  lemma {:induction false} RepeatSpec(cmd: Cmd, n: nat)
    ensures |Repeat(cmd, n)| == n
    ensures forall i :: 0 <= i < n ==> Repeat(cmd, n)[i] == cmd
  {
    if n > 0 {
      RepeatSpec(cmd, n - 1);
    }
  }

  /** The teleport back to the last random spawn, if there is one. */
  function BirthTeleport(birth: Option<Pos>): seq<Cmd> {
    if birth.Some? then [TeleportTo(birth.value)] else []
  }

  /** One spread around `centre` at distance `relDis`, then the leaves retries. */
  function MoveCommands(move: bool, centre: (int, int), relDis: real): seq<Cmd> {
    if move then
      [SpreadPlayers(centre.0, centre.1, relDis, relDis + 1.0)]
      + Repeat(RespreadIfOnLeaves(centre.0, centre.1, relDis, relDis + 1.0), LeavesRetries)
    else []
  }

  /** Everything a reset after the first one issues, in order. */
  function LaterResetCommands(resetCmds: seq<Cmd>, birth: Option<Pos>, move: bool,
                              centre: (int, int), relDis: real): seq<Cmd>
  {
    resetCmds + BirthTeleport(birth) + MoveCommands(move, centre, relDis)
  }

  /** The layout of a later reset: the reset commands unchanged and first; the
      teleport to the birth position next exactly when there is one; then, on a
      move, one spread and exactly `LeavesRetries` leaves retries, the last
      command issued. */
  lemma LaterResetShape(resetCmds: seq<Cmd>, birth: Option<Pos>, move: bool,
                        centre: (int, int), relDis: real)
    ensures var cmds := LaterResetCommands(resetCmds, birth, move, centre, relDis);
            var b := if birth.Some? then 1 else 0;
            var spread := SpreadPlayers(centre.0, centre.1, relDis, relDis + 1.0);
            var leaves := RespreadIfOnLeaves(centre.0, centre.1, relDis, relDis + 1.0);
            && |cmds| == |resetCmds| + b + (if move then 1 + LeavesRetries else 0)
            && cmds[..|resetCmds|] == resetCmds
            && (birth.Some? ==> cmds[|resetCmds|] == TeleportTo(birth.value))
            && (move ==> cmds[|resetCmds| + b] == spread)
            && (move ==> forall j :: |resetCmds| + b < j <= |resetCmds| + b + LeavesRetries ==> cmds[j] == leaves)
            && (!move ==> cmds == resetCmds + BirthTeleport(birth))
  {
    RepeatSpec(RespreadIfOnLeaves(centre.0, centre.1, relDis, relDis + 1.0), LeavesRetries);
  }

  /** The events of a later reset, piece by piece, after an earlier history `log`. */
  lemma IssuedLaterReset(log: seq<Event>, resetCmds: seq<Cmd>, birth: Option<Pos>, move: bool,
                         centre: (int, int), relDis: real)
    ensures log + Issued(LaterResetCommands(resetCmds, birth, move, centre, relDis))
            == log + Issued(resetCmds) + Issued(BirthTeleport(birth)) + Issued(MoveCommands(move, centre, relDis))
  {
    IssuedAppend(resetCmds, BirthTeleport(birth));
    IssuedAppend(resetCmds + BirthTeleport(birth), MoveCommands(move, centre, relDis));
  }

  // ---------------------------------------------------------------------------
  // The wrapper
  // ---------------------------------------------------------------------------

  class FastResetWrapper {
    const env: Simulator
    /** `_move_flag`: whether random moves were configured at all. */
    const moveFlag: bool
    const low: int
    const high: int
    /** `_reset_cmds`, fixed at construction. */
    const resetCmds: seq<Cmd>
    /** `_info_prev_reset`, the info of the previous reset. */
    const infoPrevReset: Option<map<string, string>>

    /** `_server_start`: false until the first reset. */
    var serverStart: bool
    var initPosition: Option<Pos>
    var birthPosition: Option<Pos>

    ghost predicate Valid()
      reads this, env
    {
      && env.Valid()
      && 0 <= low < high
      && |resetCmds| >= 3
      && infoPrevReset == None
      && (env.config.startPosition.Some? ==>
            initPosition == Some(InitPositionOfStart(env.config.startPosition.value)))
    }

    /** `__init__` once its range assertions have passed. */
    constructor (env: Simulator, rangeHigh: Option<int>, rangeLow: Option<int>, clearGround: bool)
      requires env.Valid()
      requires CheckRange(rangeHigh, rangeLow).Success?
      ensures Valid()
      ensures this.env == env
      ensures var range := CheckRange(rangeHigh, rangeLow).value;
              moveFlag == range.enabled && low == range.low && high == range.high
      ensures resetCmds == ResetCommands(env.config, clearGround)
      ensures initPosition == (if env.config.startPosition.Some?
                               then Some(InitPositionOfStart(env.config.startPosition.value))
                               else None)
      ensures !serverStart && birthPosition == None
    {
      var range := CheckRange(rangeHigh, rangeLow).value;
      this.env := env;
      moveFlag := range.enabled;
      high := range.high;
      low := range.low;
      var cmds := BuildResetCommands(env.config, clearGround);
      resetCmds := cmds;
      initPosition := None;
      if env.config.startPosition.Some? {
        initPosition := Some(InitPositionOfStart(env.config.startPosition.value));
      }
      serverStart := false;
      infoPrevReset := None;
      birthPosition := None;
      ResetCommandsShape(env.config, clearGround);
    }

    /** `FastResetWrapper(...)`: fails exactly when a range assertion fails. */
    static method Create(env: Simulator, rangeHigh: Option<int>, rangeLow: Option<int>, clearGround: bool)
      returns (r: Result<FastResetWrapper, RangeError>)
      requires env.Valid()
      ensures r.Success? <==> CheckRange(rangeHigh, rangeLow).Success?
      ensures r.Failure? ==> r.error == CheckRange(rangeHigh, rangeLow).error
      ensures r.Success? ==> fresh(r.value) && r.value.Valid() && r.value.env == env
                             && !r.value.serverStart && r.value.birthPosition == None
                             && r.value.resetCmds == ResetCommands(env.config, clearGround)
                             && r.value.initPosition == (if env.config.startPosition.Some?
                                  then Some(InitPositionOfStart(env.config.startPosition.value))
                                  else None)
      ensures r.Success? ==> var range := CheckRange(rangeHigh, rangeLow).value;
                             r.value.moveFlag == range.enabled
                             && r.value.low == range.low && r.value.high == range.high
    {
      var checked := CheckRange(rangeHigh, rangeLow);
      if checked.Failure? {
        return Failure(checked.error);
      }
      var w := new FastResetWrapper(env, rangeHigh, rangeLow, clearGround);
      return Success(w);
    }

    /** Whether a reset asked to move really moves: `move_flag and _move_flag`
        and `high > 0`; the last never fails on a constructed wrapper. */
    function EffectiveMove(move: bool): (r: bool)
      reads this, env
      requires Valid()
      ensures r <==> move && moveFlag
    {
      high > 0 && move && moveFlag
    }

    /** `info_prev_reset`: the wrapper never sets `_info_prev_reset`. */
    function InfoPrevReset(): (r: Option<map<string, string>>)
      reads this, env
      requires Valid()
      ensures r == None
    {
      infoPrevReset
    }

    /** `reset(move_flag)`. The first call regenerates the world; each later
        call replays `resetCmds`, returns to the last random spawn, and on a
        move spreads the agent `relDis` blocks away from `init_position`.
        `relDis` is the value drawn by `random.uniform(low, high)`. */
    method Reset(move: bool, relDis: real) returns (obs: Observation)
      requires Valid()
      requires low as real <= relDis <= high as real
      modifies this, env
      ensures Valid() && serverStart
      ensures |env.log| > |old(env.log)|
      // the observation of the last call made is returned
      ensures obs == env.LastReply()
      ensures old(env.replies) <= env.replies
      // first reset: one full reset, nothing else touched
      ensures !old(serverStart) ==>
                && env.log == old(env.log) + [FullReset]
                && initPosition == old(initPosition)
                && birthPosition == old(birthPosition)
      // later reset: exactly the reset commands, the birth teleport and the move
      ensures old(serverStart) ==>
                && initPosition.Some?
                && env.log == old(env.log) + Issued(LaterResetCommands(
                     resetCmds, old(birthPosition), EffectiveMove(move),
                     SpreadCentre(initPosition.value), relDis))
                && initPosition == (if old(initPosition).Some? then old(initPosition)
                                    else Some(InitPositionOf(env.replies[|old(env.replies)|])))
                && birthPosition == (if EffectiveMove(move) then Some(BirthPositionOf(obs))
                                     else old(birthPosition))
    {
      var moving := move;
      if !moveFlag {
        moving := false;
      }
      if !serverStart {
        serverStart := true;
        obs := env.Reset();
        return;
      }
      obs := LaterReset(high > 0 && moving, relDis);
    }

    /** A reset after the first one; `move` is the effective move flag. */
    method LaterReset(move: bool, relDis: real) returns (obs: Observation)
      requires Valid()
      modifies this`initPosition, this`birthPosition, env
      ensures Valid()
      ensures |env.replies| > |old(env.replies)|
      ensures old(env.replies) <= env.replies
      ensures obs == env.LastReply()
      ensures initPosition.Some?
      ensures env.log == old(env.log) + Issued(LaterResetCommands(
                resetCmds, old(birthPosition), move, SpreadCentre(initPosition.value), relDis))
      ensures initPosition == (if old(initPosition).Some? then old(initPosition)
                               else Some(InitPositionOf(env.replies[|old(env.replies)|])))
      ensures birthPosition == (if move then Some(BirthPositionOf(obs)) else old(birthPosition))
    {
      ghost var log0, birth0 := env.log, birthPosition;
      obs := ReplayResetCommands();
      obs := ReturnToBirth(obs);
      var centre := SpreadCentre(initPosition.value);
      if move {
        obs := SpreadFrom(centre, relDis);
      }
      IssuedLaterReset(log0, resetCmds, birth0, move, centre, relDis);
      assert env.log == log0 + Issued(resetCmds) + Issued(BirthTeleport(birth0))
                       + Issued(MoveCommands(move, centre, relDis));
    }

    /** The replay of `_reset_cmds` in a later reset, setting `init_position`
        from the first command's observation when it is still unset. */
    method ReplayResetCommands() returns (obs: Observation)
      requires Valid()
      modifies this`initPosition, env
      ensures Valid()
      ensures env.log == old(env.log) + Issued(resetCmds)
      ensures |env.replies| == |old(env.replies)| + |resetCmds|
      ensures old(env.replies) <= env.replies
      ensures obs == env.LastReply()
      ensures initPosition == (if old(initPosition).Some? then old(initPosition)
                               else Some(InitPositionOf(env.replies[|old(env.replies)|])))
    {
      ghost var log0, replies0, init0 := env.log, env.replies, initPosition;
      // overwritten by the first command: the list is never empty
      obs := Observation((0.0, 0.0, 0.0));
      for i := 0 to |resetCmds|
        invariant Valid()
        invariant env.log == log0 + Issued(resetCmds[..i])
        invariant |env.replies| == |replies0| + i
        invariant replies0 <= env.replies
        invariant i > 0 ==> obs == env.LastReply()
        invariant init0.Some? ==> initPosition == init0
        invariant init0.None? && i == 0 ==> initPosition.None?
        invariant init0.None? && i > 0 ==> initPosition == Some(InitPositionOf(env.replies[|replies0|]))
      {
        IssuedPrefixStep(resetCmds, i);
        obs := env.ExecuteCmd(resetCmds[i]);
        if initPosition.None? {
          initPosition := Some(InitPositionOf(obs));
        }
      }
      assert resetCmds[..|resetCmds|] == resetCmds;
    }

    /** The teleport back to `birth_position` when there is one; `obs` is
        the observation of the last command before it. */
    method ReturnToBirth(last: Observation) returns (obs: Observation)
      requires Valid()
      requires |env.replies| > 0 && last == env.LastReply()
      modifies env
      ensures Valid()
      ensures env.log == old(env.log) + Issued(BirthTeleport(birthPosition))
      ensures old(env.replies) <= env.replies
      ensures |env.replies| > 0 && obs == env.LastReply()
    {
      obs := last;
      if birthPosition.Some? {
        obs := env.ExecuteCmd(TeleportTo(birthPosition.value));
      }
    }

    /** The random move of a later reset: one spread around `centre`, the
        leaves retries, and `birth_position` read from the last observation. */
    method SpreadFrom(centre: (int, int), relDis: real) returns (obs: Observation)
      requires Valid()
      modifies this`birthPosition, env
      ensures Valid()
      ensures env.log == old(env.log) + Issued(MoveCommands(true, centre, relDis))
      ensures |env.replies| > |old(env.replies)|
      ensures old(env.replies) <= env.replies
      ensures obs == env.LastReply()
      ensures birthPosition == Some(BirthPositionOf(obs))
    {
      ghost var replies0 := env.replies;
      var spread := SpreadPlayers(centre.0, centre.1, relDis, relDis + 1.0);
      obs := env.ExecuteCmd(spread);
      var leaves := RespreadIfOnLeaves(centre.0, centre.1, relDis, relDis + 1.0);
      ghost var logSpread := env.log;
      for k := 0 to LeavesRetries
        invariant Valid()
        invariant env.log == logSpread + Issued(Repeat(leaves, k))
        invariant |env.replies| > |replies0|
        invariant replies0 <= env.replies
        invariant obs == env.LastReply()
      {
        IssuedSnoc(Repeat(leaves, k), leaves);
        obs := env.ExecuteCmd(leaves);
      }
      ghost var retries := Repeat(leaves, LeavesRetries);
      assert MoveCommands(true, centre, relDis) == [spread] + retries;
      IssuedSnoc([], spread);
      IssuedAppend([spread], retries);
      assert Issued([spread] + retries) == [Exec(spread)] + Issued(retries);
      birthPosition := Some(BirthPositionOf(obs));
    }
  }
}
