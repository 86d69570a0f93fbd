/** A client of the wrapper: the usage of the repository's fast-reset test
    script (range 0 to 300, ground cleared, nothing else configured), stated
    as what the contracts let a caller conclude about two resets. */
module Scenario {
  import opened Base
  import opened Commands
  import opened Simulation
  import opened FastReset

  method TwoResets(relDis: real)
    requires 0.0 <= relDis <= 300.0
  {
    var env := new Simulator(SimConfig(None, None, None, None));
    var created := FastResetWrapper.Create(env, Some(300), Some(0), true);
    var w := created.value;
    assert w.moveFlag && w.low == 0 && w.high == 300;

    // the first reset regenerates the world and issues no command
    var first := w.Reset(true, relDis);
    assert env.log == [FullReset];
    assert w.birthPosition == None && w.initPosition == None;

    // the second replays kill, time, weather and the two ground-clearing kills,
    // then spreads the agent and remembers where it landed
    var second := w.Reset(true, relDis);
    var centre := SpreadCentre(w.initPosition.value);
    assert w.resetCmds == [KillAll, SetTime(0), SetWeather("normal"), KillNonPlayers, KillItems];
    assert LaterResetCommands(w.resetCmds, None, true, centre, relDis)
        == w.resetCmds + MoveCommands(true, centre, relDis);
    assert env.log == [FullReset] + Issued(w.resetCmds + MoveCommands(true, centre, relDis));
    assert w.birthPosition == Some(BirthPositionOf(second));
    assert w.initPosition == Some(InitPositionOf(env.replies[1]));
  }
}
