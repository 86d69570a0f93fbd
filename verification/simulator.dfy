/** The wrapped Minecraft simulator, seen only through the two calls the
    wrapper makes: a full `reset()` and `execute_cmd(cmd)`.

    Its behaviour is opaque: every call is appended to a ghost log and answers
    with an arbitrary observation, which is recorded beside it. Only the
    agent's position (`obs["location_stats"]["pos"]`) is kept of an
    observation. */
module Simulation {
  import opened Base
  import opened Commands

  /** The simulator's configuration accessors read by the wrapper. */
  datatype SimConfig = SimConfig(
    startTime: Option<int>,
    initialWeather: Option<string>,
    initialInventory: Option<seq<InventoryItem>>,
    startPosition: Option<StartPosition>)

  /** An observation; `pos` is the triple `location_stats["pos"]`. */
  datatype Observation = Observation(pos: (real, real, real))

  /** One call made on the simulator. */
  datatype Event = FullReset | Exec(cmd: Cmd)

  /** The events of executing `cmds` one after another. */
  function Issued(cmds: seq<Cmd>): (r: seq<Event>)
  {
    if cmds == [] then [] else Issued(cmds[..|cmds| - 1]) + [Exec(cmds[|cmds| - 1])]
  }

  lemma {:induction false} IssuedSpec(cmds: seq<Cmd>)
    ensures |Issued(cmds)| == |cmds|
    ensures forall i :: 0 <= i < |cmds| ==> Issued(cmds)[i] == Exec(cmds[i])
  {
    if cmds != [] {
      IssuedSpec(cmds[..|cmds| - 1]);
    }
  }

  /** Issuing one more command adds one event at the end. */
  lemma IssuedSnoc(cmds: seq<Cmd>, cmd: Cmd)
    ensures Issued(cmds + [cmd]) == Issued(cmds) + [Exec(cmd)]
  {
  }

  /** Issuing one more element of a list extends the events of its prefix by one. */
  lemma IssuedPrefixStep(cmds: seq<Cmd>, i: nat)
    requires i < |cmds|
    ensures Issued(cmds[..i + 1]) == Issued(cmds[..i]) + [Exec(cmds[i])]
  {
    assert cmds[..i + 1] == cmds[..i] + [cmds[i]];
    IssuedSnoc(cmds[..i], cmds[i]);
  }

  /** Issuing two command lists one after the other issues their concatenation. */
  lemma {:induction false} IssuedAppend(a: seq<Cmd>, b: seq<Cmd>)
    ensures Issued(a + b) == Issued(a) + Issued(b)
  {
    if b != [] {
      var b' := b[..|b| - 1];
      assert (a + b)[..|a + b| - 1] == a + b';
      IssuedAppend(a, b');
    } else {
      assert a + b == a;
    }
  }

  class Simulator {
    const config: SimConfig
    /** Every call made on the simulator, oldest first. */
    ghost var log: seq<Event>
    /** The observation answered to each call in `log`. */
    ghost var replies: seq<Observation>

    ghost predicate Valid()
      reads this
    {
      |log| == |replies|
    }

    constructor (config: SimConfig)
      ensures Valid() && this.config == config
      ensures log == [] && replies == []
    {
      this.config := config;
      log, replies := [], [];
    }

    /** The observation answered to the latest call. */
    ghost function LastReply(): Observation
      reads this
      requires |replies| > 0
    {
      replies[|replies| - 1]
    }

    /** `env.reset()`: regenerates the world. */
    method Reset() returns (obs: Observation)
      requires Valid()
      modifies this
      ensures Valid()
      ensures log == old(log) + [FullReset]
      ensures replies == old(replies) + [obs]
    {
      obs :| true;
      log, replies := log + [FullReset], replies + [obs];
    }

    /** `env.execute_cmd(cmd)`; only the observation of its result is kept. */
    method ExecuteCmd(cmd: Cmd) returns (obs: Observation)
      requires Valid()
      modifies this
      ensures Valid()
      ensures log == old(log) + [Exec(cmd)]
      ensures replies == old(replies) + [obs]
    {
      obs :| true;
      log, replies := log + [Exec(cmd)], replies + [obs];
    }
  }
}
