/** follower.py: how the arm folds the remote commands, and when it moves. */
module Arm {
  import opened Protocol
  import opened History

  /** Modes in which the arm holds its position. */
  const HOLD_MODES: set<Mode> := {HoldEstopped, HoldFrozen, Idle, Homing}

  const JOINT_COUNT := 6

  datatype Gate = Gate(enabled: bool, clutched: bool, mode: Mode)

  const INITIAL := Gate(false, false, Idle)

  /** The actuator gate: only while it is open can a remote pose move the arm. */
  predicate Open(g: Gate) {
    g.enabled && !g.clutched && g.mode !in HOLD_MODES
  }

  /** A flag that is present but null switches off; a mode that is null or absent is ignored. */
  function Flag(f: Field<bool>, was: bool): bool {
    match f
    case Absent => was
    case Null => false
    case Value(b) => b
  }

  function Absorb(g: Gate, c: Command): Gate {
    Gate(Flag(c.enabled, g.enabled), Flag(c.clutched, g.clutched), if c.mode.Value? then c.mode.value else g.mode)
  }

  /** Pairing with the six joint names drops any surplus value. */
  function Targets(joints: seq<real>): (pose: seq<real>)
    ensures pose <= joints && |pose| <= JOINT_COUNT
    ensures |pose| < JOINT_COUNT ==> pose == joints
  {
    if |joints| <= JOINT_COUNT then joints else joints[..JOINT_COUNT]
  }

  /** The joint targets that this command makes the arm drive, if any. */
  function Driven(g: Gate, c: Command): Option<seq<real>> {
    if Open(Absorb(g, c)) && c.joints.Value? && c.joints.value != [] then Some(Targets(c.joints.value)) else None
  }

  function AbsorbAll(g: Gate, cs: seq<Command>): Gate {
    if cs == [] then g else Absorb(AbsorbAll(g, cs[..|cs| - 1]), cs[|cs| - 1])
  }

  /** Of all modes only tracking moves the arm. */
  lemma {:induction false} OnlyTrackingMoves(g: Gate)
    ensures Open(g) <==> g == Gate(true, false, Tracking)
  {
    assert g.mode.Tracking? || g.mode in HOLD_MODES;
  }

  predicate NamesEnabled(c: Command) {
    c.enabled != Absent
  }

  predicate SwitchesOn(c: Command) {
    c.enabled == Value(true)
  }

  predicate NamesClutched(c: Command) {
    c.clutched != Absent
  }

  predicate ClutchesIn(c: Command) {
    c.clutched == Value(true)
  }

  predicate NamesMode(c: Command) {
    c.mode.Value?
  }

  function NamesModeAs(mode: Mode): Command -> bool {
    (c: Command) => c.mode == Value(mode)
  }

  /** The arm's flags and mode, read off the commands it has received: each is what the last command that
      names it says, a null counting as off for a flag and as nothing for the mode; and before any such
      command the arm is disabled, unclutched and idle. */
  lemma {:induction false} FoldIff(cs: seq<Command>, mode: Mode)
    ensures var g := AbsorbAll(INITIAL, cs);
            && (g.enabled <==> Since(cs, SwitchesOn, NamesEnabled))
            && (g.clutched <==> Since(cs, ClutchesIn, NamesClutched))
            && (g.mode == mode <==>
                  Since(cs, NamesModeAs(mode), NamesMode) ||
                  (mode == Idle && forall i | 0 <= i < |cs| :: !NamesMode(cs[i])))
  {
    if cs == [] {
    } else {
      var before, c := cs[..|cs| - 1], cs[|cs| - 1];
      FoldIff(before, mode);
      assert cs == before + [c];
      SinceExtends(before, c, SwitchesOn, NamesEnabled);
      SinceExtends(before, c, ClutchesIn, NamesClutched);
      SinceExtends(before, c, NamesModeAs(mode), NamesMode);
    }
  }

  class FollowerNode {
    const connected: bool
    var remoteEnabled: bool
    var remoteClutched: bool
    var remoteMode: Mode
    var writes: seq<seq<real>>

    function View(): Gate
      reads this
    {
      Gate(remoteEnabled, remoteClutched, remoteMode)
    }

    constructor (connected: bool)
      ensures this.connected == connected && View() == INITIAL && writes == []
    {
      this.connected := connected;
      remoteEnabled, remoteClutched, remoteMode := false, false, Idle;
      writes := [];
    }

    /** A node whose arm failed to connect ignores every command. */
    method RemoteCommandCallback(c: Command)
      modifies this
      ensures !connected ==> View() == old(View()) && writes == old(writes)
      ensures connected ==> View() == Absorb(old(View()), c)
      ensures connected ==>
                writes == old(writes) + Listed(Driven(old(View()), c))
    {
      if !connected {
        return;
      }
      if c.enabled != Absent {
        remoteEnabled := c.enabled == Value(true);
      }
      if c.clutched != Absent {
        remoteClutched := c.clutched == Value(true);
      }
      if c.mode.Value? {
        remoteMode := c.mode.value;
      }
      if !remoteEnabled || remoteClutched || remoteMode in HOLD_MODES {
        return;
      }
      if !c.joints.Value? || c.joints.value == [] {
        return;
      }
      var pose := Targets(c.joints.value);
      writes := writes + [pose];
    }
  }
}
