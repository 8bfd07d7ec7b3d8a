/** services/follower-gateway/follower_gateway/ros_backend.py: the gateway's end of the command
    topic, with its local copy of what the arm will have folded. */
module RosBackend {
  import opened Protocol
  import Arm

  datatype Key = EnabledKey | ClutchedKey | ModeKey | GripperKey

  datatype Setting = Switch(on: bool) | InMode(mode: Mode) | GripAt(setting: GripSetting)

  type CommandState = map<Key, Setting>

  const KEYS := [EnabledKey, ClutchedKey, ModeKey, GripperKey]

  const SEED: CommandState :=
    map[EnabledKey := Switch(false), ClutchedKey := Switch(false), ModeKey := InMode(Idle)]

  function Lift<A, B>(f: Field<A>, wrap: A -> B): Field<B> {
    match f
    case Absent => Absent
    case Null => Null
    case Value(a) => Value(wrap(a))
  }

  /** Looking a mirrored key up in a command dictionary. */
  function Lookup(c: Command, key: Key): Field<Setting> {
    match key
    case EnabledKey => Lift(c.enabled, b => Switch(b))
    case ClutchedKey => Lift(c.clutched, b => Switch(b))
    case ModeKey => Lift(c.mode, m => InMode(m))
    case GripperKey => Lift(c.gripper, s => GripAt(s))
  }

  /** The mirrored flags, when the dictionary still holds a setting of the right kind for each. */
  predicate WellTyped(s: CommandState) {
    && EnabledKey in s && s[EnabledKey].Switch?
    && ClutchedKey in s && s[ClutchedKey].Switch?
    && ModeKey in s && s[ModeKey].InMode?
  }

  function Flags(s: CommandState): Arm.Gate
    requires WellTyped(s)
  {
    Arm.Gate(s[EnabledKey].on, s[ClutchedKey].on, s[ModeKey].mode)
  }

  /** How the mirror takes a command: unlike the arm, it ignores every null. */
  function Mirrored(g: Arm.Gate, c: Command): Arm.Gate {
    Arm.Gate(
      if c.enabled.Value? then c.enabled.value else g.enabled,
      if c.clutched.Value? then c.clutched.value else g.clutched,
      if c.mode.Value? then c.mode.value else g.mode)
  }

  function MirroredAll(g: Arm.Gate, cs: seq<Command>): Arm.Gate {
    if cs == [] then g else Mirrored(MirroredAll(g, cs[..|cs| - 1]), cs[|cs| - 1])
  }

  /** The grip that the last command with one asked for. */
  function LastGrip(cs: seq<Command>): Option<GripSetting> {
    if cs == [] then None
    else if cs[|cs| - 1].gripper.Value? then Some(cs[|cs| - 1].gripper.value)
    else LastGrip(cs[..|cs| - 1])
  }

  /** The dictionary is what the published commands make of the initial one, flags and grip. */
  predicate Mirrors(s: CommandState, cs: seq<Command>) {
    && WellTyped(s)
    && Flags(s) == MirroredAll(Arm.INITIAL, cs)
    && (GripperKey in s <==> LastGrip(cs).Some?)
    && (GripperKey in s ==> s[GripperKey] == GripAt(LastGrip(cs).value))
  }

  /** The dictionary after the keys in `ks` have been taken from the command. */
  predicate Merged(after: CommandState, before: CommandState, c: Command, ks: seq<Key>) {
    forall key: Key ::
      && (key in after <==> key in before || (key in ks && Lookup(c, key).Value?))
      && (key in after ==>
            if key in ks && Lookup(c, key).Value? then after[key] == Lookup(c, key).value
            else key in before && after[key] == before[key])
  }

  lemma {:induction false} MergedStep(after: CommandState, before: CommandState, c: Command, ks: seq<Key>, key: Key)
    requires Merged(after, before, c, ks)
    ensures var entry := Lookup(c, key);
            Merged(if entry.Value? then after[key := entry.value] else after, before, c, ks + [key])
  {
  }

  lemma {:induction false} MergedFlags(after: CommandState, before: CommandState, c: Command)
    requires WellTyped(before) && Merged(after, before, c, KEYS)
    ensures WellTyped(after) && Flags(after) == Mirrored(Flags(before), c)
    ensures GripperKey in after <==> GripperKey in before || c.gripper.Value?
    ensures GripperKey in after ==>
              after[GripperKey] == if c.gripper.Value? then GripAt(c.gripper.value) else before[GripperKey]
  {
  }

  lemma {:induction false} MirrorsStep(after: CommandState, before: CommandState, cs: seq<Command>, c: Command)
    requires Mirrors(before, cs) && Merged(after, before, c, KEYS)
    ensures Mirrors(after, cs + [c]) && Flags(after) == Mirrored(Flags(before), c)
  {
    MergedFlags(after, before, c);
    assert (cs + [c])[..|cs|] == cs;
  }

  class FollowerRos {
    var commandState: CommandState
    var topic: seq<Command>

    /** The mirror has taken everything published so far. */
    predicate Valid()
      reads this
    {
      Mirrors(commandState, topic)
    }

    constructor ()
      ensures Valid() && topic == []
    {
      commandState, topic := SEED, [];
    }

    method PublishInjectedCommand(c: Command)
      requires Valid()
      modifies this
      ensures Valid() && topic == old(topic) + [c]
      ensures Flags(commandState) == Mirrored(old(Flags(commandState)), c)
    {
      ghost var before := commandState;
      for i := 0 to |KEYS|
        invariant topic == old(topic) && Merged(commandState, before, c, KEYS[..i])
      {
        var key := KEYS[i];
        var entry := Lookup(c, key);
        MergedStep(commandState, before, c, KEYS[..i], key);
        assert KEYS[..i + 1] == KEYS[..i] + [key];
        if entry.Value? {
          commandState := commandState[key := entry.value];
        }
      }
      assert KEYS[..|KEYS|] == KEYS;
      MirrorsStep(commandState, before, topic, c);
      topic := topic + [c];
    }
  }

  // ------------------------------------------------- the mirror and the commands in flight

  /** The mirror, the arm, and the commands published but not yet delivered (a lossless queue). */
  datatype Link = Link(mirror: Arm.Gate, arm: Arm.Gate, inFlight: seq<Command>)

  datatype LinkEvent = Publish(command: Command) | Deliver

  function LinkStep(l: Link, e: LinkEvent): Link {
    match e
    case Publish(c) => l.(mirror := Mirrored(l.mirror, c), inFlight := l.inFlight + [c])
    case Deliver =>
      if l.inFlight == [] then l
      else l.(arm := Arm.Absorb(l.arm, l.inFlight[0]), inFlight := l.inFlight[1..])
  }

  function LinkAfter(es: seq<LinkEvent>): Link {
    if es == [] then Link(Arm.INITIAL, Arm.INITIAL, []) else LinkStep(LinkAfter(es[..|es| - 1]), es[|es| - 1])
  }

  /** Neither flag is null. */
  predicate Definite(c: Command) {
    c.enabled != Null && c.clutched != Null
  }

  /** Mirror and arm take a command alike, from every common state, exactly when it is definite. */
  lemma {:induction false} MirrorsExactlyDefinite(c: Command)
    ensures Definite(c) <==> forall g: Arm.Gate :: Mirrored(g, c) == Arm.Absorb(g, c)
  {
    var on := Arm.Gate(true, true, Idle);
    if !Definite(c) {
      assert Mirrored(on, c) != Arm.Absorb(on, c);
    }
  }

  lemma {:induction false} AbsorbFirst(g: Arm.Gate, cs: seq<Command>)
    requires cs != []
    ensures Arm.AbsorbAll(g, cs) == Arm.AbsorbAll(Arm.Absorb(g, cs[0]), cs[1..])
  {
    var n := |cs| - 1;
    if n > 0 {
      AbsorbFirst(g, cs[..n]);
      assert cs[..n][1..] == cs[1..][..n - 1];
    } else {
      assert cs[..n] == [] && cs[1..] == [];
    }
  }

  /** However publishing and delivering interleave, the mirror is the arm's state once everything
      in flight has been delivered. */
  lemma {:induction false} MirrorAgreement(es: seq<LinkEvent>)
    requires forall e | e in es && e.Publish? :: Definite(e.command)
    ensures var l := LinkAfter(es); l.mirror == Arm.AbsorbAll(l.arm, l.inFlight)
  {
    if es == [] {
    } else {
      var n := |es| - 1;
      MirrorAgreement(es[..n]);
      var l := LinkAfter(es[..n]);
      match es[n]
      case Publish(c) =>
        assert es[n] in es;
        MirrorsExactlyDefinite(c);
        assert (l.inFlight + [c])[..|l.inFlight|] == l.inFlight;
      case Deliver =>
        if l.inFlight != [] {
          AbsorbFirst(l.arm, l.inFlight);
        }
    }
  }
}
