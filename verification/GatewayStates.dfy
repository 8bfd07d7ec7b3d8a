/** What each state of the follower's session means, read off the log of a run. */
module GatewayStates {
  import opened Protocol
  import opened FollowerGateway
  import opened GatewayRun
  import opened GatewaySafety
  import opened GatewayHistory
  import opened History

  /** The server reports another owner than the follower knew. */
  predicate NewOwner(e: Entry) {
    e.at.event.Signal? && e.at.event.message.Ownership? && e.at.event.message.owner != e.before.machine.owner
  }

  /** A reset that finds the session stopped. */
  predicate Restarts(e: Entry) {
    Resets(e) && e.before.machine.state.Estopped?
  }

  /** The step at which the session comes to be in state s: what brings each state about, in terms of
      what arrived and of the state it found. A join brings any state that the server reports. */
  predicate Brings(e: Entry, s: SessionState) {
    var m := e.before.machine;
    || JoinsAs(e, s)
    || match s
       case Disconnected => false
       case Connected => m.state.Disconnected? && e.outcome.answer.Some?
       case Ready =>
         || (NewOwner(e) && e.at.event.message.owner == None && m.state in {Claimed, Armed, Clutched, Frozen})
         || (Restarts(e) && m.owner == None)
       case Claimed =>
         || (NewOwner(e) && e.at.event.message.owner.Some? && m.state !in {Disconnected, Estopped})
         || (Restarts(e) && m.owner.Some?)
         || Acked(e, DisableAck)
       case Armed => Acked(e, EnableAck) || ClutchedAt(e, false)
       case Clutched => ClutchedAt(e, true)
       case Frozen => TripsAt(e) && m.state in {Armed, Clutched}
       case Estopped => Engages(e)
  }

  function BringsState(s: SessionState): Entry -> bool {
    e => Brings(e, s)
  }

  predicate BringsAny(e: Entry) {
    || Brings(e, Disconnected) || Brings(e, Connected) || Brings(e, Ready) || Brings(e, Claimed)
    || Brings(e, Armed) || Brings(e, Clutched) || Brings(e, Frozen) || Brings(e, Estopped)
  }

  /** The step leaves the session in state s exactly if it brings that about, or keeps it. */
  predicate BringsOrKeeps(e: Entry, s: SessionState) {
    e.outcome.next.machine.state == s <==> Brings(e, s) || (e.before.machine.state == s && !BringsAny(e))
  }

  lemma {:induction false} SignalBrings(cfg: Config, r: Run, e: Timed, s: SessionState)
    requires e.event.Signal?
    ensures BringsOrKeeps(EntryOf(cfg, r, e), s)
  {
  }

  lemma {:induction false} PeerBrings(cfg: Config, r: Run, e: Timed, s: SessionState)
    requires e.event.Peer?
    ensures BringsOrKeeps(EntryOf(cfg, r, e), s)
  {
  }

  lemma {:induction false} PollBrings(cfg: Config, r: Run, e: Timed, s: SessionState)
    requires e.event.Poll?
    ensures BringsOrKeeps(EntryOf(cfg, r, e), s)
  {
  }

  lemma {:induction false} BringsStep(cfg: Config, r: Run, e: Timed, s: SessionState)
    ensures var entry := EntryOf(cfg, r, e);
            entry.outcome.next.machine.state == s <==>
            BringsState(s)(entry) || (r.gateway.machine.state == s && !BringsAny(entry))
  {
    match e.event
    case Signal(_) => SignalBrings(cfg, r, e, s);
    case Peer(_) => PeerBrings(cfg, r, e, s);
    case Poll => PollBrings(cfg, r, e, s);
  }

  /** The whole state machine, exactly: the session is in a state if and only if that is the state that
      was brought about last. */
  lemma {:induction false} StateIff(cfg: Config, tr: seq<Timed>, s: SessionState)
    requires s != Disconnected
    ensures var r := Execute(cfg, tr); r.gateway.machine.state == s <==> Since(r.log, BringsState(s), BringsAny)
  {
    forall r: Run, e: Timed {
      BringsStep(cfg, r, e, s);
    }
    HoldsIff(cfg, tr, (g: Gateway) => g.machine.state == s, BringsState(s), BringsAny);
  }

  /** A trip tells the arm to hold as frozen and to disable, and nothing else. */
  lemma {:induction false} TripCommand(cfg: Config, r: Run, e: Timed)
    requires TripsAt(EntryOf(cfg, r, e))
    ensures var c := EntryOf(cfg, r, e).outcome.command.value;
            && c.mode == Value(HoldFrozen) && c.enabled == Value(false)
            && c.estopped == c.clutched == Absent && c.joints == Absent && c.gripper == Absent
            && c.gripperCommand == Absent
    ensures EntryOf(cfg, r, e).outcome.reply == None && EntryOf(cfg, r, e).outcome.answer == None
  {
  }

  /** A step that ends a freeze. */
  predicate Thaws(e: Entry) {
    Acked(e, DisableAck) || NewOwner(e) || Engages(e) || JoinsAt(e)
  }

  lemma {:induction false} FrozenStep(cfg: Config, r: Run, e: Timed)
    ensures var entry := EntryOf(cfg, r, e);
            entry.outcome.next.machine.state.Frozen? <==>
            BringsState(Frozen)(entry) || (r.gateway.machine.state.Frozen? && !Thaws(entry))
  {
  }

  lemma {:induction false} FrozenRefuses(cfg: Config, r: Run, e: Timed)
    requires r.gateway.machine.state.Frozen?
    ensures var entry := EntryOf(cfg, r, e); !Acked(entry, EnableAck) && !ClutchedAt(entry, false) && !PoseAt(entry)
  {
  }

  /** A freeze by the watchdog, exactly: it starts with a trip that finds the session armed and lasts
      until a disable is accepted, the owner changes, a stop engages or the gateway rejoins. */
  lemma {:induction false} FrozenIff(cfg: Config, tr: seq<Timed>)
    ensures var r := Execute(cfg, tr); r.gateway.machine.state.Frozen? <==> Since(r.log, BringsState(Frozen), Thaws)
  {
    forall r: Run, e: Timed {
      FrozenStep(cfg, r, e);
    }
    HoldsIff(cfg, tr, (g: Gateway) => g.machine.state.Frozen?, BringsState(Frozen), Thaws);
  }

  /** While it lasts, no enable, no clutch release and no pose is accepted. */
  lemma {:induction false} FreezeHolds(cfg: Config, tr: seq<Timed>, i: nat, j: nat)
    requires SinceAt(Execute(cfg, tr).log, BringsState(Frozen), Thaws, i) && i < j < |tr|
    ensures var e := Execute(cfg, tr).log[j]; !Acked(e, EnableAck) && !ClutchedAt(e, false) && !PoseAt(e)
  {
    LogPrefix(cfg, tr, j);
    LogAt(cfg, tr, j);
    var log, before := Execute(cfg, tr).log, Execute(cfg, tr[..j]);
    forall m | i <= m < j ensures before.log[m] == log[m] {}
    assert SinceAt(before.log, BringsState(Frozen), Thaws, i);
    FrozenIff(cfg, tr[..j]);
    FrozenRefuses(cfg, before, tr[j]);
  }
}
