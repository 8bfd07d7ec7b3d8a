/** Whole runs of the follower gateway together with the arm's gate, with a log of every step. */
module GatewayRun {
  import opened Protocol
  import opened FollowerGateway
  import opened History
  import Arm

  /** One step of a run: when and what, the states before it, and its outcome. */
  datatype Entry = Entry(at: Timed, before: Gateway, gate: Arm.Gate, outcome: Outcome)

  /** `gate` is the arm's gate once every command published so far has been delivered. */
  datatype Run = Run(gateway: Gateway, gate: Arm.Gate, clock: Time, lastPoll: Time, log: seq<Entry>)

  const IDLE_RUN := Run(START, Arm.INITIAL, 0.0, 0.0, [])

  function GateAfter(g: Arm.Gate, c: Option<Command>): Arm.Gate {
    if c.Some? then Arm.Absorb(g, c.value) else g
  }

  function EntryOf(cfg: Config, r: Run, e: Timed): Entry {
    Entry(e, r.gateway, r.gate, Step(cfg, r.gateway, e))
  }

  function Extend(cfg: Config, r: Run, e: Timed): Run {
    var entry := EntryOf(cfg, r, e);
    Run(entry.outcome.next,
        GateAfter(r.gate, entry.outcome.command),
        e.now,
        if e.event.Poll? then e.now else r.lastPoll,
        r.log + [entry])
  }

  /** The run has one log entry for each event of the trace. */
  function Execute(cfg: Config, tr: seq<Timed>): (r: Run)
    ensures |r.log| == |tr|
  {
    if tr == [] then IDLE_RUN else Extend(cfg, Execute(cfg, tr[..|tr| - 1]), tr[|tr| - 1])
  }

  // ------------------------------------------------- properties read off the log

  /** Each single step makes the property hold if it starts it, and otherwise keeps it as it was,
      unless it ends it. */
  ghost predicate Steps(cfg: Config, holds: Gateway -> bool, starts: Entry -> bool, ends: Entry -> bool) {
    forall r: Run, e: Timed {:trigger EntryOf(cfg, r, e)} ::
      var entry := EntryOf(cfg, r, e);
      holds(entry.outcome.next) <==> starts(entry) || (holds(r.gateway) && !ends(entry))
  }

  /** What is so of every single step is so of whole runs: the property holds exactly if some step has
      started it and none has ended it since. */
  lemma {:induction false} HoldsIff(
    cfg: Config, tr: seq<Timed>, holds: Gateway -> bool, starts: Entry -> bool, ends: Entry -> bool)
    requires !holds(START) && Steps(cfg, holds, starts, ends)
    ensures var r := Execute(cfg, tr); holds(r.gateway) <==> Since(r.log, starts, ends)
  {
    if tr == [] {
    } else {
      var n := |tr| - 1;
      HoldsIff(cfg, tr[..n], holds, starts, ends);
      var r := Execute(cfg, tr[..n]);
      SinceExtends(r.log, EntryOf(cfg, r, tr[n]), starts, ends);
    }
  }

  // ------------------------------------------------- vocabulary for log entries

  function MessageOf(e: Timed): Option<Message> {
    match e.event
    case Peer(msg) => Some(msg)
    case Signal(EstopRelay(msg)) => Some(msg)
    case _ => None
  }

  predicate Acked(e: Entry, t: AckType) {
    e.outcome.reply.Some? && e.outcome.reply.value.Ack? && e.outcome.reply.value.ackType == t
  }

  /** A message of the right version asking for, or giving up, an emergency stop. */
  predicate Engages(e: Entry) {
    var m := MessageOf(e.at);
    m.Some? && m.value.version == PROTOCOL_VERSION && m.value.body.Estop? && m.value.body.engaged
  }

  predicate Resets(e: Entry) {
    var m := MessageOf(e.at);
    m.Some? && m.value.version == PROTOCOL_VERSION && m.value.body.Estop? && !m.value.body.engaged && m.value.body.reset
  }

  predicate JoinsAt(e: Entry) {
    e.at.event.Signal? && e.at.event.message.Joined?
  }

  predicate JoinsAs(e: Entry, s: SessionState) {
    JoinsAt(e) && e.at.event.message.sessionState == s
  }

  predicate TripsAt(e: Entry) {
    e.at.event.Poll? && e.outcome.command.Some?
  }

  predicate OwnerMoves(e: Entry) {
    e.before.machine.owner != e.outcome.next.machine.owner
  }

  predicate PoseAt(e: Entry) {
    e.outcome.command.Some? && e.outcome.command.value.joints.Value?
  }

  /** What this step makes the arm drive. */
  function DrivenAt(e: Entry): Option<seq<real>> {
    if e.outcome.command.Some? then Arm.Driven(e.gate, e.outcome.command.value) else None
  }

  /** The sender named by an accepted data-channel message. */
  function OperatorAt(e: Entry): Option<OperatorId> {
    if e.at.event.Peer? && !e.at.event.msg.body.Estop? && !e.at.event.msg.body.OtherBody?
    then Some(e.at.event.msg.body.operator) else None
  }

  /** A joined message as the signaling server can send it. */
  predicate CoarseJoin(e: Timed) {
    e.event.Signal? && e.event.message.Joined? ==> Coarse(e.event.message.sessionState)
  }

  predicate CoarseJoins(tr: seq<Timed>) {
    forall i | 0 <= i < |tr| :: CoarseJoin(tr[i])
  }
}
