/** What every run of the follower gateway guarantees. */
module GatewaySafety {
  import opened Protocol
  import opened CommandHandler
  import opened FollowerGateway
  import opened GatewayRun
  import opened History
  import Arm
  import Watchdog

  // ------------------------------------------------- the state mirrors the gate

  /** What the follower's state says about the arm's flags and about the watchdog. */
  predicate Simulates(g: Gateway, gate: Arm.Gate) {
    && (g.machine.state.Armed? ==> gate == Arm.Gate(true, false, Tracking))
    && (g.machine.state.Clutched? ==> gate == Arm.Gate(true, true, Tracking))
    && (g.machine.state.Frozen? ==> !gate.enabled)
    && (g.machine.IsArmed() ==> g.machine.owner.Some? && !g.dog.tripped)
  }

  lemma {:induction false} SimulatesStep(cfg: Config, g: Gateway, gate: Arm.Gate, e: Timed)
    requires Simulates(g, gate) && CoarseJoin(e)
    ensures var o := Step(cfg, g, e); Simulates(o.next, GateAfter(gate, o.command))
  {
  }

  /** In every reachable state an armed session has the arm tracking, a clutched one has it
      holding, a frozen one has it disabled, and the watchdog can still freeze an armed one. */
  lemma {:induction false} Simulation(cfg: Config, tr: seq<Timed>)
    requires CoarseJoins(tr)
    ensures var r := Execute(cfg, tr); Simulates(r.gateway, r.gate)
  {
    if tr == [] {
    } else {
      var n := |tr| - 1;
      Simulation(cfg, tr[..n]);
      SimulatesStep(cfg, Execute(cfg, tr[..n]).gateway, Execute(cfg, tr[..n]).gate, tr[n]);
    }
  }

  // ------------------------------------------------- arming

  predicate StartsArming(e: Entry) {
    Acked(e, EnableAck) || JoinsAs(e, Armed) || JoinsAs(e, Clutched)
  }

  predicate EndsArming(e: Entry) {
    OwnerMoves(e) || Acked(e, DisableAck) || Engages(e) || TripsAt(e) || JoinsAt(e)
  }

  lemma {:induction false} ArmingStep(cfg: Config, r: Run, e: Timed)
    ensures var entry := EntryOf(cfg, r, e);
            entry.outcome.next.machine.IsArmed() <==>
            StartsArming(entry) || (r.gateway.machine.IsArmed() && !EndsArming(entry))
  {
  }

  /** No auto-arm, exactly: the session is armed if and only if an enable was accepted (or the
      server said so on joining) and since then the owner has not changed, no disable was
      accepted, no e-stop engaged, the watchdog did not trip and the gateway did not rejoin. */
  lemma {:induction false} ArmedIff(cfg: Config, tr: seq<Timed>)
    ensures var r := Execute(cfg, tr);
            r.gateway.machine.IsArmed() <==> Since(r.log, StartsArming, EndsArming)
  {
    var holds := (g: Gateway) => g.machine.IsArmed();
    forall r: Run, e: Timed {
      ArmingStep(cfg, r, e);
    }
    HoldsIff(cfg, tr, holds, StartsArming, EndsArming);
  }

  function EnabledBy(op: OperatorId): Entry -> bool {
    e => Acked(e, EnableAck) && OperatorAt(e) == Some(op)
  }

  predicate ArmingOwner(r: Run, op: OperatorId) {
    r.gateway.machine.IsArmed() && r.gateway.machine.owner == Some(op)
  }

  lemma {:induction false} ArmingOwnerStep(cfg: Config, r: Run, e: Timed, op: OperatorId)
    requires CoarseJoin(e) && ArmingOwner(Extend(cfg, r, e), op)
    ensures var entry := EntryOf(cfg, r, e);
            EnabledBy(op)(entry) || (ArmingOwner(r, op) && !EndsArming(entry))
  {
  }

  /** The enable that arms the session came from the operator who owns it now. */
  lemma {:induction false} ArmedByOwner(cfg: Config, tr: seq<Timed>, op: OperatorId)
    requires CoarseJoins(tr) && ArmingOwner(Execute(cfg, tr), op)
    ensures Since(Execute(cfg, tr).log, EnabledBy(op), EndsArming)
  {
    var n := |tr| - 1;
    var r := Execute(cfg, tr[..n]);
    ArmingOwnerStep(cfg, r, tr[n], op);
    if !EnabledBy(op)(EntryOf(cfg, r, tr[n])) {
      ArmedByOwner(cfg, tr[..n], op);
    }
    SinceExtends(r.log, EntryOf(cfg, r, tr[n]), EnabledBy(op), EndsArming);
  }

  // ------------------------------------------------- emergency stop

  predicate StartsStop(e: Entry) {
    Engages(e) || JoinsAs(e, Estopped)
  }

  predicate ClearsStop(e: Entry) {
    Resets(e) || JoinsAt(e)
  }

  lemma {:induction false} StopStep(cfg: Config, r: Run, e: Timed)
    ensures var entry := EntryOf(cfg, r, e);
            entry.outcome.next.machine.IsEstopped() <==>
            StartsStop(entry) || (r.gateway.machine.IsEstopped() && !ClearsStop(entry))
  {
  }

  /** The session is stopped if and only if a stop was engaged (or reported on joining) and
      neither a reset that does not engage nor a rejoin has followed. */
  lemma {:induction false} StoppedIff(cfg: Config, tr: seq<Timed>)
    ensures var r := Execute(cfg, tr);
            r.gateway.machine.IsEstopped() <==> Since(r.log, StartsStop, ClearsStop)
  {
    var holds := (g: Gateway) => g.machine.IsEstopped();
    forall r: Run, e: Timed {
      StopStep(cfg, r, e);
    }
    HoldsIff(cfg, tr, holds, StartsStop, ClearsStop);
  }

  /** Nothing that could move the arm: no pose, no grip, no homing, no enabling. */
  predicate Quiet(c: Option<Command>) {
    c.Some? ==>
      && !c.value.joints.Value? && !c.value.gripper.Value?
      && c.value.mode != Value(Homing) && c.value.enabled != Value(true)
  }

  lemma {:induction false} LatchStep(cfg: Config, r: Run, e: Timed)
    ensures var entry := EntryOf(cfg, r, e);
            Engages(entry) || (r.gateway.machine.IsEstopped() && !r.gate.enabled && !ClearsStop(entry)) ==>
              && entry.outcome.next.machine.IsEstopped()
              && !GateAfter(r.gate, entry.outcome.command).enabled
              && Quiet(entry.outcome.command)
  {
  }

  /** After an e-stop of the right version, from any state and whatever follows short of a reset
      or a rejoin, the session stays stopped, the gate stays closed and every step is quiet. */
  lemma {:induction false} EstopLatch(cfg: Config, tr: seq<Timed>, i: nat)
    requires SinceAt(Execute(cfg, tr).log, Engages, ClearsStop, i)
    ensures var r := Execute(cfg, tr);
            && r.gateway.machine.IsEstopped() && !r.gate.enabled && !Arm.Open(r.gate)
            && forall j | i <= j < |r.log| :: Quiet(r.log[j].outcome.command)
  {
    var n := |tr| - 1;
    var r, r' := Execute(cfg, tr[..n]), Execute(cfg, tr);
    LatchStep(cfg, r, tr[n]);
    if i == |r.log| {
    } else {
      forall j | i <= j < |r.log| ensures r'.log[j] == r.log[j] {}
      EstopLatch(cfg, tr[..n], i);
      assert !ClearsStop(r'.log[|r.log|]);
    }
  }

  // ------------------------------------------------- when the arm's gate is open

  /** An accepted clutch message that lets the clutch in or out. */
  predicate ClutchedAt(e: Entry, engage: bool) {
    Acked(e, ClutchAck) && e.at.event.Peer? && e.at.event.msg.body.Clutch? && e.at.event.msg.body.engage == engage
  }

  predicate OpensGate(e: Entry) {
    Acked(e, EnableAck) || ClutchedAt(e, false)
  }

  /** A disable, a homing, a freeze, an engaged clutch, and every stop message, whatever it asks for,
      that does not leave the session ARMED. */
  predicate ClosesGate(e: Entry) {
    || Acked(e, DisableAck) || Acked(e, HomeAck) || TripsAt(e) || ClutchedAt(e, true)
    || (Acked(e, EstopAck) && !e.outcome.next.machine.state.Armed?)
  }

  lemma {:induction false} OpenStep(cfg: Config, r: Run, e: Timed)
    requires Simulates(r.gateway, r.gate)
    ensures var entry := EntryOf(cfg, r, e);
            Arm.Open(GateAfter(r.gate, entry.outcome.command)) <==>
            OpensGate(entry) || (Arm.Open(r.gate) && !ClosesGate(entry))
  {
  }

  /** The actuator gate, exactly: it is open if and only if an enable or a clutch release was accepted
      and since then no disable, homing, freeze, engaged clutch or effective stop message. Poses and
      grips neither open nor close it, and neither does anything that the server reports: a change of
      owner, a rejoin, or a stop reported on joining. */
  lemma {:induction false} GateOpenIff(cfg: Config, tr: seq<Timed>)
    requires CoarseJoins(tr)
    ensures var r := Execute(cfg, tr); Arm.Open(r.gate) <==> Since(r.log, OpensGate, ClosesGate)
  {
    if tr == [] {
    } else {
      var n := |tr| - 1;
      GateOpenIff(cfg, tr[..n]);
      Simulation(cfg, tr[..n]);
      var r := Execute(cfg, tr[..n]);
      OpenStep(cfg, r, tr[n]);
      SinceExtends(r.log, EntryOf(cfg, r, tr[n]), OpensGate, ClosesGate);
    }
  }

  /** A stop that the gateway learns of by joining a stopped session stops the session but publishes
      nothing, so an open gate stays open; the same stop as a message closes it. */
  lemma {:induction false} ReportedStopLeavesGate(
    cfg: Config, r: Run, now: Time, wall: Time, id: ParticipantId, owner: Option<OperatorId>, stop: EstopMessage)
    requires stop.version == PROTOCOL_VERSION && stop.body.engaged
    ensures var joined := Extend(cfg, r, Timed(now, wall, Signal(Joined(id, Estopped, owner))));
            joined.gateway.machine.IsEstopped() && joined.gate == r.gate
    ensures var told := Extend(cfg, r, Timed(now, wall, Signal(EstopRelay(stop))));
            told.gateway.machine.IsEstopped() && !Arm.Open(told.gate)
  {
  }

  // ------------------------------------------------- the timed fail-safe

  /** Polls are never more than `gap` apart and the clock never runs backwards. */
  predicate Timely(r: Run, e: Timed, gap: Time) {
    r.clock <= e.now <= r.lastPoll + gap
  }

  predicate WellTimed(cfg: Config, tr: seq<Timed>, gap: Time) {
    tr == [] ||
    (&& WellTimed(cfg, tr[..|tr| - 1], gap)
     && Timely(Execute(cfg, tr[..|tr| - 1]), tr[|tr| - 1], gap))
  }

  /** A packet that keeps the arm moving: a leader pose, an enable or a clutch release that the
      protocol permitted in the state in which it came. */
  predicate FeedsAt(cfg: Config, e: Entry) {
    && e.at.event.Peer?
    && Permitted(cfg.maxPacketAge, e.before.machine, e.before.leaderSeq, e.at.event.msg, e.at.wall)
    && match e.at.event.msg.body
       case LeaderState(_, _, _, _, _) => true
       case Enable(_) => true
       case Clutch(_, engage) => !engage
       case _ => false
  }

  predicate FedAt(cfg: Config, log: seq<Entry>, t: Time, i: int) {
    0 <= i < |log| && FeedsAt(cfg, log[i]) && log[i].at.now == t
  }

  ghost predicate GuardedGate(cfg: Config, r: Run) {
    var d := r.gateway.dog;
    && r.lastPoll <= r.clock
    && (d.lastFeed.Some? ==> d.lastFeed.value <= r.clock && exists i :: FedAt(cfg, r.log, d.lastFeed.value, i))
    && (Arm.Open(r.gate) ==>
          && d.lastFeed.Some? && !d.tripped
          && (r.lastPoll <= d.lastFeed.value || r.lastPoll - d.lastFeed.value <= cfg.packetTimeout))
  }

  /** A step that leaves the gate open either fed the watchdog or found it open and kept it. */
  lemma {:induction false} GuardStep(cfg: Config, r: Run, e: Timed)
    requires Simulates(r.gateway, r.gate) && CoarseJoin(e)
    ensures var entry := EntryOf(cfg, r, e);
            var d, d' := r.gateway.dog, entry.outcome.next.dog;
            && (d'.lastFeed.Some? ==>
                  d'.lastFeed == d.lastFeed || (d' == Watchdog.Fed(e.now) && FeedsAt(cfg, entry)))
            && (Arm.Open(GateAfter(r.gate, entry.outcome.command)) ==>
                  || d' == Watchdog.Fed(e.now)
                  || (&& Arm.Open(r.gate) && d'.lastFeed == d.lastFeed
                      && (!d.tripped ==> !d'.tripped)
                      && (e.event.Poll? && !d.tripped ==> !Watchdog.Overdue(d, cfg.packetTimeout, e.now))))
  {
  }

  lemma {:induction false} GuardedExtend(cfg: Config, r: Run, e: Timed, gap: Time)
    requires Simulates(r.gateway, r.gate) && CoarseJoin(e) && Timely(r, e, gap) && GuardedGate(cfg, r)
    ensures GuardedGate(cfg, Extend(cfg, r, e))
  {
    GuardStep(cfg, r, e);
    var r' := Extend(cfg, r, e);
    var d' := r'.gateway.dog;
    if d'.lastFeed.Some? {
      if d' == Watchdog.Fed(e.now) && FeedsAt(cfg, EntryOf(cfg, r, e)) {
        assert FedAt(cfg, r'.log, e.now, |r.log|);
      } else {
        var i :| FedAt(cfg, r.log, d'.lastFeed.value, i);
        assert FedAt(cfg, r'.log, d'.lastFeed.value, i);
      }
    }
  }

  lemma {:induction false} Guarded(cfg: Config, tr: seq<Timed>, gap: Time)
    requires CoarseJoins(tr) && WellTimed(cfg, tr, gap)
    ensures GuardedGate(cfg, Execute(cfg, tr))
  {
    if tr == [] {
    } else {
      var n := |tr| - 1;
      Guarded(cfg, tr[..n], gap);
      Simulation(cfg, tr[..n]);
      GuardedExtend(cfg, Execute(cfg, tr[..n]), tr[n], gap);
    }
  }

  /** A permitted feeding packet no more than `bound` before t. */
  ghost predicate RecentlyFed(cfg: Config, log: seq<Entry>, t: Time, bound: Time) {
    exists i :: 0 <= i < |log| && FeedsAt(cfg, log[i]) && t - log[i].at.now <= bound
  }

  lemma {:induction false} GuardedIsRecent(cfg: Config, r: Run, gap: Time, t: Time)
    requires GuardedGate(cfg, r) && Arm.Open(r.gate) && r.clock <= t <= r.lastPoll + gap && cfg.packetTimeout >= 0.0
    ensures RecentlyFed(cfg, r.log, t, cfg.packetTimeout + gap)
  {
  }

  /** The fail-safe: at any moment up to a poll gap after the last poll, if the gate is open then
      the watchdog is running untripped and a pose, an enable or a clutch release was accepted
      within the packet timeout plus one poll gap. Losing ownership or rejoining changes nothing. */
  lemma {:induction false} FailSafe(cfg: Config, tr: seq<Timed>, gap: Time, t: Time)
    requires CoarseJoins(tr) && WellTimed(cfg, tr, gap) && cfg.packetTimeout >= 0.0
    requires var r := Execute(cfg, tr); r.clock <= t <= r.lastPoll + gap && Arm.Open(r.gate)
    ensures var r := Execute(cfg, tr);
            && r.gateway.dog.lastFeed.Some? && !r.gateway.dog.tripped
            && RecentlyFed(cfg, r.log, t, cfg.packetTimeout + gap)
  {
    Guarded(cfg, tr, gap);
    GuardedIsRecent(cfg, Execute(cfg, tr), gap, t);
  }

  // ------------------------------------------------- owner and state agree

  /** A report of state and owner as the server can send it to a participant. */
  predicate CoherentReport(s: SessionState, owner: Option<OperatorId>) {
    Coarse(s) && !s.Disconnected? && (!s.Estopped? ==> (owner.Some? <==> s.Claimed?))
  }

  predicate CoherentJoin(e: Timed) {
    e.event.Signal? && e.event.message.Joined? ==> CoherentReport(e.event.message.sessionState, e.event.message.owner)
  }

  /** Once joined, a session that is not stopped has no owner exactly when it is connected or
      ready, and it is never disconnected again. */
  predicate Coherent(g: Gateway) {
    g.participantId.Some? ==>
      && !g.machine.state.Disconnected?
      && (!g.machine.IsEstopped() ==>
            (g.machine.owner == None <==> g.machine.state.Connected? || g.machine.state.Ready?))
  }

  lemma {:induction false} CoherentStep(cfg: Config, g: Gateway, e: Timed)
    requires Coherent(g) && CoherentJoin(e)
    ensures Coherent(Step(cfg, g, e).next)
  {
  }
}
