/** Facts that relate several steps of one gateway run: who sent what, in which order, and what a
    delayed arm still sees. */
module GatewayHistory {
  import opened Protocol
  import opened StateMachine
  import opened CommandHandler
  import opened FollowerGateway
  import opened GatewayRun
  import opened GatewaySafety
  import opened History
  import Arm
  import RosBackend

  // ------------------------------------------------- the log and the prefixes of a run

  /** Entry j is the step that the prefix of length j takes next. */
  lemma {:induction false} LogAt(cfg: Config, tr: seq<Timed>, j: nat)
    requires j < |tr|
    ensures Execute(cfg, tr).log[j] == EntryOf(cfg, Execute(cfg, tr[..j]), tr[j])
  {
    var n := |tr| - 1;
    if j == n {
    } else {
      LogAt(cfg, tr[..n], j);
      assert tr[..n][..j] == tr[..j];
    }
  }

  lemma {:induction false} LogPrefix(cfg: Config, tr: seq<Timed>, j: nat)
    requires j <= |tr|
    ensures Execute(cfg, tr[..j]).log == Execute(cfg, tr).log[..j]
  {
    forall i | 0 <= i < j ensures Execute(cfg, tr[..j]).log[i] == Execute(cfg, tr).log[i] {
      LogAt(cfg, tr, i);
      LogAt(cfg, tr[..j], i);
      assert tr[..j][..i] == tr[..i];
    }
  }

  lemma {:induction false} StepAfter(cfg: Config, tr: seq<Timed>, j: nat)
    requires j < |tr|
    ensures Execute(cfg, tr[..j + 1]) == Extend(cfg, Execute(cfg, tr[..j]), tr[j])
  {
    assert tr[..j + 1][..j] == tr[..j];
  }

  lemma {:induction false} WellTimedPrefix(cfg: Config, tr: seq<Timed>, gap: Time, j: nat)
    requires WellTimed(cfg, tr, gap) && j <= |tr|
    ensures WellTimed(cfg, tr[..j], gap)
    ensures j < |tr| ==> Timely(Execute(cfg, tr[..j]), tr[j], gap)
  {
    var n := |tr| - 1;
    if j == |tr| {
      assert tr[..j] == tr;
    } else if j < n {
      WellTimedPrefix(cfg, tr[..n], gap, j);
      assert tr[..n][..j] == tr[..j];
    }
  }

  // ------------------------------------------------- an arm that lags behind

  lemma {:induction false} GateStep(cfg: Config, tr: seq<Timed>, j: nat)
    requires j < |tr| && Execute(cfg, tr).log[j].outcome.command == None
    ensures Execute(cfg, tr[..j + 1]).gate == Execute(cfg, tr[..j]).gate
  {
    LogAt(cfg, tr, j);
    StepAfter(cfg, tr, j);
  }

  /** While nothing is published the gate stays as it is. */
  lemma {:induction false} GateHeld(cfg: Config, tr: seq<Timed>, k: nat, j: nat)
    requires k <= j <= |tr|
    requires forall i | k <= i < j :: Execute(cfg, tr).log[i].outcome.command == None
    ensures Execute(cfg, tr[..j]).gate == Execute(cfg, tr[..k]).gate
  {
    if k == j {
    } else {
      GateHeld(cfg, tr, k, j - 1);
      GateStep(cfg, tr, j - 1);
    }
  }

  /** The gate of an arm that has folded exactly the commands of the first k steps. */
  function GateAt(r: Run, k: nat): Arm.Gate
    requires k <= |r.log|
  {
    if k < |r.log| then r.log[k].gate else r.gate
  }

  /** Whatever was published from step k on was published no earlier than `delay` before t. */
  predicate LagsAtMost(r: Run, k: nat, delay: Time, t: Time) {
    forall j | k <= j < |r.log| :: r.log[j].outcome.command.Some? ==> t - r.log[j].at.now <= delay
  }

  /** At time t, not too long after the last poll, an arm that lags has its gate open. */
  predicate OpenLate(r: Run, gap: Time, delay: Time, k: nat, t: Time) {
    && r.clock <= t <= r.lastPoll + gap && delay >= 0.0
    && k <= |r.log| && LagsAtMost(r, k, delay, t) && Arm.Open(GateAt(r, k))
  }

  lemma {:induction false} GateAtPrefix(cfg: Config, tr: seq<Timed>, k: nat)
    requires k <= |tr|
    ensures GateAt(Execute(cfg, tr), k) == Execute(cfg, tr[..k]).gate
  {
    if k < |tr| {
      LogAt(cfg, tr, k);
    } else {
      assert tr[..k] == tr;
    }
  }

  lemma {:induction false} RecentInPrefix(cfg: Config, tr: seq<Timed>, j: nat, t: Time, bound: Time)
    requires j <= |tr| && RecentlyFed(cfg, Execute(cfg, tr[..j]).log, t, bound)
    ensures RecentlyFed(cfg, Execute(cfg, tr).log, t, bound)
  {
    LogPrefix(cfg, tr, j);
    var log, log' := Execute(cfg, tr[..j]).log, Execute(cfg, tr).log;
    var i :| 0 <= i < |log| && FeedsAt(cfg, log[i]) && t - log[i].at.now <= bound;
    assert log'[i] == log[i];
  }

  /** The fail-safe for an arm that receives the commands in order and at most `delay` late. */
  lemma {:induction false} DelayedFailSafe(cfg: Config, tr: seq<Timed>, gap: Time, delay: Time, k: nat, t: Time)
    requires CoarseJoins(tr) && WellTimed(cfg, tr, gap) && cfg.packetTimeout >= 0.0
    requires OpenLate(Execute(cfg, tr), gap, delay, k, t)
    ensures RecentlyFed(cfg, Execute(cfg, tr).log, t, cfg.packetTimeout + gap + delay)
  {
    var log := Execute(cfg, tr).log;
    var j := k;
    while j < |tr| && log[j].outcome.command == None
      invariant k <= j <= |tr|
      invariant forall i | k <= i < j :: log[i].outcome.command == None
    {
      j := j + 1;
    }
    GateAtPrefix(cfg, tr, k);
    GateHeld(cfg, tr, k, j);
    if j == |tr| {
      assert tr[..|tr|] == tr;
      FailSafe(cfg, tr, gap, t);
    } else {
      LogAt(cfg, tr, j);
      WellTimedPrefix(cfg, tr, gap, j);
      FailSafe(cfg, tr[..j], gap, tr[j].now);
      RecentInPrefix(cfg, tr, j, tr[j].now, cfg.packetTimeout + gap);
    }
  }

  // ------------------------------------------------- a stop and an arm that lags

  lemma {:induction false} TimesIncrease(cfg: Config, tr: seq<Timed>, gap: Time, i: nat, j: nat)
    requires WellTimed(cfg, tr, gap) && i <= j < |tr|
    ensures tr[i].now <= tr[j].now
  {
    if i == j {
    } else {
      TimesIncrease(cfg, tr, gap, i, j - 1);
      WellTimedPrefix(cfg, tr, gap, j);
      StepAfter(cfg, tr, j - 1);
    }
  }

  lemma {:induction false} StoppedIsQuiet(cfg: Config, r: Run, e: Timed)
    requires r.gateway.machine.IsEstopped()
    ensures Quiet(EntryOf(cfg, r, e).outcome.command)
  {
  }

  /** From the step after a stop on, every step finds the session stopped and is quiet. */
  lemma {:induction false} StoppedSteps(cfg: Config, tr: seq<Timed>, i: nat, j: nat)
    requires SinceAt(Execute(cfg, tr).log, StartsStop, ClearsStop, i) && i < j < |tr|
    ensures var e := Execute(cfg, tr).log[j]; e.before.machine.IsEstopped() && Quiet(e.outcome.command)
  {
    LogPrefix(cfg, tr, j);
    LogAt(cfg, tr, j);
    var log, before := Execute(cfg, tr).log, Execute(cfg, tr[..j]);
    forall m | i <= m < j ensures before.log[m] == log[m] {}
    assert SinceAt(before.log, StartsStop, ClearsStop, i);
    StoppedIff(cfg, tr[..j]);
    StoppedIsQuiet(cfg, before, tr[j]);
  }

  lemma {:induction false} EstopEffect(cfg: Config, r: Run, e: Timed)
    requires Engages(EntryOf(cfg, r, e))
    ensures EntryOf(cfg, r, e).outcome.command.Some?
  {
  }

  lemma {:induction false} EngagedStopPublishes(cfg: Config, tr: seq<Timed>, i: nat)
    requires i < |tr| && Engages(Execute(cfg, tr).log[i])
    ensures Execute(cfg, tr).log[i].outcome.command.Some?
  {
    LogAt(cfg, tr, i);
    EstopEffect(cfg, Execute(cfg, tr[..i]), tr[i]);
  }

  /** A stop message closes the gate of every arm that has received the stop's own command. */
  lemma {:induction false} LatchReached(cfg: Config, tr: seq<Timed>, i: nat, k: nat)
    requires SinceAt(Execute(cfg, tr).log, Engages, ClearsStop, i) && i < k <= |tr|
    ensures !Arm.Open(GateAt(Execute(cfg, tr), k))
  {
    GateAtPrefix(cfg, tr, k);
    LogPrefix(cfg, tr, k);
    var log, before := Execute(cfg, tr).log, Execute(cfg, tr[..k]);
    forall m | i <= m < k ensures before.log[m] == log[m] {}
    EstopLatch(cfg, tr[..k], i);
  }

  /** Without a feeding packet after step i, a lagging arm's gate closes in the fail-safe's time. */
  lemma {:induction false} UnfedGateCloses(
    cfg: Config, tr: seq<Timed>, gap: Time, delay: Time, k: nat, t: Time, i: nat)
    requires CoarseJoins(tr) && WellTimed(cfg, tr, gap) && cfg.packetTimeout >= 0.0
    requires OpenLate(Execute(cfg, tr), gap, delay, k, t)
    requires i < |tr| && forall f | i < f < |tr| :: !FeedsAt(cfg, Execute(cfg, tr).log[f])
    ensures t - tr[i].now <= cfg.packetTimeout + gap + delay
  {
    var log := Execute(cfg, tr).log;
    DelayedFailSafe(cfg, tr, gap, delay, k, t);
    var f :| 0 <= f < |log| && FeedsAt(cfg, log[f]) && t - log[f].at.now <= cfg.packetTimeout + gap + delay;
    LogAt(cfg, tr, f);
    TimesIncrease(cfg, tr, gap, f, i);
  }

  /** How long a lagging arm's gate can outlive a stop: as long as a command takes if the stop came
      as a message, and as long as the fail-safe takes if the gateway learnt of it on joining. */
  lemma {:induction false} StopClosesGate(
    cfg: Config, tr: seq<Timed>, gap: Time, delay: Time, k: nat, t: Time, i: nat)
    requires CoarseJoins(tr) && WellTimed(cfg, tr, gap) && cfg.packetTimeout >= 0.0
    requires OpenLate(Execute(cfg, tr), gap, delay, k, t)
    requires SinceAt(Execute(cfg, tr).log, StartsStop, ClearsStop, i)
    ensures var bound := if Engages(Execute(cfg, tr).log[i]) then delay else cfg.packetTimeout + gap + delay;
            t - tr[i].now <= bound
  {
    var log := Execute(cfg, tr).log;
    LogAt(cfg, tr, i);
    if Engages(log[i]) {
      if i < k {
        LatchReached(cfg, tr, i, k);
      }
      EngagedStopPublishes(cfg, tr, i);
    } else {
      forall f | i < f < |tr| ensures !FeedsAt(cfg, log[f]) {
        StoppedSteps(cfg, tr, i, f);
      }
      UnfedGateCloses(cfg, tr, gap, delay, k, t, i);
    }
  }

  // ------------------------------------------------- the end of arming and an arm that lags

  lemma {:induction false} FeedNeedsArming(cfg: Config, r: Run, e: Timed)
    ensures var entry := EntryOf(cfg, r, e);
            FeedsAt(cfg, entry) && !Acked(entry, EnableAck) ==> r.gateway.machine.IsArmed()
  {
  }

  /** After the end of arming at step i, and before a new enable, nothing feeds the watchdog. */
  lemma {:induction false} DisarmedIsUnfed(cfg: Config, tr: seq<Timed>, i: nat, f: nat)
    requires CoarseJoins(tr) && i < f < |tr| && EndsArming(Execute(cfg, tr).log[i])
    requires forall j | i <= j < |tr| :: !Acked(Execute(cfg, tr).log[j], EnableAck)
    ensures !FeedsAt(cfg, Execute(cfg, tr).log[f])
  {
    LogAt(cfg, tr, f);
    LogPrefix(cfg, tr, f);
    var log, before := Execute(cfg, tr).log, Execute(cfg, tr[..f]);
    forall m | 0 <= m < f ensures before.log[m] == log[m] && log[m].at == tr[m] {
      LogAt(cfg, tr, m);
    }
    ArmedIff(cfg, tr[..f]);
    FeedNeedsArming(cfg, before, tr[f]);
  }

  /** How long a former operator's arm stays open: after whatever ends arming, be it a change of owner,
      a rejoin, a disable, a stop or a freeze, and until somebody enables anew, a lagging arm's gate is
      open for no longer than packet timeout, gap and delay together. */
  lemma {:induction false} EndOfArmingClosesGate(
    cfg: Config, tr: seq<Timed>, gap: Time, delay: Time, k: nat, t: Time, i: nat)
    requires CoarseJoins(tr) && WellTimed(cfg, tr, gap) && cfg.packetTimeout >= 0.0
    requires OpenLate(Execute(cfg, tr), gap, delay, k, t)
    requires i < |tr| && EndsArming(Execute(cfg, tr).log[i])
    requires forall j | i <= j < |tr| :: !Acked(Execute(cfg, tr).log[j], EnableAck)
    ensures t - tr[i].now <= cfg.packetTimeout + gap + delay
  {
    forall f | i < f < |tr| ensures !FeedsAt(cfg, Execute(cfg, tr).log[f]) {
      DisarmedIsUnfed(cfg, tr, i, f);
    }
    UnfedGateCloses(cfg, tr, gap, delay, k, t, i);
  }

  // ------------------------------------------------- whose packets move the arm

  /** A step that publishes a pose or a grip. */
  predicate MotionAt(e: Entry) {
    e.outcome.command.Some? && (e.outcome.command.value.joints.Value? || e.outcome.command.value.gripper.Value?)
  }

  lemma {:induction false} MotionIsOwned(cfg: Config, r: Run, e: Timed)
    ensures var entry := EntryOf(cfg, r, e);
            MotionAt(entry) ==>
              && entry.at.event.Peer? && entry.before.machine.IsArmed()
              && OperatorAt(entry).Some? && entry.before.machine.owner == OperatorAt(entry)
              && !Acked(entry, EnableAck) && !OwnerMoves(entry)
  {
  }

  /** If the owner does not move between two steps, both find the same owner. */
  lemma {:induction false} OwnerHeld(cfg: Config, tr: seq<Timed>, a: nat, b: nat)
    requires a <= b < |tr|
    requires forall i | a <= i < b :: !OwnerMoves(Execute(cfg, tr).log[i])
    ensures Execute(cfg, tr).log[a].before.machine.owner == Execute(cfg, tr).log[b].before.machine.owner
  {
    if a == b {
    } else {
      OwnerHeld(cfg, tr, a, b - 1);
      LogAt(cfg, tr, b - 1);
      LogAt(cfg, tr, b);
      StepAfter(cfg, tr, b - 1);
    }
  }

  predicate EnableBefore(log: seq<Entry>, op: OperatorId, e: int, j: int) {
    0 <= e < j <= |log| && EnabledBy(op)(log[e]) && forall i | e < i < j :: !EndsArming(log[i])
  }

  /** Behind every pose or grip stands an accepted enable of the same operator, with nothing in
      between that ends arming. */
  lemma {:induction false} MotionIsEnabled(cfg: Config, tr: seq<Timed>, j: nat) returns (e: int)
    requires CoarseJoins(tr) && j < |tr|
    requires MotionAt(Execute(cfg, tr).log[j])
    ensures var log := Execute(cfg, tr).log;
            OperatorAt(log[j]).Some? && EnableBefore(log, OperatorAt(log[j]).value, e, j)
  {
    LogAt(cfg, tr, j);
    var r, log := Execute(cfg, tr[..j]), Execute(cfg, tr).log;
    MotionIsOwned(cfg, r, tr[j]);
    var op := OperatorAt(log[j]).value;
    ArmedByOwner(cfg, tr[..j], op);
    LogPrefix(cfg, tr, j);
    e :| SinceAt(r.log, EnabledBy(op), EndsArming, e);
    forall i | e < i < j ensures !EndsArming(log[i]) {
      assert r.log[i] == log[i];
    }
    assert r.log[e] == log[e];
  }

  /** The step j, published as a motion, finds its sender to be the owner and leaves it so. */
  lemma {:induction false} MotionFact(cfg: Config, tr: seq<Timed>, j: nat)
    requires j < |tr| && MotionAt(Execute(cfg, tr).log[j])
    ensures var e := Execute(cfg, tr).log[j];
            && OperatorAt(e).Some? && e.before.machine.owner == OperatorAt(e)
            && !OwnerMoves(e) && !Acked(e, EnableAck)
  {
    LogAt(cfg, tr, j);
    MotionIsOwned(cfg, Execute(cfg, tr[..j]), tr[j]);
  }

  lemma {:induction false} EnableIsOwned(cfg: Config, r: Run, e: Timed)
    ensures var entry := EntryOf(cfg, r, e);
            Acked(entry, EnableAck) ==> entry.before.machine.owner == OperatorAt(entry) && !OwnerMoves(entry)
  {
  }

  lemma {:induction false} EnableFact(cfg: Config, tr: seq<Timed>, e: nat)
    requires e < |tr| && Acked(Execute(cfg, tr).log[e], EnableAck)
    ensures Execute(cfg, tr).log[e].before.machine.owner == OperatorAt(Execute(cfg, tr).log[e])
    ensures !OwnerMoves(Execute(cfg, tr).log[e])
  {
    LogAt(cfg, tr, e);
    EnableIsOwned(cfg, Execute(cfg, tr[..e]), tr[e]);
  }

  /** The enable behind a later motion of another operator comes after the earlier motion. */
  lemma {:induction false} EnableComesBetween(cfg: Config, tr: seq<Timed>, k: nat, e: nat, j: nat, op: OperatorId)
    requires k < j < |tr| && EnableBefore(Execute(cfg, tr).log, op, e, j)
    requires MotionAt(Execute(cfg, tr).log[k]) && OperatorAt(Execute(cfg, tr).log[k]) != Some(op)
    ensures k < e
  {
    MotionFact(cfg, tr, k);
    if e <= k {
      EnableFact(cfg, tr, e);
      OwnerHeld(cfg, tr, e, k);
      assert false;
    }
  }

  lemma {:induction false} OwnerMovesOnSignal(cfg: Config, r: Run, e: Timed)
    ensures OwnerMoves(EntryOf(cfg, r, e)) ==> e.event.Signal?
  {
  }

  /** Two steps that find different owners have a step between them at which the server moved it. */
  lemma {:induction false} OwnerMovedBetween(cfg: Config, tr: seq<Timed>, k: nat, e: nat) returns (c: nat)
    requires k < e < |tr| && !OwnerMoves(Execute(cfg, tr).log[k])
    requires Execute(cfg, tr).log[k].before.machine.owner != Execute(cfg, tr).log[e].before.machine.owner
    ensures k < c < e && OwnerMoves(Execute(cfg, tr).log[c]) && Execute(cfg, tr).log[c].at.event.Signal?
  {
    if forall i | k <= i < e :: !OwnerMoves(Execute(cfg, tr).log[i]) {
      OwnerHeld(cfg, tr, k, e);
      assert false;
    }
    c :| k <= c < e && OwnerMoves(Execute(cfg, tr).log[c]);
    LogAt(cfg, tr, c);
    OwnerMovesOnSignal(cfg, Execute(cfg, tr[..c]), tr[c]);
  }

  predicate HandoverAt(log: seq<Entry>, op: Option<OperatorId>, k: int, c: int, e: int, j: int) {
    && 0 <= k < c < e < j <= |log|
    && log[c].at.event.Signal? && OwnerMoves(log[c])
    && Acked(log[e], EnableAck) && OperatorAt(log[e]) == op
  }

  /** Between the motions of two different operators the owner changed hands, by word of the
      signaling server, and after that the later operator's enable was accepted. */
  lemma {:induction false} HandoverNeedsEnable(cfg: Config, tr: seq<Timed>, k: nat, j: nat)
    requires CoarseJoins(tr) && k < j < |tr|
    requires var log := Execute(cfg, tr).log;
             MotionAt(log[k]) && MotionAt(log[j]) && OperatorAt(log[k]) != OperatorAt(log[j])
    ensures var log := Execute(cfg, tr).log;
            exists c, e :: HandoverAt(log, OperatorAt(log[j]), k, c, e, j)
  {
    var e := MotionIsEnabled(cfg, tr, j);
    EnableComesBetween(cfg, tr, k, e, j, OperatorAt(Execute(cfg, tr).log[j]).value);
    MotionFact(cfg, tr, k);
    EnableFact(cfg, tr, e);
    var c := OwnerMovedBetween(cfg, tr, k, e);
    assert HandoverAt(Execute(cfg, tr).log, OperatorAt(Execute(cfg, tr).log[j]), k, c, e, j);
  }

  // ------------------------------------------------- the order of poses

  /** The two steps that make the gateway forget the last sequence number. */
  predicate ForgetsAt(e: Entry) {
    Acked(e, DisableAck) || (Acked(e, EstopAck) && e.outcome.next.machine.IsEstopped())
  }

  predicate Unforgotten(log: seq<Entry>, i: int, n: int)
    requires n <= |log|
  {
    0 <= i < n && PoseAt(log[i]) && forall m | i < m < n :: !ForgetsAt(log[m])
  }

  lemma {:induction false} TrackerStep(cfg: Config, r: Run, e: Timed)
    ensures var entry := EntryOf(cfg, r, e);
            var last, last' := r.gateway.leaderSeq, entry.outcome.next.leaderSeq;
            && (ForgetsAt(entry) ==> last' == None)
            && (!ForgetsAt(entry) && !PoseAt(entry) ==> last' == last)
            && (PoseAt(entry) ==>
                  && !ForgetsAt(entry) && e.event.Peer? && e.event.msg.body.LeaderState?
                  && last' == Some(e.event.msg.seqno)
                  && (last.Some? ==> last.value < e.event.msg.seqno)
                  && e.wall - e.event.msg.timestamp <= cfg.maxPacketAge
                  && entry.outcome.command.value.joints == Value(e.event.msg.body.joints))
  {
  }

  /** Every pose accepted since the tracker last forgot is numbered no later than its last. */
  lemma {:induction false} TrackerCovers(cfg: Config, tr: seq<Timed>, i: nat)
    requires Unforgotten(Execute(cfg, tr).log, i, |tr|)
    ensures var r := Execute(cfg, tr);
            && r.log[i].at.event.Peer?
            && r.gateway.leaderSeq.Some?
            && r.log[i].at.event.msg.seqno <= r.gateway.leaderSeq.value
  {
    var n := |tr| - 1;
    var r, r' := Execute(cfg, tr[..n]), Execute(cfg, tr);
    TrackerStep(cfg, r, tr[n]);
    if i == n {
    } else {
      assert r'.log[n] == EntryOf(cfg, r, tr[n]);
      forall m | i <= m < n ensures r.log[m] == r'.log[m] {}
      TrackerCovers(cfg, tr[..n], i);
    }
  }

  /** Poses accepted without a reset between them are strictly increasing in sequence number. */
  lemma {:induction false} PosesIncrease(cfg: Config, tr: seq<Timed>, i: nat, j: nat)
    requires i < j < |tr|
    requires var log := Execute(cfg, tr).log; Unforgotten(log, i, j) && PoseAt(log[j])
    ensures var log := Execute(cfg, tr).log;
            && log[i].at.event.Peer? && log[j].at.event.Peer?
            && log[i].at.event.msg.seqno < log[j].at.event.msg.seqno
  {
    LogPrefix(cfg, tr, j);
    LogAt(cfg, tr, j);
    var r, log := Execute(cfg, tr[..j]), Execute(cfg, tr).log;
    forall m | i <= m < j ensures r.log[m] == log[m] {}
    TrackerCovers(cfg, tr[..j], i);
    TrackerStep(cfg, r, tr[j]);
  }

  predicate WallMonotone(tr: seq<Timed>) {
    forall a, b | 0 <= a < b < |tr| :: tr[a].wall <= tr[b].wall
  }

  /** The replay window: a pose accepted after step i was stamped no earlier than the maximum
      packet age before that step, so a packet older than that is never injected again although
      a reset at step i made the tracker forget it. */
  lemma {:induction false} ReplayWindow(cfg: Config, tr: seq<Timed>, i: nat, j: nat)
    requires WallMonotone(tr) && i < j < |tr|
    requires PoseAt(Execute(cfg, tr).log[j])
    ensures tr[j].event.Peer? && tr[j].event.msg.timestamp >= tr[i].wall - cfg.maxPacketAge
  {
    LogAt(cfg, tr, j);
    TrackerStep(cfg, Execute(cfg, tr[..j]), tr[j]);
  }

  /** One packet is injected a second time only across a reset, and only within its window. */
  lemma {:induction false} ReplayNeedsReset(cfg: Config, tr: seq<Timed>, i: nat, j: nat)
    requires i < j < |tr| && tr[i].event == tr[j].event
    requires var log := Execute(cfg, tr).log; PoseAt(log[i]) && PoseAt(log[j])
    ensures tr[j].event.Peer? && tr[j].wall <= tr[j].event.msg.timestamp + cfg.maxPacketAge
    ensures exists m | i < m < j :: ForgetsAt(Execute(cfg, tr).log[m])
  {
    LogAt(cfg, tr, i);
    LogAt(cfg, tr, j);
    TrackerStep(cfg, Execute(cfg, tr[..j]), tr[j]);
    if forall m | i < m < j :: !ForgetsAt(Execute(cfg, tr).log[m]) {
      PosesIncrease(cfg, tr, i, j);
      assert false;
    }
  }

  // ------------------------------------------------- what the arm drives

  lemma {:induction false} DrivenStep(cfg: Config, r: Run, e: Timed)
    ensures var entry := EntryOf(cfg, r, e);
            DrivenAt(entry) ==
            if PoseAt(entry) && r.gateway.machine.state.Armed? && e.event.msg.body.joints != []
            then Some(Arm.Targets(e.event.msg.body.joints)) else None
  {
  }

  /** The arm drives the joints of exactly those accepted packets that are not empty and came
      while the session was armed and not clutched. */
  lemma {:induction false} DrivenIff(cfg: Config, tr: seq<Timed>, j: nat)
    requires j < |tr|
    ensures var e := Execute(cfg, tr).log[j];
            && e.at == tr[j]
            && (PoseAt(e) ==> tr[j].event.Peer? && tr[j].event.msg.body.LeaderState?)
            && DrivenAt(e) ==
               if PoseAt(e) && e.before.machine.state.Armed? && tr[j].event.msg.body.joints != []
               then Some(Arm.Targets(tr[j].event.msg.body.joints)) else None
  {
    LogAt(cfg, tr, j);
    TrackerStep(cfg, Execute(cfg, tr[..j]), tr[j]);
    DrivenStep(cfg, Execute(cfg, tr[..j]), tr[j]);
  }

  // ------------------------------------------------- what each command does to the arm

  /** The effect on the arm, whatever state its gate is in, of each message the protocol permits. */
  lemma {:induction false} ArmEffects(
    maxAge: Time, m: Machine, last: Option<int>, msg: Message, wall: Time, g: Arm.Gate)
    requires Permitted(maxAge, m, last, msg, wall)
    ensures var h := Handle(maxAge, m, last, msg, wall);
            var c := h.command.value;
            var g' := Arm.Absorb(g, c);
            && (!msg.body.LeaderState? ==> Arm.Driven(g, c) == None)
            && match msg.body
               case Enable(_) => Arm.Open(g')
               case Disable(_) => !g'.enabled && !g'.clutched && g'.mode == Idle
               case Clutch(_, engage) => g'.enabled && g'.mode == Tracking && (Arm.Open(g') <==> !engage)
               case Home(_) => !Arm.Open(g') && g' == g.(mode := Homing)
               case Gripper(_, grip) => g' == g && c.gripper == Value(Word(grip))
               case LeaderState(_, joints, level, _, _) =>
                 && (Arm.Open(g') <==> m.state.Armed?)
                 && c.joints == Value(joints) && c.gripper == Value(Level(level))
                 && (c.gripperCommand == Value(CloseGrip) <==> level > 0.5) && c.gripperCommand.Value?
               case Estop(engaged, reset) =>
                 && (engaged ==> !g'.enabled && !g'.clutched && g'.mode == HoldEstopped && c.estopped == Value(true))
                 && (!h.machine.IsArmed() ==> !g'.enabled)
  {
  }

  lemma {:induction false} CommandsAreDefinite(cfg: Config, r: Run, e: Timed)
    ensures var c := EntryOf(cfg, r, e).outcome.command; c.Some? ==> RosBackend.Definite(c.value)
  {
  }

  /** Every command the gateway publishes is definite, so its mirror of the arm's flags is exact:
      it is the arm's state once all commands in flight have been delivered. */
  lemma {:induction false} GatewayMirror(cfg: Config, tr: seq<Timed>, es: seq<RosBackend.LinkEvent>)
    requires forall e | e in es && e.Publish? ::
               exists i | 0 <= i < |tr| :: Execute(cfg, tr).log[i].outcome.command == Some(e.command)
    ensures var l := RosBackend.LinkAfter(es); l.mirror == Arm.AbsorbAll(l.arm, l.inFlight)
  {
    forall e | e in es && e.Publish? ensures RosBackend.Definite(e.command) {
      var i :| 0 <= i < |tr| && Execute(cfg, tr).log[i].outcome.command == Some(e.command);
      LogAt(cfg, tr, i);
      CommandsAreDefinite(cfg, Execute(cfg, tr[..i]), tr[i]);
    }
    RosBackend.MirrorAgreement(es);
  }

  /** What a run has put on the command topic. */
  function Published(log: seq<Entry>): seq<Command> {
    if log == [] then [] else Published(log[..|log| - 1]) + Listed(log[|log| - 1].outcome.command)
  }

  /** So the gateway's mirror, folded from the topic alone, is the arm's gate. */
  lemma {:induction false} MirrorIsGate(cfg: Config, tr: seq<Timed>)
    ensures var r := Execute(cfg, tr); RosBackend.MirroredAll(Arm.INITIAL, Published(r.log)) == r.gate
  {
    if tr == [] {
    } else {
      var n := |tr| - 1;
      MirrorIsGate(cfg, tr[..n]);
      var r, r' := Execute(cfg, tr[..n]), Execute(cfg, tr);
      var c := EntryOf(cfg, r, tr[n]).outcome.command;
      CommandsAreDefinite(cfg, r, tr[n]);
      assert r'.log[..n] == r.log && Published(r'.log) == Published(r.log) + Listed(c);
      if c.Some? {
        RosBackend.MirrorsExactlyDefinite(c.value);
        assert Published(r'.log)[..|Published(r.log)|] == Published(r.log);
      } else {
        assert Published(r'.log) == Published(r.log);
      }
    }
  }

  // ------------------------------------------------- what the watchdog counts

  function FedWhen(cfg: Config, t: Time): Entry -> bool {
    (e: Entry) => FeedsAt(cfg, e) && e.at.now == t
  }

  predicate EngagesClutch(e: Entry) {
    e.at.event.Peer? && e.at.event.msg.body.Clutch? && e.at.event.msg.body.engage
  }

  /** A step after which the watchdog counts afresh, or not at all. */
  function Recounts(cfg: Config): Entry -> bool {
    (e: Entry) => FeedsAt(cfg, e) || Acked(e, DisableAck) || (Acked(e, ClutchAck) && EngagesClutch(e))
  }

  lemma {:induction false} DogStep(cfg: Config, r: Run, e: Timed, t: Time)
    ensures var entry := EntryOf(cfg, r, e);
            var d, d' := r.gateway.dog, entry.outcome.next.dog;
            && (d'.lastFeed == Some(t) <==> FedWhen(cfg, t)(entry) || (d.lastFeed == Some(t) && !Recounts(cfg)(entry)))
            && (d'.tripped <==> TripsAt(entry) || (d.tripped && !Recounts(cfg)(entry)))
            && !(TripsAt(entry) && Recounts(cfg)(entry))
  {
  }

  /** The watchdog counts from the last feeding packet unless a disable or an engaged clutch has been
      accepted since, and it is tripped exactly if it has frozen the session since. */
  lemma {:induction false} DogIff(cfg: Config, tr: seq<Timed>, t: Time)
    ensures var r := Execute(cfg, tr);
            && (r.gateway.dog.lastFeed == Some(t) <==> Since(r.log, FedWhen(cfg, t), Recounts(cfg)))
            && (r.gateway.dog.tripped <==> Since(r.log, TripsAt, Recounts(cfg)))
  {
    forall r: Run, e: Timed {
      DogStep(cfg, r, e, t);
    }
    HoldsIff(cfg, tr, (g: Gateway) => g.dog.lastFeed == Some(t), FedWhen(cfg, t), Recounts(cfg));
    HoldsIff(cfg, tr, (g: Gateway) => g.dog.tripped, TripsAt, Recounts(cfg));
  }

  /** Exactly which polls freeze: those that find the last feeding packet, not followed by a disable,
      an engaged clutch or a freeze, to be more than the packet timeout ago. */
  lemma {:induction false} FreezeIff(cfg: Config, tr: seq<Timed>, poll: Timed)
    requires poll.event.Poll?
    ensures var r := Execute(cfg, tr);
            TripsAt(EntryOf(cfg, r, poll)) <==>
            && !Since(r.log, TripsAt, Recounts(cfg))
            && exists t :: poll.now - t > cfg.packetTimeout && Since(r.log, FedWhen(cfg, t), Recounts(cfg))
  {
    var r := Execute(cfg, tr);
    DogIff(cfg, tr, if r.gateway.dog.lastFeed.Some? then r.gateway.dog.lastFeed.value else 0.0);
    if exists t :: poll.now - t > cfg.packetTimeout && Since(r.log, FedWhen(cfg, t), Recounts(cfg)) {
      var t :| poll.now - t > cfg.packetTimeout && Since(r.log, FedWhen(cfg, t), Recounts(cfg));
      DogIff(cfg, tr, t);
    }
  }

  // ------------------------------------------------- trips

  /** A watchdog that cannot trip until it is fed again. */
  predicate Spent(g: Gateway) {
    g.dog.tripped || g.dog.lastFeed == None
  }

  lemma {:induction false} SpentStep(cfg: Config, r: Run, e: Timed)
    ensures var entry := EntryOf(cfg, r, e);
            && (TripsAt(entry) ==> !Spent(r.gateway) && Spent(entry.outcome.next))
            && (Spent(r.gateway) && !FeedsAt(cfg, entry) ==> Spent(entry.outcome.next))
  {
  }

  /** Without a feeding packet a spent watchdog stays spent. */
  lemma {:induction false} StaysSpent(cfg: Config, tr: seq<Timed>, i: nat, j: nat)
    requires i <= j <= |tr| && Spent(Execute(cfg, tr[..i]).gateway)
    requires forall k | i <= k < j :: !FeedsAt(cfg, Execute(cfg, tr).log[k])
    ensures Spent(Execute(cfg, tr[..j]).gateway)
  {
    if i == j {
    } else {
      StaysSpent(cfg, tr, i, j - 1);
      LogAt(cfg, tr, j - 1);
      StepAfter(cfg, tr, j - 1);
      SpentStep(cfg, Execute(cfg, tr[..j - 1]), tr[j - 1]);
    }
  }

  /** Between two freezes by the watchdog some operator's packet was accepted. */
  lemma {:induction false} FeedBetweenTrips(cfg: Config, tr: seq<Timed>, i: nat, j: nat)
    requires i < j < |tr| && TripsAt(Execute(cfg, tr).log[i]) && TripsAt(Execute(cfg, tr).log[j])
    ensures exists k | i < k < j :: FeedsAt(cfg, Execute(cfg, tr).log[k])
  {
    LogAt(cfg, tr, i);
    SpentStep(cfg, Execute(cfg, tr[..i]), tr[i]);
    StepAfter(cfg, tr, i);
    LogAt(cfg, tr, j);
    SpentStep(cfg, Execute(cfg, tr[..j]), tr[j]);
    if forall k | i + 1 <= k < j :: !FeedsAt(cfg, Execute(cfg, tr).log[k]) {
      StaysSpent(cfg, tr, i + 1, j);
      assert false;
    }
  }

  // ------------------------------------------------- being connected

  /** The gateway answers an offer, joins a session that is not disconnected, or is stopped. */
  predicate Connects(e: Entry) {
    e.outcome.answer.Some? || (JoinsAt(e) && !JoinsAs(e, Disconnected)) || Engages(e)
  }

  predicate Disconnects(e: Entry) {
    JoinsAs(e, Disconnected)
  }

  lemma {:induction false} ConnectedStep(cfg: Config, r: Run, e: Timed)
    ensures var entry := EntryOf(cfg, r, e);
            !entry.outcome.next.machine.state.Disconnected? <==>
            Connects(entry) || (!r.gateway.machine.state.Disconnected? && !Disconnects(entry))
  {
  }

  /** Ownership alone does not connect: the state is disconnected until an offer has been answered,
      a session joined or a stop engaged. */
  lemma {:induction false} ConnectedIff(cfg: Config, tr: seq<Timed>)
    ensures var r := Execute(cfg, tr);
            !r.gateway.machine.state.Disconnected? <==> Since(r.log, Connects, Disconnects)
  {
    var holds := (g: Gateway) => !g.machine.state.Disconnected?;
    forall r: Run, e: Timed {
      ConnectedStep(cfg, r, e);
    }
    HoldsIff(cfg, tr, holds, Connects, Disconnects);
  }

  // ------------------------------------------------- what the telemetry reads off

  predicate LeaderPacketAt(e: Entry) {
    e.at.event.Peer? && e.at.event.msg.body.LeaderState?
  }

  function LeaderStamped(t: Time): Entry -> bool {
    e => LeaderPacketAt(e) && e.at.event.msg.timestamp == t
  }

  lemma {:induction false} StampStep(cfg: Config, r: Run, e: Timed, t: Time)
    ensures var entry := EntryOf(cfg, r, e);
            entry.outcome.next.lastLeaderTimestamp == Some(t) <==>
            LeaderStamped(t)(entry) || (r.gateway.lastLeaderTimestamp == Some(t) && !LeaderPacketAt(entry))
  {
  }

  /** The timestamp behind the reported packet age is that of the last leader packet that arrived,
      whether or not it was accepted. */
  lemma {:induction false} LastStampIff(cfg: Config, tr: seq<Timed>, t: Time)
    ensures var r := Execute(cfg, tr);
            r.gateway.lastLeaderTimestamp == Some(t) <==> Since(r.log, LeaderStamped(t), LeaderPacketAt)
  {
    var holds := (g: Gateway) => g.lastLeaderTimestamp == Some(t);
    forall r: Run, e: Timed {
      StampStep(cfg, r, e, t);
    }
    HoldsIff(cfg, tr, holds, LeaderStamped(t), LeaderPacketAt);
  }

  function PoseNumbered(seqno: int): Entry -> bool {
    e => PoseAt(e) && e.at.event.Peer? && e.at.event.msg.seqno == seqno
  }

  predicate EndsNumber(e: Entry) {
    PoseAt(e) || ForgetsAt(e)
  }

  /** The acknowledged sequence number is that of the last accepted pose, unless an accepted disable
      or a stop has made the gateway forget it. */
  lemma {:induction false} LastNumberIff(cfg: Config, tr: seq<Timed>, seqno: int)
    ensures var r := Execute(cfg, tr);
            r.gateway.leaderSeq == Some(seqno) <==> Since(r.log, PoseNumbered(seqno), EndsNumber)
  {
    var holds := (g: Gateway) => g.leaderSeq == Some(seqno);
    forall r: Run, e: Timed {
      TrackerStep(cfg, r, e);
    }
    HoldsIff(cfg, tr, holds, PoseNumbered(seqno), EndsNumber);
  }

  predicate OfferAt(e: Entry) {
    && e.at.event.Signal? && e.at.event.message.RtcRelay? && e.at.event.message.rtc.kind.Offer?
    && e.at.event.message.rtc.sender.Some? && e.at.event.message.rtc.senderRole.Some?
  }

  /** An offer of this participant, carrying its role. */
  function OfferFrom(p: ParticipantId): Entry -> bool {
    (e: Entry) => OfferAt(e) && e.at.event.message.rtc.sender == Some(p)
  }

  function OfferFromAs(p: ParticipantId, role: Role): Entry -> bool {
    (e: Entry) => OfferFrom(p)(e) && e.at.event.message.rtc.senderRole == Some(role)
  }

  predicate Never(e: Entry) {
    false
  }

  lemma {:induction false} PeersStep(cfg: Config, r: Run, e: Timed, p: ParticipantId, role: Role)
    ensures var entry := EntryOf(cfg, r, e);
            var peers, peers' := r.gateway.peers, entry.outcome.next.peers;
            && (p in peers' <==> OfferFrom(p)(entry) || (p in peers && !Never(entry)))
            && (p in peers' && peers'[p] == role <==>
                  OfferFromAs(p, role)(entry) || (p in peers && peers[p] == role && !OfferFrom(p)(entry)))
            && (OfferFrom(p)(entry) <==> entry.outcome.answer.Some? && entry.outcome.answer.value.to == Some(p))
  {
  }

  /** Replies go to exactly those participants whose offers have been answered, each in the role of its
      last offer. */
  lemma {:induction false} PeersIff(cfg: Config, tr: seq<Timed>, p: ParticipantId, role: Role)
    ensures var r := Execute(cfg, tr);
            && (p in r.gateway.peers <==> Since(r.log, OfferFrom(p), Never))
            && (p in r.gateway.peers && r.gateway.peers[p] == role <==>
                  Since(r.log, OfferFromAs(p, role), OfferFrom(p)))
  {
    forall r: Run, e: Timed {
      PeersStep(cfg, r, e, p, role);
    }
    HoldsIff(cfg, tr, (g: Gateway) => p in g.peers, OfferFrom(p), Never);
    HoldsIff(cfg, tr, (g: Gateway) => p in g.peers && g.peers[p] == role, OfferFromAs(p, role), OfferFrom(p));
  }

  function JoinsUnder(id: ParticipantId): Entry -> bool {
    (e: Entry) => JoinsAt(e) && e.at.event.message.participantId == id
  }

  /** The gateway knows itself under the id of its last welcome. */
  lemma {:induction false} ParticipantIdIff(cfg: Config, tr: seq<Timed>, id: ParticipantId)
    ensures var r := Execute(cfg, tr); r.gateway.participantId == Some(id) <==> Since(r.log, JoinsUnder(id), JoinsAt)
  {
    HoldsIff(cfg, tr, (g: Gateway) => g.participantId == Some(id), JoinsUnder(id), JoinsAt);
  }
}
