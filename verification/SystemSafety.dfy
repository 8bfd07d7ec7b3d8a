/** The end-to-end guarantees: what the follower and the arm do in any run of the whole system. */
module SystemSafety {
  import opened Protocol
  import opened Signaling
  import opened FollowerGateway
  import opened GatewayRun
  import opened GatewaySafety
  import opened GatewayHistory
  import opened TeleopSystem
  import ServerHistory
  import History

  // ------------------------------------------------- system runs contain component runs

  /** The gateway step that this moment brings about, if any. */
  function GatewayStepOf(y: System, m: Moment): Option<Timed> {
    match m.what
    case FollowerReceives =>
      if HasMail(y) then Some(Timed(m.now, m.wall, Signal(y.boxes[y.conn.value][0]))) else None
    case OnDataChannel(msg) => Some(Timed(m.now, m.wall, Peer(msg)))
    case WatchdogPolls => Some(Timed(m.now, m.wall, Poll))
    case _ => None
  }

  function GatewayTrace(cfg: SystemConfig, tr: seq<Moment>): seq<Timed> {
    if tr == [] then []
    else GatewayTrace(cfg, tr[..|tr| - 1]) + Listed(GatewayStepOf(Ran(cfg, tr[..|tr| - 1]), tr[|tr| - 1]))
  }

  /** The server event that this moment brings about, if any. */
  function ServerEventOf(y: System, m: Moment): Option<ServerEvent> {
    match m.what
    case AtServer(e) => if e.Sends? && e.id in y.own then None else Some(e)
    case FollowerConnects => Some(Joins(FOLLOWER))
    case UplinkArrives =>
      if y.conn.Some? && y.uplink != [] then Some(Sends(y.conn.value, RtcRequest(y.uplink[0]))) else None
    case _ => None
  }

  function ServerTrace(cfg: SystemConfig, tr: seq<Moment>): seq<ServerHistory.Happening> {
    if tr == [] then []
    else
      var e := ServerEventOf(Ran(cfg, tr[..|tr| - 1]), tr[|tr| - 1]);
      ServerTrace(cfg, tr[..|tr| - 1]) +
      if e.Some? then [ServerHistory.Happening(tr[|tr| - 1].now, e.value)] else []
  }

  lemma {:induction false} StepProjects(cfg: SystemConfig, y: System, m: Moment)
    ensures var y', g, e := SystemStep(cfg, y, m), GatewayStepOf(y, m), ServerEventOf(y, m);
            && y'.follower == (if g.Some? then Extend(cfg.gateway, y.follower, g.value) else y.follower)
            && y'.record ==
               (if e.None? then y.record
                else ServerHistory.Append(cfg.claimTimeout, y.record, ServerHistory.Happening(m.now, e.value)))
  {
  }

  lemma {:induction false} ExecuteSnoc(cfg: Config, tr: seq<Timed>, e: Timed)
    ensures Execute(cfg, tr + [e]) == Extend(cfg, Execute(cfg, tr), e)
  {
  }

  lemma {:induction false} RecordedSnoc(timeout: Time, tr: seq<ServerHistory.Happening>, h: ServerHistory.Happening)
    ensures ServerHistory.Recorded(timeout, tr + [h]) ==
            ServerHistory.Append(timeout, ServerHistory.Recorded(timeout, tr), h)
  {
  }

  lemma {:induction false} MailIsCoarse(y: System, m: Moment)
    requires Safe(y) && GatewayStepOf(y, m).Some?
    ensures CoarseJoin(GatewayStepOf(y, m).value)
  {
  }

  lemma {:induction false} FollowerRunStep(cfg: SystemConfig, y: System, m: Moment, gt: seq<Timed>)
    requires y.follower == Execute(cfg.gateway, gt) && CoarseJoins(gt) && Safe(y)
    ensures var gt' := gt + Listed(GatewayStepOf(y, m));
            SystemStep(cfg, y, m).follower == Execute(cfg.gateway, gt') && CoarseJoins(gt')
  {
    StepProjects(cfg, y, m);
    var g := GatewayStepOf(y, m);
    if g.Some? {
      MailIsCoarse(y, m);
      ExecuteSnoc(cfg.gateway, gt, g.value);
    } else {
      assert gt + Listed(g) == gt;
    }
  }

  /** Inside every system run the follower makes a gateway run, in which the server never reports
      more than it can know: all that is proved of gateway runs holds of the whole system. */
  lemma {:induction false} FollowerRun(cfg: SystemConfig, tr: seq<Moment>)
    ensures Ran(cfg, tr).follower == Execute(cfg.gateway, GatewayTrace(cfg, tr))
    ensures CoarseJoins(GatewayTrace(cfg, tr))
  {
    if tr == [] {
    } else {
      var n := |tr| - 1;
      FollowerRun(cfg, tr[..n]);
      AlwaysSafe(cfg, tr[..n]);
      FollowerRunStep(cfg, Ran(cfg, tr[..n]), tr[n], GatewayTrace(cfg, tr[..n]));
    }
  }

  /** And the server makes a session run. */
  lemma {:induction false} ServerRun(cfg: SystemConfig, tr: seq<Moment>)
    ensures Ran(cfg, tr).record == ServerHistory.Recorded(cfg.claimTimeout, ServerTrace(cfg, tr))
  {
    if tr == [] {
    } else {
      var before, m := tr[..|tr| - 1], tr[|tr| - 1];
      var y := Ran(cfg, before);
      ServerRun(cfg, before);
      StepProjects(cfg, y, m);
      var e := ServerEventOf(y, m);
      if e.Some? {
        RecordedSnoc(cfg.claimTimeout, ServerTrace(cfg, before), ServerHistory.Happening(m.now, e.value));
        assert ServerTrace(cfg, tr) == ServerTrace(cfg, before) + [ServerHistory.Happening(m.now, e.value)];
      } else {
        assert ServerTrace(cfg, tr) == ServerTrace(cfg, before);
      }
    }
  }

  // ------------------------------------------------- no motion without a grant

  /** The moment at which the follower took its j-th step. */
  lemma {:induction false} MomentOf(cfg: SystemConfig, tr: seq<Moment>, j: nat) returns (n: nat)
    requires j < |Ran(cfg, tr).follower.log|
    ensures n < |tr| && |Ran(cfg, tr[..n]).follower.log| == j
    ensures Ran(cfg, tr[..n]).follower.gateway == Ran(cfg, tr).follower.log[j].before
  {
    n := |tr| - 1;
    StepProjects(cfg, Ran(cfg, tr[..n]), tr[n]);
    if j < |Ran(cfg, tr[..n]).follower.log| {
      var n' := MomentOf(cfg, tr[..n], j);
      assert tr[..n][..n'] == tr[..n'];
      n := n';
    }
  }

  /** The server had granted the session to this operator before the follower's j-th step. */
  ghost predicate GrantedBefore(cfg: SystemConfig, tr: seq<Moment>, j: nat, op: OperatorId) {
    exists n | 0 <= n < |tr| ::
      |Ran(cfg, tr[..n]).follower.log| == j && EverGranted(Ran(cfg, tr[..n]).record.log, op)
  }

  lemma {:induction false} OwnerWasGranted(cfg: SystemConfig, tr: seq<Moment>, j: nat, op: OperatorId)
    requires j < |Ran(cfg, tr).follower.log| && Ran(cfg, tr).follower.log[j].before.machine.owner == Some(op)
    ensures GrantedBefore(cfg, tr, j, op)
  {
    var n := MomentOf(cfg, tr, j);
    AlwaysSafe(cfg, tr[..n]);
  }

  /** Every pose and every grip ever sent to the arm names an operator to whom the server had
      granted the session before that step. */
  lemma {:induction false} NoMotionWithoutGrant(cfg: SystemConfig, tr: seq<Moment>, j: nat)
    requires j < |Ran(cfg, tr).follower.log| && MotionAt(Ran(cfg, tr).follower.log[j])
    ensures var op := OperatorAt(Ran(cfg, tr).follower.log[j]);
            op.Some? && GrantedBefore(cfg, tr, j, op.value)
  {
    FollowerRun(cfg, tr);
    var gt := GatewayTrace(cfg, tr);
    LogAt(cfg.gateway, gt, j);
    MotionIsOwned(cfg.gateway, Execute(cfg.gateway, gt[..j]), gt[j]);
    OwnerWasGranted(cfg, tr, j, OperatorAt(Ran(cfg, tr).follower.log[j]).value);
  }

  /** Two operators' motions are separated by a change of owner reported by the server and a fresh
      enable of the later operator. */
  lemma {:induction false} MotionsOfTwoOperators(cfg: SystemConfig, tr: seq<Moment>, k: nat, j: nat)
    requires var log := Ran(cfg, tr).follower.log;
             && k < j < |log| && MotionAt(log[k]) && MotionAt(log[j])
             && OperatorAt(log[k]) != OperatorAt(log[j])
    ensures var log := Ran(cfg, tr).follower.log;
            exists c, e :: HandoverAt(log, OperatorAt(log[j]), k, c, e, j)
  {
    FollowerRun(cfg, tr);
    HandoverNeedsEnable(cfg.gateway, GatewayTrace(cfg, tr), k, j);
  }

  /** A packet no older than `bound` that fed the watchdog, from an operator to whom the server
      had granted the session before it came. */
  ghost predicate GrantedFeed(cfg: SystemConfig, tr: seq<Moment>, t: Time, bound: Time, i: int) {
    var log := Ran(cfg, tr).follower.log;
    && 0 <= i < |log| && FeedsAt(cfg.gateway, log[i]) && t - log[i].at.now <= bound
    && OperatorAt(log[i]).Some? && GrantedBefore(cfg, tr, i, OperatorAt(log[i]).value)
  }

  lemma {:induction false} RecentFeedWasGranted(
    cfg: SystemConfig, tr: seq<Moment>, t: Time, bound: Time) returns (i: nat)
    requires RecentlyFed(cfg.gateway, Ran(cfg, tr).follower.log, t, bound)
    ensures GrantedFeed(cfg, tr, t, bound, i)
  {
    var log := Ran(cfg, tr).follower.log;
    i :| 0 <= i < |log| && FeedsAt(cfg.gateway, log[i]) && t - log[i].at.now <= bound;
    OwnerWasGranted(cfg, tr, i, OperatorAt(log[i]).value);
  }

  lemma {:induction false} FollowerFailSafe(
    cfg: Config, gt: seq<Timed>, r: Run, gap: Time, delay: Time, k: nat, t: Time)
    requires r == Execute(cfg, gt) && CoarseJoins(gt) && WellTimed(cfg, gt, gap) && cfg.packetTimeout >= 0.0
    requires OpenLate(r, gap, delay, k, t)
    ensures RecentlyFed(cfg, r.log, t, cfg.packetTimeout + gap + delay)
  {
    DelayedFailSafe(cfg, gt, gap, delay, k, t);
  }

  /** The fail-safe of the whole system, for an arm that has folded the commands of the follower's
      first k steps and lags at most `delay` behind: while polls are at most `gap` apart, its gate
      is open only if an operator to whom the server granted the session was heard within packet
      timeout, gap and delay together. No hypothesis on server, clients or data channels. */
  lemma {:induction false} SystemFailSafe(cfg: SystemConfig, tr: seq<Moment>, gap: Time, delay: Time, k: nat, t: Time)
    returns (i: nat)
    requires WellTimed(cfg.gateway, GatewayTrace(cfg, tr), gap) && cfg.gateway.packetTimeout >= 0.0
    requires OpenLate(Ran(cfg, tr).follower, gap, delay, k, t)
    ensures GrantedFeed(cfg, tr, t, cfg.gateway.packetTimeout + gap + delay, i)
  {
    FollowerRun(cfg, tr);
    FollowerFailSafe(cfg.gateway, GatewayTrace(cfg, tr), Ran(cfg, tr).follower, gap, delay, k, t);
    i := RecentFeedWasGranted(cfg, tr, t, cfg.gateway.packetTimeout + gap + delay);
  }

  /** A former operator's arm, in the whole system: after the server has moved the owner, or anything
      else has ended arming, at the follower's step i, an arm that lags is open for no longer than the
      fail-safe takes unless somebody has enabled anew. */
  lemma {:induction false} FormerOperatorHolds(
    cfg: SystemConfig, tr: seq<Moment>, gap: Time, delay: Time, k: nat, t: Time, i: nat)
    requires WellTimed(cfg.gateway, GatewayTrace(cfg, tr), gap) && cfg.gateway.packetTimeout >= 0.0
    requires OpenLate(Ran(cfg, tr).follower, gap, delay, k, t)
    requires i < |Ran(cfg, tr).follower.log| && EndsArming(Ran(cfg, tr).follower.log[i])
    requires forall j | i <= j < |Ran(cfg, tr).follower.log| :: !Acked(Ran(cfg, tr).follower.log[j], EnableAck)
    ensures t - Ran(cfg, tr).follower.log[i].at.now <= cfg.gateway.packetTimeout + gap + delay
  {
    FollowerRun(cfg, tr);
    LogAt(cfg.gateway, GatewayTrace(cfg, tr), i);
    EndOfArmingClosesGate(cfg.gateway, GatewayTrace(cfg, tr), gap, delay, k, t, i);
  }

  /** What the follower believes, in the server's terms: with an empty inbox on a living connection its
      owner is exactly the operator whose last grant has been neither given back nor lost to the timer. */
  lemma {:induction false} FollowerOwnerIff(cfg: SystemConfig, tr: seq<Moment>, op: OperatorId)
    requires Attached(Ran(cfg, tr)) && !HasMail(Ran(cfg, tr))
    ensures var y := Ran(cfg, tr);
            y.follower.gateway.machine.owner == Some(op) <==>
            History.Since(y.record.log, ServerHistory.GrantTo(op), ServerHistory.LosesOwner)
  {
    OwnersAgreeWhenRead(cfg, tr);
    ServerRun(cfg, tr);
    ServerHistory.OwnedIff(cfg.claimTimeout, ServerTrace(cfg, tr), op);
  }

  /** Owner and state of a joined follower always agree, and an armed follower's operator is the
      one whose enable armed it. */
  lemma {:induction false} FollowerCoherence(cfg: SystemConfig, tr: seq<Moment>)
    ensures var g := Ran(cfg, tr).follower.gateway;
            && Coherent(g)
            && (g.machine.IsArmed() ==>
                  g.machine.owner.Some? &&
                  History.Since(Ran(cfg, tr).follower.log, EnabledBy(g.machine.owner.value), EndsArming))
  {
    AlwaysSafe(cfg, tr);
    FollowerRun(cfg, tr);
    var g := Ran(cfg, tr).follower.gateway;
    if g.machine.IsArmed() {
      ArmedByOwner(cfg.gateway, GatewayTrace(cfg, tr), g.machine.owner.value);
    }
  }

  // ------------------------------------------------- reading the inbox to its end

  /** The follower takes one message. */
  function ReadOne(cfg: SystemConfig, y: System, now: Time, wall: Time): System {
    SystemStep(cfg, y, Moment(now, wall, FollowerReceives))
  }

  function ReadAll(cfg: SystemConfig, y: System, now: Time, wall: Time, n: nat): System
    decreases n
  {
    if n == 0 then y else ReadAll(cfg, ReadOne(cfg, y, now, wall), now, wall, n - 1)
  }

  lemma {:induction false} ReadingConverges(cfg: SystemConfig, y: System, now: Time, wall: Time)
    requires Linked(y) && Converging(y) && Attached(y)
    ensures var y' := ReadAll(cfg, y, now, wall, |y.boxes[y.conn.value]|);
            y'.follower.gateway.machine.owner == y'.record.session.owner == y.record.session.owner
    decreases |y.boxes[y.conn.value]|
  {
    if HasMail(y) {
      MailConverges(cfg, y, Moment(now, wall, FollowerReceives));
      ReadingConverges(cfg, ReadOne(cfg, y, now, wall), now, wall);
    }
  }

  /** Convergence is within reach: from any reachable state in which the server holds the follower's
      connection, reading the messages pending there gives the follower the server's owner. */
  lemma {:induction false} OwnersAgreeAfterReading(cfg: SystemConfig, tr: seq<Moment>, now: Time, wall: Time)
    requires Attached(Ran(cfg, tr))
    ensures Ran(cfg, tr).conn.value in Ran(cfg, tr).boxes
    ensures var y := Ran(cfg, tr);
            var y' := ReadAll(cfg, y, now, wall, |y.boxes[y.conn.value]|);
            y'.follower.gateway.machine.owner == y.record.session.owner
  {
    OwnershipConvergence(cfg, tr);
    ReadingConverges(cfg, Ran(cfg, tr), now, wall);
  }
}
