/** The whole system: the signaling server with all its clients, the follower gateway on its own
    connection, the data channels (any message, from anyone), the watchdog and the arm. */
module TeleopSystem {
  import opened Protocol
  import opened SessionManager
  import opened Signaling
  import opened Delivery
  import opened FollowerGateway
  import opened GatewayRun
  import opened GatewaySafety
  import ServerHistory

  /** `conn` is the follower's current connection, `own` all it has had so far, and `uplink` what
      it has sent on the current one that the server has not handled yet. */
  datatype System = System(
    record: ServerHistory.Record,
    boxes: Outboxes,
    follower: Run,
    conn: Option<ParticipantId>,
    own: set<ParticipantId>,
    uplink: seq<Rtc>)

  /** How the follower gateway joins. */
  const FOLLOWER := Participant(Follower, None)

  const BOOT := System(ServerHistory.NEW_RECORD, map[], IDLE_RUN, None, {}, [])

  datatype SystemEvent =
    | AtServer(event: ServerEvent)
    | FollowerConnects
    | FollowerReceives
    | UplinkArrives
    | OnDataChannel(msg: Message)
    | WatchdogPolls

  datatype Moment = Moment(now: Time, wall: Time, what: SystemEvent)

  datatype SystemConfig = SystemConfig(gateway: Config, claimTimeout: Time)

  function ServerOf(y: System): Server {
    Server(y.record.session, y.boxes)
  }

  function ServerDoes(cfg: SystemConfig, y: System, now: Time, e: ServerEvent): System {
    y.(record := ServerHistory.Append(cfg.claimTimeout, y.record, ServerHistory.Happening(now, e)),
       boxes := ServerStep(cfg.claimTimeout, ServerOf(y), now, e).boxes)
  }

  function FollowerDoes(cfg: SystemConfig, y: System, m: Moment, e: Event): System {
    var t := Timed(m.now, m.wall, e);
    y.(follower := Extend(cfg.gateway, y.follower, t),
       uplink := y.uplink + Listed(Step(cfg.gateway, y.follower.gateway, t).answer))
  }

  predicate HasMail(y: System) {
    y.conn.Some? && y.conn.value in y.boxes && y.boxes[y.conn.value] != []
  }

  /** The follower gateway has taken the first message of its inbox. */
  function MailTaken(y: System): System
    requires HasMail(y)
  {
    y.(boxes := y.boxes[y.conn.value := y.boxes[y.conn.value][1..]])
  }

  /** Clients other than the follower gateway do as they like; on the follower's own connections
      only the follower gateway speaks. Reconnecting abandons the old connection. */
  function SystemStep(cfg: SystemConfig, y: System, m: Moment): System {
    match m.what
    case AtServer(e) => if e.Sends? && e.id in y.own then y else ServerDoes(cfg, y, m.now, e)
    case FollowerConnects =>
      var id := y.record.session.nextId;
      ServerDoes(cfg, y, m.now, Joins(FOLLOWER)).(conn := Some(id), own := y.own + {id}, uplink := [])
    case FollowerReceives =>
      if HasMail(y) then FollowerDoes(cfg, MailTaken(y), m, Signal(y.boxes[y.conn.value][0])) else y
    case UplinkArrives =>
      if y.conn.Some? && y.uplink != [] then
        ServerDoes(cfg, y, m.now, Sends(y.conn.value, RtcRequest(y.uplink[0]))).(uplink := y.uplink[1..])
      else y
    case OnDataChannel(msg) => FollowerDoes(cfg, y, m, Peer(msg))
    case WatchdogPolls => FollowerDoes(cfg, y, m, Poll)
  }

  function Ran(cfg: SystemConfig, tr: seq<Moment>): System {
    if tr == [] then BOOT else SystemStep(cfg, Ran(cfg, tr[..|tr| - 1]), tr[|tr| - 1])
  }

  // ------------------------------------------------- ownership convergence

  predicate Linked(y: System) {
    && Wired(ServerOf(y))
    && (forall p | p in y.own :: p < y.record.session.nextId)
    && (y.conn.Some? ==> y.conn.value in y.own)
    && (forall p | p in y.own && p in y.record.session.participants :: y.record.session.participants[p] == FOLLOWER)
  }

  /** The server still holds the follower's current connection. */
  predicate Attached(y: System) {
    y.conn.Some? && y.conn.value in y.record.session.participants
  }

  /** Once it has read its inbox, an attached follower will have the server's owner. */
  predicate Converging(y: System) {
    Attached(y) ==> Informed(ServerOf(y), y.conn.value, y.follower.gateway.machine.owner)
  }

  lemma {:induction false} ServerOfServerDoes(cfg: SystemConfig, y: System, now: Time, e: ServerEvent)
    ensures ServerOf(ServerDoes(cfg, y, now, e)) == ServerStep(cfg.claimTimeout, ServerOf(y), now, e)
  {
  }

  lemma {:induction false} IdsOnlyFromJoins(timeout: Time, srv: Server, now: Time, e: ServerEvent)
    requires Wired(srv)
    ensures var s' := ServerStep(timeout, srv, now, e).session;
            && srv.session.nextId <= s'.nextId && (e.Joins? ==> srv.session.nextId < s'.nextId)
            && forall p | p in s'.participants ::
                 if p in srv.session.participants then s'.participants[p] == srv.session.participants[p]
                 else e.Joins? && p == srv.session.nextId
  {
  }

  lemma {:induction false} ServerKeepsLinks(cfg: SystemConfig, y: System, now: Time, e: ServerEvent)
    requires Linked(y)
    ensures Linked(ServerDoes(cfg, y, now, e))
  {
    ServerOfServerDoes(cfg, y, now, e);
    WiredStep(cfg.claimTimeout, ServerOf(y), now, e);
    IdsOnlyFromJoins(cfg.claimTimeout, ServerOf(y), now, e);
  }

  lemma {:induction false} ServerConverges(cfg: SystemConfig, y: System, now: Time, e: ServerEvent)
    requires Linked(y) && Converging(y)
    ensures Converging(ServerDoes(cfg, y, now, e))
  {
    var y' := ServerDoes(cfg, y, now, e);
    ServerOfServerDoes(cfg, y, now, e);
    IdsOnlyFromJoins(cfg.claimTimeout, ServerOf(y), now, e);
    if Attached(y') {
      StepInforms(cfg.claimTimeout, ServerOf(y), now, e, y.conn.value, y.follower.gateway.machine.owner);
    }
  }

  lemma {:induction false} ConnectConverges(cfg: SystemConfig, y: System, now: Time)
    requires Linked(y)
    ensures var id := y.record.session.nextId;
            var y' := ServerDoes(cfg, y, now, Joins(FOLLOWER)).(conn := Some(id), own := y.own + {id}, uplink := []);
            Linked(y') && Converging(y')
  {
  }

  /** The gateway's owner moves only by what the signaling server reports. */
  lemma {:induction false} OwnerFollowsSignals(cfg: Config, g: Gateway, t: Timed)
    ensures Step(cfg, g, t).next.machine.owner ==
            if t.event.Signal? then OwnerAfter(g.machine.owner, t.event.message) else g.machine.owner
  {
  }

  lemma {:induction false} MailConverges(cfg: SystemConfig, y: System, m: Moment)
    requires Linked(y) && Converging(y) && HasMail(y)
    ensures var y' := FollowerDoes(cfg, MailTaken(y), m, Signal(y.boxes[y.conn.value][0]));
            Linked(y') && Converging(y')
  {
    var first := y.boxes[y.conn.value][0];
    OwnerFollowsSignals(cfg.gateway, y.follower.gateway, Timed(m.now, m.wall, Signal(first)));
    FoldedFirst(OwnerAfter, y.follower.gateway.machine.owner, y.boxes[y.conn.value]);
  }

  lemma {:induction false} ConvergenceStep(cfg: SystemConfig, y: System, m: Moment)
    requires Linked(y) && Converging(y)
    ensures Linked(SystemStep(cfg, y, m)) && Converging(SystemStep(cfg, y, m))
  {
    match m.what
    case AtServer(e) =>
      ServerKeepsLinks(cfg, y, m.now, e);
      ServerConverges(cfg, y, m.now, e);
    case FollowerConnects => ConnectConverges(cfg, y, m.now);
    case FollowerReceives => if HasMail(y) { MailConverges(cfg, y, m); }
    case UplinkArrives =>
      if y.conn.Some? && y.uplink != [] {
        ServerKeepsLinks(cfg, y, m.now, Sends(y.conn.value, RtcRequest(y.uplink[0])));
        ServerConverges(cfg, y, m.now, Sends(y.conn.value, RtcRequest(y.uplink[0])));
      }
    case OnDataChannel(msg) => OwnerFollowsSignals(cfg.gateway, y.follower.gateway, Timed(m.now, m.wall, Peer(msg)));
    case WatchdogPolls => OwnerFollowsSignals(cfg.gateway, y.follower.gateway, Timed(m.now, m.wall, Poll));
  }

  /** In every reachable state: folding what is pending in the follower's inbox into its owner
      gives exactly the server's owner. */
  lemma {:induction false} OwnershipConvergence(cfg: SystemConfig, tr: seq<Moment>)
    ensures Linked(Ran(cfg, tr)) && Converging(Ran(cfg, tr))
  {
    if tr == [] {
    } else {
      OwnershipConvergence(cfg, tr[..|tr| - 1]);
      ConvergenceStep(cfg, Ran(cfg, tr[..|tr| - 1]), tr[|tr| - 1]);
    }
  }

  /** So an attached follower with an empty inbox has the server's owner. */
  lemma {:induction false} OwnersAgreeWhenRead(cfg: SystemConfig, tr: seq<Moment>)
    requires var y := Ran(cfg, tr); Attached(y) && !HasMail(y)
    ensures var y := Ran(cfg, tr); y.follower.gateway.machine.owner == y.record.session.owner
  {
    OwnershipConvergence(cfg, tr);
  }

  // ------------------------------------------------- every owner anywhere was granted

  predicate GrantedAt(log: seq<ServerHistory.Entry>, op: OperatorId, i: int) {
    0 <= i < |log| && ServerHistory.Grants(log[i], op)
  }

  /** The server granted the session to this operator at some point so far. */
  ghost predicate EverGranted(log: seq<ServerHistory.Entry>, op: OperatorId) {
    exists i :: GrantedAt(log, op, i)
  }

  ghost predicate KnownOwner(log: seq<ServerHistory.Entry>, owner: Option<OperatorId>) {
    owner.Some? ==> EverGranted(log, owner.value)
  }

  lemma {:induction false} KnownStaysKnown(
    log: seq<ServerHistory.Entry>, e: ServerHistory.Entry, owner: Option<OperatorId>)
    requires KnownOwner(log, owner)
    ensures KnownOwner(log + [e], owner)
  {
    if owner.Some? {
      var i :| GrantedAt(log, owner.value, i);
      assert GrantedAt(log + [e], owner.value, i);
    }
  }

  /** Entry i is the arrival of participant p, at a moment in which the server's stop flag was up or
      down as the reported state says. */
  predicate WelcomeAt(log: seq<ServerHistory.Entry>, p: ParticipantId, state: SessionState, i: int) {
    && 0 <= i < |log| && log[i].event.Joins? && log[i].before.nextId == p
    && (state.Estopped? <==> log[i].before.estopped)
  }

  ghost predicate Welcomed(log: seq<ServerHistory.Entry>, p: ParticipantId, state: SessionState) {
    exists i :: WelcomeAt(log, p, state, i)
  }

  lemma {:induction false} WelcomedStays(
    log: seq<ServerHistory.Entry>, e: ServerHistory.Entry, p: ParticipantId, state: SessionState)
    requires Welcomed(log, p, state)
    ensures Welcomed(log + [e], p, state)
  {
    var i :| WelcomeAt(log, p, state, i);
    assert WelcomeAt(log + [e], p, state, i);
  }

  /** A message that tells the truth: owners were granted, state and owner agree, and a welcome shows
      the stop flag as it was when its receiver arrived. */
  ghost predicate Truthful(log: seq<ServerHistory.Entry>, m: ServerMessage) {
    match m
    case Joined(p, state, owner) => KnownOwner(log, owner) && CoherentReport(state, owner) && Welcomed(log, p, state)
    case Ownership(owner, state) => KnownOwner(log, owner) && CoherentReport(state, owner)
    case _ => true
  }

  ghost predicate TruthfulBoxes(y: System) {
    forall p, k {:trigger y.boxes[p][k]} | p in y.boxes && 0 <= k < |y.boxes[p]| ::
      Truthful(y.record.log, y.boxes[p][k])
  }

  ghost predicate TruthfulServer(y: System) {
    && ServerHistory.CacheFresh(y.record.session)
    && KnownOwner(y.record.log, y.record.session.owner)
    && TruthfulBoxes(y)
  }

  /** Whoever the follower takes for the owner was granted the session by the server, and every
      welcome it has taken was true. */
  ghost predicate TruthfulFollower(y: System) {
    && KnownOwner(y.record.log, y.follower.gateway.machine.owner)
    && forall k | 0 <= k < |y.follower.log| && JoinsAt(y.follower.log[k]) ::
         Truthful(y.record.log, y.follower.log[k].at.event.message)
  }

  lemma {:induction false} SessionOwnerKnown(timeout: Time, r: ServerHistory.Record, h: ServerHistory.Happening)
    requires KnownOwner(r.log, r.session.owner)
    ensures var r' := ServerHistory.Append(timeout, r, h); KnownOwner(r'.log, r'.session.owner)
  {
    var r' := ServerHistory.Append(timeout, r, h);
    if r'.session.owner.Some? {
      var op := r'.session.owner.value;
      ServerHistory.OwnerStep(timeout, r.session, h, op);
      if ServerHistory.Grants(ServerHistory.EntryFor(timeout, r.session, h), op) {
        assert GrantedAt(r'.log, op, |r.log|);
      } else {
        KnownStaysKnown(r.log, ServerHistory.EntryFor(timeout, r.session, h), r.session.owner);
      }
    }
  }

  /** What the server reports to someone present is coherent. */
  lemma {:induction false} ReportsAreCoherent(s: Session)
    requires ServerHistory.CacheFresh(s) && s.participants != map[]
    ensures CoherentReport(s.teleopState, s.owner)
  {
  }

  lemma {:induction false} OldMessageTruthful(log: seq<ServerHistory.Entry>, e: ServerHistory.Entry, m: ServerMessage)
    requires Truthful(log, m)
    ensures Truthful(log + [e], m)
  {
    match m
    case Joined(p, state, owner) =>
      KnownStaysKnown(log, e, owner);
      WelcomedStays(log, e, p, state);
    case Ownership(owner, _) => KnownStaysKnown(log, e, owner);
    case _ =>
  }

  lemma {:induction false} ServerStaysTruthful(cfg: SystemConfig, y: System, now: Time, e: ServerEvent)
    requires Linked(y) && TruthfulServer(y)
    ensures TruthfulServer(ServerDoes(cfg, y, now, e))
  {
    var y', h := ServerDoes(cfg, y, now, e), ServerHistory.Happening(now, e);
    ServerOfServerDoes(cfg, y, now, e);
    ServerHistory.CacheStep(cfg.claimTimeout, y.record.session, h);
    SessionOwnerKnown(cfg.claimTimeout, y.record, h);
    StepGrows(cfg.claimTimeout, ServerOf(y), now, e);
    forall p, k | p in y'.boxes && 0 <= k < |y'.boxes[p]| ensures Truthful(y'.record.log, y'.boxes[p][k]) {
      var m := y'.boxes[p][k];
      if p in y.boxes && k < |y.boxes[p]| && m == y.boxes[p][k] {
        OldMessageTruthful(y.record.log, ServerHistory.EntryFor(cfg.claimTimeout, y.record.session, h), m);
      } else {
        assert Sendable(ServerOf(y), y'.record.session, e, p, m);
        ReportsAreCoherent(y'.record.session);
        if m.Joined? {
          assert WelcomeAt(y'.record.log, m.participantId, m.sessionState, |y.record.log|);
        }
      }
    }
  }

  lemma {:induction false} ServerKeepsFollowerTruthful(cfg: SystemConfig, y: System, now: Time, e: ServerEvent)
    requires TruthfulFollower(y)
    ensures TruthfulFollower(ServerDoes(cfg, y, now, e))
  {
    var entry := ServerHistory.EntryFor(cfg.claimTimeout, y.record.session, ServerHistory.Happening(now, e));
    KnownStaysKnown(y.record.log, entry, y.follower.gateway.machine.owner);
    forall k | 0 <= k < |y.follower.log| && JoinsAt(y.follower.log[k])
      ensures Truthful(y.record.log + [entry], y.follower.log[k].at.event.message)
    {
      OldMessageTruthful(y.record.log, entry, y.follower.log[k].at.event.message);
    }
  }

  lemma {:induction false} FollowerStaysTruthful(cfg: SystemConfig, y: System, m: Moment, e: Event)
    requires TruthfulFollower(y) && (e.Signal? ==> Truthful(y.record.log, e.message))
    ensures TruthfulFollower(FollowerDoes(cfg, y, m, e))
  {
  }

  // ------------------------------------------------- the follower under a truthful server

  ghost predicate FollowerSafe(y: System) {
    && Simulates(y.follower.gateway, y.follower.gate)
    && Coherent(y.follower.gateway)
  }

  lemma {:induction false} FollowerStaysSafe(cfg: SystemConfig, y: System, m: Moment, e: Event)
    requires FollowerSafe(y) && (e.Signal? ==> Truthful(y.record.log, e.message))
    ensures FollowerSafe(FollowerDoes(cfg, y, m, e))
  {
    var t := Timed(m.now, m.wall, e);
    assert CoherentJoin(t) && CoarseJoin(t);
    SimulatesStep(cfg.gateway, y.follower.gateway, y.follower.gate, t);
    CoherentStep(cfg.gateway, y.follower.gateway, t);
  }

  ghost predicate Safe(y: System) {
    Linked(y) && TruthfulServer(y) && TruthfulFollower(y) && FollowerSafe(y)
  }

  lemma {:induction false} MailStaysTruthful(y: System)
    requires TruthfulBoxes(y) && HasMail(y)
    ensures TruthfulBoxes(MailTaken(y))
  {
  }

  lemma {:induction false} SafeStep(cfg: SystemConfig, y: System, m: Moment)
    requires Safe(y) && Converging(y)
    ensures Safe(SystemStep(cfg, y, m))
  {
    ConvergenceStep(cfg, y, m);
    match m.what
    case AtServer(e) =>
      ServerStaysTruthful(cfg, y, m.now, e);
      ServerKeepsFollowerTruthful(cfg, y, m.now, e);
    case FollowerConnects =>
      ServerStaysTruthful(cfg, y, m.now, Joins(FOLLOWER));
      ServerKeepsFollowerTruthful(cfg, y, m.now, Joins(FOLLOWER));
    case FollowerReceives =>
      if HasMail(y) {
        var first := y.boxes[y.conn.value][0];
        assert Truthful(y.record.log, first);
        FollowerStaysTruthful(cfg, MailTaken(y), m, Signal(first));
        FollowerStaysSafe(cfg, MailTaken(y), m, Signal(first));
        MailStaysTruthful(y);
      }
    case UplinkArrives =>
      if y.conn.Some? && y.uplink != [] {
        ServerStaysTruthful(cfg, y, m.now, Sends(y.conn.value, RtcRequest(y.uplink[0])));
        ServerKeepsFollowerTruthful(cfg, y, m.now, Sends(y.conn.value, RtcRequest(y.uplink[0])));
      }
    case OnDataChannel(msg) =>
      FollowerStaysTruthful(cfg, y, m, Peer(msg));
      FollowerStaysSafe(cfg, y, m, Peer(msg));
    case WatchdogPolls =>
      FollowerStaysTruthful(cfg, y, m, Poll);
      FollowerStaysSafe(cfg, y, m, Poll);
  }

  lemma {:induction false} AlwaysSafe(cfg: SystemConfig, tr: seq<Moment>)
    ensures Safe(Ran(cfg, tr))
  {
    if tr == [] {
    } else {
      AlwaysSafe(cfg, tr[..|tr| - 1]);
      OwnershipConvergence(cfg, tr[..|tr| - 1]);
      SafeStep(cfg, Ran(cfg, tr[..|tr| - 1]), tr[|tr| - 1]);
    }
  }
}
