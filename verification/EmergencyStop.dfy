/** The emergency stop through the whole system: what a stop message does at both ends, that it
    arrives, what a reconnecting follower makes of it, and when it ends. */
module EmergencyStop {
  import opened Protocol
  import opened SessionManager
  import opened Signaling
  import opened Delivery
  import opened StateMachine
  import opened CommandHandler
  import opened FollowerGateway
  import opened GatewayRun
  import opened GatewaySafety
  import opened GatewayHistory
  import opened History
  import opened TeleopSystem
  import opened SystemSafety
  import ServerHistory
  import Arm

  // ------------------------------------------------- both ends and the emergency stop

  /** What the server's flag and the follower's state make of one relayed stop message. */
  predicate StopsAgree(s: Session, m: Machine) {
    s.estopped <==> m.IsEstopped()
  }

  function StopAtFollower(m: Machine, msg: EstopMessage): Machine {
    Handle(0.0, m, None, msg, 0.0).machine
  }

  predicate KeepsAgreement(msg: EstopMessage, s: Session, m: Machine) {
    StopsAgree(s, m) ==> StopsAgree(SetEstop(s, msg.body.engaged, msg.body.reset), StopAtFollower(m, msg))
  }

  /** Exactly which stop messages leave the two ends in agreement whenever they agreed before: those
      that ask for nothing, and those of the right version that ask for one thing. A message that
      both engages and resets stops the follower and clears the server; one of another version
      moves the server only. */
  lemma {:induction false} StopAgreementIff(msg: EstopMessage)
    ensures (forall s: Session, m: Machine :: KeepsAgreement(msg, s, m)) <==>
            (!msg.body.engaged && !msg.body.reset) ||
            (msg.version == PROTOCOL_VERSION && msg.body.engaged != msg.body.reset)
  {
    var s, m := NEW_SESSION, StateMachine.INITIAL;
    var s', m' := s.(estopped := true), m.(state := Estopped);
    if !(!msg.body.engaged && !msg.body.reset)
       && !(msg.version == PROTOCOL_VERSION && msg.body.engaged != msg.body.reset) {
      assert !KeepsAgreement(msg, s, m) || !KeepsAgreement(msg, s', m');
    }
  }

  // ------------------------------------------------- a stop sent through the server arrives

  /** The stop request that the server takes from a client at this moment, if any. */
  function RequestAt(y: System, m: Moment): Option<EstopMessage> {
    match m.what
    case AtServer(Sends(id, EstopRequest(msg))) =>
      if id in y.record.session.participants && id !in y.own then Some(msg) else None
    case _ => None
  }

  /** A client of the server asks for a stop of the right version. */
  predicate SendsStop(y: System, m: Moment) {
    var request := RequestAt(y, m);
    request.Some? && request.value.version == PROTOCOL_VERSION && request.value.body.engaged
  }

  /** How many messages the follower has not taken yet. */
  function Backlog(y: System): nat {
    if HasMail(y) then |y.boxes[y.conn.value]| else 0
  }

  /** Behind k other messages this very stop waits in the follower's inbox. */
  predicate StopQueued(y: System, k: int, msg: EstopMessage) {
    HasMail(y) && 0 <= k < Backlog(y) && y.boxes[y.conn.value][k] == EstopRelay(msg)
  }

  /** How often the follower has read from its inbox since moment i. */
  function Readings(tr: seq<Moment>, i: nat): nat {
    if |tr| <= i then 0 else Readings(tr[..|tr| - 1], i) + if tr[|tr| - 1].what.FollowerReceives? then 1 else 0
  }

  lemma {:induction false} LogGrows(cfg: SystemConfig, y: System, m: Moment)
    ensures y.follower.log <= SystemStep(cfg, y, m).follower.log
  {
  }

  lemma {:induction false} ServerKeepsQueue(
    cfg: SystemConfig, y: System, now: Time, e: ServerEvent, k: int, msg: EstopMessage)
    requires Linked(y) && StopQueued(y, k, msg)
    ensures StopQueued(ServerDoes(cfg, y, now, e), k, msg)
  {
    ServerOfServerDoes(cfg, y, now, e);
    StepGrows(cfg.claimTimeout, ServerOf(y), now, e);
    assert y.boxes[y.conn.value] <= ServerDoes(cfg, y, now, e).boxes[y.conn.value];
  }

  /** The follower's step e took this very stop from the inbox. */
  predicate RelayAt(r: Run, e: nat, msg: EstopMessage) {
    e < |r.log| && r.log[e].at.event == Signal(EstopRelay(msg))
  }

  /** One moment brings a waiting stop one place closer if the follower reads, and leaves it where it
      is otherwise, whatever happens. */
  lemma {:induction false} QueueStep(cfg: SystemConfig, y: System, m: Moment, k: nat, msg: EstopMessage)
    requires Linked(y) && StopQueued(y, k, msg) && !m.what.FollowerConnects?
    ensures !m.what.FollowerReceives? ==> StopQueued(SystemStep(cfg, y, m), k, msg)
    ensures m.what.FollowerReceives? && k > 0 ==> StopQueued(SystemStep(cfg, y, m), k - 1, msg)
    ensures m.what.FollowerReceives? && k == 0 ==> RelayAt(SystemStep(cfg, y, m).follower, |y.follower.log|, msg)
  {
    match m.what
    case AtServer(e) => if !(e.Sends? && e.id in y.own) { ServerKeepsQueue(cfg, y, m.now, e, k, msg); }
    case UplinkArrives =>
      if y.uplink != [] {
        ServerKeepsQueue(cfg, y, m.now, Sends(y.conn.value, RtcRequest(y.uplink[0])), k, msg);
      }
    case _ =>
  }

  lemma {:induction false} StopEntersQueue(cfg: SystemConfig, y: System, m: Moment)
    requires Linked(y) && SendsStop(y, m) && Attached(y)
    ensures StopQueued(SystemStep(cfg, y, m), Backlog(y), RequestAt(y, m).value)
  {
    var e := m.what.event;
    StopRelayed(ServerOf(y), e.id, e.message.message, y.conn.value);
    ServerOfServerDoes(cfg, y, m.now, e);
  }

  /** Moment n is the reading at which the stop sent at moment i is due, and it took that stop. */
  predicate TakenAt(cfg: SystemConfig, tr: seq<Moment>, i: nat, msg: EstopMessage, n: nat) {
    && i < n < |tr| && tr[n].what.FollowerReceives?
    && Readings(tr[..n], i + 1) == Backlog(Ran(cfg, tr[..i]))
    && RelayAt(Ran(cfg, tr).follower, |Ran(cfg, tr[..n]).follower.log|, msg)
  }

  lemma {:induction false} TakenStays(cfg: SystemConfig, tr: seq<Moment>, i: nat, msg: EstopMessage, n: nat)
    requires tr != [] && TakenAt(cfg, tr[..|tr| - 1], i, msg, n)
    ensures TakenAt(cfg, tr, i, msg, n)
  {
    var before := tr[..|tr| - 1];
    assert before[..n] == tr[..n] && before[..i] == tr[..i];
    LogGrows(cfg, Ran(cfg, before), tr[|tr| - 1]);
  }

  /** The last moment takes the stop if it reads and nothing is left before the stop. */
  lemma {:induction false} TakenNow(cfg: SystemConfig, tr: seq<Moment>, i: nat, msg: EstopMessage, n: nat)
    requires i < n && |tr| == n + 1 && tr[n].what.FollowerReceives?
    requires Readings(tr[..n], i + 1) == Backlog(Ran(cfg, tr[..i])) && StopQueued(Ran(cfg, tr[..n]), 0, msg)
    ensures TakenAt(cfg, tr, i, msg, n)
  {
    OwnershipConvergence(cfg, tr[..n]);
    QueueStep(cfg, Ran(cfg, tr[..n]), tr[n], 0, msg);
  }

  lemma {:induction false} QueuedNext(cfg: SystemConfig, tr: seq<Moment>, n: nat, k: nat, msg: EstopMessage)
    requires |tr| == n + 1 && StopQueued(Ran(cfg, tr[..n]), k, msg) && !tr[n].what.FollowerConnects?
    requires tr[n].what.FollowerReceives? ==> k > 0
    ensures StopQueued(Ran(cfg, tr), if tr[n].what.FollowerReceives? then k - 1 else k, msg)
  {
    OwnershipConvergence(cfg, tr[..n]);
    QueueStep(cfg, Ran(cfg, tr[..n]), tr[n], k, msg);
  }

  lemma {:induction false} QueuedFirst(cfg: SystemConfig, tr: seq<Moment>, n: nat)
    requires |tr| == n + 1 && SendsStop(Ran(cfg, tr[..n]), tr[n]) && Attached(Ran(cfg, tr[..n]))
    ensures StopQueued(Ran(cfg, tr), Backlog(Ran(cfg, tr[..n])), RequestAt(Ran(cfg, tr[..n]), tr[n]).value)
  {
    OwnershipConvergence(cfg, tr[..n]);
    StopEntersQueue(cfg, Ran(cfg, tr[..n]), tr[n]);
  }

  /** Where the stop sent at moment i is: in the inbox, or taken at moment n. */
  predicate Underway(cfg: SystemConfig, tr: seq<Moment>, i: nat, msg: EstopMessage, n: nat)
    requires i < |tr|
  {
    var ahead, taken := Backlog(Ran(cfg, tr[..i])), Readings(tr, i + 1);
    if taken <= ahead then StopQueued(Ran(cfg, tr), ahead - taken, msg) else TakenAt(cfg, tr, i, msg, n)
  }

  lemma {:induction false} StaysTaken(cfg: SystemConfig, tr: seq<Moment>, i: nat, msg: EstopMessage, n: nat)
    requires i + 1 < |tr| && Underway(cfg, tr[..|tr| - 1], i, msg, n)
    requires Readings(tr[..|tr| - 1], i + 1) > Backlog(Ran(cfg, tr[..i]))
    ensures Underway(cfg, tr, i, msg, n)
  {
    assert tr[..|tr| - 1][..i] == tr[..i];
    TakenStays(cfg, tr, i, msg, n);
  }

  lemma {:induction false} StaysQueued(
    cfg: SystemConfig, tr: seq<Moment>, n: nat, i: nat, msg: EstopMessage, ahead: nat)
    requires |tr| == n + 1 && i < n && !tr[n].what.FollowerConnects? && Readings(tr[..n], i + 1) <= ahead
    requires StopQueued(Ran(cfg, tr[..n]), ahead - Readings(tr[..n], i + 1), msg) && Readings(tr, i + 1) <= ahead
    ensures StopQueued(Ran(cfg, tr), ahead - Readings(tr, i + 1), msg)
  {
    QueuedNext(cfg, tr, n, ahead - Readings(tr[..n], i + 1), msg);
  }

  lemma {:induction false} StaysUnderway(cfg: SystemConfig, tr: seq<Moment>, i: nat, msg: EstopMessage, n: nat)
    requires i + 1 < |tr| && Underway(cfg, tr[..|tr| - 1], i, msg, n) && !tr[|tr| - 1].what.FollowerConnects?
    requires Readings(tr[..|tr| - 1], i + 1) <= Backlog(Ran(cfg, tr[..i]))
    ensures Underway(cfg, tr, i, msg, |tr| - 1)
  {
    var last := |tr| - 1;
    assert tr[..last][..i] == tr[..i];
    if Readings(tr, i + 1) > Backlog(Ran(cfg, tr[..i])) {
      TakenNow(cfg, tr, i, msg, last);
    } else {
      StaysQueued(cfg, tr, last, i, msg, Backlog(Ran(cfg, tr[..i])));
    }
  }

  lemma {:induction false} UnderwayFirst(cfg: SystemConfig, tr: seq<Moment>, i: nat, msg: EstopMessage)
    requires |tr| == i + 1 && SendsStop(Ran(cfg, tr[..i]), tr[i]) && Attached(Ran(cfg, tr[..i]))
    requires RequestAt(Ran(cfg, tr[..i]), tr[i]) == Some(msg)
    ensures Underway(cfg, tr, i, msg, i)
  {
    QueuedFirst(cfg, tr, i);
  }

  /** While the follower does not reconnect, a stop is exactly where the number of readings says: still
      in the inbox behind what is left of the messages pending before it, or taken by the reading that
      came after those. Polls, data-channel messages, other clients, broadcasts and disconnects may
      come in between as they like. */
  lemma {:induction false} StopUnderway(cfg: SystemConfig, tr: seq<Moment>, i: nat, msg: EstopMessage)
    returns (n: nat)
    requires i < |tr| && SendsStop(Ran(cfg, tr[..i]), tr[i]) && Attached(Ran(cfg, tr[..i]))
    requires RequestAt(Ran(cfg, tr[..i]), tr[i]) == Some(msg)
    requires forall j | i < j < |tr| :: !tr[j].what.FollowerConnects?
    ensures Underway(cfg, tr, i, msg, n)
  {
    var last := |tr| - 1;
    n := last;
    if i == last {
      UnderwayFirst(cfg, tr, i, msg);
    } else {
      assert tr[..last][..i] == tr[..i];
      var n' := StopUnderway(cfg, tr[..last], i, msg);
      if Readings(tr[..last], i + 1) > Backlog(Ran(cfg, tr[..i])) {
        StaysTaken(cfg, tr, i, msg, n');
        n := n';
      } else {
        StaysUnderway(cfg, tr, i, msg, n');
      }
    }
  }

  predicate Halted(r: Run) {
    r.gateway.machine.IsEstopped() && !Arm.Open(r.gate)
  }

  lemma {:induction false} RelayEngages(r: Run, e: nat, msg: EstopMessage)
    requires RelayAt(r, e, msg) && msg.version == PROTOCOL_VERSION && msg.body.engaged
    ensures Engages(r.log[e])
  {
  }

  /** A stop that any client sends to the server reaches the follower over a living connection: once it
      has read one message more than were pending when the stop was sent, that very reading, at moment
      n, has taken this very stop, whatever other stops and resets there were; and from then until a
      reset or a rejoin the follower is stopped, the gate is closed and all it publishes is quiet. */
  lemma {:induction false} StopReachesFollower(cfg: SystemConfig, tr: seq<Moment>, i: nat, msg: EstopMessage)
    returns (n: nat)
    requires i < |tr| && SendsStop(Ran(cfg, tr[..i]), tr[i]) && Attached(Ran(cfg, tr[..i]))
    requires RequestAt(Ran(cfg, tr[..i]), tr[i]) == Some(msg)
    requires forall j | i < j < |tr| :: !tr[j].what.FollowerConnects?
    requires Readings(tr, i + 1) > Backlog(Ran(cfg, tr[..i]))
    ensures TakenAt(cfg, tr, i, msg, n)
    ensures var r, e := Ran(cfg, tr).follower, |Ran(cfg, tr[..n]).follower.log|;
            (forall j | e < j < |r.log| :: !ClearsStop(r.log[j])) ==>
              Halted(r) && forall j | e <= j < |r.log| :: Quiet(r.log[j].outcome.command)
  {
    n := StopUnderway(cfg, tr, i, msg);
    FollowerRun(cfg, tr);
    var r, e := Ran(cfg, tr).follower, |Ran(cfg, tr[..n]).follower.log|;
    RelayEngages(r, e, msg);
    if forall j | e < j < |r.log| :: !ClearsStop(r.log[j]) {
      EstopLatch(cfg.gateway, GatewayTrace(cfg, tr), e);
    }
  }

  // ------------------------------------------------- both ends agree, whatever is pending

  /** The stop message of the right version that a data channel brings at this moment, if any. */
  function ChannelStop(m: Moment): Option<Body> {
    match m.what
    case OnDataChannel(msg) =>
      if msg.version == PROTOCOL_VERSION && msg.body.Estop? then Some(msg.body) else None
    case _ => None
  }

  /** The follower is, or will be once it has read its inbox, stopped. */
  predicate WillStop(y: System)
    requires Attached(y) && Linked(y)
  {
    PendingStop(y.follower.gateway.machine.IsEstopped(), y.boxes[y.conn.value])
  }

  /** No stop of the server's is lost on the way to the follower. */
  predicate StopsHeld(y: System) {
    Linked(y) && (Attached(y) && y.record.session.estopped ==> WillStop(y))
  }

  /** No reset of the server's is lost either. */
  predicate ResetsHeld(y: System) {
    Linked(y) && (Attached(y) && WillStop(y) ==> y.record.session.estopped)
  }

  /** What can put a server that is stopped ahead of its follower: a reset over a data channel, or the
      first stop of another protocol version. */
  predicate ForgetsStop(y: System, m: Moment) {
    var channel, request := ChannelStop(m), RequestAt(y, m);
    || (channel.Some? && channel.value.reset && !channel.value.engaged)
    || (request.Some? && request.value.body.engaged && !request.value.body.reset
        && request.value.version != PROTOCOL_VERSION && !y.record.session.estopped)
  }

  /** What can leave a follower stopped behind a server that is not: a stop over a data channel while
      the server is not stopped, a reset of the right version that also engages, or a reset of another
      version that the server obeys. */
  predicate ForgetsReset(y: System, m: Moment) {
    var channel, request := ChannelStop(m), RequestAt(y, m);
    || (channel.Some? && channel.value.engaged && !y.record.session.estopped)
    || (request.Some? && request.value.body.reset
        && if request.value.version == PROTOCOL_VERSION then request.value.body.engaged
           else y.record.session.estopped)
  }

  /** Messages that neither welcome nor stop leave the fold as it is. */
  lemma {:induction false} IdleSuffix(stopped: bool, ms: seq<ServerMessage>, ms': seq<ServerMessage>)
    requires ms <= ms'
    requires forall k | |ms| <= k < |ms'| :: !ms'[k].Joined? && !ms'[k].EstopRelay?
    ensures PendingStop(stopped, ms') == PendingStop(stopped, ms)
  {
    if |ms| == |ms'| {
      assert ms == ms';
    } else {
      IdleSuffix(stopped, ms, ms'[..|ms'| - 1]);
    }
  }

  lemma {:induction false} StopFirst(ms: seq<ServerMessage>)
    ensures PendingStop(false, ms) ==> PendingStop(true, ms)
  {
    if ms == [] {
    } else {
      StopFirst(ms[..|ms| - 1]);
    }
  }

  lemma {:induction false} RelayThenReport(
    stopped: bool, ms: seq<ServerMessage>, m: ServerMessage, report: ServerMessage)
    requires report.Ownership?
    ensures PendingStop(stopped, ms + [m, report]) == StopAfter(PendingStop(stopped, ms), m)
  {
    assert (ms + [m, report])[..|ms| + 1] == ms + [m];
    assert (ms + [m])[..|ms|] == ms;
    assert PendingStop(stopped, ms + [m]) == StopAfter(PendingStop(stopped, ms), m);
    assert (ms + [m, report])[|ms| + 1] == report;
  }

  /** What a server event adds for the follower: a relayed stop, or nothing that matters to the fold. */
  lemma {:induction false} ServerStops(cfg: SystemConfig, y: System, m: Moment, e: ServerEvent, stopped: bool)
    requires Linked(y) && Attached(y) && Attached(ServerDoes(cfg, y, m.now, e))
    requires e.Sends? && e.message.EstopRequest? ==> e.id !in y.own
    ensures var y', request := ServerDoes(cfg, y, m.now, e), RequestAt(y, Moment(m.now, m.wall, AtServer(e)));
            && y.conn.value in y'.boxes
            && (request == None ==>
                  && PendingStop(stopped, y'.boxes[y.conn.value]) == PendingStop(stopped, y.boxes[y.conn.value])
                  && y'.record.session.estopped == y.record.session.estopped)
            && (request.Some? ==>
                  && PendingStop(stopped, y'.boxes[y.conn.value]) ==
                     StopAfter(PendingStop(stopped, y.boxes[y.conn.value]), EstopRelay(request.value))
                  && y'.record.session.estopped ==
                     SetEstop(y.record.session, request.value.body.engaged, request.value.body.reset).estopped)
  {
    var y', p := ServerDoes(cfg, y, m.now, e), y.conn.value;
    var request := RequestAt(y, Moment(m.now, m.wall, AtServer(e)));
    ServerOfServerDoes(cfg, y, m.now, e);
    if request.Some? {
      StopRelayed(ServerOf(y), e.id, request.value, p);
      RelayThenReport(stopped, y.boxes[p], EstopRelay(request.value), OwnershipOf(y'.record.session));
    } else {
      StepGrows(cfg.claimTimeout, ServerOf(y), m.now, e);
      IdleSuffix(stopped, y.boxes[p], y'.boxes[p]);
    }
  }

  /** What the follower makes of a message is what the fold says. */
  lemma {:induction false} FollowerStops(cfg: Config, g: Gateway, t: Timed)
    ensures Step(cfg, g, t).next.machine.IsEstopped() ==
            match t.event
            case Signal(m) => StopAfter(g.machine.IsEstopped(), m)
            case Peer(msg) =>
              if msg.version == PROTOCOL_VERSION && msg.body.Estop?
              then msg.body.engaged || (g.machine.IsEstopped() && !msg.body.reset) else g.machine.IsEstopped()
            case Poll => g.machine.IsEstopped()
  {
  }

  lemma {:induction false} MailStops(cfg: SystemConfig, y: System, m: Moment)
    requires Linked(y) && Attached(y) && HasMail(y) && m.what.FollowerReceives?
    ensures var y' := SystemStep(cfg, y, m); Linked(y') && Attached(y') && WillStop(y') == WillStop(y)
  {
    var first := y.boxes[y.conn.value][0];
    FollowerStops(cfg.gateway, y.follower.gateway, Timed(m.now, m.wall, Signal(first)));
    FoldedFirst(StopAfter, y.follower.gateway.machine.IsEstopped(), y.boxes[y.conn.value]);
  }

  lemma {:induction false} ChannelStops(cfg: SystemConfig, y: System, m: Moment)
    requires Linked(y) && Attached(y) && (m.what.OnDataChannel? || m.what.WatchdogPolls?)
    ensures var y', channel := SystemStep(cfg, y, m), ChannelStop(m);
            && Linked(y') && Attached(y') && y'.record == y.record
            && (WillStop(y) && !WillStop(y') ==> channel.Some? && channel.value.reset && !channel.value.engaged)
            && (!WillStop(y) && WillStop(y') ==> channel.Some? && channel.value.engaged)
  {
    StopFirst(y.boxes[y.conn.value]);
    match m.what
    case OnDataChannel(msg) => FollowerStops(cfg.gateway, y.follower.gateway, Timed(m.now, m.wall, Peer(msg)));
    case WatchdogPolls => FollowerStops(cfg.gateway, y.follower.gateway, Timed(m.now, m.wall, Poll));
  }

  /** A newly connected follower will be stopped exactly if the server is. */
  lemma {:induction false} ConnectStops(cfg: SystemConfig, y: System, m: Moment)
    requires Linked(y) && ServerHistory.CacheFresh(y.record.session) && m.what.FollowerConnects?
    ensures var y' := SystemStep(cfg, y, m);
            && Linked(y') && Attached(y') && WillStop(y') == y'.record.session.estopped == y.record.session.estopped
  {
    var y', id := SystemStep(cfg, y, m), y.record.session.nextId;
    ServerOfServerDoes(cfg, y, m.now, Joins(FOLLOWER));
    ConnectConverges(cfg, y, m.now);
    WelcomeFirst(cfg.claimTimeout, ServerOf(y), m.now, FOLLOWER);
    var stopped := y.follower.gateway.machine.IsEstopped();
    var welcome := Joined(id, y'.record.session.teleopState, y'.record.session.owner);
    assert [] + [welcome, OwnershipOf(y'.record.session)] == y'.boxes[id];
    RelayThenReport(stopped, [], welcome, OwnershipOf(y'.record.session));
  }

  lemma {:induction false} ConvergenceLinks(cfg: SystemConfig, y: System, m: Moment)
    requires Linked(y) && (m.what.AtServer? || m.what.UplinkArrives?)
    ensures Linked(SystemStep(cfg, y, m))
  {
    var e := ServerEventOf(y, m);
    if e.Some? {
      ServerKeepsLinks(cfg, y, m.now, e.value);
    }
  }

  /** Only a request moves the flag. */
  lemma {:induction false} FlagMoves(timeout: Time, s: Session, now: Time, e: ServerEvent)
    ensures var s' := ServerHistory.SessionStep(timeout, s, ServerHistory.Happening(now, e));
            s'.estopped ==
            if e.Sends? && e.message.EstopRequest? && e.id in s.participants
            then SetEstop(s, e.message.message.body.engaged, e.message.message.body.reset).estopped else s.estopped
  {
  }

  /** A server that has no news of a stop leaves both sides as they were; a client's request moves the
      fold as it moves a follower, and the flag as it moves the server. */
  lemma {:induction false} ServerMoves(cfg: SystemConfig, y: System, m: Moment)
    requires Linked(y) && (m.what.AtServer? || m.what.UplinkArrives?)
    ensures var y', request := SystemStep(cfg, y, m), RequestAt(y, m);
            && Linked(y') && y'.follower == y.follower
            && y'.record.session.estopped ==
               (if request.None? then y.record.session.estopped
                else SetEstop(y.record.session, request.value.body.engaged, request.value.body.reset).estopped)
            && (Attached(y') ==>
                  Attached(y) && WillStop(y') ==
                    if request.None? then WillStop(y) else StopAfter(WillStop(y), EstopRelay(request.value)))
  {
    ConvergenceLinks(cfg, y, m);
    var e := ServerEventOf(y, m);
    if e.Some? {
      ServerOfServerDoes(cfg, y, m.now, e.value);
      IdsOnlyFromJoins(cfg.claimTimeout, ServerOf(y), m.now, e.value);
      FlagMoves(cfg.claimTimeout, y.record.session, m.now, e.value);
      if Attached(ServerDoes(cfg, y, m.now, e.value)) {
        ServerStops(cfg, y, m, e.value, y.follower.gateway.machine.IsEstopped());
      }
    }
  }

  lemma {:induction false} StopsHeldStep(cfg: SystemConfig, y: System, m: Moment)
    requires StopsHeld(y) && ServerHistory.CacheFresh(y.record.session) && !ForgetsStop(y, m)
    ensures StopsHeld(SystemStep(cfg, y, m))
  {
    match m.what
    case FollowerConnects => ConnectStops(cfg, y, m);
    case FollowerReceives => if Attached(y) && HasMail(y) { MailStops(cfg, y, m); }
    case AtServer(_) => ServerMoves(cfg, y, m);
    case UplinkArrives => ServerMoves(cfg, y, m);
    case _ => if Attached(y) { ChannelStops(cfg, y, m); }
  }

  lemma {:induction false} ResetsHeldStep(cfg: SystemConfig, y: System, m: Moment)
    requires ResetsHeld(y) && ServerHistory.CacheFresh(y.record.session) && !ForgetsReset(y, m)
    ensures ResetsHeld(SystemStep(cfg, y, m))
  {
    match m.what
    case FollowerConnects => ConnectStops(cfg, y, m);
    case FollowerReceives => if Attached(y) && HasMail(y) { MailStops(cfg, y, m); }
    case AtServer(_) => ServerMoves(cfg, y, m);
    case UplinkArrives => ServerMoves(cfg, y, m);
    case _ => if Attached(y) { ChannelStops(cfg, y, m); }
  }

  lemma {:induction false} FreshCache(cfg: SystemConfig, tr: seq<Moment>)
    ensures ServerHistory.CacheFresh(Ran(cfg, tr).record.session) && Linked(Ran(cfg, tr))
  {
    AlwaysSafe(cfg, tr);
  }

  /** No stop of the server's, or no reset, is forgotten from moment i on. */
  predicate StopsKept(cfg: SystemConfig, tr: seq<Moment>, i: nat) {
    forall j | i <= j < |tr| :: !ForgetsStop(Ran(cfg, tr[..j]), tr[j])
  }

  predicate ResetsKept(cfg: SystemConfig, tr: seq<Moment>, i: nat) {
    forall j | i <= j < |tr| :: !ForgetsReset(Ran(cfg, tr[..j]), tr[j])
  }

  lemma {:induction false} KeptBefore(cfg: SystemConfig, tr: seq<Moment>, i: nat, n: nat)
    requires n <= |tr|
    ensures StopsKept(cfg, tr, i) ==> StopsKept(cfg, tr[..n], i)
    ensures ResetsKept(cfg, tr, i) ==> ResetsKept(cfg, tr[..n], i)
  {
    forall j | i <= j < n ensures tr[..n][..j] == tr[..j] && tr[..n][j] == tr[j] {}
  }

  lemma {:induction false} StopsHeldNext(cfg: SystemConfig, tr: seq<Moment>, n: nat)
    requires |tr| == n + 1 && StopsHeld(Ran(cfg, tr[..n])) && !ForgetsStop(Ran(cfg, tr[..n]), tr[n])
    ensures StopsHeld(Ran(cfg, tr))
  {
    FreshCache(cfg, tr[..n]);
    StopsHeldStep(cfg, Ran(cfg, tr[..n]), tr[n]);
  }

  lemma {:induction false} ResetsHeldNext(cfg: SystemConfig, tr: seq<Moment>, n: nat)
    requires |tr| == n + 1 && ResetsHeld(Ran(cfg, tr[..n])) && !ForgetsReset(Ran(cfg, tr[..n]), tr[n])
    ensures ResetsHeld(Ran(cfg, tr))
  {
    FreshCache(cfg, tr[..n]);
    ResetsHeldStep(cfg, Ran(cfg, tr[..n]), tr[n]);
  }

  /** From a moment at which nothing of the server's stop is lost, nothing is lost later, however the
      follower disconnects and reconnects, unless a forgetting message comes. */
  lemma {:induction false} StopsStayHeld(cfg: SystemConfig, tr: seq<Moment>, i: nat)
    requires i <= |tr| && StopsHeld(Ran(cfg, tr[..i])) && StopsKept(cfg, tr, i)
    ensures StopsHeld(Ran(cfg, tr))
  {
    if i == |tr| {
      assert tr[..i] == tr;
    } else {
      var n := |tr| - 1;
      assert tr[..n][..i] == tr[..i];
      KeptBefore(cfg, tr, i, n);
      StopsStayHeld(cfg, tr[..n], i);
      StopsHeldNext(cfg, tr, n);
    }
  }

  lemma {:induction false} ResetsStayHeld(cfg: SystemConfig, tr: seq<Moment>, i: nat)
    requires i <= |tr| && ResetsHeld(Ran(cfg, tr[..i])) && ResetsKept(cfg, tr, i)
    ensures ResetsHeld(Ran(cfg, tr))
  {
    if i == |tr| {
      assert tr[..i] == tr;
    } else {
      var n := |tr| - 1;
      assert tr[..n][..i] == tr[..i];
      KeptBefore(cfg, tr, i, n);
      ResetsStayHeld(cfg, tr[..n], i);
      ResetsHeldNext(cfg, tr, n);
    }
  }

  /** Stop convergence: if every stop and reset goes through the server, in the right version and for
      one thing at a time, then in every reachable state folding what is pending for an attached
      follower into its state gives exactly the server's flag. */
  lemma {:induction false} StopConvergence(cfg: SystemConfig, tr: seq<Moment>)
    requires StopsKept(cfg, tr, 0) && ResetsKept(cfg, tr, 0)
    ensures var y := Ran(cfg, tr); Linked(y) && (Attached(y) ==> (WillStop(y) <==> y.record.session.estopped))
  {
    StopsStayHeld(cfg, tr, 0);
    ResetsStayHeld(cfg, tr, 0);
  }

  /** So an attached follower with an empty inbox is stopped exactly if some client's stop has not been
      followed by a reset. */
  lemma {:induction false} StoppedWhenRead(cfg: SystemConfig, tr: seq<Moment>)
    requires StopsKept(cfg, tr, 0) && ResetsKept(cfg, tr, 0)
    requires Attached(Ran(cfg, tr)) && !HasMail(Ran(cfg, tr))
    ensures var y := Ran(cfg, tr);
            y.follower.gateway.machine.IsEstopped() <==>
            Since(y.record.log, ServerHistory.RaisesFlag, ServerHistory.LowersFlag)
  {
    StopConvergence(cfg, tr);
    ServerRun(cfg, tr);
    ServerHistory.FlagIff(cfg.claimTimeout, ServerTrace(cfg, tr));
  }

  // ------------------------------------------------- a stop sent while the follower is away

  /** A reset that comes over a data channel or that the server takes from a client. */
  predicate ResetAt(y: System, m: Moment) {
    var channel, request := ChannelStop(m), RequestAt(y, m);
    || (channel.Some? && channel.value.reset && !channel.value.engaged)
    || (request.Some? && request.value.body.reset)
  }

  /** A stop that does not also ask for a reset. */
  predicate SendsLastingStop(y: System, m: Moment) {
    SendsStop(y, m) && !RequestAt(y, m).value.body.reset
  }

  /** The server is stopped, and so is, or will be, an attached follower. */
  predicate StopAwaits(y: System) {
    y.record.session.estopped && StopsHeld(y)
  }

  lemma {:induction false} StopRaisesFlag(cfg: SystemConfig, y: System, m: Moment)
    requires Linked(y) && SendsLastingStop(y, m)
    ensures StopAwaits(SystemStep(cfg, y, m))
  {
    ServerMoves(cfg, y, m);
  }

  lemma {:induction false} FlagStays(cfg: SystemConfig, y: System, m: Moment)
    requires Linked(y) && y.record.session.estopped && !ResetAt(y, m)
    ensures SystemStep(cfg, y, m).record.session.estopped
  {
    match m.what
    case AtServer(_) => ServerMoves(cfg, y, m);
    case UplinkArrives => ServerMoves(cfg, y, m);
    case _ =>
  }

  lemma {:induction false} StopLasts(cfg: SystemConfig, y: System, m: Moment)
    requires StopAwaits(y) && ServerHistory.CacheFresh(y.record.session) && !ResetAt(y, m)
    ensures StopAwaits(SystemStep(cfg, y, m))
  {
    FlagStays(cfg, y, m);
    StopsHeldStep(cfg, y, m);
  }

  /** Nobody resets after moment i. */
  predicate NoResetAfter(cfg: SystemConfig, tr: seq<Moment>, i: nat) {
    forall j | i < j < |tr| :: !ResetAt(Ran(cfg, tr[..j]), tr[j])
  }

  lemma {:induction false} NoResetBefore(cfg: SystemConfig, tr: seq<Moment>, i: nat, n: nat)
    requires NoResetAfter(cfg, tr, i) && n <= |tr|
    ensures NoResetAfter(cfg, tr[..n], i)
  {
    forall j | i < j < n ensures !ResetAt(Ran(cfg, tr[..n][..j]), tr[..n][j]) {
      assert tr[..n][..j] == tr[..j];
    }
  }

  lemma {:induction false} StopAwaitsFirst(cfg: SystemConfig, tr: seq<Moment>, n: nat)
    requires |tr| == n + 1 && SendsLastingStop(Ran(cfg, tr[..n]), tr[n])
    ensures StopAwaits(Ran(cfg, tr))
  {
    FreshCache(cfg, tr[..n]);
    StopRaisesFlag(cfg, Ran(cfg, tr[..n]), tr[n]);
  }

  lemma {:induction false} StopAwaitsNext(cfg: SystemConfig, tr: seq<Moment>, n: nat)
    requires |tr| == n + 1 && StopAwaits(Ran(cfg, tr[..n])) && !ResetAt(Ran(cfg, tr[..n]), tr[n])
    ensures StopAwaits(Ran(cfg, tr))
  {
    FreshCache(cfg, tr[..n]);
    StopLasts(cfg, Ran(cfg, tr[..n]), tr[n]);
  }

  /** A stop sent through the server waits for the follower: wherever the follower is at the time, and
      however often it disconnects and reconnects, as long as nobody resets, the server stays stopped
      and any attached follower is stopped or will be once it has read its inbox. */
  lemma {:induction false} StopAwaitsFollower(cfg: SystemConfig, tr: seq<Moment>, i: nat)
    requires i < |tr| && SendsLastingStop(Ran(cfg, tr[..i]), tr[i])
    requires NoResetAfter(cfg, tr, i)
    ensures StopAwaits(Ran(cfg, tr))
  {
    var n := |tr| - 1;
    if i == n {
      StopAwaitsFirst(cfg, tr, n);
    } else {
      assert tr[..n][..i] == tr[..i];
      NoResetBefore(cfg, tr, i, n);
      StopAwaitsFollower(cfg, tr[..n], i);
      StopAwaitsNext(cfg, tr, n);
    }
  }

  /** And so one that has read its inbox is stopped. */
  lemma {:induction false} StoppedOnceRead(cfg: SystemConfig, tr: seq<Moment>, i: nat)
    requires i < |tr| && SendsLastingStop(Ran(cfg, tr[..i]), tr[i])
    requires NoResetAfter(cfg, tr, i) && Attached(Ran(cfg, tr)) && !HasMail(Ran(cfg, tr))
    ensures Ran(cfg, tr).follower.gateway.machine.IsEstopped()
  {
    StopAwaitsFollower(cfg, tr, i);
  }

  /** How soon the arm holds: if the gate of an arm that lags is open although the follower is stopped,
      then the stop is recent: the command that carries it is still on its way, or the follower learnt
      of it on joining and the watchdog has not yet had time to freeze. */
  lemma {:induction false} StoppedArmHolds(
    cfg: SystemConfig, tr: seq<Moment>, gap: Time, delay: Time, k: nat, t: Time) returns (i: nat)
    requires WellTimed(cfg.gateway, GatewayTrace(cfg, tr), gap) && cfg.gateway.packetTimeout >= 0.0
    requires OpenLate(Ran(cfg, tr).follower, gap, delay, k, t) && Ran(cfg, tr).follower.gateway.machine.IsEstopped()
    ensures var log := Ran(cfg, tr).follower.log;
            && SinceAt(log, StartsStop, ClearsStop, i)
            && t - log[i].at.now <= if Engages(log[i]) then delay else cfg.gateway.packetTimeout + gap + delay
  {
    FollowerRun(cfg, tr);
    var gt := GatewayTrace(cfg, tr);
    StoppedIff(cfg.gateway, gt);
    i :| SinceAt(Execute(cfg.gateway, gt).log, StartsStop, ClearsStop, i);
    StopClosesGate(cfg.gateway, gt, gap, delay, k, t, i);
    LogAt(cfg.gateway, gt, i);
  }

  // ------------------------------------------------- what a rejoin does to a stop

  /** A reported stop does not reach the arm: from any reachable state in which the server is stopped
      and the gate is open, reconnecting stops the follower and leaves the gate open. */
  lemma {:induction false} RejoinLeavesGateOpen(cfg: SystemConfig, tr: seq<Moment>, now: Time, wall: Time)
    requires Ran(cfg, tr).record.session.estopped && Arm.Open(Ran(cfg, tr).follower.gate)
    ensures var y1 := SystemStep(cfg, Ran(cfg, tr), Moment(now, wall, FollowerConnects));
            var y2 := SystemStep(cfg, y1, Moment(now, wall, FollowerReceives));
            y2.follower.gateway.machine.IsEstopped() && Arm.Open(y2.follower.gate)
  {
    var y := Ran(cfg, tr);
    OwnershipConvergence(cfg, tr);
    ServerOfServerDoes(cfg, y, now, Joins(FOLLOWER));
    WelcomeFirst(cfg.claimTimeout, ServerOf(y), now, FOLLOWER);
  }

  /** Whatever its state was, a follower that takes a welcome is stopped from then on exactly if the
      server's flag was up at entry i, the arrival of the connection that the welcome names. */
  lemma {:induction false} RejoinStoppedIff(cfg: SystemConfig, tr: seq<Moment>, k: nat) returns (i: nat)
    requires k < |Ran(cfg, tr).follower.log| && JoinsAt(Ran(cfg, tr).follower.log[k])
    ensures var y := Ran(cfg, tr);
            var e := y.follower.log[k];
            && i < |y.record.log| && y.record.log[i].event.Joins?
            && y.record.log[i].before.nextId == e.at.event.message.participantId
            && (e.outcome.next.machine.IsEstopped() <==> y.record.log[i].before.estopped)
  {
    AlwaysSafe(cfg, tr);
    FollowerRun(cfg, tr);
    LogAt(cfg.gateway, GatewayTrace(cfg, tr), k);
    var e := Ran(cfg, tr).follower.log[k];
    StopStep(cfg.gateway, Execute(cfg.gateway, GatewayTrace(cfg, tr)[..k]), e.at);
    var m := e.at.event.message;
    assert Truthful(Ran(cfg, tr).record.log, m);
    i :| WelcomeAt(Ran(cfg, tr).record.log, m.participantId, m.sessionState, i);
  }

  /** How a stop ends: by a reset, or by taking a welcome from a server whose flag was down when the
      follower connected; by nothing else. */
  lemma {:induction false} StopEndsIff(cfg: SystemConfig, tr: seq<Moment>, k: nat) returns (i: nat)
    requires k < |Ran(cfg, tr).follower.log| && Ran(cfg, tr).follower.log[k].before.machine.IsEstopped()
    ensures var y := Ran(cfg, tr);
            var e := y.follower.log[k];
            && (JoinsAt(e) ==>
                  && i < |y.record.log| && y.record.log[i].event.Joins?
                  && y.record.log[i].before.nextId == e.at.event.message.participantId)
            && (!e.outcome.next.machine.IsEstopped() <==>
                  Resets(e) || (JoinsAt(e) && !y.record.log[i].before.estopped))
  {
    FollowerRun(cfg, tr);
    LogAt(cfg.gateway, GatewayTrace(cfg, tr), k);
    var e := Ran(cfg, tr).follower.log[k];
    StopStep(cfg.gateway, Execute(cfg.gateway, GatewayTrace(cfg, tr)[..k]), e.at);
    if JoinsAt(e) {
      i := RejoinStoppedIff(cfg, tr, k);
    } else {
      i := 0;
    }
  }

  /** The stop that is lost: one over a data channel never raises the server's flag, so from any
      reachable state in which that is down, reconnecting ends it without a reset. */
  lemma {:induction false} ReconnectLosesStop(
    cfg: SystemConfig, tr: seq<Moment>, stop: EstopMessage, now: Time, wall: Time)
    requires !Ran(cfg, tr).record.session.estopped && stop.version == PROTOCOL_VERSION && stop.body.engaged
    ensures var y1 := SystemStep(cfg, Ran(cfg, tr), Moment(now, wall, OnDataChannel(stop)));
            var y2 := SystemStep(cfg, y1, Moment(now, wall, FollowerConnects));
            var y3 := SystemStep(cfg, y2, Moment(now, wall, FollowerReceives));
            && y1.follower.gateway.machine.IsEstopped() && !y1.record.session.estopped
            && !y3.follower.gateway.machine.IsEstopped()
  {
    OwnershipConvergence(cfg, tr);
    var y1 := SystemStep(cfg, Ran(cfg, tr), Moment(now, wall, OnDataChannel(stop)));
    AlwaysSafe(cfg, tr);
    ServerOfServerDoes(cfg, y1, now, Joins(FOLLOWER));
    WelcomeFirst(cfg.claimTimeout, ServerOf(y1), now, FOLLOWER);
  }
}
