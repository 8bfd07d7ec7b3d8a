/** services/follower-gateway/follower_gateway/main.py: the gateway around the command handler,
    and what one atomic step of it does. */
module FollowerGateway {
  import opened Protocol
  import opened StateMachine
  import opened CommandHandler
  import RosBackend
  import Watchdog

  datatype Config = Config(maxPacketAge: Time, packetTimeout: Time)

  datatype Gateway = Gateway(
    machine: Machine,
    leaderSeq: Option<int>,
    dog: Watchdog.Dog,
    lastLeaderTimestamp: Option<Time>,
    participantId: Option<ParticipantId>,
    peers: map<ParticipantId, Role>)

  const START := Gateway(StateMachine.INITIAL, None, Watchdog.INITIAL, None, None, map[])

  /** One step: the next state, the command for the arm, the reply broadcast to every peer, and
      the answer sent back through the signaling server. */
  datatype Outcome = Outcome(
    next: Gateway,
    command: Option<Command>,
    reply: Option<Response>,
    answer: Option<Rtc>)

  function Silent(g: Gateway): Outcome {
    Outcome(g, None, None, None)
  }

  function OnMessage(cfg: Config, g: Gateway, msg: Message, wall: Time): Outcome {
    var h := Handle(cfg.maxPacketAge, g.machine, g.leaderSeq, msg, wall);
    Outcome(g.(machine := h.machine, leaderSeq := h.leaderSeq), h.command, h.response, None)
  }

  function AnswerFor(rtc: Rtc): Rtc
    requires rtc.sender.Some? && rtc.senderRole.Some?
  {
    Rtc(Answer, rtc.senderRole.value, rtc.sender, None, None, AnswerTo(rtc.sdp))
  }

  function OnOffer(g: Gateway, rtc: Rtc): Outcome {
    if rtc.sender == None || rtc.senderRole == None then Silent(g)
    else
      Outcome(
        g.(peers := g.peers[rtc.sender.value := rtc.senderRole.value], machine := PeerConnected(g.machine)),
        None, None, Some(AnswerFor(rtc)))
  }

  /** A message from the signaling server. Joining overwrites owner and state outright. */
  function OnSignal(cfg: Config, g: Gateway, m: ServerMessage, wall: Time): Outcome {
    match m
    case Joined(id, state, owner) => Silent(g.(participantId := Some(id), machine := Machine(state, owner)))
    case Ownership(owner, _) => Silent(g.(machine := OwnershipReported(g.machine, owner)))
    case EstopRelay(msg) => OnMessage(cfg, g, msg, wall)
    case RtcRelay(rtc) => if rtc.kind.Offer? then OnOffer(g, rtc) else Silent(g)
    case _ => Silent(g)
  }

  /** How the watchdog follows the commands of a peer, given the handler's reply. */
  function DogAfter(d: Watchdog.Dog, msg: Message, reply: Option<Response>, m: Machine, now: Time): Watchdog.Dog {
    var accepted := reply.Some? && reply.value.Ack? && reply.value.accepted;
    match msg.body
    case LeaderState(_, _, _, _, _) => if reply == None && m.IsArmed() then Watchdog.Fed(now) else d
    case Enable(_) => if accepted then Watchdog.Fed(now) else d
    case Disable(_) => if accepted then Watchdog.INITIAL else d
    case Clutch(_, engage) =>
      if !accepted then d else if engage then Watchdog.INITIAL else Watchdog.Fed(now)
    case _ => d
  }

  /** A message from a data channel. The packet's timestamp is noted before it is validated. */
  function OnPeer(cfg: Config, g: Gateway, msg: Message, now: Time, wall: Time): Outcome {
    var g0 := if msg.body.LeaderState? then g.(lastLeaderTimestamp := Some(msg.timestamp)) else g;
    var o := OnMessage(cfg, g0, msg, wall);
    o.(next := o.next.(dog := DogAfter(g.dog, msg, o.reply, o.next.machine, now)))
  }

  const FREEZE_COMMAND := EMPTY.(mode := Value(HoldFrozen), enabled := Value(false))

  function OnPoll(cfg: Config, g: Gateway, now: Time): Outcome {
    var g' := g.(dog := Watchdog.Checked(g.dog, cfg.packetTimeout, now));
    if Watchdog.Fires(g.dog, cfg.packetTimeout, now)
    then Outcome(g'.(machine := Froze(g.machine)), Some(FREEZE_COMMAND), None, None)
    else Silent(g')
  }

  datatype Event = Signal(message: ServerMessage) | Peer(msg: Message) | Poll

  /** An event with the monotonic and the wall-clock time at which it is processed. */
  datatype Timed = Timed(now: Time, wall: Time, event: Event)

  function Step(cfg: Config, g: Gateway, e: Timed): Outcome {
    match e.event
    case Signal(m) => OnSignal(cfg, g, m, e.wall)
    case Peer(msg) => OnPeer(cfg, g, msg, e.now, e.wall)
    case Poll => OnPoll(cfg, g, e.now)
  }

  /** `after` is `before` with the reply added once for each peer, in some order. */
  predicate SentToAll(
    after: seq<(ParticipantId, Response)>, before: seq<(ParticipantId, Response)>,
    peers: map<ParticipantId, Role>, reply: Response)
  {
    && before <= after && |after| == |before| + |peers|
    && (forall p :: p in peers ==> (p, reply) in after[|before|..])
    && (forall s :: s in after[|before|..] ==> s.1 == reply && s.0 in peers)
  }

  class GatewayService {
    const cfg: Config
    const machine: TeleopStateMachine
    const ros: RosBackend.FollowerRos
    const handler: CommandHandler.Handler
    const watchdog: Watchdog.WatchdogTimer
    var lastLeaderTimestamp: Option<Time>
    var participantId: Option<ParticipantId>
    var peers: map<ParticipantId, Role>
    /** What has been broadcast to each peer, and what has been sent to the signaling server. */
    var sent: seq<(ParticipantId, Response)>
    var uplink: seq<Rtc>

    predicate Valid()
      reads this, ros
    {
      && ros.Valid()
      && handler.machine == machine && handler.ros == ros
      && handler.maxAge == cfg.maxPacketAge && watchdog.timeout == cfg.packetTimeout
    }

    function View(): Gateway
      reads this, machine, handler.tracker, watchdog
    {
      Gateway(machine.View(), handler.tracker.lastSeq, watchdog.View(), lastLeaderTimestamp, participantId, peers)
    }

    /** The gateway is now as the outcome says, and has sent what the outcome says, on top of what it had
        sent before. */
    predicate Performed(o: Outcome, topic: seq<Command>, sent: seq<(ParticipantId, Response)>, uplink: seq<Rtc>)
      reads this, machine, handler.tracker, watchdog, ros
    {
      && View() == o.next
      && ros.topic == topic + Listed(o.command)
      && this.uplink == uplink + Listed(o.answer)
      && (o.reply == None ==> this.sent == sent)
      && (o.reply.Some? ==> SentToAll(this.sent, sent, peers, o.reply.value))
    }

    constructor (cfg: Config)
      ensures this.cfg == cfg && Valid() && View() == START && ros.topic == [] && sent == [] && uplink == []
    {
      var sm := new TeleopStateMachine();
      var backend := new RosBackend.FollowerRos();
      this.cfg := cfg;
      this.machine, this.ros := sm, backend;
      this.handler := new CommandHandler.Handler(sm, backend, cfg.maxPacketAge);
      this.watchdog := new Watchdog.WatchdogTimer(cfg.packetTimeout);
      lastLeaderTimestamp, participantId, peers, sent, uplink := None, None, map[], [], [];
    }

    /** Each peer gets the reply exactly once. */
    method Broadcast(reply: Response)
      modifies this`sent
      ensures SentToAll(sent, old(sent), peers, reply)
    {
      var todo := peers.Keys;
      ghost var base := sent;
      while todo != {}
        invariant todo <= peers.Keys && base <= sent && |sent| == |base| + |peers| - |todo|
        invariant forall p :: p in peers && p !in todo ==> (p, reply) in sent[|base|..]
        invariant forall s :: s in sent[|base|..] ==> s.1 == reply && s.0 in peers
      {
        var p :| p in todo;
        ghost var before := sent;
        sent := sent + [(p, reply)];
        todo := todo - {p};
        assert sent[|base|..] == before[|base|..] + [(p, reply)];
      }
      assert base == old(sent);
    }

    method HandleOffer(rtc: Rtc)
      requires Valid() && rtc.kind.Offer?
      modifies this, machine
      ensures Valid() && Performed(OnOffer(old(View()), rtc), old(ros.topic), old(sent), old(uplink))
    {
      if rtc.sender == None || rtc.senderRole == None {
        return;
      }
      peers := peers[rtc.sender.value := rtc.senderRole.value];
      machine.OnPeerConnected();
      uplink := uplink + [Rtc(Answer, rtc.senderRole.value, rtc.sender, None, None, AnswerTo(rtc.sdp))];
    }

    /** A stop relayed by the server is handled like one from a peer, without feeding the watchdog. */
    method OnRelayedStop(msg: EstopMessage, wall: Time)
      requires Valid()
      modifies this`sent, machine, ros, handler.tracker
      ensures Valid()
      ensures Performed(OnMessage(cfg, old(View()), msg, wall), old(ros.topic), old(sent), old(uplink))
    {
      var response := handler.HandleMessage(msg, wall);
      if response.Some? {
        Broadcast(response.value);
      }
    }

    method OnSignalingMessage(m: ServerMessage, wall: Time)
      requires Valid()
      modifies this, machine, ros, handler.tracker
      ensures Valid()
      ensures Performed(OnSignal(cfg, old(View()), m, wall), old(ros.topic), old(sent), old(uplink))
    {
      match m
      case Joined(id, state, owner) =>
        participantId := Some(id);
        machine.owner := owner;
        machine.state := state;
      case Ownership(owner, _) =>
        machine.OnOwnership(owner);
      case EstopRelay(msg) =>
        OnRelayedStop(msg, wall);
      case RtcRelay(rtc) =>
        if rtc.kind.Offer? {
          HandleOffer(rtc);
        }
      case _ =>
    }

    /** How the watchdog follows a peer's command once it has been handled. */
    method FollowCommand(msg: Message, response: Option<Response>, now: Time)
      modifies watchdog
      ensures watchdog.View() == DogAfter(old(watchdog.View()), msg, response, machine.View(), now)
    {
      var accepted := response.Some? && response.value.Ack? && response.value.accepted;
      if msg.body.LeaderState? {
        if response == None && machine.state in {Armed, Clutched} {
          watchdog.Feed(now);
        }
      } else if msg.body.Enable? && accepted {
        watchdog.Feed(now);
      } else if msg.body.Disable? && accepted {
        watchdog.Disarm();
      } else if msg.body.Clutch? && accepted {
        if msg.body.engage {
          watchdog.Disarm();
        } else {
          watchdog.Feed(now);
        }
      }
    }

    /** Everything about a peer's message but the sending of the reply. */
    method TakePeerMessage(msg: Message, now: Time, wall: Time) returns (response: Option<Response>)
      requires Valid()
      modifies this`lastLeaderTimestamp, machine, ros, handler.tracker, watchdog
      ensures Valid()
      ensures var o := OnPeer(cfg, old(View()), msg, now, wall);
              && View() == o.next && response == o.reply && o.answer == None
              && ros.topic == old(ros.topic) + Listed(o.command)
    {
      if msg.body.LeaderState? {
        lastLeaderTimestamp := Some(msg.timestamp);
      }
      response := handler.HandleMessage(msg, wall);
      FollowCommand(msg, response, now);
    }

    method OnPeerMessage(msg: Message, now: Time, wall: Time)
      requires Valid()
      modifies this, machine, ros, handler.tracker, watchdog
      ensures Valid()
      ensures Performed(OnPeer(cfg, old(View()), msg, now, wall), old(ros.topic), old(sent), old(uplink))
    {
      var response := TakePeerMessage(msg, now, wall);
      if response.Some? {
        Broadcast(response.value);
      }
    }

    /** One turn of the watchdog's loop, with this gateway's timeout callback. */
    method PollWatchdog(now: Time)
      requires Valid()
      modifies this, machine, ros, watchdog
      ensures Valid() && Performed(OnPoll(cfg, old(View()), now), old(ros.topic), old(sent), old(uplink))
    {
      var fired := watchdog.Poll(now);
      if fired {
        machine.OnFreeze();
        ros.PublishInjectedCommand(FREEZE_COMMAND);
      }
    }
  }
}
