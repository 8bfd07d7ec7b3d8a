/** services/follower-gateway/follower_gateway/command_handler.py: validating a data-channel
    message and turning it into a state change, a command for the arm and a reply. */
module CommandHandler {
  import opened Protocol
  import opened Validation
  import opened StateMachine
  import RosBackend

  /** What one message does. No handler publishes more than one command. */
  datatype Handled = Handled(
    machine: Machine,
    leaderSeq: Option<int>,
    command: Option<Command>,
    response: Option<Response>)

  function Refused(m: Machine, last: Option<int>, code: ErrorCode, seqno: int): Handled {
    Handled(m, last, None, Some(Error(code, Some(seqno))))
  }

  function Accepted(m: Machine, last: Option<int>, c: Command, ackType: AckType, seqno: int): Handled {
    Handled(m, last, Some(c), Some(Ack(ackType, seqno, true)))
  }

  function HandleEstop(m: Machine, last: Option<int>, seqno: int, engaged: bool, reset: bool): Handled {
    var m' := EstopHandled(m, engaged, reset);
    Accepted(
      m',
      if m'.IsEstopped() then None else last,
      EMPTY.(estopped := Value(m'.IsEstopped()),
             enabled := Value(m'.IsArmed()),
             clutched := Value(m'.state.Clutched?),
             mode := if m'.IsEstopped() then Value(HoldEstopped) else Null),
      EstopAck, seqno)
  }

  function HandleEnable(m: Machine, last: Option<int>, seqno: int): Handled {
    match Enabled(m)
    case None => Refused(m, last, NotArmed, seqno)
    case Some(m') =>
      Accepted(m', last, EMPTY.(enabled := Value(true), clutched := Value(false), mode := Value(Tracking)),
               EnableAck, seqno)
  }

  function HandleDisable(m: Machine, last: Option<int>, seqno: int): Handled {
    match Disabled(m)
    case None => Refused(m, last, NotArmed, seqno)
    case Some(m') =>
      Accepted(m', None, EMPTY.(enabled := Value(false), clutched := Value(false), mode := Value(Idle)),
               DisableAck, seqno)
  }

  function HandleClutch(m: Machine, last: Option<int>, seqno: int, engage: bool): Handled {
    match ClutchMoved(m, engage)
    case None => Refused(m, last, NotArmed, seqno)
    case Some(m') =>
      Accepted(m', last, EMPTY.(enabled := Value(true), clutched := Value(engage), mode := Value(Tracking)),
               ClutchAck, seqno)
  }

  function HandleHome(m: Machine, last: Option<int>, seqno: int): Handled {
    if m.IsArmed() then Refused(m, last, NotArmed, seqno)
    else Accepted(m, last, EMPTY.(mode := Value(Homing)), HomeAck, seqno)
  }

  function HandleGripper(m: Machine, last: Option<int>, seqno: int, grip: Grip): Handled {
    if !m.IsArmed() then Refused(m, last, NotArmed, seqno)
    else Accepted(m, last, EMPTY.(gripper := Value(Word(grip))), GripperAck, seqno)
  }

  function PoseCommand(clutched: bool, joints: seq<real>, level: real): Command {
    EMPTY.(enabled := Value(true),
           clutched := Value(clutched),
           mode := Value(Tracking),
           joints := Value(joints),
           gripper := Value(Level(level)),
           gripperCommand := Value(if level > 0.5 then CloseGrip else OpenGrip))
  }

  function HandleLeaderState(
    maxAge: Time, m: Machine, last: Option<int>, msg: Message, joints: seq<real>, level: real, wall: Time): Handled
  {
    if !m.IsArmed() then Refused(m, last, NotArmed, msg.seqno)
    else if IsStale(msg.timestamp, maxAge, wall) then Refused(m, last, StalePacket, msg.seqno)
    else if !IsFresh(msg.seqno, last) then Refused(m, last, SequenceReplay, msg.seqno)
    else Handled(m, Some(msg.seqno), Some(PoseCommand(m.state.Clutched?, joints, level)), None)
  }

  /** Every command except the e-stop names an operator, who must own an unstopped session. */
  function OwnerFault(m: Machine, operator: OperatorId): Option<ErrorCode> {
    if m.IsEstopped() then Some(EstoppedSession)
    else if !Owns(operator, m.owner) then Some(NotOwner)
    else None
  }

  function Handle(maxAge: Time, m: Machine, last: Option<int>, msg: Message, wall: Time): Handled {
    if msg.version != PROTOCOL_VERSION then
      Handled(m, last, None, Some(Error(ProtocolVersionMismatch, None)))
    else
      match msg.body
      case Estop(engaged, reset) => HandleEstop(m, last, msg.seqno, engaged, reset)
      case OtherBody => Handled(m, last, None, None)
      case _ =>
        var fault := OwnerFault(m, msg.body.operator);
        if fault.Some? then Refused(m, last, fault.value, msg.seqno)
        else
          match msg.body
          case Enable(_) => HandleEnable(m, last, msg.seqno)
          case Disable(_) => HandleDisable(m, last, msg.seqno)
          case Clutch(_, engage) => HandleClutch(m, last, msg.seqno, engage)
          case Home(_) => HandleHome(m, last, msg.seqno)
          case Gripper(_, grip) => HandleGripper(m, last, msg.seqno, grip)
          case LeaderState(_, joints, level, _, _) => HandleLeaderState(maxAge, m, last, msg, joints, level, wall)
  }

  class Handler {
    const machine: TeleopStateMachine
    const ros: RosBackend.FollowerRos
    const maxAge: Time
    const tracker: SequenceTracker

    constructor (machine: TeleopStateMachine, ros: RosBackend.FollowerRos, maxAge: Time)
      ensures this.machine == machine && this.ros == ros && this.maxAge == maxAge
      ensures fresh(tracker) && tracker.lastSeq == None
    {
      this.machine, this.ros, this.maxAge := machine, ros, maxAge;
      tracker := new SequenceTracker();
    }

    method ValidateOwner(operator: OperatorId, seqno: int) returns (fault: Option<Response>)
      ensures fault == match OwnerFault(machine.View(), operator)
                       case None => None
                       case Some(code) => Some(Error(code, Some(seqno)))
    {
      if machine.state == Estopped {
        return Some(Error(EstoppedSession, Some(seqno)));
      }
      if machine.owner == None || Some(operator) != machine.owner {
        return Some(Error(NotOwner, Some(seqno)));
      }
      return None;
    }

    /** The handlers proper, once the sender is known to own the session. */
    method HandleOwned(msg: Message, wall: Time) returns (response: Option<Response>)
      requires ros.Valid()
      requires msg.version == PROTOCOL_VERSION && !msg.body.Estop? && !msg.body.OtherBody?
      requires OwnerFault(machine.View(), msg.body.operator) == None
      modifies machine, ros, tracker
      ensures ros.Valid()
      ensures var h := Handle(maxAge, old(machine.View()), old(tracker.lastSeq), msg, wall);
              && machine.View() == h.machine
              && tracker.lastSeq == h.leaderSeq
              && response == h.response
              && ros.topic == old(ros.topic) + Listed(h.command)
    {
      match msg.body
      case Enable(_) =>
        var ok := machine.OnEnable();
        if !ok {
          return Some(Error(NotArmed, Some(msg.seqno)));
        }
        ros.PublishInjectedCommand(
          EMPTY.(enabled := Value(true), clutched := Value(false), mode := Value(Tracking)));
        return Some(Ack(EnableAck, msg.seqno, true));
      case Disable(_) =>
        var ok := machine.OnDisable();
        if !ok {
          return Some(Error(NotArmed, Some(msg.seqno)));
        }
        tracker.Reset();
        ros.PublishInjectedCommand(
          EMPTY.(enabled := Value(false), clutched := Value(false), mode := Value(Idle)));
        return Some(Ack(DisableAck, msg.seqno, true));
      case Clutch(_, engage) =>
        var ok := machine.OnClutch(engage);
        if !ok {
          return Some(Error(NotArmed, Some(msg.seqno)));
        }
        ros.PublishInjectedCommand(
          EMPTY.(enabled := Value(true), clutched := Value(engage), mode := Value(Tracking)));
        return Some(Ack(ClutchAck, msg.seqno, true));
      case Home(_) =>
        if machine.state in {Armed, Clutched} {
          return Some(Error(NotArmed, Some(msg.seqno)));
        }
        ros.PublishInjectedCommand(EMPTY.(mode := Value(Homing)));
        return Some(Ack(HomeAck, msg.seqno, true));
      case Gripper(_, grip) =>
        if machine.state !in {Armed, Clutched} {
          return Some(Error(NotArmed, Some(msg.seqno)));
        }
        ros.PublishInjectedCommand(EMPTY.(gripper := Value(Word(grip))));
        return Some(Ack(GripperAck, msg.seqno, true));
      case LeaderState(_, joints, level, _, _) =>
        if machine.state !in {Armed, Clutched} {
          return Some(Error(NotArmed, Some(msg.seqno)));
        }
        if wall - msg.timestamp > maxAge {
          return Some(Error(StalePacket, Some(msg.seqno)));
        }
        var ok := tracker.Accept(msg.seqno);
        if !ok {
          return Some(Error(SequenceReplay, Some(msg.seqno)));
        }
        ros.PublishInjectedCommand(PoseCommand(machine.state == Clutched, joints, level));
        return None;
    }

    /** Publishing appends at most one command to the topic, and the reply is the one specified. */
    method HandleMessage(msg: Message, wall: Time) returns (response: Option<Response>)
      requires ros.Valid()
      modifies machine, ros, tracker
      ensures ros.Valid()
      ensures var h := Handle(maxAge, old(machine.View()), old(tracker.lastSeq), msg, wall);
              && machine.View() == h.machine
              && tracker.lastSeq == h.leaderSeq
              && response == h.response
              && ros.topic == old(ros.topic) + Listed(h.command)
    {
      if msg.version != PROTOCOL_VERSION {
        return Some(Error(ProtocolVersionMismatch, None));
      }
      match msg.body
      case Estop(engaged, reset) =>
        machine.OnEstop(engaged, reset);
        ros.PublishInjectedCommand(
          EMPTY.(estopped := Value(machine.state == Estopped),
                 enabled := Value(machine.state in {Armed, Clutched}),
                 clutched := Value(machine.state == Clutched),
                 mode := if machine.state == Estopped then Value(HoldEstopped) else Null));
        if machine.state == Estopped {
          tracker.Reset();
        }
        return Some(Ack(EstopAck, msg.seqno, true));
      case OtherBody =>
        return None;
      case _ =>
        var fault := ValidateOwner(msg.body.operator, msg.seqno);
        if fault != None {
          return fault;
        }
        response := HandleOwned(msg, wall);
    }
  }

  // ------------------------------------------------- who may do what

  /** The protocol's rule for acting on a message, independent of the order of the checks. */
  predicate Permitted(maxAge: Time, m: Machine, last: Option<int>, msg: Message, wall: Time) {
    && msg.version == PROTOCOL_VERSION
    && !msg.body.OtherBody?
    && (msg.body.Estop? ||
        (&& !m.IsEstopped()
         && m.owner == Some(msg.body.operator)
         && match msg.body
            case Enable(_) => m.state.Claimed?
            case Disable(_) => m.state in {Armed, Clutched, Frozen}
            case Clutch(_, engage) => m.state == if engage then Armed else Clutched
            case Home(_) => m.state !in {Armed, Clutched}
            case Gripper(_, _) => m.state in {Armed, Clutched}
            case LeaderState(_, _, _, _, _) =>
              && m.state in {Armed, Clutched}
              && wall <= msg.timestamp + maxAge
              && (last == None || last.value < msg.seqno)))
  }

  /** A message has an effect exactly when it is permitted; anything else changes nothing,
      publishes nothing, and (unless no handler exists for it) is answered with an error. */
  lemma {:induction false} EffectIffPermitted(maxAge: Time, m: Machine, last: Option<int>, msg: Message, wall: Time)
    ensures var h := Handle(maxAge, m, last, msg, wall);
            && (Permitted(maxAge, m, last, msg, wall) <==> h.command.Some?)
            && (!Permitted(maxAge, m, last, msg, wall) ==>
                  && h.machine == m && h.leaderSeq == last
                  && (h.response == None || h.response.value.Error?)
                  && (h.response == None <==> msg.version == PROTOCOL_VERSION && msg.body.OtherBody?))
            && (Permitted(maxAge, m, last, msg, wall) ==>
                  if msg.body.LeaderState? then h.response == None
                  else h.response.Some? && h.response.value.Ack? && h.response.value.accepted
                       && h.response.value.seqno == msg.seqno)
  {
  }

  /** A message that only the owner may send, from the owner of a session that is not stopped. */
  predicate Admitted(m: Machine, msg: Message) {
    && msg.version == PROTOCOL_VERSION && !msg.body.Estop? && !msg.body.OtherBody?
    && !m.state.Estopped? && m.owner == Some(msg.body.operator)
  }

  /** States in which the protocol forbids what the owner asks for. */
  predicate Forbidden(state: SessionState, b: Body) {
    match b
    case Enable(_) => state != Claimed
    case Disable(_) => state !in {Armed, Clutched, Frozen}
    case Clutch(_, engage) => state != if engage then Armed else Clutched
    case Home(_) => state in {Armed, Clutched}
    case Gripper(_, _) => state !in {Armed, Clutched}
    case LeaderState(_, _, _, _, _) => state !in {Armed, Clutched}
    case _ => false
  }

  predicate Refuses(h: Handled, code: ErrorCode, seqno: int) {
    h.response == Some(Error(code, Some(seqno)))
  }

  /** Which reply answers which message, both ways: the first check that fails, in the order version,
      e-stop, owner, state, age, sequence. Only a version mismatch leaves the offending sequence number
      out of the reply, and no other error occurs. */
  lemma {:induction false} ErrorCodes(maxAge: Time, m: Machine, last: Option<int>, msg: Message, wall: Time)
    ensures var h, n := Handle(maxAge, m, last, msg, wall), msg.seqno;
            var owned := msg.version == PROTOCOL_VERSION && !msg.body.Estop? && !msg.body.OtherBody?;
            var packet := Admitted(m, msg) && msg.body.LeaderState? && m.state in {Armed, Clutched};
            && (h.response == Some(Error(ProtocolVersionMismatch, None)) <==> msg.version != PROTOCOL_VERSION)
            && (Refuses(h, EstoppedSession, n) <==> owned && m.state.Estopped?)
            && (Refuses(h, NotOwner, n) <==> owned && !m.state.Estopped? && m.owner != Some(msg.body.operator))
            && (Refuses(h, NotArmed, n) <==> Admitted(m, msg) && Forbidden(m.state, msg.body))
            && (Refuses(h, StalePacket, n) <==> packet && wall - msg.timestamp > maxAge)
            && (Refuses(h, SequenceReplay, n) <==>
                  packet && wall - msg.timestamp <= maxAge && last.Some? && msg.seqno <= last.value)
            && (h.response.Some? && h.response.value.Error? ==>
                  || h.response == Some(Error(ProtocolVersionMismatch, None))
                  || Refuses(h, EstoppedSession, n) || Refuses(h, NotOwner, n) || Refuses(h, NotArmed, n)
                  || Refuses(h, StalePacket, n) || Refuses(h, SequenceReplay, n))
  {
  }

  /** And which acknowledgement: each kind answers the accepted messages of its kind and no others. */
  lemma {:induction false} AckTypes(
    maxAge: Time, m: Machine, last: Option<int>, msg: Message, wall: Time, kind: AckType)
    ensures var h := Handle(maxAge, m, last, msg, wall);
            h.response == Some(Ack(kind, msg.seqno, true)) <==>
            && msg.version == PROTOCOL_VERSION
            && match kind
               case EstopAck => msg.body.Estop?
               case EnableAck => msg.body.Enable? && Admitted(m, msg) && m.state.Claimed?
               case DisableAck => msg.body.Disable? && Admitted(m, msg) && m.state in {Armed, Clutched, Frozen}
               case ClutchAck =>
                 msg.body.Clutch? && Admitted(m, msg) && m.state == if msg.body.engage then Armed else Clutched
               case HomeAck => msg.body.Home? && Admitted(m, msg) && m.state !in {Armed, Clutched}
               case GripperAck => msg.body.Gripper? && Admitted(m, msg) && m.state in {Armed, Clutched}
  {
  }

  /** Which keys the published command has, by the kind of message: nothing is set that the message does
      not call for. A null mode is how a stop message that stops nothing says that it has no mode. */
  lemma {:induction false} CommandKeys(maxAge: Time, m: Machine, last: Option<int>, msg: Message, wall: Time)
    requires Handle(maxAge, m, last, msg, wall).command.Some?
    ensures var h := Handle(maxAge, m, last, msg, wall);
            var c, b := h.command.value, msg.body;
            && (c.estopped == if b.Estop? then Value(h.machine.state.Estopped?) else Absent)
            && (c.enabled == Absent <==> b.Home? || b.Gripper?) && (c.clutched == Absent <==> b.Home? || b.Gripper?)
            && (c.mode == Absent <==> b.Gripper?) && (c.mode == Null <==> b.Estop? && !h.machine.state.Estopped?)
            && (c.joints == Absent <==> !b.LeaderState?) && (c.gripperCommand == Absent <==> !b.LeaderState?)
            && (c.gripper == Absent <==> !b.LeaderState? && !b.Gripper?)
            && (b.Estop? ==>
                  && (c.enabled == Value(true) <==> h.machine.state in {Armed, Clutched})
                  && (c.clutched == Value(true) <==> h.machine.state.Clutched?))
  {
  }

  /** Poses flow through a clutched session too: they are published, marked as clutched. */
  lemma {:induction false} PoseIffArmed(maxAge: Time, m: Machine, last: Option<int>, msg: Message, wall: Time)
    requires msg.body.LeaderState?
    ensures var c := Handle(maxAge, m, last, msg, wall).command;
            && (c.Some? ==> c.value == PoseCommand(m.state.Clutched?, msg.body.joints, msg.body.level))
            && (c.Some? <==>
                  && msg.version == PROTOCOL_VERSION
                  && (m.state.Armed? || m.state.Clutched?)
                  && m.owner == Some(msg.body.operator)
                  && wall - msg.timestamp <= maxAge
                  && (last == None || last.value < msg.seqno))
  {
  }
}
