/** The message vocabulary shared by the signaling server, the gateways and the arm:
    shared/protocol/teleop_protocol, already parsed and typed. */
module Protocol {

  datatype Option<+T> = None | Some(value: T)

  function Listed<T>(o: Option<T>): seq<T> {
    if o.Some? then [o.value] else []
  }

  type OperatorId = string
  type ParticipantId = nat
  type Time = real

  const PROTOCOL_VERSION := 1

  datatype Role = Operator | Leader | Follower

  datatype SessionState =
    | Disconnected | Connected | Ready | Claimed
    | Armed | Clutched | Frozen | Estopped

  /** The states the signaling server can report; the finer ones belong to the follower. */
  predicate Coarse(s: SessionState) {
    !s.Armed? && !s.Clutched? && !s.Frozen?
  }

  datatype Mode = Idle | Tracking | Homing | HoldFrozen | HoldEstopped

  datatype Grip = OpenGrip | CloseGrip

  datatype ErrorCode =
    | ProtocolVersionMismatch | NotOwner | NotArmed | EstoppedSession | StalePacket | SequenceReplay
    | InvalidMessage

  // ---------------------------------------------------------------- data-channel messages

  datatype Body =
    | Estop(engaged: bool, reset: bool)
    | Enable(operator: OperatorId)
    | Disable(operator: OperatorId)
    | Clutch(operator: OperatorId, engage: bool)
    | Home(operator: OperatorId)
    | Gripper(operator: OperatorId, grip: Grip)
    | LeaderState(operator: OperatorId, joints: seq<real>, level: real, enabled: bool, clutched: bool)
    | OtherBody

  datatype Message = Message(version: int, timestamp: Time, seqno: int, body: Body)

  type EstopMessage = m: Message | m.body.Estop? witness Message(PROTOCOL_VERSION, 0.0, 0, Estop(true, false))

  datatype AckType = EstopAck | EnableAck | DisableAck | ClutchAck | HomeAck | GripperAck

  datatype Response =
    | Ack(ackType: AckType, seqno: int, accepted: bool)
    | Error(code: ErrorCode, relatedSeq: Option<int>)

  // ---------------------------------------------------------------- commands for the arm

  /** One entry of a command dictionary: no such key, the key with a null, or a value. */
  datatype Field<+T> = Absent | Null | Value(value: T)

  datatype GripSetting = Word(grip: Grip) | Level(level: real)

  datatype Command = Command(
    estopped: Field<bool>,
    enabled: Field<bool>,
    clutched: Field<bool>,
    mode: Field<Mode>,
    joints: Field<seq<real>>,
    gripper: Field<GripSetting>,
    gripperCommand: Field<Grip>)

  const EMPTY := Command(Absent, Absent, Absent, Absent, Absent, Absent, Absent)

  // ---------------------------------------------------------------- signaling messages

  datatype RtcKind = Offer | Answer | IceCandidate

  /** A session description. The answer to an offer is some description made for that offer. */
  datatype Sdp = Description(text: string) | AnswerTo(offer: Sdp)

  datatype Rtc = Rtc(
    kind: RtcKind,
    toRole: Role,
    to: Option<ParticipantId>,
    sender: Option<ParticipantId>,
    senderRole: Option<Role>,
    sdp: Sdp)

  /** What the server sends to a participant. */
  datatype ServerMessage =
    | Joined(participantId: ParticipantId, sessionState: SessionState, owner: Option<OperatorId>)
    | Ownership(owner: Option<OperatorId>, teleopState: SessionState)
    | EstopRelay(message: EstopMessage)
    | RtcRelay(rtc: Rtc)
    | ClaimResult(operator: OperatorId, granted: bool)
    | SessionError(code: ErrorCode)
    | Snapshot(teleopState: SessionState, owner: Option<OperatorId>, estopped: bool)

  /** What a participant sends to the server after it has joined. */
  datatype ClientMessage =
    | ClaimRequest(operator: OperatorId)
    | ReleaseRequest(operator: OperatorId)
    | EstopRequest(message: EstopMessage)
    | Heartbeat
    | StateRequest
    | LeaveNotice
    | RtcRequest(rtc: Rtc)
    | Unhandled
}
