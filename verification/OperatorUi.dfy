/** apps/operator-ui/src/state/sessionMachine.ts: the reducer behind the operator's screen and the
    rules that unlock the motion controls. */
module OperatorUi {
  import opened Protocol
  import opened History

  datatype Inbound =
    | SessionJoined(participantId: ParticipantId, sessionState: SessionState, owner: Option<OperatorId>)
    | TeleopOwnership(owner: Option<OperatorId>, teleopState: SessionState)
    | FollowerState(mode: Mode)
    | TeleopStatus(teleopState: SessionState)
    | OtherInbound

  datatype Action =
    | WsConnecting
    | WsOpen
    | WsClosed
    | Arrived(message: Inbound, now: Time)
    | PeerConnection(up: bool)
    | DataChannels(open: bool)

  datatype WsStatus = WsDown | WsPending | WsUp

  datatype UIState = UIState(
    wsStatus: WsStatus,
    participantId: Option<ParticipantId>,
    operatorId: OperatorId,
    signalingState: SessionState,
    owner: Option<OperatorId>,
    peerUp: bool,
    dataChannelsOpen: bool,
    followerMode: Option<Mode>,
    status: Option<SessionState>,
    lastTelemetryAt: Option<Time>)

  const TELEMETRY_STALE_MS: Time := 1000.0

  function InitialState(operatorId: OperatorId): UIState {
    UIState(WsDown, None, operatorId, Disconnected, None, false, false, None, None, None)
  }

  function ApplyMessage(s: UIState, m: Inbound, now: Time): UIState {
    match m
    case SessionJoined(id, state, owner) => s.(participantId := Some(id), signalingState := state, owner := owner)
    case TeleopOwnership(owner, state) => s.(signalingState := state, owner := owner)
    case FollowerState(mode) => s.(followerMode := Some(mode), lastTelemetryAt := Some(now))
    case TeleopStatus(state) => s.(status := Some(state), lastTelemetryAt := Some(now))
    case OtherInbound => s
  }

  function Reduce(s: UIState, a: Action): UIState {
    match a
    case WsConnecting => s.(wsStatus := WsPending)
    case WsOpen => s.(wsStatus := WsUp)
    case WsClosed =>
      s.(wsStatus := WsDown, signalingState := Disconnected, peerUp := false, dataChannelsOpen := false,
         status := None, followerMode := None)
    case PeerConnection(up) => s.(peerUp := up)
    case DataChannels(open) => s.(dataChannelsOpen := open)
    case Arrived(m, now) => ApplyMessage(s, m, now)
  }

  function Reduced(operatorId: OperatorId, actions: seq<Action>): UIState {
    if actions == [] then InitialState(operatorId)
    else Reduce(Reduced(operatorId, actions[..|actions| - 1]), actions[|actions| - 1])
  }

  // ------------------------------------------------- selectors

  function SelectSessionState(s: UIState): SessionState {
    if s.status.Some? then s.status.value else s.signalingState
  }

  predicate SelectIsOwner(s: UIState) {
    s.owner == Some(s.operatorId)
  }

  predicate SelectIsArmed(s: UIState) {
    var state := SelectSessionState(s);
    state.Armed? || state.Clutched?
  }

  predicate SelectCanClaim(s: UIState) {
    !SelectIsOwner(s) && SelectSessionState(s) in {Ready, Claimed}
  }

  predicate SelectIsStale(s: UIState, now: Time) {
    s.lastTelemetryAt.Some? && now - s.lastTelemetryAt.value > TELEMETRY_STALE_MS
  }

  predicate SelectControlsLocked(s: UIState, now: Time) {
    || !SelectIsOwner(s)
    || !s.dataChannelsOpen
    || SelectSessionState(s).Estopped?
    || SelectIsStale(s, now)
  }

  predicate SelectMotionLocked(s: UIState, now: Time) {
    SelectControlsLocked(s, now) || !SelectIsArmed(s)
  }

  // ------------------------------------------------- what the screen has been told

  predicate ReportsOwner(a: Action) {
    a.Arrived? && (a.message.SessionJoined? || a.message.TeleopOwnership?)
  }

  function ReportsOwnerAs(op: OperatorId): Action -> bool {
    a => ReportsOwner(a) && a.message.owner == Some(op)
  }

  predicate ReportsStatus(a: Action) {
    a.Arrived? && a.message.TeleopStatus?
  }

  predicate ReportsArmed(a: Action) {
    ReportsStatus(a) && (a.message.teleopState.Armed? || a.message.teleopState.Clutched?)
  }

  predicate EndsStatus(a: Action) {
    ReportsStatus(a) || a.WsClosed?
  }

  predicate OpensChannels(a: Action) {
    a == DataChannels(true)
  }

  predicate EndsChannels(a: Action) {
    a.DataChannels? || a.WsClosed?
  }

  predicate Telemetry(a: Action) {
    a.Arrived? && (a.message.FollowerState? || a.message.TeleopStatus?)
  }

  function TelemetryAt(t: Time): Action -> bool {
    a => Telemetry(a) && a.now == t
  }

  predicate CoarseSignal(a: Action) {
    ReportsOwner(a) ==>
      Coarse(if a.message.SessionJoined? then a.message.sessionState else a.message.teleopState)
  }

  /** Signaling only ever reports coarse states. */
  predicate CoarseSignals(actions: seq<Action>) {
    forall i | 0 <= i < |actions| :: CoarseSignal(actions[i])
  }

  // ------------------------------------------------- every field, read off the actions

  /** Each single action makes the property hold if it starts it, and otherwise keeps it as it was,
      unless it ends it. */
  ghost predicate Steps(holds: UIState -> bool, starts: Action -> bool, ends: Action -> bool) {
    forall s: UIState, a: Action {:trigger Reduce(s, a)} ::
      holds(Reduce(s, a)) <==> starts(a) || (holds(s) && !ends(a))
  }

  /** What is so of every single action is so of whole histories. */
  lemma {:induction false} ToldIff(
    op: OperatorId, actions: seq<Action>, holds: UIState -> bool, starts: Action -> bool, ends: Action -> bool)
    requires !holds(InitialState(op)) && Steps(holds, starts, ends)
    ensures holds(Reduced(op, actions)) <==> Since(actions, starts, ends)
  {
    if actions == [] {
    } else {
      var before, a := actions[..|actions| - 1], actions[|actions| - 1];
      ToldIff(op, before, holds, starts, ends);
      assert actions == before + [a];
      SinceExtends(before, a, starts, ends);
    }
  }

  lemma {:induction false} OwnerTold(op: OperatorId, actions: seq<Action>, owner: OperatorId)
    ensures Reduced(op, actions).owner == Some(owner) <==> Since(actions, ReportsOwnerAs(owner), ReportsOwner)
  {
    ToldIff(op, actions, (s: UIState) => s.owner == Some(owner), ReportsOwnerAs(owner), ReportsOwner);
  }

  /** A screen belongs to one operator. */
  lemma {:induction false} OperatorKept(op: OperatorId, actions: seq<Action>)
    ensures Reduced(op, actions).operatorId == op
  {
    if actions == [] {
    } else {
      OperatorKept(op, actions[..|actions| - 1]);
    }
  }

  lemma {:induction false} ChannelsTold(op: OperatorId, actions: seq<Action>)
    ensures Reduced(op, actions).dataChannelsOpen <==> Since(actions, OpensChannels, EndsChannels)
  {
    ToldIff(op, actions, (s: UIState) => s.dataChannelsOpen, OpensChannels, EndsChannels);
  }

  function ReportsStatusAs(state: SessionState): Action -> bool {
    a => ReportsStatus(a) && a.message.teleopState == state
  }

  predicate ClosesSocket(a: Action) {
    a.WsClosed?
  }

  /** The follower's last status is forgotten when the socket closes. */
  lemma {:induction false} StatusTold(op: OperatorId, actions: seq<Action>, state: SessionState)
    ensures Reduced(op, actions).status == Some(state) <==> Since(actions, ReportsStatusAs(state), EndsStatus)
  {
    ToldIff(op, actions, (s: UIState) => s.status == Some(state), ReportsStatusAs(state), EndsStatus);
  }

  lemma {:induction false} StatusKnown(op: OperatorId, actions: seq<Action>)
    ensures Reduced(op, actions).status.Some? <==> Since(actions, ReportsStatus, ClosesSocket)
  {
    ToldIff(op, actions, (s: UIState) => s.status.Some?, ReportsStatus, ClosesSocket);
  }

  function SignaledState(a: Action): SessionState
    requires ReportsOwner(a)
  {
    if a.message.SessionJoined? then a.message.sessionState else a.message.teleopState
  }

  function SignalsAs(state: SessionState): Action -> bool {
    a => ReportsOwner(a) && SignaledState(a) == state
  }

  predicate EndsSignal(a: Action) {
    ReportsOwner(a) || a.WsClosed?
  }

  lemma {:induction false} SignalStep(s: UIState, a: Action, state: SessionState)
    requires state != Disconnected
    ensures Reduce(s, a).signalingState == state <==>
            SignalsAs(state)(a) || (s.signalingState == state && !EndsSignal(a))
  {
  }

  /** The server's last report, too, but not the owner that it named. */
  lemma {:induction false} SignalTold(op: OperatorId, actions: seq<Action>, state: SessionState)
    requires state != Disconnected
    ensures Reduced(op, actions).signalingState == state <==> Since(actions, SignalsAs(state), EndsSignal)
  {
    forall s: UIState, a: Action {
      SignalStep(s, a, state);
    }
    ToldIff(op, actions, (s: UIState) => s.signalingState == state, SignalsAs(state), EndsSignal);
  }

  lemma {:induction false} TelemetryTold(op: OperatorId, actions: seq<Action>, t: Time)
    ensures Reduced(op, actions).lastTelemetryAt == Some(t) <==> Since(actions, TelemetryAt(t), Telemetry)
  {
    ToldIff(op, actions, (s: UIState) => s.lastTelemetryAt == Some(t), TelemetryAt(t), Telemetry);
  }

  /** What the screen shows: the last status from the follower since the socket was last closed, and
      without one the last report from the server since then. */
  ghost predicate Shows(actions: seq<Action>, state: SessionState) {
    || Since(actions, ReportsStatusAs(state), EndsStatus)
    || (!Since(actions, ReportsStatus, ClosesSocket) && Since(actions, SignalsAs(state), EndsSignal))
  }

  lemma {:induction false} StateShown(op: OperatorId, actions: seq<Action>, state: SessionState)
    requires state != Disconnected
    ensures SelectSessionState(Reduced(op, actions)) == state <==> Shows(actions, state)
  {
    StatusTold(op, actions, state);
    StatusKnown(op, actions);
    SignalTold(op, actions, state);
  }

  /** The controls other than motion are unlocked exactly when the last owner reported is this operator,
      the data channels were opened and not lost since, no stop is shown, and no telemetry has come or
      the last of it is recent. */
  lemma {:induction false} ControlsUnlockedIff(op: OperatorId, actions: seq<Action>, now: Time)
    ensures !SelectControlsLocked(Reduced(op, actions), now) <==>
            && Since(actions, ReportsOwnerAs(op), ReportsOwner)
            && Since(actions, OpensChannels, EndsChannels)
            && !Shows(actions, Estopped)
            && forall t | Since(actions, TelemetryAt(t), Telemetry) :: now - t <= TELEMETRY_STALE_MS
  {
    var s := Reduced(op, actions);
    OperatorKept(op, actions);
    OwnerTold(op, actions, op);
    ChannelsTold(op, actions);
    StateShown(op, actions, Estopped);
    forall t: Time {
      TelemetryTold(op, actions, t);
    }
    if s.lastTelemetryAt.Some? {
      TelemetryTold(op, actions, s.lastTelemetryAt.value);
    }
  }

  /** The claim button is offered exactly to somebody other than the owner, in a session shown as ready or
      claimed. */
  lemma {:induction false} CanClaimIff(op: OperatorId, actions: seq<Action>)
    ensures SelectCanClaim(Reduced(op, actions)) <==>
            && !Since(actions, ReportsOwnerAs(op), ReportsOwner)
            && (Shows(actions, Ready) || Shows(actions, Claimed))
  {
    OperatorKept(op, actions);
    OwnerTold(op, actions, op);
    StateShown(op, actions, Ready);
    StateShown(op, actions, Claimed);
  }

  function IsAction(b: Action): Action -> bool {
    a => a == b
  }

  predicate MovesSocket(a: Action) {
    a.WsConnecting? || a.WsOpen? || a.WsClosed?
  }

  predicate EndsPeer(a: Action) {
    a.PeerConnection? || a.WsClosed?
  }

  predicate ReportsMode(a: Action) {
    a.Arrived? && a.message.FollowerState?
  }

  function ReportsModeAs(mode: Mode): Action -> bool {
    a => ReportsMode(a) && a.message.mode == mode
  }

  predicate EndsMode(a: Action) {
    ReportsMode(a) || a.WsClosed?
  }

  predicate Welcomes(a: Action) {
    a.Arrived? && a.message.SessionJoined?
  }

  function WelcomesAs(id: ParticipantId): Action -> bool {
    a => Welcomes(a) && a.message.participantId == id
  }

  lemma {:induction false} SocketTold(op: OperatorId, actions: seq<Action>)
    ensures Reduced(op, actions).wsStatus == WsUp <==> Since(actions, IsAction(WsOpen), MovesSocket)
    ensures Reduced(op, actions).wsStatus == WsPending <==> Since(actions, IsAction(WsConnecting), MovesSocket)
  {
    ToldIff(op, actions, (s: UIState) => s.wsStatus == WsUp, IsAction(WsOpen), MovesSocket);
    ToldIff(op, actions, (s: UIState) => s.wsStatus == WsPending, IsAction(WsConnecting), MovesSocket);
  }

  lemma {:induction false} PeerTold(op: OperatorId, actions: seq<Action>)
    ensures Reduced(op, actions).peerUp <==> Since(actions, IsAction(PeerConnection(true)), EndsPeer)
  {
    ToldIff(op, actions, (s: UIState) => s.peerUp, IsAction(PeerConnection(true)), EndsPeer);
  }

  lemma {:induction false} ModeTold(op: OperatorId, actions: seq<Action>, mode: Mode)
    ensures Reduced(op, actions).followerMode == Some(mode) <==> Since(actions, ReportsModeAs(mode), EndsMode)
  {
    ToldIff(op, actions, (s: UIState) => s.followerMode == Some(mode), ReportsModeAs(mode), EndsMode);
  }

  lemma {:induction false} IdTold(op: OperatorId, actions: seq<Action>, id: ParticipantId)
    ensures Reduced(op, actions).participantId == Some(id) <==> Since(actions, WelcomesAs(id), Welcomes)
  {
    ToldIff(op, actions, (s: UIState) => s.participantId == Some(id), WelcomesAs(id), Welcomes);
  }

  predicate StatusKept(s: UIState) {
    Coarse(s.signalingState) && (s.status.Some? ==> s.lastTelemetryAt.Some?)
  }

  lemma {:induction false} ArmedStep(s: UIState, a: Action)
    requires StatusKept(s) && CoarseSignal(a)
    ensures StatusKept(Reduce(s, a))
    ensures SelectIsArmed(Reduce(s, a)) <==> ReportsArmed(a) || (SelectIsArmed(s) && !EndsStatus(a))
  {
  }

  lemma {:induction false} ArmedTold(op: OperatorId, actions: seq<Action>)
    requires CoarseSignals(actions)
    ensures StatusKept(Reduced(op, actions))
    ensures SelectIsArmed(Reduced(op, actions)) <==> Since(actions, ReportsArmed, EndsStatus)
  {
    if actions == [] {
    } else {
      var before, a := actions[..|actions| - 1], actions[|actions| - 1];
      ArmedTold(op, before);
      assert actions == before + [a] && CoarseSignal(a);
      ArmedStep(Reduced(op, before), a);
      SinceExtends(before, a, ReportsArmed, EndsStatus);
    }
  }

  /** The motion controls are unlocked exactly when the last owner reported is this operator, the
      data channels were opened and not lost since, the last status since the socket was last lost
      said armed or clutched, and the last telemetry is recent. */
  lemma {:induction false} MotionUnlockedIff(op: OperatorId, actions: seq<Action>, now: Time)
    requires CoarseSignals(actions)
    ensures !SelectMotionLocked(Reduced(op, actions), now) <==>
            && Since(actions, ReportsOwnerAs(op), ReportsOwner)
            && Since(actions, OpensChannels, EndsChannels)
            && Since(actions, ReportsArmed, EndsStatus)
            && exists t :: now - t <= TELEMETRY_STALE_MS && Since(actions, TelemetryAt(t), Telemetry)
  {
    var s := Reduced(op, actions);
    OperatorKept(op, actions);
    OwnerTold(op, actions, op);
    ChannelsTold(op, actions);
    ArmedTold(op, actions);
    if s.lastTelemetryAt.Some? {
      TelemetryTold(op, actions, s.lastTelemetryAt.value);
    }
    if exists t :: now - t <= TELEMETRY_STALE_MS && Since(actions, TelemetryAt(t), Telemetry) {
      var t :| now - t <= TELEMETRY_STALE_MS && Since(actions, TelemetryAt(t), Telemetry);
      TelemetryTold(op, actions, t);
    }
  }

  /** With no new actions, once the controls are locked they stay locked. */
  lemma {:induction false} LockedStaysLocked(s: UIState, now: Time, later: Time)
    requires now <= later && SelectMotionLocked(s, now)
    ensures SelectMotionLocked(s, later)
  {
  }
}
