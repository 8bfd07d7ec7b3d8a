# Teleoperation safety protocol

A Dafny model of the protocol that lets a remote operator drive a robot arm, with proofs about
every run of it. The parts are:

- the **follower gateway**: a command handler, a session state machine, a sequence tracker and a
  watchdog, fed by data channels, by the signaling server and by polls (`CommandHandler`,
  `StateMachine`, `Validation`, `Watchdog`, `FollowerGateway`);
- the **arm**, which folds the published commands into a gate that decides whether it moves, and
  the gateway's local mirror of that fold (`Arm`, `RosBackend`);
- the **signaling server**: participants, single-operator ownership, e-stop flag, release timer,
  and what it sends to whom (`SessionManager`, `Signaling`);
- the **leader publisher**, whose numbered packets travel over a channel that loses, reorders and
  duplicates (`LeaderStream`);
- the **operator's screen** (`OperatorUi`, `ScreenSafety`).

Each object that the program updates in place is a class; each method is proved equal to a step
function on values, and whole runs of those step functions are what the theorems are about.
`GatewayRun` runs gateway and arm together and logs every step; `ServerHistory` does so for the
session; `TeleopSystem` puts everything together, with FIFO inboxes between server and clients,
arbitrary other clients, arbitrary data-channel messages, reconnects and disconnects.
Its theorems are in `SystemSafety` (motion and ownership), `EmergencyStop`, `Negotiation` and `Reports`.
`History.Since(log, starts, ends)` says that some entry started a condition and no later one ended it.

Main results, from the outside in:

1. `SystemSafety.SystemFailSafe`: if the watchdog is polled at least every `gap`, an arm that lags at
   most `delay` behind has an open gate only if an operator to whom the server had granted the
   session was heard within packet timeout + `gap` + `delay`. Nothing is assumed of server, clients or channels.
2. `SystemSafety.NoMotionWithoutGrant`, `SystemSafety.MotionsOfTwoOperators`: no pose or grip without an earlier
   grant; a change of operator needs a change of owner and then a new enable.
3. `TeleopSystem.OwnershipConvergence`, `SystemSafety.FollowerOwnerIff`: the follower's inbox always folds to the
   server's owner; once it is read, the follower's owner is the operator whose grant still stands.
4. `GatewaySafety.GateOpenIff`, `GatewayStates.StateIff`, `GatewaySafety.ArmedIff`, `GatewaySafety.StoppedIff`,
   `ServerHistory.OwnedIff`, `ServerHistory.ReportIff`, `ServerHistory.TimerIff`, `ServerHistory.AbandonedIff`,
   `Watchdog.CallbackIff`, `Arm.FoldIff`, `OperatorUi.MotionUnlockedIff`, `OperatorUi.ControlsUnlockedIff`: what each state
   means, as an if-and-only-if over the history.
5. `LeaderStream.EndToEndOrder`, `LeaderStream.PoseIsSample`, `LeaderStream.DeliveredIff`: between tracker resets the
   arm drives a subsequence of the sampled poses, whoever else sends packets; and exactly when a packet is taken.
6. The emergency stop. `EmergencyStop.StopReachesFollower`: over a living connection the stop that was sent is taken by
   exactly the reading that follows those of the messages before it, whatever else happens in between, other stops and
   resets included, and from there it holds (`GatewaySafety.EstopLatch`). `EmergencyStop.StopAwaitsFollower`: it also
   waits for a follower that is away or reconnects. `EmergencyStop.StopConvergence`: unless a stop or reset moves one end
   only, the inbox folds to the server's flag. `EmergencyStop.StoppedArmHolds`: how long a lagging arm can stay open
   under a stopped follower. `EmergencyStop.StopEndsIff`: exactly what ends a stop.
7. Negotiation. `Negotiation.AnswersConserved`, `Negotiation.OfferAnswered`, `Negotiation.AnswerDelivered`,
   `Negotiation.NegotiationPairing`: each offer gets one answer, in order; over a living connection of the follower it
   goes to the connection that made the offer, or to nobody if that has left; answers that the follower hands to a
   connection that the server has dropped are lost.
8. `ServerHistory.HandoverExclusion`, `ServerHistory.OrphanBound`; `SystemSafety.FormerOperatorHolds`: how long a former
   operator's arm can stay open.
9. `Reports.ReportConvergence`, `Reports.ReadyIsTold`: what everybody is told about the session is what it is.
10. `ScreenSafety.UnlockedIff`, `ScreenSafety.ScreenShowsSession`: what unlocked motion on an operator's screen says,
   and what the screen shows, in every run of the system.

Automatic induction is switched off in every lemma: inductive proofs call themselves.

Time is real-valued. The gateway's two clocks (monotonic and wall) are separate; only the replay
window assumes that the wall clock does not run backwards. The packet timeout is taken to be
nonnegative.

Where the code and its own documentation disagree the model follows the code:

- ESTOPPED is not left by an explicit reset only (as docs/protocol/messages.md and the state machine's own comment say):
  taking a welcome from a server whose flag is down ends it too, and a stop over a data channel never raises that flag:
  `EmergencyStop.ReconnectLosesStop` is the failing run, `EmergencyStop.StopEndsIff` and
  `EmergencyStop.RejoinStoppedIff` the exact condition;
- a stop that the follower learns of by joining a stopped session publishes nothing, so an open gate stays open until the
  watchdog freezes: `EmergencyStop.RejoinLeavesGateOpen`, `GatewaySafety.ReportedStopLeavesGate`, `EmergencyStop.StoppedArmHolds`;
- poses are accepted and published while CLUTCHED, marked as clutched, and feed the watchdog
  (docs/protocol/messages.md says they are not acted on): `CommandHandler.PoseIffArmed`;
- `home` is refused while armed (the same document says that it requires being armed), `disable` also works when FROZEN,
  an e-stop of another protocol version is refused, and that refusal carries no sequence number:
  `CommandHandler.EffectIffPermitted`, `CommandHandler.ErrorCodes`;
- the timestamp behind the reported packet age is that of the last packet received, not of the last
  accepted one: `GatewayHistory.LastStampIff`;
- a stop message that both engages and resets stops the follower but clears the server, and one of
  another version moves only the server: `EmergencyStop.StopAgreementIff`;
- a packet can be injected twice if a disable and an enable lie between, exactly within its age limit:
  `LeaderStream.ReplayAcrossDisable`;
- an owner without a connection can stay for ever if somebody else claimed in their name, exactly until they join or the
  session is given back in their name: `ServerHistory.AbandonedIff`, `ServerHistory.AbsentOwnerStays`.

## Model

| member | source | states |
|---|---|---|
| Validation.SequenceTracker.Accept | shared/protocol/teleop_protocol/validation.py:27-35 | accepts exactly the numbers above the last accepted one; a rejected number leaves the tracker as it was |
| Validation.SequenceTracker.Reset | shared/protocol/teleop_protocol/validation.py:37-38 | forgets the last number |
| StateMachine.TeleopStateMachine.constructor | services/follower-gateway/follower_gateway/state_machine.py:46-48 | starts disconnected and unowned |
| StateMachine.TeleopStateMachine.OnPeerConnected | services/follower-gateway/follower_gateway/state_machine.py:58-60 | only a disconnected machine becomes connected |
| StateMachine.TeleopStateMachine.OnOwnership | services/follower-gateway/follower_gateway/state_machine.py:75-94 | the owner is taken at once; the state drops to READY or CLAIMED only if the owner changed and no stop is engaged |
| StateMachine.TeleopStateMachine.OnEnable | services/follower-gateway/follower_gateway/state_machine.py:96-100 | arms from CLAIMED only |
| StateMachine.TeleopStateMachine.OnDisable | services/follower-gateway/follower_gateway/state_machine.py:102-106 | returns to CLAIMED from ARMED, CLUTCHED or FROZEN only |
| StateMachine.TeleopStateMachine.OnClutch | services/follower-gateway/follower_gateway/state_machine.py:108-117 | toggles between ARMED and CLUTCHED, refusing anything else |
| StateMachine.TeleopStateMachine.OnFreeze | services/follower-gateway/follower_gateway/state_machine.py:119-121 | freezes an armed or clutched session and no other |
| StateMachine.TeleopStateMachine.OnEstop | services/follower-gateway/follower_gateway/state_machine.py:129-134 | engaging stops from any state and wins over reset; a reset leaves ESTOPPED for CLAIMED or READY according to the owner |
| Watchdog.WatchdogTimer.Feed | shared/gateway_common/teleop_gateway_common/watchdog.py:27-29 | restarts the clock and clears a trip |
| Watchdog.WatchdogTimer.Disarm | shared/gateway_common/teleop_gateway_common/watchdog.py:31-34 | stops the clock and clears a trip |
| Watchdog.WatchdogTimer.Check | shared/gateway_common/teleop_gateway_common/watchdog.py:46-52 | trips when the last feed is longer ago than the timeout, and stays tripped |
| Watchdog.WatchdogTimer.Poll | shared/gateway_common/teleop_gateway_common/watchdog.py:57-63 | calls back exactly when the check trips a watchdog that was not tripped |
| Watchdog.CallbackIff | shared/gateway_common/teleop_gateway_common/watchdog.py:13-63 | over any interleaving: a poll calls back iff the last feed, not disarmed since, is overdue and no earlier poll has called back for it |
| Watchdog.FeedBetweenCallbacks | shared/gateway_common/teleop_gateway_common/watchdog.py:13-63 | between two callbacks there is a feed |
| Watchdog.CallbacksWithinFeeds | shared/gateway_common/teleop_gateway_common/watchdog.py:13-63 | callbacks never outnumber feeds |
| Arm.FollowerNode.constructor | follower.py:57-60 | the arm starts disabled, unclutched and idle |
| Arm.FollowerNode.RemoteCommandCallback | follower.py:92-121 | folds each command into the gate and writes the pose, cut to the six joints, exactly when the resulting gate is open and there is a pose; a node without an arm ignores everything |
| Arm.Targets | follower.py:117-120 | a driven pose is the longest prefix of the joints that the six joint names allow |
| Arm.OnlyTrackingMoves | follower.py:103-111 | the gate is open in exactly one state: enabled, unclutched and tracking |
| Arm.FoldIff | follower.py:92-108 | each flag is what the last command naming it says, a null switching off; the mode is the last one that is not null; before that disabled, unclutched and idle |
| RosBackend.FollowerRos.PublishInjectedCommand | services/follower-gateway/follower_gateway/ros_backend.py:133-141 | the key loop takes the non-null flags, mode and grip of the command, the command is appended to the topic, and the mirror stays the fold of the topic |
| RosBackend.MirrorsExactlyDefinite | services/follower-gateway/follower_gateway/ros_backend.py:134-137 | mirror and arm take a command alike from every state iff neither flag in it is null |
| GatewayHistory.MirrorIsGate | services/follower-gateway/follower_gateway/ros_backend.py:133-141 | the mirror folded from what a gateway run has published is the arm's gate |
| RosBackend.MirrorAgreement | services/follower-gateway/follower_gateway/ros_backend.py:18-20 | for every interleaving of publishing and delivery the mirror is the arm's state after everything in flight |
| GatewayHistory.GatewayMirror | services/follower-gateway/follower_gateway/ros_backend.py:133-141 | the same for any commands the gateway publishes, none of which has a null flag |
| CommandHandler.Handler.ValidateOwner | services/follower-gateway/follower_gateway/command_handler.py:77-94 | an engaged stop is reported before a wrong owner |
| CommandHandler.Handler.HandleMessage | services/follower-gateway/follower_gateway/command_handler.py:59-115 | version first, then e-stop without ownership, then the owner's commands; state, tracker, published command and reply are those of the step function, and the mirror is the fold of all that was published |
| CommandHandler.Handler.HandleOwned | services/follower-gateway/follower_gateway/command_handler.py:117-243 | the same for enable, disable, clutch, home, gripper and leader packets |
| CommandHandler.EffectIffPermitted | services/follower-gateway/follower_gateway/command_handler.py:59-243 | a message has an effect iff the protocol permits it in this state; any other changes and publishes nothing and is refused |
| CommandHandler.ErrorCodes | services/follower-gateway/follower_gateway/command_handler.py:59-230 | each error answers exactly the messages that fail at its check and pass those before it; no other error occurs, and only a version mismatch leaves the number out |
| CommandHandler.AckTypes | services/follower-gateway/follower_gateway/command_handler.py:98-199 | each kind of acknowledgement answers exactly the accepted messages of its kind |
| CommandHandler.CommandKeys | services/follower-gateway/follower_gateway/command_handler.py:98-243 | which keys the published command has, by the kind of message, and what a stop message says of the session |
| CommandHandler.PoseIffArmed | services/follower-gateway/follower_gateway/command_handler.py:201-243 | a pose is published iff owner, version, age and sequence are right and the session is armed or clutched, and it is marked clutched accordingly |
| GatewayHistory.ArmEffects | services/follower-gateway/follower_gateway/command_handler.py:98-243 | what each permitted message does to the arm's gate, whatever state the gate is in |
| FollowerGateway.GatewayService.constructor | services/follower-gateway/follower_gateway/main.py:42-55 | the gateway's parts share one state machine and one ROS backend |
| FollowerGateway.GatewayService.Broadcast | services/follower-gateway/follower_gateway/main.py:162-164 | every peer gets the reply exactly once |
| FollowerGateway.GatewayService.OnSignalingMessage | services/follower-gateway/follower_gateway/main.py:71-96 | joining overwrites state and owner, ownership and stops are folded in, offers answered, replies broadcast |
| FollowerGateway.GatewayService.HandleOffer | services/follower-gateway/follower_gateway/main.py:98-127 | the sender becomes a peer and one answer goes back to it; an offer without sender is dropped |
| FollowerGateway.GatewayService.OnRelayedStop | services/follower-gateway/follower_gateway/main.py:84-88 | a relayed stop is handled and answered like a peer's, and does not touch the watchdog |
| FollowerGateway.GatewayService.FollowCommand | services/follower-gateway/follower_gateway/main.py:146-157 | which handled messages feed the watchdog and which disarm it |
| FollowerGateway.GatewayService.OnPeerMessage | services/follower-gateway/follower_gateway/main.py:140-160 | handler, watchdog and broadcast together: which acceptances feed and which disarm |
| FollowerGateway.GatewayService.PollWatchdog | services/follower-gateway/follower_gateway/main.py:168-171 | a trip freezes the machine and publishes the freeze, once |
| GatewaySafety.Simulation | services/follower-gateway/follower_gateway/main.py:140-171 | in every reachable state ARMED means the arm tracks, CLUTCHED that it holds, FROZEN that it is disabled, and an armed session has an owner and an untripped watchdog |
| GatewaySafety.ArmedIff | services/follower-gateway/follower_gateway/state_machine.py:10-15 | armed iff an enable was accepted and since then no owner change, accepted disable, engaged stop, trip or rejoin |
| GatewaySafety.ArmedByOwner | services/follower-gateway/follower_gateway/command_handler.py:117-131 | the arming enable came from the present owner |
| GatewaySafety.StoppedIff | services/follower-gateway/follower_gateway/state_machine.py:129-134 | stopped iff a stop was engaged, or reported on joining, with no reset or rejoin since |
| GatewayStates.StateIff | services/follower-gateway/follower_gateway/state_machine.py:58-134 | the session is in a state iff that is the state brought about last: what brings about each of the states, event by event |
| GatewayStates.FrozenIff | services/follower-gateway/follower_gateway/main.py:168-171 | frozen iff a trip found the session armed (or a join reported it) and since then no accepted disable, owner change, engaged stop or rejoin |
| GatewayStates.FreezeHolds | services/follower-gateway/follower_gateway/state_machine.py:96-121 | while frozen no enable, clutch release or pose is accepted |
| GatewayStates.TripCommand | services/follower-gateway/follower_gateway/main.py:168-171 | a trip tells the arm to hold as frozen and to disable, and nothing else, and answers nobody |
| GatewaySafety.GateOpenIff | follower.py:103-111 | the gate is open iff an enable or clutch release was accepted and since then no disable, homing, freeze, engaged clutch or stop message that leaves ARMED behind; nothing the server reports matters |
| GatewaySafety.ReportedStopLeavesGate | services/follower-gateway/follower_gateway/main.py:74-78 | joining a stopped session stops the follower without touching the gate, a stop message closes it |
| GatewaySafety.EstopLatch | services/follower-gateway/follower_gateway/command_handler.py:98-115 | after an engaged stop, until a reset or rejoin, the gate stays closed and nothing published carries a pose, a grip, homing or enabling |
| GatewaySafety.FailSafe | services/follower-gateway/follower_gateway/main.py:140-171 | an open gate means a running watchdog and an accepted pose, enable or clutch release within packet timeout plus one poll gap |
| GatewaySafety.CoherentStep | services/follower-gateway/follower_gateway/state_machine.py:75-134 | every step keeps owner and state in agreement after joining |
| GatewayHistory.DelayedFailSafe | services/follower-gateway/follower_gateway/main.py:140-171 | the fail-safe for an arm that receives commands late, with the delay added to the bound |
| GatewayHistory.StopClosesGate | services/follower-gateway/follower_gateway/main.py:74-88 | how long the gate of a lagging arm outlives a stop: the delay if it came as a message, the fail-safe's bound if it was learnt on joining |
| GatewayHistory.EndOfArmingClosesGate | services/follower-gateway/follower_gateway/main.py:74-82 | after anything that ends arming, and until a new enable, a lagging arm is open no longer than packet timeout, gap and delay |
| GatewayHistory.StoppedSteps | services/follower-gateway/follower_gateway/command_handler.py:77-115 | from a stop on, told or learnt on joining, every step up to the one that ends it finds the session stopped and publishes nothing that could move the arm |
| GatewayHistory.MotionIsEnabled | services/follower-gateway/follower_gateway/command_handler.py:185-243 | behind every pose or grip stands an enable of the same operator with nothing since that ends arming |
| GatewayHistory.HandoverNeedsEnable | services/follower-gateway/follower_gateway/state_machine.py:75-100 | between the motions of two operators the server moved the owner and then the later operator enabled |
| GatewayHistory.PosesIncrease | shared/protocol/teleop_protocol/validation.py:17-38 | poses accepted without a reset between them are strictly increasing in number |
| GatewayHistory.ReplayWindow | services/follower-gateway/follower_gateway/command_handler.py:214-220 | no packet stamped before a step by more than the maximum age is injected after it |
| GatewayHistory.ReplayNeedsReset | services/follower-gateway/follower_gateway/command_handler.py:108-146 | a second injection of one packet needs a tracker reset in between and falls within its age limit |
| GatewayHistory.DrivenIff | follower.py:103-121 | the arm drives exactly the non-empty poses accepted while ARMED |
| GatewayHistory.FeedBetweenTrips | services/follower-gateway/follower_gateway/main.py:140-171 | between two watchdog freezes some feeding packet was accepted |
| GatewayHistory.DogIff | services/follower-gateway/follower_gateway/main.py:146-157 | the watchdog counts from the last feeding packet not followed by an accepted disable or engaged clutch, and is tripped iff it froze since |
| GatewayHistory.FreezeIff | services/follower-gateway/follower_gateway/main.py:168-171 | exactly which polls freeze the session, read off the history of packets |
| GatewayHistory.ConnectedIff | services/follower-gateway/follower_gateway/state_machine.py:58-60 | the state is disconnected until an offer is answered, a session joined or a stop engaged; ownership alone does not connect |
| GatewayHistory.LastStampIff | services/follower-gateway/follower_gateway/main.py:141-142 | the noted timestamp is that of the last leader packet that arrived, accepted or not |
| GatewayHistory.LastNumberIff | services/follower-gateway/follower_gateway/command_handler.py:245-247 | the acknowledged number is that of the last accepted pose unless it has been forgotten since |
| GatewayHistory.PeersIff | services/follower-gateway/follower_gateway/main.py:98-127 | replies go to exactly those participants whose offers were answered, each in the role of its last offer |
| GatewayHistory.ParticipantIdIff | services/follower-gateway/follower_gateway/main.py:74-76 | the gateway's own id is that of its last welcome |
| LeaderStream.LeaderStatePublisher.NextLeaderState | services/leader-gateway/leader_gateway/state_publisher.py:38-54 | the k-th packet carries number k and, field by field, the sample: its positions or none, the grip, the flags and its time |
| LeaderStream.EndToEndOrder | services/leader-gateway/leader_gateway/state_publisher.py:38-54 | whatever the channel loses, reorders or repeats and whoever else sends, between two resets the numbers driven increase and this operator's poses are, in order, the positions of a subsequence of the samples |
| LeaderStream.PoseIsSample | services/leader-gateway/leader_gateway/state_publisher.py:38-54 | every pose published in the operator's name has the positions of a recent sample, and its grip is closed iff that sample was closing |
| LeaderStream.DeliveredIff | services/follower-gateway/follower_gateway/command_handler.py:201-243 | exactly when the packet of a sample is taken as a pose on arrival, and when it moves the arm |
| LeaderStream.ReplayAcrossDisable | services/follower-gateway/follower_gateway/command_handler.py:133-148 | after disable and enable any packet of the owner is taken again iff it is within its age limit |
| SessionManager.Manager.GetOrCreate | services/signaling-server/app/session_manager.py:82-87 | finds or files one record per session name, never sharing one between names |
| SessionManager.Manager.RecomputeState | services/signaling-server/app/session_manager.py:160-171 | caches the state derived from stop flag, owner and presence |
| SessionManager.Manager.JoinSession | services/signaling-server/app/session_manager.py:91-116 | adds a participant under a new id; the owner's return cancels the release timer |
| SessionManager.Manager.LeaveSession | services/signaling-server/app/session_manager.py:118-126 | removes the participant; the departure of an owner's connection starts the release timer |
| SessionManager.Manager.ClaimSession | services/signaling-server/app/session_manager.py:130-138 | granted iff not stopped and unowned or already the claimant's |
| SessionManager.Manager.ReleaseSession | services/signaling-server/app/session_manager.py:140-146 | only in the owner's name |
| SessionManager.Manager.SetEstopFlag | services/signaling-server/app/session_manager.py:148-153 | reset wins over engage |
| SessionManager.Manager.ReleaseLater | services/signaling-server/app/session_manager.py:181-190 | releases the owner of the moment if no operator is connected under that name |
| Signaling.SignalingServer.SendEach | services/signaling-server/app/ws_handlers.py:37-44 | every addressee gets the message once, in its own outbox |
| Signaling.SignalingServer.BroadcastOwnership | services/signaling-server/app/ws_handlers.py:47-55 | every participant is told the present owner and state |
| Signaling.SignalingServer.Route | services/signaling-server/app/ws_handlers.py:139-150 | stamps the sender and forwards to the addressee or the role |
| Signaling.SignalingServer.HandleMessage | services/signaling-server/app/ws_handlers.py:58-136 | the effect of each client message on session and outboxes |
| Signaling.SignalingServer.Connect | services/signaling-server/app/main.py:110-131 | join, welcome, then ownership to all |
| Signaling.SignalingServer.Disconnect | services/signaling-server/app/main.py:144-147 | leave, then ownership to those who remain |
| Signaling.SignalingServer.ClaimOverHttp | services/signaling-server/app/main.py:56-68 | claims without a connection, refusing an empty id |
| Signaling.SignalingServer.ReleaseOverHttp | services/signaling-server/app/main.py:71-83 | releases without a connection, refusing an empty id |
| Signaling.SignalingServer.ReleaseTimer | services/signaling-server/app/session_manager.py:176-190 | a due timer releases an absent owner and announces it |
| Delivery.StepInforms | services/signaling-server/app/ws_handlers.py:47-102 | after any server step every participant's outbox folds to the present owner |
| Delivery.StepReports | services/signaling-server/app/main.py:110-147 | after any server step, arrivals and departures included, the last report in everybody's outbox shows the session's present state and owner |
| Delivery.StepGrows | services/signaling-server/app/ws_handlers.py:58-150 | every outbox keeps what it held and grows only at its end, only for participants, by true reports, the newcomer's welcome, the stop that was sent, and correctly stamped negotiation messages |
| Delivery.RoutingIff | services/signaling-server/app/ws_handlers.py:139-150 | exactly who receives a negotiation message, with the true sender on it |
| Delivery.MailOf | services/signaling-server/app/ws_handlers.py:58-150 | exactly what one client message adds to each participant's outbox, the sender's and the others', and which messages leave the session alone |
| Delivery.NoMailToTheGone | services/signaling-server/app/ws_handlers.py:37-44 | somebody who has left is sent nothing |
| Delivery.ClaimAnswered | services/signaling-server/app/ws_handlers.py:72-85 | the claimant is first told whether it was granted, which without a stop is whether it now owns the session |
| Delivery.WelcomeFirst | services/signaling-server/app/main.py:110-131 | a newcomer's inbox is its welcome and then the ownership report, both as the session now is |
| Delivery.StopRelayed | services/signaling-server/app/ws_handlers.py:98-102 | a stop reaches every participant unaltered, followed by a report that says whether the server is stopped |
| ServerHistory.CacheAlwaysFresh | services/signaling-server/app/session_manager.py:160-171 | the cached state always equals the derived one |
| ServerHistory.PresentIff | services/signaling-server/app/session_manager.py:91-126 | the server holds a connection, as it joined, iff it has joined and not left |
| ServerHistory.ReportIff | services/signaling-server/app/session_manager.py:160-171 | each reported state read off the history: ESTOPPED, CLAIMED, READY iff free with a follower and an operator present, CONNECTED iff free with somebody but not both, DISCONNECTED iff free and empty |
| ServerHistory.OwnedIff | services/signaling-server/app/session_manager.py:130-192 | an operator owns the session iff it was granted and neither given back nor lost to the timer since |
| ServerHistory.HandoverExclusion | services/signaling-server/app/session_manager.py:130-146 | between grants to two operators the first released or the timer went off while no connection had that name |
| ServerHistory.FlagIff | services/signaling-server/app/session_manager.py:148-153 | the stop flag is up iff a stop without reset was asked for and no reset since; while up no claim is granted |
| ServerHistory.TimerIff | services/signaling-server/app/session_manager.py:173-198 | a timer pending for d belongs to the present owner and was started by their departure at d minus the claim timeout, with nothing since that cancels it |
| ServerHistory.AbandonedIff | services/signaling-server/app/session_manager.py:108-138 | an owner has neither connection nor timer iff a claim was granted in their name while they were away and they have neither joined nor has it been given back since |
| ServerHistory.OrphanBound | services/signaling-server/app/session_manager.py:173-192 | in exactly the other case no owner outlives their last departure by more than claim timeout and jitter |
| ServerHistory.AbsentOwnerStays | services/signaling-server/app/session_manager.py:130-192 | after such a claim the session stays theirs, without timer, through every continuation without a joining or a giving back |
| ServerHistory.HttpClaimAbandons | services/signaling-server/app/main.py:56-68 | an HTTP claim of a free session for an operator who is not connected is such a claim |
| TeleopSystem.OwnershipConvergence | services/follower-gateway/follower_gateway/main.py:74-82 | in every reachable state the follower's pending messages fold to the server's owner |
| TeleopSystem.OwnersAgreeWhenRead | services/follower-gateway/follower_gateway/main.py:74-82 | an attached follower with an empty inbox has the server's owner |
| Reports.ReportConvergence | services/signaling-server/app/ws_handlers.py:47-55 | in every reachable state everybody's messages end with the session's present state and owner |
| Reports.ReadyIsTold | services/signaling-server/app/session_manager.py:160-171 | so everybody's last report says READY iff no stop and no grant stands and follower and operator are there, and names the operator whose grant stands |
| SystemSafety.OwnersAgreeAfterReading | services/follower-gateway/follower_gateway/main.py:74-82 | reading the pending messages gives the follower the server's owner |
| SystemSafety.FollowerOwnerIff | services/signaling-server/app/session_manager.py:130-192 | a follower that has read its inbox holds an operator for the owner iff the server granted and neither took back nor timed out |
| TeleopSystem.AlwaysSafe | services/signaling-server/app/session_manager.py:6-11 | every report in every inbox is coarse, coherent and names a granted owner, and the follower simulates the arm and is coherent |
| SystemSafety.FollowerRun | services/follower-gateway/follower_gateway/main.py:71-171 | in every system run the follower performs a gateway run whose join reports are coarse |
| SystemSafety.ServerRun | services/signaling-server/app/ws_handlers.py:58-150 | in every system run the session performs a session run |
| SystemSafety.NoMotionWithoutGrant | services/signaling-server/app/session_manager.py:130-138 | the sender of every published pose or grip had been granted the session before |
| SystemSafety.MotionsOfTwoOperators | services/follower-gateway/follower_gateway/state_machine.py:75-94 | motions of two operators are separated by an owner change and a fresh enable |
| SystemSafety.SystemFailSafe | services/follower-gateway/follower_gateway/main.py:140-171 | the timed fail-safe of the whole system, for a lagging arm, with a granted operator as witness |
| SystemSafety.FormerOperatorHolds | services/follower-gateway/follower_gateway/main.py:74-82 | the same in every run of the system: how long a former operator's arm stays open |
| SystemSafety.FollowerCoherence | services/follower-gateway/follower_gateway/state_machine.py:75-134 | a joined follower that is not stopped has no owner exactly when connected or ready, and an armed one was enabled by its owner |
| Negotiation.NegotiationPairing | services/follower-gateway/follower_gateway/main.py:98-127 | whatever the follower puts into an inbox answers an offer made by that very connection |
| Negotiation.OfferAnswered | services/follower-gateway/follower_gateway/main.py:98-127 | taking an offer queues exactly one answer, to its maker; taking anything else queues none |
| Negotiation.AnswerDelivered | services/signaling-server/app/ws_handlers.py:139-150 | an answer enters exactly its addressee's inbox, or none if that connection has left |
| Negotiation.AnswersConserved | services/follower-gateway/follower_gateway/main.py:98-127 | since the follower connected, the answers it made are, in order, those the server has taken, those lost because the server had dropped the connection, and those on their way; while the connection lives none is lost |
| EmergencyStop.StopAgreementIff | services/signaling-server/app/ws_handlers.py:98-102 | exactly which relayed stop messages keep server and follower in agreement |
| EmergencyStop.StopUnderway | services/signaling-server/app/ws_handlers.py:98-102 | while the follower does not reconnect, the very stop that a client sent is in its inbox at exactly the place the number of readings says, or was taken by the reading that followed those of the messages before it |
| EmergencyStop.StopReachesFollower | services/follower-gateway/follower_gateway/main.py:84-88 | the reading after those that were pending takes the very stop that was sent, and from that step until a reset or rejoin the follower is stopped, the gate closed and every step quiet |
| EmergencyStop.StopConvergence | services/signaling-server/app/ws_handlers.py:98-102 | unless a stop or reset moves one end only (named cases: over a data channel, another version, or both things at once), the pending messages fold to the server's flag in every reachable state |
| EmergencyStop.StoppedWhenRead | services/follower-gateway/follower_gateway/main.py:74-88 | then a follower that has read its inbox is stopped iff a client's stop has not been followed by a reset |
| EmergencyStop.StopAwaitsFollower | services/signaling-server/app/main.py:110-131 | a stop sent while the follower is away or reconnects is not lost: while nobody resets, any attached follower is stopped or will be once it has read |
| EmergencyStop.StoppedOnceRead | services/follower-gateway/follower_gateway/main.py:74-88 | and one with an empty inbox is stopped |
| EmergencyStop.StoppedArmHolds | services/follower-gateway/follower_gateway/main.py:74-88 | an open gate under a stopped follower means a recent stop: within the delay, or within the fail-safe's bound if it was learnt on joining |
| EmergencyStop.RejoinStoppedIff | services/follower-gateway/follower_gateway/main.py:74-78 | after a welcome the follower is stopped iff the server's flag was up when that connection joined |
| EmergencyStop.StopEndsIff | services/follower-gateway/follower_gateway/state_machine.py:129-134 | a stop ends by a reset or by a welcome from a connection that joined with the flag down, and by nothing else |
| EmergencyStop.ReconnectLosesStop | services/follower-gateway/follower_gateway/main.py:74-78 | the run in which a stop over a data channel is ended by reconnecting |
| EmergencyStop.RejoinLeavesGateOpen | services/follower-gateway/follower_gateway/main.py:74-78 | from any reachable state with the server stopped and the gate open, reconnecting stops the follower and leaves the gate open |
| OperatorUi.MotionUnlockedIff | apps/operator-ui/src/state/sessionMachine.ts:64-207 | motion is unlocked iff the last owner reported is this operator, channels are open, the last status since the socket was lost is armed or clutched, and telemetry is fresh |
| OperatorUi.ControlsUnlockedIff | apps/operator-ui/src/state/sessionMachine.ts:190-201 | the other controls are unlocked iff owner and channels are as for motion, no stop is shown and the last telemetry, if any, is fresh |
| OperatorUi.StateShown | apps/operator-ui/src/state/sessionMachine.ts:64-153 | the state shown is the last status since the socket was lost, and without one the last report from the server since then |
| OperatorUi.CanClaimIff | apps/operator-ui/src/state/sessionMachine.ts:177-183 | claiming is offered iff somebody else or nobody is the last owner reported and READY or CLAIMED is shown |
| ScreenSafety.UnlockedIff | apps/operator-ui/src/state/sessionMachine.ts:64-207 | the same in every run of the system, where what the server reports is coarse, and unlocked motion means that the server had granted the session to this operator |
| ScreenSafety.ScreenShowsSession | apps/operator-ui/src/state/sessionMachine.ts:97-117 | a screen that has taken all reports sent to its connection has the server's present state and owner |
| OperatorUi.LockedStaysLocked | apps/operator-ui/src/state/sessionMachine.ts:172-207 | without new actions locked controls stay locked as time passes |

## Left out

- Concurrency inside a handler: a handler with its sends is one step; a broadcast that is interrupted between two sends, by a cancelled release task or a slow socket, is not modelled.
- FollowerGateway.GatewayService.HandleOffer: setting the description and creating the answer suspend in the code; here the offer is answered in one step, and a description that the transport rejects is not modelled.
- RosBackend.MirrorAgreement: assumes a lossless, ordered command topic and a connected arm; an overflow of the topic's queue is not modelled.
- GatewayHistory.DelayedFailSafe: makes the same assumption, with a bound on how late a command arrives.
- Failing sends, reconnect backoff, sockets, WebRTC transport, SDP and ICE contents: an answer is an unspecified description made for its offer; ICE candidates are routed but change nothing at the follower.
- JSON parsing, schema validation, tokens, unknown session names and the session snapshots of the HTTP endpoints: messages arrive typed and the session exists.
- Participant ids come from a counter instead of random hex digits, so they are new by construction.
- Participant counts, display names, connection times and heartbeats of the server: nothing decides on them.
- Telemetry messages, packet age in milliseconds, robot modes by state and video tracks of the follower.
- The arm's ungated local joint topic, the conversion from radians to degrees and the joint names: a driven pose is the list of its first six values.
- The mock ROS backend, which unlike the real one and the arm stores a null mode.
- State-machine methods that no gateway step calls: peer loss, health changes and unfreezing.
- The command sequence tracker of the handler, which the code creates but never consults.
- The screen's acknowledgements, errors and claim results, the wording of its badges, and its release button, which is offered to the owner.
- A message of a type without a handler is a single case: it is ignored when the version matches and refused otherwise.
