/** The operator's screen inside the whole system: what unlocked motion controls say about the server. */
module ScreenSafety {
  import opened Protocol
  import opened History
  import opened Delivery
  import opened TeleopSystem
  import opened Reports
  import opened OperatorUi

  /** How the screen reads a message of the signaling server. */
  function Shown(m: ServerMessage): Inbound {
    match m
    case Joined(id, state, owner) => SessionJoined(id, state, owner)
    case Ownership(owner, state) => TeleopOwnership(owner, state)
    case _ => OtherInbound
  }

  predicate SentAt(y: System, report: Inbound, p: ParticipantId, k: int) {
    p in y.boxes && 0 <= k < |y.boxes[p]| && Shown(y.boxes[p][k]) == report
  }

  /** The server has put this report into some inbox. */
  ghost predicate Sent(y: System, report: Inbound) {
    exists p, k :: SentAt(y, report, p, k)
  }

  /** Every report that the screen has taken comes from the server: inboxes other than the follower's
      are only ever appended to, so they hold all that was sent. What comes over the data channel, and
      when, is free. */
  ghost predicate FromServer(y: System, actions: seq<Action>) {
    forall i | 0 <= i < |actions| && ReportsOwner(actions[i]) :: Sent(y, actions[i].message)
  }

  /** Such a report is coarse and names an operator whom the server had granted the session. */
  lemma {:induction false} ReportsAreTrue(y: System, a: Action)
    requires TruthfulBoxes(y) && ReportsOwner(a) && Sent(y, a.message)
    ensures CoarseSignal(a) && KnownOwner(y.record.log, a.message.owner)
  {
    var p, k :| SentAt(y, a.message, p, k);
    assert Truthful(y.record.log, y.boxes[p][k]);
  }

  /** In every run of the system, motion is unlocked on the screen of an operator exactly when the last
      owner reported is this operator, channels are open, the last status is armed or clutched and
      telemetry is fresh; and then the server had indeed granted the session to this operator. */
  lemma {:induction false} UnlockedIff(
    cfg: SystemConfig, tr: seq<Moment>, op: OperatorId, actions: seq<Action>, now: Time)
    requires FromServer(Ran(cfg, tr), actions)
    ensures !SelectMotionLocked(Reduced(op, actions), now) <==>
            && Since(actions, ReportsOwnerAs(op), ReportsOwner)
            && Since(actions, OpensChannels, EndsChannels)
            && Since(actions, ReportsArmed, EndsStatus)
            && exists t :: now - t <= TELEMETRY_STALE_MS && Since(actions, TelemetryAt(t), Telemetry)
    ensures !SelectMotionLocked(Reduced(op, actions), now) ==> EverGranted(Ran(cfg, tr).record.log, op)
  {
    AlwaysSafe(cfg, tr);
    forall i | 0 <= i < |actions| ensures CoarseSignal(actions[i]) {
      if ReportsOwner(actions[i]) {
        ReportsAreTrue(Ran(cfg, tr), actions[i]);
      }
    }
    MotionUnlockedIff(op, actions, now);
    if Since(actions, ReportsOwnerAs(op), ReportsOwner) {
      var i :| SinceAt(actions, ReportsOwnerAs(op), ReportsOwner, i);
      ReportsAreTrue(Ran(cfg, tr), actions[i]);
    }
  }

  // ------------------------------------------------- a screen that has read its inbox

  predicate IsReport(m: ServerMessage) {
    m.Joined? || m.Ownership?
  }

  /** The reports among these messages, as the screen reads them. */
  function ReportsIn(ms: seq<ServerMessage>): seq<Inbound> {
    if ms == [] then []
    else ReportsIn(ms[..|ms| - 1]) + if IsReport(ms[|ms| - 1]) then [Shown(ms[|ms| - 1])] else []
  }

  /** The reports that the screen has taken. */
  function ReportsTaken(actions: seq<Action>): seq<Inbound> {
    if actions == [] then []
    else
      ReportsTaken(actions[..|actions| - 1]) +
      if ReportsOwner(actions[|actions| - 1]) then [actions[|actions| - 1].message] else []
  }

  function AsReport(m: Inbound): Option<Report> {
    match m
    case SessionJoined(_, state, owner) => Some(Report(state, owner))
    case TeleopOwnership(owner, state) => Some(Report(state, owner))
    case _ => None
  }

  lemma {:induction false} LastOfInbox(ms: seq<ServerMessage>)
    ensures LastReport(None, ms) ==
            if ReportsIn(ms) == [] then None else AsReport(ReportsIn(ms)[|ReportsIn(ms)| - 1])
  {
    if ms == [] {
    } else {
      LastOfInbox(ms[..|ms| - 1]);
    }
  }

  lemma {:induction false} LastOfScreen(op: OperatorId, actions: seq<Action>)
    requires forall i | 0 <= i < |actions| :: !actions[i].WsClosed?
    ensures var s, taken := Reduced(op, actions), ReportsTaken(actions);
            taken != [] ==> AsReport(taken[|taken| - 1]) == Some(Report(s.signalingState, s.owner))
  {
    if actions == [] {
    } else {
      LastOfScreen(op, actions[..|actions| - 1]);
    }
  }

  /** A screen that has taken the reports sent to its connection p, in order and to the last one, shows the
      session as it is at the server, whatever else has arrived in between. */
  lemma {:induction false} ScreenShowsSession(
    cfg: SystemConfig, tr: seq<Moment>, p: ParticipantId, op: OperatorId, actions: seq<Action>)
    requires p in Ran(cfg, tr).record.session.participants && p !in Ran(cfg, tr).own && p in Ran(cfg, tr).boxes
    requires ReportsTaken(actions) == ReportsIn(Ran(cfg, tr).boxes[p])
    requires forall i | 0 <= i < |actions| :: !actions[i].WsClosed?
    ensures var y, s := Ran(cfg, tr), Reduced(op, actions);
            s.signalingState == y.record.session.teleopState && s.owner == y.record.session.owner
  {
    ReportConvergence(cfg, tr);
    LastOfInbox(Ran(cfg, tr).boxes[p]);
    LastOfScreen(op, actions);
  }
}
