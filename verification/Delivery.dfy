/** What one server step appends to which outbox, and what a receiver learns about the owner. */
module Delivery {
  import opened Protocol
  import opened SessionManager
  import opened Signaling

  function OwnerAfter(owner: Option<OperatorId>, m: ServerMessage): Option<OperatorId> {
    match m
    case Joined(_, _, o) => o
    case Ownership(o, _) => o
    case _ => owner
  }

  /** Whether a follower is stopped once it has taken this message. */
  function StopAfter(stopped: bool, m: ServerMessage): bool {
    match m
    case Joined(_, state, _) => state.Estopped?
    case EstopRelay(msg) =>
      if msg.version != PROTOCOL_VERSION then stopped
      else msg.body.engaged || (stopped && !msg.body.reset)
    case _ => stopped
  }

  /** What a receiver makes of its pending messages, taking one after the other. */
  function Folded<A>(take: (A, ServerMessage) -> A, a: A, ms: seq<ServerMessage>): A {
    if ms == [] then a else take(Folded(take, a, ms[..|ms| - 1]), ms[|ms| - 1])
  }

  /** The owner that a follower will believe in once it has taken all pending messages. */
  function Pending(owner: Option<OperatorId>, ms: seq<ServerMessage>): Option<OperatorId> {
    Folded(OwnerAfter, owner, ms)
  }

  /** Whether it will then be stopped. */
  function PendingStop(stopped: bool, ms: seq<ServerMessage>): bool {
    Folded(StopAfter, stopped, ms)
  }

  /** Taking the first message does not change what remains to be learnt. */
  lemma {:induction false} FoldedFirst<A>(take: (A, ServerMessage) -> A, a: A, ms: seq<ServerMessage>)
    requires ms != []
    ensures Folded(take, a, ms) == Folded(take, take(a, ms[0]), ms[1..])
  {
    var n := |ms| - 1;
    if n == 0 {
      assert ms[..n] == [] && ms[1..] == [];
    } else {
      FoldedFirst(take, a, ms[..n]);
      assert ms[..n][1..] == ms[1..][..n - 1];
    }
  }

  // ------------------------------------------------- ownership reaches every participant

  /** Every participant can be sent to, and the id counter is ahead of every id in use. */
  predicate Wired(srv: Server) {
    && srv.session.participants.Keys <= srv.boxes.Keys
    && forall p | p in srv.boxes :: p < srv.session.nextId
  }

  lemma {:induction false} WiredStep(timeout: Time, srv: Server, now: Time, e: ServerEvent)
    requires Wired(srv)
    ensures Wired(ServerStep(timeout, srv, now, e))
  {
  }

  /** What p will learn, starting from owner o, is the server's present owner. */
  predicate Informed(srv: Server, p: ParticipantId, o: Option<OperatorId>) {
    p in srv.boxes && Pending(o, srv.boxes[p]) == srv.session.owner
  }

  lemma {:induction false} AnnouncedInforms(session: Session, boxes: Outboxes, p: ParticipantId, o: Option<OperatorId>)
    requires p in session.participants && p in boxes
    ensures Informed(Announced(session, boxes), p, o)
  {
  }

  lemma {:induction false} HandledInforms(
    srv: Server, id: ParticipantId, m: ClientMessage, p: ParticipantId, o: Option<OperatorId>)
    requires Wired(srv) && id in srv.session.participants && p in srv.session.participants && Informed(srv, p, o)
    ensures Informed(Handled(srv, id, m), p, o)
  {
  }

  lemma {:induction false} HandledKeepsParticipants(srv: Server, id: ParticipantId, m: ClientMessage)
    requires id in srv.session.participants
    ensures Handled(srv, id, m).session.participants == srv.session.participants
  {
  }

  /** Whatever the server does, a participant's outbox ends with its present owner; a participant
      that has just joined needs no previous knowledge. */
  lemma {:induction false} StepInforms(
    timeout: Time, srv: Server, now: Time, e: ServerEvent, p: ParticipantId, o: Option<OperatorId>)
    requires Wired(srv) && p in ServerStep(timeout, srv, now, e).session.participants
    requires p in srv.session.participants ==> Informed(srv, p, o)
    ensures Informed(ServerStep(timeout, srv, now, e), p, o)
  {
    var s := srv.session;
    match e
    case Joins(who) =>
      var s' := Join(s, who);
      AnnouncedInforms(s', srv.boxes[s.nextId := [Joined(s.nextId, s'.teleopState, s'.owner)]], p, o);
    case Leaves(id) =>
      if id in s.participants {
        AnnouncedInforms(Leave(s, id, s.participants[id], now + timeout), srv.boxes, p, o);
      }
    case Sends(id, m) =>
      if id in s.participants {
        HandledKeepsParticipants(srv, id, m);
        HandledInforms(srv, id, m, p, o);
      }
    case HttpClaim(op) =>
      if op != "" && MayClaim(s, op) {
        AnnouncedInforms(Claim(s, op), srv.boxes, p, o);
      }
    case HttpRelease(op) =>
      if op != "" && s.owner == Some(op) {
        AnnouncedInforms(Release(s, op), srv.boxes, p, o);
      }
    case TimerFires =>
      if s.releaseAt.Some? && s.releaseAt.value <= now && TimerReleases(s) {
        AnnouncedInforms(TimerFired(s), srv.boxes, p, o);
      }
  }

  // ------------------------------------------------- so does the reported state

  datatype Report = Report(state: SessionState, owner: Option<OperatorId>)

  /** The last report that a receiver has seen once it has taken this message. */
  function ReportAfter(last: Option<Report>, m: ServerMessage): Option<Report> {
    match m
    case Joined(_, state, owner) => Some(Report(state, owner))
    case Ownership(owner, state) => Some(Report(state, owner))
    case _ => last
  }

  function LastReport(last: Option<Report>, ms: seq<ServerMessage>): Option<Report> {
    Folded(ReportAfter, last, ms)
  }

  /** The last report that p has or will have seen shows the session as it is. */
  predicate UpToDate(srv: Server, p: ParticipantId, last: Option<Report>) {
    p in srv.boxes && LastReport(last, srv.boxes[p]) == Some(Report(srv.session.teleopState, srv.session.owner))
  }

  lemma {:induction false} AnnouncedReports(session: Session, boxes: Outboxes, p: ParticipantId, last: Option<Report>)
    requires p in session.participants && p in boxes
    ensures UpToDate(Announced(session, boxes), p, last)
  {
  }

  lemma {:induction false} HandledReports(
    srv: Server, id: ParticipantId, m: ClientMessage, p: ParticipantId, last: Option<Report>)
    requires Wired(srv) && id in srv.session.participants && p in srv.session.participants && UpToDate(srv, p, last)
    ensures UpToDate(Handled(srv, id, m), p, last)
  {
  }

  /** Whatever happens at the server, including that somebody else arrives, departs or is timed out,
      everybody who is there afterwards has the session's present state and owner as the last report in
      their outbox; somebody who has just joined needs no previous report. */
  lemma {:induction false} StepReports(
    timeout: Time, srv: Server, now: Time, e: ServerEvent, p: ParticipantId, last: Option<Report>)
    requires Wired(srv) && p in ServerStep(timeout, srv, now, e).session.participants
    requires p in srv.session.participants ==> UpToDate(srv, p, last)
    ensures UpToDate(ServerStep(timeout, srv, now, e), p, last)
  {
    var s := srv.session;
    match e
    case Joins(who) =>
      var s' := Join(s, who);
      AnnouncedReports(s', srv.boxes[s.nextId := [Joined(s.nextId, s'.teleopState, s'.owner)]], p, last);
    case Leaves(id) =>
      if id in s.participants {
        AnnouncedReports(Leave(s, id, s.participants[id], now + timeout), srv.boxes, p, last);
      }
    case Sends(id, m) =>
      if id in s.participants {
        HandledKeepsParticipants(srv, id, m);
        HandledReports(srv, id, m, p, last);
      }
    case HttpClaim(op) =>
      if op != "" && MayClaim(s, op) {
        AnnouncedReports(Claim(s, op), srv.boxes, p, last);
      }
    case HttpRelease(op) =>
      if op != "" && s.owner == Some(op) {
        AnnouncedReports(Release(s, op), srv.boxes, p, last);
      }
    case TimerFires =>
      if s.releaseAt.Some? && s.releaseAt.value <= now && TimerReleases(s) {
        AnnouncedReports(TimerFired(s), srv.boxes, p, last);
      }
  }

  // ------------------------------------------------- which messages are new

  /** How much of p's outbox was there already. */
  function Held(before: Outboxes, p: ParticipantId): nat {
    if p in before then |before[p]| else 0
  }

  /** Every outbox only grows at its end, and only by messages that are `ok` for its owner. */
  ghost predicate Grown(before: Outboxes, after: Outboxes, ok: (ParticipantId, ServerMessage) -> bool) {
    && (forall p | p in before :: p in after && before[p] <= after[p])
    && forall p, k {:trigger after[p][k]} | p in after && Held(before, p) <= k < |after[p]| :: ok(p, after[p][k])
  }

  lemma {:induction false} SendGrows(
    boxes: Outboxes, id: ParticipantId, m: ServerMessage, ok: (ParticipantId, ServerMessage) -> bool)
    requires ok(id, m)
    ensures Grown(boxes, Send(boxes, id, m), ok)
  {
  }

  lemma {:induction false} SendAllGrows(
    boxes: Outboxes, to: set<ParticipantId>, m: ServerMessage, ok: (ParticipantId, ServerMessage) -> bool)
    requires forall p | p in to :: ok(p, m)
    ensures Grown(boxes, SendAll(boxes, to, m), ok)
  {
  }

  /** A message that this step may have sent to p: reports show the session as it now is; only a
      newcomer is welcomed, under its own id; a stop is the one the client sent; and so is a
      negotiation message, stamped, and to its addressee if it names one. */
  predicate Sendable(srv: Server, after: Session, e: ServerEvent, p: ParticipantId, m: ServerMessage) {
    && p in after.participants
    && match m
       case Joined(id, state, owner) =>
         && e.Joins? && id == p == srv.session.nextId
         && state == after.teleopState && owner == after.owner
       case Ownership(owner, state) => state == after.teleopState && owner == after.owner
       case RtcRelay(rtc) =>
         && e.Sends? && e.id in srv.session.participants && e.message.RtcRequest?
         && rtc == Stamped(e.message.rtc, e.id, srv.session.participants[e.id].role)
         && (rtc.to.Some? ==> rtc.to.value == p)
       case EstopRelay(msg) =>
         && e.Sends? && e.id in srv.session.participants && e.message == EstopRequest(msg)
       case _ => true
  }

  function SendableIn(srv: Server, after: Session, e: ServerEvent): (ParticipantId, ServerMessage) -> bool {
    (p: ParticipantId, m: ServerMessage) => Sendable(srv, after, e, p, m)
  }

  lemma {:induction false} AnnouncedGrows(srv: Server, s': Session, boxes: Outboxes, e: ServerEvent)
    requires Grown(srv.boxes, boxes, SendableIn(srv, s', e))
    ensures Grown(srv.boxes, Announced(s', boxes).boxes, SendableIn(srv, s', e))
  {
  }

  lemma {:induction false} HandledGrows(srv: Server, id: ParticipantId, m: ClientMessage)
    requires id in srv.session.participants
    ensures Grown(srv.boxes, Handled(srv, id, m).boxes, SendableIn(srv, Handled(srv, id, m).session, Sends(id, m)))
  {
    var s, s', e := srv.session, Handled(srv, id, m).session, Sends(id, m);
    var ok := SendableIn(srv, s', e);
    HandledKeepsParticipants(srv, id, m);
    match m
    case ClaimRequest(op) =>
      var boxes := Send(srv.boxes, id, ClaimResult(op, MayClaim(s, op)));
      SendGrows(srv.boxes, id, ClaimResult(op, MayClaim(s, op)), ok);
      if MayClaim(s, op) {
        AnnouncedGrows(srv, s', boxes, e);
      }
    case ReleaseRequest(op) =>
      if s.owner == Some(op) {
        AnnouncedGrows(srv, s', srv.boxes, e);
      } else {
        SendGrows(srv.boxes, id, SessionError(NotOwner), ok);
      }
    case EstopRequest(msg) =>
      SendAllGrows(srv.boxes, s.participants.Keys, EstopRelay(msg), ok);
      AnnouncedGrows(srv, s', SendAll(srv.boxes, s.participants.Keys, EstopRelay(msg)), e);
    case StateRequest => SendGrows(srv.boxes, id, Snapshot(s.teleopState, s.owner, s.estopped), ok);
    case RtcRequest(rtc) =>
      var relay := RtcRelay(Stamped(rtc, id, s.participants[id].role));
      if rtc.to.Some? {
        if rtc.to.value in s.participants {
          SendGrows(srv.boxes, rtc.to.value, relay, ok);
        }
      } else {
        SendAllGrows(srv.boxes, InRole(s.participants, rtc.toRole), relay, ok);
      }
    case Unhandled => SendGrows(srv.boxes, id, SessionError(InvalidMessage), ok);
    case Heartbeat =>
    case LeaveNotice =>
  }

  /** One server step appends only sendable messages. */
  lemma {:induction false} StepGrows(timeout: Time, srv: Server, now: Time, e: ServerEvent)
    requires Wired(srv)
    ensures var srv' := ServerStep(timeout, srv, now, e);
            Grown(srv.boxes, srv'.boxes, SendableIn(srv, srv'.session, e))
  {
    var s, s' := srv.session, ServerStep(timeout, srv, now, e).session;
    match e
    case Joins(who) =>
      var boxes := srv.boxes[s.nextId := [Joined(s.nextId, s'.teleopState, s'.owner)]];
      assert Grown(srv.boxes, boxes, SendableIn(srv, s', e));
      AnnouncedGrows(srv, s', boxes, e);
    case Leaves(id) =>
      if id in s.participants {
        AnnouncedGrows(srv, s', srv.boxes, e);
      }
    case Sends(id, m) =>
      if id in s.participants {
        HandledGrows(srv, id, m);
      }
    case HttpClaim(op) =>
      if op != "" && MayClaim(s, op) {
        AnnouncedGrows(srv, s', srv.boxes, e);
      }
    case HttpRelease(op) =>
      if op != "" && s.owner == Some(op) {
        AnnouncedGrows(srv, s', srv.boxes, e);
      }
    case TimerFires =>
      if s.releaseAt.Some? && s.releaseAt.value <= now && TimerReleases(s) {
        AnnouncedGrows(srv, s', srv.boxes, e);
      }
  }

  /** Who receives a negotiation message: the connection it names, if that is still there, or else,
      if it names none, every connection in the role it names; all others receive nothing. The
      receiver sees the true sender, whatever the client wrote. */
  predicate Receives(s: Session, rtc: Rtc, q: ParticipantId) {
    q in s.participants && if rtc.to.Some? then q == rtc.to.value else s.participants[q].role == rtc.toRole
  }

  lemma {:induction false} RoutingIff(srv: Server, id: ParticipantId, rtc: Rtc, q: ParticipantId)
    requires Wired(srv) && id in srv.session.participants && q in srv.boxes
    ensures var boxes := Routed(srv, id, rtc).boxes;
            && q in boxes
            && (!Receives(srv.session, rtc, q) ==> boxes[q] == srv.boxes[q])
            && (Receives(srv.session, rtc, q) ==>
                  && |boxes[q]| == |srv.boxes[q]| + 1 && srv.boxes[q] <= boxes[q]
                  && boxes[q][|srv.boxes[q]|].RtcRelay?
                  && var seen := boxes[q][|srv.boxes[q]|].rtc;
                     && seen.sender == Some(id) && seen.senderRole == Some(srv.session.participants[id].role)
                     && seen.sdp == rtc.sdp && seen.kind == rtc.kind && seen.to == rtc.to)
  {
  }

  /** Everybody's mail, exactly: what one client message adds to the outbox of each participant p. The
      sender alone is answered; what concerns everybody ends with a report of the session as it then is;
      and a heartbeat, a notice of leaving and a refused claim or release tell the others nothing. */
  lemma {:induction false} MailOf(srv: Server, id: ParticipantId, m: ClientMessage, p: ParticipantId)
    requires Wired(srv) && id in srv.session.participants && p in srv.session.participants
    ensures var s, srv' := srv.session, Handled(srv, id, m);
            var report := [Ownership(srv'.session.owner, srv'.session.teleopState)];
            && p in srv'.boxes
            && srv'.boxes[p] == srv.boxes[p] +
               match m
               case ClaimRequest(op) =>
                 var granted := !s.estopped && (s.owner == None || s.owner == Some(op));
                 (if p == id then [ClaimResult(op, granted)] else []) + (if granted then report else [])
               case ReleaseRequest(op) =>
                 if s.owner == Some(op) then report else if p == id then [SessionError(NotOwner)] else []
               case EstopRequest(msg) => [EstopRelay(msg)] + report
               case StateRequest => if p == id then [Snapshot(s.teleopState, s.owner, s.estopped)] else []
               case RtcRequest(rtc) =>
                 if Receives(s, rtc, p)
                 then [RtcRelay(rtc.(sender := Some(id), senderRole := Some(s.participants[id].role)))] else []
               case Unhandled => if p == id then [SessionError(InvalidMessage)] else []
               case _ => []
    ensures m.StateRequest? || m.RtcRequest? || m.Unhandled? || m.Heartbeat? || m.LeaveNotice? ==>
              Handled(srv, id, m).session == srv.session
  {
  }

  /** Nobody who has left is sent anything. */
  lemma {:induction false} NoMailToTheGone(srv: Server, id: ParticipantId, m: ClientMessage, p: ParticipantId)
    requires id in srv.session.participants && p in srv.boxes && p !in srv.session.participants
    ensures var srv' := Handled(srv, id, m); p in srv'.boxes && srv'.boxes[p] == srv.boxes[p]
  {
  }

  /** The claimant is told first of all whether the claim was granted; in a session that is not
      stopped it was granted exactly if the claimant now owns it. */
  lemma {:induction false} ClaimAnswered(srv: Server, id: ParticipantId, op: OperatorId)
    requires Wired(srv) && id in srv.session.participants
    ensures var srv' := Handled(srv, id, ClaimRequest(op));
            var n := |srv.boxes[id]|;
            && id in srv'.boxes && n < |srv'.boxes[id]|
            && srv'.boxes[id][n] ==
               ClaimResult(op, !srv.session.estopped && srv'.session.owner == Some(op))
  {
  }

  /** A newcomer's inbox starts with its welcome, carrying its id and the session as it is now. */
  lemma {:induction false} WelcomeFirst(timeout: Time, srv: Server, now: Time, who: Participant)
    requires Wired(srv)
    ensures var srv' := ServerStep(timeout, srv, now, Joins(who));
            var id := srv.session.nextId;
            && id !in srv.session.participants && id in srv'.session.participants && id in srv'.boxes
            && srv'.boxes[id] == [Joined(id, srv'.session.teleopState, srv'.session.owner), OwnershipOf(srv'.session)]
  {
  }

  /** A stop message reaches every participant unaltered, followed by a report that says whether the
      server is stopped. */
  lemma {:induction false} StopRelayed(srv: Server, id: ParticipantId, msg: EstopMessage, p: ParticipantId)
    requires Wired(srv) && id in srv.session.participants && p in srv.session.participants
    ensures var srv' := Handled(srv, id, EstopRequest(msg));
            && p in srv'.boxes
            && srv'.boxes[p] == srv.boxes[p] + [EstopRelay(msg), OwnershipOf(srv'.session)]
            && (srv'.session.teleopState.Estopped? <==> srv'.session.estopped)
            && (srv'.session.estopped <==> !msg.body.reset && (msg.body.engaged || srv.session.estopped))
  {
    assert srv.boxes[p] + [EstopRelay(msg)] + [OwnershipOf(Handled(srv, id, EstopRequest(msg)).session)]
        == srv.boxes[p] + [EstopRelay(msg), OwnershipOf(Handled(srv, id, EstopRequest(msg)).session)];
  }
}
