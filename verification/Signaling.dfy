/** services/signaling-server/app/ws_handlers.py and main.py: what the server does with each
    message, connection, HTTP request and timer, and what it sends to whom. Each handler together
    with its broadcast is one step. */
module Signaling {
  import opened Protocol
  import opened SessionManager

  /** Per connection, in order, everything sent to it and not yet received. */
  type Outboxes = map<ParticipantId, seq<ServerMessage>>

  datatype Server = Server(session: Session, boxes: Outboxes)

  const EMPTY_SERVER := Server(NEW_SESSION, map[])

  function Send(boxes: Outboxes, id: ParticipantId, m: ServerMessage): Outboxes {
    if id in boxes then boxes[id := boxes[id] + [m]] else boxes
  }

  /** One message to every connection in `to`. */
  function SendAll(boxes: Outboxes, to: set<ParticipantId>, m: ServerMessage): Outboxes {
    map p | p in boxes :: if p in to then boxes[p] + [m] else boxes[p]
  }

  function OwnershipOf(s: Session): ServerMessage {
    Ownership(s.owner, s.teleopState)
  }

  /** The new session, and the ownership it implies broadcast to all its participants. */
  function Announced(session: Session, boxes: Outboxes): Server {
    Server(session, SendAll(boxes, session.participants.Keys, OwnershipOf(session)))
  }

  /** The sender fields are stamped by the server, whatever the client put there. */
  function Stamped(rtc: Rtc, id: ParticipantId, role: Role): Rtc {
    rtc.(sender := Some(id), senderRole := Some(role))
  }

  function InRole(ps: Participants, role: Role): set<ParticipantId> {
    set p | p in ps && ps[p].role == role
  }

  function Routed(srv: Server, id: ParticipantId, rtc: Rtc): Server
    requires id in srv.session.participants
  {
    var ps := srv.session.participants;
    var m := RtcRelay(Stamped(rtc, id, ps[id].role));
    srv.(boxes :=
      if rtc.to.Some? then (if rtc.to.value in ps then Send(srv.boxes, rtc.to.value, m) else srv.boxes)
      else SendAll(srv.boxes, InRole(ps, rtc.toRole), m))
  }

  function Handled(srv: Server, id: ParticipantId, m: ClientMessage): Server
    requires id in srv.session.participants
  {
    var s := srv.session;
    match m
    case ClaimRequest(op) =>
      var boxes := Send(srv.boxes, id, ClaimResult(op, MayClaim(s, op)));
      if MayClaim(s, op) then Announced(Claim(s, op), boxes) else Server(s, boxes)
    case ReleaseRequest(op) =>
      if s.owner == Some(op) then Announced(Release(s, op), srv.boxes)
      else srv.(boxes := Send(srv.boxes, id, SessionError(NotOwner)))
    case EstopRequest(msg) =>
      Announced(SetEstop(s, msg.body.engaged, msg.body.reset),
                SendAll(srv.boxes, s.participants.Keys, EstopRelay(msg)))
    case StateRequest => srv.(boxes := Send(srv.boxes, id, Snapshot(s.teleopState, s.owner, s.estopped)))
    case RtcRequest(rtc) => Routed(srv, id, rtc)
    case Unhandled => srv.(boxes := Send(srv.boxes, id, SessionError(InvalidMessage)))
    case Heartbeat => srv
    case LeaveNotice => srv
  }

  datatype ServerEvent =
    | Joins(who: Participant)
    | Leaves(id: ParticipantId)
    | Sends(id: ParticipantId, message: ClientMessage)
    | HttpClaim(operator: OperatorId)
    | HttpRelease(operator: OperatorId)
    | TimerFires

  /** An event that cannot happen in this state (a message from a connection that is gone, a timer
      that is not due) changes nothing. The HTTP endpoints refuse an empty operator id. */
  function ServerStep(claimTimeout: Time, srv: Server, now: Time, e: ServerEvent): Server {
    var s := srv.session;
    match e
    case Joins(who) =>
      var s' := Join(s, who);
      Announced(s', srv.boxes[s.nextId := [Joined(s.nextId, s'.teleopState, s'.owner)]])
    case Leaves(id) =>
      if id in s.participants then Announced(Leave(s, id, s.participants[id], now + claimTimeout), srv.boxes) else srv
    case Sends(id, m) => if id in s.participants then Handled(srv, id, m) else srv
    case HttpClaim(op) => if op != "" && MayClaim(s, op) then Announced(Claim(s, op), srv.boxes) else srv
    case HttpRelease(op) => if op != "" && s.owner == Some(op) then Announced(Release(s, op), srv.boxes) else srv
    case TimerFires =>
      if s.releaseAt.Some? && s.releaseAt.value <= now then
        if TimerReleases(s) then Announced(TimerFired(s), srv.boxes) else srv.(session := TimerFired(s))
      else srv
  }

  class SignalingServer {
    const manager: Manager
    const session: SessionRecord
    var boxes: Outboxes

    /** Every participant has a connection to send to. */
    predicate Valid()
      reads this, session
    {
      session.participants.Keys <= boxes.Keys
    }

    function View(): Server
      reads this, session
    {
      Server(session.View(), boxes)
    }

    constructor (manager: Manager, session: SessionRecord)
      requires session.View() == NEW_SESSION
      ensures this.manager == manager && this.session == session
      ensures Valid() && View() == EMPTY_SERVER
    {
      this.manager, this.session, boxes := manager, session, map[];
    }

    method SendTo(id: ParticipantId, m: ServerMessage)
      requires id in boxes
      modifies this
      ensures boxes == Send(old(boxes), id, m)
    {
      boxes := boxes[id := boxes[id] + [m]];
    }

    method SendEach(to: set<ParticipantId>, m: ServerMessage)
      requires to <= boxes.Keys
      modifies this
      ensures boxes == SendAll(old(boxes), to, m)
    {
      var todo := to;
      while todo != {}
        invariant todo <= to && boxes == SendAll(old(boxes), to - todo, m)
      {
        var p :| p in todo;
        todo := todo - {p};
        SendTo(p, m);
      }
      assert to - todo == to;
    }

    method Broadcast(m: ServerMessage)
      requires Valid()
      modifies this
      ensures Valid() && boxes == SendAll(old(boxes), session.participants.Keys, m)
    {
      SendEach(session.participants.Keys, m);
    }

    method BroadcastOwnership()
      requires Valid()
      modifies this
      ensures Valid() && View() == Announced(session.View(), old(boxes))
    {
      Broadcast(Ownership(session.owner, session.teleopState));
    }

    method Route(id: ParticipantId, rtc: Rtc)
      requires Valid() && id in session.participants
      modifies this
      ensures Valid() && View() == Routed(old(View()), id, rtc)
    {
      var stamped := rtc.(sender := Some(id), senderRole := Some(session.participants[id].role));
      if rtc.to.Some? {
        if rtc.to.value in session.participants {
          SendTo(rtc.to.value, RtcRelay(stamped));
        }
        return;
      }
      var ps := session.participants;
      var targets := set p | p in ps && ps[p].role == rtc.toRole;
      SendEach(targets, RtcRelay(stamped));
    }

    method HandleMessage(id: ParticipantId, m: ClientMessage)
      requires Valid() && id in session.participants
      modifies this, session
      ensures Valid() && View() == Handled(old(View()), id, m)
    {
      match m
      case ClaimRequest(op) =>
        var granted := manager.ClaimSession(session, op);
        SendTo(id, ClaimResult(op, granted));
        if granted {
          BroadcastOwnership();
        }
      case ReleaseRequest(op) =>
        var released := manager.ReleaseSession(session, op);
        if released {
          BroadcastOwnership();
        } else {
          SendTo(id, SessionError(NotOwner));
        }
      case EstopRequest(msg) =>
        manager.SetEstopFlag(session, msg.body.engaged, msg.body.reset);
        Broadcast(EstopRelay(msg));
        BroadcastOwnership();
      case StateRequest =>
        SendTo(id, Snapshot(session.teleopState, session.owner, session.estopped));
      case RtcRequest(rtc) =>
        Route(id, rtc);
      case Unhandled =>
        SendTo(id, SessionError(InvalidMessage));
      case Heartbeat =>
      case LeaveNotice =>
    }

    /** A connection whose first message was a valid join. */
    method Connect(who: Participant, now: Time) returns (id: ParticipantId)
      requires Valid()
      modifies this, session
      ensures Valid() && id == old(session.nextId)
      ensures View() == ServerStep(manager.claimTimeout, old(View()), now, Joins(who))
    {
      id := manager.JoinSession(session, who.role, who.operatorId);
      boxes := boxes[id := []];
      var welcome := Joined(id, session.teleopState, session.owner);
      SendTo(id, welcome);
      assert boxes[id] == [welcome];
      assert boxes == old(boxes)[id := [welcome]];
      BroadcastOwnership();
    }

    /** The connection's `finally` block. */
    method Disconnect(id: ParticipantId, now: Time)
      requires Valid() && id in session.participants
      modifies this, session
      ensures Valid() && View() == ServerStep(manager.claimTimeout, old(View()), now, Leaves(id))
    {
      manager.LeaveSession(session, id, session.participants[id], now);
      BroadcastOwnership();
    }

    method ClaimOverHttp(operator: OperatorId, now: Time) returns (granted: bool)
      requires Valid()
      modifies this, session
      ensures Valid() && View() == ServerStep(manager.claimTimeout, old(View()), now, HttpClaim(operator))
      ensures granted <==> operator != "" && MayClaim(old(session.View()), operator)
    {
      if operator == "" {
        return false;
      }
      granted := manager.ClaimSession(session, operator);
      if granted {
        BroadcastOwnership();
      }
    }

    method ReleaseOverHttp(operator: OperatorId, now: Time) returns (released: bool)
      requires Valid()
      modifies this, session
      ensures Valid() && View() == ServerStep(manager.claimTimeout, old(View()), now, HttpRelease(operator))
      ensures released <==> operator != "" && old(session.owner) == Some(operator)
    {
      if operator == "" {
        return false;
      }
      released := manager.ReleaseSession(session, operator);
      if released {
        BroadcastOwnership();
      }
    }

    method ReleaseTimer(now: Time)
      requires Valid() && session.releaseAt.Some? && session.releaseAt.value <= now
      modifies this, session
      ensures Valid() && View() == ServerStep(manager.claimTimeout, old(View()), now, TimerFires)
    {
      var changed := manager.ReleaseLater(session);
      if changed {
        BroadcastOwnership();
      }
    }
  }
}
