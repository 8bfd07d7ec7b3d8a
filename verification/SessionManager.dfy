/** services/signaling-server/app/session_manager.py: participants, single-operator ownership, the
    e-stop flag, and the timer that releases the claim of an operator who went away. */
module SessionManager {
  import opened Protocol

  datatype Participant = Participant(role: Role, operatorId: Option<OperatorId>)

  type Participants = map<ParticipantId, Participant>

  /** `releaseAt` is when the pending release timer is due, if one is pending. Participant ids are
      drawn from a counter, so they are never reused. */
  datatype Session = Session(
    participants: Participants,
    owner: Option<OperatorId>,
    estopped: bool,
    teleopState: SessionState,
    releaseAt: Option<Time>,
    nextId: ParticipantId)

  const NEW_SESSION := Session(map[], None, false, Disconnected, None, 0)

  predicate HasRole(ps: Participants, role: Role) {
    exists p | p in ps :: ps[p].role == role
  }

  /** Some connection has joined as this operator. */
  predicate OperatorConnected(ps: Participants, op: OperatorId) {
    exists p | p in ps :: ps[p] == Participant(Operator, Some(op))
  }

  /** The coarse state is a function of presence, ownership and the e-stop flag. */
  function Derived(ps: Participants, owner: Option<OperatorId>, estopped: bool): SessionState {
    if estopped then Estopped
    else if owner.Some? then Claimed
    else if HasRole(ps, Follower) && HasRole(ps, Operator) then Ready
    else if ps != map[] then Connected
    else Disconnected
  }

  function Refreshed(s: Session): Session {
    s.(teleopState := Derived(s.participants, s.owner, s.estopped))
  }

  predicate IsOwnersConnection(s: Session, who: Participant) {
    who.role.Operator? && who.operatorId.Some? && s.owner == who.operatorId
  }

  function Join(s: Session, who: Participant): Session {
    Refreshed(s.(participants := s.participants[s.nextId := who],
                 nextId := s.nextId + 1,
                 releaseAt := if IsOwnersConnection(s, who) then None else s.releaseAt))
  }

  function Leave(s: Session, id: ParticipantId, who: Participant, dueAt: Time): Session {
    Refreshed(s.(participants := s.participants - {id},
                 releaseAt := if IsOwnersConnection(s, who) then Some(dueAt) else s.releaseAt))
  }

  predicate MayClaim(s: Session, op: OperatorId) {
    !s.estopped && (s.owner == None || s.owner == Some(op))
  }

  function Claim(s: Session, op: OperatorId): Session {
    if MayClaim(s, op) then Refreshed(s.(owner := Some(op), releaseAt := None)) else s
  }

  function Release(s: Session, op: OperatorId): Session {
    if s.owner == Some(op) then Refreshed(s.(owner := None, releaseAt := None)) else s
  }

  /** Resetting wins over engaging when a message asks for both. */
  function SetEstop(s: Session, engaged: bool, reset: bool): Session {
    Refreshed(s.(estopped := if reset then false else engaged || s.estopped))
  }

  predicate TimerReleases(s: Session) {
    s.owner.Some? && !OperatorConnected(s.participants, s.owner.value)
  }

  /** The timer looks at the owner of the moment in which it goes off. */
  function TimerFired(s: Session): Session {
    var s' := s.(releaseAt := None);
    if TimerReleases(s) then Refreshed(s'.(owner := None)) else s'
  }

  class SessionRecord {
    var participants: Participants
    var owner: Option<OperatorId>
    var estopped: bool
    var teleopState: SessionState
    var releaseAt: Option<Time>
    var nextId: ParticipantId

    function View(): Session
      reads this
    {
      Session(participants, owner, estopped, teleopState, releaseAt, nextId)
    }

    constructor ()
      ensures View() == NEW_SESSION
    {
      participants, owner, estopped, teleopState := map[], None, false, Disconnected;
      releaseAt, nextId := None, 0;
    }
  }

  class Manager {
    const claimTimeout: Time
    var sessions: map<string, SessionRecord>

    /** No session record is filed under two names. */
    predicate Valid()
      reads this
    {
      forall a, b | a in sessions && b in sessions && a != b :: sessions[a] != sessions[b]
    }

    constructor (claimTimeout: Time)
      ensures this.claimTimeout == claimTimeout && Valid() && sessions == map[]
    {
      this.claimTimeout, sessions := claimTimeout, map[];
    }

    method GetOrCreate(name: string) returns (session: SessionRecord)
      requires Valid()
      modifies this
      ensures Valid() && name in sessions && sessions[name] == session
      ensures name in old(sessions) ==> sessions == old(sessions)
      ensures name !in old(sessions) ==>
                fresh(session) && session.View() == NEW_SESSION && sessions == old(sessions)[name := session]
    {
      if name in sessions {
        return sessions[name];
      }
      session := new SessionRecord();
      sessions := sessions[name := session];
    }

    method RecomputeState(session: SessionRecord)
      modifies session
      ensures session.View() == Refreshed(old(session.View()))
    {
      var ps := session.participants;
      var roles := set p | p in ps :: ps[p].role;
      if session.estopped {
        session.teleopState := Estopped;
      } else if session.owner != None {
        session.teleopState := Claimed;
      } else if Role.Follower in roles && Role.Operator in roles {
        session.teleopState := Ready;
      } else if ps != map[] {
        session.teleopState := Connected;
      } else {
        session.teleopState := Disconnected;
      }
    }

    method JoinSession(session: SessionRecord, role: Role, operatorId: Option<OperatorId>) returns (id: ParticipantId)
      modifies session
      ensures id == old(session.nextId)
      ensures session.View() == Join(old(session.View()), Participant(role, operatorId))
    {
      id := session.nextId;
      session.nextId := session.nextId + 1;
      session.participants := session.participants[id := Participant(role, operatorId)];
      if role == Operator && operatorId != None && session.owner == operatorId {
        session.releaseAt := None;
      }
      RecomputeState(session);
    }

    method LeaveSession(session: SessionRecord, id: ParticipantId, who: Participant, now: Time)
      modifies session
      ensures session.View() == Leave(old(session.View()), id, who, now + claimTimeout)
    {
      session.participants := session.participants - {id};
      if who.role == Operator && who.operatorId != None && session.owner == who.operatorId {
        session.releaseAt := Some(now + claimTimeout);
      }
      RecomputeState(session);
    }

    method ClaimSession(session: SessionRecord, operatorId: OperatorId) returns (granted: bool)
      modifies session
      ensures granted <==> MayClaim(old(session.View()), operatorId)
      ensures session.View() == Claim(old(session.View()), operatorId)
    {
      if session.estopped {
        return false;
      }
      if session.owner != None && session.owner != Some(operatorId) {
        return false;
      }
      session.releaseAt := None;
      session.owner := Some(operatorId);
      RecomputeState(session);
      return true;
    }

    method ReleaseSession(session: SessionRecord, operatorId: OperatorId) returns (released: bool)
      modifies session
      ensures released <==> old(session.owner) == Some(operatorId)
      ensures session.View() == Release(old(session.View()), operatorId)
    {
      if session.owner != Some(operatorId) {
        return false;
      }
      session.releaseAt := None;
      session.owner := None;
      RecomputeState(session);
      return true;
    }

    method SetEstopFlag(session: SessionRecord, engaged: bool, reset: bool)
      modifies session
      ensures session.View() == SetEstop(old(session.View()), engaged, reset)
    {
      if reset {
        session.estopped := false;
      } else if engaged {
        session.estopped := true;
      }
      RecomputeState(session);
    }

    /** The body of the release task once its sleep is over. */
    method ReleaseLater(session: SessionRecord) returns (changed: bool)
      modifies session
      ensures changed <==> TimerReleases(old(session.View()))
      ensures session.View() == TimerFired(old(session.View()))
    {
      session.releaseAt := None;
      var ps := session.participants;
      var stillConnected := exists p | p in ps :: ps[p].role == Operator && ps[p].operatorId == session.owner;
      if session.owner != None && !stillConnected {
        session.owner := None;
        RecomputeState(session);
        return true;
      }
      return false;
    }
  }
}
