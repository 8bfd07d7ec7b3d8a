/** Whole runs of the signaling server's session: who owns it and why, and what the release timer
    is waiting for. */
module ServerHistory {
  import opened Protocol
  import opened SessionManager
  import opened Signaling
  import opened History

  datatype Happening = Happening(now: Time, event: ServerEvent)

  datatype Entry = Entry(now: Time, event: ServerEvent, before: Session, after: Session)

  datatype Record = Record(session: Session, log: seq<Entry>)

  const NEW_RECORD := Record(NEW_SESSION, [])

  /** The session's part of a server step, which does not depend on what has been sent to whom. */
  function SessionStep(timeout: Time, s: Session, h: Happening): Session {
    ServerStep(timeout, Server(s, map[]), h.now, h.event).session
  }

  function EntryFor(timeout: Time, s: Session, h: Happening): Entry {
    Entry(h.now, h.event, s, SessionStep(timeout, s, h))
  }

  function Append(timeout: Time, r: Record, h: Happening): Record {
    Record(SessionStep(timeout, r.session, h), r.log + [EntryFor(timeout, r.session, h)])
  }

  function Recorded(timeout: Time, tr: seq<Happening>): (r: Record)
    ensures |r.log| == |tr|
  {
    if tr == [] then NEW_RECORD else Append(timeout, Recorded(timeout, tr[..|tr| - 1]), tr[|tr| - 1])
  }

  // ------------------------------------------------- vocabulary for log entries

  predicate AsksFor(e: Entry, op: OperatorId) {
    match e.event
    case Sends(id, ClaimRequest(o)) => id in e.before.participants && o == op
    case HttpClaim(o) => o == op && op != ""
    case _ => false
  }

  /** A claim of the session by this operator that the server grants. */
  predicate Grants(e: Entry, op: OperatorId) {
    AsksFor(e, op) && !e.before.estopped && (e.before.owner == None || e.before.owner == Some(op))
  }

  predicate GrantsAny(e: Entry) {
    match e.event
    case Sends(_, ClaimRequest(op)) => Grants(e, op)
    case HttpClaim(op) => Grants(e, op)
    case _ => false
  }

  /** The owner gives the session back. */
  predicate GivesBack(e: Entry) {
    match e.event
    case Sends(id, ReleaseRequest(op)) => id in e.before.participants && e.before.owner == Some(op)
    case HttpRelease(op) => op != "" && e.before.owner == Some(op)
    case _ => false
  }

  predicate GoesOff(e: Entry) {
    e.event.TimerFires? && e.before.releaseAt.Some? && e.before.releaseAt.value <= e.now
  }

  /** The release timer goes off while the owner has no operator connection. */
  predicate Expires(e: Entry) {
    GoesOff(e) && e.before.owner.Some? && !OperatorConnected(e.before.participants, e.before.owner.value)
  }

  predicate LosesOwner(e: Entry) {
    GivesBack(e) || Expires(e)
  }

  predicate OwnerLeaves(e: Entry) {
    e.event.Leaves? && e.event.id in e.before.participants &&
    IsOwnersConnection(e.before, e.before.participants[e.event.id])
  }

  predicate OwnerJoins(e: Entry) {
    e.event.Joins? && IsOwnersConnection(e.before, e.event.who)
  }

  // ------------------------------------------------- the cached state

  predicate CacheFresh(s: Session) {
    s.teleopState == Derived(s.participants, s.owner, s.estopped)
  }

  lemma {:induction false} CacheStep(timeout: Time, s: Session, h: Happening)
    requires CacheFresh(s)
    ensures CacheFresh(SessionStep(timeout, s, h))
  {
  }

  /** The reported state always equals the function of presence, ownership and e-stop. */
  lemma {:induction false} CacheAlwaysFresh(timeout: Time, tr: seq<Happening>)
    ensures CacheFresh(Recorded(timeout, tr).session)
  {
    if tr == [] {
    } else {
      CacheAlwaysFresh(timeout, tr[..|tr| - 1]);
      CacheStep(timeout, Recorded(timeout, tr[..|tr| - 1]).session, tr[|tr| - 1]);
    }
  }

  // ------------------------------------------------- who owns the session, and why

  function GrantTo(op: OperatorId): Entry -> bool {
    e => Grants(e, op)
  }

  lemma {:induction false} OwnerStep(timeout: Time, s: Session, h: Happening, op: OperatorId)
    ensures var e := EntryFor(timeout, s, h);
            e.after.owner == Some(op) <==> Grants(e, op) || (s.owner == Some(op) && !LosesOwner(e))
  {
  }

  /** An operator owns the session if and only if the server granted it to them and they have
      neither given it back since nor lost it to the timer while disconnected. */
  lemma {:induction false} OwnedIff(timeout: Time, tr: seq<Happening>, op: OperatorId)
    ensures var r := Recorded(timeout, tr);
            r.session.owner == Some(op) <==> Since(r.log, GrantTo(op), LosesOwner)
  {
    if tr == [] {
    } else {
      var n := |tr| - 1;
      OwnedIff(timeout, tr[..n], op);
      var r := Recorded(timeout, tr[..n]);
      OwnerStep(timeout, r.session, tr[n], op);
      SinceExtends(r.log, EntryFor(timeout, r.session, tr[n]), GrantTo(op), LosesOwner);
    }
  }

  predicate Explained(e: Entry) {
    && (e.before.owner.Some? && e.after.owner != e.before.owner ==> LosesOwner(e))
    && (GrantsAny(e) ==> e.after.owner.Some? && Grants(e, e.after.owner.value))
  }

  /** Consecutive entries share the state between them, and an owner who goes was lost. */
  predicate Chained(r: Record) {
    && (forall i, j {:trigger r.log[i], r.log[j]} | 0 <= i < |r.log| && j == i + 1 < |r.log| ::
          r.log[i].after == r.log[j].before)
    && (r.log != [] ==> r.log[|r.log| - 1].after == r.session)
    && (forall i | 0 <= i < |r.log| :: Explained(r.log[i]))
  }

  lemma {:induction false} ExplainedStep(timeout: Time, s: Session, h: Happening)
    ensures Explained(EntryFor(timeout, s, h))
  {
  }

  lemma {:induction false} AlwaysChained(timeout: Time, tr: seq<Happening>)
    ensures Chained(Recorded(timeout, tr))
  {
    if tr == [] {
    } else {
      var n := |tr| - 1;
      AlwaysChained(timeout, tr[..n]);
      var r, r' := Recorded(timeout, tr[..n]), Recorded(timeout, tr);
      ExplainedStep(timeout, r.session, tr[n]);
      forall i | 0 <= i < |r.log| ensures r'.log[i] == r.log[i] {}
    }
  }

  /** If A owns the session after step i and not before step j, A lost it in between. */
  lemma {:induction false} OwnerLostBetween(r: Record, a: OperatorId, i: nat, j: nat) returns (k: nat)
    requires Chained(r) && i < j < |r.log|
    requires r.log[i].after.owner == Some(a) && r.log[j].before.owner != Some(a)
    ensures i < k < j && r.log[k].before.owner == Some(a) && LosesOwner(r.log[k])
    decreases j - i
  {
    assert r.log[i].after == r.log[i + 1].before;
    if r.log[i + 1].after.owner != Some(a) {
      k := i + 1;
    } else {
      k := OwnerLostBetween(r, a, i + 1, j);
    }
  }

  /** Handover exclusion: between a claim granted to A and a later one granted to B the server saw
      A give the session back, or its timer went off with no operator connected as A. */
  lemma {:induction false} HandoverExclusion(
    timeout: Time, tr: seq<Happening>, i: nat, j: nat, a: OperatorId, b: OperatorId)
    requires i < j < |Recorded(timeout, tr).log| && a != b
    requires Grants(Recorded(timeout, tr).log[i], a) && Grants(Recorded(timeout, tr).log[j], b)
    ensures var log := Recorded(timeout, tr).log;
            exists k | i < k < j :: log[k].before.owner == Some(a) &&
              (GivesBack(log[k]) || (GoesOff(log[k]) && !OperatorConnected(log[k].before.participants, a)))
  {
    var r := Recorded(timeout, tr);
    AlwaysChained(timeout, tr);
    var k := OwnerLostBetween(r, a, i, j);
  }

  // ------------------------------------------------- the server's e-stop flag

  predicate AsksStop(e: Entry) {
    e.event.Sends? && e.event.id in e.before.participants && e.event.message.EstopRequest?
  }

  predicate RaisesFlag(e: Entry) {
    AsksStop(e) && e.event.message.message.body.engaged && !e.event.message.message.body.reset
  }

  predicate LowersFlag(e: Entry) {
    AsksStop(e) && e.event.message.message.body.reset
  }

  lemma {:induction false} FlagStep(timeout: Time, s: Session, h: Happening)
    ensures var e := EntryFor(timeout, s, h);
            e.after.estopped <==> RaisesFlag(e) || (s.estopped && !LowersFlag(e))
  {
  }

  /** The session is stopped, and no claim is granted, exactly while a stop that did not also ask
      for a reset has not been followed by a reset. */
  lemma {:induction false} FlagIff(timeout: Time, tr: seq<Happening>)
    ensures var r := Recorded(timeout, tr);
            && (r.session.estopped <==> Since(r.log, RaisesFlag, LowersFlag))
            && (r.session.estopped ==> forall op :: !MayClaim(r.session, op))
  {
    if tr == [] {
    } else {
      var n := |tr| - 1;
      FlagIff(timeout, tr[..n]);
      var r := Recorded(timeout, tr[..n]);
      FlagStep(timeout, r.session, tr[n]);
      SinceExtends(r.log, EntryFor(timeout, r.session, tr[n]), RaisesFlag, LowersFlag);
    }
  }

  // ------------------------------------------------- who is present, and what is reported

  /** Connection p joins as this participant. */
  function Arrives(p: ParticipantId, who: Participant): Entry -> bool {
    (e: Entry) => e.event == Joins(who) && e.before.nextId == p
  }

  function Departs(p: ParticipantId): Entry -> bool {
    (e: Entry) => e.event == Leaves(p)
  }

  /** Ids in use are below the counter, so the next one is new. */
  predicate FreshIds(s: Session) {
    forall p | p in s.participants :: p < s.nextId
  }

  predicate Holds(s: Session, p: ParticipantId, who: Participant) {
    p in s.participants && s.participants[p] == who
  }

  lemma {:induction false} HoldsStep(timeout: Time, s: Session, h: Happening, p: ParticipantId, who: Participant)
    requires FreshIds(s)
    ensures var e := EntryFor(timeout, s, h);
            && FreshIds(e.after)
            && (Holds(e.after, p, who) <==> Arrives(p, who)(e) || (Holds(s, p, who) && !Departs(p)(e)))
  {
  }

  /** The server holds a connection, under the role and name it joined with, until it leaves. */
  lemma {:induction false} PresentIff(timeout: Time, tr: seq<Happening>, p: ParticipantId, who: Participant)
    ensures var r := Recorded(timeout, tr);
            FreshIds(r.session) && (Holds(r.session, p, who) <==> Since(r.log, Arrives(p, who), Departs(p)))
  {
    if tr == [] {
    } else {
      var n := |tr| - 1;
      PresentIff(timeout, tr[..n], p, who);
      var r := Recorded(timeout, tr[..n]);
      HoldsStep(timeout, r.session, tr[n], p, who);
      SinceExtends(r.log, EntryFor(timeout, r.session, tr[n]), Arrives(p, who), Departs(p));
    }
  }

  ghost predicate InRoleSince(log: seq<Entry>, role: Role, p: ParticipantId, who: Participant) {
    who.role == role && Since(log, Arrives(p, who), Departs(p))
  }

  /** Somebody has joined in this role and not left. */
  ghost predicate RolePresent(log: seq<Entry>, role: Role) {
    exists p, who :: InRoleSince(log, role, p, who)
  }

  ghost predicate SomebodyPresent(log: seq<Entry>) {
    RolePresent(log, Operator) || RolePresent(log, Leader) || RolePresent(log, Follower)
  }

  ghost predicate StoppedSince(log: seq<Entry>) {
    Since(log, RaisesFlag, LowersFlag)
  }

  ghost predicate OwnedSince(log: seq<Entry>) {
    exists op :: Since(log, GrantTo(op), LosesOwner)
  }

  lemma {:induction false} RoleIff(timeout: Time, tr: seq<Happening>, role: Role)
    ensures var r := Recorded(timeout, tr);
            RolePresent(r.log, role) <==>
            exists p | p in r.session.participants :: r.session.participants[p].role == role
  {
    var r := Recorded(timeout, tr);
    if p :| p in r.session.participants && r.session.participants[p].role == role {
      PresentIff(timeout, tr, p, r.session.participants[p]);
      assert InRoleSince(r.log, role, p, r.session.participants[p]);
    }
    if RolePresent(r.log, role) {
      var p, who :| InRoleSince(r.log, role, p, who);
      PresentIff(timeout, tr, p, who);
    }
  }

  lemma {:induction false} SomebodyIff(timeout: Time, tr: seq<Happening>)
    ensures var r := Recorded(timeout, tr); SomebodyPresent(r.log) <==> r.session.participants != map[]
  {
    var r := Recorded(timeout, tr);
    RoleIff(timeout, tr, Operator);
    RoleIff(timeout, tr, Leader);
    RoleIff(timeout, tr, Follower);
    if r.session.participants != map[] {
      var p :| p in r.session.participants;
      assert r.session.participants[p].role in {Operator, Leader, Follower};
    }
  }

  lemma {:induction false} OwnedSinceIff(timeout: Time, tr: seq<Happening>)
    ensures var r := Recorded(timeout, tr); OwnedSince(r.log) <==> r.session.owner.Some?
  {
    var r := Recorded(timeout, tr);
    if r.session.owner.Some? {
      OwnedIff(timeout, tr, r.session.owner.value);
    }
    if OwnedSince(r.log) {
      var op :| Since(r.log, GrantTo(op), LosesOwner);
      OwnedIff(timeout, tr, op);
    }
  }

  /** What the server reports, read off the history alone: a stop that stands, else a grant that stands,
      else who is present: READY takes both a follower and an operator. */
  lemma {:induction false} ReportIff(timeout: Time, tr: seq<Happening>)
    ensures var r := Recorded(timeout, tr);
            var free := !StoppedSince(r.log) && !OwnedSince(r.log);
            var both := RolePresent(r.log, Follower) && RolePresent(r.log, Operator);
            && (r.session.teleopState.Estopped? <==> StoppedSince(r.log))
            && (r.session.teleopState.Claimed? <==> !StoppedSince(r.log) && OwnedSince(r.log))
            && (r.session.teleopState.Ready? <==> free && both)
            && (r.session.teleopState.Connected? <==> free && !both && SomebodyPresent(r.log))
            && (r.session.teleopState.Disconnected? <==> free && !SomebodyPresent(r.log))
  {
    CacheAlwaysFresh(timeout, tr);
    FlagIff(timeout, tr);
    OwnedSinceIff(timeout, tr);
    RoleIff(timeout, tr, Follower);
    RoleIff(timeout, tr, Operator);
    SomebodyIff(timeout, tr);
  }

  // ------------------------------------------------- what the timer is waiting for

  /** The owner's connection left at a moment that makes the timer due at d. */
  function LeftDue(timeout: Time, op: OperatorId, d: Time): Entry -> bool {
    e => OwnerLeaves(e) && e.before.owner == Some(op) && e.now + timeout == d
  }

  predicate EndsTimer(e: Entry) {
    GrantsAny(e) || GivesBack(e) || GoesOff(e) || OwnerJoins(e) || OwnerLeaves(e)
  }

  lemma {:induction false} TimerStep(timeout: Time, s: Session, h: Happening, op: OperatorId, d: Time)
    requires s.releaseAt.Some? ==> s.owner.Some?
    ensures var e := EntryFor(timeout, s, h);
            && (e.after.releaseAt.Some? ==> e.after.owner.Some?)
            && (e.after.owner == Some(op) && e.after.releaseAt == Some(d) <==>
                  LeftDue(timeout, op, d)(e) || (s.owner == Some(op) && s.releaseAt == Some(d) && !EndsTimer(e)))
  {
  }

  /** A timer pending for time d always belongs to the present owner: it was started by the
      departure of one of the owner's own connections, the claim timeout before d, and since then
      the owner has neither joined, left again, claimed nor released. */
  lemma {:induction false} TimerIff(timeout: Time, tr: seq<Happening>, op: OperatorId, d: Time)
    ensures var r := Recorded(timeout, tr);
            && (r.session.releaseAt.Some? ==> r.session.owner.Some?)
            && (r.session.owner == Some(op) && r.session.releaseAt == Some(d) <==>
                  Since(r.log, LeftDue(timeout, op, d), EndsTimer))
  {
    if tr == [] {
    } else {
      var n := |tr| - 1;
      TimerIff(timeout, tr[..n], op, d);
      var r := Recorded(timeout, tr[..n]);
      TimerStep(timeout, r.session, tr[n], op, d);
      SinceExtends(r.log, EntryFor(timeout, r.session, tr[n]), LeftDue(timeout, op, d), EndsTimer);
    }
  }

  // ------------------------------------------------- owners who went away

  /** An owner without an operator connection has a release timer running. */
  predicate Watched(s: Session) {
    s.owner.Some? && !OperatorConnected(s.participants, s.owner.value) ==> s.releaseAt.Some?
  }

  /** This operator owns the session, is not connected, and no timer will ever take it back. */
  predicate Abandoned(s: Session, op: OperatorId) {
    s.owner == Some(op) && !Watched(s)
  }

  /** A granted claim in the name of an operator who is not connected. */
  function AbsentClaim(op: OperatorId): Entry -> bool {
    e => Grants(e, op) && !OperatorConnected(e.before.participants, op)
  }

  predicate EndsAbsence(e: Entry) {
    GivesBack(e) || OwnerJoins(e)
  }

  lemma {:induction false} JoinWatched(s: Session, who: Participant)
    requires Watched(s) && FreshIds(s)
    ensures Watched(Join(s, who))
  {
    var s' := Join(s, who);
    assert s'.participants[s.nextId] == who;
    if s.owner.Some? && OperatorConnected(s.participants, s.owner.value) {
      var p :| p in s.participants && s.participants[p] == Participant(Operator, s.owner);
      assert p in s'.participants && s'.participants[p] == s.participants[p];
    }
  }

  lemma {:induction false} LeaveWatched(s: Session, id: ParticipantId, dueAt: Time)
    requires Watched(s) && id in s.participants
    ensures Watched(Leave(s, id, s.participants[id], dueAt))
  {
    var s' := Leave(s, id, s.participants[id], dueAt);
    if s.owner.Some? && OperatorConnected(s.participants, s.owner.value) {
      var p :| p in s.participants && s.participants[p] == Participant(Operator, s.owner);
      assert p != id ==> p in s'.participants && s'.participants[p] == s.participants[p];
    }
  }

  lemma {:induction false} IdsStep(timeout: Time, s: Session, h: Happening)
    requires FreshIds(s)
    ensures FreshIds(SessionStep(timeout, s, h))
  {
  }

  lemma {:induction false} WatchedStep(timeout: Time, s: Session, h: Happening, op: OperatorId)
    requires Watched(s) && FreshIds(s)
    ensures var e := EntryFor(timeout, s, h); Abandoned(e.after, op) <==> AbsentClaim(op)(e)
  {
    match h.event
    case Joins(who) => JoinWatched(s, who);
    case Leaves(id) => if id in s.participants { LeaveWatched(s, id, h.now + timeout); }
    case _ =>
  }

  lemma {:induction false} AbandonedStep(timeout: Time, s: Session, h: Happening, op: OperatorId)
    requires !Watched(s) && FreshIds(s)
    ensures var e := EntryFor(timeout, s, h);
            Abandoned(e.after, op) <==> AbsentClaim(op)(e) || (Abandoned(s, op) && !EndsAbsence(e))
  {
    var e := EntryFor(timeout, s, h);
    match h.event
    case Joins(who) =>
      assert e.after.participants[s.nextId] == who;
      forall p | p in s.participants ensures e.after.participants[p] == s.participants[p] {}
    case Leaves(id) => assert id in s.participants ==> !IsOwnersConnection(s, s.participants[id]);
    case _ =>
  }

  /** Exactly when an owner has neither a connection nor a timer: somebody claimed in their name
      while they were away, and since then they have neither joined nor has the session been given
      back. Nothing else ends it: no timer, no departure, no stop, and no other claim. */
  lemma {:induction false} AbandonedIff(timeout: Time, tr: seq<Happening>, op: OperatorId)
    ensures var r := Recorded(timeout, tr);
            FreshIds(r.session) && (Abandoned(r.session, op) <==> Since(r.log, AbsentClaim(op), EndsAbsence))
  {
    if tr == [] {
    } else {
      var n := |tr| - 1;
      AbandonedIff(timeout, tr[..n], op);
      var r := Recorded(timeout, tr[..n]);
      if Watched(r.session) {
        WatchedStep(timeout, r.session, tr[n], op);
      } else {
        AbandonedStep(timeout, r.session, tr[n], op);
      }
      IdsStep(timeout, r.session, tr[n]);
      SinceExtends(r.log, EntryFor(timeout, r.session, tr[n]), AbsentClaim(op), EndsAbsence);
    }
  }

  /** So an absent owner can stay for ever: whatever else happens after such a claim, for however
      long, the session remains theirs. */
  lemma {:induction false} AbsentOwnerStays(timeout: Time, tr: seq<Happening>, op: OperatorId, i: nat)
    requires SinceAt(Recorded(timeout, tr).log, AbsentClaim(op), EndsAbsence, i)
    ensures var s := Recorded(timeout, tr).session;
            s.owner == Some(op) && s.releaseAt == None && !OperatorConnected(s.participants, op)
  {
    AbandonedIff(timeout, tr, op);
  }

  /** Such a claim needs no connection at all: the HTTP endpoint accepts it. */
  lemma {:induction false} HttpClaimAbandons(timeout: Time, s: Session, now: Time, op: OperatorId)
    requires op != "" && !s.estopped && s.owner == None && !OperatorConnected(s.participants, op)
    ensures var e := EntryFor(timeout, s, Happening(now, HttpClaim(op))); AbsentClaim(op)(e) && Abandoned(e.after, op)
  {
  }

  /** A timer goes off at most `jitter` after it is due. */
  predicate Punctual(s: Session, now: Time, jitter: Time) {
    s.releaseAt.Some? ==> now <= s.releaseAt.value + jitter
  }

  /** Bounded orphan ownership: unless the owner was claimed for in absence and has not been back
      since, an owner without a connection has left a moment ago: at any time t that finds the timer
      punctual, t is within the claim timeout and the timer's jitter of the owner's last departure. */
  lemma {:induction false} OrphanBound(timeout: Time, tr: seq<Happening>, op: OperatorId, t: Time, jitter: Time)
    requires !Since(Recorded(timeout, tr).log, AbsentClaim(op), EndsAbsence)
    requires var s := Recorded(timeout, tr).session;
             s.owner == Some(op) && !OperatorConnected(s.participants, op) && Punctual(s, t, jitter)
    ensures var r := Recorded(timeout, tr);
            exists i | 0 <= i < |r.log| ::
              && OwnerLeaves(r.log[i]) && r.log[i].before.owner == Some(op)
              && t <= r.log[i].now + timeout + jitter
              && forall j | i < j < |r.log| :: !EndsTimer(r.log[j])
  {
    AbandonedIff(timeout, tr, op);
    var r := Recorded(timeout, tr);
    var d := r.session.releaseAt.value;
    TimerIff(timeout, tr, op, d);
    var i :| SinceAt(r.log, LeftDue(timeout, op, d), EndsTimer, i);
    assert OwnerLeaves(r.log[i]);
  }
}
