/** Who is answered when participants negotiate a connection with the follower: offers travel through
    the server to the follower, its answers travel back. */
module Negotiation {
  import opened Protocol
  import opened Signaling
  import opened Delivery
  import opened FollowerGateway
  import opened GatewayRun
  import opened TeleopSystem
  import ServerHistory

  predicate OfferAt(log: seq<ServerHistory.Entry>, p: ParticipantId, sdp: Sdp, i: int) {
    && 0 <= i < |log| && p in log[i].before.participants
    && log[i].event.Sends? && log[i].event.id == p && log[i].event.message.RtcRequest?
    && log[i].event.message.rtc.kind.Offer? && log[i].event.message.rtc.sdp == sdp
  }

  /** Participant p has sent the server an offer with this description. */
  ghost predicate OfferedBy(log: seq<ServerHistory.Entry>, p: ParticipantId, sdp: Sdp) {
    exists i :: OfferAt(log, p, sdp, i)
  }

  lemma {:induction false} OfferedStays(
    log: seq<ServerHistory.Entry>, e: ServerHistory.Entry, p: ParticipantId, sdp: Sdp)
    requires OfferedBy(log, p, sdp)
    ensures OfferedBy(log + [e], p, sdp)
  {
    var i :| OfferAt(log, p, sdp, i);
    assert OfferAt(log + [e], p, sdp, i);
  }

  /** A negotiation message in p's inbox: it names a real sender; an offer was made by its sender;
      and what the follower answers is an offer that p itself made. */
  ghost predicate PairedMessage(y: System, p: ParticipantId, m: ServerMessage) {
    m.RtcRelay? ==>
      && m.rtc.sender.Some? && m.rtc.sender.value < y.record.session.nextId && m.rtc.senderRole.Some?
      && (m.rtc.kind.Offer? ==> OfferedBy(y.record.log, m.rtc.sender.value, m.rtc.sdp))
      && (m.rtc.sender.value in y.own ==>
            m.rtc.kind.Answer? && m.rtc.sdp.AnswerTo? && OfferedBy(y.record.log, p, m.rtc.sdp.offer))
  }

  ghost predicate PairedBoxes(y: System) {
    forall p, k {:trigger y.boxes[p][k]} | p in y.boxes && 0 <= k < |y.boxes[p]| :: PairedMessage(y, p, y.boxes[p][k])
  }

  /** What the follower has sent but the server has not handled: answers, to those who offered. */
  ghost predicate PairedAnswer(log: seq<ServerHistory.Entry>, rtc: Rtc) {
    rtc.kind.Answer? && rtc.to.Some? && rtc.sdp.AnswerTo? && OfferedBy(log, rtc.to.value, rtc.sdp.offer)
  }

  ghost predicate PairedUplink(y: System) {
    forall k | 0 <= k < |y.uplink| :: PairedAnswer(y.record.log, y.uplink[k])
  }

  ghost predicate Paired(y: System) {
    PairedBoxes(y) && PairedUplink(y)
  }

  /** A server event as the system allows it: on the follower's connections only its answers. */
  ghost predicate Allowed(y: System, e: ServerEvent) {
    e.Sends? && e.id in y.own ==> e.message.RtcRequest? && PairedAnswer(y.record.log, e.message.rtc)
  }

  lemma {:induction false} ServerPairsMessage(
    cfg: SystemConfig, y: System, now: Time, e: ServerEvent, p: ParticipantId, m: ServerMessage)
    requires Linked(y) && Allowed(y, e)
    requires Sendable(ServerOf(y), ServerDoes(cfg, y, now, e).record.session, e, p, m)
    ensures PairedMessage(ServerDoes(cfg, y, now, e), p, m)
  {
    var y', h := ServerDoes(cfg, y, now, e), ServerHistory.Happening(now, e);
    ServerOfServerDoes(cfg, y, now, e);
    IdsOnlyFromJoins(cfg.claimTimeout, ServerOf(y), now, e);
    if m.RtcRelay? {
      if m.rtc.kind.Offer? {
        assert OfferAt(y'.record.log, e.id, m.rtc.sdp, |y.record.log|);
      }
      if e.id in y.own {
        OfferedStays(y.record.log, ServerHistory.EntryFor(cfg.claimTimeout, y.record.session, h), p, m.rtc.sdp.offer);
      }
    }
  }

  lemma {:induction false} OldMessagePaired(
    cfg: SystemConfig, y: System, now: Time, e: ServerEvent, p: ParticipantId, m: ServerMessage)
    requires Linked(y) && PairedMessage(y, p, m)
    ensures PairedMessage(ServerDoes(cfg, y, now, e), p, m)
  {
    var entry := ServerHistory.EntryFor(cfg.claimTimeout, y.record.session, ServerHistory.Happening(now, e));
    ServerOfServerDoes(cfg, y, now, e);
    IdsOnlyFromJoins(cfg.claimTimeout, ServerOf(y), now, e);
    if m.RtcRelay? {
      if m.rtc.kind.Offer? {
        OfferedStays(y.record.log, entry, m.rtc.sender.value, m.rtc.sdp);
      }
      if m.rtc.sender.value in y.own {
        OfferedStays(y.record.log, entry, p, m.rtc.sdp.offer);
      }
    }
  }

  lemma {:induction false} ServerStaysPaired(cfg: SystemConfig, y: System, now: Time, e: ServerEvent)
    requires Linked(y) && Paired(y) && Allowed(y, e)
    ensures Paired(ServerDoes(cfg, y, now, e))
  {
    var y', h := ServerDoes(cfg, y, now, e), ServerHistory.Happening(now, e);
    StepGrows(cfg.claimTimeout, ServerOf(y), now, e);
    ServerOfServerDoes(cfg, y, now, e);
    forall p, k | p in y'.boxes && 0 <= k < |y'.boxes[p]| ensures PairedMessage(y', p, y'.boxes[p][k]) {
      if p in y.boxes && k < |y.boxes[p]| && y'.boxes[p][k] == y.boxes[p][k] {
        OldMessagePaired(cfg, y, now, e, p, y.boxes[p][k]);
      } else {
        assert Sendable(ServerOf(y), y'.record.session, e, p, y'.boxes[p][k]);
        ServerPairsMessage(cfg, y, now, e, p, y'.boxes[p][k]);
      }
    }
    forall k | 0 <= k < |y'.uplink| ensures PairedAnswer(y'.record.log, y'.uplink[k]) {
      assert PairedAnswer(y.record.log, y.uplink[k]);
      OfferedStays(y.record.log, ServerHistory.EntryFor(cfg.claimTimeout, y.record.session, h),
                   y.uplink[k].to.value, y.uplink[k].sdp.offer);
    }
  }

  /** A new own connection has sent nothing yet, so nothing in any inbox comes from it. */
  lemma {:induction false} ConnectStaysPaired(cfg: SystemConfig, y: System, now: Time)
    requires Linked(y) && Paired(y)
    ensures var id := y.record.session.nextId;
            Paired(ServerDoes(cfg, y, now, Joins(FOLLOWER)).(conn := Some(id), own := y.own + {id}, uplink := []))
  {
    var id := y.record.session.nextId;
    var y1 := ServerDoes(cfg, y, now, Joins(FOLLOWER));
    var y' := y1.(conn := Some(id), own := y.own + {id}, uplink := []);
    ServerStaysPaired(cfg, y, now, Joins(FOLLOWER));
    StepGrows(cfg.claimTimeout, ServerOf(y), now, Joins(FOLLOWER));
    ServerOfServerDoes(cfg, y, now, Joins(FOLLOWER));
    forall p, k | p in y'.boxes && 0 <= k < |y'.boxes[p]| ensures PairedMessage(y', p, y'.boxes[p][k]) {
      assert PairedMessage(y1, p, y1.boxes[p][k]);
      if p in y.boxes && k < |y.boxes[p]| && y'.boxes[p][k] == y.boxes[p][k] {
        assert PairedMessage(y, p, y.boxes[p][k]);
      } else {
        assert Sendable(ServerOf(y), y1.record.session, Joins(FOLLOWER), p, y1.boxes[p][k]);
      }
    }
  }

  lemma {:induction false} FollowerStaysPaired(cfg: SystemConfig, y: System, m: Moment, e: Event, p: ParticipantId)
    requires Paired(y) && (e.Signal? ==> PairedMessage(y, p, e.message))
    ensures Paired(FollowerDoes(cfg, y, m, e))
  {
  }

  lemma {:induction false} MailStaysPaired(y: System)
    requires Paired(y) && HasMail(y)
    ensures Paired(MailTaken(y)) && PairedMessage(MailTaken(y), y.conn.value, y.boxes[y.conn.value][0])
  {
  }

  lemma {:induction false} UplinkTailPaired(y: System)
    requires Paired(y) && y.uplink != []
    ensures Paired(y.(uplink := y.uplink[1..]))
  {
  }

  lemma {:induction false} PairedStep(cfg: SystemConfig, y: System, m: Moment)
    requires Linked(y) && Paired(y)
    ensures Paired(SystemStep(cfg, y, m))
  {
    match m.what
    case AtServer(e) => if !(e.Sends? && e.id in y.own) { ServerStaysPaired(cfg, y, m.now, e); }
    case FollowerConnects => ConnectStaysPaired(cfg, y, m.now);
    case FollowerReceives =>
      if HasMail(y) {
        MailStaysPaired(y);
        FollowerStaysPaired(cfg, MailTaken(y), m, Signal(y.boxes[y.conn.value][0]), y.conn.value);
      }
    case UplinkArrives =>
      if y.conn.Some? && y.uplink != [] {
        assert PairedAnswer(y.record.log, y.uplink[0]);
        var y1 := ServerDoes(cfg, y, m.now, Sends(y.conn.value, RtcRequest(y.uplink[0])));
        ServerStaysPaired(cfg, y, m.now, Sends(y.conn.value, RtcRequest(y.uplink[0])));
        UplinkTailPaired(y1);
      }
    case OnDataChannel(msg) => FollowerStaysPaired(cfg, y, m, Peer(msg), 0);
    case WatchdogPolls => FollowerStaysPaired(cfg, y, m, Poll, 0);
  }

  lemma {:induction false} AlwaysPaired(cfg: SystemConfig, tr: seq<Moment>)
    ensures Paired(Ran(cfg, tr))
  {
    if tr == [] {
    } else {
      AlwaysPaired(cfg, tr[..|tr| - 1]);
      OwnershipConvergence(cfg, tr[..|tr| - 1]);
      PairedStep(cfg, Ran(cfg, tr[..|tr| - 1]), tr[|tr| - 1]);
    }
  }

  /** Negotiation pairing: however many participants negotiate and reconnect, whatever the follower
      sends into an inbox is the answer to an offer that this very connection made. */
  lemma {:induction false} NegotiationPairing(cfg: SystemConfig, tr: seq<Moment>, q: ParticipantId, k: nat)
    requires var y := Ran(cfg, tr); q in y.boxes && k < |y.boxes[q]| && y.boxes[q][k].RtcRelay?
    requires var y := Ran(cfg, tr); y.boxes[q][k].rtc.sender.Some? && y.boxes[q][k].rtc.sender.value in y.own
    ensures var y := Ran(cfg, tr);
            var rtc := y.boxes[q][k].rtc;
            rtc.kind.Answer? && rtc.sdp.AnswerTo? && OfferedBy(y.record.log, q, rtc.sdp.offer)
  {
    AlwaysPaired(cfg, tr);
    assert PairedMessage(Ran(cfg, tr), q, Ran(cfg, tr).boxes[q][k]);
  }

  // ------------------------------------------------- every offer is answered, once

  /** Taking an offer queues exactly one answer, addressed to the very participant who made it, behind
      the answers not yet sent; taking anything else queues none. */
  lemma {:induction false} OfferAnswered(cfg: SystemConfig, tr: seq<Moment>, m: Moment)
    requires m.what.FollowerReceives? && HasMail(Ran(cfg, tr))
    ensures var y, y' := Ran(cfg, tr), SystemStep(cfg, Ran(cfg, tr), m);
            var first := y.boxes[y.conn.value][0];
            if first.RtcRelay? && first.rtc.kind.Offer? then
              && |y'.uplink| == |y.uplink| + 1 && y.uplink <= y'.uplink
              && var answer := y'.uplink[|y.uplink|];
                 && answer.kind.Answer? && answer.sdp == AnswerTo(first.rtc.sdp)
                 && answer.to == first.rtc.sender && answer.to.Some?
                 && Some(answer.toRole) == first.rtc.senderRole
                 && answer.sender == None && answer.senderRole == None
                 && OfferedBy(y'.record.log, answer.to.value, first.rtc.sdp)
            else y'.uplink == y.uplink
  {
    AlwaysPaired(cfg, tr);
    var y := Ran(cfg, tr);
    assert PairedMessage(y, y.conn.value, y.boxes[y.conn.value][0]);
  }

  /** The next answer that reaches the server over a living connection goes to its addressee's inbox,
      marked as the follower's, and to no other; if the addressee has left it goes nowhere. */
  lemma {:induction false} AnswerDelivered(cfg: SystemConfig, tr: seq<Moment>, m: Moment)
    requires m.what.UplinkArrives? && Attached(Ran(cfg, tr)) && Ran(cfg, tr).uplink != []
    ensures var y, y' := Ran(cfg, tr), SystemStep(cfg, Ran(cfg, tr), m);
            var answer := y.uplink[0];
            && y'.uplink == y.uplink[1..] && answer.to.Some?
            && var q := answer.to.value;
               if q in y.record.session.participants then
                 && q in y.boxes
                 && y'.boxes == y.boxes[q := y.boxes[q] + [RtcRelay(Stamped(answer, y.conn.value, Follower))]]
               else y'.boxes == y.boxes
  {
    AlwaysPaired(cfg, tr);
    OwnershipConvergence(cfg, tr);
    var y := Ran(cfg, tr);
    assert PairedAnswer(y.record.log, y.uplink[0]);
  }

  /** The follower's answers from step lo on. */
  function Answers(log: seq<Entry>, lo: nat): seq<Rtc> {
    if |log| <= lo then [] else Answers(log[..|log| - 1], lo) + Listed(log[|log| - 1].outcome.answer)
  }

  /** A negotiation message that reaches the server on connection p. The server takes it if it still
      holds that connection, and otherwise it is lost. */
  function HandedAt(e: ServerHistory.Entry, p: ParticipantId, held: bool): seq<Rtc> {
    match e.event
    case Sends(id, RtcRequest(rtc)) => if id == p && (p in e.before.participants <==> held) then [rtc] else []
    case _ => []
  }

  /** What the server took from p, or what was lost, from entry lo on. */
  function HandedOver(log: seq<ServerHistory.Entry>, lo: nat, p: ParticipantId, held: bool): seq<Rtc> {
    if |log| <= lo then [] else HandedOver(log[..|log| - 1], lo, p, held) + HandedAt(log[|log| - 1], p, held)
  }

  /** Since follower step `lo` and server entry `mo`: what was answered is what the server has taken,
      then what was lost, then what is still on its way; nothing is lost while the server holds the
      follower's connection. */
  predicate Conserves(y: System, lo: nat, mo: nat) {
    && y.conn.Some? && lo <= |y.follower.log| && mo <= |y.record.log|
    && var taken, lost := HandedOver(y.record.log, mo, y.conn.value, true),
                          HandedOver(y.record.log, mo, y.conn.value, false);
       && Answers(y.follower.log, lo) == taken + lost + y.uplink
       && (Attached(y) ==> lost == [])
  }

  lemma {:induction false} HandedStep(cfg: SystemConfig, y: System, now: Time, e: ServerEvent, mo: nat, held: bool)
    requires y.conn.Some? && mo <= |y.record.log|
    ensures var y', p := ServerDoes(cfg, y, now, e), y.conn.value;
            HandedOver(y'.record.log, mo, p, held) ==
            HandedOver(y.record.log, mo, p, held) +
            (match e
             case Sends(id, RtcRequest(rtc)) =>
               if id == p && (p in y.record.session.participants <==> held) then [rtc] else []
             case _ => [])
  {
    var y' := ServerDoes(cfg, y, now, e);
    assert y'.record.log[..|y.record.log|] == y.record.log;
  }

  /** The server never takes a connection back. */
  lemma {:induction false} NeverReattached(cfg: SystemConfig, y: System, now: Time, e: ServerEvent)
    requires Linked(y) && y.conn.Some?
    ensures Attached(ServerDoes(cfg, y, now, e)) ==> Attached(y)
  {
    ServerOfServerDoes(cfg, y, now, e);
    IdsOnlyFromJoins(cfg.claimTimeout, ServerOf(y), now, e);
  }

  lemma {:induction false} FollowerConserves(
    cfg: SystemConfig, y: System, m: Moment, e: Event, lo: nat, mo: nat)
    requires Conserves(y, lo, mo)
    ensures Conserves(FollowerDoes(cfg, y, m, e), lo, mo)
  {
    var y' := FollowerDoes(cfg, y, m, e);
    assert y'.follower.log[..|y.follower.log|] == y.follower.log;
  }

  /** From y to y' the next answer has been taken if the connection lived, and lost if not. */
  predicate Pops(y: System, y': System, mo: nat)
    requires y.conn.Some? && y.uplink != []
  {
    var p := y.conn.value;
    && y'.uplink == y.uplink[1..] && y'.conn == y.conn && y'.follower == y.follower
    && mo <= |y'.record.log| && (Attached(y') ==> Attached(y))
    && HandedOver(y'.record.log, mo, p, true) ==
       HandedOver(y.record.log, mo, p, true) + (if Attached(y) then [y.uplink[0]] else [])
    && HandedOver(y'.record.log, mo, p, false) ==
       HandedOver(y.record.log, mo, p, false) + (if Attached(y) then [] else [y.uplink[0]])
  }

  lemma {:induction false} UplinkPops(cfg: SystemConfig, y: System, m: Moment, mo: nat)
    requires Linked(y) && m.what.UplinkArrives? && y.conn.Some? && y.uplink != [] && mo <= |y.record.log|
    ensures Pops(y, SystemStep(cfg, y, m), mo)
  {
    var e := Sends(y.conn.value, RtcRequest(y.uplink[0]));
    HandedStep(cfg, y, m.now, e, mo, true);
    HandedStep(cfg, y, m.now, e, mo, false);
    NeverReattached(cfg, y, m.now, e);
  }

  /** Taking the first element of the last of three sequences to the end of one before it. */
  lemma {:induction false} MoveFirst<T>(taken: seq<T>, lost: seq<T>, rest: seq<T>)
    requires rest != []
    ensures taken + (lost + [rest[0]]) + rest[1..] == taken + lost + rest
    ensures lost == [] ==> (taken + [rest[0]]) + (lost + []) + rest[1..] == taken + lost + rest
  {
    assert rest == [rest[0]] + rest[1..];
  }

  lemma {:induction false} PopConserves(y: System, y': System, lo: nat, mo: nat)
    requires Conserves(y, lo, mo) && y.uplink != [] && Pops(y, y', mo)
    ensures Conserves(y', lo, mo)
  {
    MoveFirst(HandedOver(y.record.log, mo, y.conn.value, true), HandedOver(y.record.log, mo, y.conn.value, false),
              y.uplink);
  }

  lemma {:induction false} UplinkConserves(cfg: SystemConfig, y: System, m: Moment, lo: nat, mo: nat)
    requires Linked(y) && Conserves(y, lo, mo) && m.what.UplinkArrives?
    ensures Conserves(SystemStep(cfg, y, m), lo, mo)
  {
    if y.uplink != [] {
      UplinkPops(cfg, y, m, mo);
      PopConserves(y, SystemStep(cfg, y, m), lo, mo);
    }
  }

  /** Nobody else uses the follower's connection. */
  lemma {:induction false} OthersHandNothing(cfg: SystemConfig, y: System, now: Time, e: ServerEvent, mo: nat)
    requires Linked(y) && y.conn.Some? && mo <= |y.record.log| && !(e.Sends? && e.id in y.own)
    ensures var y', p := ServerDoes(cfg, y, now, e), y.conn.value;
            && mo <= |y'.record.log| && (Attached(y') ==> Attached(y))
            && HandedOver(y'.record.log, mo, p, true) == HandedOver(y.record.log, mo, p, true)
            && HandedOver(y'.record.log, mo, p, false) == HandedOver(y.record.log, mo, p, false)
  {
    HandedStep(cfg, y, now, e, mo, true);
    HandedStep(cfg, y, now, e, mo, false);
    NeverReattached(cfg, y, now, e);
  }

  lemma {:induction false} OthersConserve(cfg: SystemConfig, y: System, m: Moment, lo: nat, mo: nat)
    requires Linked(y) && Conserves(y, lo, mo) && m.what.AtServer?
    ensures Conserves(SystemStep(cfg, y, m), lo, mo)
  {
    if !(m.what.event.Sends? && m.what.event.id in y.own) {
      OthersHandNothing(cfg, y, m.now, m.what.event, mo);
    }
  }

  lemma {:induction false} ConservesStep(cfg: SystemConfig, y: System, m: Moment, lo: nat, mo: nat)
    requires Linked(y) && Conserves(y, lo, mo) && !m.what.FollowerConnects?
    ensures Conserves(SystemStep(cfg, y, m), lo, mo)
  {
    match m.what
    case AtServer(_) => OthersConserve(cfg, y, m, lo, mo);
    case FollowerReceives =>
      if HasMail(y) {
        FollowerConserves(cfg, MailTaken(y), m, Signal(y.boxes[y.conn.value][0]), lo, mo);
      }
    case UplinkArrives => UplinkConserves(cfg, y, m, lo, mo);
    case OnDataChannel(msg) => FollowerConserves(cfg, y, m, Peer(msg), lo, mo);
    case WatchdogPolls => FollowerConserves(cfg, y, m, Poll, lo, mo);
  }

  lemma {:induction false} ConservesNext(cfg: SystemConfig, tr: seq<Moment>, n: nat, lo: nat, mo: nat)
    requires |tr| == n + 1 && Conserves(Ran(cfg, tr[..n]), lo, mo) && !tr[n].what.FollowerConnects?
    ensures Conserves(Ran(cfg, tr), lo, mo)
  {
    OwnershipConvergence(cfg, tr[..n]);
    ConservesStep(cfg, Ran(cfg, tr[..n]), tr[n], lo, mo);
  }

  /** Counted from the moment j at which the follower connected. */
  predicate ConservedSince(cfg: SystemConfig, tr: seq<Moment>, j: nat)
    requires j < |tr|
  {
    Conserves(Ran(cfg, tr), |Ran(cfg, tr[..j]).follower.log|, |Ran(cfg, tr[..j + 1]).record.log|)
  }

  lemma {:induction false} ConservedFirst(cfg: SystemConfig, tr: seq<Moment>, j: nat)
    requires |tr| == j + 1 && tr[j].what.FollowerConnects?
    ensures ConservedSince(cfg, tr, j)
  {
    assert tr[..j + 1] == tr;
  }

  lemma {:induction false} ConservedNext(cfg: SystemConfig, tr: seq<Moment>, j: nat, n: nat)
    requires j < n && |tr| == n + 1 && ConservedSince(cfg, tr[..n], j) && !tr[n].what.FollowerConnects?
    ensures ConservedSince(cfg, tr, j)
  {
    assert tr[..n][..j] == tr[..j] && tr[..n][..j + 1] == tr[..j + 1];
    ConservesNext(cfg, tr, n, |Ran(cfg, tr[..j]).follower.log|, |Ran(cfg, tr[..j + 1]).record.log|);
  }

  /** Answers are conserved: from the moment j at which the follower connected, as long as it does not
      connect again, the answers it has made are, in order and each once, those that the server has
      taken from this connection, those lost because the server had dropped it, and those on their way;
      so over a living connection none is lost. */
  lemma {:induction false} AnswersConserved(cfg: SystemConfig, tr: seq<Moment>, j: nat)
    requires j < |tr| && tr[j].what.FollowerConnects?
    requires forall k | j < k < |tr| :: !tr[k].what.FollowerConnects?
    ensures ConservedSince(cfg, tr, j)
  {
    var n := |tr| - 1;
    if j == n {
      ConservedFirst(cfg, tr, j);
    } else {
      AnswersConserved(cfg, tr[..n], j);
      ConservedNext(cfg, tr, j, n);
    }
  }
}
