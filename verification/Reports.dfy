/** What the participants of a system run have been told about the session. */
module Reports {
  import opened Protocol
  import opened SessionManager
  import opened Signaling
  import opened Delivery
  import opened FollowerGateway
  import opened GatewayRun
  import opened TeleopSystem
  import opened SystemSafety
  import ServerHistory
  import History

  /** The last report among what the follower has taken. */
  function Heard(log: seq<Entry>): Option<Report> {
    if log == [] then None
    else
      var heard := Heard(log[..|log| - 1]);
      match log[|log| - 1].at.event
      case Signal(m) => ReportAfter(heard, m)
      case _ => heard
  }

  /** The follower over a living connection, and every other participant, whose inbox holds all that it
      was ever sent, has the session as it is for the last report. */
  predicate AllUpToDate(y: System) {
    && (Attached(y) ==> UpToDate(ServerOf(y), y.conn.value, Heard(y.follower.log)))
    && forall p | p in y.record.session.participants && p !in y.own :: UpToDate(ServerOf(y), p, None)
  }

  lemma {:induction false} ServerReports(cfg: SystemConfig, y: System, now: Time, e: ServerEvent)
    requires Linked(y) && AllUpToDate(y)
    ensures AllUpToDate(ServerDoes(cfg, y, now, e))
  {
    var y' := ServerDoes(cfg, y, now, e);
    ServerOfServerDoes(cfg, y, now, e);
    IdsOnlyFromJoins(cfg.claimTimeout, ServerOf(y), now, e);
    if Attached(y') {
      StepReports(cfg.claimTimeout, ServerOf(y), now, e, y.conn.value, Heard(y.follower.log));
    }
    forall p | p in y'.record.session.participants && p !in y.own ensures UpToDate(ServerOf(y'), p, None) {
      StepReports(cfg.claimTimeout, ServerOf(y), now, e, p, None);
    }
  }

  lemma {:induction false} ConnectReports(cfg: SystemConfig, y: System, m: Moment)
    requires Linked(y) && AllUpToDate(y) && m.what.FollowerConnects?
    ensures AllUpToDate(SystemStep(cfg, y, m))
  {
    var id := y.record.session.nextId;
    ServerReports(cfg, y, m.now, Joins(FOLLOWER));
    ServerOfServerDoes(cfg, y, m.now, Joins(FOLLOWER));
    StepReports(cfg.claimTimeout, ServerOf(y), m.now, Joins(FOLLOWER), id, Heard(y.follower.log));
  }

  lemma {:induction false} HeardNext(log: seq<Entry>, e: Entry)
    ensures Heard(log + [e]) ==
            match e.at.event
            case Signal(m) => ReportAfter(Heard(log), m)
            case _ => Heard(log)
  {
    assert (log + [e])[..|log|] == log;
  }

  lemma {:induction false} FollowerReports(cfg: SystemConfig, y: System, m: Moment)
    requires Linked(y) && AllUpToDate(y) && (m.what.FollowerReceives? || m.what.OnDataChannel? || m.what.WatchdogPolls?)
    ensures AllUpToDate(SystemStep(cfg, y, m))
  {
    match m.what
    case FollowerReceives =>
      if HasMail(y) {
        var first := y.boxes[y.conn.value][0];
        FoldedFirst(ReportAfter, Heard(y.follower.log), y.boxes[y.conn.value]);
        HeardNext(y.follower.log, EntryOf(cfg.gateway, y.follower, Timed(m.now, m.wall, Signal(first))));
      }
    case OnDataChannel(msg) =>
      HeardNext(y.follower.log, EntryOf(cfg.gateway, y.follower, Timed(m.now, m.wall, Peer(msg))));
    case WatchdogPolls =>
      HeardNext(y.follower.log, EntryOf(cfg.gateway, y.follower, Timed(m.now, m.wall, Poll)));
  }

  lemma {:induction false} UplinkReports(cfg: SystemConfig, y: System, m: Moment)
    requires Linked(y) && AllUpToDate(y) && (m.what.AtServer? || m.what.UplinkArrives?)
    ensures AllUpToDate(SystemStep(cfg, y, m))
  {
    var e := ServerEventOf(y, m);
    if e.Some? {
      ServerReports(cfg, y, m.now, e.value);
    }
  }

  /** Report convergence: in every reachable state everybody's messages end with the session's present
      state and owner. */
  lemma {:induction false} ReportConvergence(cfg: SystemConfig, tr: seq<Moment>)
    ensures AllUpToDate(Ran(cfg, tr))
  {
    if tr == [] {
    } else {
      var n := |tr| - 1;
      var y, m := Ran(cfg, tr[..n]), tr[n];
      ReportConvergence(cfg, tr[..n]);
      OwnershipConvergence(cfg, tr[..n]);
      match m.what
      case FollowerConnects => ConnectReports(cfg, y, m);
      case AtServer(_) => UplinkReports(cfg, y, m);
      case UplinkArrives => UplinkReports(cfg, y, m);
      case _ => FollowerReports(cfg, y, m);
    }
  }

  /** So everybody can tell from their own messages whether the session is ready: exactly if no stop and
      no grant stands and both a follower and an operator have joined and not left. */
  lemma {:induction false} ReadyIsTold(cfg: SystemConfig, tr: seq<Moment>, p: ParticipantId)
    requires p in Ran(cfg, tr).record.session.participants && p !in Ran(cfg, tr).own
    ensures p in Ran(cfg, tr).boxes
    ensures var y := Ran(cfg, tr);
            var told := LastReport(None, y.boxes[p]);
            && told.Some?
            && (told.value.state.Ready? <==>
                  && !ServerHistory.StoppedSince(y.record.log) && !ServerHistory.OwnedSince(y.record.log)
                  && ServerHistory.RolePresent(y.record.log, Follower)
                  && ServerHistory.RolePresent(y.record.log, Operator))
            && (forall op :: told.value.owner == Some(op) <==>
                  History.Since(y.record.log, ServerHistory.GrantTo(op), ServerHistory.LosesOwner))
  {
    ReportConvergence(cfg, tr);
    ServerRun(cfg, tr);
    ServerHistory.ReportIff(cfg.claimTimeout, ServerTrace(cfg, tr));
    forall op: OperatorId {
      ServerHistory.OwnedIff(cfg.claimTimeout, ServerTrace(cfg, tr), op);
    }
  }
}
