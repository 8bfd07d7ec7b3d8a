/** services/leader-gateway/leader_gateway/state_publisher.py, and its numbered stream carried to
    the follower over a channel that may lose, reorder and duplicate packets. */
module LeaderStream {
  import opened Protocol
  import opened FollowerGateway
  import opened GatewayRun
  import opened GatewayHistory
  import Arm
  import StateMachine

  /** The local leader arm: its joint sample, if any arrived yet, and its command state. */
  datatype Sample = Sample(positions: Option<seq<real>>, closing: bool, enabled: bool, clutched: bool, stamp: Time)

  function PacketFor(operator: OperatorId, seqno: int, s: Sample): Message {
    Message(PROTOCOL_VERSION, s.stamp, seqno,
            LeaderState(operator,
                        if s.positions.Some? then s.positions.value else [],
                        if s.closing then 1.0 else 0.0,
                        s.enabled, s.clutched))
  }

  /** What a packet says of the sample it was made from, field by field. */
  predicate Carries(packet: Message, operator: OperatorId, seqno: int, s: Sample) {
    && packet.version == PROTOCOL_VERSION && packet.seqno == seqno && packet.timestamp == s.stamp
    && packet.body.LeaderState? && packet.body.operator == operator
    && (s.positions == None ==> packet.body.joints == [])
    && (s.positions.Some? ==> packet.body.joints == s.positions.value)
    && packet.body.level == (if s.closing then 1.0 else 0.0)
    && (packet.body.enabled <==> s.enabled) && (packet.body.clutched <==> s.clutched)
  }

  class LeaderStatePublisher {
    const operator: OperatorId
    var seqno: nat
    ghost var published: seq<Message>

    /** The k-th packet published carries number k, counting from one. */
    ghost predicate Valid()
      reads this
    {
      seqno == |published| && forall k | 0 <= k < |published| :: published[k].seqno == k + 1
    }

    constructor (operator: OperatorId)
      ensures Valid() && this.operator == operator && published == []
    {
      this.operator, seqno, published := operator, 0, [];
    }

    method NextLeaderState(s: Sample) returns (packet: Message)
      requires Valid()
      modifies this
      ensures Valid() && published == old(published) + [packet]
      ensures packet == PacketFor(operator, |old(published)| + 1, s)
      ensures Carries(packet, operator, |published|, s)
    {
      seqno := seqno + 1;
      var gripper := if s.closing then 1.0 else 0.0;
      var joints := match s.positions case Some(p) => p case None => [];
      packet := Message(PROTOCOL_VERSION, s.stamp, seqno,
                        LeaderState(operator, joints, gripper, s.enabled, s.clutched));
      published := published + [packet];
    }
  }

  // ------------------------------------------------- publisher, channel and gateway together

  /** Publish: the leader sends its next packet. Deliver: any packet sent so far reaches the
      follower, in any order and any number of times; a packet that is never delivered is lost.
      Other: any other gateway step, leader packets in another operator's name included; the model
      assumes only that nobody else numbers packets in this operator's name. */
  datatype StreamEvent =
    | Publish(sample: Sample)
    | Deliver(index: nat, now: Time, wall: Time)
    | Other(step: Timed)

  datatype Stream = Stream(published: seq<Message>, trace: seq<Timed>)

  /** A leader packet in the name of this operator. */
  predicate LeaderPacket(e: Timed, operator: OperatorId) {
    e.event.Peer? && e.event.msg.body.LeaderState? && e.event.msg.body.operator == operator
  }

  function StreamStep(operator: OperatorId, s: Stream, e: StreamEvent): Stream {
    match e
    case Publish(sample) => s.(published := s.published + [PacketFor(operator, |s.published| + 1, sample)])
    case Deliver(k, now, wall) =>
      if k < |s.published| then s.(trace := s.trace + [Timed(now, wall, Peer(s.published[k]))]) else s
    case Other(step) => if LeaderPacket(step, operator) then s else s.(trace := s.trace + [step])
  }

  function Streamed(operator: OperatorId, es: seq<StreamEvent>): Stream {
    if es == [] then Stream([], []) else StreamStep(operator, Streamed(operator, es[..|es| - 1]), es[|es| - 1])
  }

  predicate Sourced(published: seq<Message>, msg: Message) {
    1 <= msg.seqno <= |published| && published[msg.seqno - 1] == msg
  }

  /** Packets are numbered from one, and every packet of this operator's that the follower handled is
      one of them. */
  predicate WellSourced(operator: OperatorId, s: Stream) {
    && (forall k | 0 <= k < |s.published| :: s.published[k].seqno == k + 1)
    && (forall j | 0 <= j < |s.trace| && LeaderPacket(s.trace[j], operator) ::
          Sourced(s.published, s.trace[j].event.msg))
  }

  lemma {:induction false} WellSourcedStep(operator: OperatorId, s: Stream, e: StreamEvent)
    requires WellSourced(operator, s)
    ensures WellSourced(operator, StreamStep(operator, s, e))
  {
  }

  lemma {:induction false} EveryPacketSourced(operator: OperatorId, es: seq<StreamEvent>)
    ensures WellSourced(operator, Streamed(operator, es))
  {
    if es == [] {
    } else {
      EveryPacketSourced(operator, es[..|es| - 1]);
      WellSourcedStep(operator, Streamed(operator, es[..|es| - 1]), es[|es| - 1]);
    }
  }

  /** The samples that the leader has published, in order. */
  function SamplesOf(es: seq<StreamEvent>): seq<Sample> {
    if es == [] then []
    else
      SamplesOf(es[..|es| - 1]) +
      match es[|es| - 1]
      case Publish(sample) => [sample]
      case _ => []
  }

  /** The k-th packet carries the k-th sample. */
  lemma {:induction false} PacketsCarrySamples(operator: OperatorId, es: seq<StreamEvent>)
    ensures var published, samples := Streamed(operator, es).published, SamplesOf(es);
            && |published| == |samples|
            && forall k | 0 <= k < |samples| :: Carries(published[k], operator, k + 1, samples[k])
  {
    if es == [] {
    } else {
      PacketsCarrySamples(operator, es[..|es| - 1]);
    }
  }

  // ------------------------------------------------- what the arm drives, in order

  /** A step that makes the arm drive a packet: of this operator, or of any if none is given. */
  predicate Drives(e: Entry, op: Option<OperatorId>) {
    DrivenAt(e).Some? && e.at.event.Peer? && (op == None || OperatorAt(e) == op)
  }

  /** The sequence numbers of the packets driven by steps lo to hi, in the order of the steps. */
  function DrivenNumbers(log: seq<Entry>, op: Option<OperatorId>, lo: nat, hi: nat): seq<int>
    requires hi <= |log|
  {
    if hi <= lo then []
    else DrivenNumbers(log, op, lo, hi - 1) + if Drives(log[hi - 1], op) then [log[hi - 1].at.event.msg.seqno] else []
  }

  /** The poses driven by steps lo to hi. */
  function DrivenPoses(log: seq<Entry>, op: Option<OperatorId>, lo: nat, hi: nat): seq<seq<real>>
    requires hi <= |log|
  {
    if hi <= lo then []
    else DrivenPoses(log, op, lo, hi - 1) + if Drives(log[hi - 1], op) then [DrivenAt(log[hi - 1]).value] else []
  }

  lemma {:induction false} NumbersComeFromPoses(
    cfg: Config, tr: seq<Timed>, op: Option<OperatorId>, lo: nat, hi: nat, x: int)
    requires hi <= |tr| && x in DrivenNumbers(Execute(cfg, tr).log, op, lo, hi)
    ensures exists i | lo <= i < hi ::
              PoseAt(Execute(cfg, tr).log[i]) && tr[i].event.Peer? && tr[i].event.msg.seqno == x
  {
    DrivenIff(cfg, tr, hi - 1);
    if x in DrivenNumbers(Execute(cfg, tr).log, op, lo, hi - 1) {
      NumbersComeFromPoses(cfg, tr, op, lo, hi - 1, x);
    }
  }

  predicate Increasing(xs: seq<int>) {
    forall a, b | 0 <= a < b < |xs| :: xs[a] < xs[b]
  }

  /** A number driven earlier, with no reset since, is smaller than the number driven now. */
  lemma {:induction false} NextNumberIsGreater(
    cfg: Config, tr: seq<Timed>, op: Option<OperatorId>, lo: nat, hi: nat, x: int)
    requires lo < hi <= |tr|
    requires forall m | lo < m < hi :: !ForgetsAt(Execute(cfg, tr).log[m])
    requires x in DrivenNumbers(Execute(cfg, tr).log, op, lo, hi - 1) && DrivenAt(Execute(cfg, tr).log[hi - 1]).Some?
    ensures Execute(cfg, tr).log[hi - 1].at.event.Peer? && x < Execute(cfg, tr).log[hi - 1].at.event.msg.seqno
  {
    var log := Execute(cfg, tr).log;
    DrivenIff(cfg, tr, hi - 1);
    NumbersComeFromPoses(cfg, tr, op, lo, hi - 1, x);
    var i :| lo <= i < hi - 1 && PoseAt(log[i]) && tr[i].event.Peer? && tr[i].event.msg.seqno == x;
    DrivenIff(cfg, tr, i);
    PosesIncrease(cfg, tr, i, hi - 1);
  }

  lemma {:induction false} NumbersIncrease(cfg: Config, tr: seq<Timed>, op: Option<OperatorId>, lo: nat, hi: nat)
    requires lo <= hi <= |tr|
    requires forall m | lo < m < hi :: !ForgetsAt(Execute(cfg, tr).log[m])
    ensures Increasing(DrivenNumbers(Execute(cfg, tr).log, op, lo, hi))
  {
    if lo == hi {
    } else {
      var log := Execute(cfg, tr).log;
      NumbersIncrease(cfg, tr, op, lo, hi - 1);
      var before := DrivenNumbers(log, op, lo, hi - 1);
      if Drives(log[hi - 1], op) {
        forall a | 0 <= a < |before| ensures before[a] < log[hi - 1].at.event.msg.seqno {
          NextNumberIsGreater(cfg, tr, op, lo, hi, before[a]);
        }
      }
    }
  }

  /** The poses are those of the packets with the listed numbers. */
  predicate PosesOf(published: seq<Message>, numbers: seq<int>, poses: seq<seq<real>>) {
    && |numbers| == |poses|
    && forall a | 0 <= a < |numbers| ::
         && 1 <= numbers[a] <= |published|
         && published[numbers[a] - 1].body.LeaderState?
         && poses[a] == Arm.Targets(published[numbers[a] - 1].body.joints)
  }

  lemma {:induction false} PosesOfAppend(
    published: seq<Message>, numbers: seq<int>, poses: seq<seq<real>>, msg: Message)
    requires PosesOf(published, numbers, poses) && Sourced(published, msg) && msg.body.LeaderState?
    ensures PosesOf(published, numbers + [msg.seqno], poses + [Arm.Targets(msg.body.joints)])
  {
  }

  lemma {:induction false} PosesMatchNumbers(
    cfg: Config, tr: seq<Timed>, op: OperatorId, published: seq<Message>, lo: nat, hi: nat)
    requires hi <= |tr|
    requires forall j | 0 <= j < |tr| :: LeaderPacket(tr[j], op) ==> Sourced(published, tr[j].event.msg)
    ensures var log := Execute(cfg, tr).log;
            PosesOf(published, DrivenNumbers(log, Some(op), lo, hi), DrivenPoses(log, Some(op), lo, hi))
  {
    if hi <= lo {
    } else {
      var log := Execute(cfg, tr).log;
      var numbers, poses := DrivenNumbers(log, Some(op), lo, hi - 1), DrivenPoses(log, Some(op), lo, hi - 1);
      PosesMatchNumbers(cfg, tr, op, published, lo, hi - 1);
      DrivenIff(cfg, tr, hi - 1);
      if Drives(log[hi - 1], Some(op)) {
        PosesOfAppend(published, numbers, poses, tr[hi - 1].event.msg);
      } else {
        assert DrivenNumbers(log, Some(op), lo, hi) == numbers && DrivenPoses(log, Some(op), lo, hi) == poses;
      }
    }
  }

  /** A step drives something exactly if it drives some operator's packet. */
  lemma {:induction false} DrivenIsDriven(cfg: Config, tr: seq<Timed>, j: nat)
    requires j < |tr|
    ensures var e := Execute(cfg, tr).log[j]; DrivenAt(e).Some? <==> Drives(e, None)
  {
    DrivenIff(cfg, tr, j);
  }

  /** If all that is driven is this operator's, nothing is left out by looking at this operator. */
  lemma {:induction false} OnlyOperator(cfg: Config, tr: seq<Timed>, op: OperatorId, lo: nat, hi: nat)
    requires hi <= |tr|
    requires forall j | lo <= j < hi && DrivenAt(Execute(cfg, tr).log[j]).Some? ::
               OperatorAt(Execute(cfg, tr).log[j]) == Some(op)
    ensures var log := Execute(cfg, tr).log; DrivenPoses(log, Some(op), lo, hi) == DrivenPoses(log, None, lo, hi)
  {
    if hi <= lo {
    } else {
      OnlyOperator(cfg, tr, op, lo, hi - 1);
      DrivenIsDriven(cfg, tr, hi - 1);
    }
  }

  /** What is driven is never an empty pose. */
  lemma {:induction false} PosesAreNotEmpty(cfg: Config, tr: seq<Timed>, op: Option<OperatorId>, lo: nat, hi: nat)
    requires hi <= |tr|
    ensures forall a | 0 <= a < |DrivenPoses(Execute(cfg, tr).log, op, lo, hi)| ::
              DrivenPoses(Execute(cfg, tr).log, op, lo, hi)[a] != []
  {
    if hi <= lo {
    } else {
      PosesAreNotEmpty(cfg, tr, op, lo, hi - 1);
      DrivenIff(cfg, tr, hi - 1);
    }
  }

  /** The poses are the positions sampled under the listed numbers, cut to the arm's joints. */
  predicate PosesSampled(samples: seq<Sample>, numbers: seq<int>, poses: seq<seq<real>>) {
    && |numbers| == |poses|
    && forall a | 0 <= a < |numbers| ::
         && 1 <= numbers[a] <= |samples|
         && var s := samples[numbers[a] - 1];
            s.positions.Some? && s.positions.value != [] && poses[a] == Arm.Targets(s.positions.value)
  }

  /** End to end: whatever the channel loses, reorders or duplicates, and whoever else sends packets,
      between two resets of the tracker the arm drives packets in increasing number, and those of this
      operator are a subsequence, in order and without repeats, of the positions the leader sampled; all
      that it drives, unless it drives another operator's packet. */
  lemma {:induction false} EndToEndOrder(cfg: Config, operator: OperatorId, es: seq<StreamEvent>, lo: nat, hi: nat)
    requires var s := Streamed(operator, es);
             && lo <= hi <= |s.trace|
             && forall m | lo < m < hi :: !ForgetsAt(Execute(cfg, s.trace).log[m])
    ensures var s := Streamed(operator, es);
            var log, op := Execute(cfg, s.trace).log, Some(operator);
            && Increasing(DrivenNumbers(log, None, lo, hi)) && Increasing(DrivenNumbers(log, op, lo, hi))
            && PosesOf(s.published, DrivenNumbers(log, op, lo, hi), DrivenPoses(log, op, lo, hi))
            && PosesSampled(SamplesOf(es), DrivenNumbers(log, op, lo, hi), DrivenPoses(log, op, lo, hi))
            && ((forall j | lo <= j < hi && DrivenAt(log[j]).Some? :: OperatorAt(log[j]) == op) ==>
                  DrivenPoses(log, op, lo, hi) == DrivenPoses(log, None, lo, hi))
  {
    var s := Streamed(operator, es);
    EveryPacketSourced(operator, es);
    NumbersIncrease(cfg, s.trace, None, lo, hi);
    NumbersIncrease(cfg, s.trace, Some(operator), lo, hi);
    PosesMatchNumbers(cfg, s.trace, operator, s.published, lo, hi);
    PacketsCarrySamples(operator, es);
    PosesAreNotEmpty(cfg, s.trace, Some(operator), lo, hi);
    var log := Execute(cfg, s.trace).log;
    if forall j | lo <= j < hi && DrivenAt(log[j]).Some? :: OperatorAt(log[j]) == Some(operator) {
      OnlyOperator(cfg, s.trace, operator, lo, hi);
    }
  }

  lemma {:induction false} PoseCarriesGrip(cfg: Config, r: Run, e: Timed)
    requires PoseAt(EntryOf(cfg, r, e)) && e.event.Peer? && e.event.msg.body.LeaderState?
    ensures var c := EntryOf(cfg, r, e).outcome.command.value;
            && c.gripper == Value(Level(e.event.msg.body.level))
            && c.gripperCommand == Value(if e.event.msg.body.level > 0.5 then CloseGrip else OpenGrip)
  {
  }

  /** Every pose that the follower publishes in this operator's name is a recent sample of theirs, with
      its positions and with the grip closed exactly if the sample was closing. */
  lemma {:induction false} PoseIsSample(cfg: Config, operator: OperatorId, es: seq<StreamEvent>, j: nat)
    returns (k: nat)
    requires var s := Streamed(operator, es);
             && j < |s.trace| && PoseAt(Execute(cfg, s.trace).log[j])
             && OperatorAt(Execute(cfg, s.trace).log[j]) == Some(operator)
    ensures var e, samples := Execute(cfg, Streamed(operator, es).trace).log[j], SamplesOf(es);
            && k < |samples|
            && var sample, c := samples[k], e.outcome.command.value;
               && c.joints == Value(if sample.positions.Some? then sample.positions.value else [])
               && c.gripper == Value(Level(if sample.closing then 1.0 else 0.0))
               && c.gripperCommand == Value(if sample.closing then CloseGrip else OpenGrip)
               && e.at.wall - sample.stamp <= cfg.maxPacketAge
  {
    var tr := Streamed(operator, es).trace;
    EveryPacketSourced(operator, es);
    PacketsCarrySamples(operator, es);
    LogAt(cfg, tr, j);
    TrackerStep(cfg, Execute(cfg, tr[..j]), tr[j]);
    PoseCarriesGrip(cfg, Execute(cfg, tr[..j]), tr[j]);
    k := tr[j].event.msg.seqno - 1;
  }

  lemma {:induction false} PosePermitted(cfg: Config, r: Run, e: Timed)
    requires e.event.Peer? && e.event.msg.body.LeaderState? && e.event.msg.version == PROTOCOL_VERSION
    ensures PoseAt(EntryOf(cfg, r, e)) <==>
            && r.gateway.machine.IsArmed() && r.gateway.machine.owner == Some(e.event.msg.body.operator)
            && e.wall - e.event.msg.timestamp <= cfg.maxPacketAge
            && (r.gateway.leaderSeq == None || r.gateway.leaderSeq.value < e.event.msg.seqno)
  {
  }

  /** And when a sample's packet arrives it does become a pose, exactly if the operator's session is armed
      or clutched, the sample is recent and no later packet was accepted since the tracker was reset; and
      then it moves the arm exactly if the session is armed and the sample has positions. */
  lemma {:induction false} DeliveredIff(
    cfg: Config, operator: OperatorId, es: seq<StreamEvent>, k: nat, now: Time, wall: Time)
    requires k < |SamplesOf(es)|
    ensures k < |Streamed(operator, es).published|
    ensures var s, sample := Streamed(operator, es), SamplesOf(es)[k];
            var r := Execute(cfg, s.trace);
            var entry := EntryOf(cfg, r, Timed(now, wall, Peer(s.published[k])));
            && (PoseAt(entry) <==>
                  && r.gateway.machine.IsArmed() && r.gateway.machine.owner == Some(operator)
                  && wall - sample.stamp <= cfg.maxPacketAge
                  && (r.gateway.leaderSeq == None || r.gateway.leaderSeq.value < k + 1))
            && (DrivenAt(entry) ==
                  if PoseAt(entry) && r.gateway.machine.state.Armed? && sample.positions.Some?
                     && sample.positions.value != []
                  then Some(Arm.Targets(sample.positions.value)) else None)
  {
    PacketsCarrySamples(operator, es);
    var s := Streamed(operator, es);
    var r, e := Execute(cfg, s.trace), Timed(now, wall, Peer(s.published[k]));
    DrivenStep(cfg, r, e);
    PosePermitted(cfg, r, e);
  }

  // ------------------------------------------------- a replay that does get through

  predicate SentBy(e: Timed, op: OperatorId) {
    e.event.Peer? && e.event.msg.version == PROTOCOL_VERSION && !e.event.msg.body.Estop? &&
    !e.event.msg.body.OtherBody? && e.event.msg.body.operator == op
  }

  /** Sequence numbers do not outlive a disable: an operator who disables and enables again makes
      the follower take any of their earlier packets a second time, exactly when the packet is
      still within its age limit. */
  lemma {:induction false} ReplayAcrossDisable(cfg: Config, r: Run, op: OperatorId, off: Timed, on: Timed, again: Timed)
    requires r.gateway.machine == StateMachine.Machine(Armed, Some(op))
    requires SentBy(off, op) && off.event.msg.body.Disable?
    requires SentBy(on, op) && on.event.msg.body.Enable?
    requires SentBy(again, op) && again.event.msg.body.LeaderState?
    ensures var entry := EntryOf(cfg, Extend(cfg, Extend(cfg, r, off), on), again);
            && (PoseAt(entry) <==> again.wall - again.event.msg.timestamp <= cfg.maxPacketAge)
            && (PoseAt(entry) && again.event.msg.body.joints != [] ==>
                  DrivenAt(entry) == Some(Arm.Targets(again.event.msg.body.joints)))
  {
  }
}
