/** shared/protocol/teleop_protocol/validation.py: the checks every actionable message passes. */
module Validation {
  import opened Protocol

  predicate IsStale(timestamp: Time, maxAge: Time, now: Time) {
    now - timestamp > maxAge
  }

  predicate Owns(operator: OperatorId, owner: Option<OperatorId>) {
    owner == Some(operator)
  }

  /** A sequence number is fresh if it is greater than the last accepted one, when there is one. */
  predicate IsFresh(seqno: int, last: Option<int>) {
    last.Some? ==> seqno > last.value
  }

  class SequenceTracker {
    var lastSeq: Option<int>

    constructor ()
      ensures lastSeq == None
    {
      lastSeq := None;
    }

    /** Rejecting leaves the tracker alone: a replay cannot move it. */
    method Accept(seqno: int) returns (ok: bool)
      modifies this
      ensures ok <==> IsFresh(seqno, old(lastSeq))
      ensures lastSeq == if ok then Some(seqno) else old(lastSeq)
    {
      if lastSeq.Some? && seqno <= lastSeq.value {
        return false;
      }
      lastSeq := Some(seqno);
      return true;
    }

    method Reset()
      modifies this
      ensures lastSeq == None
    {
      lastSeq := None;
    }
  }
}
