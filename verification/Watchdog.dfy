/** shared/gateway_common/teleop_gateway_common/watchdog.py: a timeout that calls back once per
    trip. `Poll` is one turn of the background loop. */
module Watchdog {
  import opened Protocol

  datatype Dog = Dog(lastFeed: Option<Time>, tripped: bool)

  const INITIAL := Dog(None, false)

  function Fed(now: Time): Dog { Dog(Some(now), false) }

  predicate Overdue(d: Dog, timeout: Time, now: Time) {
    d.lastFeed.Some? && now - d.lastFeed.value > timeout
  }

  function Checked(d: Dog, timeout: Time, now: Time): Dog {
    d.(tripped := d.tripped || Overdue(d, timeout, now))
  }

  /** Whether polling at `now` invokes the timeout callback. */
  predicate Fires(d: Dog, timeout: Time, now: Time) {
    !d.tripped && Overdue(d, timeout, now)
  }

  class WatchdogTimer {
    const timeout: Time
    var lastFeed: Option<Time>
    var tripped: bool

    function View(): Dog
      reads this
    {
      Dog(lastFeed, tripped)
    }

    constructor (timeout: Time)
      ensures this.timeout == timeout && View() == INITIAL
    {
      this.timeout := timeout;
      lastFeed, tripped := None, false;
    }

    method Feed(now: Time)
      modifies this
      ensures View() == Fed(now)
    {
      lastFeed, tripped := Some(now), false;
    }

    method Disarm()
      modifies this
      ensures View() == INITIAL
    {
      lastFeed, tripped := None, false;
    }

    method Check(now: Time) returns (isTripped: bool)
      modifies this
      ensures View() == Checked(old(View()), timeout, now) && isTripped == tripped
    {
      if lastFeed.Some? && now - lastFeed.value > timeout {
        tripped := true;
      }
      return tripped;
    }

    method Poll(now: Time) returns (fired: bool)
      modifies this
      ensures View() == Checked(old(View()), timeout, now)
      ensures fired <==> Fires(old(View()), timeout, now)
    {
      var wasTripped := tripped;
      var isTripped := Check(now);
      return isTripped && !wasTripped;
    }
  }

  // ------------------------------------------------- any interleaving of feed, disarm and poll

  datatype Op = Feed(now: Time) | Disarm | Poll(now: Time)

  function After(timeout: Time, ops: seq<Op>, n: nat): Dog
    requires n <= |ops|
  {
    if n == 0 then INITIAL
    else
      var d := After(timeout, ops, n - 1);
      match ops[n - 1]
      case Feed(now) => Fed(now)
      case Disarm => INITIAL
      case Poll(now) => Checked(d, timeout, now)
  }

  /** Operation i is a poll that invokes the callback. */
  predicate Callback(timeout: Time, ops: seq<Op>, i: nat)
    requires i < |ops|
  {
    ops[i].Poll? && Fires(After(timeout, ops, i), timeout, ops[i].now)
  }

  /** Operation k is the feed that the watchdog is counting from when operation n comes. */
  predicate CountsFrom(ops: seq<Op>, k: nat, n: nat)
    requires n <= |ops|
  {
    k < n && ops[k].Feed? && forall m | k < m < n :: ops[m].Poll?
  }

  /** The feed that is being counted from, or -1, and what it says of the watchdog's fields. */
  lemma {:induction false} Track(timeout: Time, ops: seq<Op>, n: nat) returns (k: int)
    requires n <= |ops|
    ensures -1 <= k < n
    ensures k == -1 ==> After(timeout, ops, n) == INITIAL
    ensures k >= 0 ==> CountsFrom(ops, k, n) && After(timeout, ops, n).lastFeed == Some(ops[k].now)
    ensures k >= 0 ==> (After(timeout, ops, n).tripped <==> exists m | k < m < n :: Callback(timeout, ops, m))
    ensures forall j: nat | j < n :: CountsFrom(ops, j, n) ==> j == k
  {
    if n == 0 {
      k := -1;
    } else {
      k := Track(timeout, ops, n - 1);
      match ops[n - 1]
      case Feed(_) => k := n - 1;
      case Disarm => k := -1;
      case Poll(_) =>
        assert Callback(timeout, ops, n - 1) <==> Fires(After(timeout, ops, n - 1), timeout, ops[n - 1].now);
        forall j: nat | j < n && CountsFrom(ops, j, n) ensures j == k {
          assert CountsFrom(ops, j, n - 1);
        }
    }
  }

  /** Exactly which polls call back: the first one that finds the last feed, not disarmed since,
      to be more than the timeout ago. */
  lemma {:induction false} CallbackIff(timeout: Time, ops: seq<Op>, n: nat)
    requires n < |ops|
    ensures Callback(timeout, ops, n) <==>
            && ops[n].Poll?
            && exists k: nat | k < n ::
                 && CountsFrom(ops, k, n)
                 && ops[n].now - ops[k].now > timeout
                 && forall m: nat | k < m < n :: !Callback(timeout, ops, m)
  {
    var k := Track(timeout, ops, n);
  }

  /** Two callbacks always have a feed between them. */
  lemma {:induction false} FeedBetweenCallbacks(timeout: Time, ops: seq<Op>, i: nat, j: nat)
    requires i < j < |ops| && Callback(timeout, ops, i) && Callback(timeout, ops, j)
    ensures exists k | i < k < j :: ops[k].Feed?
  {
    CallbackIff(timeout, ops, j);
    var k: nat :| k < j && CountsFrom(ops, k, j) && forall m: nat | k < m < j :: !Callback(timeout, ops, m);
    assert i < k;
  }

  function Feeds(ops: seq<Op>, n: nat): nat
    requires n <= |ops|
  {
    if n == 0 then 0 else Feeds(ops, n - 1) + if ops[n - 1].Feed? then 1 else 0
  }

  function Callbacks(timeout: Time, ops: seq<Op>, n: nat): nat
    requires n <= |ops|
  {
    if n == 0 then 0 else Callbacks(timeout, ops, n - 1) + if Callback(timeout, ops, n - 1) then 1 else 0
  }

  /** Callbacks never outnumber feeds, and a watchdog that could still trip has a feed to spare. */
  lemma {:induction false} CallbacksWithinFeeds(timeout: Time, ops: seq<Op>, n: nat)
    requires n <= |ops|
    ensures var d := After(timeout, ops, n);
            Callbacks(timeout, ops, n) + (if d.lastFeed.Some? && !d.tripped then 1 else 0) <= Feeds(ops, n)
  {
    if n == 0 {
    } else {
      CallbacksWithinFeeds(timeout, ops, n - 1);
    }
  }
}
