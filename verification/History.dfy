/** "Since" over a log: something started and has not been ended by a later entry. */
module History {

  /** Entry i starts it and no later entry ends it. */
  ghost predicate SinceAt<E(!new)>(log: seq<E>, starts: E -> bool, ends: E -> bool, i: int) {
    0 <= i < |log| && starts(log[i]) && forall j | i < j < |log| :: !ends(log[j])
  }

  ghost predicate Since<E(!new)>(log: seq<E>, starts: E -> bool, ends: E -> bool) {
    exists i :: SinceAt(log, starts, ends, i)
  }

  lemma {:induction false} SinceExtends<E(!new)>(log: seq<E>, e: E, starts: E -> bool, ends: E -> bool)
    ensures Since(log + [e], starts, ends) <==> starts(e) || (Since(log, starts, ends) && !ends(e))
  {
    var log' := log + [e];
    if starts(e) {
      assert SinceAt(log', starts, ends, |log|);
    } else if Since(log, starts, ends) && !ends(e) {
      var i :| SinceAt(log, starts, ends, i);
      assert SinceAt(log', starts, ends, i);
    } else if Since(log', starts, ends) {
      var i :| SinceAt(log', starts, ends, i);
      assert i < |log| ==> log'[i] == log[i] && !ends(log'[|log|]);
      forall j | i < j < |log| ensures !ends(log[j]) {
        assert log'[j] == log[j];
      }
      assert SinceAt(log, starts, ends, i);
    }
  }
}
