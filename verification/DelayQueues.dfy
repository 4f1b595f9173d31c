/** tokio's `DelayQueue`: timers under keys that are free to be reused once a timer is gone. */
module DelayQueues {
  import opened Common

  type TimerKey = nat

  datatype Timer<+T> = Timer(item: T, deadline: Instant)

  type DelayQueue<T> = map<TimerKey, Timer<T>>

  /** The queue may hand out any key not in use. */
  lemma {:induction false} FreshKeyExists<T>(q: DelayQueue<T>) returns (k: TimerKey)
    ensures k !in q
  {
    k := UpperBound(q.Keys);
  }

  lemma {:induction false} UpperBound(s: set<nat>) returns (b: nat)
    ensures forall x :: x in s ==> x < b
    decreases s
  {
    b := 0;
    if s != {} {
      var y :| y in s;
      assert s == (s - {y}) + {y};
      b := UpperBound(s - {y});
      if b <= y {
        b := y + 1;
      }
    }
  }
}
