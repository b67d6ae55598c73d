/**
 * internal/bus/redis.go: the reader counts a confirmation and then pokes; the waiter checks the count
 * and then parks. Neither ever blocks the other, and no poke is missed in between.
 */
module AckWait {

  datatype Waiter = Checking | Parked | Through

  datatype State = State(
    want: nat,
    coming: nat,      // confirmations still to arrive for the chunk in flight
    acks: nat,
    poking: bool,     // the reader is between its Add and its non-blocking send
    token: bool,      // the capacity-1 ackWake channel holds a token
    waiter: Waiter)

  datatype Event = Count | Poke | Check | Wake

  predicate Enabled(st: State, e: Event) {
    match e
    case Count => st.coming > 0 && !st.poking
    case Poke => st.poking
    case Check => st.waiter.Checking?
    case Wake => st.waiter.Parked? && st.token
  }

  function Do(st: State, e: Event): State
    requires Enabled(st, e)
  {
    match e
    case Count => st.(coming := st.coming - 1, acks := st.acks + 1, poking := true)
    case Poke => st.(poking := false, token := true)
    case Check => st.(waiter := if st.acks >= st.want then Through else Parked)
    case Wake => st.(token := false, waiter := Checking)
  }

  /** A waiter never sleeps over a full count, unless a poke is waiting for it or on its way. */
  predicate Inv(st: State) {
    && st.acks + st.coming == st.want
    && (st.waiter.Parked? && st.acks >= st.want ==> st.token || st.poking)
    && (st.waiter.Through? ==> st.acks == st.want)
  }

  /** issue zeroed the count, sent the chunk, and calls waitAcks; a token of an earlier chunk may linger. */
  function Start(want: nat, stale: bool): State {
    State(want, want, 0, false, stale, Checking)
  }

  ghost predicate Runs(st: State, run: seq<Event>, fin: State)
    decreases |run|
  {
    if run == [] then fin == st
    else Enabled(st, run[0]) && Runs(Do(st, run[0]), run[1..], fin)
  }

  /** An upper bound on the steps left. */
  function Work(st: State): nat {
    5 * st.coming + (if st.poking then 4 else 0) + (if st.token then 3 else 0)
    + (match st.waiter case Checking => 2 case Parked => 1 case Through => 0)
  }

  lemma {:induction false} RunEnds(st: State, run: seq<Event>, fin: State)
    requires Inv(st) && Runs(st, run, fin)
    ensures Inv(fin) && fin.want == st.want && |run| + Work(fin) <= Work(st)
    decreases |run|
  {
    if run != [] {
      RunEnds(Do(st, run[0]), run[1..], fin);
    }
  }

  /**
   * Where every name of the chunk is confirmed, the waiter gets through: every schedule of reader and
   * waiter ends, and only with the waiter through and the count exactly the chunk's size.
   */
  lemma WaiterGetsThrough(want: nat, stale: bool, run: seq<Event>, fin: State)
    requires Runs(Start(want, stale), run, fin)
    ensures |run| <= 5 * want + 5
    ensures (forall e :: !Enabled(fin, e)) ==> fin.waiter.Through? && fin.acks == want
  {
    RunEnds(Start(want, stale), run, fin);
    if forall e :: !Enabled(fin, e) {
      assert !Enabled(fin, Count) && !Enabled(fin, Poke) && !Enabled(fin, Check) && !Enabled(fin, Wake);
    }
  }
}
