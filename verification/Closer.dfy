/**
 * internal/hub: handing slow connections to the closer, and what is left of them when Close returns.
 *
 * One job is one call of enqueueClose. Its critical section under closeMu is one step; performing
 * a close is a step of its own, so a close in progress can be overtaken by anything.
 */
module Closer {
  import opened Bytes
  import opened HubSpec

  datatype Job = Job(n: nat, s: Sink)

  datatype Loop = Running(hold: Option<Job>) | Exited

  /** A goroutine inside Hub.Close, by the statement it has reached. */
  datatype Caller = Joining | Joined | Announced | Waiting | Draining(hold: Option<Job>) | Returned

  datatype State = State(
    capacity: nat,
    queue: seq<Job>,
    loop: Loop,
    spawned: set<Job>,        // goroutines registered on h.closers
    inline: set<Job>,         // being closed by the goroutine that enqueued them
    closed: set<Job>,
    callers: map<nat, Caller>,
    reconciling: bool,
    cancelled: bool,
    closeDone: bool,
    early: set<Job>,          // enqueued before closeDone was set
    late: set<Job>)

  datatype Event =
    | Enqueue(j: Job)
    | FinishSpawned(j: Job)
    | FinishInline(j: Job)
    | LoopTake
    | LoopFinish
    | LoopExit
    | ReconcilerExit
    | Cancel(c: nat)
    | Join(c: nat)
    | Announce(c: nat)
    | StartWait(c: nat)
    | EndWait(c: nat)
    | DrainTake(c: nat)
    | DrainFinish(c: nat)
    | Return(c: nat)

  function Start(capacity: nat): State {
    State(capacity, [], Running(None), {}, {}, {}, map[], true, false, false, {}, {})
  }

  predicate At(st: State, c: nat, pc: Caller) { c in st.callers && st.callers[c] == pc }

  predicate Enabled(st: State, e: Event) {
    match e
    case Enqueue(j) => j !in st.early && j !in st.late
    case FinishSpawned(j) => j in st.spawned
    case FinishInline(j) => j in st.inline
    case LoopTake => st.loop == Running(None) && st.queue != []
    case LoopFinish => st.loop.Running? && st.loop.hold.Some?
    case LoopExit => st.loop == Running(None) && st.cancelled
    case ReconcilerExit => st.reconciling && st.cancelled
    case Cancel(c) => c !in st.callers
    case Join(c) => At(st, c, Joining) && st.loop.Exited? && !st.reconciling
    case Announce(c) => At(st, c, Joined)
    case StartWait(c) => At(st, c, Announced)
    case EndWait(c) => At(st, c, Waiting) && st.spawned == {}
    case DrainTake(c) => At(st, c, Draining(None)) && st.queue != []
    case DrainFinish(c) => c in st.callers && st.callers[c].Draining? && st.callers[c].hold.Some?
    case Return(c) => At(st, c, Draining(None)) && st.queue == []
  }

  function Do(st: State, e: Event): State
    requires Enabled(st, e)
  {
    match e
    case Enqueue(j) =>
      if st.closeDone then st.(inline := st.inline + {j}, late := st.late + {j})
      else if |st.queue| < st.capacity then st.(queue := st.queue + [j], early := st.early + {j})
      else st.(spawned := st.spawned + {j}, early := st.early + {j})
    case FinishSpawned(j) => st.(spawned := st.spawned - {j}, closed := st.closed + {j})
    case FinishInline(j) => st.(inline := st.inline - {j}, closed := st.closed + {j})
    case LoopTake => st.(loop := Running(Some(st.queue[0])), queue := st.queue[1..])
    case LoopFinish => st.(loop := Running(None), closed := st.closed + {st.loop.hold.value})
    case LoopExit => st.(loop := Exited)
    case ReconcilerExit => st.(reconciling := false)
    case Cancel(c) => st.(cancelled := true, callers := st.callers[c := Joining])
    case Join(c) => st.(callers := st.callers[c := Joined])
    case Announce(c) => st.(closeDone := true, callers := st.callers[c := Announced])
    case StartWait(c) => st.(callers := st.callers[c := Waiting])
    case EndWait(c) => st.(callers := st.callers[c := Draining(None)])
    case DrainTake(c) => st.(callers := st.callers[c := Draining(Some(st.queue[0]))], queue := st.queue[1..])
    case DrainFinish(c) =>
      st.(closed := st.closed + {st.callers[c].hold.value}, callers := st.callers[c := Draining(None)])
    case Return(c) => st.(callers := st.callers[c := Returned])
  }

  // ---------------------------------------------------------------- where a job is

  datatype Place = InQueue(i: nat) | InLoop | InSpawned | Inline | InDrain(c: nat) | Done

  predicate Is(st: State, j: Job, p: Place) {
    match p
    case InQueue(i) => i < |st.queue| && st.queue[i] == j
    case InLoop => st.loop == Running(Some(j))
    case InSpawned => j in st.spawned
    case Inline => j in st.inline
    case InDrain(c) => At(st, c, Draining(Some(j)))
    case Done => j in st.closed
  }

  /** An enqueued job is in one place. */
  ghost predicate Somewhere(st: State, j: Job) {
    j in st.early || j in st.late ==> exists p :: Is(st, j, p)
  }

  /** A job is in no two places, and only enqueued jobs are anywhere. */
  ghost predicate Once(st: State, j: Job) {
    && (forall p, q :: Is(st, j, p) && Is(st, j, q) ==> p == q)
    && (forall p :: Is(st, j, p) ==> j in st.early || j in st.late)
  }

  predicate Past(pc: Caller) { pc.Announced? || pc.Waiting? || pc.Draining? || pc.Returned? }

  /** What each statement of Close has established. */
  ghost predicate CallersOk(st: State) {
    && (forall c :: c in st.callers ==> st.cancelled)
    && (forall c :: c in st.callers && !st.callers[c].Joining? ==> st.loop.Exited? && !st.reconciling)
    && (forall c :: c in st.callers && Past(st.callers[c]) ==> st.closeDone)
    && (forall c :: c in st.callers && (st.callers[c].Draining? || st.callers[c].Returned?) ==> st.spawned == {})
    && (forall c :: c in st.callers && st.callers[c].Returned? ==> st.queue == [])
    && (st.closeDone ==> exists c :: c in st.callers && Past(st.callers[c]))
  }

  ghost predicate Inv(st: State) {
    && CallersOk(st)
    && (forall j :: Somewhere(st, j))
    && (forall j :: Once(st, j))
    && (forall j :: j in st.late ==> j in st.inline || j in st.closed)
    && st.inline <= st.late
    && st.early !! st.late
    && (st.late != {} ==> st.closeDone)
  }

  // ---------------------------------------------------------------- every step keeps it

  /** Where a job is after a step, for a job that was at `p`. */
  function Moved(st: State, e: Event, j: Job, p: Place): Place
    requires Enabled(st, e)
  {
    match e
    case FinishSpawned(k) => if j == k && p.InSpawned? then Done else p
    case FinishInline(k) => if j == k && p.Inline? then Done else p
    case LoopTake => if p.InQueue? then (if p.i == 0 then InLoop else InQueue(p.i - 1)) else p
    case LoopFinish => if p.InLoop? then Done else p
    case DrainTake(c) => if p.InQueue? then (if p.i == 0 then InDrain(c) else InQueue(p.i - 1)) else p
    case DrainFinish(c) => if p == InDrain(c) then Done else p
    case _ => p
  }

  /** Where Enqueue puts a job. */
  function Placed(st: State): Place {
    if st.closeDone then Inline else if |st.queue| < st.capacity then InQueue(|st.queue|) else InSpawned
  }

  lemma Stays(st: State, e: Event, j: Job, p: Place)
    requires Enabled(st, e) && Is(st, j, p)
    ensures Is(Do(st, e), j, Moved(st, e, j, p))
  {}

  lemma KeepsSomewhere(st: State, e: Event, j: Job)
    requires Enabled(st, e) && Somewhere(st, j)
    ensures Somewhere(Do(st, e), j)
  {
    if j in st.early || j in st.late {
      var p :| Is(st, j, p);
      Stays(st, e, j, p);
    } else if e == Enqueue(j) {
      assert Is(Do(st, e), j, Placed(st));
    }
  }

  /** A job found after a step was put there, or was one step away before it. */
  lemma CameFrom(st: State, e: Event, j: Job, q: Place) returns (p: Place)
    requires Enabled(st, e) && Is(Do(st, e), j, q)
    ensures (e == Enqueue(j) && q == Placed(st)) || (Is(st, j, p) && q == Moved(st, e, j, p))
  {
    p := q;
    match e
    case FinishSpawned(k) =>
      if j == k && !Is(st, j, q) { p := InSpawned; }
    case FinishInline(k) =>
      if j == k && !Is(st, j, q) { p := Inline; }
    case LoopTake =>
      if q.InQueue? { p := InQueue(q.i + 1); } else if q.InLoop? { p := InQueue(0); }
    case LoopFinish =>
      if q.Done? && j !in st.closed { p := InLoop; }
    case DrainTake(c) =>
      if q.InQueue? { p := InQueue(q.i + 1); } else if q == InDrain(c) { p := InQueue(0); }
    case DrainFinish(c) =>
      if q.Done? && j !in st.closed { p := InDrain(c); }
    case _ =>
  }

  lemma KeepsOnce(st: State, e: Event, j: Job)
    requires Inv(st) && Enabled(st, e)
    ensures Once(Do(st, e), j)
  {
    hide CallersOk;
    var st' := Do(st, e);
    assert Once(st, j);
    forall q, r | Is(st', j, q) && Is(st', j, r) ensures q == r {
      var p := CameFrom(st, e, j, q);
      var p' := CameFrom(st, e, j, r);
    }
    forall q | Is(st', j, q) ensures j in st'.early || j in st'.late {
      var p := CameFrom(st, e, j, q);
    }
  }

  lemma KeepsCallers(st: State, e: Event)
    requires CallersOk(st) && Enabled(st, e)
    ensures CallersOk(Do(st, e))
  {
    var st' := Do(st, e);
    if st'.closeDone {
      if e.Announce? {
        assert Past(st'.callers[e.c]);
      } else {
        var c :| c in st.callers && Past(st.callers[c]);
        assert c in st'.callers && Past(st'.callers[c]);
      }
    }
  }

  lemma Keeps(st: State, e: Event)
    requires Inv(st) && Enabled(st, e)
    ensures Inv(Do(st, e))
  {
    hide Somewhere, Once;
    KeepsCallers(st, e);
    forall j ensures Somewhere(Do(st, e), j) { KeepsSomewhere(st, e, j); }
    forall j ensures Once(Do(st, e), j) { KeepsOnce(st, e, j); }
  }

  // ---------------------------------------------------------------- whole runs

  ghost predicate Runs(st: State, run: seq<Event>, fin: State)
    decreases |run|
  {
    if run == [] then fin == st
    else Enabled(st, run[0]) && Runs(Do(st, run[0]), run[1..], fin)
  }

  lemma {:induction false} RunKeeps(st: State, run: seq<Event>, fin: State)
    requires Inv(st) && Runs(st, run, fin)
    ensures Inv(fin)
    decreases |run|
  {
    if run != [] {
      Keeps(st, run[0]);
      RunKeeps(Do(st, run[0]), run[1..], fin);
    }
  }

  lemma StartInv(capacity: nat)
    ensures Inv(Start(capacity))
  {}

  /** In every run each enqueued close is in exactly one place, so none is lost and none is done twice. */
  lemma NothingLost(capacity: nat, run: seq<Event>, fin: State, j: Job) returns (p: Place)
    requires Runs(Start(capacity), run, fin) && (j in fin.early || j in fin.late)
    ensures Is(fin, j, p) && forall q :: Is(fin, j, q) ==> q == p
  {
    StartInv(capacity);
    RunKeeps(Start(capacity), run, fin);
    assert Somewhere(fin, j) && Once(fin, j);
    p :| Is(fin, j, p);
  }

  /** No step registers a goroutine on the wait group once any Close has begun waiting on it. */
  lemma NoAddAfterWait(capacity: nat, run: seq<Event>, st: State, e: Event)
    requires Runs(Start(capacity), run, st) && Enabled(st, e)
    requires exists c :: c in st.callers
                         && (st.callers[c].Waiting? || st.callers[c].Draining? || st.callers[c].Returned?)
    ensures Do(st, e).spawned <= st.spawned
  {
    StartInv(capacity);
    RunKeeps(Start(capacity), run, st);
    assert st.closeDone;
  }

  /**
   * When a Close has returned, every close enqueued before closeDone has been performed or is the one
   * another Close still has in hand; later ones are performed where they were enqueued. With one
   * caller nothing is outstanding.
   */
  lemma CloseReturns(capacity: nat, run: seq<Event>, fin: State, c: nat)
    requires Runs(Start(capacity), run, fin) && At(fin, c, Returned)
    ensures forall j :: j in fin.early ==> j in fin.closed || exists d :: d != c && At(fin, d, Draining(Some(j)))
    ensures forall j :: j in fin.late ==> j in fin.closed || j in fin.inline
    ensures fin.early <= fin.closed <==> forall d, j :: !At(fin, d, Draining(Some(j)))
    ensures fin.callers.Keys == {c} ==> fin.early <= fin.closed
  {
    StartInv(capacity);
    RunKeeps(Start(capacity), run, fin);
    forall j | j in fin.early || j in fin.late
      ensures j in fin.closed || j in fin.inline || exists d :: d != c && At(fin, d, Draining(Some(j)))
    {
      assert Somewhere(fin, j);
      var p :| Is(fin, j, p);
      if p.InDrain? {
        assert At(fin, p.c, Draining(Some(j)));
      }
    }
    forall d, j | At(fin, d, Draining(Some(j))) ensures j in fin.early && j !in fin.closed {
      assert Is(fin, j, InDrain(d)) && Once(fin, j);
      assert !Is(fin, j, Done) && !Is(fin, j, Inline);
    }
  }

  lemma {:induction false} RunsThen(st: State, run: seq<Event>, mid: State, e: Event)
    requires Runs(st, run, mid) && Enabled(mid, e)
    ensures Runs(st, run + [e], Do(mid, e))
    decreases |run|
  {
    if run == [] {
      assert run + [e] == [e] && [e][1..] == [];
    } else {
      RunsThen(Do(st, run[0]), run[1..], mid, e);
      assert (run + [e])[1..] == run[1..] + [e];
    }
  }

  /** The states of the run below. */
  function Stage(j: Job, i: nat): State {
    var q: seq<Job> := if 1 <= i < 14 then [j] else [];
    var loop := if i < 4 then Running(None) else Exited;
    var a := if i < 6 then Joining else if i < 8 then Joined else if i < 10 then Announced
             else if i < 12 then Waiting else if i < 14 then Draining(None) else Draining(Some(j));
    var b := if i < 7 then Joining else if i < 9 then Joined else if i < 11 then Announced
             else if i < 13 then Waiting else if i < 15 then Draining(None) else Returned;
    var callers := if i < 2 then map[] else if i < 3 then map[0 := a] else map[0 := a, 1 := b];
    State(1, q, loop, {}, {}, {}, callers, i < 5, i >= 2, i >= 8, if i >= 1 then {j} else {}, {})
  }

  function Script(j: Job): seq<Event> {
    [Enqueue(j), Cancel(0), Cancel(1), LoopExit, ReconcilerExit, Join(0), Join(1), Announce(0), Announce(1),
     StartWait(0), StartWait(1), EndWait(0), EndWait(1), DrainTake(0), Return(1)]
  }

  lemma StageStep(j: Job, i: nat)
    requires i < |Script(j)|
    ensures Enabled(Stage(j, i), Script(j)[i]) && Do(Stage(j, i), Script(j)[i]) == Stage(j, i + 1)
  {}

  /** Two overlapping calls of Close: the second returns while the first still has the last close in hand. */
  lemma OverlappingCloseReturnsEarly(j: Job) returns (run: seq<Event>, fin: State)
    ensures Runs(Start(1), run, fin) && At(fin, 1, Returned) && j in fin.early && j !in fin.closed
  {
    var script := Script(j);
    fin := Start(1);
    run := [];
    for i := 0 to |script|
      invariant run == script[..i] && Runs(Start(1), run, fin)
      invariant fin == Stage(j, i)
    {
      hide Stage, Do, Enabled, Runs;
      StageStep(j, i);
      RunsThen(Start(1), run, fin, script[i]);
      fin := Do(fin, script[i]);
      run := run + [script[i]];
    }
  }
}
