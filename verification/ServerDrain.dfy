/** internal/server: admission, the per-user count, and a drain that misses no admitted handshake. */
module ServerDrain {
  import opened Bytes

  type User = Text

  /** A connection is named by the handshake it came from. */
  type Conn = nat

  /** The channel a drain waits on. */
  type Chan = nat

  datatype Limits = Limits(maxConnections: int, maxPerUser: int)

  /** The fields Server.mu guards; `closed` lists every close(s.drained), in order. */
  datatype Ledger = Ledger(
    current: int, conns: map<Conn, User>, users: map<User, nat>,
    draining: bool, drained: Option<Chan>, made: nat, closed: seq<Chan>)

  function Of(conns: map<Conn, User>, u: User): set<Conn> {
    set c | c in conns && conns[c] == u
  }

  /** `users` counts the named connections of each user, and lists no user without one. */
  ghost predicate Counted(l: Ledger) {
    && [] !in l.users
    && (forall u :: u in l.users ==> l.users[u] > 0 && l.users[u] == |Of(l.conns, u)|)
    && (forall c :: c in l.conns && l.conns[c] != [] ==> l.conns[c] in l.users)
  }

  /** The current drain channel is open, and no channel was ever closed twice. */
  ghost predicate ChannelsOk(l: Ledger) {
    && (l.drained.Some? ==> l.current > 0 && l.drained.value < l.made && l.drained.value !in l.closed)
    && (forall i :: 0 <= i < |l.closed| ==> l.closed[i] < l.made)
    && (forall i, j :: 0 <= i < j < |l.closed| ==> l.closed[i] != l.closed[j])
  }

  // ---------------------------------------------------------------- the critical sections, on values

  predicate HasRoom(lim: Limits, l: Ledger) {
    !l.draining && (lim.maxConnections > 0 ==> l.current < lim.maxConnections)
  }

  function AfterReserve(lim: Limits, l: Ledger): Ledger {
    if HasRoom(lim, l) then l.(current := l.current + 1) else l
  }

  function AfterRelease(l: Ledger): Ledger {
    if l.current == 1 && l.drained.Some?
    then l.(current := 0, drained := None, closed := l.closed + [l.drained.value])
    else l.(current := l.current - 1)
  }

  function AfterTrack(l: Ledger, c: Conn): Ledger { l.(conns := l.conns[c := []]) }

  function AfterUntrack(l: Ledger, c: Conn): (r: Ledger)
    ensures r == l.(conns := l.conns - {c}, users := r.users)
  {
    if c !in l.conns then l
    else
      var u := l.conns[c];
      var conns := l.conns - {c};
      if u == [] || u !in l.users then l.(conns := conns)
      else if l.users[u] <= 1 then l.(conns := conns, users := l.users - {u})
      else l.(conns := conns, users := l.users[u := l.users[u] - 1])
  }

  function CountOf(l: Ledger, u: User): nat { if u in l.users then l.users[u] else 0 }

  predicate UserRoom(lim: Limits, l: Ledger, u: User) {
    lim.maxPerUser > 0 ==> CountOf(l, u) < lim.maxPerUser
  }

  function AfterAdmit(lim: Limits, l: Ledger, c: Conn, u: User): (r: Ledger)
    ensures r == l.(conns := r.conns, users := r.users)
    ensures c in l.conns ==> r.conns.Keys == l.conns.Keys
  {
    if UserRoom(lim, l, u) then l.(conns := l.conns[c := u], users := l.users[u := CountOf(l, u) + 1]) else l
  }

  function AfterWait(l: Ledger): Ledger {
    if l.current == 0 || l.drained.Some? then l else l.(drained := Some(l.made), made := l.made + 1)
  }

  // ---------------------------------------------------------------- what they keep

  lemma TrackCounted(l: Ledger, c: Conn)
    requires Counted(l) && c !in l.conns
    ensures Counted(AfterTrack(l, c))
  {
    forall u | u in l.users ensures Of(AfterTrack(l, c).conns, u) == Of(l.conns, u) {}
  }

  lemma UntrackCounted(l: Ledger, c: Conn)
    requires Counted(l)
    ensures Counted(AfterUntrack(l, c)) && AfterUntrack(l, c).conns == l.conns - {c}
  {
    if c in l.conns {
      var u, l' := l.conns[c], AfterUntrack(l, c);
      forall v | v in l'.users && v != u ensures l'.users[v] == |Of(l'.conns, v)| > 0 {
        assert v in l.users && Of(l'.conns, v) == Of(l.conns, v);
      }
      if u != [] {
        assert Of(l'.conns, u) == Of(l.conns, u) - {c};
        forall d | d in l'.conns && l'.conns[d] == u ensures u in l'.users {
          assert d in Of(l'.conns, u) && c in Of(l.conns, u);
          assert |Of(l.conns, u)| == |Of(l'.conns, u)| + 1 >= 2;
        }
      }
    }
  }

  /** A connection tracked and not yet named: the webhook answers it once, with a non-empty user. */
  lemma AdmitCounted(lim: Limits, l: Ledger, c: Conn, u: User)
    requires Counted(l) && c in l.conns && l.conns[c] == [] && u != []
    ensures Counted(AfterAdmit(lim, l, c, u))
    ensures UserRoom(lim, l, u) && lim.maxPerUser > 0 ==> |Of(AfterAdmit(lim, l, c, u).conns, u)| <= lim.maxPerUser
  {
    var l' := AfterAdmit(lim, l, c, u);
    if UserRoom(lim, l, u) {
      assert Of(l'.conns, u) == Of(l.conns, u) + {c};
      if u !in l.users {
        assert Of(l.conns, u) == {};
      }
      forall v | v in l.users && v != u ensures Of(l'.conns, v) == Of(l.conns, v) {}
    }
  }

  lemma CountIsOf(l: Ledger, u: User)
    requires Counted(l) && u != []
    ensures CountOf(l, u) == |Of(l.conns, u)|
  {
    if u !in l.users {
      assert Of(l.conns, u) == {};
    }
  }

  lemma SameChannels(lim: Limits, l: Ledger, c: Conn, u: User)
    requires ChannelsOk(l)
    ensures ChannelsOk(AfterAdmit(lim, l, c, u)) && ChannelsOk(AfterUntrack(l, c))
  {}

  // ---------------------------------------------------------------- the server

  class Server {
    const lim: Limits
    var current: int
    var conns: map<Conn, User>
    var users: map<User, nat>
    var draining: bool
    var drained: Option<Chan>
    var made: nat
    var closed: seq<Chan>

    ghost function View(): Ledger
      reads this
    {
      Ledger(current, conns, users, draining, drained, made, closed)
    }

    ghost predicate Valid()
      reads this
    {
      Counted(View()) && ChannelsOk(View()) && current >= 0
    }

    constructor (lim: Limits)
      ensures Valid() && this.lim == lim && View() == Ledger(0, map[], map[], false, None, 0, [])
    {
      this.lim := lim;
      current, conns, users, draining, drained, made, closed := 0, map[], map[], false, None, 0, [];
    }

    /** reserve. */
    method Reserve() returns (ok: bool)
      requires Valid()
      modifies this
      ensures Valid() && View() == AfterReserve(lim, old(View()))
      ensures ok <==> !old(draining) && (lim.maxConnections <= 0 || old(current) < lim.maxConnections)
      ensures View() == if ok then old(View()).(current := old(current) + 1) else old(View())
    {
      if draining {
        return false;
      }
      if lim.maxConnections > 0 && current >= lim.maxConnections {
        return false;
      }
      current := current + 1;
      return true;
    }

    /** release; the caller holds a reservation. */
    method Release()
      requires Valid() && current > 0
      modifies this
      ensures Valid() && View() == AfterRelease(old(View()))
      ensures current == old(current) - 1 && conns == old(conns) && users == old(users) && draining == old(draining)
      ensures current == 0 && old(drained).Some? ==> drained.None? && closed == old(closed) + [old(drained).value]
      ensures current > 0 || old(drained).None? ==> drained == old(drained) && closed == old(closed)
    {
      current := current - 1;
      if current == 0 && drained.Some? {
        closed := closed + [drained.value];
        drained := None;
      }
    }

    /** track. */
    method Track(c: Conn) returns (accepting: bool)
      requires Valid() && c !in conns
      modifies this
      ensures Valid() && View() == AfterTrack(old(View()), c) && accepting == !old(draining)
      ensures View() == old(View()).(conns := old(conns)[c := []])
    {
      TrackCounted(View(), c);
      conns := conns[c := []];
      accepting := !draining;
    }

    /** untrack. */
    method Untrack(c: Conn)
      requires Valid()
      modifies this
      ensures Valid() && View() == AfterUntrack(old(View()), c)
      ensures View() == old(View()).(conns := old(conns) - {c}, users := users)
    {
      UntrackCounted(View(), c);
      SameChannels(lim, View(), c, []);
      assert c in conns && conns[c] != [] ==> conns[c] in users;
      hide Counted, Of, ChannelsOk;
      if c in conns {
        var u := conns[c];
        conns := conns - {c};
        if u != [] {
          var left := users[u] - 1;
          if left <= 0 {
            users := users - {u};
          } else {
            users := users[u := left];
          }
        }
      }
    }

    /** admitUser. */
    method AdmitUser(c: Conn, u: User) returns (ok: bool)
      requires Valid() && c in conns && conns[c] == [] && u != []
      modifies this
      ensures Valid() && View() == AfterAdmit(lim, old(View()), c, u)
      ensures ok <==> lim.maxPerUser <= 0 || |Of(old(conns), u)| < lim.maxPerUser
      ensures View() == old(View()).(conns := if ok then old(conns)[c := u] else old(conns), users := users)
    {
      AdmitCounted(lim, View(), c, u);
      CountIsOf(View(), u);
      SameChannels(lim, View(), c, u);
      hide Counted, Of, ChannelsOk;
      var n := if u in users then users[u] else 0;
      if lim.maxPerUser > 0 && n >= lim.maxPerUser {
        return false;
      }
      conns := conns[c := u];
      users := users[u := n + 1];
      return true;
    }

    /** Drain's critical section: no more admissions, and the live set as it is now. */
    method Snapshot() returns (live: set<Conn>)
      requires Valid()
      modifies this
      ensures Valid() && View() == old(View()).(draining := true) && live == old(conns).Keys
    {
      draining := true;
      live := conns.Keys;
    }

    /** wait's critical section: nothing to wait for, or the one shared channel. */
    method WaitOn() returns (done: Option<Chan>)
      requires Valid()
      modifies this
      ensures Valid() && View() == AfterWait(old(View()))
      ensures done == if current == 0 then None else drained
      ensures View() == if current == 0 || old(drained).Some? then old(View())
                        else old(View()).(drained := Some(old(made)), made := old(made) + 1)
      ensures current > 0 ==> done.Some? && (old(drained).Some? ==> done == old(drained))
    {
      if current == 0 {
        return None;
      }
      if drained.None? {
        drained := Some(made);
        made := made + 1;
      }
      done := drained;
    }
  }

  // ---------------------------------------------------------------- handshakes and drains, interleaved

  datatype Stage = HoldsSlot | IsTracked | IsUntracked | Ended

  datatype Drain = Closing(todo: set<Conn>) | Waiting(ch: Chan) | Drained | TimedOut

  datatype State = State(
    ledger: Ledger,
    stages: map<Conn, Stage>,   // every handshake that reserve admitted
    named: set<Conn>,           // the webhook has answered
    asked: set<Conn>,           // track told it to close itself
    seen: set<Conn>,            // in some drain's snapshot
    told: set<Conn>,            // closed by a drain
    drains: map<nat, Drain>)

  datatype Event =
    | Reserve(c: Conn)
    | Track(c: Conn)
    | Name(c: Conn, u: User)
    | Untrack(c: Conn)
    | Release(c: Conn)
    | StartDrain(d: nat)
    | CloseOne(d: nat, c: Conn)
    | StartWait(d: nat)
    | EndWait(d: nat)
    | GiveUp(d: nat)

  const START := State(Ledger(0, map[], map[], false, None, 0, []), map[], {}, {}, {}, {}, map[])

  predicate In(st: State, c: Conn, stage: Stage) { c in st.stages && st.stages[c] == stage }

  predicate Enabled(lim: Limits, st: State, e: Event) {
    match e
    case Reserve(c) => c !in st.stages && HasRoom(lim, st.ledger)
    case Track(c) => In(st, c, HoldsSlot)
    case Name(c, u) => In(st, c, IsTracked) && c !in st.named && u != []
    case Untrack(c) => In(st, c, IsTracked)
    case Release(c) => In(st, c, IsUntracked) || In(st, c, HoldsSlot)   // the latter: the upgrade or Add failed
    case StartDrain(d) => d !in st.drains
    case CloseOne(d, c) => d in st.drains && st.drains[d].Closing? && c in st.drains[d].todo
    case StartWait(d) => d in st.drains && st.drains[d] == Closing({})
    case EndWait(d) => d in st.drains && st.drains[d].Waiting? && st.drains[d].ch in st.ledger.closed
    case GiveUp(d) => d in st.drains && st.drains[d].Waiting?
  }

  function Do(lim: Limits, st: State, e: Event): State
    requires Enabled(lim, st, e)
  {
    match e
    case Reserve(c) => st.(ledger := AfterReserve(lim, st.ledger), stages := st.stages[c := HoldsSlot])
    case Track(c) =>
      st.(ledger := AfterTrack(st.ledger, c), stages := st.stages[c := IsTracked],
          asked := if st.ledger.draining then st.asked + {c} else st.asked)
    case Name(c, u) => st.(ledger := AfterAdmit(lim, st.ledger, c, u), named := st.named + {c})
    case Untrack(c) => st.(ledger := AfterUntrack(st.ledger, c), stages := st.stages[c := IsUntracked])
    case Release(c) => st.(ledger := AfterRelease(st.ledger), stages := st.stages[c := Ended])
    case StartDrain(d) =>
      var live := st.ledger.conns.Keys;
      st.(ledger := st.ledger.(draining := true), seen := st.seen + live, drains := st.drains[d := Closing(live)])
    case CloseOne(d, c) =>
      st.(told := st.told + {c}, drains := st.drains[d := Closing(st.drains[d].todo - {c})])
    case StartWait(d) =>
      var l := AfterWait(st.ledger);
      st.(ledger := l,
          drains := st.drains[d := if l.current == 0 || l.drained.None? then Drained else Waiting(l.drained.value)])
    case EndWait(d) => st.(drains := st.drains[d := Drained])
    case GiveUp(d) => st.(drains := st.drains[d := TimedOut])
  }

  /** Handshakes between reserve and release. */
  function Active(stages: map<Conn, Stage>): set<Conn> {
    set c | c in stages && stages[c] != Ended
  }

  ghost predicate Slots(lim: Limits, st: State) {
    && st.ledger.current == |Active(st.stages)|
    && (lim.maxConnections > 0 ==> st.ledger.current <= lim.maxConnections)
  }

  ghost predicate Books(st: State) {
    && Counted(st.ledger) && ChannelsOk(st.ledger)
    && (forall c :: c in st.ledger.conns <==> In(st, c, IsTracked))
    && (forall c :: c in st.ledger.conns && st.ledger.conns[c] != [] ==> c in st.named)
    && (forall c :: c in st.named ==> c in st.stages && st.stages[c] != HoldsSlot)
  }

  /** Once draining, a tracked connection was in a snapshot or told to close itself; snapshots get closed. */
  ghost predicate Covered(st: State) {
    && (st.ledger.draining ==> forall c :: In(st, c, IsTracked) ==> c in st.seen || c in st.asked)
    && (forall c :: c in st.seen ==>
          c in st.told || exists d :: d in st.drains && st.drains[d].Closing? && c in st.drains[d].todo)
    && (st.drains != map[] ==> st.ledger.draining)
  }

  ghost predicate Waiters(st: State) {
    forall d :: d in st.drains && st.drains[d].Waiting? ==>
      st.drains[d].ch in st.ledger.closed || st.ledger.drained == Some(st.drains[d].ch)
  }

  ghost predicate Inv(lim: Limits, st: State) {
    Slots(lim, st) && Books(st) && Covered(st) && Waiters(st)
  }

  /** How one handshake's move changes the number between reserve and release. */
  lemma ActiveMoves(stages: map<Conn, Stage>, c: Conn, stage: Stage)
    requires c in stages ==> stages[c] != Ended
    ensures |Active(stages[c := stage])|
         == |Active(stages)| + (if c in stages then 0 else 1) - (if stage.Ended? then 1 else 0)
  {
    var was, now := Active(stages), Active(stages[c := stage]);
    if stage.Ended? {
      assert now == was - {c};
    } else {
      assert now == was + {c};
    }
  }

  lemma KeepsSlots(lim: Limits, st: State, e: Event)
    requires Slots(lim, st) && Enabled(lim, st, e)
    ensures Slots(lim, Do(lim, st, e))
  {
    hide AfterUntrack, AfterAdmit, Active;
    match e
    case Reserve(c) => ActiveMoves(st.stages, c, HoldsSlot);
    case Track(c) => ActiveMoves(st.stages, c, IsTracked);
    case Untrack(c) => ActiveMoves(st.stages, c, IsUntracked);
    case Release(c) => ActiveMoves(st.stages, c, Ended);
    case _ =>
  }

  lemma KeepsBooks(lim: Limits, st: State, e: Event)
    requires Inv(lim, st) && Enabled(lim, st, e)
    ensures Books(Do(lim, st, e))
  {
    hide Counted, ChannelsOk, Covered, Waiters, AfterUntrack, AfterAdmit;
    KeepsCounted(lim, st, e);
    KeepsChannels(lim, st, e);
    if e.Name? {
      assert AfterAdmit(lim, st.ledger, e.c, e.u).conns.Keys == st.ledger.conns.Keys;
      NamesOnly(lim, st.ledger, e.c, e.u);
    }
  }

  lemma NamesOnly(lim: Limits, l: Ledger, c: Conn, u: User)
    requires c in l.conns
    ensures forall d :: d in l.conns && d != c ==> AfterAdmit(lim, l, c, u).conns[d] == l.conns[d]
  {}

  lemma KeepsCounted(lim: Limits, st: State, e: Event)
    requires Books(st) && Enabled(lim, st, e)
    ensures Counted(Do(lim, st, e).ledger)
  {
    hide ChannelsOk;
    match e
    case Track(c) => TrackCounted(st.ledger, c);
    case Untrack(c) => UntrackCounted(st.ledger, c);
    case Name(c, u) => AdmitCounted(lim, st.ledger, c, u);
    case _ => SameNames(st.ledger, Do(lim, st, e).ledger);
  }

  lemma SameNames(l: Ledger, r: Ledger)
    requires Counted(l) && r.conns == l.conns && r.users == l.users
    ensures Counted(r)
  {}

  lemma KeepsChannels(lim: Limits, st: State, e: Event)
    requires Slots(lim, st) && ChannelsOk(st.ledger) && Enabled(lim, st, e)
    ensures ChannelsOk(Do(lim, st, e).ledger)
  {
    hide AfterUntrack, AfterAdmit;
    if e.Release? {
      assert e.c in Active(st.stages);
    }
  }

  lemma KeepsCovered(lim: Limits, st: State, e: Event)
    requires Books(st) && Covered(st) && Enabled(lim, st, e)
    ensures Covered(Do(lim, st, e))
  {
    hide Counted, ChannelsOk, AfterUntrack, AfterAdmit;
    var st' := Do(lim, st, e);
    forall c | c in st'.seen && c !in st'.told
      ensures exists d :: d in st'.drains && st'.drains[d].Closing? && c in st'.drains[d].todo
    {
      if c in st.seen {
        var d :| d in st.drains && st.drains[d].Closing? && c in st.drains[d].todo;
        assert d in st'.drains && st'.drains[d].Closing? && c in st'.drains[d].todo;
      } else {
        assert c in st'.drains[e.d].todo;
      }
    }
  }

  lemma KeepsWaiters(lim: Limits, st: State, e: Event)
    requires Inv(lim, st) && Enabled(lim, st, e)
    ensures Waiters(Do(lim, st, e))
  {
    hide Counted, Covered, AfterUntrack, AfterAdmit;
  }

  lemma Keeps(lim: Limits, st: State, e: Event)
    requires Inv(lim, st) && Enabled(lim, st, e)
    ensures Inv(lim, Do(lim, st, e))
  {
    hide Slots, Books, Covered, Waiters, Do, Enabled;
    KeepsSlots(lim, st, e);
    KeepsBooks(lim, st, e);
    KeepsCovered(lim, st, e);
    KeepsWaiters(lim, st, e);
  }

  ghost predicate Runs(lim: Limits, st: State, run: seq<Event>, fin: State)
    decreases |run|
  {
    if run == [] then fin == st
    else Enabled(lim, st, run[0]) && Runs(lim, Do(lim, st, run[0]), run[1..], fin)
  }

  lemma {:induction false} RunKeeps(lim: Limits, st: State, run: seq<Event>, fin: State)
    requires Inv(lim, st) && Runs(lim, st, run, fin)
    ensures Inv(lim, fin)
    ensures st.ledger.draining ==> fin.ledger.draining && fin.ledger.current <= st.ledger.current
    decreases |run|
  {
    if run != [] {
      Keeps(lim, st, run[0]);
      RunKeeps(lim, Do(lim, st, run[0]), run[1..], fin);
    }
  }

  /**
   * In every run: `current` is the number of handshakes between reserve and release and within the
   * limit; every user's count is the number of its connections; no drain channel is closed twice; and
   * once a drain has begun each tracked connection has been closed, is in the closing list of a drain,
   * or was told by track to close itself.
   */
  lemma DrainCovers(lim: Limits, run: seq<Event>, fin: State)
    requires Runs(lim, START, run, fin)
    ensures fin.ledger.current == |Active(fin.stages)|
    ensures lim.maxConnections > 0 ==> fin.ledger.current <= lim.maxConnections
    ensures forall u :: u in fin.ledger.users ==> fin.ledger.users[u] == |Of(fin.ledger.conns, u)|
    ensures forall i, j :: 0 <= i < j < |fin.ledger.closed| ==> fin.ledger.closed[i] != fin.ledger.closed[j]
    ensures fin.ledger.draining ==>
              forall c :: In(fin, c, IsTracked) ==>
                || c in fin.told || c in fin.asked
                || exists d :: d in fin.drains && fin.drains[d].Closing? && c in fin.drains[d].todo
  {
    assert Inv(lim, START) by {
      assert Active(START.stages) == {};
    }
    hide Runs;
    RunKeeps(lim, START, run, fin);
  }

  lemma NobodyParked(lim: Limits, st: State)
    requires Inv(lim, st) && st.ledger.current == 0
    ensures forall d :: d in st.drains && st.drains[d].Waiting? ==> Enabled(lim, st, EndWait(d))
  {}

  /** After a drain begins the count only falls, and when it is zero no waiter stays parked. */
  lemma DrainEnds(lim: Limits, before: seq<Event>, mid: State, run: seq<Event>, fin: State)
    requires Runs(lim, START, before, mid) && mid.ledger.draining && Runs(lim, mid, run, fin)
    ensures fin.ledger.current <= mid.ledger.current
    ensures fin.ledger.current == 0 ==>
              forall d :: d in fin.drains && fin.drains[d].Waiting? ==> Enabled(lim, fin, EndWait(d))
  {
    assert Inv(lim, START) by {
      assert Active(START.stages) == {};
    }
    hide Runs, Inv, Enabled;
    RunKeeps(lim, START, before, mid);
    RunKeeps(lim, mid, run, fin);
    if fin.ledger.current == 0 {
      NobodyParked(lim, fin);
    }
  }
}
