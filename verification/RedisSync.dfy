/**
 * internal/bus/redis.go as a protocol: Sync, the resync after a reconnect, the reader and the
 * supervisor, over connections that can die between any two steps.
 *
 * A connection is followed on both sides: what was sent and not yet processed, what the server
 * holds, and the confirmations on their way back.
 */
module RedisSync {
  import opened Bytes
  import opened Events
  import opened RedisDiff

  datatype Conn = Conn(
    open: bool, reader: bool,
    cmds: seq<Command>, replies: nat, server: set<Text>,
    failed: bool,                 // a send or a wait on it failed
    abandoned: Option<Command>)   // the chunk that reached the wire and was not waited for to the end

  datatype Phase = Ready | Zeroed | Waiting | Failing

  /** Who holds syncMu: apply, on one captured connection, with the chunks confirmed so far. */
  datatype Holder = Free | Applying(conn: nat, base: set<Text>, plan: seq<Command>, done: nat, phase: Phase)

  datatype Supervisor = Down | Opened(conn: nat) | Live(conn: nat) | Releasing(conn: nat) | Ended

  datatype State = State(
    conns: map<nat, Conn>,
    sub: Option<nat>,
    connected: bool,
    current: set<Text>,
    desired: set<Text>,
    acks: nat,
    holder: Holder,
    sup: Supervisor,
    closing: bool)

  datatype Event =
    | Open(c: nat)
    | Adopt
    | Resync(plan: seq<Command>)
    | Sync(desired: set<Text>, plan: seq<Command>)
    | ZeroAcks
    | Send
    | SendFail(delivered: bool)
    | Process(c: nat)
    | Receive(c: nat)
    | Confirmed
    | WaitFail
    | Drop
    | Lose(c: nat)
    | CloseSub
    | Release
    | Released
    | BusClose

  const START := State(map[], None, false, {}, {}, 0, Free, Down, false)

  /** connection(): the live connection, if there is one. */
  predicate Connected(st: State) { st.sub.Some? && st.connected }

  ghost predicate PlanFor(current: set<Text>, desired: set<Text>, size: nat, plan: seq<Command>) {
    Plan(current, desired, size, plan) && (plan == [] <==> current == desired)
  }

  predicate InPhase(st: State, p: Phase) { st.holder.Applying? && st.holder.phase == p }

  /** What steps refer to exists. */
  ghost predicate Known(st: State) {
    && (st.sup.Opened? || st.sup.Live? || st.sup.Releasing? ==> st.sup.conn in st.conns)
    && (st.holder.Applying? ==> st.holder.conn in st.conns && st.holder.done < |st.holder.plan|)
    && (st.sub.Some? ==> st.sub.value in st.conns)
  }

  ghost predicate Enabled(size: nat, st: State, e: Event)
    requires Known(st)
  {
    match e
    case Open(c) => st.sup.Down? && c !in st.conns
    case Adopt => st.sup.Opened? && st.holder.Free?
    case Resync(plan) => st.sup.Live? && st.holder.Free? && PlanFor(st.current, st.desired, size, plan)
    case Sync(d, plan) => st.holder.Free? && PlanFor(st.current, d, size, plan)
    case ZeroAcks => InPhase(st, Ready)
    case Send => InPhase(st, Zeroed) && st.conns[st.holder.conn].open
    case SendFail(delivered) => InPhase(st, Zeroed) && (delivered ==> st.conns[st.holder.conn].open)
    case Process(c) => c in st.conns && st.conns[c].cmds != []
    case Receive(c) => c in st.conns && st.conns[c].reader && st.conns[c].replies > 0
    case Confirmed => InPhase(st, Waiting) && st.acks >= |st.holder.plan[st.holder.done].part|
    case WaitFail => InPhase(st, Waiting)
    case Drop => InPhase(st, Failing)
    case Lose(c) => c in st.conns && st.conns[c].reader
    case CloseSub => st.sub.Some?
    case Release => st.sup.Live? && !st.conns[st.sup.conn].reader
    case Released => st.sup.Releasing?
    case BusClose => !st.closing
  }

  function Closed(conns: map<nat, Conn>, c: Option<nat>): map<nat, Conn>
    requires c.Some? ==> c.value in conns
  {
    if c.Some? then conns[c.value := conns[c.value].(open := false)] else conns
  }

  /** apply's beginning: no connection is an error, an empty plan is nil, else the first chunk. */
  function Begin(st: State, plan: seq<Command>): State {
    if Connected(st) && plan != [] then st.(holder := Applying(st.sub.value, st.current, plan, 0, Ready)) else st
  }

  ghost function Do(size: nat, st: State, e: Event): State
    requires Known(st) && Enabled(size, st, e)
  {
    var h := st.holder;
    match e
    case Open(c) => st.(conns := st.conns[c := Conn(true, true, [], 0, {}, false, None)], sup := Opened(c))
    case Adopt =>
      if st.closing then st.(conns := Closed(st.conns, Some(st.sup.conn)), sup := Ended)
      else st.(sub := Some(st.sup.conn), connected := true, current := {}, acks := 0, sup := Live(st.sup.conn))
    case Resync(plan) => Begin(st, plan)
    case Sync(d, plan) => Begin(st.(desired := d), plan)
    case ZeroAcks => st.(acks := 0, holder := h.(phase := Zeroed))
    case Send =>
      var c := st.conns[h.conn];
      st.(conns := st.conns[h.conn := c.(cmds := c.cmds + [h.plan[h.done]])], holder := h.(phase := Waiting))
    case SendFail(delivered) =>
      var c := st.conns[h.conn];
      var now := if delivered then c.(cmds := c.cmds + [h.plan[h.done]], abandoned := Some(h.plan[h.done])) else c;
      st.(conns := st.conns[h.conn := now.(failed := true)], holder := h.(phase := Failing))
    case Process(i) =>
      var c := st.conns[i];
      st.(conns := st.conns[i := c.(server := Issue(c.server, c.cmds[0]),
                                    replies := c.replies + |c.cmds[0].part|,
                                    cmds := c.cmds[1..])])
    case Receive(i) =>
      st.(conns := st.conns[i := st.conns[i].(replies := st.conns[i].replies - 1)], acks := st.acks + 1)
    case Confirmed =>
      var now := Issue(st.current, h.plan[h.done]);
      st.(current := now,
          holder := if h.done + 1 == |h.plan| then Free else h.(done := h.done + 1, phase := Ready))
    case WaitFail =>
      var now := st.conns[h.conn].(failed := true, abandoned := Some(h.plan[h.done]));
      st.(conns := st.conns[h.conn := now], holder := h.(phase := Failing))
    case Drop => st.(conns := Closed(st.conns, st.sub), holder := Free)
    case Lose(i) => st.(conns := st.conns[i := st.conns[i].(reader := false)])
    case CloseSub => st.(conns := Closed(st.conns, st.sub))
    case Release => st.(sub := None, sup := Releasing(st.sup.conn))
    case Released => st.(connected := false, conns := Closed(st.conns, Some(st.sup.conn)), sup := Down)
    case BusClose => st.(closing := true, conns := Closed(st.conns, st.sub))
  }

  // ---------------------------------------------------------------- invariant

  /** sub and connected follow the supervisor, which never adopts over a running apply. */
  ghost predicate Roles(st: State) {
    && (st.sub == if st.sup.Live? then Some(st.sup.conn) else None)
    && (st.connected <==> st.sup.Live? || st.sup.Releasing?)
    && (st.holder.Applying? && st.sup.Live? ==> st.sup.conn == st.holder.conn)
  }

  /** Only the live connection still speaks, and only connections the supervisor holds are open. */
  ghost predicate Quiescent(st: State, c: nat) {
    c in st.conns ==>
      var k := st.conns[c];
      && (k.reader && st.sup != Live(c) ==> k.cmds == [] && k.replies == 0)
      && (st.sup == Opened(c) ==>
            k == Conn(true, k.reader, [], 0, {}, false, None) && (st.holder.Applying? ==> st.holder.conn != c))
      && (st.sup == Releasing(c) ==> !k.reader)
      && (k.open ==> st.sup == Opened(c) || st.sup == Live(c) || st.sup == Releasing(c))
  }

  predicate Subject(st: State, c: nat) {
    st.sup == Live(c) || (st.holder.Applying? && st.holder.conn == c)
  }

  /** Nothing in flight, and the server holds exactly what the bus believes. */
  predicate Clean(st: State, c: nat)
    requires c in st.conns
  {
    st.conns[c].cmds == [] && st.conns[c].replies == 0 && st.conns[c].server == st.current
  }

  /** One chunk in flight: not yet processed, or processed with each name confirmed once, counted or on its way. */
  predicate InFlight(st: State, c: nat, cmd: Command)
    requires c in st.conns
  {
    var k := st.conns[c];
    || (k.cmds == [cmd] && k.replies == 0 && st.acks == 0 && k.server == st.current)
    || (k.cmds == [] && st.acks + k.replies == |cmd.part| && k.server == Issue(st.current, cmd))
  }

  ghost predicate Sound(st: State, c: nat) {
    c in st.conns && Subject(st, c) && st.conns[c].abandoned.None? && !InPhase(st, Waiting) ==> Clean(st, c)
  }

  ghost predicate WaitSound(st: State) {
    InPhase(st, Waiting) && st.holder.conn in st.conns && st.holder.done < |st.holder.plan| ==>
      && !st.conns[st.holder.conn].failed
      && |st.holder.plan[st.holder.done].part| > 0
      && InFlight(st, st.holder.conn, st.holder.plan[st.holder.done])
  }

  /** Before a send: the count is zero, unless the connection is one a send cannot succeed on. */
  ghost predicate SendSound(st: State) {
    (InPhase(st, Ready) || InPhase(st, Zeroed)) && st.holder.conn in st.conns ==>
      var k := st.conns[st.holder.conn];
      && (k.failed ==> !k.open)
      && (k.abandoned.None? && InPhase(st, Zeroed) ==> st.acks == 0)
  }

  /** A failure costs the connection: it is closed, being released, or about to be dropped. */
  ghost predicate FailureEnds(st: State, c: nat) {
    c in st.conns && st.conns[c].failed ==>
      || !st.conns[c].open || st.sup == Releasing(c)
      || (InPhase(st, Failing) && st.holder.conn == c)
  }

  predicate GaveUp(st: State, c: nat) { c in st.conns && st.conns[c].abandoned.Some? }

  /** An abandoned chunk is processed or not, and either way not what the bus believes. */
  ghost predicate Astray(st: State, c: nat) {
    GaveUp(st, c) ==>
      var k, cmd := st.conns[c], st.conns[c].abandoned.value;
      && k.failed
      && (st.sup == Live(c) ==>
            && Issue(st.current, cmd) != st.current
            && ((k.cmds == [cmd] && k.server == st.current) || (k.cmds == [] && k.server == Issue(st.current, cmd))))
  }

  ghost predicate JobSound(size: nat, st: State) {
    st.holder.Applying? ==>
      var h := st.holder;
      && h.done < |h.plan|
      && Plan(h.base, st.desired, size, h.plan)
      && st.current == IssueAll(h.base, h.plan[..h.done])
  }

  ghost predicate Inv(size: nat, st: State) {
    && Known(st) && Roles(st) && SendSound(st) && WaitSound(st) && JobSound(size, st)
    && (forall c :: Quiescent(st, c))
    && (forall c :: Sound(st, c))
    && (forall c :: FailureEnds(st, c))
    && (forall c :: Astray(st, c))
  }

  // ---------------------------------------------------------------- every step keeps it

  lemma KeepsRoles(size: nat, st: State, e: Event)
    requires Inv(size, st) && Enabled(size, st, e)
    ensures Known(Do(size, st, e)) && Roles(Do(size, st, e))
  {
    hide Plan, IssueAll;
    if e.Adopt? {
      assert Quiescent(st, st.sup.conn);
    }
  }

  lemma KeepsQuiescent(size: nat, st: State, e: Event, c: nat)
    requires Inv(size, st) && Enabled(size, st, e)
    ensures Quiescent(Do(size, st, e), c)
  {
    hide Plan, IssueAll;
    assert Quiescent(st, c);
    if st.holder.Applying? {
      assert Quiescent(st, st.holder.conn);
    }
  }

  lemma KeepsJob(size: nat, st: State, e: Event)
    requires Known(st) && JobSound(size, st) && Enabled(size, st, e)
    ensures JobSound(size, Do(size, st, e))
  {
    match e
    case Confirmed =>
      var h := st.holder;
      assert h.plan[..h.done + 1][..h.done] == h.plan[..h.done];
    case Sync(_, plan) => assert plan[..0] == [];
    case Resync(plan) => assert plan[..0] == [];
    case _ =>
  }

  lemma KeepsSend(size: nat, st: State, e: Event)
    requires Inv(size, st) && Enabled(size, st, e)
    ensures SendSound(Do(size, st, e))
  {
    hide Plan, IssueAll;
    if st.holder.Applying? {
      assert Sound(st, st.holder.conn);
    }
    if st.sup.Live? {
      assert FailureEnds(st, st.sup.conn);
    }
    if e.Receive? {
      assert Quiescent(st, e.c);
    }
  }

  lemma KeepsWait(size: nat, st: State, e: Event)
    requires Inv(size, st) && Enabled(size, st, e)
    ensures WaitSound(Do(size, st, e))
  {
    hide IssueAll;
    if st.holder.Applying? {
      assert Sound(st, st.holder.conn) && Quiescent(st, st.holder.conn) && Astray(st, st.holder.conn);
    }
    if e.Receive? {
      assert Quiescent(st, e.c);
    }
  }

  lemma KeepsSound(size: nat, st: State, e: Event, c: nat)
    requires Inv(size, st) && Enabled(size, st, e)
    ensures Sound(Do(size, st, e), c)
  {
    hide Plan, IssueAll;
    assert Sound(st, c) && FailureEnds(st, c) && Quiescent(st, c);
  }

  lemma KeepsFailure(size: nat, st: State, e: Event, c: nat)
    requires Inv(size, st) && Enabled(size, st, e)
    ensures FailureEnds(Do(size, st, e), c)
  {
    hide Plan, IssueAll;
    assert FailureEnds(st, c) && Quiescent(st, c);
  }

  /** The chunk in hand would change the set. */
  lemma NextBites(size: nat, st: State)
    requires JobSound(size, st) && st.holder.Applying?
    ensures Issue(st.current, st.holder.plan[st.holder.done]) != st.current
  {
    EachCommandBites(st.holder.base, st.desired, size, st.holder.plan, st.holder.done);
  }

  lemma KeepsAstray(size: nat, st: State, e: Event, c: nat)
    requires Inv(size, st) && Enabled(size, st, e)
    ensures Astray(Do(size, st, e), c)
  {
    hide Plan, IssueAll, Issue;
    assert Astray(st, c);
    match e
    case SendFail(_) =>
      assert Sound(st, st.holder.conn) && Astray(st, st.holder.conn);
      NextBites(size, st);
    case WaitFail => NextBites(size, st);
    case Process(i) =>
      if i == c && GaveUp(st, c) && st.sup == Live(c) {
        assert st.conns[c].cmds[1..] == [];
      }
    case Adopt => assert Quiescent(st, st.sup.conn);
    case _ =>
  }

  lemma Keeps(size: nat, st: State, e: Event)
    requires Inv(size, st) && Enabled(size, st, e)
    ensures Inv(size, Do(size, st, e))
  {
    KeepsRoles(size, st, e);
    KeepsSend(size, st, e);
    KeepsWait(size, st, e);
    KeepsJob(size, st, e);
    forall c ensures Quiescent(Do(size, st, e), c) { KeepsQuiescent(size, st, e, c); }
    forall c ensures Sound(Do(size, st, e), c) { KeepsSound(size, st, e, c); }
    forall c ensures FailureEnds(Do(size, st, e), c) { KeepsFailure(size, st, e, c); }
    forall c ensures Astray(Do(size, st, e), c) { KeepsAstray(size, st, e, c); }
  }

  // ---------------------------------------------------------------- whole runs

  ghost predicate Runs(size: nat, st: State, run: seq<Event>, fin: State)
    requires Inv(size, st)
    decreases |run|
  {
    if run == [] then fin == st
    else Enabled(size, st, run[0]) && (Keeps(size, st, run[0]); Runs(size, Do(size, st, run[0]), run[1..], fin))
  }

  lemma {:induction false} RunKeeps(size: nat, st: State, run: seq<Event>, fin: State)
    requires Inv(size, st) && Runs(size, st, run, fin)
    ensures Inv(size, fin)
    decreases |run|
  {
    if run != [] {
      Keeps(size, st, run[0]);
      RunKeeps(size, Do(size, st, run[0]), run[1..], fin);
    }
  }

  /**
   * In every run: while a chunk is in flight its confirmations are exactly the names sent, so none
   * was left over from an earlier chunk or connection; between chunks the server holds exactly
   * `current` on a live connection with no abandoned chunk, and something else on one with; and a
   * connection a send or wait failed on is closed or on its way out as soon as its apply is over.
   */
  lemma ConfirmedSet(size: nat, run: seq<Event>, fin: State)
    requires Runs(size, START, run, fin)
    ensures Known(fin)
    ensures InPhase(fin, Waiting) ==>
              var k := fin.conns[fin.holder.conn];
              var cmd := fin.holder.plan[fin.holder.done];
              && fin.acks + k.replies + (if k.cmds == [] then 0 else |cmd.part|) == |cmd.part|
              && (fin.acks >= |cmd.part| ==> k.server == Issue(fin.current, cmd))
    ensures fin.sup.Live? && !InPhase(fin, Waiting) ==>
              (Clean(fin, fin.sup.conn) <==> fin.conns[fin.sup.conn].abandoned.None?)
    ensures forall c :: c in fin.conns && fin.conns[c].failed && !InPhase(fin, Failing) && fin.conns[c].open
              ==> fin.sup == Releasing(c)
  {
    RunKeeps(size, START, run, fin);
    if fin.sup.Live? {
      assert Sound(fin, fin.sup.conn) && Astray(fin, fin.sup.conn);
    }
    forall c | c in fin.conns && fin.conns[c].failed && !InPhase(fin, Failing) && fin.conns[c].open
      ensures fin.sup == Releasing(c)
    {
      assert FailureEnds(fin, c);
    }
  }

  // ---------------------------------------------------------------- the same, told by the events of the run

  predicate IsOpen(e: Event) { e.Open? }
  predicate IsAdopt(e: Event) { e.Adopt? }
  predicate IsRelease(e: Event) { e.Release? }
  predicate IsReleased(e: Event) { e.Released? }
  predicate IsZero(e: Event) { e.ZeroAcks? }
  predicate IsSend(e: Event) { e.Send? || e.SendFail? }
  predicate IsSent(e: Event) { e.Send? }
  predicate IsAnswer(e: Event) { e.Confirmed? || e.WaitFail? }
  predicate IsFailure(e: Event) { e.SendFail? || e.WaitFail? }
  predicate IsDrop(e: Event) { e.Drop? }
  predicate IsConfirmed(e: Event) { e.Confirmed? }

  /** The chunks an apply starts with. */
  function ChunksBegun(st: State, e: Event): nat {
    match e
    case Sync(_, plan) => if Connected(st) then |plan| else 0
    case Resync(plan) => if Connected(st) then |plan| else 0
    case _ => 0
  }

  /** The chunks an apply still has to get confirmed. */
  function ChunksLeft(st: State): int {
    if st.holder.Applying? then |st.holder.plan| - st.holder.done else 0
  }

  /** The confirmations the server sends on `c` in this step. */
  function Sends(st: State, e: Event, c: nat): nat {
    if e == Process(c) && c in st.conns && st.conns[c].cmds != [] then |st.conns[c].cmds[0].part| else 0
  }

  function OnTheWay(st: State, c: nat): nat { if c in st.conns then st.conns[c].replies else 0 }

  /** Chunks begun, chunks given up, and confirmations sent on `c`, over a run. */
  ghost function Begun(size: nat, st: State, run: seq<Event>): nat
    requires Inv(size, st)
    decreases |run|
  {
    if run == [] || !Enabled(size, st, run[0]) then 0
    else (Keeps(size, st, run[0]); ChunksBegun(st, run[0]) + Begun(size, Do(size, st, run[0]), run[1..]))
  }

  ghost function GivenUp(size: nat, st: State, run: seq<Event>): int
    requires Inv(size, st)
    decreases |run|
  {
    if run == [] || !Enabled(size, st, run[0]) then 0
    else (Keeps(size, st, run[0]);
          (if run[0].Drop? then ChunksLeft(st) else 0) + GivenUp(size, Do(size, st, run[0]), run[1..]))
  }

  ghost function Confirmations(size: nat, st: State, run: seq<Event>, c: nat): nat
    requires Inv(size, st)
    decreases |run|
  {
    if run == [] || !Enabled(size, st, run[0]) then 0
    else (Keeps(size, st, run[0]); Sends(st, run[0], c) + Confirmations(size, Do(size, st, run[0]), run[1..], c))
  }

  function ReceivesOf(run: seq<Event>, c: nat): nat {
    if run == [] then 0 else One(run[0] == Receive(c)) + ReceivesOf(run[1..], c)
  }

  /** Every connection goes through the supervisor's hands in order. */
  lemma SupervisorStep(size: nat, st: State, e: Event)
    requires Known(st) && Enabled(size, st, e)
    ensures var fin := Do(size, st, e);
            && One(st.sup.Opened?) + One(e.Open?) == One(fin.sup.Opened?) + One(e.Adopt?)
            && One(st.sup.Live?) + One(st.sup.Ended?) + One(e.Adopt?)
               == One(fin.sup.Live?) + One(fin.sup.Ended?) + One(e.Release?)
            && One(st.sup.Releasing?) + One(e.Release?) == One(fin.sup.Releasing?) + One(e.Released?)
            && (fin.sup.Ended? <==> st.sup.Ended? || (e.Adopt? && st.closing))
            && (fin.closing <==> st.closing || e.BusClose?)
  {}

  /** Every chunk is zeroed for, sent and answered, and every failure drops the connection, in order. */
  lemma ChunkStep(size: nat, st: State, e: Event)
    requires Known(st) && Enabled(size, st, e)
    ensures var fin := Do(size, st, e);
            && One(InPhase(st, Zeroed)) + One(e.ZeroAcks?) == One(InPhase(fin, Zeroed)) + One(IsSend(e))
            && One(InPhase(st, Waiting)) + One(e.Send?) == One(InPhase(fin, Waiting)) + One(IsAnswer(e))
            && One(InPhase(st, Failing)) + One(IsFailure(e)) == One(InPhase(fin, Failing)) + One(e.Drop?)
            && ChunksLeft(st) + ChunksBegun(st, e)
               == ChunksLeft(fin) + One(e.Confirmed?) + if e.Drop? then ChunksLeft(st) else 0
  {}

  /** This step closes connection `c`. */
  predicate Shuts(st: State, e: Event, c: nat) {
    || (st.sub == Some(c) && (e.CloseSub? || e.Drop? || e.BusClose?))
    || (st.sup == Releasing(c) && e.Released?)
    || (st.sup == Opened(c) && e.Adopt? && st.closing)
  }

  ghost predicate EverShuts(size: nat, st: State, run: seq<Event>, c: nat)
    requires Inv(size, st)
    decreases |run|
  {
    && run != [] && Enabled(size, st, run[0])
    && (Shuts(st, run[0], c) || (Keeps(size, st, run[0]); EverShuts(size, Do(size, st, run[0]), run[1..], c)))
  }

  /** A connection was adopted after Close had begun. */
  predicate LateAdopt(closing: bool, run: seq<Event>)
    decreases |run|
  {
    run != [] && ((closing && run[0].Adopt?) || LateAdopt(closing || run[0].BusClose?, run[1..]))
  }

  predicate IsShut(st: State, c: nat) { c in st.conns && !st.conns[c].open }
  predicate IsDeaf(st: State, c: nat) { c in st.conns && !st.conns[c].reader }

  /** What the connections know of the steps taken on them. */
  lemma ConnStep(size: nat, st: State, e: Event, c: nat)
    requires Known(st) && Enabled(size, st, e)
    ensures var fin := Do(size, st, e);
            && (c in fin.conns <==> c in st.conns || e == Open(c))
            && (IsDeaf(fin, c) <==> IsDeaf(st, c) || e == Lose(c))
            && (IsShut(fin, c) <==> IsShut(st, c) || Shuts(st, e, c))
  {
    hide PlanFor, Issue;
    match e
    case Adopt | Drop | CloseSub | Released | BusClose =>
    case Send | SendFail(_) | WaitFail =>
    case _ =>
  }

  lemma ReplyStep(size: nat, st: State, e: Event, c: nat)
    requires Known(st) && Enabled(size, st, e)
    ensures OnTheWay(st, c) + Sends(st, e, c) == OnTheWay(Do(size, st, e), c) + One(e == Receive(c))
  {
    hide PlanFor, Issue;
    match e
    case Adopt | Drop | CloseSub | Released | BusClose =>
    case Send | SendFail(_) | WaitFail =>
    case _ =>
  }

  lemma {:induction false} SupervisorRun(size: nat, st: State, run: seq<Event>, fin: State)
    requires Inv(size, st) && Runs(size, st, run, fin)
    ensures One(st.sup.Opened?) + Times(run, IsOpen) == One(fin.sup.Opened?) + Times(run, IsAdopt)
    ensures One(st.sup.Live?) + One(st.sup.Ended?) + Times(run, IsAdopt)
         == One(fin.sup.Live?) + One(fin.sup.Ended?) + Times(run, IsRelease)
    ensures One(st.sup.Releasing?) + Times(run, IsRelease) == One(fin.sup.Releasing?) + Times(run, IsReleased)
    ensures fin.sup.Ended? <==> st.sup.Ended? || LateAdopt(st.closing, run)
    ensures fin.closing <==> st.closing || BusClose in run
    decreases |run|
  {
    assert Known(st);
    hide Inv, Enabled, Do;
    if run != [] {
      Keeps(size, st, run[0]);
      SupervisorStep(size, st, run[0]);
      SupervisorRun(size, Do(size, st, run[0]), run[1..], fin);
    }
  }

  lemma {:induction false} ChunkRun(size: nat, st: State, run: seq<Event>, fin: State)
    requires Inv(size, st) && Runs(size, st, run, fin)
    ensures One(InPhase(st, Zeroed)) + Times(run, IsZero) == One(InPhase(fin, Zeroed)) + Times(run, IsSend)
    ensures One(InPhase(st, Waiting)) + Times(run, IsSent) == One(InPhase(fin, Waiting)) + Times(run, IsAnswer)
    ensures One(InPhase(st, Failing)) + Times(run, IsFailure) == One(InPhase(fin, Failing)) + Times(run, IsDrop)
    ensures ChunksLeft(st) + Begun(size, st, run)
         == ChunksLeft(fin) + Times(run, IsConfirmed) + GivenUp(size, st, run)
    decreases |run|
  {
    assert Known(st);
    hide Inv, Enabled, Do, InPhase, ChunksLeft, ChunksBegun;
    if run != [] {
      Keeps(size, st, run[0]);
      ChunkStep(size, st, run[0]);
      ChunkRun(size, Do(size, st, run[0]), run[1..], fin);
    }
  }

  lemma {:induction false} ConnRun(size: nat, st: State, run: seq<Event>, fin: State, c: nat)
    requires Inv(size, st) && Runs(size, st, run, fin)
    ensures c in fin.conns <==> c in st.conns || Open(c) in run
    ensures IsDeaf(fin, c) <==> IsDeaf(st, c) || Lose(c) in run
    ensures IsShut(fin, c) <==> IsShut(st, c) || EverShuts(size, st, run, c)
    ensures OnTheWay(st, c) + Confirmations(size, st, run, c) == OnTheWay(fin, c) + ReceivesOf(run, c)
    decreases |run|
  {
    assert Known(st);
    hide Inv, Enabled, Do, IsDeaf, IsShut, Shuts, OnTheWay, Sends;
    if run != [] {
      Keeps(size, st, run[0]);
      ConnStep(size, st, run[0], c);
      ReplyStep(size, st, run[0], c);
      ConnRun(size, Do(size, st, run[0]), run[1..], fin, c);
    }
  }

  /**
   * In every run: each connection opened is adopted, released and closed in turn, and one adopted after
   * Close had begun ends the supervisor; each chunk is counted from zero, sent once, and confirmed or
   * given up with its connection dropped, so none a plan began with goes missing; each confirmation is
   * read once; and a connection is closed, or its reader gone, by the steps that do that and no others.
   */
  lemma SyncByEvents(size: nat, run: seq<Event>, fin: State, c: nat)
    requires Runs(size, START, run, fin)
    ensures Times(run, IsOpen) == One(fin.sup.Opened?) + Times(run, IsAdopt)
    ensures Times(run, IsAdopt) == One(fin.sup.Live?) + One(fin.sup.Ended?) + Times(run, IsRelease)
    ensures Times(run, IsRelease) == One(fin.sup.Releasing?) + Times(run, IsReleased)
    ensures (fin.sup.Ended? <==> LateAdopt(false, run)) && (fin.closing <==> BusClose in run)
    ensures Times(run, IsZero) == One(InPhase(fin, Zeroed)) + Times(run, IsSend)
    ensures Times(run, IsSent) == One(InPhase(fin, Waiting)) + Times(run, IsAnswer)
    ensures Times(run, IsFailure) == One(InPhase(fin, Failing)) + Times(run, IsDrop)
    ensures Begun(size, START, run) == ChunksLeft(fin) + Times(run, IsConfirmed) + GivenUp(size, START, run)
    ensures (c in fin.conns <==> Open(c) in run) && (IsDeaf(fin, c) <==> Lose(c) in run)
    ensures IsShut(fin, c) <==> EverShuts(size, START, run, c)
    ensures Confirmations(size, START, run, c) == OnTheWay(fin, c) + ReceivesOf(run, c)
  {
    SupervisorRun(size, START, run, fin);
    ChunkRun(size, START, run, fin);
    ConnRun(size, START, run, fin, c);
  }

  // ---------------------------------------------------------------- what nil from Sync means

  /** This step ends a Sync, or the resync after a reconnect, with nil. */
  ghost predicate ReturnsNil(st: State, e: Event) {
    match e
    case Sync(_, plan) => Connected(st) && plan == []
    case Resync(plan) => Connected(st) && plan == []
    case Confirmed => st.holder.Applying? && st.holder.done + 1 == |st.holder.plan|
    case _ => false
  }

  /** This step gives up on a chunk that reached the wire of `c`. */
  predicate Abandons(st: State, e: Event, c: nat) {
    st.holder.Applying? && st.holder.conn == c && (e.WaitFail? || (e.SendFail? && e.delivered))
  }

  ghost predicate EverAbandons(size: nat, st: State, run: seq<Event>, c: nat)
    requires Inv(size, st)
    decreases |run|
  {
    && run != [] && Enabled(size, st, run[0])
    && (Abandons(st, run[0], c)
        || (Keeps(size, st, run[0]); EverAbandons(size, Do(size, st, run[0]), run[1..], c)))
  }

  lemma GaveUpStep(size: nat, st: State, e: Event, c: nat)
    requires Known(st) && Enabled(size, st, e)
    ensures GaveUp(Do(size, st, e), c) <==> GaveUp(st, c) || Abandons(st, e, c)
  {}

  lemma {:induction false} GaveUpMeans(size: nat, st: State, run: seq<Event>, fin: State, c: nat)
    requires Inv(size, st) && Runs(size, st, run, fin)
    ensures GaveUp(fin, c) <==> GaveUp(st, c) || EverAbandons(size, st, run, c)
    decreases |run|
  {
    assert Known(st);
    hide Inv, Enabled, Do, GaveUp, Abandons;
    if run != [] {
      Keeps(size, st, run[0]);
      GaveUpStep(size, st, run[0], c);
      GaveUpMeans(size, Do(size, st, run[0]), run[1..], fin, c);
    }
  }

  /** The connection `nil` speaks of: the one that confirmed, or the live one. */
  function Spoken(st: State, e: Event): Option<nat> {
    if e.Confirmed? && st.holder.Applying? then Some(st.holder.conn) else st.sub
  }

  /**
   * Nil means one connection has confirmed exactly the desired set, with nothing outstanding, if and
   * only if no earlier Sync or resync gave up on a chunk that had reached its wire. That is always so
   * when a command was sent.
   */
  lemma NilMeansApplied(size: nat, run: seq<Event>, st: State, e: Event) returns (c: nat, fin: State)
    requires Runs(size, START, run, st) && Known(st) && Enabled(size, st, e) && ReturnsNil(st, e)
    ensures fin == Do(size, st, e) && Some(c) == Spoken(st, e) && c in fin.conns
    ensures fin.holder.Free? && fin.current == fin.desired
    ensures (fin.conns[c].server == fin.desired && fin.conns[c].cmds == [] && fin.conns[c].replies == 0)
              <==> !EverAbandons(size, START, run, c)
    ensures e.Confirmed? ==> !EverAbandons(size, START, run, c)
  {
    RunKeeps(size, START, run, st);
    Keeps(size, st, e);
    fin := Do(size, st, e);
    c := Spoken(st, e).value;
    GaveUpMeans(size, START, run, st, c);
    assert Astray(st, c);
    if e.Confirmed? {
      var h := st.holder;
      assert h.plan[..h.done + 1] == h.plan;
      assert h.plan[..h.done + 1][..h.done] == h.plan[..h.done];
    } else {
      assert Sound(st, c);
    }
  }

  ghost predicate Next(size: nat, st: State, e: Event, fin: State) {
    Known(st) && Enabled(size, st, e) && Do(size, st, e) == fin
  }

  lemma Taken(size: nat, st: State, e: Event) returns (fin: State)
    requires Inv(size, st) && Enabled(size, st, e)
    ensures Next(size, st, e, fin) && Inv(size, fin)
  {
    Keeps(size, st, e);
    fin := Do(size, st, e);
  }

  /** A chunk sent and processed, and not confirmed yet. */
  lemma Processed(size: nat, st: State, extra: Text) returns (fin: State)
    requires size > 0 && Inv(size, st) && st.holder.Free? && st.sup.Live? && st.desired == st.current
    requires st.conns[st.sup.conn].open && extra !in st.current
    ensures exists s1, s2, s3 ::
              && Next(size, st, Sync(st.current + {extra}, [Command(true, [extra])]), s1)
              && Next(size, s1, ZeroAcks, s2) && Next(size, s2, Send, s3) && Next(size, s3, Process(st.sup.conn), fin)
    ensures Inv(size, fin) && InPhase(fin, Waiting) && fin.sup == st.sup && fin.current == st.current
    ensures fin.holder.conn == st.sup.conn && fin.conns[st.sup.conn].server == st.current + {extra}
  {
    var c, plan := st.sup.conn, [Command(true, [extra])];
    assert Sound(st, c) && FailureEnds(st, c);
    assert plan[..0] == [] && IssueAll(st.current, []) == st.current;
    assert Elems([extra]) == {extra};
    assert PlanFor(st.current, st.current + {extra}, size, plan);
    hide Inv, PlanFor;
    var s1 := Taken(size, st, Sync(st.current + {extra}, plan));
    var s2 := Taken(size, s1, ZeroAcks);
    var s3 := Taken(size, s2, Send);
    assert s3.conns[c].cmds == [plan[0]];
    fin := Taken(size, s3, Process(c));
  }

  /**
   * The failing case happens. A Sync that adds one name and is cancelled after the server processed
   * it closes the connection; a Sync back to the old set, before the reader notices, finds nothing
   * to do and answers nil, on a connection that held something else.
   */
  lemma NilAfterAbandonedChunk(size: nat, st: State, extra: Text) returns (s4: State, s6: State, fin: State)
    requires size > 0 && Inv(size, st) && st.holder.Free? && st.sup.Live? && st.desired == st.current
    requires st.conns[st.sup.conn].open && extra !in st.current
    ensures exists s1, s2, s3 ::
              && Next(size, st, Sync(st.current + {extra}, [Command(true, [extra])]), s1)
              && Next(size, s1, ZeroAcks, s2) && Next(size, s2, Send, s3) && Next(size, s3, Process(st.sup.conn), s4)
    ensures exists s5 :: Next(size, s4, WaitFail, s5) && Next(size, s5, Drop, s6)
    ensures ReturnsNil(s6, Sync(st.current, [])) && Next(size, s6, Sync(st.current, []), fin)
    ensures st.sup.conn in fin.conns && !fin.conns[st.sup.conn].open
    ensures fin.desired == st.current && fin.conns[st.sup.conn].server == st.current + {extra} != fin.desired
  {
    s4 := Processed(size, st, extra);
    assert Roles(s4) && PlanFor(st.current, st.current, size, []) by {
      assert IssueAll(st.current, []) == st.current;
    }
    hide Inv, PlanFor;
    var s5 := Taken(size, s4, WaitFail);
    s6 := Taken(size, s5, Drop);
    fin := Taken(size, s6, Sync(st.current, []));
  }
}
