/** internal/hub: queues, subscriptions and hand-overs as told by the steps of a run. */
module HubHistory {
  import opened Bytes
  import opened Events
  import opened HubSpec
  import opened HubOrder

  // ---------------------------------------------------------------- what one step does to a connection

  /** The keys of a registered connection. */
  function HoldsOf(subs: map<Sink, set<Key>>, s: Sink): Option<set<Key>> {
    if s in subs then Some(subs[s]) else None
  }

  /** What a connection holds after an event, if it held `h`: only its own sections and control change that. */
  function HeldAfter(cfg: Config, s: Sink, h: Option<set<Key>>, e: Event): Option<set<Key>> {
    match e
    case Register(t) => if t == s && h.None? then Some({}) else h
    case BeginRemove(t) => if t == s then None else h
    case BeginAttach(t, requested, _) =>
      if t == s && h.Some? then Some(h.value + Keys(cfg, Granted(cfg, h.value, requested))) else h
    case BeginSubscribe(t, ch, _) => if t == s && h.Some? then Some(h.value + {cfg.prefix + ch}) else h
    case BeginUnsubscribe(t, ch, _) => if t == s && h.Some? then Some(h.value - {cfg.prefix + ch}) else h
    case BeginControl(drops) => if h.Some? then Some(set k | k in h.value && (s, k) !in drops) else h
    case _ => h
  }

  /** The frame a step offers to the connection's queue. */
  ghost function OfferedTo(cfg: Config, st: State, e: Event, s: Sink): Option<Frame>
    requires Enabled(cfg, st, e)
  {
    match e
    case WriterOffer => if st.writer.todo[0].to == s then Some(st.writer.todo[0].frame) else None
    case ReaderOffer(t) =>
      var r := st.readers[t];
      if r.checked == Some(s) then Some(Pub(ChannelName(cfg, r.key), r.payload)) else None
    case OfferOwn(t, f) => if t == s then Some(f) else None
    case _ => None
  }

  predicate NoRoom(st: State, s: Sink) {
    s in st.conns && |st.conns[s].accepted| - st.conns[s].taken >= st.conns[s].capacity
  }

  /** The connection refuses a push, a reply or a notice of the registry. */
  ghost predicate Refuses(cfg: Config, st: State, e: Event, s: Sink)
    requires Enabled(cfg, st, e)
  {
    !e.OfferOwn? && OfferedTo(cfg, st, e, s).Some? && NoRoom(st, s)
  }

  /** It loses a reply that would have announced something: never encoded, or refused. */
  ghost predicate Cheats(cfg: Config, st: State, e: Event, s: Sink)
    requires Enabled(cfg, st, e)
  {
    || (e.BeginAttach? && e.s == s && s in st.subs && !e.encodes)
    || (e.BeginSubscribe? && e.s == s && !e.acked)
    || (Refuses(cfg, st, e, s)
        && (OfferedTo(cfg, st, e, s).value.ConnectReply? || OfferedTo(cfg, st, e, s).value.SubscribeReply?))
  }

  ghost function Accepts(cfg: Config, st: State, e: Event, s: Sink): seq<Frame>
    requires Enabled(cfg, st, e)
  {
    var f := OfferedTo(cfg, st, e, s);
    if f.Some? && !NoRoom(st, s) then [f.value] else []
  }

  function QueueOf(st: State, s: Sink): seq<Frame> { if s in st.conns then st.conns[s].accepted else [] }

  function TakenOf(st: State, s: Sink): nat { if s in st.conns then st.conns[s].taken else 0 }

  predicate ClosedConn(st: State, s: Sink) { s in st.conns && st.conns[s].closed }

  lemma QueueStep(cfg: Config, st: State, e: Event, s: Sink)
    requires Known(st) && Enabled(cfg, st, e)
    ensures QueueOf(Do(cfg, st, e), s) == QueueOf(st, s) + Accepts(cfg, st, e, s)
  {
    hide Granted, Keys, SubscribeRefusal, Droppable, AfterDrops, Pushes;
    match e
    case WriterOffer | ReaderOffer(_) | OfferOwn(_, _) =>
    case _ =>
  }

  lemma ConnStep(cfg: Config, st: State, e: Event, s: Sink)
    requires Known(st) && Enabled(cfg, st, e)
    ensures var st' := Do(cfg, st, e);
            && (s in st'.conns <==> s in st.conns || (e.Create? && e.s == s))
            && TakenOf(st', s) == TakenOf(st, s) + One(e == TakeOne(s))
            && (ClosedConn(st', s) <==> ClosedConn(st, s) || e == MarkClosed(s))
            && (s in st.conns ==> st'.conns[s].capacity == st.conns[s].capacity)
  {
    hide Granted, Keys, SubscribeRefusal, Droppable, AfterDrops, Pushes;
    match e
    case WriterOffer | ReaderOffer(_) | OfferOwn(_, _) =>
    case _ =>
  }

  lemma RefusalStep(cfg: Config, st: State, e: Event, s: Sink)
    requires Known(st) && Enabled(cfg, st, e)
    ensures var st' := Do(cfg, st, e);
            && (s in st'.refused <==> s in st.refused || Refuses(cfg, st, e, s))
            && (s in st'.unannounced <==> s in st.unannounced || Cheats(cfg, st, e, s))
  {
    hide Granted, Keys, SubscribeRefusal, Droppable, AfterDrops, Pushes;
    match e
    case WriterOffer | ReaderOffer(_) | OfferOwn(_, _) =>
    case BeginSubscribe(_, _, _) | BeginAttach(_, _, _) =>
    case _ =>
  }

  lemma HeldStep(cfg: Config, st: State, e: Event, s: Sink)
    requires Known(st) && Enabled(cfg, st, e)
    ensures HoldsOf(Do(cfg, st, e).subs, s) == HeldAfter(cfg, s, HoldsOf(st.subs, s), e)
  {
    hide Granted, Keys, Droppable, Pushes;
    match e
    case BeginControl(drops) =>
    case BeginSubscribe(_, _, _) | BeginAttach(_, _, _) | BeginUnsubscribe(_, _, _) | BeginRemove(_) =>
    case _ =>
  }

  /** A queue never holds more than its capacity. */
  predicate WithinCapacity(st: State, s: Sink) {
    s in st.conns ==> st.conns[s].taken <= |st.conns[s].accepted| <= st.conns[s].taken + st.conns[s].capacity
  }

  lemma CapacityStep(cfg: Config, st: State, e: Event, s: Sink)
    requires Known(st) && WithinCapacity(st, s) && Enabled(cfg, st, e)
    ensures WithinCapacity(Do(cfg, st, e), s)
  {
    hide Granted, Keys, SubscribeRefusal, Droppable, AfterDrops, Pushes;
    match e
    case WriterOffer | ReaderOffer(_) | OfferOwn(_, _) =>
    case _ =>
  }

  // ---------------------------------------------------------------- what one step does to the sections

  predicate Begins(e: Event) {
    e.BeginAttach? || e.BeginSubscribe? || e.BeginUnsubscribe? || e.BeginControl? || e.BeginRemove?
  }

  /** The frames a write section is to send, in order, from what it is asked to do. */
  ghost function JobsBegun(cfg: Config, st: State, e: Event): seq<Job> {
    match e
    case BeginAttach(s, requested, encodes) =>
      if !encodes then []
      else [Job(s, ConnectReply(if s in st.subs then Granted(cfg, st.subs[s], requested) else []))]
    case BeginSubscribe(s, ch, acked) => if acked then [Job(s, SubscribeReply(ch))] else []
    case BeginUnsubscribe(s, ch, acked) => if acked then [Job(s, UnsubscribeReply(ch))] else []
    case BeginControl(drops) =>
      seq(|drops|, i requires 0 <= i < |drops| => Job(drops[i].0, Unsubscribed(ChannelName(cfg, drops[i].1))))
    case _ => []
  }

  /** The frame it is done with: offered, or dropped for a closed connection. */
  ghost function JobsDone(cfg: Config, st: State, e: Event): seq<Job>
    requires Known(st) && Enabled(cfg, st, e)
  {
    if e.WriterOffer? || (e.WriterCheck? && st.conns[st.writer.todo[0].to].closed) then [st.writer.todo[0]] else []
  }

  predicate PastCheck(st: State) { st.writer.Writing? && st.writer.checked }

  ghost predicate ChecksOpen(cfg: Config, st: State, e: Event)
    requires Known(st) && Enabled(cfg, st, e)
  {
    e.WriterCheck? && !st.conns[st.writer.todo[0].to].closed
  }

  lemma LockStep(cfg: Config, st: State, e: Event)
    requires Known(st) && Enabled(cfg, st, e) && (PastCheck(st) ==> Todo(st) != [])
    ensures var st' := Do(cfg, st, e);
            && One(st.writer.Writing?) + One(Begins(e)) == One(st'.writer.Writing?) + One(e.EndWrite?)
            && One(PastCheck(st)) + One(ChecksOpen(cfg, st, e)) == One(PastCheck(st')) + One(e.WriterOffer?)
            && (PastCheck(st') ==> Todo(st') != [])
  {
    hide Granted, Keys, SubscribeRefusal, Droppable, AfterDrops, Pushes;
    match e
    case WriterCheck | WriterOffer =>
    case _ =>
  }

  lemma BeginStep(cfg: Config, st: State, e: Event)
    requires Known(st) && Enabled(cfg, st, e) && Begins(e)
    ensures Todo(st) == [] && JobsDone(cfg, st, e) == [] && JobsBegun(cfg, st, e) == Todo(Do(cfg, st, e))
  {
    hide Granted, Keys, SubscribeRefusal, Droppable, AfterDrops;
    match e
    case BeginControl(drops) => assert Pushes(cfg, drops) == JobsBegun(cfg, st, e);
    case BeginAttach(_, _, _) | BeginSubscribe(_, _, _) | BeginUnsubscribe(_, _, _) | BeginRemove(_) =>
  }

  lemma SendStep(cfg: Config, st: State, e: Event)
    requires Known(st) && Enabled(cfg, st, e) && !Begins(e)
    ensures JobsBegun(cfg, st, e) == [] && Todo(st) == JobsDone(cfg, st, e) + Todo(Do(cfg, st, e))
  {
    hide Granted, Keys, SubscribeRefusal, Droppable, AfterDrops, Pushes;
    match e
    case WriterCheck | WriterOffer => assert st.writer.todo == [st.writer.todo[0]] + st.writer.todo[1..];
    case EndWrite =>
    case _ =>
  }

  lemma JobStep(cfg: Config, st: State, e: Event)
    requires Known(st) && Enabled(cfg, st, e)
    ensures Todo(st) + JobsBegun(cfg, st, e) == JobsDone(cfg, st, e) + Todo(Do(cfg, st, e))
  {
    hide Do, Enabled, JobsBegun, JobsDone, Todo, Known;
    if Begins(e) {
      BeginStep(cfg, st, e);
    } else {
      SendStep(cfg, st, e);
    }
  }

  /** The section that found the connection slow unlocks. */
  ghost predicate EndsSlow(cfg: Config, st: State, e: Event, s: Sink)
    requires Enabled(cfg, st, e)
  {
    (e.EndWrite? && s in st.writer.slow) || (e.EndRead? && s in st.readers[e.t].slow)
  }

  /** Only connections that refused are on their way to the closer. */
  ghost predicate OnlyRefused(st: State) {
    && st.pending <= st.refused && st.handed <= st.refused
    && (st.writer.Writing? ==> st.writer.slow <= st.refused)
    && (forall t :: t in st.readers ==> st.readers[t].slow <= st.refused)
  }

  lemma HandoverStep(cfg: Config, st: State, e: Event, s: Sink, t: nat)
    requires Known(st) && Enabled(cfg, st, e)
    ensures var st' := Do(cfg, st, e);
            && (s in st'.handed <==> s in st.handed || e == Enqueue(s))
            && (s in st'.pending <==> (s in st.pending && e != Enqueue(s)) || EndsSlow(cfg, st, e, s))
            && One(t in st.readers) + One(e.BeginDispatch? && e.t == t) == One(t in st'.readers) + One(e == EndRead(t))
  {
    hide Granted, Keys, SubscribeRefusal, Droppable, AfterDrops, Pushes;
    match e
    case ReaderCheck(_, _) | ReaderOffer(_) | EndRead(_) | BeginDispatch(_, _, _, _) =>
    case WriterOffer | EndWrite | Enqueue(_) =>
    case _ =>
  }

  lemma RefusedStep(cfg: Config, st: State, e: Event)
    requires Known(st) && OnlyRefused(st) && Enabled(cfg, st, e)
    ensures OnlyRefused(Do(cfg, st, e))
  {
    hide Granted, Keys, SubscribeRefusal, Droppable, AfterDrops, Pushes;
    match e
    case ReaderCheck(_, _) | ReaderOffer(_) | EndRead(_) | BeginDispatch(_, _, _, _) =>
    case WriterOffer | EndWrite | Enqueue(_) =>
    case _ =>
  }

  // ---------------------------------------------------------------- whole runs

  /** What a connection holds after a run, told by its own sections and by control. */
  function HeldByRun(cfg: Config, s: Sink, h: Option<set<Key>>, run: seq<Event>): Option<set<Key>>
    decreases |run|
  {
    if run == [] then h else HeldByRun(cfg, s, HeldAfter(cfg, s, h, run[0]), run[1..])
  }

  /** Every frame the connection's queue took in the run, in order. */
  ghost function Accepted(cfg: Config, st: State, run: seq<Event>, s: Sink): seq<Frame>
    requires Inv(cfg, st)
    decreases |run|
  {
    if run == [] || !Enabled(cfg, st, run[0]) then []
    else (Keeps(cfg, st, run[0]); Accepts(cfg, st, run[0], s) + Accepted(cfg, Do(cfg, st, run[0]), run[1..], s))
  }

  ghost predicate EverRefuses(cfg: Config, st: State, run: seq<Event>, s: Sink)
    requires Inv(cfg, st)
    decreases |run|
  {
    && run != [] && Enabled(cfg, st, run[0])
    && (Refuses(cfg, st, run[0], s) || (Keeps(cfg, st, run[0]); EverRefuses(cfg, Do(cfg, st, run[0]), run[1..], s)))
  }

  ghost predicate EverCheats(cfg: Config, st: State, run: seq<Event>, s: Sink)
    requires Inv(cfg, st)
    decreases |run|
  {
    && run != [] && Enabled(cfg, st, run[0])
    && (Cheats(cfg, st, run[0], s) || (Keeps(cfg, st, run[0]); EverCheats(cfg, Do(cfg, st, run[0]), run[1..], s)))
  }

  /** The frames the run's write sections were to send, and those they are done with. */
  ghost function Begun(cfg: Config, st: State, run: seq<Event>): seq<Job>
    requires Inv(cfg, st)
    decreases |run|
  {
    if run == [] || !Enabled(cfg, st, run[0]) then []
    else (Keeps(cfg, st, run[0]); JobsBegun(cfg, st, run[0]) + Begun(cfg, Do(cfg, st, run[0]), run[1..]))
  }

  ghost function Finished(cfg: Config, st: State, run: seq<Event>): seq<Job>
    requires Inv(cfg, st)
    decreases |run|
  {
    if run == [] || !Enabled(cfg, st, run[0]) then []
    else (Keeps(cfg, st, run[0]); JobsDone(cfg, st, run[0]) + Finished(cfg, Do(cfg, st, run[0]), run[1..]))
  }

  /** How often a writer found a connection open, and how often a section ended that had found `s` slow. */
  ghost function OpenChecks(cfg: Config, st: State, run: seq<Event>): nat
    requires Inv(cfg, st)
    decreases |run|
  {
    if run == [] || !Enabled(cfg, st, run[0]) then 0
    else (Keeps(cfg, st, run[0]); One(ChecksOpen(cfg, st, run[0])) + OpenChecks(cfg, Do(cfg, st, run[0]), run[1..]))
  }

  ghost function SlowEnds(cfg: Config, st: State, run: seq<Event>, s: Sink): nat
    requires Inv(cfg, st)
    decreases |run|
  {
    if run == [] || !Enabled(cfg, st, run[0]) then 0
    else (Keeps(cfg, st, run[0]); One(EndsSlow(cfg, st, run[0], s)) + SlowEnds(cfg, Do(cfg, st, run[0]), run[1..], s))
  }

  predicate IsOffer(e: Event) { e.WriterOffer? }
  predicate IsEndWrite(e: Event) { e.EndWrite? }

  function EnqueuesOf(run: seq<Event>, s: Sink): nat {
    if run == [] then 0 else One(run[0] == Enqueue(s)) + EnqueuesOf(run[1..], s)
  }

  function TakesOf(run: seq<Event>, s: Sink): nat {
    if run == [] then 0 else One(run[0] == TakeOne(s)) + TakesOf(run[1..], s)
  }

  function ReadsBegun(run: seq<Event>, t: nat): nat {
    if run == [] then 0 else One(run[0].BeginDispatch? && run[0].t == t) + ReadsBegun(run[1..], t)
  }

  function ReadsEnded(run: seq<Event>, t: nat): nat {
    if run == [] then 0 else One(run[0] == EndRead(t)) + ReadsEnded(run[1..], t)
  }

  lemma {:induction false} ConnRun(cfg: Config, st: State, run: seq<Event>, fin: State, s: Sink)
    requires Inv(cfg, st) && Runs(cfg, st, run, fin)
    ensures HoldsOf(fin.subs, s) == HeldByRun(cfg, s, HoldsOf(st.subs, s), run)
    ensures QueueOf(fin, s) == QueueOf(st, s) + Accepted(cfg, st, run, s)
    ensures TakenOf(fin, s) == TakenOf(st, s) + TakesOf(run, s)
    ensures ClosedConn(fin, s) <==> ClosedConn(st, s) || MarkClosed(s) in run
    ensures s in fin.refused <==> s in st.refused || EverRefuses(cfg, st, run, s)
    ensures s in fin.unannounced <==> s in st.unannounced || EverCheats(cfg, st, run, s)
    decreases |run|
  {
    assert Known(st);
    hide Inv, Enabled, Do, Known, HoldsOf, HeldAfter, QueueOf, TakenOf, ClosedConn, Accepts, Refuses, Cheats;
    if run != [] {
      var e := run[0];
      Keeps(cfg, st, e);
      HeldStep(cfg, st, e, s);
      QueueStep(cfg, st, e, s);
      ConnStep(cfg, st, e, s);
      RefusalStep(cfg, st, e, s);
      ConnRun(cfg, Do(cfg, st, e), run[1..], fin, s);
    }
  }

  lemma {:induction false} SectionRun(cfg: Config, st: State, run: seq<Event>, fin: State)
    requires Inv(cfg, st) && Runs(cfg, st, run, fin) && (PastCheck(st) ==> Todo(st) != [])
    ensures Todo(st) + Begun(cfg, st, run) == Finished(cfg, st, run) + Todo(fin)
    ensures One(st.writer.Writing?) + Times(run, Begins) == One(fin.writer.Writing?) + Times(run, IsEndWrite)
    ensures One(PastCheck(st)) + OpenChecks(cfg, st, run) == One(PastCheck(fin)) + Times(run, IsOffer)
    decreases |run|
  {
    assert Known(st);
    hide Inv, Enabled, Do, Known, JobsBegun, JobsDone, Todo, PastCheck, ChecksOpen;
    if run != [] {
      var e, next := run[0], Do(cfg, st, run[0]);
      Keeps(cfg, st, e);
      LockStep(cfg, st, e);
      JobStep(cfg, st, e);
      SectionRun(cfg, next, run[1..], fin);
      Chain(Todo(st), JobsBegun(cfg, st, e), JobsDone(cfg, st, e), Todo(next),
            Begun(cfg, next, run[1..]), Finished(cfg, next, run[1..]), Todo(fin));
    }
  }

  lemma {:induction false} HandoverRun(cfg: Config, st: State, run: seq<Event>, fin: State, s: Sink, t: nat)
    requires Inv(cfg, st) && Runs(cfg, st, run, fin) && OnlyRefused(st) && WithinCapacity(st, s)
    ensures OnlyRefused(fin) && WithinCapacity(fin, s)
    ensures s in fin.handed <==> s in st.handed || Enqueue(s) in run
    ensures One(s in fin.pending) + EnqueuesOf(run, s) <= One(s in st.pending) + SlowEnds(cfg, st, run, s)
    ensures One(t in st.readers) + ReadsBegun(run, t) == One(t in fin.readers) + ReadsEnded(run, t)
    decreases |run|
  {
    assert Known(st);
    hide Inv, Do, Known, OnlyRefused, EndsSlow, WithinCapacity;
    if run != [] {
      var e := run[0];
      PendingFirst(cfg, st, e, s);
      hide Enabled;
      Keeps(cfg, st, e);
      RefusedStep(cfg, st, e);
      CapacityStep(cfg, st, e, s);
      HandoverStep(cfg, st, e, s, t);
      HandoverRun(cfg, Do(cfg, st, e), run[1..], fin, s, t);
    }
  }

  lemma PendingFirst(cfg: Config, st: State, e: Event, s: Sink)
    requires Enabled(cfg, st, e)
    ensures e == Enqueue(s) ==> s in st.pending
  {}

  /**
   * In every run, for every connection: it holds what its own attach, subscribe, unsubscribe and remove
   * sections and control make of each other, in order; its queue is the frames offered to it while there
   * was room, in order, and never over its capacity; it has refused, or lost an announcing reply, exactly
   * where a frame met a full queue or was never encoded. Write sections send exactly the frames their
   * requests call for, in order, each after its own check; a section that begins ends at most once; and a
   * connection is handed over only after refusing, and at most once for each section that found it slow.
   */
  lemma HubByEvents(cfg: Config, run: seq<Event>, fin: State, s: Sink, t: nat)
    requires Runs(cfg, START, run, fin)
    ensures HoldsOf(fin.subs, s) == HeldByRun(cfg, s, None, run)
    ensures QueueOf(fin, s) == Accepted(cfg, START, run, s) && WithinCapacity(fin, s)
    ensures TakenOf(fin, s) == TakesOf(run, s) && (ClosedConn(fin, s) <==> MarkClosed(s) in run)
    ensures s in fin.refused <==> EverRefuses(cfg, START, run, s)
    ensures s in fin.unannounced <==> EverCheats(cfg, START, run, s)
    ensures Begun(cfg, START, run) == Finished(cfg, START, run) + Todo(fin)
    ensures Times(run, Begins) == One(fin.writer.Writing?) + Times(run, IsEndWrite)
    ensures OpenChecks(cfg, START, run) == One(PastCheck(fin)) + Times(run, IsOffer)
    ensures (s in fin.handed <==> Enqueue(s) in run) && OnlyRefused(fin)
    ensures One(s in fin.pending) + EnqueuesOf(run, s) <= SlowEnds(cfg, START, run, s)
    ensures ReadsBegun(run, t) == One(t in fin.readers) + ReadsEnded(run, t)
  {
    ConnRun(cfg, START, run, fin, s);
    SectionRun(cfg, START, run, fin);
    HandoverRun(cfg, START, run, fin, s, t);
  }
}
