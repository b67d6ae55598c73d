/**
 * internal/hub under concurrency: what order frames reach a connection's queue in.
 *
 * Every goroutine that touches the registry is a run of small steps: taking the read or write
 * lock, one closed-check and one non-blocking offer per Send, and letting go. Anything may happen
 * between two steps that the lock does not forbid, including a connection being closed between
 * the check and the offer of a Send.
 */
module HubOrder {
  import opened Bytes
  import opened HubSpec

  // ---------------------------------------------------------------- what a queue tells the client

  predicate Announces(f: Frame, ch: Channel) {
    match f
    case ConnectReply(granted) => ch in granted
    case SubscribeReply(c) => c == ch
    case _ => false
  }

  predicate Retracts(f: Frame, ch: Channel) {
    match f
    case UnsubscribeReply(c) => c == ch
    case Unsubscribed(c) => c == ch
    case _ => false
  }

  /** After reading `h`, the client has been told it holds `ch`. */
  predicate Announced(h: seq<Frame>, ch: Channel) {
    h != [] &&
    var f := h[|h| - 1];
    Announces(f, ch) || (!Retracts(f, ch) && Announced(h[..|h| - 1], ch))
  }

  /** The same, by position: an accepted reply announced it and nothing since has retracted it. */
  lemma {:induction false} AnnouncedMeans(h: seq<Frame>, ch: Channel)
    ensures Announced(h, ch) <==>
            exists j :: 0 <= j < |h| && Announces(h[j], ch) && forall k :: j < k < |h| ==> !Retracts(h[k], ch)
  {
    if h != [] {
      var n := |h| - 1;
      AnnouncedMeans(h[..n], ch);
      if Announced(h, ch) && !Announces(h[n], ch) {
        var j :| 0 <= j < n && Announces(h[..n][j], ch) && forall k :: j < k < n ==> !Retracts(h[..n][k], ch);
        forall k | j < k < |h| ensures !Retracts(h[k], ch) {
          if k < n {
            assert h[..n][k] == h[k];
          }
        }
        assert Announces(h[j], ch);
      }
      if j :| 0 <= j < |h| && Announces(h[j], ch) && forall k :: j < k < |h| ==> !Retracts(h[k], ch) {
        if j < n {
          assert Announces(h[..n][j], ch);
        }
      }
    }
  }

  /** Every push in `h` is for a channel the client has been told it holds at that point. */
  predicate Ordered(h: seq<Frame>) {
    forall i :: 0 <= i < |h| && h[i].Pub? ==> Announced(h[..i], h[i].channel)
  }

  /** A frame that says nothing about which channels are held. */
  predicate Neutral(f: Frame) {
    f.Disconnect? || f.OtherReply?
  }

  lemma OrderedAppend(h: seq<Frame>, f: Frame)
    requires Ordered(h) && (f.Pub? ==> Announced(h, f.channel))
    ensures Ordered(h + [f])
    ensures forall ch :: Announced(h + [f], ch) <==> Announces(f, ch) || (!Retracts(f, ch) && Announced(h, ch))
  {
    var g := h + [f];
    assert g[..|g| - 1] == h;
    forall i | 0 <= i < |g| && g[i].Pub? ensures Announced(g[..i], g[i].channel) {
      if i < |h| {
        assert g[..i] == h[..i] && g[i] == h[i];
      } else {
        assert g[..i] == h;
      }
    }
  }

  // ---------------------------------------------------------------- state

  /** A connection: every frame its queue ever accepted, and how many its writer has taken out. */
  datatype Conn = Conn(accepted: seq<Frame>, taken: nat, capacity: nat, closed: bool) {
    predicate Full() { |accepted| - taken >= capacity }
  }

  datatype Job = Job(to: Sink, frame: Frame)

  /** A goroutine holding the write lock, with the sends its section still has to make. */
  datatype Writer = Idle | Writing(todo: seq<Job>, checked: bool, slow: set<Sink>)

  /** A dispatch worker holding the read lock. */
  datatype Reader = Reader(key: Key, payload: nat, todo: set<Sink>, checked: Option<Sink>, slow: set<Sink>)

  datatype State = State(
    subs: map<Sink, set<Key>>,
    conns: map<Sink, Conn>,
    writer: Writer,
    readers: map<nat, Reader>,
    pending: set<Sink>,     // refused, and enqueueClose not called yet
    handed: set<Sink>,      // given to the closer
    refused: set<Sink>,     // ever refused a frame
    unannounced: set<Sink>) // ever refused an announcing reply, or was given a nil one

  datatype Event =
    | Create(s: Sink, capacity: nat)
    | Register(s: Sink)
    | BeginAttach(s: Sink, requested: seq<Channel>, encodes: bool)
    | BeginSubscribe(s: Sink, channel: Channel, acked: bool)
    | BeginUnsubscribe(s: Sink, channel: Channel, acked: bool)
    | BeginControl(drops: seq<(Sink, Key)>)
    | BeginRemove(s: Sink)
    | WriterCheck
    | WriterOffer
    | EndWrite
    | BeginDispatch(t: nat, key: Key, payload: nat, exclude: Text)
    | ReaderCheck(t: nat, s: Sink)
    | ReaderOffer(t: nat)
    | EndRead(t: nat)
    | Enqueue(s: Sink)
    | MarkClosed(s: Sink)
    | OfferOwn(s: Sink, frame: Frame)
    | TakeOne(s: Sink)

  predicate Unlocked(st: State) { st.writer.Idle? && st.readers == map[] }

  /** The subscriptions controlUnsubscribe drops: held, and each listed once. */
  ghost predicate Droppable(subs: map<Sink, set<Key>>, drops: seq<(Sink, Key)>) {
    && (forall i :: 0 <= i < |drops| ==> drops[i].0 in subs && drops[i].1 in subs[drops[i].0])
    && (forall i, j :: 0 <= i < j < |drops| ==> drops[i] != drops[j])
  }

  ghost predicate Enabled(cfg: Config, st: State, e: Event) {
    match e
    case Create(s, capacity) => s !in st.conns
    case Register(s) => Unlocked(st) && s in st.conns
    case BeginAttach(s, requested, encodes) => Unlocked(st) && s in st.conns
    case BeginSubscribe(s, ch, acked) => Unlocked(st) && s in st.conns && SubscribeRefusal(cfg, st.subs, s, ch).None?
    case BeginUnsubscribe(s, ch, acked) => Unlocked(st) && s in st.subs && KeyOf(cfg, ch) in st.subs[s]
    case BeginControl(drops) => Unlocked(st) && Droppable(st.subs, drops)
    case BeginRemove(s) => Unlocked(st)
    case WriterCheck => st.writer.Writing? && st.writer.todo != [] && !st.writer.checked
    case WriterOffer => st.writer.Writing? && st.writer.todo != [] && st.writer.checked
    case EndWrite => st.writer.Writing? && st.writer.todo == []
    case BeginDispatch(t, key, payload, exclude) => st.writer.Idle? && t !in st.readers
    case ReaderCheck(t, s) => t in st.readers && s in st.readers[t].todo && st.readers[t].checked.None?
    case ReaderOffer(t) => t in st.readers && st.readers[t].checked.Some?
    case EndRead(t) => t in st.readers && st.readers[t].todo == {} && st.readers[t].checked.None?
    case Enqueue(s) => s in st.pending
    case MarkClosed(s) => s in st.conns
    case OfferOwn(s, f) => s in st.conns && Neutral(f)
    case TakeOne(s) => s in st.conns && st.conns[s].taken < |st.conns[s].accepted|
  }

  /** The non-blocking offer: queue, or refuse when full. */
  function Offer(st: State, s: Sink, f: Frame): State
    requires s in st.conns
  {
    var c := st.conns[s];
    if c.Full() then
      st.(refused := st.refused + {s},
          unannounced := if f.ConnectReply? || f.SubscribeReply? then st.unannounced + {s} else st.unannounced)
    else st.(conns := st.conns[s := c.(accepted := c.accepted + [f])])
  }

  function Slow(st: State, s: Sink): set<Sink>
    requires s in st.conns
  {
    if st.conns[s].Full() then {s} else {}
  }

  function Pushes(cfg: Config, drops: seq<(Sink, Key)>): seq<Job> {
    seq(|drops|, i requires 0 <= i < |drops| => Job(drops[i].0, Unsubscribed(ChannelName(cfg, drops[i].1))))
  }

  ghost function AfterDrops(subs: map<Sink, set<Key>>, drops: seq<(Sink, Key)>): map<Sink, set<Key>> {
    map s | s in subs :: set k | k in subs[s] && (s, k) !in drops
  }

  ghost predicate KnownJobs(st: State) {
    && st.subs.Keys <= st.conns.Keys
    && (st.writer.Writing? ==> forall i :: 0 <= i < |st.writer.todo| ==> st.writer.todo[i].to in st.conns)
  }

  ghost predicate KnownReaders(st: State) {
    && (forall t :: t in st.readers ==> st.readers[t].todo <= st.conns.Keys)
    && (forall t :: t in st.readers ==> st.readers[t].checked.Some? ==> st.readers[t].checked.value in st.conns)
  }

  /** Every connection the registry or a goroutine refers to exists. */
  ghost predicate Known(st: State) { KnownJobs(st) && KnownReaders(st) }

  ghost function Do(cfg: Config, st: State, e: Event): State
    requires Enabled(cfg, st, e) && Known(st)
  {
    match e
    case Create(s, capacity) => st.(conns := st.conns[s := Conn([], 0, capacity, false)])
    case Register(s) => if s in st.subs then st else st.(subs := st.subs[s := {}])
    case BeginAttach(s, requested, encodes) =>
      if s !in st.subs then
        st.(writer := Writing(if encodes then [Job(s, ConnectReply([]))] else [], false, {}))
      else
        var granted := Granted(cfg, st.subs[s], requested);
        st.(subs := st.subs[s := st.subs[s] + Keys(cfg, granted)],
            writer := Writing(if encodes then [Job(s, ConnectReply(granted))] else [], false, {}),
            unannounced := if encodes then st.unannounced else st.unannounced + {s})
    case BeginSubscribe(s, ch, acked) =>
      st.(subs := st.subs[s := st.subs[s] + {KeyOf(cfg, ch)}],
          writer := Writing(if acked then [Job(s, SubscribeReply(ch))] else [], false, {}),
          unannounced := if acked then st.unannounced else st.unannounced + {s})
    case BeginUnsubscribe(s, ch, acked) =>
      st.(subs := Without(st.subs, s, {KeyOf(cfg, ch)}),
          writer := Writing(if acked then [Job(s, UnsubscribeReply(ch))] else [], false, {}))
    case BeginControl(drops) =>
      st.(subs := AfterDrops(st.subs, drops), writer := Writing(Pushes(cfg, drops), false, {}))
    case BeginRemove(s) => st.(subs := st.subs - {s}, writer := Writing([], false, {}))
    case WriterCheck =>
      if st.conns[st.writer.todo[0].to].closed then st.(writer := st.writer.(todo := st.writer.todo[1..]))
      else st.(writer := st.writer.(checked := true))
    case WriterOffer =>
      var j := st.writer.todo[0];
      Offer(st, j.to, j.frame).(writer := Writing(st.writer.todo[1..], false, st.writer.slow + Slow(st, j.to)))
    case EndWrite => st.(writer := Idle, pending := st.pending + st.writer.slow)
    case BeginDispatch(t, key, payload, exclude) =>
      var todo := set s | s in st.subs && key in st.subs[s] && !(exclude != [] && s.id == exclude);
      st.(readers := st.readers[t := Reader(key, payload, todo, None, {})])
    case ReaderCheck(t, s) =>
      var r := st.readers[t];
      var r' := r.(todo := r.todo - {s}, checked := if st.conns[s].closed then None else Some(s));
      st.(readers := st.readers[t := r'])
    case ReaderOffer(t) =>
      var r := st.readers[t];
      var s := r.checked.value;
      Offer(st, s, Pub(ChannelName(cfg, r.key), r.payload))
        .(readers := st.readers[t := r.(checked := None, slow := r.slow + Slow(st, s))])
    case EndRead(t) => st.(readers := st.readers - {t}, pending := st.pending + st.readers[t].slow)
    case Enqueue(s) => st.(pending := st.pending - {s}, handed := st.handed + {s})
    case MarkClosed(s) => st.(conns := st.conns[s := st.conns[s].(closed := true)])
    case OfferOwn(s, f) =>
      if st.conns[s].Full() then st
      else st.(conns := st.conns[s := st.conns[s].(accepted := st.conns[s].accepted + [f])])
    case TakeOne(s) => st.(conns := st.conns[s := st.conns[s].(taken := st.conns[s].taken + 1)])
  }

  // ---------------------------------------------------------------- invariant

  predicate AnnouncePending(todo: seq<Job>, s: Sink, ch: Channel) {
    exists i :: 0 <= i < |todo| && todo[i].to == s && Announces(todo[i].frame, ch)
  }

  function Todo(st: State): seq<Job> {
    if st.writer.Writing? then st.writer.todo else []
  }

  /** Unless it was closed or cheated of a reply, a connection knows, or is about to be told, all it holds. */
  ghost predicate Told(cfg: Config, st: State, s: Sink) {
    s in st.conns && s in st.subs && s !in st.unannounced && !st.conns[s].closed ==>
      forall k :: k in st.subs[s] ==>
        Announced(st.conns[s].accepted, ChannelName(cfg, k)) || AnnouncePending(Todo(st), s, ChannelName(cfg, k))
  }

  ghost predicate QueueOrdered(st: State, s: Sink) {
    s in st.conns && s !in st.unannounced ==> Ordered(st.conns[s].accepted)
  }

  /** A write section sends no pushes, and retracts only what is no longer held. */
  ghost predicate JobOk(cfg: Config, subs: map<Sink, set<Key>>, j: Job) {
    && !j.frame.Pub?
    && (j.to in subs ==> forall k :: k in subs[j.to] ==> !Retracts(j.frame, ChannelName(cfg, k)))
  }

  ghost predicate WriterOk(cfg: Config, st: State) {
    forall i :: 0 <= i < |Todo(st)| ==> JobOk(cfg, st.subs, Todo(st)[i])
  }

  /** A reader sends only to holders, and past its closed-check only where the push is already announced. */
  ghost predicate ReaderOk(cfg: Config, st: State, t: nat) {
    t in st.readers ==>
      var r := st.readers[t];
      && (forall s :: s in r.todo ==> s in st.subs && r.key in st.subs[s])
      && (r.checked.Some? && r.checked.value in st.conns && r.checked.value !in st.unannounced ==>
            Announced(st.conns[r.checked.value].accepted, ChannelName(cfg, r.key)))
  }

  /** Where a connection that refused a frame can be. */
  ghost predicate OnItsWay(st: State, s: Sink) {
    || s in st.pending || s in st.handed
    || (st.writer.Writing? && s in st.writer.slow)
    || exists t :: t in st.readers && s in st.readers[t].slow
  }

  ghost predicate Inv(cfg: Config, st: State) {
    && Known(st)
    && Lawful(cfg, st.subs)
    && (st.writer.Writing? ==> st.readers == map[])
    && WriterOk(cfg, st)
    && (forall t :: ReaderOk(cfg, st, t))
    && (forall s :: Told(cfg, st, s))
    && (forall s :: QueueOrdered(st, s))
    && (forall s :: s in st.refused ==> OnItsWay(st, s))
  }

  /** Before any connection exists. */
  const START := State(map[], map[], Idle, map[], {}, {}, {}, {})

  // ---------------------------------------------------------------- every step keeps it

  lemma KeepsKnownJobs(cfg: Config, st: State, e: Event)
    requires Known(st) && Enabled(cfg, st, e)
    ensures KnownJobs(Do(cfg, st, e))
  {
    hide Granted, Keys, SubscribeRefusal, Neutral, ChannelName;
    match e
    case BeginControl(drops) =>
    case WriterCheck | WriterOffer =>
    case ReaderOffer(_) =>
    case _ =>
  }

  lemma KeepsKnownReaders(cfg: Config, st: State, e: Event)
    requires Known(st) && Enabled(cfg, st, e)
    ensures KnownReaders(Do(cfg, st, e))
  {
    hide Granted, Keys, SubscribeRefusal, Neutral, ChannelName, Droppable, AfterDrops;
    match e
    case BeginDispatch(_, _, _, _) =>
    case ReaderCheck(_, _) | ReaderOffer(_) | EndRead(_) =>
    case _ =>
  }

  lemma KeepsKnown(cfg: Config, st: State, e: Event)
    requires Known(st) && Enabled(cfg, st, e)
    ensures Known(Do(cfg, st, e))
  {
    KeepsKnownJobs(cfg, st, e);
    KeepsKnownReaders(cfg, st, e);
    hide Do, Enabled;
  }

  lemma KeepsLawful(cfg: Config, st: State, e: Event)
    requires Inv(cfg, st) && Enabled(cfg, st, e)
    ensures Lawful(cfg, Do(cfg, st, e).subs)
  {
    match e
    case BeginAttach(s, requested, encodes) =>
      if s in st.subs {
        AttachLawful(cfg, st.subs, s, requested);
      }
    case BeginSubscribe(s, ch, acked) =>
      AdmittedIsHoldable(cfg, ch);
      InsertKeepsLawful(cfg, st.subs, s, KeyOf(cfg, ch));
    case BeginUnsubscribe(s, ch, acked) =>
      SubsetSize(st.subs[s] - {KeyOf(cfg, ch)}, st.subs[s]);
    case BeginControl(drops) =>
      DropsLawful(cfg, st.subs, drops);
    case _ =>
  }

  lemma AttachLawful(cfg: Config, subs: map<Sink, set<Key>>, s: Sink, requested: seq<Channel>)
    requires Lawful(cfg, subs) && s in subs
    ensures Lawful(cfg, subs[s := subs[s] + Keys(cfg, Granted(cfg, subs[s], requested))])
  {
    var granted := Granted(cfg, subs[s], requested);
    GrantedGrantable(cfg, subs[s], requested);
    GrantedWithinCap(cfg, subs[s], requested);
    forall k | k in Keys(cfg, granted) ensures Holdable(cfg, k) {
      var i :| 0 <= i < |granted| && KeyOf(cfg, granted[i]) == k;
      assert Grantable(cfg, subs[s], requested, granted[i]);
      AdmitMeans(cfg, granted[i]);
      AdmittedIsHoldable(cfg, granted[i]);
    }
  }

  lemma DropsLawful(cfg: Config, subs: map<Sink, set<Key>>, drops: seq<(Sink, Key)>)
    requires Lawful(cfg, subs)
    ensures Lawful(cfg, AfterDrops(subs, drops))
  {
    var left := AfterDrops(subs, drops);
    forall s | s in left ensures left[s] <= subs[s] && |left[s]| <= |subs[s]| {
      SubsetSize(left[s], subs[s]);
    }
  }

  /** Two channels a connection holds under different keys are different channels. */
  lemma HeldName(cfg: Config, k: Key, ch: Channel)
    requires Holdable(cfg, k) && ChannelName(cfg, k) == ch
    ensures k == KeyOf(cfg, ch)
  {}

  lemma KeepsWriter(cfg: Config, st: State, e: Event)
    requires Inv(cfg, st) && Enabled(cfg, st, e)
    ensures WriterOk(cfg, Do(cfg, st, e))
    ensures Do(cfg, st, e).writer.Writing? ==> Do(cfg, st, e).readers == map[]
  {
    var st' := Do(cfg, st, e);
    match e
    case BeginUnsubscribe(s, ch, acked) =>
      forall k | k in st'.subs[s] && ChannelName(cfg, k) == ch ensures false {
        HeldName(cfg, k, ch);
      }
    case BeginControl(drops) =>
      forall i | 0 <= i < |drops| ensures JobOk(cfg, st'.subs, Todo(st')[i]) {
        var d := drops[i];
        assert d in drops;
        forall k | k in st'.subs[d.0] && ChannelName(cfg, k) == ChannelName(cfg, d.1) ensures false {
          HeldName(cfg, k, ChannelName(cfg, k));
          HeldName(cfg, d.1, ChannelName(cfg, k));
        }
      }
    case WriterCheck =>
      if Todo(st') != Todo(st) {
        assert forall i :: 0 <= i < |Todo(st')| ==> Todo(st')[i] == Todo(st)[i + 1];
      }
    case WriterOffer =>
      assert forall i :: 0 <= i < |Todo(st')| ==> Todo(st')[i] == Todo(st)[i + 1];
    case Create(_, _) | Enqueue(_) | MarkClosed(_) | OfferOwn(_, _) | TakeOne(_) =>
      WriterStays(cfg, st, st');
    case _ =>
  }

  lemma WriterStays(cfg: Config, st: State, st': State)
    requires WriterOk(cfg, st) && Todo(st') == Todo(st) && st'.subs == st.subs
    ensures WriterOk(cfg, st')
  {
    forall i | 0 <= i < |Todo(st')| ensures JobOk(cfg, st'.subs, Todo(st')[i]) {
      assert JobOk(cfg, st.subs, Todo(st)[i]);
    }
  }

  lemma KeepsReader(cfg: Config, st: State, e: Event, t: nat)
    requires Inv(cfg, st) && Enabled(cfg, st, e)
    ensures ReaderOk(cfg, Do(cfg, st, e), t)
  {
    var st' := Do(cfg, st, e);
    assert ReaderOk(cfg, st, t);
    match e
    case ReaderCheck(u, s) =>
      assert ReaderOk(cfg, st, u);
      assert Told(cfg, st, s);
      assert st.readers != map[] && Todo(st) == [];
      if s in st.subs && s !in st.unannounced && !st.conns[s].closed {
        assert Announced(st.conns[s].accepted, ChannelName(cfg, st.readers[u].key))
            || AnnouncePending(Todo(st), s, ChannelName(cfg, st.readers[u].key));
      }
    case ReaderOffer(u) =>
      assert ReaderOk(cfg, st, u);
      Appended(st, st', st.readers[u].checked.value, Pub(ChannelName(cfg, st.readers[u].key), st.readers[u].payload));
    case OfferOwn(s, f) =>
      Appended(st, st', s, f);
    case _ =>
  }

  /** What one accepted frame changes about what a client has been told. */
  lemma Appended(st: State, st': State, s: Sink, f: Frame)
    requires s in st.conns && s in st'.conns
    ensures st'.conns[s].accepted == st.conns[s].accepted + [f] ==>
              forall ch :: Announced(st'.conns[s].accepted, ch)
                       <==> Announces(f, ch) || (!Retracts(f, ch) && Announced(st.conns[s].accepted, ch))
  {
    var h := st.conns[s].accepted;
    assert (h + [f])[..|h + [f]| - 1] == h;
  }

  lemma QueueAfterOffer(cfg: Config, st: State, s: Sink)
    requires Inv(cfg, st) && Enabled(cfg, st, WriterOffer)
    ensures QueueOrdered(Do(cfg, st, WriterOffer), s)
  {
    hide Lawful, ReaderOk, Told, OnItsWay;
    assert QueueOrdered(st, s);
    var j := Todo(st)[0];
    assert JobOk(cfg, st.subs, j);
    if s in st.conns && s !in st.unannounced {
      OrderedAppend(st.conns[s].accepted, j.frame);
    }
  }

  lemma QueueAfterPush(cfg: Config, st: State, t: nat, s: Sink)
    requires Inv(cfg, st) && Enabled(cfg, st, ReaderOffer(t))
    ensures QueueOrdered(Do(cfg, st, ReaderOffer(t)), s)
  {
    hide Lawful, WriterOk, Told, OnItsWay;
    assert QueueOrdered(st, s) && ReaderOk(cfg, st, t);
    if s in st.conns && s !in st.unannounced && st.readers[t].checked == Some(s) {
      OrderedAppend(st.conns[s].accepted, Pub(ChannelName(cfg, st.readers[t].key), st.readers[t].payload));
    }
  }

  lemma KeepsQueue(cfg: Config, st: State, e: Event, s: Sink)
    requires Inv(cfg, st) && Enabled(cfg, st, e)
    ensures QueueOrdered(Do(cfg, st, e), s)
  {
    match e
    case WriterOffer => QueueAfterOffer(cfg, st, s);
    case ReaderOffer(t) => QueueAfterPush(cfg, st, t, s);
    case _ => QueueElse(cfg, st, e, s);
  }

  lemma QueueElse(cfg: Config, st: State, e: Event, s: Sink)
    requires Known(st) && QueueOrdered(st, s) && Enabled(cfg, st, e) && !e.WriterOffer? && !e.ReaderOffer?
    ensures QueueOrdered(Do(cfg, st, e), s)
  {
    hide Granted, SubscribeRefusal, Droppable, AfterDrops;
    match e
    case OfferOwn(c, f) =>
      if c == s && s !in st.unannounced {
        OrderedAppend(st.conns[s].accepted, f);
      }
    case _ =>
  }

  /** A write section that begins announces what it adds. */
  lemma ToldAfterBegin(cfg: Config, st: State, e: Event, s: Sink)
    requires Inv(cfg, st) && Enabled(cfg, st, e) && (e.BeginAttach? || e.BeginSubscribe?)
    ensures Told(cfg, Do(cfg, st, e), s)
  {
    hide Lawful, WriterOk, QueueOrdered, OnItsWay, ReaderOk, Droppable, AfterDrops;
    var st' := Do(cfg, st, e);
    assert Told(cfg, st, s);
    if s in st'.subs && s !in st'.unannounced && !st'.conns[s].closed {
      match e
      case BeginAttach(c, requested, encodes) =>
        if c == s && s in st.subs {
          var granted := Granted(cfg, st.subs[s], requested);
          forall k | k in Keys(cfg, granted) ensures AnnouncePending(Todo(st'), s, ChannelName(cfg, k)) {
            var i :| 0 <= i < |granted| && KeyOf(cfg, granted[i]) == k;
            KeyRoundTrip(cfg, granted[i]);
            assert Announces(Todo(st')[0].frame, ChannelName(cfg, k));
          }
        }
      case BeginSubscribe(c, ch, acked) =>
        KeyRoundTrip(cfg, ch);
        if c == s {
          assert Announces(Todo(st')[0].frame, ch);
        }
    }
  }

  lemma ToldAfterCheck(cfg: Config, st: State, s: Sink)
    requires Inv(cfg, st) && Enabled(cfg, st, WriterCheck)
    ensures Told(cfg, Do(cfg, st, WriterCheck), s)
  {
    hide Lawful, WriterOk, QueueOrdered, OnItsWay, ReaderOk;
    var st' := Do(cfg, st, WriterCheck);
    assert Told(cfg, st, s);
    forall ch | AnnouncePending(Todo(st), s, ch) && s in st'.conns && !st'.conns[s].closed
      ensures AnnouncePending(Todo(st'), s, ch)
    {
      PendingTail(st.writer.todo, s, ch);
    }
  }

  lemma KeepsTold(cfg: Config, st: State, e: Event, s: Sink)
    requires Inv(cfg, st) && Enabled(cfg, st, e)
    ensures Told(cfg, Do(cfg, st, e), s)
  {
    hide Inv, Told, Do, Enabled;
    match e
    case BeginAttach(_, _, _) | BeginSubscribe(_, _, _) => ToldAfterBegin(cfg, st, e, s);
    case WriterCheck => ToldAfterCheck(cfg, st, s);
    case WriterOffer => ToldAfterOffer(cfg, st, s);
    case _ => ToldElse(cfg, st, e, s);
  }

  lemma ToldElse(cfg: Config, st: State, e: Event, s: Sink)
    requires Inv(cfg, st) && Enabled(cfg, st, e)
    requires !e.BeginAttach? && !e.BeginSubscribe? && !e.WriterCheck? && !e.WriterOffer?
    ensures Told(cfg, Do(cfg, st, e), s)
  {
    hide Lawful, WriterOk, QueueOrdered, OnItsWay, Granted, Droppable;
    assert Told(cfg, st, s);
    match e
    case ReaderOffer(t) =>
      assert ReaderOk(cfg, st, t);
      var f := Pub(ChannelName(cfg, st.readers[t].key), st.readers[t].payload);
      Appended(st, Do(cfg, st, e), st.readers[t].checked.value, f);
    case OfferOwn(c, f) => Appended(st, Do(cfg, st, e), c, f);
    case _ =>
  }

  lemma ToldAfterOffer(cfg: Config, st: State, s: Sink)
    requires Inv(cfg, st) && Enabled(cfg, st, WriterOffer)
    ensures Told(cfg, Do(cfg, st, WriterOffer), s)
  {
    var st', j := Do(cfg, st, WriterOffer), Todo(st)[0];
    assert Told(cfg, st, s);
    Appended(st, st', j.to, j.frame);
    if s in st'.subs && s !in st'.unannounced && !st'.conns[s].closed {
      forall k | k in st.subs[s]
        ensures Announced(st'.conns[s].accepted, ChannelName(cfg, k))
             || AnnouncePending(Todo(st'), s, ChannelName(cfg, k))
      {
        if AnnouncePending(Todo(st), s, ChannelName(cfg, k)) {
          PendingTail(st.writer.todo, s, ChannelName(cfg, k));
        }
        assert JobOk(cfg, st.subs, j);
      }
    }
  }

  /** An announcement still to be sent is the next send or a later one. */
  lemma PendingTail(todo: seq<Job>, s: Sink, ch: Channel)
    requires todo != [] && AnnouncePending(todo, s, ch)
    ensures AnnouncePending(todo[1..], s, ch) || (todo[0].to == s && Announces(todo[0].frame, ch))
  {
    var i :| 0 <= i < |todo| && todo[i].to == s && Announces(todo[i].frame, ch);
    if i > 0 {
      assert todo[1..][i - 1] == todo[i];
    }
  }

  /** A reader goes on holding what was slow in it, until it ends. */
  lemma SlowStays(cfg: Config, st: State, e: Event, t: nat)
    requires Known(st) && Enabled(cfg, st, e) && t in st.readers && e != EndRead(t)
    ensures t in Do(cfg, st, e).readers && st.readers[t].slow <= Do(cfg, st, e).readers[t].slow
  {
    hide Granted, SubscribeRefusal, Droppable, AfterDrops;
    match e
    case ReaderCheck(_, _) | ReaderOffer(_) | EndRead(_) | BeginDispatch(_, _, _, _) =>
    case _ =>
  }

  lemma KeepsTrack(cfg: Config, st: State, e: Event, s: Sink)
    requires Inv(cfg, st) && Enabled(cfg, st, e) && s in Do(cfg, st, e).refused
    ensures OnItsWay(Do(cfg, st, e), s)
  {
    hide Lawful, WriterOk, ReaderOk, Told, QueueOrdered, Granted, SubscribeRefusal, Droppable, AfterDrops;
    if s in st.refused {
      assert OnItsWay(st, s);
      if t :| t in st.readers && s in st.readers[t].slow && e != EndRead(t) {
        SlowStays(cfg, st, e, t);
        hide Do;
      }
    } else {
      NewlyRefused(cfg, st, e, s);
      hide Do;
    }
  }

  lemma NewlyRefused(cfg: Config, st: State, e: Event, s: Sink)
    requires Known(st) && Enabled(cfg, st, e) && s in Do(cfg, st, e).refused && s !in st.refused
    ensures OnItsWay(Do(cfg, st, e), s)
  {
    hide Granted, SubscribeRefusal, Droppable, AfterDrops;
    match e
    case WriterOffer => assert s in Do(cfg, st, e).writer.slow;
    case ReaderOffer(t) => assert s in Do(cfg, st, e).readers[t].slow;
    case _ =>
  }

  lemma Keeps(cfg: Config, st: State, e: Event)
    requires Inv(cfg, st) && Enabled(cfg, st, e)
    ensures Inv(cfg, Do(cfg, st, e))
  {
    KeepsKnown(cfg, st, e);
    KeepsLawful(cfg, st, e);
    KeepsWriter(cfg, st, e);
    forall t ensures ReaderOk(cfg, Do(cfg, st, e), t) { KeepsReader(cfg, st, e, t); }
    forall s ensures Told(cfg, Do(cfg, st, e), s) { KeepsTold(cfg, st, e, s); }
    forall s ensures QueueOrdered(Do(cfg, st, e), s) { KeepsQueue(cfg, st, e, s); }
    forall s | s in Do(cfg, st, e).refused ensures OnItsWay(Do(cfg, st, e), s) { KeepsTrack(cfg, st, e, s); }
  }

  // ---------------------------------------------------------------- whole runs

  /** `run` is an execution from `st` that ends in `fin`. */
  ghost predicate Runs(cfg: Config, st: State, run: seq<Event>, fin: State)
    requires Inv(cfg, st)
    decreases |run|
  {
    if run == [] then fin == st
    else Enabled(cfg, st, run[0]) && (Keeps(cfg, st, run[0]); Runs(cfg, Do(cfg, st, run[0]), run[1..], fin))
  }

  lemma {:induction false} RunKeeps(cfg: Config, st: State, run: seq<Event>, fin: State)
    requires Inv(cfg, st) && Runs(cfg, st, run, fin)
    ensures Inv(cfg, fin)
    decreases |run|
  {
    if run != [] {
      Keeps(cfg, st, run[0]);
      RunKeeps(cfg, Do(cfg, st, run[0]), run[1..], fin);
    }
  }

  /**
   * In every run, the queue of every connection that did not itself refuse, and was not denied, an
   * announcing reply has each push behind an accepted reply for its channel with no retraction in
   * between; while the lock is free everything an open connection holds has been announced to it;
   * and every connection that ever refused a frame is on its way to the closer.
   */
  lemma PushOrder(cfg: Config, run: seq<Event>, fin: State)
    requires Runs(cfg, START, run, fin)
    ensures forall s :: s in fin.conns && s !in fin.unannounced ==> Ordered(fin.conns[s].accepted)
    ensures forall s, k | Unlocked(fin) && s in fin.subs && k in fin.subs[s] && s !in fin.unannounced
                          && s in fin.conns && !fin.conns[s].closed
              :: Announced(fin.conns[s].accepted, ChannelName(cfg, k))
    ensures forall s :: s in fin.refused && Unlocked(fin) ==> s in fin.pending || s in fin.handed
  {
    RunKeeps(cfg, START, run, fin);
    forall s | s in fin.conns && s !in fin.unannounced ensures Ordered(fin.conns[s].accepted) {
      assert QueueOrdered(fin, s);
    }
    forall s, k | Unlocked(fin) && s in fin.subs && k in fin.subs[s] && s !in fin.unannounced
                  && s in fin.conns && !fin.conns[s].closed
      ensures Announced(fin.conns[s].accepted, ChannelName(cfg, k))
    {
      assert Told(cfg, fin, s);
    }
    forall s | s in fin.refused && Unlocked(fin) ensures s in fin.pending || s in fin.handed {
      assert OnItsWay(fin, s);
    }
  }

  // ---------------------------------------------------------------- removal is final

  /** No index holds `s`, no reader is about to send to it, and its queue has grown by no push past `n`. */
  ghost predicate Gone(st: State, s: Sink, n: nat) {
    && s !in st.subs
    && (forall t :: t in st.readers ==> s !in st.readers[t].todo && st.readers[t].checked != Some(s))
    && (s in st.conns ==> forall i :: n <= i < |st.conns[s].accepted| ==> !st.conns[s].accepted[i].Pub?)
  }

  lemma GoneStep(cfg: Config, st: State, e: Event, s: Sink, n: nat)
    requires Inv(cfg, st) && Enabled(cfg, st, e) && Gone(st, s, n) && e != Register(s)
    ensures Gone(Do(cfg, st, e), s, n)
  {
    GoneFromIndexes(cfg, st, e, s, n);
    if e.WriterOffer? {
      assert JobOk(cfg, st.subs, Todo(st)[0]);
    }
  }

  lemma GoneFromIndexes(cfg: Config, st: State, e: Event, s: Sink, n: nat)
    requires Known(st) && Enabled(cfg, st, e) && Gone(st, s, n) && e != Register(s)
    ensures s !in Do(cfg, st, e).subs
    ensures forall t :: t in Do(cfg, st, e).readers ==>
              s !in Do(cfg, st, e).readers[t].todo && Do(cfg, st, e).readers[t].checked != Some(s)
  {
    hide Granted, Keys, Neutral, Droppable, Pushes;
    match e
    case BeginDispatch(_, _, _, _) =>
    case ReaderCheck(_, _) | ReaderOffer(_) | EndRead(_) =>
    case _ =>
  }

  lemma {:induction false} StaysGone(cfg: Config, st: State, run: seq<Event>, fin: State, s: Sink, n: nat)
    requires Inv(cfg, st) && Runs(cfg, st, run, fin) && Gone(st, s, n)
    requires forall i :: 0 <= i < |run| ==> run[i] != Register(s)
    ensures Gone(fin, s, n)
    decreases |run|
  {
    if run != [] {
      GoneStep(cfg, st, run[0], s, n);
      Keeps(cfg, st, run[0]);
      StaysGone(cfg, Do(cfg, st, run[0]), run[1..], fin, s, n);
    }
  }

  /** How many frames the connection's queue has taken. */
  function Queued(st: State, s: Sink): nat {
    if s in st.conns then |st.conns[s].accepted| else 0
  }

  lemma RunsNone(cfg: Config, st: State)
    requires Inv(cfg, st)
    ensures Runs(cfg, st, [], st)
  {
    hide Inv;
  }

  lemma RunsFirst(cfg: Config, st: State, run: seq<Event>, fin: State) returns (next: State)
    requires Inv(cfg, st) && Runs(cfg, st, run, fin) && run != []
    ensures Enabled(cfg, st, run[0]) && Known(st) && next == Do(cfg, st, run[0])
    ensures Inv(cfg, next) && Runs(cfg, next, run[1..], fin)
  {
    assert Known(st);
    hide Inv, Enabled, Do, Known;
    Keeps(cfg, st, run[0]);
    next := Do(cfg, st, run[0]);
  }

  lemma RunsLater(cfg: Config, st: State, run: seq<Event>, n: nat, next: State, mid: State)
    requires Inv(cfg, st) && 0 < n <= |run| && Enabled(cfg, st, run[0]) && Known(st)
    requires next == Do(cfg, st, run[0]) && Inv(cfg, next) && Runs(cfg, next, run[1..][..n - 1], mid)
    ensures Runs(cfg, st, run[..n], mid)
  {
    hide Inv, Enabled, Do, Known;
    assert run[..n][0] == run[0] && run[..n][1..] == run[1..][..n - 1];
  }

  lemma {:induction false} SplitRun(cfg: Config, st: State, run: seq<Event>, fin: State, n: nat) returns (mid: State)
    requires Inv(cfg, st) && Runs(cfg, st, run, fin) && n <= |run|
    ensures Inv(cfg, mid) && Runs(cfg, st, run[..n], mid) && Runs(cfg, mid, run[n..], fin)
    decreases n
  {
    hide Inv, Enabled, Do, Known, Runs;
    if n == 0 {
      mid := st;
      RunsNone(cfg, st);
      assert run[..0] == [] && run[0..] == run;
    } else {
      var next := RunsFirst(cfg, st, run, fin);
      mid := SplitRun(cfg, next, run[1..], fin, n - 1);
      assert run[1..][n - 1..] == run[n..];
      RunsLater(cfg, st, run, n, next, mid);
    }
  }

  /**
   * In every run, from the moment a connection is removed and as long as it is not registered again, the
   * registry does not hold it, no dispatch is about to send to it, and its queue takes no further push,
   * whatever attach or subscribe was in flight for it. `st` is the state before its removal.
   */
  lemma RemovalIsFinal(cfg: Config, run: seq<Event>, fin: State, s: Sink, n: nat) returns (st: State)
    requires Runs(cfg, START, run, fin) && n < |run| && run[n] == BeginRemove(s)
    requires forall i :: n < i < |run| ==> run[i] != Register(s)
    ensures Runs(cfg, START, run[..n], st) && Gone(fin, s, Queued(st, s))
  {
    st := SplitRun(cfg, START, run, fin, n);
    assert run[n..][0] == run[n] && run[n..][1..] == run[n + 1..];
    Keeps(cfg, st, run[n]);
    StaysGone(cfg, Do(cfg, st, run[n]), run[n + 1..], fin, s, Queued(st, s));
  }

  // ---------------------------------------------------------------- the exception is real

  /**
   * A subscribe whose reply meets a full queue is not undone: the section ends with the connection
   * subscribed, nothing announced, and the connection bound for the closer.
   */
  lemma RefusedReplyKeepsSubscription(cfg: Config, st: State, s: Sink, ch: Channel) returns (after: State)
    requires Inv(cfg, st) && Unlocked(st) && s in st.conns && SubscribeRefusal(cfg, st.subs, s, ch).None?
    requires st.conns[s].Full() && !st.conns[s].closed
    ensures exists a, b, c ::
              && Next(cfg, st, BeginSubscribe(s, ch, true), a) && Next(cfg, a, WriterCheck, b)
              && Next(cfg, b, WriterOffer, c) && Next(cfg, c, EndWrite, after)
    ensures Unlocked(after) && after.conns == st.conns
    ensures s in after.subs && KeyOf(cfg, ch) in after.subs[s] && s in after.pending && s in after.unannounced
  {
    hide Inv;
    var a := Taken(cfg, st, BeginSubscribe(s, ch, true));
    var b := Taken(cfg, a, WriterCheck);
    var c := Taken(cfg, b, WriterOffer);
    assert c.conns == st.conns && s in c.writer.slow && c.writer.todo == [];
    after := Taken(cfg, c, EndWrite);
  }

  /** From there one free place is enough for a push that nothing announced. */
  lemma PushWithoutAnnouncement(cfg: Config, st: State, s: Sink, ch: Channel, payload: nat) returns (after: State)
    requires Inv(cfg, st) && Unlocked(st) && s in st.subs && KeyOf(cfg, ch) in st.subs[s] && s in st.conns
    requires !st.conns[s].Full() && !st.conns[s].closed && !Announced(st.conns[s].accepted, ch)
    ensures exists a, b ::
              && Next(cfg, st, BeginDispatch(0, KeyOf(cfg, ch), payload, []), a)
              && Next(cfg, a, ReaderCheck(0, s), b) && Next(cfg, b, ReaderOffer(0), after)
    ensures s in after.conns && !Ordered(after.conns[s].accepted)
  {
    hide Inv, Ordered;
    KeyRoundTrip(cfg, ch);
    var h := st.conns[s].accepted;
    var a := Taken(cfg, st, BeginDispatch(0, KeyOf(cfg, ch), payload, []));
    assert s in a.readers[0].todo;
    var b := Taken(cfg, a, ReaderCheck(0, s));
    after := Taken(cfg, b, ReaderOffer(0));
    assert after.conns[s].accepted == h + [Pub(ch, payload)];
    LastPush(h, Pub(ch, payload));
  }

  lemma LastPush(h: seq<Frame>, f: Frame)
    requires f.Pub? && !Announced(h, f.channel)
    ensures !Ordered(h + [f])
  {
    assert (h + [f])[..|h|] == h && (h + [f])[|h|] == f;
  }

  ghost predicate Next(cfg: Config, st: State, e: Event, st': State) {
    Known(st) && Enabled(cfg, st, e) && Do(cfg, st, e) == st'
  }

  lemma Taken(cfg: Config, st: State, e: Event) returns (st': State)
    requires Inv(cfg, st) && Enabled(cfg, st, e)
    ensures Next(cfg, st, e, st') && Inv(cfg, st')
  {
    Keeps(cfg, st, e);
    st' := Do(cfg, st, e);
  }
}
