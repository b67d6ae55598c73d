/**
 * internal/conn and internal/hub together: what a connection may hold and be sent.
 *
 * The reader goroutine of a connection stores the grants the connect webhook answered with,
 * filters the requested channels against them and only later, under the registry's lock, takes the
 * subscriptions. Between a check and its use any other goroutine may run.
 */
module Authorization {
  import opened Bytes
  import opened HubSpec
  import HubOrder
  import ConnCommand
  import Glob

  /** What the reader has checked and not yet handed to the registry. */
  datatype Intent = Resting | WantAttach(channels: seq<Channel>) | WantSubscribe(channel: Channel)

  /** Conn.auth is taken once; Conn.grants is None until the webhook answered. */
  datatype Client = Client(authorizer: bool, grants: Option<seq<Text>>, intent: Intent)

  datatype State = State(hub: HubOrder.State, clients: map<Sink, Client>)

  datatype Event =
    | HubStep(e: HubOrder.Event)
    | Connect(s: Sink, requested: seq<Channel>, answer: Option<seq<Text>>)
    | Check(s: Sink, channel: Channel)
    | Attach(s: Sink, encodes: bool)
    | Subscribe(s: Sink, acked: bool)

  const START := State(HubOrder.START, map[])

  /** Conn.admissible. */
  ghost function Admissible(lim: ConnCommand.Limits, grants: seq<Text>, requested: seq<Channel>): seq<Channel> {
    ConnCommand.Bound(requested, ConnCommand.ByGrant(lim, grants), lim.maxSubscriptions)
  }

  ghost predicate Enabled(cfg: Config, lim: ConnCommand.Limits, st: State, e: Event) {
    match e
    case HubStep(h) => !h.BeginAttach? && !h.BeginSubscribe? && HubOrder.Enabled(cfg, st.hub, h)
    case Connect(s, requested, answer) =>
      && s in st.clients && st.clients[s].authorizer && st.clients[s].intent.Resting?
      && (answer.Some? ==> exists compiled :: Glob.SetOf(answer.value, compiled))
    case Check(s, ch) =>
      && s in st.clients && st.clients[s].grants.Some? && st.clients[s].intent.Resting?
      && ConnCommand.Authorized(lim, st.clients[s].grants.value, ch)
    case Attach(s, encodes) =>
      && s in st.clients && st.clients[s].intent.WantAttach?
      && HubOrder.Enabled(cfg, st.hub, HubOrder.BeginAttach(s, st.clients[s].intent.channels, encodes))
    case Subscribe(s, acked) =>
      s in st.clients && st.clients[s].intent.WantSubscribe? && HubOrder.Unlocked(st.hub) && s in st.hub.conns
  }

  ghost function Do(cfg: Config, lim: ConnCommand.Limits, st: State, e: Event): State
    requires Enabled(cfg, lim, st, e) && HubOrder.Known(st.hub)
  {
    match e
    case HubStep(h) =>
      State(HubOrder.Do(cfg, st.hub, h),
            if h.Create? then st.clients[h.s := Client(true, None, Resting)] else st.clients)
    case Connect(s, requested, answer) =>
      st.(clients := st.clients[s :=
            if answer.None? then Client(false, st.clients[s].grants, Resting)
            else Client(false, answer, WantAttach(Admissible(lim, answer.value, requested)))])
    case Check(s, ch) => st.(clients := st.clients[s := st.clients[s].(intent := WantSubscribe(ch))])
    case Attach(s, encodes) =>
      State(HubOrder.Do(cfg, st.hub, HubOrder.BeginAttach(s, st.clients[s].intent.channels, encodes)),
            st.clients[s := st.clients[s].(intent := Resting)])
    case Subscribe(s, acked) =>
      var ch := st.clients[s].intent.channel;
      State(if SubscribeRefusal(cfg, st.hub.subs, s, ch).None?
            then HubOrder.Do(cfg, st.hub, HubOrder.BeginSubscribe(s, ch, acked)) else st.hub,
            st.clients[s := st.clients[s].(intent := Resting)])
  }

  // ---------------------------------------------------------------- invariant

  /** The connection's grants cover this well-formed, unreserved channel. */
  ghost predicate May(lim: ConnCommand.Limits, clients: map<Sink, Client>, s: Sink, ch: Channel) {
    && s in clients && clients[s].grants.Some?
    && ConnCommand.Authorized(lim, clients[s].grants.value, ch)
  }

  ghost predicate FrameOk(lim: ConnCommand.Limits, clients: map<Sink, Client>, s: Sink, f: Frame) {
    && (forall ch :: HubOrder.Announces(f, ch) ==> May(lim, clients, s, ch))
    && (f.Pub? ==> May(lim, clients, s, f.channel))
  }

  ghost predicate HeldOk(cfg: Config, lim: ConnCommand.Limits, st: State, s: Sink) {
    s in st.hub.subs ==> forall k :: k in st.hub.subs[s] ==> May(lim, st.clients, s, ChannelName(cfg, k))
  }

  ghost predicate QueueOk(lim: ConnCommand.Limits, st: State, s: Sink) {
    s in st.hub.conns ==>
      forall i :: 0 <= i < |st.hub.conns[s].accepted| ==> FrameOk(lim, st.clients, s, st.hub.conns[s].accepted[i])
  }

  ghost predicate JobsOk(lim: ConnCommand.Limits, st: State) {
    var todo := HubOrder.Todo(st.hub);
    forall i :: 0 <= i < |todo| ==> FrameOk(lim, st.clients, todo[i].to, todo[i].frame)
  }

  ghost predicate ReaderOk(cfg: Config, lim: ConnCommand.Limits, st: State, t: nat) {
    t in st.hub.readers ==>
      var r := st.hub.readers[t];
      forall s :: s in r.todo || r.checked == Some(s) ==> May(lim, st.clients, s, ChannelName(cfg, r.key))
  }

  ghost predicate ClientOk(lim: ConnCommand.Limits, st: State, s: Sink) {
    s in st.clients ==>
      var c := st.clients[s];
      && (c.authorizer ==> c.grants.None?)
      && (c.intent.WantSubscribe? ==> May(lim, st.clients, s, c.intent.channel))
      && (c.intent.WantAttach? ==>
            && (forall i :: 0 <= i < |c.intent.channels| ==> May(lim, st.clients, s, c.intent.channels[i]))
            && (s in st.hub.subs ==> st.hub.subs[s] == {}))
  }

  /** A connect reply waiting to be queued lists exactly what its connection holds. */
  ghost predicate ReplyExact(cfg: Config, st: State) {
    var todo := HubOrder.Todo(st.hub);
    forall i :: 0 <= i < |todo| && todo[i].frame.ConnectReply? ==>
      if todo[i].to in st.hub.subs then st.hub.subs[todo[i].to] == Keys(cfg, todo[i].frame.granted)
      else todo[i].frame.granted == []
  }

  ghost predicate Inv(cfg: Config, lim: ConnCommand.Limits, st: State) {
    && HubOrder.Inv(cfg, st.hub) && HubOrder.Known(st.hub)
    && st.hub.conns.Keys == st.clients.Keys
    && JobsOk(lim, st)
    && ReplyExact(cfg, st)
    && (forall s :: HeldOk(cfg, lim, st, s))
    && (forall s :: QueueOk(lim, st, s))
    && (forall t :: ReaderOk(cfg, lim, st, t))
    && (forall s :: ClientOk(lim, st, s))
  }

  // ---------------------------------------------------------------- what one registry step does

  /** A queue gains at most one frame, and that one came from a section, a reader or the connection itself. */
  lemma QueueGrows(cfg: Config, hub: HubOrder.State, h: HubOrder.Event, s: Sink)
    requires HubOrder.Known(hub) && HubOrder.Enabled(cfg, hub, h) && s in HubOrder.Do(cfg, hub, h).conns
    ensures var q := HubOrder.Do(cfg, hub, h).conns[s].accepted;
            if s !in hub.conns then q == []
            else
              || q == hub.conns[s].accepted
              || (|q| > 0 && q[..|q| - 1] == hub.conns[s].accepted && GainedBy(cfg, hub, s, q[|q| - 1]))
  {
    if s in hub.conns {
      var was, q := hub.conns[s].accepted, HubOrder.Do(cfg, hub, h).conns[s].accepted;
      match h
      case WriterOffer => assert q == was || q == was + [HubOrder.Todo(hub)[0].frame];
      case ReaderOffer(t) =>
        var r := hub.readers[t];
        assert q == was || (r.checked == Some(s) && q == was + [Pub(ChannelName(cfg, r.key), r.payload)]);
      case OfferOwn(_, f) => assert q == was || q == was + [f];
      case _ =>
    }
  }

  ghost predicate GainedBy(cfg: Config, hub: HubOrder.State, s: Sink, f: Frame) {
    || HubOrder.Neutral(f)
    || (HubOrder.Todo(hub) != [] && HubOrder.Todo(hub)[0] == HubOrder.Job(s, f))
    || (f.Pub? && exists t :: t in hub.readers && hub.readers[t].checked == Some(s)
                              && f.channel == ChannelName(cfg, hub.readers[t].key))
  }

  /** What a section still has to send only gets shorter until the next section, which announces nothing by itself. */
  lemma TodoShrinks(cfg: Config, hub: HubOrder.State, h: HubOrder.Event)
    requires HubOrder.Known(hub) && HubOrder.Enabled(cfg, hub, h) && !h.BeginAttach? && !h.BeginSubscribe?
    ensures var (old_, new_) := (HubOrder.Todo(hub), HubOrder.Todo(HubOrder.Do(cfg, hub, h)));
            || new_ == old_
            || (old_ != [] && new_ == old_[1..])
            || forall i :: 0 <= i < |new_| ==> new_[i].frame.UnsubscribeReply? || new_[i].frame.Unsubscribed?
    ensures hub.writer.Writing? ==> HubOrder.Do(cfg, hub, h).subs == hub.subs
    ensures HubOrder.Todo(hub) != [] ==> hub.writer.Writing?
  {}

  /** Nobody gains a key from a step that neither attaches nor subscribes. */
  lemma SubsShrink(cfg: Config, hub: HubOrder.State, h: HubOrder.Event, s: Sink, k: Key)
    requires HubOrder.Known(hub) && HubOrder.Enabled(cfg, hub, h) && !h.BeginAttach? && !h.BeginSubscribe?
    requires s in HubOrder.Do(cfg, hub, h).subs && k in HubOrder.Do(cfg, hub, h).subs[s]
    ensures s in hub.subs && k in hub.subs[s]
  {}

  /** A reader only ever sends its one message to connections that held its key when it started. */
  lemma ReaderShrinks(cfg: Config, hub: HubOrder.State, h: HubOrder.Event, t: nat, s: Sink)
    requires HubOrder.Known(hub) && HubOrder.Enabled(cfg, hub, h) && t in HubOrder.Do(cfg, hub, h).readers
    requires var r := HubOrder.Do(cfg, hub, h).readers[t]; s in r.todo || r.checked == Some(s)
    ensures var r := HubOrder.Do(cfg, hub, h).readers[t];
            if t in hub.readers
            then r.key == hub.readers[t].key && (s in hub.readers[t].todo || hub.readers[t].checked == Some(s))
            else s in hub.subs && r.key in hub.subs[s]
  {}

  // ---------------------------------------------------------------- every step keeps it

  /** Grants, once answered, stay: what was allowed remains allowed. */
  lemma MayStays(cfg: Config, lim: ConnCommand.Limits, st: State, e: Event, s: Sink, ch: Channel)
    requires Inv(cfg, lim, st) && Enabled(cfg, lim, st, e) && May(lim, st.clients, s, ch)
    ensures May(lim, Do(cfg, lim, st, e).clients, s, ch)
  {
    hide HubOrder.Inv, HubOrder.Do;
    assert ClientOk(lim, st, s);
  }

  lemma FrameStays(cfg: Config, lim: ConnCommand.Limits, st: State, e: Event, s: Sink, f: Frame)
    requires Inv(cfg, lim, st) && Enabled(cfg, lim, st, e) && FrameOk(lim, st.clients, s, f)
    ensures FrameOk(lim, Do(cfg, lim, st, e).clients, s, f)
  {
    hide HubOrder.Inv, HubOrder.Do, Do;
    forall ch | HubOrder.Announces(f, ch) ensures May(lim, Do(cfg, lim, st, e).clients, s, ch) {
      MayStays(cfg, lim, st, e, s, ch);
    }
    if f.Pub? {
      MayStays(cfg, lim, st, e, s, f.channel);
    }
  }

  lemma KeepsHub(cfg: Config, lim: ConnCommand.Limits, st: State, e: Event)
    requires Inv(cfg, lim, st) && Enabled(cfg, lim, st, e)
    ensures HubOrder.Inv(cfg, Do(cfg, lim, st, e).hub) && HubOrder.Known(Do(cfg, lim, st, e).hub)
    ensures Do(cfg, lim, st, e).hub.conns.Keys == Do(cfg, lim, st, e).clients.Keys
  {
    hide HubOrder.Inv;
    match e
    case HubStep(h) => HubKeeps(cfg, st.hub, h);
    case Attach(s, encodes) => HubKeeps(cfg, st.hub, HubOrder.BeginAttach(s, st.clients[s].intent.channels, encodes));
    case Subscribe(s, acked) =>
      if SubscribeRefusal(cfg, st.hub.subs, s, st.clients[s].intent.channel).None? {
        HubKeeps(cfg, st.hub, HubOrder.BeginSubscribe(s, st.clients[s].intent.channel, acked));
      }
    case _ =>
  }

  lemma HubKeeps(cfg: Config, hub: HubOrder.State, h: HubOrder.Event)
    requires HubOrder.Inv(cfg, hub) && HubOrder.Enabled(cfg, hub, h)
    ensures HubOrder.Inv(cfg, HubOrder.Do(cfg, hub, h)) && HubOrder.Known(HubOrder.Do(cfg, hub, h))
  {
    HubOrder.KeepsKnown(cfg, hub, h);
    HubOrder.Keeps(cfg, hub, h);
  }

  /** What a connect takes was checked against the grants. */
  lemma TakenIsAllowed(cfg: Config, lim: ConnCommand.Limits, st: State, s: Sink, held: set<Key>, k: Key)
    requires ClientOk(lim, st, s) && s in st.clients && st.clients[s].intent.WantAttach?
    requires k in Keys(cfg, Granted(cfg, held, st.clients[s].intent.channels))
    ensures May(lim, st.clients, s, ChannelName(cfg, k))
  {
    var chs := st.clients[s].intent.channels;
    var granted := Granted(cfg, held, chs);
    var i :| 0 <= i < |granted| && KeyOf(cfg, granted[i]) == k;
    GrantedGrantable(cfg, held, chs);
    assert Grantable(cfg, held, chs, granted[i]);
    KeyRoundTrip(cfg, granted[i]);
  }

  lemma KeepsHeld(cfg: Config, lim: ConnCommand.Limits, st: State, e: Event, s: Sink)
    requires Inv(cfg, lim, st) && Enabled(cfg, lim, st, e)
    ensures HeldOk(cfg, lim, Do(cfg, lim, st, e), s)
  {
    hide HubOrder.Inv;
    var st' := Do(cfg, lim, st, e);
    assert HeldOk(cfg, lim, st, s) && ClientOk(lim, st, s);
    if s in st'.hub.subs {
      forall k | k in st'.hub.subs[s] ensures May(lim, st'.clients, s, ChannelName(cfg, k)) {
        if s in st.hub.subs && k in st.hub.subs[s] {
          MayStays(cfg, lim, st, e, s, ChannelName(cfg, k));
        } else {
          NewKey(cfg, lim, st, e, s, k);
        }
      }
    }
  }

  /** A key gained is one its connection's reader checked. */
  lemma NewKey(cfg: Config, lim: ConnCommand.Limits, st: State, e: Event, s: Sink, k: Key)
    requires Inv(cfg, lim, st) && Enabled(cfg, lim, st, e)
    requires s in Do(cfg, lim, st, e).hub.subs && k in Do(cfg, lim, st, e).hub.subs[s]
    requires s !in st.hub.subs || k !in st.hub.subs[s]
    ensures May(lim, Do(cfg, lim, st, e).clients, s, ChannelName(cfg, k))
  {
    hide HubOrder.Inv;
    assert ClientOk(lim, st, s);
    match e
    case HubStep(h) => SubsShrink(cfg, st.hub, h, s, k);
    case Attach(_, _) => TakenIsAllowed(cfg, lim, st, s, st.hub.subs[s], k);
    case Subscribe(_, _) => KeyRoundTrip(cfg, st.clients[s].intent.channel);
  }

  lemma KeepsJobs(cfg: Config, lim: ConnCommand.Limits, st: State, e: Event)
    requires Inv(cfg, lim, st) && Enabled(cfg, lim, st, e)
    ensures JobsOk(lim, Do(cfg, lim, st, e))
  {
    hide HubOrder.Inv;
    var st' := Do(cfg, lim, st, e);
    var todo, todo' := HubOrder.Todo(st.hub), HubOrder.Todo(st'.hub);
    forall i | 0 <= i < |todo'| ensures FrameOk(lim, st'.clients, todo'[i].to, todo'[i].frame) {
      match e
      case HubStep(h) =>
        hide HubOrder.Do, HubOrder.Enabled;
        TodoShrinks(cfg, st.hub, h);
        if todo' == todo {
          FrameStays(cfg, lim, st, e, todo[i].to, todo[i].frame);
        } else if todo != [] && todo' == todo[1..] {
          FrameStays(cfg, lim, st, e, todo[i + 1].to, todo[i + 1].frame);
        }
      case Attach(s, _) => AttachFrameOk(cfg, lim, st, s);
      case Subscribe(s, _) =>
        assert ClientOk(lim, st, s);
      case _ => FrameStays(cfg, lim, st, e, todo[i].to, todo[i].frame);
    }
  }

  lemma AttachFrameOk(cfg: Config, lim: ConnCommand.Limits, st: State, s: Sink)
    requires ClientOk(lim, st, s) && s in st.clients && st.clients[s].intent.WantAttach?
    ensures s in st.hub.subs ==>
              FrameOk(lim, st.clients, s, ConnectReply(Granted(cfg, st.hub.subs[s], st.clients[s].intent.channels)))
  {
    if s in st.hub.subs {
      var granted := Granted(cfg, st.hub.subs[s], st.clients[s].intent.channels);
      forall i | 0 <= i < |granted| ensures May(lim, st.clients, s, granted[i]) {
        TakenIsAllowed(cfg, lim, st, s, st.hub.subs[s], KeyOf(cfg, granted[i]));
        KeyRoundTrip(cfg, granted[i]);
      }
    }
  }

  lemma KeepsReply(cfg: Config, lim: ConnCommand.Limits, st: State, e: Event)
    requires Inv(cfg, lim, st) && Enabled(cfg, lim, st, e)
    ensures ReplyExact(cfg, Do(cfg, lim, st, e))
  {
    hide HubOrder.Inv;
    match e
    case HubStep(h) =>
      hide HubOrder.Do, HubOrder.Enabled;
      TodoShrinks(cfg, st.hub, h);
    case Attach(s, _) => assert ClientOk(lim, st, s);
    case _ =>
  }

  lemma KeepsQueue(cfg: Config, lim: ConnCommand.Limits, st: State, e: Event, s: Sink)
    requires Inv(cfg, lim, st) && Enabled(cfg, lim, st, e)
    ensures QueueOk(lim, Do(cfg, lim, st, e), s)
  {
    hide HubOrder.Inv;
    var st' := Do(cfg, lim, st, e);
    if s in st'.hub.conns {
      var q := st'.hub.conns[s].accepted;
      assert QueueOk(lim, st, s);
      forall i | 0 <= i < |q| ensures FrameOk(lim, st'.clients, s, q[i]) {
        if s in st.hub.conns && q == st.hub.conns[s].accepted {
          FrameStays(cfg, lim, st, e, s, q[i]);
        } else {
          hide HubOrder.Do, HubOrder.Enabled;
          assert e.HubStep?;
          QueueGrows(cfg, st.hub, e.e, s);
          NewFrame(cfg, lim, st, s, q[|q| - 1]);
          assert q[..|q| - 1] == st.hub.conns[s].accepted;
          assert i < |q| - 1 ==> q[i] == st.hub.conns[s].accepted[i];
          FrameStays(cfg, lim, st, e, s, q[i]);
        }
      }
    }
  }

  lemma NewFrame(cfg: Config, lim: ConnCommand.Limits, st: State, s: Sink, f: Frame)
    requires Inv(cfg, lim, st) && GainedBy(cfg, st.hub, s, f)
    ensures FrameOk(lim, st.clients, s, f)
  {
    hide HubOrder.Inv;
    if f.Pub? && !(HubOrder.Todo(st.hub) != [] && HubOrder.Todo(st.hub)[0] == HubOrder.Job(s, f)) {
      var t :| t in st.hub.readers && st.hub.readers[t].checked == Some(s)
               && f.channel == ChannelName(cfg, st.hub.readers[t].key);
      assert ReaderOk(cfg, lim, st, t);
    }
  }

  lemma KeepsReader(cfg: Config, lim: ConnCommand.Limits, st: State, e: Event, t: nat)
    requires Inv(cfg, lim, st) && Enabled(cfg, lim, st, e)
    ensures ReaderOk(cfg, lim, Do(cfg, lim, st, e), t)
  {
    hide HubOrder.Inv;
    var st' := Do(cfg, lim, st, e);
    assert ReaderOk(cfg, lim, st, t);
    if t in st'.hub.readers {
      var r := st'.hub.readers[t];
      forall s | s in r.todo || r.checked == Some(s) ensures May(lim, st'.clients, s, ChannelName(cfg, r.key)) {
        if e.HubStep? {
          ReaderShrinks(cfg, st.hub, e.e, t, s);
        }
        assert HeldOk(cfg, lim, st, s);
        MayStays(cfg, lim, st, e, s, ChannelName(cfg, r.key));
      }
    }
  }

  lemma KeepsClient(cfg: Config, lim: ConnCommand.Limits, st: State, e: Event, s: Sink)
    requires Inv(cfg, lim, st) && Enabled(cfg, lim, st, e)
    ensures ClientOk(lim, Do(cfg, lim, st, e), s)
  {
    hide HubOrder.Inv;
    var st' := Do(cfg, lim, st, e);
    assert ClientOk(lim, st, s) && HeldOk(cfg, lim, st, s);
    match e
    case HubStep(h) =>
      if s in st'.hub.subs && st'.hub.subs[s] != {} {
        var k :| k in st'.hub.subs[s];
        SubsShrink(cfg, st.hub, h, s, k);
      }
    case Connect(c, requested, answer) =>
      if answer.Some? && c == s {
        ConnCommand.BoundMeans(requested, ConnCommand.ByGrant(lim, answer.value), lim.maxSubscriptions);
        var chs := st'.clients[s].intent.channels;
        forall i | 0 <= i < |chs| ensures May(lim, st'.clients, s, chs[i]) {
          assert chs[i] in chs;
        }
        assert s in st.hub.subs ==> forall k :: k !in st.hub.subs[s];
      }
    case _ =>
  }

  lemma Keeps(cfg: Config, lim: ConnCommand.Limits, st: State, e: Event)
    requires Inv(cfg, lim, st) && Enabled(cfg, lim, st, e)
    ensures Inv(cfg, lim, Do(cfg, lim, st, e))
  {
    KeepsHub(cfg, lim, st, e);
    hide HubOrder.Inv, HubOrder.Do, HubOrder.Enabled, Do, HeldOk, QueueOk, ReaderOk, ClientOk, JobsOk, ReplyExact;
    KeepsJobs(cfg, lim, st, e);
    KeepsReply(cfg, lim, st, e);
    forall s ensures HeldOk(cfg, lim, Do(cfg, lim, st, e), s) { KeepsHeld(cfg, lim, st, e, s); }
    forall s ensures QueueOk(lim, Do(cfg, lim, st, e), s) { KeepsQueue(cfg, lim, st, e, s); }
    forall t ensures ReaderOk(cfg, lim, Do(cfg, lim, st, e), t) { KeepsReader(cfg, lim, st, e, t); }
    forall s ensures ClientOk(lim, Do(cfg, lim, st, e), s) { KeepsClient(cfg, lim, st, e, s); }
  }

  // ---------------------------------------------------------------- whole runs

  ghost predicate Runs(cfg: Config, lim: ConnCommand.Limits, st: State, run: seq<Event>, fin: State)
    requires Inv(cfg, lim, st)
    decreases |run|
  {
    if run == [] then fin == st
    else Enabled(cfg, lim, st, run[0])
         && (Keeps(cfg, lim, st, run[0]); Runs(cfg, lim, Do(cfg, lim, st, run[0]), run[1..], fin))
  }

  lemma {:induction false} RunKeeps(cfg: Config, lim: ConnCommand.Limits, st: State, run: seq<Event>, fin: State)
    requires Inv(cfg, lim, st) && Runs(cfg, lim, st, run, fin)
    ensures Inv(cfg, lim, fin)
    decreases |run|
  {
    if run != [] {
      Keeps(cfg, lim, st, run[0]);
      RunKeeps(cfg, lim, Do(cfg, lim, st, run[0]), run[1..], fin);
    }
  }

  /**
   * In every run, each key a connection holds and each push its queue accepted is for a channel
   * that is well-formed, does not begin with "_" and is covered by a grant of that connection; and
   * each key held is of a channel with a configured block.
   */
  lemma AuthorizedOnly(cfg: Config, lim: ConnCommand.Limits, run: seq<Event>, fin: State)
    requires Runs(cfg, lim, START, run, fin)
    ensures forall s, k :: s in fin.hub.subs && k in fin.hub.subs[s] ==>
              Holdable(cfg, k) && May(lim, fin.clients, s, ChannelName(cfg, k))
    ensures forall s, i :: s in fin.hub.conns && 0 <= i < |fin.hub.conns[s].accepted|
                           && fin.hub.conns[s].accepted[i].Pub?
              ==> May(lim, fin.clients, s, fin.hub.conns[s].accepted[i].channel)
  {
    RunKeeps(cfg, lim, START, run, fin);
    forall s, k | s in fin.hub.subs && k in fin.hub.subs[s]
      ensures Holdable(cfg, k) && May(lim, fin.clients, s, ChannelName(cfg, k))
    {
      assert HeldOk(cfg, lim, fin, s);
    }
    forall s, i | s in fin.hub.conns && 0 <= i < |fin.hub.conns[s].accepted| && fin.hub.conns[s].accepted[i].Pub?
      ensures May(lim, fin.clients, s, fin.hub.conns[s].accepted[i].channel)
    {
      assert QueueOk(lim, fin, s);
      assert FrameOk(lim, fin.clients, s, fin.hub.conns[s].accepted[i]);
    }
  }

  /**
   * While a write section runs nobody else changes what is held, so the set a connect reply was
   * queued with is the set held when the section unlocks.
   */
  lemma ConnectReplyExact(cfg: Config, lim: ConnCommand.Limits, run: seq<Event>, st: State, e: Event)
    requires Runs(cfg, lim, START, run, st) && Enabled(cfg, lim, st, e)
    requires st.hub.writer.Writing?
    ensures HubOrder.Known(st.hub) && Do(cfg, lim, st, e).hub.subs == st.hub.subs
    ensures st.hub.writer.todo != [] && st.hub.writer.todo[0].frame.ConnectReply? ==>
              var job := st.hub.writer.todo[0];
              if job.to in st.hub.subs then st.hub.subs[job.to] == Keys(cfg, job.frame.granted)
              else job.frame.granted == []
  {
    RunKeeps(cfg, lim, START, run, st);
    hide HubOrder.Inv;
    if e.HubStep? {
      hide HubOrder.Do, HubOrder.Enabled;
      TodoShrinks(cfg, st.hub, e.e);
    }
  }
}
