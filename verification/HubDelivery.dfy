/** internal/hub: one dispatch, from its read lock to its unlock, with anything happening in between. */
module HubDelivery {
  import opened Bytes
  import opened Events
  import opened HubSpec
  import opened HubOrder

  /** A holder of the key that the envelope does not exclude. */
  predicate Recipient(subs: map<Sink, set<Key>>, key: Key, exclude: Text, s: Sink) {
    s in subs && key in subs[s] && (exclude == [] || s.id != exclude)
  }

  /** The frame is in the connection's queue, behind its first `n` frames. */
  ghost predicate Got(st: State, s: Sink, n: nat, f: Frame) {
    s in st.conns && exists k :: n <= k < |st.conns[s].accepted| && st.conns[s].accepted[k] == f
  }

  /** Reader `t` will still offer it to the connection, or is past that and it was closed, refused or took it. */
  ghost predicate OnIt(st: State, t: nat, s: Sink, n: nat, f: Frame) {
    && t in st.readers && s in st.conns
    && (|| s in st.readers[t].todo || st.readers[t].checked == Some(s)
        || st.conns[s].closed || s in st.readers[t].slow || Got(st, s, n, f))
  }

  /** Reader `t` has nothing to do with the connection. */
  ghost predicate OffIt(st: State, t: nat, s: Sink) {
    t in st.readers && s !in st.readers[t].todo && st.readers[t].checked != Some(s) && s !in st.readers[t].slow
  }

  /** A reader stays, with its message, until it ends. */
  lemma ReaderStays(cfg: Config, st: State, e: Event, t: nat)
    requires Known(st) && Enabled(cfg, st, e) && t in st.readers && e != EndRead(t)
    ensures var st' := Do(cfg, st, e);
            && t in st'.readers && st'.readers[t].key == st.readers[t].key
            && st'.readers[t].payload == st.readers[t].payload
  {
    hide Granted, SubscribeRefusal, Droppable, AfterDrops;
    match e
    case ReaderCheck(_, _) | ReaderOffer(_) | EndRead(_) | BeginDispatch(_, _, _, _) =>
    case _ =>
  }

  /** Queues only grow, and a closed connection stays closed. */
  lemma ConnStays(cfg: Config, st: State, e: Event, s: Sink)
    requires Known(st) && Enabled(cfg, st, e) && s in st.conns
    ensures var st' := Do(cfg, st, e);
            && s in st'.conns && st.conns[s].accepted <= st'.conns[s].accepted
            && (st.conns[s].closed ==> st'.conns[s].closed)
  {
    hide Granted, SubscribeRefusal, Droppable, AfterDrops;
    match e
    case WriterOffer | ReaderOffer(_) | OfferOwn(_, _) =>
    case _ =>
  }

  lemma OnItStep(cfg: Config, st: State, e: Event, t: nat, s: Sink, n: nat)
    requires Known(st) && Enabled(cfg, st, e) && e != EndRead(t) && t in st.readers
    requires s in st.conns && n <= |st.conns[s].accepted|
    requires OnIt(st, t, s, n, Pub(ChannelName(cfg, st.readers[t].key), st.readers[t].payload))
    ensures OnIt(Do(cfg, st, e), t, s, n, Pub(ChannelName(cfg, st.readers[t].key), st.readers[t].payload))
  {
    ReaderStays(cfg, st, e, t);
    ConnStays(cfg, st, e, s);
    var st', f := Do(cfg, st, e), Pub(ChannelName(cfg, st.readers[t].key), st.readers[t].payload);
    hide Granted, SubscribeRefusal, Droppable, AfterDrops, ChannelName;
    if Got(st, s, n, f) {
      var k :| n <= k < |st.conns[s].accepted| && st.conns[s].accepted[k] == f;
      assert st'.conns[s].accepted[k] == f;
    } else {
      match e
      case ReaderOffer(u) =>
        if u == t && st.readers[t].checked == Some(s) && !st.conns[s].Full() {
          assert st'.conns[s].accepted[|st.conns[s].accepted|] == f;
        }
      case ReaderCheck(_, _) =>
      case BeginDispatch(_, _, _, _) =>
      case EndRead(_) =>
      case _ =>
    }
  }

  lemma OffItStep(cfg: Config, st: State, e: Event, t: nat, s: Sink)
    requires Known(st) && Enabled(cfg, st, e) && e != EndRead(t) && OffIt(st, t, s)
    ensures OffIt(Do(cfg, st, e), t, s)
  {
    ReaderStays(cfg, st, e, t);
    hide Granted, SubscribeRefusal, Droppable, AfterDrops, ChannelName;
    match e
    case ReaderCheck(_, _) | ReaderOffer(_) | EndRead(_) | BeginDispatch(_, _, _, _) =>
    case _ =>
  }

  lemma {:induction false} StaysOnIt(cfg: Config, st: State, run: seq<Event>, fin: State, t: nat, s: Sink, n: nat)
    requires Inv(cfg, st) && Runs(cfg, st, run, fin) && EndRead(t) !in run && t in st.readers
    requires s in st.conns ==> n <= |st.conns[s].accepted|
    ensures t in fin.readers && fin.readers[t].key == st.readers[t].key
    ensures var f := Pub(ChannelName(cfg, st.readers[t].key), st.readers[t].payload);
            OnIt(st, t, s, n, f) ==> OnIt(fin, t, s, n, f)
    ensures OffIt(st, t, s) ==> OffIt(fin, t, s)
    decreases |run|
  {
    assert Known(st);
    if run != [] {
      var e, next := run[0], Do(cfg, st, run[0]);
      Keeps(cfg, st, e);
      ReaderStays(cfg, st, e, t);
      if s in st.conns {
        ConnStays(cfg, st, e, s);
        if OnIt(st, t, s, n, Pub(ChannelName(cfg, st.readers[t].key), st.readers[t].payload)) {
          OnItStep(cfg, st, e, t, s, n);
        }
      }
      if OffIt(st, t, s) {
        OffItStep(cfg, st, e, t, s);
      }
      hide Inv, Enabled, Do, Known, OnIt, OffIt;
      StaysOnIt(cfg, next, run[1..], fin, t, s, if s in st.conns then n else 0);
    }
  }

  /** Reader `t` offers its push to the connection in this step. */
  predicate OffersTo(st: State, e: Event, t: nat, s: Sink) {
    e == ReaderOffer(t) && t in st.readers && st.readers[t].checked == Some(s)
  }

  ghost function OffersMade(cfg: Config, st: State, run: seq<Event>, t: nat, s: Sink): nat
    requires Inv(cfg, st)
    decreases |run|
  {
    if run == [] || !Enabled(cfg, st, run[0]) then 0
    else
      (Keeps(cfg, st, run[0]);
       One(OffersTo(st, run[0], t, s)) + OffersMade(cfg, Do(cfg, st, run[0]), run[1..], t, s))
  }

  function OffersAhead(st: State, t: nat, s: Sink): nat {
    if t !in st.readers then 0 else One(s in st.readers[t].todo) + One(st.readers[t].checked == Some(s))
  }

  lemma OfferStep(cfg: Config, st: State, e: Event, t: nat, s: Sink)
    requires Known(st) && Enabled(cfg, st, e) && t in st.readers && e != EndRead(t)
    ensures OffersAhead(Do(cfg, st, e), t, s) + One(OffersTo(st, e, t, s)) <= OffersAhead(st, t, s)
  {
    ReaderStays(cfg, st, e, t);
    hide Granted, SubscribeRefusal, Droppable, AfterDrops, ChannelName;
    match e
    case ReaderCheck(_, _) | ReaderOffer(_) | EndRead(_) | BeginDispatch(_, _, _, _) =>
    case _ =>
  }

  lemma {:induction false} OfferedOnce(cfg: Config, st: State, run: seq<Event>, fin: State, t: nat, s: Sink)
    requires Inv(cfg, st) && Runs(cfg, st, run, fin) && EndRead(t) !in run && t in st.readers
    ensures OffersMade(cfg, st, run, t, s) + OffersAhead(fin, t, s) <= OffersAhead(st, t, s)
    decreases |run|
  {
    assert Known(st);
    hide Inv, Enabled, Do, Known, OffersTo, OffersAhead;
    if run != [] {
      Keeps(cfg, st, run[0]);
      ReaderStays(cfg, st, run[0], t);
      OfferStep(cfg, st, run[0], t, s);
      OfferedOnce(cfg, Do(cfg, st, run[0]), run[1..], fin, t, s);
    }
  }

  /** What BeginDispatch puts the reader to. */
  lemma Begun(cfg: Config, st: State, t: nat, key: Key, payload: nat, exclude: Text, s: Sink)
    requires Inv(cfg, st) && Enabled(cfg, st, BeginDispatch(t, key, payload, exclude))
    ensures var st' := Do(cfg, st, BeginDispatch(t, key, payload, exclude));
            && t in st'.readers && st'.readers[t].key == key && st'.readers[t].payload == payload
            && st'.conns == st.conns
            && OffersAhead(st', t, s) == One(Recipient(st.subs, key, exclude, s))
            && (if Recipient(st.subs, key, exclude, s) then s in st'.conns && s in st'.readers[t].todo
                else OffIt(st', t, s))
  {}

  /**
   * A dispatch, in any run and with anything in between: when its reader is about to unlock, every holder of
   * the key that the envelope did not exclude has the push in its queue, behind what was there when the
   * dispatch began, or is closed, or has refused it and is among the slow ones; none of them was offered it
   * twice, and nobody else at all.
   */
  lemma DispatchReaches(
    cfg: Config, before: seq<Event>, st: State, t: nat, key: Key, payload: nat, exclude: Text,
    run: seq<Event>, mid: State, s: Sink)
    requires Runs(cfg, START, before, st) && Inv(cfg, st)
    requires Enabled(cfg, st, BeginDispatch(t, key, payload, exclude))
    requires Inv(cfg, Do(cfg, st, BeginDispatch(t, key, payload, exclude)))
    requires Runs(cfg, Do(cfg, st, BeginDispatch(t, key, payload, exclude)), run, mid)
    requires EndRead(t) !in run && Enabled(cfg, mid, EndRead(t))
    ensures Recipient(st.subs, key, exclude, s) ==>
              && s in st.conns && s in mid.conns
              && (|| Got(mid, s, |st.conns[s].accepted|, Pub(ChannelName(cfg, key), payload))
                  || mid.conns[s].closed || s in mid.readers[t].slow)
    ensures OffersMade(cfg, Do(cfg, st, BeginDispatch(t, key, payload, exclude)), run, t, s)
         <= One(Recipient(st.subs, key, exclude, s))
    ensures !Recipient(st.subs, key, exclude, s) ==> s !in mid.readers[t].slow
  {
    Begun(cfg, st, t, key, payload, exclude, s);
    var next := Do(cfg, st, BeginDispatch(t, key, payload, exclude));
    var n := if s in st.conns then |st.conns[s].accepted| else 0;
    StaysOnIt(cfg, next, run, mid, t, s, n);
    OfferedOnce(cfg, next, run, mid, t, s);
    hide Inv, Do, Runs;
  }
}
