/**
 * internal/conn and internal/hub together, as told by the events of a run: the registry sees a run of its
 * own, made of what the readers do, and each reader hands over what it checked, once.
 */
module AuthorizationHistory {
  import opened Bytes
  import opened Events
  import opened HubSpec
  import opened Authorization
  import HubOrder
  import ConnCommand

  /** Subscribe answers with an error. */
  ghost predicate Refused(cfg: Config, subs: map<Sink, set<Key>>, s: Sink, ch: Channel) {
    || Reserved(ch) || !Resolves(cfg, ch) || s !in subs || cfg.prefix + ch in subs[s]
    || 0 < cfg.maxSubs <= |subs[s]|
  }

  /** What a step is to the registry, if anything. */
  ghost function HubStepOf(cfg: Config, lim: ConnCommand.Limits, st: State, e: Event): Option<HubOrder.Event>
    requires Enabled(cfg, lim, st, e)
  {
    match e
    case HubStep(h) => Some(h)
    case Attach(s, encodes) => Some(HubOrder.BeginAttach(s, st.clients[s].intent.channels, encodes))
    case Subscribe(s, acked) =>
      if Refused(cfg, st.hub.subs, s, st.clients[s].intent.channel) then None
      else Some(HubOrder.BeginSubscribe(s, st.clients[s].intent.channel, acked))
    case _ => None
  }

  lemma HubSideStep(cfg: Config, lim: ConnCommand.Limits, st: State, e: Event)
    requires HubOrder.Known(st.hub) && Enabled(cfg, lim, st, e)
    ensures var h := HubStepOf(cfg, lim, st, e);
            if h.None? then Do(cfg, lim, st, e).hub == st.hub
            else HubOrder.Enabled(cfg, st.hub, h.value) && Do(cfg, lim, st, e).hub == HubOrder.Do(cfg, st.hub, h.value)
  {
    hide HubOrder.Do, HubOrder.Known, Admissible;
    if e.Subscribe? {
      SubscribeRefusalMeans(cfg, st.hub.subs, e.s, st.clients[e.s].intent.channel);
    }
    hide SubscribeRefusal, Resolves, Reserved;
  }

  ghost function HubRun(cfg: Config, lim: ConnCommand.Limits, st: State, run: seq<Event>): seq<HubOrder.Event>
    requires Inv(cfg, lim, st)
    decreases |run|
  {
    if run == [] || !Enabled(cfg, lim, st, run[0]) then []
    else
      (Keeps(cfg, lim, st, run[0]);
       var h := HubStepOf(cfg, lim, st, run[0]);
       (if h.Some? then [h.value] else []) + HubRun(cfg, lim, Do(cfg, lim, st, run[0]), run[1..]))
  }

  /** Whatever readers and registry do together is, for the registry alone, one of its runs. */
  lemma {:induction false} HubSide(cfg: Config, lim: ConnCommand.Limits, st: State, run: seq<Event>, fin: State)
    requires Inv(cfg, lim, st) && Runs(cfg, lim, st, run, fin)
    ensures HubOrder.Inv(cfg, st.hub) && HubOrder.Runs(cfg, st.hub, HubRun(cfg, lim, st, run), fin.hub)
    decreases |run|
  {
    if run != [] {
      var e, next := run[0], Do(cfg, lim, st, run[0]);
      Keeps(cfg, lim, st, e);
      HubSideStep(cfg, lim, st, e);
      HubSide(cfg, lim, next, run[1..], fin);
      var h, rest := HubStepOf(cfg, lim, st, e), HubRun(cfg, lim, next, run[1..]);
      if h.Some? {
        assert ([h.value] + rest)[0] == h.value && ([h.value] + rest)[1..] == rest;
        hide Do, HubOrder.Do, HubOrder.Enabled, HubStepOf, HubOrder.Known;
      } else {
        assert [] + rest == rest;
      }
    }
  }

  // ---------------------------------------------------------------- the readers

  predicate Fresh(st: State, s: Sink) { s in st.clients && st.clients[s].authorizer }

  function GrantsOf(st: State, s: Sink): Option<seq<Text>> { if s in st.clients then st.clients[s].grants else None }

  /** The channel checked for a subscribe that is still to come. */
  function Asked(st: State, s: Sink): seq<Channel> {
    if s in st.clients && st.clients[s].intent.WantSubscribe? then [st.clients[s].intent.channel] else []
  }

  /** The channels filtered for an attach that is still to come. */
  function Listed(st: State, s: Sink): seq<seq<Channel>> {
    if s in st.clients && st.clients[s].intent.WantAttach? then [st.clients[s].intent.channels] else []
  }

  function Checks(e: Event, s: Sink): seq<Channel> { if e.Check? && e.s == s then [e.channel] else [] }

  ghost function Tries(cfg: Config, lim: ConnCommand.Limits, st: State, e: Event, s: Sink): seq<Channel>
    requires Enabled(cfg, lim, st, e)
  {
    if e.Subscribe? && e.s == s then [st.clients[s].intent.channel] else []
  }

  /** What the connect frame asks for, as far as the answered grants cover it, each once, up to the cap. */
  ghost function Lists(lim: ConnCommand.Limits, e: Event, s: Sink): seq<seq<Channel>> {
    if e.Connect? && e.s == s && e.answer.Some?
    then [ConnCommand.Bound(e.requested, ConnCommand.ByGrant(lim, e.answer.value), lim.maxSubscriptions)] else []
  }

  ghost function Attaches(cfg: Config, lim: ConnCommand.Limits, st: State, e: Event, s: Sink): seq<seq<Channel>>
    requires Enabled(cfg, lim, st, e)
  {
    if e.Attach? && e.s == s then [st.clients[s].intent.channels] else []
  }

  lemma ReaderStep(cfg: Config, lim: ConnCommand.Limits, st: State, e: Event, s: Sink)
    requires HubOrder.Known(st.hub) && st.hub.conns.Keys == st.clients.Keys && Enabled(cfg, lim, st, e)
    ensures var st' := Do(cfg, lim, st, e);
            && (Fresh(st', s) <==>
                  (Fresh(st, s) && !(e.Connect? && e.s == s)) || (e.HubStep? && e.e.Create? && e.e.s == s))
            && GrantsOf(st', s) == (if e.Connect? && e.s == s && e.answer.Some? then e.answer else GrantsOf(st, s))
            && Asked(st, s) + Checks(e, s) == Tries(cfg, lim, st, e, s) + Asked(st', s)
            && Listed(st, s) + Lists(lim, e, s) == Attaches(cfg, lim, st, e, s) + Listed(st', s)
  {
    hide HubOrder.Do, HubOrder.Known, SubscribeRefusal;
    assert e.HubStep? && e.e.Create? ==> e.e.s !in st.clients by {
      hide Do;
    }
  }

  ghost function Checked(run: seq<Event>, s: Sink): seq<Channel> {
    if run == [] then [] else Checks(run[0], s) + Checked(run[1..], s)
  }

  ghost function AllListed(lim: ConnCommand.Limits, run: seq<Event>, s: Sink): seq<seq<Channel>> {
    if run == [] then [] else Lists(lim, run[0], s) + AllListed(lim, run[1..], s)
  }

  ghost function Tried(cfg: Config, lim: ConnCommand.Limits, st: State, run: seq<Event>, s: Sink): seq<Channel>
    requires Inv(cfg, lim, st)
    decreases |run|
  {
    if run == [] || !Enabled(cfg, lim, st, run[0]) then []
    else
      (Keeps(cfg, lim, st, run[0]);
       Tries(cfg, lim, st, run[0], s) + Tried(cfg, lim, Do(cfg, lim, st, run[0]), run[1..], s))
  }

  ghost function Attached(cfg: Config, lim: ConnCommand.Limits, st: State, run: seq<Event>, s: Sink): seq<seq<Channel>>
    requires Inv(cfg, lim, st)
    decreases |run|
  {
    if run == [] || !Enabled(cfg, lim, st, run[0]) then []
    else
      (Keeps(cfg, lim, st, run[0]);
       Attaches(cfg, lim, st, run[0], s) + Attached(cfg, lim, Do(cfg, lim, st, run[0]), run[1..], s))
  }

  function ConnectsOf(run: seq<Event>, s: Sink): nat {
    if run == [] then 0 else One(run[0].Connect? && run[0].s == s) + ConnectsOf(run[1..], s)
  }

  function CreatesOf(run: seq<Event>, s: Sink): nat {
    if run == [] then 0 else One(run[0].HubStep? && run[0].e.Create? && run[0].e.s == s) + CreatesOf(run[1..], s)
  }

  /** What the webhook answered for `s`, if it did, with `g` before the run. */
  function Answered(g: Option<seq<Text>>, run: seq<Event>, s: Sink): Option<seq<Text>>
    decreases |run|
  {
    if run == [] then g
    else Answered(if run[0].Connect? && run[0].s == s && run[0].answer.Some? then run[0].answer else g, run[1..], s)
  }

  lemma ConnectsFresh(cfg: Config, lim: ConnCommand.Limits, st: State, e: Event, s: Sink)
    requires st.hub.conns.Keys == st.clients.Keys && Enabled(cfg, lim, st, e)
    ensures e.Connect? && e.s == s ==> Fresh(st, s)
    ensures e.HubStep? && e.e.Create? && e.e.s == s ==> !Fresh(st, s)
  {}

  lemma {:induction false} ReaderRun(
    cfg: Config, lim: ConnCommand.Limits, st: State, run: seq<Event>, fin: State, s: Sink)
    requires Inv(cfg, lim, st) && Runs(cfg, lim, st, run, fin)
    ensures One(Fresh(st, s)) + CreatesOf(run, s) == One(Fresh(fin, s)) + ConnectsOf(run, s)
    ensures GrantsOf(fin, s) == Answered(GrantsOf(st, s), run, s)
    ensures Asked(st, s) + Checked(run, s) == Tried(cfg, lim, st, run, s) + Asked(fin, s)
    ensures Listed(st, s) + AllListed(lim, run, s) == Attached(cfg, lim, st, run, s) + Listed(fin, s)
    decreases |run|
  {
    assert HubOrder.Known(st.hub) && st.hub.conns.Keys == st.clients.Keys;
    hide Inv, Do, HubOrder.Known, Fresh, GrantsOf, Asked, Listed, Checks, Lists, Tries, Attaches;
    if run != [] {
      var e, next := run[0], Do(cfg, lim, st, run[0]);
      ConnectsFresh(cfg, lim, st, e, s);
      ReaderStep(cfg, lim, st, e, s);
      hide Enabled;
      Keeps(cfg, lim, st, e);
      ReaderRun(cfg, lim, next, run[1..], fin, s);
      Chain(Asked(st, s), Checks(e, s), Tries(cfg, lim, st, e, s), Asked(next, s),
            Checked(run[1..], s), Tried(cfg, lim, next, run[1..], s), Asked(fin, s));
      Chain(Listed(st, s), Lists(lim, e, s), Attaches(cfg, lim, st, e, s), Listed(next, s),
            AllListed(lim, run[1..], s), Attached(cfg, lim, next, run[1..], s), Listed(fin, s));
    }
  }

  /**
   * In every run: for the registry alone it is one of its own runs, in which each attach and each subscribe
   * not refused is a section; a connection asks the webhook as often as it was created, at most; its grants
   * are what the webhook answered; and it subscribes to what it checked, and attaches what the grants left
   * of its connect frame, in order, once each.
   */
  lemma AuthorizationByEvents(cfg: Config, lim: ConnCommand.Limits, run: seq<Event>, fin: State, s: Sink)
    requires Runs(cfg, lim, START, run, fin)
    ensures HubOrder.Runs(cfg, HubOrder.START, HubRun(cfg, lim, START, run), fin.hub)
    ensures CreatesOf(run, s) == One(Fresh(fin, s)) + ConnectsOf(run, s)
    ensures GrantsOf(fin, s) == Answered(None, run, s)
    ensures Checked(run, s) == Tried(cfg, lim, START, run, s) + Asked(fin, s)
    ensures AllListed(lim, run, s) == Attached(cfg, lim, START, run, s) + Listed(fin, s)
  {
    HubSide(cfg, lim, START, run, fin);
    ReaderRun(cfg, lim, START, run, fin, s);
  }
}
