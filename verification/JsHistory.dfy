/**
 * client/js/sidecartunnel.js over whole runs: which subscribe promises are never settled.
 */
module JsHistory {
  import opened Bytes
  import opened JsClient

  /** A run of the client: its state after each event, from its construction on. */
  ghost predicate Trace(cs: seq<Client>, evs: seq<Event>) {
    && |cs| == |evs| + 1
    && (cs[0] == Created(true) || cs[0] == Created(false))
    && forall i :: 0 <= i < |evs| ==> Step(cs[i], evs[i], cs[i + 1])
  }

  /** The next then-handler is that of an unsubscribe the gateway has carried out, or had nothing to do for. */
  predicate UnsubscribeAnswered(c: Client, ch: Channel) {
    && c.cmds.jobs != [] && c.cmds.jobs[0] in c.cmds.kinds && c.cmds.jobs[0] in c.cmds.settled
    && c.cmds.kinds[c.cmds.jobs[0]] == ForUnsubscribe(ch)
    && (c.cmds.settled[c.cmds.jobs[0]] == Resolved
        || c.cmds.settled[c.cmds.jobs[0]] == Rejected(Server(ALREADY_UNSUBSCRIBED)))
  }

  /**
   * While the subscribe command of `e` is unanswered its channel is subscribed to again, over an
   * unsubscribe under way, or an unsubscribe of the channel is answered.
   */
  predicate Displaces(c: Client, ev: Event, e: EntryId) {
    && Registered(c.subs, e) && Unanswered(c.cmds, e)
    && match ev
       case Subscribe(ch) => ch == c.subs.entries[e].channel && c.subs.entries[e].phase.Unsubscribing?
       case RunJob => UnsubscribeAnswered(c, c.subs.entries[e].channel)
       case _ => false
  }

  /** The connection goes while the subscribe command of `e` is unanswered. */
  predicate CutsOff(c: Client, ev: Event, e: EntryId) {
    ev.SocketCloses? && Unanswered(c.cmds, e)
  }

  ghost predicate DisplacedBy(cs: seq<Client>, evs: seq<Event>, e: EntryId, n: nat)
    requires n <= |evs| < |cs|
  {
    exists i :: 0 <= i < n && Displaces(cs[i], evs[i], e)
  }

  ghost predicate ForgottenBy(cs: seq<Client>, evs: seq<Event>, e: EntryId, n: nat)
    requires n <= |evs| < |cs|
  {
    exists j :: 0 <= j < n && CutsOff(cs[j], evs[j], e) && DisplacedBy(cs, evs, e, j)
  }

  /** First displaced, and later cut off. */
  ghost predicate Forgotten(cs: seq<Client>, evs: seq<Event>, e: EntryId)
    requires |evs| < |cs|
  {
    ForgottenBy(cs, evs, e, |evs|)
  }

  // ---------------------------------------------------------------- one entry, step by step

  /** The command has been answered, or failed with the client, and its then-handler is still to run. */
  predicate Answering(m: Promises, e: EntryId) {
    Mine(m, e) && e + 1 in m.jobs && e + 1 in m.settled && m.settled[e + 1] != Rejected(Disconnected)
  }

  /** What its past, displaced or not and forgotten or not, says of an entry. */
  predicate Hist(s: Subscriptions, m: Promises, e: EntryId, displaced: bool, forgotten: bool) {
    if e !in s.entries then !displaced && !forgotten
    else
      && (Registered(s, e) && Unanswered(m, e) ==> s.entries[e].waiting)
      && (displaced ==> !Registered(s, e) && (Unanswered(m, e) ==> s.entries[e].waiting))
      && (forgotten ==> displaced && s.entries[e].waiting && Severed(m, e))
      && (s.entries[e].waiting && !Registered(s, e) ==>
            Answering(m, e) || (displaced && (Unanswered(m, e) || forgotten)))
  }

  predicate HistOf(c: Client, e: EntryId, displaced: bool, forgotten: bool) {
    Hist(c.subs, c.cmds, e, displaced, forgotten)
  }

  /** One entry before and after a pass over the registry. */
  lemma PassedEntry(pass: Pass, s: Subscriptions, e: EntryId)
    requires Indexed(s)
    ensures var s' := Passed(pass, s, s.registry.Keys);
            && Indexed(s')
            && (e in s'.entries <==> e in s.entries)
            && (e in s.entries && !Registered(s, e) ==> s'.entries[e] == s.entries[e] && !Registered(s', e))
            && (Registered(s, e) ==>
                  && s'.entries[e] == Visited(pass, s.entries[e]).0
                  && (Registered(s', e) <==> Visited(pass, s.entries[e]).1))
  {
    PassedIndexed(pass, s, s.registry.Keys);
  }

  /** No subscribe command is outstanding on a connection that is not up. */
  lemma NotUp(c: Client, e: EntryId)
    requires Good(c) && !c.link.ready
    ensures !Unanswered(c.cmds, e)
  {}

  lemma HistAnswered(c: Client, id: int, answer: Answer, e: EntryId, d: bool, f: bool)
    requires Good(c) && id in c.out.pending && c.out.pending[id].Command? && HistOf(c, e, d, f)
    ensures HistOf(Answered(c, id, answer), e, d, f)
  {
    assert c.out.pending[id].p !in c.cmds.settled;
    assert OutcomeOf(answer) != Rejected(Disconnected);
    hide Good;
  }

  lemma HistConnected(c: Client, granted: set<Channel>, s': Subscriptions, e: EntryId, d: bool, f: bool)
    requires Good(c) && !c.link.ready && HistOf(c, e, d, f)
    requires Indexed(c.subs) && s' == Passed(Reply(granted), c.subs, c.subs.registry.Keys)
    ensures Hist(s', c.cmds, e, d, f)
  {
    NotUp(c, e);
    PassedEntry(Reply(granted), c.subs, e);
    hide Good, Passed;
    if Registered(c.subs, e) && Registered(s', e) {
      assert !d;
    }
  }

  lemma HistDropped(c: Client, ch: Channel, e: EntryId, d: bool, f: bool)
    requires Indexed(c.subs) && ch in c.subs.registry && HistOf(c, e, d, f)
    ensures HistOf(Dropped(c, ch), e, d, f)
  {
    assert Registered(c.subs, c.subs.registry[ch]);
  }

  lemma HistRequested(c: Client, kind: Kind, e: EntryId, d: bool, f: bool)
    requires c.made !in c.cmds.kinds && c.made !in c.cmds.settled && !kind.ForSubscribe? && HistOf(c, e, d, f)
    ensures HistOf(Requested(c, kind), e, d, f)
  {}

  lemma HistReceived(c: Client, id: int, answer: Answer, c': Client, e: EntryId, d: bool, f: bool)
    requires Good(c) && Indexed(c.subs) && Received(c, id, answer, c') && HistOf(c, e, d, f)
    ensures HistOf(c', e, d, f)
  {
    hide Good, Answered, Passed, Sent, Hist;
    if id in c.out.pending {
      if c.out.pending[id].Command? {
        HistAnswered(c, id, answer, e, d, f);
      } else {
        ConnectAnswered(c, id);
        if !answer.Error? {
          HistConnected(c, if answer.Granted? then answer.channels else {}, c'.subs, e, d, f);
        }
      }
    }
  }

  lemma HistUnsubscribed(c: Client, ch: Channel, e: EntryId, d: bool, f: bool)
    requires Good(c) && Indexed(c.subs) && ch in c.subs.registry && HistOf(c, e, d, f)
    ensures HistOf(if c.link.ready then Leaving(c, ch) else Dropped(c, ch), e, d, f)
  {
    MadeIsFresh(c);
    hide Good;
    if c.link.ready {
      assert HistOf(Marked(c, ch), e, d, f);
      hide Hist, Marked, Requested;
      HistRequested(Marked(c, ch), ForUnsubscribe(ch), e, d, f);
    } else {
      HistDropped(c, ch, e, d, f);
    }
  }

  lemma HistLost(c: Client, permanentCode: bool, c': Client, e: EntryId, d: bool, f: bool)
    requires Good(c) && c.cmds.jobs == [] && Indexed(c.subs) && Lost(c, permanentCode, c') && HistOf(c, e, d, f)
    ensures HistOf(c', e, d, f || (d && Unanswered(c.cmds, e)))
  {
    PassedEntry(ConnectionLost, c.subs, e);
    var now := Passed(ConnectionLost, c.subs, c.subs.registry.Keys);
    PassedEntry(Abandon, now, e);
    assert Mine(c.cmds, e) ==> Mine(c'.cmds, e) && e + 1 in c'.cmds.settled;
    assert Unanswered(c.cmds, e) ==> Severed(c'.cmds, e);
    hide Good, Passed;
  }

  lemma HistEnded(c: Client, c': Client, e: EntryId, d: bool, f: bool)
    requires Good(c) && Indexed(c.subs) && Ended(c, c') && HistOf(c, e, d, f)
    ensures HistOf(c', e, d, f)
  {
    if !c.link.closed {
      PassedEntry(Abandon, c.subs, e);
      assert Mine(c.cmds, e) ==> Mine(c'.cmds, e) && e + 1 in c'.cmds.settled;
      assert Unanswered(c.cmds, e) ==> Answering(c'.cmds, e);
      hide Good, Passed;
    }
  }

  lemma HistSubscribed(c: Client, ch: Channel, e: EntryId, d: bool, f: bool)
    requires Good(c) && Indexed(c.subs) && MaySubscribe(c, ch) && c.made !in c.subs.entries && HistOf(c, e, d, f)
    ensures HistOf(Subscribed(c, ch), e, d || Displaces(c, Subscribe(ch), e), f)
  {
    MadeIsFresh(c);
  }

  /** The jobs that are left. */
  lemma JobsLeft(m: Promises, e: EntryId)
    requires m.jobs != []
    ensures Answering(NextJob(m), e) ==> Answering(m, e)
    ensures Answering(m, e) && m.jobs[0] != e + 1 ==> Answering(NextJob(m), e)
  {
    assert m.jobs == [m.jobs[0]] + m.jobs[1..];
  }

  lemma HistSubscribeJob(s: Subscriptions, m: Promises, own: EntryId, o: Outcome, e: EntryId, d: bool, f: bool)
    requires Cared(s, m) && own in s.entries && m.jobs != [] && m.jobs[0] == own + 1 && Mine(m, own)
    requires own + 1 in m.settled && m.settled[own + 1] == o && Hist(s, m, e, d, f)
    ensures Hist(SubscribeDone(s, own, o), NextJob(m), e, d, f)
  {
    JobsLeft(m, e);
    var s' := SubscribeDone(s, own, o);
    if e in s.entries && e != own {
      assert s'.entries[e] == s.entries[e] && Registered(s', e) == Registered(s, e);
    }
    hide Cared;
  }

  /** On a connection that is up, a registered entry that waits has its command unanswered or about to be handled. */
  lemma WaitingIsBacked(c: Client, e: EntryId)
    requires Good(c) && c.link.ready && Registered(c.subs, e) && c.subs.entries[e].waiting
    ensures Unanswered(c.cmds, e) || Answering(c.cmds, e)
  {
    assert Backed(c.cmds, e);
    hide OnePlace, Cared, NoneLeaving, Direct;
  }

  lemma HistUnsubscribeJob(c: Client, ch: Channel, e: EntryId, d: bool, f: bool)
    requires Good(c) && Runnable(c) && c.cmds.kinds[c.cmds.jobs[0]] == ForUnsubscribe(ch) && HistOf(c, e, d, f)
    ensures HistOf(JobRun(c), e, d || Displaces(c, RunJob, e), f)
  {
    JobsLeft(c.cmds, e);
    assert Mine(c.cmds, e) ==> c.cmds.jobs[0] != e + 1;
    if UnsubscribeAnswered(c, ch) && ch in c.subs.registry {
      assert c.link.ready by {
        assert c.cmds.jobs[0] in c.cmds.jobs;
      }
      if Registered(c.subs, e) && c.subs.entries[e].waiting {
        WaitingIsBacked(c, e);
      }
      assert AfterJob(c) == Displace(c.subs, ch);
    } else {
      assert AfterJob(c) == c.subs;
    }
    hide Good, Runnable, AfterJob, Answering, Unanswered, Severed;
  }

  lemma HistJob(c: Client, e: EntryId, d: bool, f: bool)
    requires Good(c) && Runnable(c) && HistOf(c, e, d, f)
    ensures HistOf(JobRun(c), e, d || Displaces(c, RunJob, e), f)
  {
    match c.cmds.kinds[c.cmds.jobs[0]]
    case ForSubscribe(own) =>
      HistSubscribeJob(c.subs, c.cmds, own, c.cmds.settled[c.cmds.jobs[0]], e, d, f);
      hide Hist, Good;
    case ForUnsubscribe(ch) => HistUnsubscribeJob(c, ch, e, d, f);
    case Plain =>
      JobsLeft(c.cmds, e);
      hide Good;
  }

  lemma NotDisplaced(c: Client, ch: Channel, e: EntryId)
    requires Good(c) && Indexed(c.subs) && !MaySubscribe(c, ch)
    ensures !Displaces(c, Subscribe(ch), e)
  {}

  lemma HistStep(c: Client, ev: Event, c': Client, e: EntryId, d: bool, f: bool)
    requires Step(c, ev, c') && HistOf(c, e, d, f)
    ensures HistOf(c', e, d || Displaces(c, ev, e), f || (d && CutsOff(c, ev, e)))
  {
    hide Good, Hist, Received, Lost, Ended, Subscribed, Leaving, Dropped, Requested, JobRun, Runnable, Unanswered;
    match ev
    case Receive(id, answer) => HistReceived(c, id, answer, c', e, d, f);
    case Revoked(ch) =>
      if ch in c.subs.registry {
        HistDropped(c, ch, e, d, f);
      }
    case SocketCloses(permanentCode) => HistLost(c, permanentCode, c', e, d, f);
    case Request =>
      if !c.link.closed {
        MadeIsFresh(c);
        HistRequested(c, Plain, e, d, f);
      }
    case Subscribe(ch) =>
      if MaySubscribe(c, ch) {
        HistSubscribed(c, ch, e, d, f);
      } else {
        NotDisplaced(c, ch, e);
      }
    case Unsubscribe(ch) =>
      if ch in c.subs.registry {
        HistUnsubscribed(c, ch, e, d, f);
      }
    case RunJob => HistJob(c, e, d, f);
    case Close => HistEnded(c, c', e, d, f);
    case _ =>
  }

  // ---------------------------------------------------------------- whole runs

  /** In every state of every run, an entry is as its past says. */
  lemma {:induction false} HistTrace(cs: seq<Client>, evs: seq<Event>, e: EntryId, n: nat)
    requires Trace(cs, evs) && n <= |evs|
    ensures HistOf(cs[n], e, DisplacedBy(cs, evs, e, n), ForgottenBy(cs, evs, e, n))
  {
    hide Step, Hist, Displaces, CutsOff;
    if n == 0 {
      assert HistOf(cs[0], e, false, false) by {
        Unborn(cs[0], e);
      }
    } else {
      HistTrace(cs, evs, e, n - 1);
      HistStep(cs[n - 1], evs[n - 1], cs[n], e, DisplacedBy(cs, evs, e, n - 1), ForgottenBy(cs, evs, e, n - 1));
    }
  }

  lemma Unborn(c: Client, e: EntryId)
    requires c == Created(true) || c == Created(false)
    ensures HistOf(c, e, false, false)
  {}

  /** Something will still settle it: a connect reply, its command's reply, or a then-handler. */
  predicate Owed(c: Client, e: EntryId) {
    Registered(c.subs, e) || Unanswered(c.cmds, e) || Answering(c.cmds, e)
  }

  /** A forgotten promise stays unsettled in every later state, and nothing is left that would settle it. */
  lemma ForgottenForEver(cs: seq<Client>, evs: seq<Event>, e: EntryId, n: nat, m: nat)
    requires Trace(cs, evs) && n <= m <= |evs| && ForgottenBy(cs, evs, e, n)
    ensures e in cs[m].subs.entries && cs[m].subs.entries[e].waiting && !Owed(cs[m], e)
  {
    HistTrace(cs, evs, e, m);
    assert ForgottenBy(cs, evs, e, m);
    hide Step;
  }

  /** At any time, an unsettled subscribe promise has something left to settle it unless it is forgotten. */
  lemma OwedOrForgotten(cs: seq<Client>, evs: seq<Event>, e: EntryId)
    requires Trace(cs, evs) && e in cs[|evs|].subs.entries && cs[|evs|].subs.entries[e].waiting
    ensures Owed(cs[|evs|], e) <==> !Forgotten(cs, evs, e)
  {
    HistTrace(cs, evs, e, |evs|);
    hide Step;
  }

  /**
   * Once the client is closed and its then-handlers have run, a subscribe promise is unsettled if and
   * only if its entry was displaced while its command was unanswered, and the connection then went
   * with the command still unanswered.
   */
  lemma UnsettledIffForgotten(cs: seq<Client>, evs: seq<Event>, e: EntryId)
    requires Trace(cs, evs)
    requires var c := cs[|evs|]; c.link.closed && c.cmds.jobs == [] && e in c.subs.entries
    ensures cs[|evs|].subs.entries[e].waiting <==> Forgotten(cs, evs, e)
  {
    var n := |evs|;
    HistTrace(cs, evs, e, n);
    assert n > 0 && Step(cs[n - 1], evs[n - 1], cs[n]);
    ClosedSettled(cs[n], e);
    hide Step;
  }

  lemma ClosedSettled(c: Client, e: EntryId)
    requires Good(c) && c.link.closed && c.cmds.jobs == []
    ensures !Owed(c, e)
  {
    if Mine(c.cmds, e) {
      CommandsAccounted(c, e + 1);
    }
  }

  // ---------------------------------------------------------------- what a command comes to

  predicate Outstanding(m: Promises, p: Promise) { p in m.kinds && p !in m.settled }

  /** The outcome an event gives a command: its own reply's, or that of the connection or the client going. */
  function Gives(c: Client, ev: Event, p: Promise): Option<Outcome> {
    match ev
    case Receive(id, answer) =>
      if id in c.out.pending && c.out.pending[id] == Slot.Command(p)
      then Some(if answer.Error? then Rejected(Server(answer.code)) else Resolved)
      else None
    case SocketCloses(_) => if Outstanding(c.cmds, p) then Some(Rejected(Disconnected)) else None
    case Close => if Outstanding(c.cmds, p) then Some(Rejected(Closed)) else None
    case _ => None
  }

  function Known(m: Promises, p: Promise): Option<Outcome> {
    if p in m.settled then Some(m.settled[p]) else None
  }

  lemma GivesOnce(c: Client, ev: Event, p: Promise)
    requires Good(c) && p in c.cmds.settled
    ensures Gives(c, ev, p) == None
  {}

  lemma OutcomeStep(c: Client, ev: Event, c': Client, p: Promise)
    requires Step(c, ev, c')
    ensures Known(c'.cmds, p) == if p in c.cmds.settled then Known(c.cmds, p) else Gives(c, ev, p)
  {
    match ev
    case Receive(id, answer) => ReceiveOutcome(c, id, answer, c', p);
    case SocketCloses(code) => FailedOutcome(c.cmds, c'.cmds, Disconnected, p, c.made);
    case Close =>
      if c.link.closed {
        ClosedHasAll(c, p);
      } else {
        FailedOutcome(c.cmds, c'.cmds, Closed, p, c.made);
      }
    case RunJob =>
      hide Good;
    case _ =>
      hide Good;
  }

  lemma ClosedHasAll(c: Client, p: Promise)
    requires Good(c) && c.link.closed
    ensures !Outstanding(c.cmds, p)
  {
    if p in c.cmds.kinds {
      CommandsAccounted(c, p);
    }
  }

  lemma FailedOutcome(m: Promises, m': Promises, why: Failure, p: Promise, made: nat)
    requires FailedAll(m, m', why) && m.settled.Keys <= m.kinds.Keys
    ensures Known(m', p)
         == if p in m.settled then Known(m, p) else if Outstanding(m, p) then Some(Rejected(why)) else None
  {}

  lemma ReceiveOutcome(c: Client, id: int, answer: Answer, c': Client, p: Promise)
    requires Good(c) && Indexed(c.subs) && Received(c, id, answer, c')
    ensures Known(c'.cmds, p)
         == if p in c.cmds.settled then Known(c.cmds, p) else Gives(c, Receive(id, answer), p)
  {
    if id in c.out.pending && c.out.pending[id].Command? {
      AnsweredGood(c, id, answer);
    }
    hide Good, Passed, Sent;
  }

  /** Some event before the n-th gave the command this outcome. */
  ghost predicate Given(cs: seq<Client>, evs: seq<Event>, p: Promise, o: Outcome, n: nat)
    requires n <= |evs| < |cs|
  {
    exists i :: 0 <= i < n && Gives(cs[i], evs[i], p) == Some(o)
  }

  /**
   * In every run a command is settled with an outcome if and only if some event gave it that outcome: its
   * reply, resolved or with the error code it carried, or else the loss of the connection or of the client.
   */
  lemma {:induction false} OutcomeIff(cs: seq<Client>, evs: seq<Event>, p: Promise, o: Outcome, n: nat)
    requires Trace(cs, evs) && n <= |evs|
    ensures p in cs[n].cmds.settled && cs[n].cmds.settled[p] == o <==> Given(cs, evs, p, o, n)
  {
    hide Step, Gives;
    if n > 0 {
      OutcomeIff(cs, evs, p, o, n - 1);
      assert Step(cs[n - 1], evs[n - 1], cs[n]);
      GoodBefore(cs[n - 1], evs[n - 1], cs[n]);
      OutcomeStep(cs[n - 1], evs[n - 1], cs[n], p);
      if p in cs[n - 1].cmds.settled {
        GivesOnce(cs[n - 1], evs[n - 1], p);
      }
    }
  }

  lemma GoodBefore(c: Client, ev: Event, c': Client)
    requires Step(c, ev, c')
    ensures Good(c) && Good(c')
  {}

  // ---------------------------------------------------------------- it happens

  lemma Grown(cs: seq<Client>, evs: seq<Event>, ev: Event, c: Client)
    requires Trace(cs, evs) && Step(cs[|evs|], ev, c)
    ensures Trace(cs + [c], evs + [ev])
  {
    hide Step;
  }

  function Connecting(): Client { Opened(Created(true)) }

  function UpAndEmpty(): Client {
    Client(Link(false, true, true, true, false, None), Outbox([], map[], 2),
           Promises(map[], map[], []), Subscriptions(map[], map[]), 0)
  }

  /** On a connection that is up, one subscription asked for and being given up, both unanswered. */
  function BothUnanswered(ch: Channel): Client {
    Client(Link(false, true, true, true, false, None), Outbox([], map[2 := Slot.Command(1), 3 := Slot.Command(2)], 4),
           Promises(map[1 := ForSubscribe(0), 2 := ForUnsubscribe(ch)], map[], []),
           Subscriptions(map[ch := 0], map[0 := Entry(ch, Unsubscribing, true)]), 3)
  }

  lemma Opens(c: Client)
    requires Step(Created(true), SocketOpens, c)
    ensures c == Connecting() && c.link.open && c.cmds.jobs == []
  {}

  lemma Connects(c: Client)
    requires Step(Connecting(), Receive(1, Granted({})), c)
    ensures c == UpAndEmpty()
  {
    assert Sent([], 2, c.out.pending, c.out.nextId);
    assert forall id :: id !in c.out.pending;
    assert c.out == UpAndEmpty().out;
    assert c.subs == UpAndEmpty().subs;
  }

  lemma GivesUpAtOnce(c: Client, c': Client, ch: Channel)
    requires Step(UpAndEmpty(), Subscribe(ch), c) && Step(c, Unsubscribe(ch), c')
    ensures c' == BothUnanswered(ch)
  {
    assert c == Subscribed(UpAndEmpty(), ch);
    assert c.subs.registry == map[ch := 0] && c.subs.entries == map[0 := Entry(ch, Pending, true)];
    assert c.link.ready && c.out.pending == map[2 := Slot.Command(1)];
    hide Good;
    assert c' == Leaving(c, ch);
    assert c'.subs.entries == map[0 := Entry(ch, Unsubscribing, true)];
    assert c'.out.pending == map[2 := Slot.Command(1), 3 := Slot.Command(2)];
    assert c'.cmds.kinds == map[1 := ForSubscribe(0), 2 := ForUnsubscribe(ch)];
  }

  /** A new client connects, subscribes and at once unsubscribes. */
  method GivesUp(ch: Channel) returns (t: SidecarTunnel, ghost cs: seq<Client>, ghost evs: seq<Event>)
    ensures fresh(t) && t.Valid() && t.View() == BothUnanswered(ch)
    ensures Trace(cs, evs) && cs[|evs|] == t.View()
    ensures evs == [SocketOpens, Receive(1, Granted({})), Subscribe(ch), Unsubscribe(ch)]
  {
    hide Good, Trace, Step, Opened;
    t := new SidecarTunnel(true);
    ghost var c0 := t.View();
    var replayed := t.SocketOpens();
    ghost var c1 := t.View();
    Opens(c1);
    t.Receive(1, Granted({}));
    ghost var c2 := t.View();
    Connects(c2);
    var e := t.Subscribe(ch);
    ghost var c3 := t.View();
    var ok := t.Unsubscribe(ch);
    ghost var c4 := t.View();
    GivesUpAtOnce(c3, c4, ch);
    cs := [c0, c1, c2, c3, c4];
    evs := [SocketOpens, Receive(1, Granted({})), Subscribe(ch), Unsubscribe(ch)];
    FourSteps(cs, evs);
  }

  lemma FourSteps(cs: seq<Client>, evs: seq<Event>)
    requires |cs| == 5 && |evs| == 4 && cs[0] == Created(true)
    requires Step(cs[0], evs[0], cs[1]) && Step(cs[1], evs[1], cs[2])
    requires Step(cs[2], evs[2], cs[3]) && Step(cs[3], evs[3], cs[4])
    ensures Trace(cs, evs)
  {
    hide Step;
  }

  /**
   * A failing run, on the client itself: subscribe, unsubscribe and subscribe again, all unanswered,
   * and the connection goes. The first promise is forgotten.
   */
  method Resubscribes(ch: Channel) returns (t: SidecarTunnel, ghost cs: seq<Client>, ghost evs: seq<Event>)
    ensures t.Valid() && Trace(cs, evs) && cs[|evs|] == t.View() && Forgotten(cs, evs, 0)
    ensures 0 in t.entries && t.entries[0].waiting
    ensures evs == [SocketOpens, Receive(1, Granted({})), Subscribe(ch), Unsubscribe(ch)]
                   + [Subscribe(ch)] + [SocketCloses(false)]
  {
    hide Good, Trace, Step, Displaces, Unanswered, Forgotten;
    t, cs, evs := GivesUp(ch);
    ghost var c := t.View();
    var e := t.Subscribe(ch);
    Takes(c, Subscribe(ch), t.View(), ch);
    cs, evs := Longer(cs, evs, Subscribe(ch), t.View());
    t.SocketCloses(false);
    CutOffNow(cs, evs, t.View());
    cs, evs := Longer(cs, evs, SocketCloses(false), t.View());
  }

  /** Another, with one subscribe: the reply to its unsubscribe comes first, and its own never. */
  method AnsweredOutOfOrder(ch: Channel) returns (t: SidecarTunnel, ghost cs: seq<Client>, ghost evs: seq<Event>)
    ensures t.Valid() && Trace(cs, evs) && cs[|evs|] == t.View() && Forgotten(cs, evs, 0)
    ensures 0 in t.entries && t.entries[0].waiting
    ensures evs == [SocketOpens, Receive(1, Granted({})), Subscribe(ch), Unsubscribe(ch)]
                   + [Receive(3, Fine)] + [RunJob] + [SocketCloses(false)]
  {
    hide Good, Trace, Step, Displaces, Unanswered, Forgotten;
    t, cs, evs := GivesUp(ch);
    ghost var c := t.View();
    t.Receive(3, Fine);
    Answers(c, t.View(), ch);
    cs, evs := Longer(cs, evs, Receive(3, Fine), t.View());
    c := t.View();
    t.RunJob();
    Takes(c, RunJob, t.View(), ch);
    cs, evs := Longer(cs, evs, RunJob, t.View());
    t.SocketCloses(false);
    CutOffNow(cs, evs, t.View());
    cs, evs := Longer(cs, evs, SocketCloses(false), t.View());
  }

  /** What was just displaced is forgotten when the connection goes. */
  lemma CutOffNow(cs: seq<Client>, evs: seq<Event>, c: Client)
    requires Trace(cs, evs) && evs != [] && Step(cs[|evs|], SocketCloses(false), c)
    requires Displaces(cs[|evs| - 1], evs[|evs| - 1], 0) && Unanswered(cs[|evs|].cmds, 0)
    ensures Forgotten(cs + [c], evs + [SocketCloses(false)], 0)
    ensures 0 in c.subs.entries && c.subs.entries[0].waiting
  {
    var n := |evs|;
    var cs', evs' := Longer(cs, evs, SocketCloses(false), c);
    hide Step;
    assert Displaces(cs'[n - 1], evs'[n - 1], 0);
    assert DisplacedBy(cs', evs', 0, n) && CutsOff(cs'[n], evs'[n], 0);
    ForgottenForEver(cs', evs', 0, n + 1, n + 1);
  }

  lemma Longer(cs: seq<Client>, evs: seq<Event>, ev: Event, c: Client) returns (cs': seq<Client>, evs': seq<Event>)
    requires Trace(cs, evs) && Step(cs[|evs|], ev, c)
    ensures cs' == cs + [c] && evs' == evs + [ev] && Trace(cs', evs')
  {
    cs', evs' := cs + [c], evs + [ev];
    Grown(cs, evs, ev, c);
  }

  /** The unsubscribe's reply comes first. */
  lemma Answers(c: Client, c': Client, ch: Channel)
    requires c == BothUnanswered(ch) && Step(c, Receive(3, Fine), c')
    ensures c' == Answered(c, 3, Fine) && c'.cmds.jobs == [2]
  {}

  /** Either way the entry is displaced, with its command still unanswered. */
  lemma Takes(c: Client, ev: Event, c': Client, ch: Channel)
    requires Step(c, ev, c')
    requires (c == BothUnanswered(ch) && ev == Subscribe(ch))
             || (c == Answered(BothUnanswered(ch), 3, Fine) && ev == RunJob)
    ensures Displaces(c, ev, 0) && Unanswered(c'.cmds, 0) && c'.cmds.jobs == [] && c'.link.sock
  {
    hide Good;
  }
}
