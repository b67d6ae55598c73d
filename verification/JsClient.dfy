/**
 * client/js/sidecartunnel.js: the browser client, one event at a time.
 *
 * Every method is one event handler or one call by the application, with no re-entry from its
 * callbacks. What a settled promise's then-handler does runs later, as a job of its own, and the
 * host runs all jobs before the next socket or timer event.
 */
module JsClient {
  import opened Bytes

  type Channel = Text
  type Promise = nat
  type EntryId = nat

  datatype Failure = Disconnected | Closed | Server(code: int)

  datatype Outcome = Resolved | Rejected(why: Failure)

  /** What a command's then-handler will do. */
  datatype Kind = Plain | ForSubscribe(entry: EntryId) | ForUnsubscribe(channel: Channel)

  /** What waits under an id of the current connection. */
  datatype Slot = Connect | Command(p: Promise)

  datatype Phase = Pending | Active | Unsubscribing

  /** A registry entry; `waiting` while its subscribe promise is unsettled. */
  datatype Entry = Entry(channel: Channel, phase: Phase, waiting: bool)

  const ALREADY_UNSUBSCRIBED: int := 105

  // ---------------------------------------------------------------- commands: one place each

  predicate InFlight(pending: map<int, Slot>, p: Promise) {
    exists id :: id in pending && pending[id] == Command(p)
  }

  /** Every command is queued, in flight under one id of this connection, or settled, and in no two of these. */
  ghost predicate OnePlace(
    kinds: map<Promise, Kind>, queue: seq<Promise>, pending: map<int, Slot>, settled: map<Promise, Outcome>)
  {
    && (forall p :: p in kinds ==> p in queue || InFlight(pending, p) || p in settled)
    && (forall i :: 0 <= i < |queue| ==> queue[i] in kinds && queue[i] !in settled)
    && (forall i, j :: 0 <= i < j < |queue| ==> queue[i] != queue[j])
    && (forall id :: id in pending && pending[id].Command? ==>
          pending[id].p in kinds && pending[id].p !in settled && pending[id].p !in queue)
    && (forall i, j :: i in pending && j in pending && pending[i].Command? && pending[i] == pending[j] ==> i == j)
    && settled.Keys <= kinds.Keys
  }

  lemma PlaceQueued(
    kinds: map<Promise, Kind>, queue: seq<Promise>, pending: map<int, Slot>, settled: map<Promise, Outcome>,
    p: Promise, k: Kind)
    requires OnePlace(kinds, queue, pending, settled) && p !in kinds
    ensures OnePlace(kinds[p := k], queue + [p], pending, settled)
  {}

  lemma PlaceInFlight(
    kinds: map<Promise, Kind>, queue: seq<Promise>, pending: map<int, Slot>, settled: map<Promise, Outcome>,
    p: Promise, k: Kind, id: int)
    requires OnePlace(kinds, queue, pending, settled) && p !in kinds && id !in pending
    ensures OnePlace(kinds[p := k], queue, pending[id := Command(p)], settled)
  {
    FlightKept(pending, id, Command(p));
  }

  lemma FlightKept(pending: map<int, Slot>, id: int, slot: Slot)
    requires id !in pending
    ensures forall q :: InFlight(pending, q) ==> InFlight(pending[id := slot], q)
    ensures slot.Command? ==> InFlight(pending[id := slot], slot.p)
  {
    assert pending[id := slot][id] == slot;
    forall q | InFlight(pending, q) ensures InFlight(pending[id := slot], q) {
      var j :| j in pending && pending[j] == Command(q);
      assert pending[id := slot][j] == Command(q);
    }
  }

  lemma FlightLost(pending: map<int, Slot>, id: int)
    requires id in pending
    ensures forall q :: InFlight(pending, q) && pending[id] != Command(q) ==> InFlight(pending - {id}, q)
  {
    forall q | InFlight(pending, q) && pending[id] != Command(q) ensures InFlight(pending - {id}, q) {
      var j :| j in pending && pending[j] == Command(q);
      assert (pending - {id})[j] == Command(q);
    }
  }

  /** The first queued command is sent. */
  lemma PlaceSent(
    kinds: map<Promise, Kind>, queue: seq<Promise>, pending: map<int, Slot>, settled: map<Promise, Outcome>, id: int)
    requires OnePlace(kinds, queue, pending, settled) && queue != [] && id !in pending
    ensures OnePlace(kinds, queue[1..], pending[id := Command(queue[0])], settled)
  {
    FlightKept(pending, id, Command(queue[0]));
    assert queue == [queue[0]] + queue[1..];
  }

  lemma PlaceConnect(
    kinds: map<Promise, Kind>, queue: seq<Promise>, pending: map<int, Slot>, settled: map<Promise, Outcome>, id: int)
    requires OnePlace(kinds, queue, pending, settled) && id !in pending
    ensures OnePlace(kinds, queue, pending[id := Connect], settled)
  {
    FlightKept(pending, id, Connect);
  }

  /** A command in flight is settled and its id forgotten. */
  lemma PlaceSettled(
    kinds: map<Promise, Kind>, queue: seq<Promise>, pending: map<int, Slot>, settled: map<Promise, Outcome>,
    id: int, o: Outcome)
    requires OnePlace(kinds, queue, pending, settled) && id in pending
    ensures pending[id].Connect? ==> OnePlace(kinds, queue, pending - {id}, settled)
    ensures pending[id].Command? ==>
              && pending[id].p in kinds && pending[id].p !in settled
              && OnePlace(kinds, queue, pending - {id}, settled[pending[id].p := o])
  {
    FlightLost(pending, id);
  }

  /** The first queued command is settled without being sent. */
  lemma PlaceDropped(
    kinds: map<Promise, Kind>, queue: seq<Promise>, pending: map<int, Slot>, settled: map<Promise, Outcome>, o: Outcome)
    requires OnePlace(kinds, queue, pending, settled) && queue != []
    ensures queue[0] in kinds && queue[0] !in settled
    ensures OnePlace(kinds, queue[1..], pending, settled[queue[0] := o])
  {
    assert queue == [queue[0]] + queue[1..];
  }

  /** A settled command with a then-handler puts a job on the host's queue. */
  function JobFor(kinds: map<Promise, Kind>, p: Promise): seq<Promise> {
    if p in kinds && !kinds[p].Plain? then [p] else []
  }

  /** Every old outcome stands, and each command that was outstanding now has this one. */
  ghost predicate AllFailed(
    kinds: map<Promise, Kind>, was: map<Promise, Outcome>, now: map<Promise, Outcome>, why: Failure)
  {
    && now.Keys == kinds.Keys
    && forall p :: p in kinds ==> now[p] == if p in was then was[p] else Rejected(why)
  }

  /** One more command fails: its then-handler, if it has one, becomes a job. */
  ghost predicate Failing(
    kinds: map<Promise, Kind>, was: map<Promise, Outcome>, now: map<Promise, Outcome>, why: Failure, jobs: seq<Promise>)
  {
    && was.Keys <= now.Keys <= kinds.Keys
    && (forall p :: p in now ==> now[p] == if p in was then was[p] else Rejected(why))
    && (forall p :: p in jobs <==> p in now && p !in was && !kinds[p].Plain?)
  }

  lemma FailOne(
    kinds: map<Promise, Kind>, was: map<Promise, Outcome>, now: map<Promise, Outcome>, why: Failure,
    jobs: seq<Promise>, p: Promise)
    requires Failing(kinds, was, now, why, jobs) && p in kinds && p !in now
    ensures Failing(kinds, was, now[p := Rejected(why)], why, jobs + JobFor(kinds, p))
  {}

  /** `for (const p of this._pending.values()) p.reject(...)`, then the same over the queue. */
  method FailAll(
    kinds: map<Promise, Kind>, queue: seq<Promise>, pending: map<int, Slot>, nextId: int, why: Failure,
    settled: map<Promise, Outcome>)
    returns (jobs: seq<Promise>, now: map<Promise, Outcome>)
    requires OnePlace(kinds, queue, pending, settled)
    requires forall id :: id in pending ==> 0 < id < nextId
    ensures OnePlace(kinds, [], map[], now) && AllFailed(kinds, settled, now, why)
    ensures forall p :: p in jobs <==> p in now && p !in settled && !kinds[p].Plain?
  {
    var left, rest := pending, queue;
    jobs, now := [], settled;
    assert Failing(kinds, settled, now, why, jobs);
    var id := 1;
    while id < nextId
      invariant OnePlace(kinds, queue, left, now) && Failing(kinds, settled, now, why, jobs)
      invariant forall j :: j in left ==> id <= j < nextId
    {
      hide OnePlace, Failing;
      if id in left {
        PlaceSettled(kinds, queue, left, now, id, Rejected(why));
        if left[id].Command? {
          FailOne(kinds, settled, now, why, jobs, left[id].p);
          jobs := jobs + JobFor(kinds, left[id].p);
          now := now[left[id].p := Rejected(why)];
        }
        left := left - {id};
      }
      id := id + 1;
    }
    assert left == map[] by {
      assert forall j :: j !in left;
    }
    while rest != []
      invariant OnePlace(kinds, rest, map[], now) && Failing(kinds, settled, now, why, jobs)
    {
      hide OnePlace, Failing;
      PlaceDropped(kinds, rest, map[], now, Rejected(why));
      FailOne(kinds, settled, now, why, jobs, rest[0]);
      jobs := jobs + JobFor(kinds, rest[0]);
      now := now[rest[0] := Rejected(why)];
      rest := rest[1..];
    }
    assert forall p :: !InFlight(map[], p);
  }

  /** These commands, in order, each in flight under the next id of the connection. */
  ghost predicate Sent(queue: seq<Promise>, first: int, pending: map<int, Slot>, next: int) {
    && next == first + |queue|
    && (forall id :: id in pending <==> first <= id < next)
    && (forall id :: id in pending ==> pending[id] == Command(queue[id - first]))
  }

  lemma NothingSent(first: int)
    ensures Sent([], first, map[], first)
  {}

  lemma SentOneMore(queue: seq<Promise>, first: int, pending: map<int, Slot>, next: int, p: Promise)
    requires Sent(queue, first, pending, next)
    ensures next !in pending && Sent(queue + [p], first, pending[next := Command(p)], next + 1)
  {}

  /** The queue is sent once the connect reply is in. */
  method SendQueue(kinds: map<Promise, Kind>, queue: seq<Promise>, nextId: int, ghost settled: map<Promise, Outcome>)
    returns (sent: map<int, Slot>, next: int)
    requires OnePlace(kinds, queue, map[], settled)
    ensures OnePlace(kinds, [], sent, settled) && Sent(queue, nextId, sent, next)
  {
    hide OnePlace, Sent;
    sent, next := map[], nextId;
    var rest, done := queue, [];
    NothingSent(nextId);
    while rest != []
      invariant queue == done + rest
      invariant OnePlace(kinds, rest, sent, settled) && Sent(done, nextId, sent, next)
    {
      SentOneMore(done, nextId, sent, next, rest[0]);
      PlaceSent(kinds, rest, sent, settled, next);
      sent := sent[next := Command(rest[0])];
      done := done + [rest[0]];
      rest := rest[1..];
      next := next + 1;
    }
    assert done == queue;
  }

  // ---------------------------------------------------------------- subscriptions: who will settle them

  /** Every command's promise; `jobs` are settled ones whose then-handlers have not run. */
  datatype Promises = Promises(kinds: map<Promise, Kind>, settled: map<Promise, Outcome>, jobs: seq<Promise>)

  /** The registry, and every entry ever made. */
  datatype Subscriptions = Subscriptions(registry: map<Channel, EntryId>, entries: map<EntryId, Entry>)

  /** An entry's own subscribe command is the promise made right after it; one made offline has none. */
  predicate Mine(m: Promises, e: EntryId) { e + 1 in m.kinds && m.kinds[e + 1] == ForSubscribe(e) }

  predicate Unanswered(m: Promises, e: EntryId) { Mine(m, e) && e + 1 !in m.settled }

  /** The command is outstanding, or its then-handler is about to run. */
  predicate Backed(m: Promises, e: EntryId) { Mine(m, e) && (e + 1 !in m.settled || e + 1 in m.jobs) }

  /** The command failed with its connection, which its then-handler leaves to the next connect reply. */
  predicate Severed(m: Promises, e: EntryId) {
    Mine(m, e) && e + 1 in m.settled && m.settled[e + 1] == Rejected(Disconnected)
  }

  predicate Registered(s: Subscriptions, e: EntryId) {
    e in s.entries && s.entries[e].channel in s.registry && s.registry[s.entries[e].channel] == e
  }

  ghost predicate Indexed(s: Subscriptions) {
    forall ch :: ch in s.registry ==> s.registry[ch] in s.entries && s.entries[s.registry[ch]].channel == ch
  }

  /** An unsettled subscribe promise is of an entry that is registered, backed or severed. */
  ghost predicate Cared(s: Subscriptions, m: Promises) {
    && Indexed(s)
    && (forall p :: p in m.kinds && m.kinds[p].ForSubscribe? ==>
          m.kinds[p].entry in s.entries && p == m.kinds[p].entry + 1)
    && (forall e :: e in s.entries && s.entries[e].waiting ==> Registered(s, e) || Backed(m, e) || Severed(m, e))
  }

  /** On a connection that is up, what is registered and unsettled has its own command outstanding. */
  ghost predicate Asked(s: Subscriptions, m: Promises) {
    forall e :: Registered(s, e) && s.entries[e].waiting ==> Backed(m, e)
  }

  /** A subscribe command is sent at once, on a connection that is up, and goes with it. */
  ghost predicate Direct(ready: bool, m: Promises) {
    forall p :: p in m.kinds && m.kinds[p].ForSubscribe? && p !in m.settled ==> ready
  }

  /** Only while it is up is anything registered in the middle of an unsubscribe. */
  ghost predicate NoneLeaving(s: Subscriptions) {
    forall e :: Registered(s, e) ==> !s.entries[e].phase.Unsubscribing?
  }

  /** Jobs are of settled commands; answers are handled before the connection they came on is gone. */
  ghost predicate JobsOk(up: bool, closed: bool, m: Promises) {
    forall p :: p in m.jobs ==>
      && p in m.settled && p in m.kinds
      && (m.settled[p] == Rejected(Disconnected) ==> !up)
      && (m.settled[p] == Resolved || (m.settled[p].Rejected? && m.settled[p].why.Server?) ==> up || closed)
  }

  ghost predicate Kept<K, V>(m: map<K, V>, m': map<K, V>) {
    forall k :: k in m ==> k in m' && m'[k] == m[k]
  }

  /** No entry is forgotten, and none that was settled waits again. */
  ghost predicate Quieter(entries: map<EntryId, Entry>, entries': map<EntryId, Entry>) {
    forall e :: e in entries ==> e in entries' && (entries'[e].waiting ==> entries[e].waiting)
  }

  /** What a pass over the registry does to one entry, and whether the entry stays. */
  datatype Pass = Reply(granted: set<Channel>) | ConnectionLost | Abandon

  function Visited(pass: Pass, e: Entry): (r: (Entry, bool))
    ensures r.0.channel == e.channel
    ensures !r.1 ==> !r.0.waiting
  {
    match pass
    case Reply(granted) =>
      if e.channel in granted then (Entry(e.channel, Active, false), true)
      else if e.phase.Unsubscribing? then (e, true)
      else (e.(waiting := false), false)
    case ConnectionLost =>
      if e.phase.Unsubscribing? then (e.(waiting := false), false) else (e.(phase := Pending), true)
    case Abandon => (e.(waiting := false), false)
  }

  /** The subscriptions once the channels in `done` have been visited. */
  function Passed(pass: Pass, s: Subscriptions, done: set<Channel>): Subscriptions
    requires Indexed(s)
  {
    s.(entries := map e | e in s.entries ::
         if Registered(s, e) && s.entries[e].channel in done then Visited(pass, s.entries[e]).0 else s.entries[e],
       registry := map ch | ch in s.registry && (ch in done ==> Visited(pass, s.entries[s.registry[ch]]).1) ::
         s.registry[ch])
  }

  lemma PassedNone(pass: Pass, s: Subscriptions)
    requires Indexed(s)
    ensures Passed(pass, s, {}) == s
  {
    assert Passed(pass, s, {}).entries == s.entries && Passed(pass, s, {}).registry == s.registry;
  }

  lemma VisitOne(pass: Pass, s: Subscriptions, done: set<Channel>, ch: Channel)
    requires Indexed(s) && ch in s.registry && ch !in done
    ensures var e := s.registry[ch];
            var now := Passed(pass, s, done);
            var (entry, stays) := Visited(pass, s.entries[e]);
            && e in now.entries && now.entries[e] == s.entries[e]
            && Passed(pass, s, done + {ch})
               == now.(entries := now.entries[e := entry],
                       registry := if stays then now.registry else now.registry - {ch})
  {
    assert Registered(s, s.registry[ch]);
    var e := s.registry[ch];
    var was, now := Passed(pass, s, done), Passed(pass, s, done + {ch});
    assert now.entries == was.entries[e := Visited(pass, s.entries[e]).0];
    assert now.registry == if Visited(pass, s.entries[e]).1 then was.registry else was.registry - {ch};
  }

  lemma PassedIndexed(pass: Pass, s: Subscriptions, done: set<Channel>)
    requires Indexed(s)
    ensures Indexed(Passed(pass, s, done))
  {
    forall ch | ch in s.registry ensures Registered(s, s.registry[ch]) {}
  }

  /** `for (const [channel, e] of Array.from(this._registry)) ...` */
  method PassOver(pass: Pass, s: Subscriptions) returns (now: Subscriptions)
    requires Indexed(s)
    ensures now == Passed(pass, s, s.registry.Keys)
  {
    now := s;
    var rest := s.registry.Keys;
    PassedNone(pass, s);
    hide Indexed, Passed, Visited;
    assert s.registry.Keys - rest == {};
    while rest != {}
      invariant rest <= s.registry.Keys
      invariant now == Passed(pass, s, s.registry.Keys - rest)
      decreases |rest|
    {
      var ch :| ch in rest;
      VisitOne(pass, s, s.registry.Keys - rest, ch);
      assert s.registry.Keys - (rest - {ch}) == s.registry.Keys - rest + {ch};
      rest := rest - {ch};
      var (entry, stays) := Visited(pass, now.entries[s.registry[ch]]);
      now := now.(entries := now.entries[s.registry[ch] := entry],
                  registry := if stays then now.registry else now.registry - {ch});
    }
    assert s.registry.Keys - rest == s.registry.Keys;
  }

  /** What a pass makes of one entry. */
  lemma PassedMeans(pass: Pass, s: Subscriptions, e: EntryId)
    requires Indexed(s) && e in s.entries
    ensures var s' := Passed(pass, s, s.registry.Keys);
            var was, stays := s.entries[e], Registered(s', e);
            && e in s'.entries
            && (!Registered(s, e) ==> s'.entries[e] == was && !stays)
            && (Registered(s, e) ==>
                  match pass
                  case Reply(granted) =>
                    if was.channel in granted then s'.entries[e] == Entry(was.channel, Active, false) && stays
                    else if was.phase.Unsubscribing? then s'.entries[e] == was && stays
                    else !s'.entries[e].waiting && !stays
                  case ConnectionLost =>
                    if was.phase.Unsubscribing? then !s'.entries[e].waiting && !stays
                    else s'.entries[e] == Entry(was.channel, Pending, was.waiting) && stays
                  case Abandon => !s'.entries[e].waiting && !stays)
  {}

  lemma PassKeeps(pass: Pass, s: Subscriptions, m: Promises)
    requires Cared(s, m)
    ensures var s' := Passed(pass, s, s.registry.Keys);
            && Cared(s', m) && Quieter(s.entries, s'.entries) && s'.entries.Keys == s.entries.Keys
            && (pass.Reply? && NoneLeaving(s) ==> Asked(s', m))
            && (!pass.Reply? ==> NoneLeaving(s'))
            && (pass.Abandon? || s.registry == map[] ==> s'.registry == map[])
  {
    var s' := Passed(pass, s, s.registry.Keys);
    PassedIndexed(pass, s, s.registry.Keys);
    forall e | e in s'.entries && s'.entries[e].waiting
      ensures Registered(s', e) || Backed(m, e) || Severed(m, e)
    {
      if Registered(s, e) {
        assert Visited(pass, s.entries[e]).1;
      }
    }
    forall e | Registered(s', e)
      ensures pass.Reply? && NoneLeaving(s) ==> !s'.entries[e].waiting
      ensures !pass.Reply? ==> !s'.entries[e].phase.Unsubscribing?
    {
      assert Registered(s, e);
    }
    if pass.Abandon? || s.registry == map[] {
      assert forall ch :: ch !in s'.registry;
    }
  }

  // ---------------------------------------------------------------- what each step keeps of that

  /** Commands are only added, and a settled subscribe command leaves its job. */
  ghost predicate Further(m: Promises, m': Promises) {
    && Kept(m.kinds, m'.kinds) && Kept(m.settled, m'.settled)
    && forall p :: p in m.kinds && m.kinds[p].ForSubscribe? && (p !in m.settled || p in m.jobs) ==>
         p !in m'.settled || p in m'.jobs
  }

  /** Commands that failed with their connection, or with the client, and their jobs. */
  lemma FailedKeep(s: Subscriptions, m: Promises, now: map<Promise, Outcome>, why: Failure, more: seq<Promise>)
    requires Cared(s, m) && AllFailed(m.kinds, m.settled, now, why) && !why.Server? && m.settled.Keys <= m.kinds.Keys
    requires forall p :: p in m.jobs ==> p in m.settled && p in m.kinds
    requires forall p :: p in more <==> p in now && p !in m.settled && !m.kinds[p].Plain?
    ensures var m' := m.(settled := now, jobs := m.jobs + more);
            && Cared(s, m') && Kept(m.settled, now)
            && (why.Closed? ==> JobsOk(false, true, m'))
            && (m.jobs == [] ==> JobsOk(false, false, m') && JobsOk(false, true, m'))
  {
    CommandsKeep(s, m, m.(settled := now, jobs := m.jobs + more));
  }

  /** Issuing and settling commands. */
  lemma CommandsKeep(s: Subscriptions, m: Promises, m': Promises)
    requires Cared(s, m) && Further(m, m')
    requires forall p :: p in m'.kinds && p !in m.kinds && m'.kinds[p].ForSubscribe? ==>
               m'.kinds[p].entry in s.entries && p == m'.kinds[p].entry + 1
    ensures Cared(s, m') && (Asked(s, m) ==> Asked(s, m'))
  {
    forall e: EntryId | Backed(m, e) ensures Backed(m', e) {
      assert m'.kinds[e + 1] == ForSubscribe(e);
    }
  }

  /** An entry nobody waits for any more, possibly taken out of the registry. */
  function EntrySettled(s: Subscriptions, e: EntryId, phase: Phase, keep: bool): Subscriptions
    requires e in s.entries
  {
    var ch := s.entries[e].channel;
    s.(registry := if keep then s.registry else s.registry - {ch}, entries := s.entries[e := Entry(ch, phase, false)])
  }

  lemma SettledKeeps(s: Subscriptions, m: Promises, e: EntryId, phase: Phase, keep: bool)
    requires Cared(s, m) && e in s.entries && (!keep ==> Registered(s, e))
    ensures var s' := EntrySettled(s, e, phase, keep);
            && Cared(s', m) && Quieter(s.entries, s'.entries)
            && (Asked(s, m) ==> Asked(s', m))
            && (NoneLeaving(s) && (phase.Unsubscribing? ==> phase == s.entries[e].phase) ==> NoneLeaving(s'))
  {
    var s' := EntrySettled(s, e, phase, keep);
    forall f | f in s.entries && (f != e || keep) ensures Registered(s', f) == Registered(s, f) {}
  }

  /** A registered entry leaves the registry, unsettled or not. */
  function Displace(s: Subscriptions, ch: Channel): Subscriptions
    requires Indexed(s) && ch in s.registry
  {
    s.(registry := s.registry - {ch})
  }

  lemma DisplacedKeeps(s: Subscriptions, m: Promises, ch: Channel)
    requires Cared(s, m) && ch in s.registry
    requires s.entries[s.registry[ch]].waiting ==> Backed(m, s.registry[ch])
    ensures Cared(Displace(s, ch), m)
    ensures Asked(s, m) ==> Asked(Displace(s, ch), m)
    ensures NoneLeaving(s) ==> NoneLeaving(Displace(s, ch))
  {
    forall f | f in s.entries && f != s.registry[ch] ensures Registered(Displace(s, ch), f) == Registered(s, f) {}
  }

  /** An entry nobody waits for is registered, unsettled, for a channel that has none. */
  function Enter(s: Subscriptions, ch: Channel, e: EntryId): Subscriptions {
    s.(registry := s.registry[ch := e], entries := s.entries[e := Entry(ch, Pending, true)])
  }

  lemma EnteredKeeps(s: Subscriptions, m: Promises, ch: Channel, e: EntryId)
    requires Cared(s, m) && ch !in s.registry
    requires e in s.entries ==> s.entries[e].channel == ch && !s.entries[e].waiting
    ensures Cared(Enter(s, ch, e), m)
    ensures NoneLeaving(s) ==> NoneLeaving(Enter(s, ch, e))
    ensures Asked(s, m) && Backed(m, e) ==> Asked(Enter(s, ch, e), m)
  {
    forall f | f in s.entries && f != e ensures Registered(Enter(s, ch, e), f) == Registered(s, f) {}
  }

  /** A change to an entry that nobody waits for more than before, and that stays where it is. */
  lemma EntryChangeKeeps(s: Subscriptions, m: Promises, e: EntryId, entry: Entry)
    requires Cared(s, m)
    requires if e in s.entries then entry.channel == s.entries[e].channel && (entry.waiting ==> s.entries[e].waiting)
             else !entry.waiting
    ensures var s' := s.(entries := s.entries[e := entry]);
            && Cared(s', m) && Quieter(s.entries, s'.entries)
            && (Asked(s, m) ==> Asked(s', m))
            && (NoneLeaving(s) && !entry.phase.Unsubscribing? ==> NoneLeaving(s'))
  {
    var s' := s.(entries := s.entries[e := entry]);
    forall f | f in s.entries ensures Registered(s', f) == Registered(s, f) {}
    assert forall ch :: ch in s.registry ==> s.registry[ch] in s.entries;
  }

  function NextJob(m: Promises): Promises
    requires m.jobs != []
  {
    m.(jobs := m.jobs[1..])
  }

  /** The first job is done with: what its command backed is settled, registered, or severed. */
  lemma JobDoneKeeps(s: Subscriptions, m: Promises, up: bool)
    requires Cared(s, m) && m.jobs != [] && m.jobs[0] in m.kinds && (up ==> Asked(s, m))
    requires m.kinds[m.jobs[0]].ForSubscribe? ==>
               var e := m.kinds[m.jobs[0]].entry;
               && e in s.entries
               && (s.entries[e].waiting ==> if Registered(s, e) then !up else Severed(m, e))
    ensures Cared(s, NextJob(m)) && (up ==> Asked(s, NextJob(m)))
  {
    forall e: EntryId | Backed(m, e) && m.kinds[m.jobs[0]] != ForSubscribe(e) ensures Backed(NextJob(m), e) {
      assert e + 1 in m.jobs ==> e + 1 in m.jobs[1..] by {
        assert m.jobs == [m.jobs[0]] + m.jobs[1..];
      }
    }
  }

  // ---------------------------------------------------------------- one event, on values

  /** A server reply: the connect reply's subs, an error code, or anything else that answers. */
  datatype Answer = Granted(channels: set<Channel>) | Fine | Error(code: int)

  /** Where the connection stands. */
  datatype Link = Link(
    closed: bool, ready: bool, open: bool,
    sock: bool,                 // this._sock is a socket whose close event has not fired
    timer: bool,                // a reconnect is armed
    disconnect: Option<bool>)   // the last disconnect frame's `reconnect`

  /** Commands not answered yet: waiting for the connect reply, and under an id of this connection. */
  datatype Outbox = Outbox(queue: seq<Promise>, pending: map<int, Slot>, nextId: int)

  /** The client's fields. Promises and entries are objects; here, numbers below `made`. */
  datatype Client = Client(link: Link, out: Outbox, cmds: Promises, subs: Subscriptions, made: nat)

  /** Not closed: a socket or a timer, never both. Closed: neither, and nothing outstanding. */
  ghost predicate Linked(link: Link, out: Outbox, registry: map<Channel, EntryId>) {
    && (if link.closed then !link.sock && !link.timer && out.queue == [] && out.pending == map[] && registry == map[]
        else link.sock != link.timer)
    && (link.open ==> link.sock) && (link.ready ==> link.open && out.queue == [])
    && (!link.open ==> out.pending == map[])
    && out.nextId > 0
    && (forall id :: id in out.pending ==>
          0 < id < out.nextId && if link.ready then out.pending[id].Command? else id == 1 && out.pending[id].Connect?)
  }

  ghost predicate Commands(c: Client) {
    && OnePlace(c.cmds.kinds, c.out.queue, c.out.pending, c.cmds.settled)
    && JobsOk(c.link.ready, c.link.closed, c.cmds)
    && forall p :: p in c.cmds.kinds ==> p < c.made
  }

  ghost predicate Awaited(ready: bool, s: Subscriptions, m: Promises, made: nat) {
    && Cared(s, m)
    && (ready ==> Asked(s, m))
    && (!ready ==> NoneLeaving(s))
    && Direct(ready, m)
    && forall e :: e in s.entries ==> e < made
  }

  ghost predicate Good(c: Client) {
    Linked(c.link, c.out, c.subs.registry) && Commands(c) && Awaited(c.link.ready, c.subs, c.cmds, c.made)
  }

  /** Outcomes are final: nothing settled is settled again, and no promise is forgotten. */
  ghost predicate Final(c: Client, c': Client) {
    && Kept(c.cmds.kinds, c'.cmds.kinds) && Kept(c.cmds.settled, c'.cmds.settled)
    && Quieter(c.subs.entries, c'.subs.entries)
  }

  /** onopen: _sendConnect, the first frame, under id 1. */
  function Opened(c: Client): Client {
    c.(link := c.link.(open := true), out := c.out.(nextId := 2, pending := map[1 := Connect]))
  }

  lemma OpenedGood(c: Client)
    requires Good(c) && c.link.sock && !c.link.open
    ensures Good(Opened(c)) && Final(c, Opened(c))
  {
    PlaceConnect(c.cmds.kinds, c.out.queue, c.out.pending, c.cmds.settled, 1);
  }

  /** The names the connect frame carries. */
  function Replayed(s: Subscriptions): set<Channel>
    requires Indexed(s)
  {
    set ch | ch in s.registry && !s.entries[s.registry[ch]].phase.Unsubscribing?
  }

  /** All of the registry rides the connect frame: nothing is left in the middle of an unsubscribe. */
  lemma ReplaysAll(c: Client)
    requires Good(c) && !c.link.ready
    ensures Replayed(c.subs) == c.subs.registry.Keys
  {
    forall ch | ch in c.subs.registry ensures !c.subs.entries[c.subs.registry[ch]].phase.Unsubscribing? {
      assert Registered(c.subs, c.subs.registry[ch]);
    }
  }

  function OutcomeOf(answer: Answer): Outcome {
    if answer.Error? then Rejected(Server(answer.code)) else Resolved
  }

  function Settle(m: Promises, p: Promise, o: Outcome): Promises {
    m.(settled := m.settled[p := o], jobs := m.jobs + JobFor(m.kinds, p))
  }

  /** A command's reply: settled, its id forgotten. */
  function Answered(c: Client, id: int, answer: Answer): Client
    requires id in c.out.pending && c.out.pending[id].Command?
  {
    c.(out := c.out.(pending := c.out.pending - {id}), cmds := Settle(c.cmds, c.out.pending[id].p, OutcomeOf(answer)))
  }

  lemma AnsweredGood(c: Client, id: int, answer: Answer)
    requires Good(c) && c.link.open && id in c.out.pending && c.out.pending[id].Command?
    ensures Good(Answered(c, id, answer)) && Final(c, Answered(c, id, answer))
    ensures c.out.pending[id].p !in c.cmds.settled
  {
    var p, o := c.out.pending[id].p, OutcomeOf(answer);
    PlaceSettled(c.cmds.kinds, c.out.queue, c.out.pending, c.cmds.settled, id, o);
    CommandsKeep(c.subs, c.cmds, Settle(c.cmds, p, o));
    hide OnePlace, Cared, Asked, NoneLeaving;
  }

  /** The connect reply's id is forgotten: on a connection that is not up it is the only one. */
  lemma ConnectAnswered(c: Client, id: int)
    requires Good(c) && id in c.out.pending && c.out.pending[id].Connect?
    ensures c.link.open && !c.link.ready
    ensures Good(c.(out := c.out.(pending := map[]))) && Final(c, c.(out := c.out.(pending := map[])))
  {
    PlaceSettled(c.cmds.kinds, c.out.queue, c.out.pending, c.cmds.settled, id, Resolved);
    assert forall j :: j !in c.out.pending - {id};
    assert c.out.pending - {id} == map[];
    hide OnePlace, JobsOk, Cared, Asked, NoneLeaving;
  }

  /** _onConnected: settle what the reply grants and what it does not, then send what was queued. */
  method Connected(c: Client, granted: set<Channel>) returns (c': Client)
    requires Good(c) && c.link.open && !c.link.ready && c.cmds.jobs == []
    ensures Indexed(c.subs) && Good(c') && Final(c, c')
    ensures c' == c.(link := c.link.(ready := true), out := c'.out,
                     subs := Passed(Reply(granted), c.subs, c.subs.registry.Keys))
    ensures c'.out.queue == [] && Sent(c.out.queue, c.out.nextId, c'.out.pending, c'.out.nextId)
  {
    assert OnePlace(c.cmds.kinds, c.out.queue, map[], c.cmds.settled) && c.out.nextId > 0 && Indexed(c.subs);
    hide Good, Final, OnePlace, Indexed, Passed, Sent;
    var sent, next := SendQueue(c.cmds.kinds, c.out.queue, c.out.nextId, c.cmds.settled);
    var subs := PassOver(Reply(granted), c.subs);
    c' := c.(link := c.link.(ready := true), out := Outbox([], sent, next), subs := subs);
    ConnectedGood(c, granted, c');
  }

  lemma ConnectedGood(c: Client, granted: set<Channel>, c': Client)
    requires Good(c) && c.link.open && !c.link.ready && c.cmds.jobs == []
    requires c'.out.queue == [] && Sent(c.out.queue, c.out.nextId, c'.out.pending, c'.out.nextId)
    requires OnePlace(c.cmds.kinds, [], c'.out.pending, c.cmds.settled)
    requires c' == c.(link := c.link.(ready := true), out := c'.out,
                      subs := Passed(Reply(granted), c.subs, c.subs.registry.Keys))
    ensures Good(c') && Final(c, c')
  {
    PassKeeps(Reply(granted), c.subs, c.cmds);
    hide OnePlace, Cared, Asked, NoneLeaving, Quieter, Passed;
  }

  // ---------------------------------------------------------------- losing the connection, closing

  /** All outstanding commands have failed; those with a then-handler have left a job. */
  ghost predicate FailedAll(m: Promises, m': Promises, why: Failure) {
    && m'.kinds == m.kinds && AllFailed(m.kinds, m.settled, m'.settled, why)
    && m.jobs <= m'.jobs
    && forall p :: p in m'.jobs <==> p in m.jobs || (p in m.kinds && p !in m.settled && !m.kinds[p].Plain?)
  }

  /** Every outstanding command fails. */
  method FailCommands(c: Client, why: Failure) returns (m: Promises)
    requires Good(c) && (why.Closed? || (why.Disconnected? && c.cmds.jobs == []))
    ensures FailedAll(c.cmds, m, why) && Kept(c.cmds.settled, m.settled) && m.settled.Keys == m.kinds.Keys
    ensures OnePlace(m.kinds, [], map[], m.settled) && Cared(c.subs, m) && JobsOk(false, true, m)
    ensures why.Disconnected? ==> JobsOk(false, false, m)
  {
    var jobs, now := FailAll(c.cmds.kinds, c.out.queue, c.out.pending, c.out.nextId, why, c.cmds.settled);
    m := c.cmds.(settled := now, jobs := c.cmds.jobs + jobs);
    FailedKeep(c.subs, c.cmds, now, why, jobs);
    assert FailedAll(c.cmds, m, why);
    hide OnePlace, AllFailed, JobsOk, Cared, Kept;
  }

  /** The subscriptions once the connection is lost: one pass, and a second if the client stops for good. */
  function AfterLoss(s: Subscriptions, stops: bool): Subscriptions
    requires Indexed(s)
  {
    var now := Passed(ConnectionLost, s, s.registry.Keys);
    PassedIndexed(ConnectionLost, s, s.registry.Keys);
    if stops then Passed(Abandon, now, now.registry.Keys) else now
  }

  lemma QuieterStill(a: map<EntryId, Entry>, b: map<EntryId, Entry>, c: map<EntryId, Entry>)
    requires Quieter(a, b) && Quieter(b, c)
    ensures Quieter(a, c)
  {}

  /** What going down leaves of the subscriptions. */
  ghost predicate Lowered(s: Subscriptions, now: Subscriptions, m: Promises) {
    Cared(now, m) && NoneLeaving(now) && Quieter(s.entries, now.entries) && now.entries.Keys == s.entries.Keys
  }

  method TakeDown(s: Subscriptions, stops: bool, ghost m: Promises) returns (now: Subscriptions)
    requires Cared(s, m)
    ensures now == AfterLoss(s, stops) && Lowered(s, now, m)
    ensures stops || s.registry == map[] ==> now.registry == map[]
  {
    PassKeeps(ConnectionLost, s, m);
    now := PassOver(ConnectionLost, s);
    hide NoneLeaving, Quieter, Passed;
    if stops {
      PassKeeps(Abandon, now, m);
      QuieterStill(s.entries, now.entries, Passed(Abandon, now, now.registry.Keys).entries);
      now := PassOver(Abandon, now);
    }
  }

  /** The client stops for good: the last disconnect frame said so, or without one the close code. */
  predicate Stops(link: Link, permanentCode: bool) {
    !link.closed && if link.disconnect.Some? then !link.disconnect.value else permanentCode
  }

  /** What onclose comes to. */
  ghost predicate Lost(c: Client, permanentCode: bool, c': Client)
    requires Indexed(c.subs)
  {
    var stops := Stops(c.link, permanentCode);
    && c'.link == Link(c.link.closed || stops, false, false, false, !(c.link.closed || stops), None)
    && c'.out == Outbox([], map[], c.out.nextId) && c'.made == c.made
    && c'.subs == AfterLoss(c.subs, stops) && FailedAll(c.cmds, c'.cmds, Disconnected)
  }

  /** What close comes to. */
  ghost predicate Ended(c: Client, c': Client)
    requires Indexed(c.subs)
  {
    if c.link.closed then c' == c
    else
      && c'.link == Link(true, false, false, false, false, c.link.disconnect)
      && c'.out == Outbox([], map[], c.out.nextId) && c'.made == c.made
      && c'.subs == Passed(Abandon, c.subs, c.subs.registry.Keys) && FailedAll(c.cmds, c'.cmds, Closed)
  }

  /** The connection is gone, or the client is closed. */
  predicate Down(c: Client, c': Client) {
    && !c'.link.ready && !c'.link.open && !c'.link.sock && c'.link.timer == !c'.link.closed
    && c'.out == Outbox([], map[], c.out.nextId)
    && (c'.link.closed ==> c'.subs.registry == map[])
    && c'.made == c.made && c'.cmds.kinds == c.cmds.kinds && c'.cmds.settled.Keys == c.cmds.kinds.Keys
  }

  lemma DownGood(c: Client, c': Client)
    requires Good(c) && Down(c, c') && Lowered(c.subs, c'.subs, c'.cmds)
    requires OnePlace(c'.cmds.kinds, [], map[], c'.cmds.settled) && JobsOk(false, c'.link.closed, c'.cmds)
    requires Kept(c.cmds.settled, c'.cmds.settled)
    ensures Good(c') && Final(c, c')
  {
    hide OnePlace, JobsOk, Cared, Asked, NoneLeaving, Quieter;
  }

  /** onclose: fail what is outstanding, keep what should be replayed; stop for good, or arm the timer. */
  method SocketLost(c: Client, permanentCode: bool) returns (c': Client)
    requires Good(c) && c.cmds.jobs == [] && (c.link.closed || c.link.sock)
    ensures Good(c') && Final(c, c') && Indexed(c.subs) && Lost(c, permanentCode, c')
  {
    assert Indexed(c.subs) && (c.link.closed ==> c.subs.registry == map[]);
    hide Good, Final, OnePlace, Indexed, Cared, AfterLoss, Lowered, FailedAll, JobsOk, Kept;
    var m := FailCommands(c, Disconnected);
    var stops := Stops(c.link, permanentCode);
    var subs := TakeDown(c.subs, stops, m);
    c' := c.(link := Link(c.link.closed || stops, false, false, false, !(c.link.closed || stops), None),
             out := Outbox([], map[], c.out.nextId), subs := subs, cmds := m);
    FailedKinds(c.cmds, m, Disconnected);
    DownGood(c, c');
  }

  lemma FailedKinds(m: Promises, m': Promises, why: Failure)
    requires FailedAll(m, m', why)
    ensures m'.kinds == m.kinds && m'.settled.Keys == m.kinds.Keys
  {}

  /** close: idempotent; nothing stays outstanding, nothing is registered, no timer is left. */
  method Shut(c: Client) returns (c': Client)
    requires Good(c)
    ensures Good(c') && Final(c, c') && Indexed(c.subs) && Ended(c, c')
    ensures c'.link.closed && !c'.link.sock && !c'.link.timer && c'.out.queue == [] && c'.out.pending == map[]
    ensures c'.subs.registry == map[]
  {
    if c.link.closed {
      return c;
    }
    assert Indexed(c.subs);
    var m := FailCommands(c, Closed);
    PassKeeps(Abandon, c.subs, m);
    hide Good, Final, OnePlace, Indexed, Cared, NoneLeaving, Quieter, Passed, FailedAll, JobsOk, Kept;
    var subs := PassOver(Abandon, c.subs);
    c' := c.(link := Link(true, false, false, false, false, c.link.disconnect),
             out := Outbox([], map[], c.out.nextId), subs := subs, cmds := m);
    FailedKinds(c.cmds, m, Closed);
    DownGood(c, c');
  }

  // ---------------------------------------------------------------- asking

  /** What _request does: a new promise, sent when ready, queued otherwise. */
  function Requested(c: Client, kind: Kind): Client {
    var p := c.made;
    c.(cmds := c.cmds.(kinds := c.cmds.kinds[p := kind]), made := p + 1,
       out := if c.link.ready
              then c.out.(nextId := c.out.nextId + 1, pending := c.out.pending[c.out.nextId := Command(p)])
              else c.out.(queue := c.out.queue + [p]))
  }

  lemma RequestedPlaced(c: Client, kind: Kind)
    requires Commands(c) && (c.link.ready ==> c.out.nextId !in c.out.pending)
    ensures Commands(Requested(c, kind))
  {
    if c.link.ready {
      PlaceInFlight(c.cmds.kinds, c.out.queue, c.out.pending, c.cmds.settled, c.made, kind, c.out.nextId);
    } else {
      PlaceQueued(c.cmds.kinds, c.out.queue, c.out.pending, c.cmds.settled, c.made, kind);
    }
    hide OnePlace;
  }

  lemma RequestedAwaited(c: Client, kind: Kind)
    requires Awaited(c.link.ready, c.subs, c.cmds, c.made) && c.made !in c.cmds.kinds && c.made !in c.cmds.settled
    requires kind.ForSubscribe? ==> kind.entry in c.subs.entries && c.made == kind.entry + 1 && c.link.ready
    ensures var m := c.cmds.(kinds := c.cmds.kinds[c.made := kind]);
            && Awaited(c.link.ready, c.subs, m, c.made + 1) && Kept(c.cmds.kinds, m.kinds)
            && (kind.ForSubscribe? ==> Backed(m, kind.entry))
  {
    var m := c.cmds.(kinds := c.cmds.kinds[c.made := kind]);
    CommandsKeep(c.subs, c.cmds, m);
    assert m.kinds[c.made] == kind;
    hide Cared, Asked, NoneLeaving;
  }

  lemma RequestedGood(c: Client, kind: Kind)
    requires Good(c) && !c.link.closed
    requires kind.ForSubscribe? ==> kind.entry in c.subs.entries && c.made == kind.entry + 1 && c.link.ready
    ensures Good(Requested(c, kind)) && Final(c, Requested(c, kind))
    ensures kind.ForSubscribe? ==> Backed(Requested(c, kind).cmds, kind.entry)
  {
    MadeIsFresh(c);
    assert c.link.ready ==> c.out.nextId !in c.out.pending;
    hide Commands, Awaited;
    RequestedPlaced(c, kind);
    RequestedAwaited(c, kind);
  }

  lemma MadeIsFresh(c: Client)
    requires Good(c)
    ensures c.made !in c.cmds.kinds && c.made !in c.cmds.settled && c.made !in c.subs.entries
    ensures forall ch :: ch in c.subs.registry ==> c.subs.registry[ch] in c.subs.entries
  {}

  // ---------------------------------------------------------------- subscribe

  predicate MaySubscribe(c: Client, ch: Channel)
    requires Indexed(c.subs)
  {
    !c.link.closed && (ch in c.subs.registry ==> c.subs.entries[c.subs.registry[ch]].phase.Unsubscribing?)
  }

  /** A new entry nobody waits for yet. */
  function Spare(c: Client, ch: Channel): Client {
    c.(subs := c.subs.(entries := c.subs.entries[c.made := Entry(ch, Pending, false)]), made := c.made + 1)
  }

  /** The first half of subscribe: the entry exists, and on a connection that is up its command is sent. */
  function Asking(c: Client, ch: Channel): (r: Client)
    ensures r.subs == Spare(c, ch).subs && r.link == c.link
    ensures r.cmds.settled == c.cmds.settled && r.cmds.jobs == c.cmds.jobs
  {
    if c.link.ready then Requested(Spare(c, ch), ForSubscribe(c.made)) else Spare(c, ch)
  }

  /** The second: it takes the channel's place in the registry, and its promise waits. */
  function Replace(s: Subscriptions, ch: Channel, e: EntryId): Subscriptions
    requires Indexed(s)
  {
    Enter(if ch in s.registry then Displace(s, ch) else s, ch, e)
  }

  /** subscribe, where it is not refused: a new entry in place of none or of one being unsubscribed. */
  function Subscribed(c: Client, ch: Channel): Client
    requires Indexed(c.subs) && c.made !in c.subs.entries
  {
    var c' := Asking(c, ch);
    c'.(subs := Replace(c'.subs, ch, c.made))
  }

  lemma SpareGood(c: Client, ch: Channel)
    requires Good(c)
    ensures Good(Spare(c, ch))
  {
    MadeIsFresh(c);
    EntryChangeKeeps(c.subs, c.cmds, c.made, Entry(ch, Pending, false));
    hide OnePlace, JobsOk, Cared, Asked, NoneLeaving;
  }

  lemma AskingGood(c: Client, ch: Channel)
    requires Good(c) && !c.link.closed
    ensures Good(Asking(c, ch))
    ensures c.link.ready ==> Backed(Asking(c, ch).cmds, c.made)
  {
    SpareGood(c, ch);
    hide Good, Requested;
    if c.link.ready {
      RequestedGood(Spare(c, ch), ForSubscribe(c.made));
    }
  }

  lemma ReplaceKeeps(ready: bool, s: Subscriptions, m: Promises, ch: Channel, e: EntryId)
    requires Cared(s, m) && e in s.entries && s.entries[e] == Entry(ch, Pending, false)
    requires ready ==> Asked(s, m) && Backed(m, e)
    requires !ready ==> NoneLeaving(s)
    requires ch in s.registry ==> s.entries[s.registry[ch]].phase.Unsubscribing?
    ensures Cared(Replace(s, ch, e), m)
    ensures if ready then Asked(Replace(s, ch, e), m) else NoneLeaving(Replace(s, ch, e))
  {
    if ch in s.registry {
      assert Registered(s, s.registry[ch]);
      DisplacedKeeps(s, m, ch);
      EnteredKeeps(Displace(s, ch), m, ch, e);
    } else {
      EnteredKeeps(s, m, ch, e);
    }
  }

  lemma SubscribedGood(c: Client, ch: Channel)
    requires Good(c) && MaySubscribe(c, ch)
    ensures c.made !in c.subs.entries && Good(Subscribed(c, ch))
  {
    AskingGood(c, ch);
    MadeIsFresh(c);
    var c' := Asking(c, ch);
    hide Asking;
    ReplaceKeeps(c'.link.ready, c'.subs, c'.cmds, ch, c.made);
    assert Replace(c'.subs, ch, c.made).entries.Keys == c'.subs.entries.Keys;
    hide OnePlace, JobsOk, Cared, Asked, NoneLeaving, Backed, Replace, Indexed;
  }

  lemma SubscribedFinal(c: Client, ch: Channel)
    requires Good(c) && c.made !in c.subs.entries
    ensures Kept(c.cmds.kinds, Subscribed(c, ch).cmds.kinds) && Subscribed(c, ch).cmds.settled == c.cmds.settled
    ensures Subscribed(c, ch).subs.entries == c.subs.entries[c.made := Entry(ch, Pending, true)]
  {
    var once := c.subs.entries[c.made := Entry(ch, Pending, false)];
    assert once[c.made := Entry(ch, Pending, true)] == c.subs.entries[c.made := Entry(ch, Pending, true)];
  }

  // ---------------------------------------------------------------- giving a channel up

  /** The entry is dropped and its subscribe promise settled, whatever it was waiting for. */
  function Dropped(c: Client, ch: Channel): Client
    requires Indexed(c.subs) && ch in c.subs.registry
  {
    var e := c.subs.registry[ch];
    c.(subs := EntrySettled(c.subs, e, c.subs.entries[e].phase, false))
  }

  lemma DroppedGood(c: Client, ch: Channel)
    requires Good(c) && ch in c.subs.registry
    ensures Good(Dropped(c, ch)) && Final(c, Dropped(c, ch))
  {
    var e := c.subs.registry[ch];
    assert Registered(c.subs, e);
    SettledKeeps(c.subs, c.cmds, e, c.subs.entries[e].phase, false);
    hide OnePlace, JobsOk, Cared, Asked, NoneLeaving;
  }

  /** The entry, marked as being unsubscribed. */
  function Marked(c: Client, ch: Channel): Client
    requires Indexed(c.subs) && ch in c.subs.registry
  {
    var e := c.subs.registry[ch];
    c.(subs := c.subs.(entries := c.subs.entries[e := c.subs.entries[e].(phase := Unsubscribing)]))
  }

  /** unsubscribe on a connection that is up: marked, and the command sent. */
  function Leaving(c: Client, ch: Channel): Client
    requires Indexed(c.subs) && ch in c.subs.registry
  {
    Requested(Marked(c, ch), ForUnsubscribe(ch))
  }

  lemma LeavingGood(c: Client, ch: Channel)
    requires Good(c) && c.link.ready && ch in c.subs.registry
    ensures Good(Leaving(c, ch)) && Final(c, Leaving(c, ch))
  {
    var e := c.subs.registry[ch];
    EntryChangeKeeps(c.subs, c.cmds, e, c.subs.entries[e].(phase := Unsubscribing));
    assert Good(Marked(c, ch)) && Quieter(c.subs.entries, Marked(c, ch).subs.entries) by {
      hide OnePlace, JobsOk, Cared, Asked, NoneLeaving;
    }
    hide Good;
    RequestedGood(Marked(c, ch), ForUnsubscribe(ch));
  }

  // ---------------------------------------------------------------- then-handlers

  /** What the subscribe then-handler leaves of the subscriptions. */
  function SubscribeDone(s: Subscriptions, e: EntryId, o: Outcome): (r: Subscriptions)
    requires e in s.entries
    ensures r.registry.Keys <= s.registry.Keys && Quieter(s.entries, r.entries) && r.entries.Keys == s.entries.Keys
  {
    var here := Registered(s, e);
    if o.Resolved? then EntrySettled(s, e, if here then Active else s.entries[e].phase, true)
    else if o.why.Disconnected? then s
    else EntrySettled(s, e, s.entries[e].phase, !here)
  }

  /** And the unsubscribe then-handler: whatever entry it finds under the channel goes. */
  function UnsubscribeDone(s: Subscriptions, ch: Channel, o: Outcome): (r: Subscriptions)
    requires Indexed(s)
    ensures r.registry.Keys <= s.registry.Keys && r.entries == s.entries
  {
    if ch in s.registry && (o.Resolved? || o.why == Server(ALREADY_UNSUBSCRIBED)) then Displace(s, ch) else s
  }

  ghost predicate Runnable(c: Client) {
    && c.cmds.jobs != [] && c.cmds.jobs[0] in c.cmds.settled && c.cmds.jobs[0] in c.cmds.kinds
    && Indexed(c.subs)
    && (c.cmds.kinds[c.cmds.jobs[0]].ForSubscribe? ==> c.cmds.kinds[c.cmds.jobs[0]].entry in c.subs.entries)
  }

  /** What the first job makes of the subscriptions. */
  function AfterJob(c: Client): (r: Subscriptions)
    requires Runnable(c)
    ensures r.registry.Keys <= c.subs.registry.Keys
    ensures Quieter(c.subs.entries, r.entries) && r.entries.Keys == c.subs.entries.Keys
  {
    var o := c.cmds.settled[c.cmds.jobs[0]];
    match c.cmds.kinds[c.cmds.jobs[0]]
    case ForSubscribe(e) => SubscribeDone(c.subs, e, o)
    case ForUnsubscribe(ch) => UnsubscribeDone(c.subs, ch, o)
    case Plain => c.subs
  }

  /** The host runs the next then-handler. */
  function JobRun(c: Client): Client
    requires Runnable(c)
  {
    c.(cmds := NextJob(c.cmds), subs := AfterJob(c))
  }

  /** The handler leaves every unsettled promise registered, backed or severed. */
  lemma HandlerKeeps(c: Client)
    requires Runnable(c) && Good(c)
    ensures Cared(AfterJob(c), NextJob(c.cmds))
    ensures if c.link.ready then Asked(AfterJob(c), NextJob(c.cmds)) else NoneLeaving(AfterJob(c))
  {
    var s, m := c.subs, c.cmds;
    var o := m.settled[m.jobs[0]];
    assert m.jobs[0] in m.jobs;
    match m.kinds[m.jobs[0]]
    case ForSubscribe(e) => SubscribeHandlerKeeps(c.link.ready, s, m, e, o);
    case ForUnsubscribe(ch) =>
      if ch in s.registry && (o.Resolved? || o.why == Server(ALREADY_UNSUBSCRIBED)) {
        assert Registered(s, s.registry[ch]);
        DisplacedKeeps(s, m, ch);
      }
      JobDoneKeeps(AfterJob(c), m, c.link.ready);
    case Plain => JobDoneKeeps(s, m, c.link.ready);
  }

  lemma SubscribeHandlerKeeps(up: bool, s: Subscriptions, m: Promises, e: EntryId, o: Outcome)
    requires Cared(s, m) && m.jobs != [] && m.jobs[0] in m.kinds && m.kinds[m.jobs[0]] == ForSubscribe(e)
    requires e in s.entries && (if up then Asked(s, m) else NoneLeaving(s)) && (o == Rejected(Disconnected) ==> !up)
    requires m.jobs[0] in m.settled && m.settled[m.jobs[0]] == o
    ensures Cared(SubscribeDone(s, e, o), NextJob(m))
    ensures if up then Asked(SubscribeDone(s, e, o), NextJob(m)) else NoneLeaving(SubscribeDone(s, e, o))
  {
    var s' := SubscribeDone(s, e, o);
    if o != Rejected(Disconnected) {
      var here := Registered(s, e);
      SettledKeeps(s, m, e, s'.entries[e].phase, o.Resolved? || !here);
    }
    JobDoneKeeps(s', m, up);
  }

  /** What each then-handler does, by the outcome it is called with. */
  lemma HandlerMeans(c: Client)
    requires Runnable(c)
    ensures var p := c.cmds.jobs[0];
            var o, s := c.cmds.settled[p], JobRun(c).subs;
            && (c.cmds.kinds[p].Plain? ==> s == c.subs)
            && (c.cmds.kinds[p].ForSubscribe? ==>
                  var e := c.cmds.kinds[p].entry;
                  && (o == Rejected(Disconnected) ==> s == c.subs)
                  && (o != Rejected(Disconnected) ==> !s.entries[e].waiting)
                  && (o == Resolved ==>
                        s.registry == c.subs.registry && (Registered(c.subs, e) ==> s.entries[e].phase == Active))
                  && (o.Rejected? && !o.why.Disconnected? ==> !Registered(s, e))
                  && (forall f :: f in c.subs.entries && f != e ==>
                        s.entries[f] == c.subs.entries[f] && Registered(s, f) == Registered(c.subs, f)))
            && (c.cmds.kinds[p].ForUnsubscribe? ==>
                  var ch := c.cmds.kinds[p].channel;
                  && s.entries == c.subs.entries
                  && s.registry == if o == Resolved || o == Rejected(Server(ALREADY_UNSUBSCRIBED))
                                   then c.subs.registry - {ch} else c.subs.registry)
  {
    hide Quieter;
    match c.cmds.kinds[c.cmds.jobs[0]]
    case ForSubscribe(e) =>
      forall f | f in c.subs.entries && f != e
        ensures Registered(JobRun(c).subs, f) == Registered(c.subs, f)
      {}
    case ForUnsubscribe(ch) => assert ch !in c.subs.registry ==> c.subs.registry - {ch} == c.subs.registry;
    case Plain =>
  }

  lemma IsRunnable(c: Client)
    requires Good(c) && c.cmds.jobs != []
    ensures Runnable(c)
  {
    assert c.cmds.jobs[0] in c.cmds.jobs;
    hide OnePlace, Asked, NoneLeaving;
  }

  lemma JobsShorter(up: bool, closed: bool, m: Promises)
    requires JobsOk(up, closed, m) && m.jobs != []
    ensures JobsOk(up, closed, NextJob(m))
  {
    assert m.jobs == [m.jobs[0]] + m.jobs[1..];
  }

  lemma JobRunGood(c: Client)
    requires Good(c) && c.cmds.jobs != []
    ensures Runnable(c) && Good(JobRun(c)) && Final(c, JobRun(c))
  {
    IsRunnable(c);
    HandlerKeeps(c);
    JobsShorter(c.link.ready, c.link.closed, c.cmds);
    assert c.subs.registry == map[] ==> AfterJob(c).registry == map[];
    hide OnePlace, JobsOk, Cared, Asked, NoneLeaving, AfterJob, Quieter, Indexed;
  }

  // ---------------------------------------------------------------- what that comes to

  /** Every command is in exactly one place, in flight under at most one id, and a closed client has none left. */
  lemma CommandsAccounted(c: Client, p: Promise)
    requires Good(c) && p in c.cmds.kinds
    ensures p in c.out.queue || InFlight(c.out.pending, p) || p in c.cmds.settled
    ensures !(p in c.out.queue && InFlight(c.out.pending, p))
    ensures p in c.cmds.settled ==> p !in c.out.queue && !InFlight(c.out.pending, p)
    ensures forall i, j | i in c.out.pending && j in c.out.pending
                          && c.out.pending[i] == Command(p) && c.out.pending[j] == Command(p)
              :: i == j
    ensures c.link.closed || !c.link.sock ==> !InFlight(c.out.pending, p)
    ensures c.link.closed ==> p in c.cmds.settled
  {}

  // ---------------------------------------------------------------- events

  datatype Event =
    | TimerFires(dials: bool)
    | SocketOpens
    | Receive(id: int, answer: Answer)
    | Disconnects(reconnect: bool)
    | Revoked(channel: Channel)
    | SocketCloses(permanentCode: bool)
    | Request
    | Subscribe(channel: Channel)
    | Unsubscribe(channel: Channel)
    | RunJob
    | Close

  /** What the host guarantees: a live socket or timer, and then-handlers run before the next such event. */
  predicate Allowed(c: Client, ev: Event) {
    match ev
    case TimerFires(_) => c.link.timer && c.cmds.jobs == []
    case SocketOpens => c.link.sock && !c.link.open && c.cmds.jobs == []
    case Receive(_, _) | Disconnects(_) | Revoked(_) => c.link.open && c.cmds.jobs == []
    case SocketCloses(_) => (c.link.closed || c.link.sock) && c.cmds.jobs == []
    case RunJob => c.cmds.jobs != []
    case _ => true
  }

  /** A reply with an id: a command's, the connect reply, or one that answers nothing outstanding. */
  ghost predicate Received(c: Client, id: int, answer: Answer, c': Client)
    requires Indexed(c.subs)
  {
    if id !in c.out.pending then c' == c
    else if c.out.pending[id].Command? then c' == Answered(c, id, answer)
    else if answer.Error? then c' == c.(out := c.out.(pending := map[]))
    else
      var granted := if answer.Granted? then answer.channels else {};
      && c'.link == c.link.(ready := true) && c'.cmds == c.cmds && c'.made == c.made
      && c'.out.queue == [] && Sent(c.out.queue, c.out.nextId, c'.out.pending, c'.out.nextId)
      && c'.subs == Passed(Reply(granted), c.subs, c.subs.registry.Keys)
  }

  /** The client's state before and after one event; each method below is proved to be such a step. */
  ghost predicate Step(c: Client, ev: Event, c': Client) {
    && Good(c) && Allowed(c, ev) && Good(c') && Indexed(c.subs)
    && match ev
       case TimerFires(dials) => c' == c.(link := c.link.(sock := dials, timer := !dials))
       case SocketOpens => c' == Opened(c)
       case Receive(id, answer) => Received(c, id, answer, c')
       case Disconnects(reconnect) => c' == c.(link := c.link.(disconnect := Some(reconnect)))
       case Revoked(ch) => c' == if ch in c.subs.registry then Dropped(c, ch) else c
       case SocketCloses(permanentCode) => Lost(c, permanentCode, c')
       case Request => c' == if c.link.closed then c else Requested(c, Plain)
       case Subscribe(ch) => c.made !in c.subs.entries && c' == if MaySubscribe(c, ch) then Subscribed(c, ch) else c
       case Unsubscribe(ch) =>
         c' == (if ch !in c.subs.registry then c else if c.link.ready then Leaving(c, ch) else Dropped(c, ch))
       case RunJob => Runnable(c) && c' == JobRun(c)
       case Close => Ended(c, c')
  }

  // ---------------------------------------------------------------- the client

  function Created(dials: bool): Client {
    Client(Link(false, false, false, dials, !dials, None), Outbox([], map[], 1),
           Promises(map[], map[], []), Subscriptions(map[], map[]), 0)
  }

  class SidecarTunnel {
    var closed: bool
    var ready: bool
    var open: bool
    var sock: bool
    var timer: bool
    var disconnect: Option<bool>
    var queue: seq<Promise>
    var pending: map<int, Slot>
    var nextId: int
    var registry: map<Channel, EntryId>
    var entries: map<EntryId, Entry>
    var kinds: map<Promise, Kind>
    var settled: map<Promise, Outcome>
    var jobs: seq<Promise>
    var made: nat

    function View(): Client
      reads this
    {
      Client(Link(closed, ready, open, sock, timer, disconnect), Outbox(queue, pending, nextId),
             Promises(kinds, settled, jobs), Subscriptions(registry, entries), made)
    }

    ghost predicate Valid()
      reads this
    {
      Good(View())
    }

    method SetSocket(c: Client)
      modifies `closed, `ready, `open, `sock, `timer, `disconnect
      ensures closed == c.link.closed && ready == c.link.ready && open == c.link.open
      ensures sock == c.link.sock && timer == c.link.timer && disconnect == c.link.disconnect
    {
      closed, ready, open := c.link.closed, c.link.ready, c.link.open;
      sock, timer, disconnect := c.link.sock, c.link.timer, c.link.disconnect;
    }

    method SetCommands(c: Client)
      modifies `queue, `pending, `nextId, `kinds, `settled, `jobs
      ensures queue == c.out.queue && pending == c.out.pending && nextId == c.out.nextId
      ensures kinds == c.cmds.kinds && settled == c.cmds.settled && jobs == c.cmds.jobs
    {
      queue, pending, nextId := c.out.queue, c.out.pending, c.out.nextId;
      kinds, settled, jobs := c.cmds.kinds, c.cmds.settled, c.cmds.jobs;
    }

    method SetRegistry(c: Client)
      modifies `registry, `entries, `made
      ensures registry == c.subs.registry && entries == c.subs.entries && made == c.made
    {
      registry, entries, made := c.subs.registry, c.subs.entries, c.made;
    }

    method Set(c: Client)
      modifies this
      ensures View() == c
    {
      SetSocket(c);
      SetCommands(c);
      SetRegistry(c);
    }

    /** Opens the first socket; a WebSocket constructor that throws arms the timer instead. */
    constructor (dials: bool)
      ensures Valid() && View() == Created(dials)
    {
      closed, ready, open, sock, timer, disconnect := false, false, false, dials, !dials, None;
      queue, pending, nextId, registry, entries := [], map[], 1, map[], map[];
      kinds, settled, jobs, made := map[], map[], [], 0;
    }

    /** The reconnect timer fires: _openSocket. */
    method TimerFires(dials: bool)
      requires Valid() && timer && jobs == []
      modifies this
      ensures Valid() && Step(old(View()), Event.TimerFires(dials), View())
      ensures sock == dials && timer == !dials
    {
      sock, timer := dials, !dials;
      assert Valid();
    }

    /** onopen: _sendConnect; `subs` is what the connect frame replays. */
    method SocketOpens() returns (subs: set<Channel>)
      requires Valid() && sock && !open && jobs == []
      modifies this
      ensures Valid() && Step(old(View()), Event.SocketOpens, View())
      ensures open && pending == map[1 := Slot.Connect] && nextId == 2 && subs == registry.Keys == old(registry).Keys
    {
      OpenedGood(View());
      ReplaysAll(View());
      subs := Replayed(View().subs);
      assert Indexed(View().subs);
      hide Good, Indexed;
      Set(Opened(View()));
    }

    /** A reply with an id. */
    method Receive(id: int, answer: Answer)
      requires Valid() && open && jobs == []
      modifies this
      ensures Valid() && Step(old(View()), Event.Receive(id, answer), View()) && Final(old(View()), View())
      ensures id !in old(pending) ==> View() == old(View())
      ensures id in old(pending) && old(pending)[id].Command? ==>
                var p := old(pending)[id].p;
                && p !in old(settled)
                && settled == old(settled)[p := if answer.Error? then Rejected(Server(answer.code)) else Resolved]
                && pending == old(pending) - {id} && queue == old(queue) && registry == old(registry)
                && p in kinds && kinds == old(kinds) && jobs == (if kinds[p].Plain? then [] else [p])
      ensures id in old(pending) && old(pending)[id].Connect? ==>
                && settled == old(settled) && jobs == []
                && (answer.Error? ==> !ready && pending == map[] && queue == old(queue) && registry == old(registry))
                && (!answer.Error? ==>
                      ready && queue == [] && Sent(old(queue), old(nextId), pending, nextId))
    {
      var c := View();
      assert Indexed(c.subs);
      if id !in c.out.pending {
        return;
      }
      if c.out.pending[id].Command? {
        AnsweredGood(c, id, answer);
        hide Good, Final, Indexed;
        Set(Answered(c, id, answer));
        return;
      }
      ConnectAnswered(c, id);
      if answer.Error? {
        hide Good, Final, Indexed;
        Set(c.(out := c.out.(pending := map[])));
        return;
      }
      var c' := Connected(c, if answer.Granted? then answer.channels else {});
      hide Good, Final, Indexed, Sent, Passed;
      Set(c');
    }

    /** A disconnect frame is remembered for onclose. */
    method Disconnects(reconnect: bool)
      requires Valid() && open && jobs == []
      modifies this
      ensures Valid() && Step(old(View()), Event.Disconnects(reconnect), View())
      ensures disconnect == Some(reconnect)
    {
      disconnect := Some(reconnect);
      assert Valid();
    }

    /** The gateway took a channel away. */
    method Revoked(ch: Channel)
      requires Valid() && open && jobs == []
      modifies this
      ensures Valid() && Step(old(View()), Event.Revoked(ch), View()) && Final(old(View()), View())
      ensures registry == old(registry) - {ch} && settled == old(settled)
      ensures ch in old(registry) ==> old(registry)[ch] in entries && !entries[old(registry)[ch]].waiting
    {
      var c := View();
      assert Indexed(c.subs);
      if ch in c.subs.registry {
        DroppedGood(c, ch);
        hide Good, Final, Indexed, Dropped;
        Set(Dropped(c, ch));
      }
    }

    /** onclose, of the live socket or of the one close() ended. */
    method SocketCloses(permanentCode: bool)
      requires Valid() && jobs == [] && (closed || sock)
      modifies this
      ensures Valid() && Step(old(View()), Event.SocketCloses(permanentCode), View()) && Final(old(View()), View())
      ensures closed == (old(closed) || if old(disconnect).Some? then !old(disconnect).value else permanentCode)
      ensures queue == [] && pending == map[] && !sock && !open && !ready && timer == !closed && disconnect.None?
      ensures AllFailed(kinds, old(settled), settled, Disconnected)
    {
      var c' := SocketLost(View(), permanentCode);
      hide Good, Final, Indexed, Lost;
      Set(c');
    }

    /** sync, publish, ping: None is the immediate rejection of a closed client. */
    method Command() returns (p: Option<Promise>)
      requires Valid()
      modifies this
      ensures Valid() && Step(old(View()), Event.Request, View()) && Final(old(View()), View())
      ensures p == if old(closed) then None else Some(old(made))
      ensures old(closed) ==> View() == old(View())
      ensures !old(closed) ==> kinds == old(kinds)[old(made) := Plain] && settled == old(settled)
      ensures !old(closed) && old(ready) ==>
                pending == old(pending)[old(nextId) := Slot.Command(old(made))] && nextId == old(nextId) + 1
      ensures !old(closed) && !old(ready) ==> queue == old(queue) + [old(made)] && pending == old(pending)
    {
      var c := View();
      assert Indexed(c.subs);
      if c.link.closed {
        return None;
      }
      RequestedGood(c, Plain);
      hide Good, Final, Indexed;
      Set(Requested(c, Plain));
      p := Some(c.made);
    }

    /** subscribe: refused when closed or already subscribed. */
    method Subscribe(ch: Channel) returns (e: Option<EntryId>)
      requires Valid()
      modifies this
      ensures Valid() && Step(old(View()), Event.Subscribe(ch), View()) && settled == old(settled)
      ensures e.None? <==>
                || old(closed)
                || (ch in old(registry) && !old(entries)[old(registry)[ch]].phase.Unsubscribing?)
      ensures e.None? ==> View() == old(View())
      ensures e.Some? ==>
                && e.value == old(made) && registry == old(registry)[ch := e.value]
                && entries == old(entries)[e.value := Entry(ch, Pending, true)]
      ensures e.Some? && old(ready) ==>
                && kinds == old(kinds)[e.value + 1 := ForSubscribe(e.value)]
                && pending == old(pending)[old(nextId) := Slot.Command(e.value + 1)] && nextId == old(nextId) + 1
      ensures e.Some? && !old(ready) ==> kinds == old(kinds) && pending == old(pending) && queue == old(queue)
    {
      var c := View();
      MadeIsFresh(c);
      assert Indexed(c.subs);
      if c.link.closed || (ch in c.subs.registry && !c.subs.entries[c.subs.registry[ch]].phase.Unsubscribing?) {
        return None;
      }
      SubscribedGood(c, ch);
      SubscribedFinal(c, ch);
      hide Good, Indexed, Subscribed;
      Set(Subscribed(c, ch));
      e := Some(c.made);
    }

    /** unsubscribe: refused when not subscribed, local when the connection is not up. */
    method Unsubscribe(ch: Channel) returns (ok: bool)
      requires Valid()
      modifies this
      ensures Valid() && Step(old(View()), Event.Unsubscribe(ch), View()) && Final(old(View()), View())
      ensures ok == (ch in old(registry)) && (!ok ==> View() == old(View())) && settled == old(settled)
      ensures ok && old(ready) ==>
                var e := old(registry)[ch];
                && e in old(entries) && registry == old(registry)
                && entries == old(entries)[e := old(entries)[e].(phase := Unsubscribing)]
                && kinds == old(kinds)[old(made) := ForUnsubscribe(ch)]
                && pending == old(pending)[old(nextId) := Slot.Command(old(made))] && nextId == old(nextId) + 1
      ensures ok && !old(ready) ==>
                && registry == old(registry) - {ch} && pending == old(pending) && queue == old(queue)
                && old(registry)[ch] in entries && !entries[old(registry)[ch]].waiting
    {
      var c := View();
      assert Indexed(c.subs);
      ok := ch in c.subs.registry;
      if ok {
        if c.link.ready {
          LeavingGood(c, ch);
          hide Good, Final, Indexed, Leaving, Dropped;
          Set(Leaving(c, ch));
        } else {
          DroppedGood(c, ch);
          hide Good, Final, Indexed, Leaving, Dropped;
          Set(Dropped(c, ch));
        }
      }
    }

    /** The host runs the next then-handler. */
    method RunJob()
      requires Valid() && jobs != []
      modifies this
      ensures Valid() && Step(old(View()), Event.RunJob, View()) && Final(old(View()), View())
      ensures jobs == old(jobs)[1..] && settled == old(settled) && kinds == old(kinds)
    {
      var c := View();
      JobRunGood(c);
      assert Indexed(c.subs);
      hide Good, Final, Indexed, Runnable, JobRun;
      Set(JobRun(c));
    }

    /** close. */
    method Close()
      requires Valid()
      modifies this
      ensures Valid() && Step(old(View()), Event.Close, View()) && Final(old(View()), View())
      ensures closed && !sock && !timer && queue == [] && pending == map[] && registry == map[]
      ensures old(closed) ==> View() == old(View())
      ensures !old(closed) ==> AllFailed(kinds, old(settled), settled, Closed)
    {
      var c' := Shut(View());
      hide Good, Final, Indexed, Ended;
      Set(c');
    }
  }
}
