/**
 * internal/hub: the registry class. One lock guards it, so each method body is one critical
 * section followed by what the source does after the unlock (markDirty, enqueueClose).
 */
module HubRegistry {
  import opened Bytes
  import opened HubSpec
  import Glob

  lemma MinusMore<K, V>(m: map<K, V>, gone: set<K>, k: K)
    ensures m - gone - {k} == m - (gone + {k})
  {}

  // ---------------------------------------------------------------- steps under the lock

  /** dropFromUserLocked. */
  method DropFromUser(users: map<User, set<Sink>>, userOf: map<Sink, User>, s: Sink)
    returns (users': map<User, set<Sink>>, userOf': map<Sink, User>)
    requires UsersIndex(users, userOf) && s in userOf
    ensures UsersIndex(users', userOf')
    ensures userOf' == userOf - {s}
  {
    var user := userOf[s];
    var bucket := users[user] - {s};
    users' := if bucket == {} then users - {user} else users[user := bucket];
    userOf' := userOf - {s};
  }

  /** indexUserLocked: files `s` under `user`, out of whatever bucket it was in. */
  method IndexUser(users: map<User, set<Sink>>, userOf: map<Sink, User>, s: Sink, user: User)
    returns (users': map<User, set<Sink>>, userOf': map<Sink, User>)
    requires UsersIndex(users, userOf)
    ensures UsersIndex(users', userOf')
    ensures userOf' == userOf[s := user]
  {
    users', userOf' := users, userOf;
    if s in userOf {
      if userOf[s] == user {
        return;
      }
      users', userOf' := DropFromUser(users, userOf, s);
    }
    var bucket := if user in users' then users'[user] else {};
    users' := users'[user := bucket + {s}];
    userOf' := userOf'[s := user];
  }

  /** insertLocked: reports a refusal, or whether the channel went from no holder to one. */
  method Insert(cfg: Config, r: Registry, s: Sink, k: Key)
    returns (r': Registry, first: bool, err: Option<Refusal>)
    requires Consistent(cfg, r) && Holdable(cfg, k)
    ensures Consistent(cfg, r')
    ensures err == InsertRefusal(cfg, r.subs, s, k)
    ensures err.Some? ==> r' == r && !first
    ensures err.None? ==> r'.subs == r.subs[s := r.subs[s] + {k}]
    ensures r'.userOf == r.userOf
    ensures r'.desired == r.desired + (if err.None? then {k} else {})
    ensures first <==> r'.desired != r.desired
  {
    hide Consistent, Holdable;
    if s !in r.subs {
      return r, false, Some(NotRegistered);
    }
    if k in r.subs[s] {
      return r, false, Some(AlreadySubscribed);
    }
    if cfg.maxSubs > 0 && |r.subs[s]| >= cfg.maxSubs {
      return r, false, Some(SubscriptionLimit);
    }
    InsertKeeps(cfg, r, s, k);
    FirstHolder(r.channels, s, k);
    var channels := Inserted(r.channels, s, k);
    var subs := r.subs[s := r.subs[s] + {k}];
    first := |channels[k]| == 1;
    var desired := if first then r.desired + {k} else r.desired;
    assert desired == r.desired + {k};
    r' := r.(channels := channels, subs := subs, desired := desired);
    err := None;
  }

  /** detach: the map, the mirror and the desired set move together; reports the last holder. */
  method Detach(cfg: Config, r: Registry, s: Sink, k: Key) returns (r': Registry, last: bool)
    requires Consistent(cfg, r) && s in r.subs && k in r.subs[s]
    ensures Consistent(cfg, r')
    ensures r'.subs == Without(r.subs, s, {k})
    ensures r'.userOf == r.userOf && r'.clients == r.clients
    ensures r'.desired == r.desired - (if last then {k} else {})
    ensures last <==> r'.desired != r.desired
  {
    hide Consistent;
    DetachKeeps(cfg, r, s, k);
    var subs := r.subs[s := r.subs[s] - {k}];
    var bucket := r.channels[k] - {s};
    assert bucket == {} <==> r.channels[k] == {s};
    if |bucket| > 0 {
      return r.(channels := r.channels[k := bucket], subs := subs), false;
    }
    r' := r.(channels := r.channels - {k}, subs := subs, desired := r.desired - {k});
    last := true;
  }

  /** Attach's loop: what each requested channel does to the registry. */
  method AttachAll(cfg: Config, r: Registry, s: Sink, requested: seq<Channel>)
    returns (r': Registry, granted: seq<Channel>, changed: bool)
    requires Consistent(cfg, r) && s in r.subs
    ensures Consistent(cfg, r')
    ensures granted == Granted(cfg, r.subs[s], requested)
    ensures r'.subs == r.subs[s := r.subs[s] + Keys(cfg, granted)]
    ensures r'.userOf == r.userOf
    ensures changed <==> r'.desired != r.desired
    ensures r.desired <= r'.desired
  {
    hide Consistent, Holdable, Admit, Granted, Keys;
    r', granted, changed := r, [], false;
    NothingGranted(cfg, r.subs[s], requested);
    for i := 0 to |requested|
      invariant Consistent(cfg, r')
      invariant granted == Granted(cfg, r.subs[s], requested[..i])
      invariant r'.subs == r.subs[s := r.subs[s] + Keys(cfg, granted)]
      invariant r'.userOf == r.userOf
      invariant changed <==> r'.desired != r.desired
      invariant r.desired <= r'.desired
    {
      var ch := requested[i];
      GrantedNext(cfg, r.subs[s], requested, i);
      if Admit(cfg, ch).None? {
        AdmittedIsHoldable(cfg, ch);
        var first, err;
        r', first, err := Insert(cfg, r', s, KeyOf(cfg, ch));
        if err.None? {
          granted := granted + [ch];
          changed := changed || first;
        }
      }
    }
    assert requested[..|requested|] == requested;
  }

  lemma NothingGranted(cfg: Config, held: set<Key>, chs: seq<Channel>)
    ensures Granted(cfg, held, chs[..0]) == [] && held + Keys(cfg, []) == held
  {}

  lemma GrantedNext(cfg: Config, held: set<Key>, chs: seq<Channel>, i: nat)
    requires i < |chs|
    ensures var taken := Granted(cfg, held, chs[..i]);
            && Granted(cfg, held, chs[..i + 1])
               == (if Admit(cfg, chs[i]).None? && KeyOf(cfg, chs[i]) !in held + Keys(cfg, taken)
                      && Room(cfg, held + Keys(cfg, taken))
                   then taken + [chs[i]] else taken)
            && held + Keys(cfg, taken + [chs[i]]) == held + Keys(cfg, taken) + {KeyOf(cfg, chs[i])}
  {
    assert chs[..i + 1][..i] == chs[..i];
    KeysAppend(cfg, Granted(cfg, held, chs[..i]), chs[i]);
  }

  /** Which requested channels Attach takes, and why it leaves out the others. */
  lemma LeftOut(cfg: Config, r: Registry, s: Sink, chs: seq<Channel>)
    requires Consistent(cfg, r) && s in r.subs
    ensures var granted := Granted(cfg, r.subs[s], chs);
            && (forall ch :: ch in granted ==> Grantable(cfg, r.subs[s], chs, ch))
            && (forall ch :: ch in chs && ch !in granted ==>
                  || Reserved(ch) || !Resolves(cfg, ch) || cfg.prefix + ch in r.subs[s]
                  || 0 < cfg.maxSubs <= |r.subs[s] + Keys(cfg, granted)|)
  {
    var held := r.subs[s];
    GrantedGrantable(cfg, held, chs);
    forall ch | ch in chs && ch !in Granted(cfg, held, chs) && !Reserved(ch) && Resolves(cfg, ch)
      ensures cfg.prefix + ch in held || 0 < cfg.maxSubs <= |held + Keys(cfg, Granted(cfg, held, chs))|
    {
      var i :| 0 <= i < |chs| && chs[i] == ch;
      GrantedMaximal(cfg, held, chs, i);
      KeyTaken(cfg, Granted(cfg, held, chs), ch);
    }
  }

  /** Remove's critical section: every subscription, then the mirror and both indexes. */
  method Deregister(cfg: Config, r: Registry, s: Sink) returns (r': Registry, changed: bool)
    requires Consistent(cfg, r) && s in r.subs
    ensures Consistent(cfg, r')
    ensures r'.subs == r.subs - {s} && r'.userOf == r.userOf - {s}
    ensures changed <==> r'.desired != r.desired
    ensures r'.desired <= r.desired
  {
    hide Consistent;
    r', changed := r, false;
    var mirror := r.subs[s];
    while mirror != {}
      invariant Consistent(cfg, r') && mirror <= r.subs[s]
      invariant r'.subs == r.subs[s := mirror]
      invariant r'.userOf == r.userOf
      invariant changed <==> r'.desired != r.desired
      invariant r'.desired <= r.desired
      decreases mirror
    {
      var k :| k in mirror;
      var last;
      r', last := Detach(cfg, r', s, k);
      changed := changed || last;
      mirror := mirror - {k};
    }
    UsersOf(cfg, r');
    var users, userOf := DropFromUser(r'.users, r'.userOf, s);
    DeregisterKeeps(cfg, r', s, users);
    r' := r'.(subs := r'.subs - {s}, clients := r'.clients - {s.id}, users := users, userOf := userOf);
  }

  /**
   * Offering the `unsubscribed` pushes for `keys` in order: a closed connection drops them all, an open
   * one queues as many as it has room for behind what is there, and refuses the rest.
   */
  ghost predicate Pushed(cfg: Config, was: Port, now: Port, keys: seq<Key>, refused: bool) {
    if was.closed then now == was && !refused
    else
      var n := if |was.queue| + |keys| <= was.capacity then |keys|
               else if |was.queue| <= was.capacity then was.capacity - |was.queue| else 0;
      && now == Port(now.queue, was.capacity, false)
      && |now.queue| == |was.queue| + n && was.queue <= now.queue
      && (forall i :: 0 <= i < n ==> now.queue[|was.queue| + i] == Unsubscribed(ChannelName(cfg, keys[i])))
      && (refused <==> n < |keys|)
  }

  lemma OneMorePush(cfg: Config, was: Port, now: Port, keys: seq<Key>, i: nat, refused: bool)
    requires i < |keys| && Pushed(cfg, was, now, keys[..i], refused)
    ensures var sent := now.Send(Unsubscribed(ChannelName(cfg, keys[i])));
            Pushed(cfg, was, sent.0, keys[..i + 1], refused || !sent.1)
  {}

  /** One target of controlUnsubscribe: drop each matching key and queue its push behind the drop. */
  method ControlDrop(cfg: Config, r: Registry, port: Port, s: Sink, pattern: Glob.Pattern)
    returns (r': Registry, port': Port, changed: bool, refused: bool, dropped: seq<Key>)
    requires Consistent(cfg, r)
    ensures Consistent(cfg, r')
    ensures forall i, j :: 0 <= i < j < |dropped| ==> dropped[i] != dropped[j]
    ensures forall k :: k in dropped <==> s in r.subs && k in r.subs[s] && Glob.Denotes(pattern, ChannelName(cfg, k))
    ensures s !in r.subs ==> r' == r
    ensures s in r.subs ==> r'.subs == Without(r.subs, s, Set(dropped)) && r'.userOf == r.userOf
    ensures Pushed(cfg, port, port', dropped, refused)
    ensures changed <==> r'.desired != r.desired
    ensures r'.desired <= r.desired
  {
    hide Consistent, Glob.Denotes;
    r', port', changed, refused, dropped := r, port, false, false, [];
    if s !in r.subs {
      return;
    }
    var todo := r.subs[s];
    while todo != {}
      invariant todo <= r.subs[s]
      invariant forall i, j :: 0 <= i < j < |dropped| ==> dropped[i] != dropped[j]
      invariant forall k :: k in dropped <==> k in r.subs[s] - todo && Glob.Denotes(pattern, ChannelName(cfg, k))
      decreases todo
    {
      var k :| k in todo;
      todo := todo - {k};
      var m, _ := Glob.Match(pattern, ChannelName(cfg, k));
      if m {
        dropped := dropped + [k];
      }
    }
    assert r.subs[s] - Set(dropped[..0]) == r.subs[s];
    for i := 0 to |dropped|
      invariant Consistent(cfg, r') && s in r'.subs
      invariant r'.subs == Without(r.subs, s, Set(dropped[..i])) && r'.userOf == r.userOf
      invariant Pushed(cfg, port, port', dropped[..i], refused)
      invariant changed <==> r'.desired != r.desired
      invariant r'.desired <= r.desired
    {
      var k := dropped[i];
      assert dropped[..i + 1][..i] == dropped[..i];
      assert Set(dropped[..i + 1]) == Set(dropped[..i]) + {k};
      assert k in dropped && k in r.subs[s] && k !in Set(dropped[..i]);
      var last;
      r', last := Detach(cfg, r', s, k);
      assert r.subs[s] - Set(dropped[..i + 1]) == r.subs[s] - Set(dropped[..i]) - {k};
      changed := changed || last;
      var sent := port'.Send(Unsubscribed(ChannelName(cfg, k)));
      OneMorePush(cfg, port, port', dropped, i, refused);
      port' := sent.0;
      refused := refused || !sent.1;
    }
    assert dropped[..|dropped|] == dropped;
  }

  /** The keys a connection lost, in some order, are the pushes its port was offered; `refused`: one was not taken. */
  ghost predicate SweptPort(cfg: Config, was: Port, now: Port, gone: set<Key>, refused: bool) {
    exists ks: seq<Key> ::
      && Set(ks) == gone && (forall i, j :: 0 <= i < j < |ks| ==> ks[i] != ks[j])
      && Pushed(cfg, was, now, ks, refused)
  }

  function HeldBy(subs: map<Sink, set<Key>>, s: Sink): set<Key> {
    if s in subs then subs[s] else {}
  }

  /** What a matching sweep leaves of a connection's keys. */
  ghost predicate Swept(cfg: Config, now: set<Key>, was: set<Key>, pattern: Glob.Pattern) {
    forall k :: k in now <==> k in was && !Glob.Denotes(pattern, ChannelName(cfg, k))
  }

  /** What controlUnsubscribe does to one target, told by what it held and holds, its port, and whether it refused. */
  ghost predicate Handled(
    cfg: Config, pattern: Glob.Pattern, was: set<Key>, now: set<Key>, port: Port, port': Port, refused: bool)
  {
    Swept(cfg, now, was, pattern) && SweptPort(cfg, port, port', was - now, refused)
  }

  /** The pushes ControlDrop sent are for exactly the keys that left, and nobody else's keys did. */
  lemma DropIsHandled(
    cfg: Config, pattern: Glob.Pattern, was: map<Sink, set<Key>>, now: map<Sink, set<Key>>,
    s: Sink, port: Port, port': Port, dropped: seq<Key>, refused: bool)
    requires Pushed(cfg, port, port', dropped, refused)
    requires forall i, j :: 0 <= i < j < |dropped| ==> dropped[i] != dropped[j]
    requires forall k :: k in dropped <==> s in was && k in was[s] && Glob.Denotes(pattern, ChannelName(cfg, k))
    requires if s in was then now == Without(was, s, Set(dropped)) else now == was
    ensures Handled(cfg, pattern, HeldBy(was, s), HeldBy(now, s), port, port', refused)
    ensures now.Keys == was.Keys && forall t :: t != s ==> HeldBy(now, t) == HeldBy(was, t)
  {
    hide Glob.Denotes, Pushed;
    assert HeldBy(was, s) - HeldBy(now, s) == Set(dropped);
  }

  /** The targets in `done` are handled, everyone else is untouched, and `slow` lists those that refused, once. */
  ghost predicate SweptSoFar(
    cfg: Config, pattern: Glob.Pattern, subs0: map<Sink, set<Key>>, subs: map<Sink, set<Key>>,
    ports: map<Sink, Port>, box: map<Sink, Port>, slow: seq<Sink>, done: set<Sink>)
  {
    && subs.Keys == subs0.Keys && box.Keys == ports.Keys && done <= ports.Keys
    && (forall s :: s !in done ==> HeldBy(subs, s) == HeldBy(subs0, s))
    && (forall s :: s in ports && s !in done ==> box[s] == ports[s])
    && (forall s :: s in done ==>
          Handled(cfg, pattern, HeldBy(subs0, s), HeldBy(subs, s), ports[s], box[s], s in slow))
    && (forall s :: s in slow ==> s in done)
    && (forall i, j :: 0 <= i < j < |slow| ==> slow[i] != slow[j])
  }

  lemma NothingSwept(cfg: Config, pattern: Glob.Pattern, subs: map<Sink, set<Key>>, ports: map<Sink, Port>)
    ensures SweptSoFar(cfg, pattern, subs, subs, ports, ports, [], {})
  {}

  lemma NotYetSwept(
    cfg: Config, pattern: Glob.Pattern, subs0: map<Sink, set<Key>>, subs: map<Sink, set<Key>>,
    ports: map<Sink, Port>, box: map<Sink, Port>, slow: seq<Sink>, done: set<Sink>, s: Sink)
    requires SweptSoFar(cfg, pattern, subs0, subs, ports, box, slow, done) && s !in done && s in ports
    ensures HeldBy(subs, s) == HeldBy(subs0, s) && s in box && box[s] == ports[s] && box.Keys == ports.Keys
  {
    hide Handled;
  }

  lemma SweepStep(
    cfg: Config, pattern: Glob.Pattern, subs0: map<Sink, set<Key>>, subs: map<Sink, set<Key>>,
    subs': map<Sink, set<Key>>, ports: map<Sink, Port>, box: map<Sink, Port>, slow: seq<Sink>, done: set<Sink>,
    s: Sink, port: Port, refused: bool)
    requires SweptSoFar(cfg, pattern, subs0, subs, ports, box, slow, done) && s !in done && s in ports
    requires subs'.Keys == subs.Keys && forall t :: t != s ==> HeldBy(subs', t) == HeldBy(subs, t)
    requires Handled(cfg, pattern, HeldBy(subs0, s), HeldBy(subs', s), ports[s], port, refused)
    ensures SweptSoFar(cfg, pattern, subs0, subs', ports, box[s := port],
                       if refused then slow + [s] else slow, done + {s})
  {
    hide Handled;
  }

  /** controlUnsubscribe's critical section, target by target. */
  method ControlSweep(cfg: Config, r0: Registry, ports: map<Sink, Port>, targets: set<Sink>, pattern: Glob.Pattern)
    returns (r: Registry, box: map<Sink, Port>, changed: bool, slow: seq<Sink>)
    requires Consistent(cfg, r0) && targets <= ports.Keys
    ensures Consistent(cfg, r) && r.userOf == r0.userOf
    ensures SweptSoFar(cfg, pattern, r0.subs, r.subs, ports, box, slow, targets)
    ensures (changed <==> r.desired != r0.desired) && r.desired <= r0.desired
  {
    hide Consistent, Glob.Denotes, Handled, Pushed, SweptSoFar, HeldBy;
    var todo, done := targets, {};
    r, box, changed, slow := r0, ports, false, [];
    NothingSwept(cfg, pattern, r0.subs, ports);
    while todo != {}
      invariant done + todo == targets && done !! todo && Consistent(cfg, r) && r.userOf == r0.userOf
      invariant SweptSoFar(cfg, pattern, r0.subs, r.subs, ports, box, slow, done)
      invariant (changed <==> r.desired != r0.desired) && r.desired <= r0.desired
      decreases todo
    {
      var s :| s in todo;
      NotYetSwept(cfg, pattern, r0.subs, r.subs, ports, box, slow, done, s);
      ghost var was := r.subs;
      var port, moved, refused, dropped;
      r, port, moved, refused, dropped := ControlDrop(cfg, r, box[s], s, pattern);
      DropIsHandled(cfg, pattern, was, r.subs, s, box[s], port, dropped, refused);
      SweepStep(cfg, pattern, r0.subs, was, r.subs, ports, box, slow, done, s, port, refused);
      box := box[s := port];
      changed := changed || moved;
      slow := if refused then slow + [s] else slow;
      todo, done := todo - {s}, done + {s};
    }
  }

  function Set<T>(xs: seq<T>): set<T> {
    set x | x in xs
  }

  /** The bucket has one member after an insert exactly when it did not exist before. */
  lemma FirstHolder(channels: map<Key, set<Sink>>, s: Sink, k: Key)
    requires k in channels ==> channels[k] != {} && s !in channels[k]
    ensures |Inserted(channels, s, k)[k]| == 1 <==> k !in channels
  {
    if k in channels {
      var t :| t in channels[k];
      SubsetSize({s, t}, Inserted(channels, s, k)[k]);
    }
  }

  /** A port once a frame, if there is one, has been offered to it: behind what is queued, where there is room. */
  ghost function After(was: Port, frame: Option<Frame>): Port {
    if frame.Some? && was.Takes() then Port(was.queue + [frame.value], was.capacity, false) else was
  }

  /** What a reply does: its connection's port, and the connection handed over exactly when it has no room. */
  ghost predicate Replied(
    was: map<Sink, Port>, now: map<Sink, Port>, s: Sink, ack: Option<Frame>, handed: seq<Sink>, handed': seq<Sink>)
    requires s in was
  {
    && now == was[s := After(was[s], ack)]
    && handed' == handed + if ack.Some? && was[s].Full() then [s] else []
  }

  /** Closed, once, with the disconnect frame last where there was room for it, and nothing else queued. */
  ghost predicate Ended(was: Port, now: Port, code: int) {
    && now.closed && now.capacity == was.capacity
    && (was.closed ==> now == was)
    && (was.Takes() ==> now.queue == was.queue + [Frame.Disconnect(code)])
    && (was.Full() ==> now.queue == was.queue)
  }

  // ---------------------------------------------------------------- the hub

  class Hub {
    const cfg: Config
    var channels: map<Key, set<Sink>>
    var subs: map<Sink, set<Key>>
    var users: map<User, set<Sink>>
    var userOf: map<Sink, User>
    var clients: map<Text, Sink>
    var desired: set<Key>

    // The outbound queues of the connections the process has created.
    var ports: map<Sink, Port>

    // Set by markDirty, and the connections given to enqueueClose, in order.
    var dirty: bool
    var handed: seq<Sink>

    function Reg(): Registry
      reads this
    {
      Registry(channels, subs, users, userOf, clients, desired)
    }

    /** The maps are consistent and every registered connection exists. */
    ghost predicate Valid()
      reads this
    {
      Consistent(cfg, Reg()) && subs.Keys <= ports.Keys
    }

    /** New: nothing registered, the control key wanted, the reconciler already marked dirty. */
    constructor (cfg: Config)
      ensures Valid() && this.cfg == cfg
      ensures Reg() == Registry(map[], map[], map[], map[], map[], {ControlKey(cfg)})
      ensures ports == map[] && dirty && handed == []
    {
      this.cfg := cfg;
      channels, subs, users, userOf, clients := map[], map[], map[], map[], map[];
      desired := {ControlKey(cfg)};
      ports := map[];
      dirty, handed := true, [];
    }

    method SetRegistry(r: Registry)
      modifies this`channels, this`subs, this`users, this`userOf, this`clients, this`desired
      ensures Reg() == r
    {
      channels, subs, users := r.channels, r.subs, r.users;
      userOf, clients, desired := r.userOf, r.clients, r.desired;
    }

    /** A connection object comes into existence, unregistered. */
    method Open(s: Sink, capacity: nat)
      requires Valid() && s !in ports
      modifies this`ports
      ensures Valid()
      ensures ports == old(ports)[s := Port([], capacity, false)]
    {
      ports := ports[s := Port([], capacity, false)];
    }

    method MarkDirty()
      modifies this`dirty
      ensures dirty
    {
      dirty := true;
    }

    method EnqueueClose(s: Sink)
      modifies this`handed
      ensures handed == old(handed) + [s]
    {
      handed := handed + [s];
    }

    /** queueAck: a nil ack is nothing to queue and not a refusal. */
    method QueueAck(s: Sink, ack: Option<Frame>) returns (refused: bool)
      requires s in ports
      modifies this`ports
      ensures ports.Keys == old(ports).Keys && ports == old(ports)[s := ports[s]]
      ensures ports[s] == After(old(ports)[s], ack)
      ensures refused <==> ack.Some? && old(ports)[s].Full()
    {
      if ack.None? {
        assert ports[s := ports[s]] == ports;
        return false;
      }
      var (port, ok) := ports[s].Send(ack.value);
      ports := ports[s := port];
      refused := !ok;
    }

    /** Add: registers once, refiles on repetition, refuses a second holder of the id. */
    method Add(s: Sink, user: User) returns (err: Option<Refusal>)
      requires Valid() && s in ports
      modifies this`channels, this`subs, this`users, this`userOf, this`clients, this`desired
      ensures Valid()
      ensures err == if exists t :: t in old(subs) && t != s && t.id == s.id then Some(DuplicateId) else None
      ensures err.Some? ==> Reg() == old(Reg())
      ensures err.None? ==> userOf == old(userOf)[s := user]
      ensures err.None? ==> subs == if s in old(subs) then old(subs) else old(subs)[s := {}]
      ensures desired == old(desired)
    {
      hide Consistent;
      var r := Reg();
      Indexed(cfg, r, s);
      UsersOf(cfg, r);
      if s.id in r.clients && r.clients[s.id] != s {
        return Some(DuplicateId);
      }
      var us, uo := IndexUser(r.users, r.userOf, s, user);
      if s.id in r.clients {
        RefileKeeps(cfg, r, s, us, user);
        SetRegistry(r.(users := us, userOf := uo));
        return None;
      }
      RegisterKeeps(cfg, r, s, us, user);
      SetRegistry(r.(subs := r.subs[s := {}], clients := r.clients[s.id := s], users := us, userOf := uo));
      err := None;
    }

    /** Attach: all the connect frame's channels, then one reply naming exactly those taken. */
    method Attach(s: Sink, user: User, requested: seq<Channel>, encodes: bool) returns (granted: seq<Channel>)
      requires Valid() && s in ports
      modifies this
      ensures Valid()
      ensures s !in old(subs) ==> granted == [] && Reg() == old(Reg())
      ensures s in old(subs) ==>
                && granted == Granted(cfg, old(subs)[s], requested)
                && subs == old(subs)[s := old(subs)[s] + Keys(cfg, granted)]
                && userOf == old(userOf)[s := user]
      ensures s in old(subs) ==>
                && (forall ch :: ch in granted ==>
                      ch in requested && !Reserved(ch) && Resolves(cfg, ch) && cfg.prefix + ch !in old(subs)[s])
                && (forall ch :: ch in requested && ch !in granted ==>
                      || Reserved(ch) || !Resolves(cfg, ch) || cfg.prefix + ch in old(subs)[s]
                      || 0 < cfg.maxSubs <= |subs[s]|)
      ensures Replied(old(ports), ports, s, if encodes then Some(ConnectReply(granted)) else None, old(handed), handed)
      ensures dirty <==> old(dirty) || desired != old(desired)
      ensures old(desired) <= desired
    {
      hide Consistent;
      granted := [];
      var changed := false;
      if s in subs {
        var r := Reg();
        UsersOf(cfg, r);
        var us, uo := IndexUser(r.users, r.userOf, s, user);
        RefileKeeps(cfg, r, s, us, user);
        LeftOut(cfg, r, s, requested);
        r, granted, changed := AttachAll(cfg, r.(users := us, userOf := uo), s, requested);
        SetRegistry(r);
      }
      var refused := QueueAck(s, if encodes then Some(ConnectReply(granted)) else None);
      if changed {
        MarkDirty();
      }
      if refused {
        EnqueueClose(s);
      }
    }

    /** Remove: idempotent; afterwards no index mentions the connection. */
    method Remove(s: Sink)
      requires Valid()
      modifies this`channels, this`subs, this`users, this`userOf, this`clients, this`desired, this`dirty
      ensures Valid()
      ensures subs == old(subs) - {s} && userOf == old(userOf) - {s}
      ensures forall k :: k in channels ==> s !in channels[k]
      ensures forall u :: u in users ==> s !in users[u]
      ensures s !in clients.Values
      ensures dirty <==> old(dirty) || desired != old(desired)
      ensures desired <= old(desired)
    {
      hide Consistent;
      if s !in subs {
        UsersOf(cfg, Reg());
        Indexed(cfg, Reg(), s);
        return;
      }
      var r, changed := Deregister(cfg, Reg(), s);
      SetRegistry(r);
      Indexed(cfg, r, s);
      if changed {
        MarkDirty();
      }
    }

    /** Subscribe: the insert and its reply in one critical section. */
    method Subscribe(s: Sink, ch: Channel, ack: Option<Frame>) returns (err: Option<Refusal>)
      requires Valid() && s in ports
      modifies this
      ensures Valid()
      ensures err == Some(ReservedChannel) <==> Reserved(ch)
      ensures err == Some(UnknownNamespace) <==> !Reserved(ch) && !Resolves(cfg, ch)
      ensures !Reserved(ch) && Resolves(cfg, ch) ==>
                err == if s !in old(subs) then Some(NotRegistered)
                       else if cfg.prefix + ch in old(subs)[s] then Some(AlreadySubscribed)
                       else if 0 < cfg.maxSubs <= |old(subs)[s]| then Some(SubscriptionLimit)
                       else None
      ensures err.Some? ==> Reg() == old(Reg()) && ports == old(ports) && handed == old(handed)
      ensures err.None? ==> subs == old(subs)[s := old(subs)[s] + {cfg.prefix + ch}] && userOf == old(userOf)
      ensures err.None? ==> Replied(old(ports), ports, s, ack, old(handed), handed)
      ensures dirty <==> old(dirty) || desired != old(desired)
      ensures old(desired) <= desired
    {
      hide Consistent, Holdable, Resolves;
      AdmitMeans(cfg, ch);
      var refusal := Admit(cfg, ch);
      if refusal.Some? {
        return refusal;
      }
      AdmittedIsHoldable(cfg, ch);
      var r, first;
      r, first, err := Insert(cfg, Reg(), s, KeyOf(cfg, ch));
      if err.Some? {
        return;
      }
      SetRegistry(r);
      var refused := QueueAck(s, ack);
      if first {
        MarkDirty();
      }
      if refused {
        EnqueueClose(s);
      }
    }

    /** Unsubscribe: the drop and its reply in one critical section. */
    method Unsubscribe(s: Sink, ch: Channel, ack: Option<Frame>) returns (err: Option<Refusal>)
      requires Valid() && s in ports
      modifies this
      ensures Valid()
      ensures err == if s !in old(subs) then Some(NotRegistered)
                     else if cfg.prefix + ch !in old(subs)[s] then Some(NotSubscribed)
                     else None
      ensures err.Some? ==> Reg() == old(Reg()) && ports == old(ports) && handed == old(handed)
      ensures err.None? ==> subs == old(subs)[s := old(subs)[s] - {cfg.prefix + ch}] && userOf == old(userOf)
      ensures err.None? ==> Replied(old(ports), ports, s, ack, old(handed), handed)
      ensures dirty <==> old(dirty) || desired != old(desired)
      ensures desired <= old(desired)
    {
      hide Consistent;
      var k := KeyOf(cfg, ch);
      if s !in subs {
        return Some(NotRegistered);
      }
      if k !in subs[s] {
        return Some(NotSubscribed);
      }
      var r, last := Detach(cfg, Reg(), s, k);
      SetRegistry(r);
      var refused := QueueAck(s, ack);
      if last {
        MarkDirty();
      }
      if refused {
        EnqueueClose(s);
      }
      err := None;
    }

    /** A holder of `k` that the envelope does not exclude. */
    predicate Receives(s: Sink, k: Key, exclude: Text)
      reads this
    {
      s in subs && k in subs[s] && !(exclude != [] && s.id == exclude)
    }

    /** deliver: one push per recipient; those that refuse go to the closer after the unlock. */
    method Deliver(k: Key, frame: Frame, exclude: Text) returns (slow: seq<Sink>)
      requires Valid()
      modifies this`ports, this`handed
      ensures Valid()
      ensures ports.Keys == old(ports).Keys
      ensures forall s :: s in old(ports) ==>
                ports[s] == if Receives(s, k, exclude) then After(old(ports)[s], Some(frame)) else old(ports)[s]
      ensures handed == old(handed) + slow
      ensures forall s :: s in slow <==> Receives(s, k, exclude) && old(ports)[s].Full()
      ensures forall i, j :: 0 <= i < j < |slow| ==> slow[i] != slow[j]
    {
      hide Consistent;
      slow := [];
      var holders := if k in channels then channels[k] else {};
      Holders(cfg, Reg(), k);
      var todo, sent := holders, ports;
      while todo != {}
        invariant todo <= holders
        invariant sent.Keys == ports.Keys
        invariant forall s :: s in ports ==>
                    sent[s] == if s !in todo && Receives(s, k, exclude) then After(ports[s], Some(frame)) else ports[s]
        invariant forall s :: s in slow <==> s !in todo && Receives(s, k, exclude) && ports[s].Full()
        invariant forall i, j :: 0 <= i < j < |slow| ==> slow[i] != slow[j]
        decreases todo
      {
        var s :| s in todo;
        todo := todo - {s};
        if exclude != [] && s.id == exclude {
          continue;
        }
        var (port, ok) := sent[s].Send(frame);
        sent := sent[s := port];
        if !ok {
          slow := slow + [s];
        }
      }
      ports := sent;
      for i := 0 to |slow|
        invariant handed == old(handed) + slow[..i] && ports == sent
      {
        EnqueueClose(slow[i]);
      }
      assert slow[..|slow|] == slow;
    }

    /** Dispatch, on an envelope already parsed: the push names the bare channel. */
    method Dispatch(k: Key, payload: nat, exclude: Text) returns (slow: seq<Sink>)
      requires Valid()
      modifies this`ports, this`handed
      ensures Valid()
      ensures ports.Keys == old(ports).Keys
      ensures forall s :: s in subs && k in subs[s] && (exclude == [] || s.id != exclude) ==>
                var was := old(ports)[s];
                && (!was.closed && |was.queue| < was.capacity ==>
                      ports[s] == Port(was.queue + [Pub(ChannelName(cfg, k), payload)], was.capacity, false))
                && (was.closed || |was.queue| >= was.capacity ==> ports[s] == was)
                && (s in slow <==> !was.closed && |was.queue| >= was.capacity)
      ensures forall s :: s in ports && !(s in subs && k in subs[s] && (exclude == [] || s.id != exclude)) ==>
                ports[s] == old(ports)[s] && s !in slow
      ensures forall s :: s in slow ==> s in ports
      ensures handed == old(handed) + slow
      ensures forall i, j :: 0 <= i < j < |slow| ==> slow[i] != slow[j]
    {
      slow := Deliver(k, Pub(ChannelName(cfg, k), payload), exclude);
    }

    /** targets: an exact lookup by client id, or else by user. */
    method Targets(user: User, client: Text) returns (out: set<Sink>)
      requires Valid()
      ensures client != [] ==> out == set s | s in subs && s.id == client
      ensures client == [] ==> out == set s | s in userOf && userOf[s] == user
    {
      if client != [] {
        out := if client in clients then {clients[client]} else {};
      } else {
        out := if user in users then users[user] else {};
      }
    }

    /** closeSlow and each step of closeAll: deregister, then end the connection. */
    method CloseSink(s: Sink, code: int)
      requires Valid() && s in ports
      modifies this
      ensures Valid()
      ensures subs == old(subs) - {s} && userOf == old(userOf) - {s}
      ensures ports.Keys == old(ports).Keys && ports == old(ports)[s := ports[s]]
      ensures Ended(old(ports)[s], ports[s], code)
      ensures dirty <==> old(dirty) || desired != old(desired)
      ensures desired <= old(desired)
      ensures handed == old(handed)
    {
      hide Consistent;
      Remove(s);
      ports := ports[s := ports[s].Close(code)];
      Remove(s);  // Sink.Close deregisters again.
    }

    /** closeAll, over the targets in any order. */
    method CloseAll(targets: set<Sink>, code: int)
      requires Valid() && targets <= ports.Keys
      modifies this
      ensures Valid()
      ensures subs == old(subs) - targets && userOf == old(userOf) - targets
      ensures ports.Keys == old(ports).Keys
      ensures forall s :: s in targets ==> Ended(old(ports)[s], ports[s], code)
      ensures forall s :: s in ports && s !in targets ==> ports[s] == old(ports)[s]
      ensures dirty <==> old(dirty) || desired != old(desired)
    {
      hide Consistent;
      var todo := targets;
      ghost var done: set<Sink> := {};
      while todo != {}
        invariant done + todo == targets && done !! todo && Valid() && ports.Keys == old(ports).Keys
        invariant subs == old(subs) - done && userOf == old(userOf) - done
        invariant forall s :: s in done ==> Ended(old(ports)[s], ports[s], code)
        invariant forall s :: s in ports && s !in done ==> ports[s] == old(ports)[s]
        invariant (dirty <==> old(dirty) || desired != old(desired)) && desired <= old(desired)
        decreases todo
      {
        var s :| s in todo;
        MinusMore(old(subs), done, s);
        MinusMore(old(userOf), done, s);
        CloseSink(s, code);
        todo, done := todo - {s}, done + {s};
      }
    }

    /** controlUnsubscribe: every matching subscription of every target, pushes behind the drops. */
    method ControlUnsubscribe(targets: set<Sink>, pattern: Glob.Pattern)
      requires Valid() && targets <= ports.Keys
      modifies this
      ensures Valid()
      ensures subs.Keys == old(subs).Keys && userOf == old(userOf) && ports.Keys == old(ports).Keys
      ensures old(handed) <= handed && forall s :: s in handed[|old(handed)|..] ==> s in targets
      ensures forall s :: s in subs && s !in targets ==> subs[s] == old(subs)[s]
      ensures forall s :: s in ports && s !in targets ==> ports[s] == old(ports)[s]
      ensures forall s :: s in targets ==>
                Handled(cfg, pattern, HeldBy(old(subs), s), HeldBy(subs, s), old(ports)[s], ports[s],
                        s in handed[|old(handed)|..])
      ensures dirty <==> old(dirty) || desired != old(desired)
      ensures desired <= old(desired)
      ensures forall i, j :: |old(handed)| <= i < j < |handed| ==> handed[i] != handed[j]
    {
      hide Consistent, Handled;
      var r, box, changed, slow := ControlSweep(cfg, Reg(), ports, targets, pattern);
      SetRegistry(r);
      ports := box;
      if changed {
        MarkDirty();
      }
      handed := handed + slow;  // enqueueClose for each.
      assert handed[|old(handed)|..] == slow;
      assert forall s :: s in subs ==> subs[s] == HeldBy(subs, s);
    }
  }
}
