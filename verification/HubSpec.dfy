/**
 * internal/hub, as values: what the registry means and what each critical section does to it.
 *
 * The registry has one fact per connection, the set of bus keys it holds and the user it is
 * filed under. The five maps of the Go struct are indexes over that fact (class Hub).
 */
module HubSpec {
  import opened Bytes

  /** A connection: pointer identity plus its fixed client id. */
  datatype Sink = Sink(ptr: nat, id: Text)

  type Channel = Text
  type Key = Text
  type User = Text

  datatype Config = Config(prefix: Text, separator: Text, namespaces: set<Text>, maxSubs: int)

  datatype Refusal =
    | ReservedChannel | UnknownNamespace
    | AlreadySubscribed | NotSubscribed | SubscriptionLimit
    | NotRegistered | DuplicateId

  /** Frames, by what they tell the client about its channels. */
  datatype Frame =
    | ConnectReply(granted: seq<Channel>)
    | SubscribeReply(channel: Channel)
    | UnsubscribeReply(channel: Channel)
    | Unsubscribed(channel: Channel)
    | Pub(channel: Channel, payload: nat)
    | Disconnect(code: int)
    | OtherReply

  /** A connection's outbound queue as Sink.Send sees it. */
  datatype Port = Port(queue: seq<Frame>, capacity: nat, closed: bool) {
    /** Open, with room for a frame. */
    predicate Takes() { !closed && |queue| < capacity }

    /** Open, with none. */
    predicate Full() { !closed && |queue| >= capacity }

    /** Sink.Send: a closed connection drops the frame and says true, a full one refuses. */
    function Send(f: Frame): (Port, bool) {
      if closed then (this, true)
      else if |queue| < capacity then (this.(queue := queue + [f]), true)
      else (this, false)
    }

    /** conn.doClose's part: mark closed, then queue the disconnect frame if there is room. */
    function Close(code: int): Port {
      if closed then this
      else if |queue| < capacity then Port(queue + [Frame.Disconnect(code)], capacity, true)
      else this.(closed := true)
    }
  }

  const CONTROL: Channel := [95, 99, 111, 110, 116, 114, 111, 108]  // "_control"

  function KeyOf(cfg: Config, ch: Channel): Key { cfg.prefix + ch }

  function ControlKey(cfg: Config): Key { KeyOf(cfg, CONTROL) }

  /** strings.TrimPrefix(key, prefix). */
  function ChannelName(cfg: Config, key: Key): Channel {
    if cfg.prefix <= key then key[|cfg.prefix|..] else key
  }

  lemma KeyRoundTrip(cfg: Config, ch: Channel)
    ensures ChannelName(cfg, KeyOf(cfg, ch)) == ch
  {
    assert (cfg.prefix + ch)[|cfg.prefix|..] == ch;
  }

  // ---------------------------------------------------------------- namespaces

  /** The part of a channel before its first separator, or all of it. */
  function NamespaceName(ch: Channel, sep: Text): Text {
    if sep <= ch || ch == [] then [] else [ch[0]] + NamespaceName(ch[1..], sep)
  }

  predicate OccursAt(sep: Text, ch: Channel, i: nat) { i <= |ch| && sep <= ch[i..] }

  lemma {:induction false} NamespaceNameMeans(ch: Channel, sep: Text)
    ensures var n := |NamespaceName(ch, sep)|;
            && n <= |ch| && NamespaceName(ch, sep) == ch[..n]
            && (n < |ch| ==> OccursAt(sep, ch, n))
            && (forall i :: 0 <= i < n ==> !OccursAt(sep, ch, i))
  {
    if !(sep <= ch || ch == []) {
      var n := |NamespaceName(ch, sep)|;
      NamespaceNameMeans(ch[1..], sep);
      assert ch == [ch[0]] + ch[1..] && ch[n..] == ch[1..][n - 1..];
      forall i | 0 <= i < n ensures !OccursAt(sep, ch, i) {
        if i > 0 {
          assert ch[i..] == ch[1..][i - 1..] && !OccursAt(sep, ch[1..], i - 1);
        }
      }
    }
  }

  /** Hub.Namespace: which configured block a channel gets, by name. */
  function NamespaceOf(cfg: Config, ch: Channel): Option<Text> {
    var name := NamespaceName(ch, cfg.separator);
    if name in cfg.namespaces then Some(name) else if [] in cfg.namespaces then Some([]) else None
  }

  /** `n` is where the channel's leftmost separator is, or its end. */
  ghost predicate SplitsAt(ch: Channel, sep: Text, n: nat) {
    && n <= |ch| && (n < |ch| ==> OccursAt(sep, ch, n))
    && forall i :: 0 <= i < n ==> !OccursAt(sep, ch, i)
  }

  /** The block is the one called like the text before the separator, or else the one with the empty name. */
  lemma NamespaceMeans(cfg: Config, ch: Channel, n: nat)
    requires SplitsAt(ch, cfg.separator, n)
    ensures ch[..n] in cfg.namespaces ==> NamespaceOf(cfg, ch) == Some(ch[..n])
    ensures ch[..n] !in cfg.namespaces && [] in cfg.namespaces ==> NamespaceOf(cfg, ch) == Some([])
    ensures ch[..n] !in cfg.namespaces && [] !in cfg.namespaces ==> NamespaceOf(cfg, ch) == None
  {
    NamespaceNameMeans(ch, cfg.separator);
  }

  /** A configured block is called like the text before the separator, or has the empty name. */
  ghost predicate Resolves(cfg: Config, ch: Channel) {
    [] in cfg.namespaces || exists n: nat :: SplitsAt(ch, cfg.separator, n) && ch[..n] in cfg.namespaces
  }

  /**
   * A channel without a separator is documented to get the block with the empty name. The code looks
   * its whole name up first, so it does exactly when no block is called like the channel.
   */
  lemma NoSeparatorNamespace(cfg: Config, ch: Channel)
    requires ch != [] && forall i :: 0 <= i < |ch| ==> !OccursAt(cfg.separator, ch, i)
    requires [] in cfg.namespaces
    ensures NamespaceOf(cfg, ch) == Some([]) <==> ch !in cfg.namespaces
  {
    NamespaceNameMeans(ch, cfg.separator);
    assert ch[..|ch|] == ch;
  }

  /** Hub.admit. */
  function Admit(cfg: Config, ch: Channel): Option<Refusal> {
    if Reserved(ch) then Some(ReservedChannel)
    else if NamespaceOf(cfg, ch).Some? then None
    else Some(UnknownNamespace)
  }

  /** Which of the two refusals a channel meets before any lock is taken, if any. */
  lemma AdmitMeans(cfg: Config, ch: Channel)
    ensures Admit(cfg, ch) == Some(ReservedChannel) <==> Reserved(ch)
    ensures Admit(cfg, ch) == Some(UnknownNamespace) <==> !Reserved(ch) && !Resolves(cfg, ch)
    ensures Admit(cfg, ch) == None <==> !Reserved(ch) && Resolves(cfg, ch)
  {
    NamespaceNameMeans(ch, cfg.separator);
    assert SplitsAt(ch, cfg.separator, |NamespaceName(ch, cfg.separator)|);
    forall n: nat | SplitsAt(ch, cfg.separator, n) ensures n == |NamespaceName(ch, cfg.separator)| {}
  }

  // ---------------------------------------------------------------- indexes

  /** `channels` is exactly `subs` turned round, with no empty bucket. */
  ghost predicate Inverse(channels: map<Key, set<Sink>>, subs: map<Sink, set<Key>>) {
    && (forall k :: k in channels ==> channels[k] != {})
    && (forall k, s :: k in channels && s in channels[k] ==> s in subs && k in subs[s])
    && (forall k, s :: s in subs && k in subs[s] ==> k in channels && s in channels[k])
  }

  /** `users` is exactly `userOf` turned round, with no empty bucket. */
  ghost predicate UsersIndex(users: map<User, set<Sink>>, userOf: map<Sink, User>) {
    && (forall u :: u in users ==> users[u] != {})
    && (forall u, s :: u in users && s in users[u] ==> s in userOf && userOf[s] == u)
    && (forall s :: s in userOf ==> userOf[s] in users && s in users[userOf[s]])
  }

  /** `clients` finds exactly the registered connections, by id. */
  ghost predicate ClientsIndex(clients: map<Text, Sink>, subs: map<Sink, set<Key>>) {
    && (forall id :: id in clients ==> clients[id] in subs && clients[id].id == id)
    && (forall s :: s in subs ==> s.id in clients && clients[s.id] == s)
  }

  /** A bus key a client may hold: prefixed, and of an unreserved channel with a configured block. */
  ghost predicate Holdable(cfg: Config, k: Key) {
    cfg.prefix <= k && !Reserved(ChannelName(cfg, k)) && Resolves(cfg, ChannelName(cfg, k))
  }

  /** Only holdable keys are ever held, and never more than the cap. */
  ghost predicate Lawful(cfg: Config, subs: map<Sink, set<Key>>) {
    && (forall s, k :: s in subs && k in subs[s] ==> Holdable(cfg, k))
    && (cfg.maxSubs > 0 ==> forall s :: s in subs ==> |subs[s]| <= cfg.maxSubs)
  }

  /** The registry's maps, as one value. */
  datatype Registry = Registry(
    channels: map<Key, set<Sink>>, subs: map<Sink, set<Key>>,
    users: map<User, set<Sink>>, userOf: map<Sink, User>,
    clients: map<Text, Sink>, desired: set<Key>)

  /** The maps and the desired set are one consistent view of `subs` and `userOf`. */
  ghost predicate Consistent(cfg: Config, r: Registry) {
    && Inverse(r.channels, r.subs)
    && r.desired == r.channels.Keys + {ControlKey(cfg)}
    && UsersIndex(r.users, r.userOf)
    && r.userOf.Keys == r.subs.Keys
    && ClientsIndex(r.clients, r.subs)
    && Lawful(cfg, r.subs)
  }

  /** The control key can be held by nobody, so nothing a client does can drop it. */
  lemma ControlKeyNotHoldable(cfg: Config)
    ensures !Holdable(cfg, ControlKey(cfg))
  {
    KeyRoundTrip(cfg, CONTROL);
  }

  /** So it is always wanted, and never for a client's sake: it has no bucket and no holder. */
  lemma ControlStaysWanted(cfg: Config, r: Registry)
    requires Consistent(cfg, r)
    ensures ControlKey(cfg) in r.desired && ControlKey(cfg) !in r.channels
    ensures forall s :: s in r.subs ==> ControlKey(cfg) !in r.subs[s]
  {
    ControlKeyNotHoldable(cfg);
    forall k | k in r.channels ensures Holdable(cfg, k) {
      var s :| s in r.channels[k];
      assert k in r.subs[s];
    }
  }

  lemma {:induction false} SubsetSize<T>(a: set<T>, b: set<T>)
    requires a <= b
    ensures |a| <= |b|
  {
    if a != {} {
      var x :| x in a;
      SubsetSize(a - {x}, b - {x});
    }
  }

  // ---------------------------------------------------------------- critical sections on values

  function Room(cfg: Config, held: set<Key>): bool {
    cfg.maxSubs > 0 ==> |held| < cfg.maxSubs
  }

  /** insertLocked's answer. */
  function InsertRefusal(cfg: Config, subs: map<Sink, set<Key>>, s: Sink, k: Key): Option<Refusal> {
    if s !in subs then Some(NotRegistered)
    else if k in subs[s] then Some(AlreadySubscribed)
    else if !Room(cfg, subs[s]) then Some(SubscriptionLimit)
    else None
  }

  /** What Subscribe answers, over both of its checks. */
  function SubscribeRefusal(cfg: Config, subs: map<Sink, set<Key>>, s: Sink, ch: Channel): Option<Refusal> {
    var a := Admit(cfg, ch);
    if a.Some? then a else InsertRefusal(cfg, subs, s, KeyOf(cfg, ch))
  }

  function Keys(cfg: Config, chs: seq<Channel>): set<Key> {
    set i | 0 <= i < |chs| :: KeyOf(cfg, chs[i])
  }

  /** The channels Attach takes from `chs`, in order, for a connection already holding `held`. */
  function Granted(cfg: Config, held: set<Key>, chs: seq<Channel>): seq<Channel> {
    if chs == [] then []
    else
      var taken := Granted(cfg, held, chs[..|chs| - 1]);
      var ch := chs[|chs| - 1];
      var now := held + Keys(cfg, taken);
      if Admit(cfg, ch).None? && KeyOf(cfg, ch) !in now && Room(cfg, now)
      then taken + [ch] else taken
  }

  lemma KeysAppend(cfg: Config, chs: seq<Channel>, ch: Channel)
    ensures Keys(cfg, chs + [ch]) == Keys(cfg, chs) + {KeyOf(cfg, ch)}
  {
    var more := chs + [ch];
    forall k | k in Keys(cfg, chs) + {KeyOf(cfg, ch)} ensures k in Keys(cfg, more) {
      if k in Keys(cfg, chs) {
        var i :| 0 <= i < |chs| && KeyOf(cfg, chs[i]) == k;
        assert more[i] == chs[i];
      } else {
        assert more[|chs|] == ch;
      }
    }
  }

  /** A channel that was asked for, is admissible, and was not held before. */
  ghost predicate Grantable(cfg: Config, held: set<Key>, chs: seq<Channel>, ch: Channel) {
    ch in chs && !Reserved(ch) && Resolves(cfg, ch) && cfg.prefix + ch !in held
  }

  /** Attach grants only grantable channels, none twice, and stays within the cap. */
  lemma GrantedSound(cfg: Config, held: set<Key>, chs: seq<Channel>)
    requires cfg.maxSubs > 0 ==> |held| <= cfg.maxSubs
    ensures var g := Granted(cfg, held, chs);
            && (forall i :: 0 <= i < |g| ==> Grantable(cfg, held, chs, g[i]))
            && (forall i, j :: 0 <= i < j < |g| ==> g[i] != g[j])
            && (cfg.maxSubs > 0 ==> |held + Keys(cfg, g)| <= cfg.maxSubs)
  {
    GrantedGrantable(cfg, held, chs);
    GrantedDistinct(cfg, held, chs);
    GrantedWithinCap(cfg, held, chs);
  }

  lemma {:induction false} GrantedGrantable(cfg: Config, held: set<Key>, chs: seq<Channel>)
    ensures forall i :: 0 <= i < |Granted(cfg, held, chs)| ==> Grantable(cfg, held, chs, Granted(cfg, held, chs)[i])
  {
    if chs != [] {
      var before := chs[..|chs| - 1];
      var taken, g := Granted(cfg, held, before), Granted(cfg, held, chs);
      GrantedGrantable(cfg, held, before);
      AdmitMeans(cfg, chs[|chs| - 1]);
      forall i | 0 <= i < |g| ensures Grantable(cfg, held, chs, g[i]) {
        if i < |taken| {
          assert Grantable(cfg, held, before, taken[i]);
        }
      }
    }
  }

  lemma {:induction false} GrantedDistinct(cfg: Config, held: set<Key>, chs: seq<Channel>)
    ensures forall i, j :: 0 <= i < j < |Granted(cfg, held, chs)| ==>
              Granted(cfg, held, chs)[i] != Granted(cfg, held, chs)[j]
  {
    if chs != [] {
      var taken, g := Granted(cfg, held, chs[..|chs| - 1]), Granted(cfg, held, chs);
      GrantedDistinct(cfg, held, chs[..|chs| - 1]);
      forall i, j | 0 <= i < j < |g| ensures g[i] != g[j] {
        assert taken[i] == g[i] && KeyOf(cfg, taken[i]) in Keys(cfg, taken);
        if j < |taken| {
          assert taken[j] == g[j];
        }
      }
    }
  }

  lemma {:induction false} GrantedWithinCap(cfg: Config, held: set<Key>, chs: seq<Channel>)
    requires cfg.maxSubs > 0 ==> |held| <= cfg.maxSubs
    ensures cfg.maxSubs > 0 ==> |held + Keys(cfg, Granted(cfg, held, chs))| <= cfg.maxSubs
  {
    if chs != [] {
      var ch := chs[|chs| - 1];
      var taken := Granted(cfg, held, chs[..|chs| - 1]);
      GrantedWithinCap(cfg, held, chs[..|chs| - 1]);
      KeysAppend(cfg, taken, ch);
      assert held + Keys(cfg, taken + [ch]) == held + Keys(cfg, taken) + {KeyOf(cfg, ch)};
    } else {
      assert held + Keys(cfg, []) == held;
    }
  }

  /**
   * Attach leaves out a requested channel only when it is reserved or unresolved, when it is held
   * (before, or as another grant), or when the cap is used up.
   */
  lemma {:induction false} GrantedMaximal(cfg: Config, held: set<Key>, chs: seq<Channel>, i: nat)
    requires i < |chs| && !Reserved(chs[i]) && Resolves(cfg, chs[i])
    requires cfg.maxSubs > 0 ==> |held| <= cfg.maxSubs
    ensures var now := held + Keys(cfg, Granted(cfg, held, chs));
            cfg.prefix + chs[i] in now || 0 < cfg.maxSubs <= |now|
  {
    AdmitMeans(cfg, chs[i]);
    var ch, before := chs[|chs| - 1], chs[..|chs| - 1];
    var taken := Granted(cfg, held, before);
    KeysAppend(cfg, taken, ch);
    if i < |chs| - 1 {
      assert before[i] == chs[i];
      GrantedMaximal(cfg, held, before, i);
      GrantedSound(cfg, held, before);
      if Granted(cfg, held, chs) != taken {
        assert held + Keys(cfg, taken + [ch]) == held + Keys(cfg, taken) + {KeyOf(cfg, ch)};
      }
    }
  }

  lemma {:induction false} GrantedCount(cfg: Config, held: set<Key>, chs: seq<Channel>)
    ensures |held + Keys(cfg, Granted(cfg, held, chs))| == |held| + |Granted(cfg, held, chs)|
  {
    if chs == [] {
      assert held + Keys(cfg, []) == held;
    } else {
      var ch := chs[|chs| - 1];
      var taken := Granted(cfg, held, chs[..|chs| - 1]);
      GrantedCount(cfg, held, chs[..|chs| - 1]);
      KeysAppend(cfg, taken, ch);
      assert held + Keys(cfg, taken + [ch]) == held + Keys(cfg, taken) + {KeyOf(cfg, ch)};
    }
  }

  /**
   * Channel by channel, in the order asked for: taken exactly when it is not reserved, has a block, is
   * neither held nor taken already, and the cap leaves room for one more.
   */
  lemma GrantedExact(cfg: Config, held: set<Key>, chs: seq<Channel>, ch: Channel)
    ensures Granted(cfg, held, []) == []
    ensures var taken := Granted(cfg, held, chs);
            Granted(cfg, held, chs + [ch])
            == if && !Reserved(ch) && Resolves(cfg, ch)
                  && cfg.prefix + ch !in held && ch !in taken
                  && (cfg.maxSubs > 0 ==> |held| + |taken| < cfg.maxSubs)
               then taken + [ch] else taken
  {
    var taken := Granted(cfg, held, chs);
    assert (chs + [ch])[..|chs|] == chs;
    AdmitMeans(cfg, ch);
    GrantedCount(cfg, held, chs);
    KeyTaken(cfg, taken, ch);
  }

  /** Different channels have different keys. */
  lemma KeyTaken(cfg: Config, chs: seq<Channel>, ch: Channel)
    ensures KeyOf(cfg, ch) in Keys(cfg, chs) <==> ch in chs
  {
    KeyRoundTrip(cfg, ch);
    forall i | 0 <= i < |chs| && KeyOf(cfg, chs[i]) == KeyOf(cfg, ch) ensures chs[i] == ch {
      KeyRoundTrip(cfg, chs[i]);
    }
    if ch in chs {
      var i :| 0 <= i < |chs| && chs[i] == ch;
      assert KeyOf(cfg, chs[i]) in Keys(cfg, chs);
    }
  }

  /** Every answer of Subscribe, by what the source checks, in its order. */
  lemma SubscribeRefusalMeans(cfg: Config, subs: map<Sink, set<Key>>, s: Sink, ch: Channel)
    ensures var err := SubscribeRefusal(cfg, subs, s, ch);
            if Reserved(ch) then err == Some(ReservedChannel)
            else if !Resolves(cfg, ch) then err == Some(UnknownNamespace)
            else if s !in subs then err == Some(NotRegistered)
            else if cfg.prefix + ch in subs[s] then err == Some(AlreadySubscribed)
            else if 0 < cfg.maxSubs <= |subs[s]| then err == Some(SubscriptionLimit)
            else err == None
  {
    AdmitMeans(cfg, ch);
  }

  /** The registry after the keys in `gone` leave connection `s`. */
  function Without(subs: map<Sink, set<Key>>, s: Sink, gone: set<Key>): map<Sink, set<Key>>
    requires s in subs
  {
    subs[s := subs[s] - gone]
  }

  // ---------------------------------------------------------------- what keeps the registry consistent

  /** insertLocked's map write. */
  function Inserted(channels: map<Key, set<Sink>>, s: Sink, k: Key): map<Key, set<Sink>> {
    channels[k := (if k in channels then channels[k] else {}) + {s}]
  }

  /** detach's map write; an emptied bucket is deleted. */
  function Detached(channels: map<Key, set<Sink>>, s: Sink, k: Key): map<Key, set<Sink>> {
    if k !in channels then channels
    else if channels[k] - {s} == {} then channels - {k}
    else channels[k := channels[k] - {s}]
  }

  lemma InsertKeepsInverse(channels: map<Key, set<Sink>>, subs: map<Sink, set<Key>>, s: Sink, k: Key)
    requires Inverse(channels, subs) && s in subs
    ensures Inverse(Inserted(channels, s, k), subs[s := subs[s] + {k}])
  {}

  lemma InsertKeepsLawful(cfg: Config, subs: map<Sink, set<Key>>, s: Sink, k: Key)
    requires Lawful(cfg, subs) && InsertRefusal(cfg, subs, s, k).None? && Holdable(cfg, k)
    ensures Lawful(cfg, subs[s := subs[s] + {k}])
  {}

  lemma InsertKeeps(cfg: Config, r: Registry, s: Sink, k: Key)
    requires Consistent(cfg, r) && InsertRefusal(cfg, r.subs, s, k).None? && Holdable(cfg, k)
    ensures Consistent(cfg, r.(channels := Inserted(r.channels, s, k),
                               subs := r.subs[s := r.subs[s] + {k}],
                               desired := r.desired + {k}))
    ensures k in r.channels <==> k in r.desired
    ensures k in r.channels ==> r.channels[k] != {} && s !in r.channels[k]
  {
    ControlKeyNotHoldable(cfg);
    InsertKeepsInverse(r.channels, r.subs, s, k);
    InsertKeepsLawful(cfg, r.subs, s, k);
  }

  lemma DetachKeeps(cfg: Config, r: Registry, s: Sink, k: Key)
    requires Consistent(cfg, r) && s in r.subs && k in r.subs[s]
    ensures k in r.channels && k in r.desired && s in r.channels[k]
    ensures Consistent(cfg, r.(channels := Detached(r.channels, s, k),
                               subs := Without(r.subs, s, {k}),
                               desired := if r.channels[k] == {s} then r.desired - {k} else r.desired))
  {
    var subs' := Without(r.subs, s, {k});
    var channels' := Detached(r.channels, s, k);
    forall t, j | t in subs' && j in subs'[t] ensures j in channels' && t in channels'[j] {
      assert t in r.subs && j in r.subs[t];
      if j == k {
        assert t in r.channels[k] - {s};
      }
    }
    assert r.subs[s] == subs'[s] + {k};
    ControlKeyNotHoldable(cfg);
    assert Holdable(cfg, k);
    assert r.channels[k] - {s} == {} <==> r.channels[k] == {s};
  }

  lemma RegisterKeeps(cfg: Config, r: Registry, s: Sink, users: map<User, set<Sink>>, user: User)
    requires Consistent(cfg, r) && s.id !in r.clients && UsersIndex(users, r.userOf[s := user])
    ensures s !in r.subs
    ensures Consistent(cfg, r.(subs := r.subs[s := {}], clients := r.clients[s.id := s],
                               users := users, userOf := r.userOf[s := user]))
  {}

  lemma RefileKeeps(cfg: Config, r: Registry, s: Sink, users: map<User, set<Sink>>, user: User)
    requires Consistent(cfg, r) && s in r.subs && UsersIndex(users, r.userOf[s := user])
    ensures Consistent(cfg, r.(users := users, userOf := r.userOf[s := user]))
  {}

  lemma DeregisterKeeps(cfg: Config, r: Registry, s: Sink, users: map<User, set<Sink>>)
    requires Consistent(cfg, r) && s in r.subs && r.subs[s] == {} && UsersIndex(users, r.userOf - {s})
    ensures Consistent(cfg, r.(subs := r.subs - {s}, clients := r.clients - {s.id},
                               users := users, userOf := r.userOf - {s}))
  {}

  lemma AdmittedIsHoldable(cfg: Config, ch: Channel)
    requires Admit(cfg, ch).None?
    ensures Holdable(cfg, KeyOf(cfg, ch))
  {
    KeyRoundTrip(cfg, ch);
    AdmitMeans(cfg, ch);
  }

  /** The channel index lists exactly the holders. */
  lemma Holders(cfg: Config, r: Registry, k: Key)
    requires Consistent(cfg, r)
    ensures forall s :: s in r.subs && k in r.subs[s] <==> k in r.channels && s in r.channels[k]
  {}

  lemma UsersOf(cfg: Config, r: Registry)
    requires Consistent(cfg, r)
    ensures UsersIndex(r.users, r.userOf) && r.userOf.Keys == r.subs.Keys
  {}

  /** What consistency says about a connection: each index mentions it exactly when it is registered. */
  lemma Indexed(cfg: Config, r: Registry, s: Sink)
    requires Consistent(cfg, r)
    ensures s in r.subs <==> s in r.userOf
    ensures s in r.subs <==> s.id in r.clients && r.clients[s.id] == s
    ensures (exists t :: t in r.subs && t != s && t.id == s.id) <==> s.id in r.clients && r.clients[s.id] != s
    ensures s !in r.subs ==> s !in r.clients.Values
    ensures s !in r.subs ==> forall k :: k in r.channels ==> s !in r.channels[k]
    ensures s !in r.subs ==> forall u :: u in r.users ==> s !in r.users[u]
  {}
}
