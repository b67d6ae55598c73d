/** internal/webhook/cache.go: a lazily swept map that answers like the full history of puts and flushes. */
module AnswerCache {
  import opened Bytes

  /** A stored Authorized, by identity; time is in nanoseconds. */
  type Answer = nat
  type Time = int

  datatype Entry = Entry(value: Answer, expires: Time)

  // ---------------------------------------------------------------- the history it stands for

  datatype Op = Put(key: Text, value: Answer, at: Time) | Flush

  datatype Stored = Stored(value: Answer, at: Time)

  /** The last put of `key` since the last flush. */
  function LastPut(log: seq<Op>, key: Text): Option<Stored> {
    if log == [] then None
    else match log[|log| - 1]
      case Flush => None
      case Put(k, v, t) => if k == key then Some(Stored(v, t)) else LastPut(log[..|log| - 1], key)
  }

  /** The same, by position. */
  lemma {:induction false} LastPutMeans(log: seq<Op>, key: Text, value: Answer, at: Time)
    ensures LastPut(log, key) == Some(Stored(value, at)) <==>
            exists i :: 0 <= i < |log| && log[i] == Put(key, value, at)
                        && forall j :: i < j < |log| ==> log[j].Put? && log[j].key != key
  {
    if log != [] {
      var n := |log| - 1;
      LastPutMeans(log[..n], key, value, at);
      if log[n].Put? && log[n].key != key {
        if i :| 0 <= i < n && log[..n][i] == Put(key, value, at)
                && forall j :: i < j < n ==> log[..n][j].Put? && log[..n][j].key != key {
          assert log[i] == Put(key, value, at);
          forall j | i < j < |log| ensures log[j].Put? && log[j].key != key {
            assert j < n ==> log[..n][j] == log[j];
          }
        }
        if i :| 0 <= i < |log| && log[i] == Put(key, value, at)
                && forall j :: i < j < |log| ==> log[j].Put? && log[j].key != key {
          assert log[..n][i] == Put(key, value, at);
        }
      }
    }
  }

  lemma LastPutAppend(log: seq<Op>, op: Op, key: Text)
    ensures LastPut(log + [op], key) ==
            match op
            case Flush => None
            case Put(k, v, t) => if k == key then Some(Stored(v, t)) else LastPut(log, key)
  {
    assert (log + [op])[..|log|] == log;
  }

  /** What a cache that never forgets would answer. */
  function Answered(log: seq<Op>, ttl: Time, key: Text, now: Time): Option<Answer> {
    if key == [] then None
    else match LastPut(log, key)
      case None => None
      case Some(s) => if now < s.at + ttl then Some(s.value) else None
  }

  // ---------------------------------------------------------------- what the map keeps

  /** What is kept is the last put; what is not was never put, was flushed, or has expired by `latest`. */
  ghost predicate Faithful(ttl: Time, log: seq<Op>, latest: Time, entries: map<Text, Entry>) {
    && [] !in entries
    && (forall k :: k in entries ==> LastPut(log, k) == Some(Stored(entries[k].value, entries[k].expires - ttl)))
    && (forall k :: k != [] && k !in entries && LastPut(log, k).Some? ==> LastPut(log, k).value.at + ttl <= latest)
  }

  /** With calls in clock order, nothing kept had expired at the last sweep. */
  ghost predicate Recent(ttl: Time, latest: Time, lastSweep: Option<Time>, entries: map<Text, Entry>) {
    && (lastSweep.Some? ==> lastSweep.value <= latest)
    && forall k :: k in entries ==> lastSweep.Some? && lastSweep.value < entries[k].expires <= latest + ttl
  }

  function Swept(entries: map<Text, Entry>, now: Time): map<Text, Entry> {
    map k | k in entries && now < entries[k].expires :: entries[k]
  }

  lemma SweepFaithful(ttl: Time, log: seq<Op>, latest: Time, entries: map<Text, Entry>, now: Time)
    requires Faithful(ttl, log, latest, entries) && now <= latest
    ensures Faithful(ttl, log, latest, Swept(entries, now))
  {}

  lemma PutFaithful(
    ttl: Time, log: seq<Op>, latest: Time, entries: map<Text, Entry>, key: Text, value: Answer, now: Time)
    requires Faithful(ttl, log, latest, entries) && key != []
    ensures Faithful(ttl, log + [Put(key, value, now)], latest, entries[key := Entry(value, now + ttl)])
  {
    forall k ensures LastPut(log + [Put(key, value, now)], k) ==
                     if k == key then Some(Stored(value, now)) else LastPut(log, k)
    {
      LastPutAppend(log, Put(key, value, now), k);
    }
  }

  /** put's critical section: sweep when a ttl has passed since the last one, then store. */
  method Store(
    ttl: Time, entries: map<Text, Entry>, lastSweep: Option<Time>, key: Text, value: Answer, now: Time,
    ghost log: seq<Op>, ghost latest: Time, ghost ordered: bool)
    returns (kept: map<Text, Entry>, swept: Option<Time>)
    requires ttl > 0 && key != [] && now <= latest
    requires Faithful(ttl, log, latest, entries)
    requires ordered ==> Recent(ttl, latest, lastSweep, entries) && now == latest
    ensures Faithful(ttl, log + [Put(key, value, now)], latest, kept)
    ensures key in kept && kept[key] == Entry(value, now + ttl)
    ensures ordered ==> Recent(ttl, latest, swept, kept)
    ensures ordered ==> forall k :: k in kept ==> kept[k].expires - ttl > now - 2 * ttl
  {
    kept, swept := entries, lastSweep;
    if lastSweep.None? || now - lastSweep.value >= ttl {
      SweepFaithful(ttl, log, latest, entries, now);
      kept, swept := Swept(entries, now), Some(now);
    }
    PutFaithful(ttl, log, latest, kept, key, value, now);
    hide Faithful;
    kept := kept[key := Entry(value, now + ttl)];
  }

  // ---------------------------------------------------------------- the cache

  class Cache {
    const ttl: Time
    var entries: map<Text, Entry>
    var lastSweep: Option<Time>   // None is Go's zero time, further back than any ttl
    ghost var log: seq<Op>
    ghost var latest: Time        // the latest time any call was given
    ghost var ordered: bool       // no call was given an earlier time than one before it

    ghost predicate Valid()
      reads this
    {
      && ttl > 0
      && Faithful(ttl, log, latest, entries)
      && (ordered ==> Recent(ttl, latest, lastSweep, entries))
    }

    constructor (ttl: Time, ghost epoch: Time)
      requires ttl > 0
      ensures Valid() && this.ttl == ttl && log == [] && latest == epoch && ordered
    {
      this.ttl := ttl;
      entries, lastSweep := map[], None;
      log, latest, ordered := [], epoch, true;
    }

    /** cache.get: what the history says, unless the clock ran backwards and the entry is gone already. */
    method Get(key: Text, now: Time) returns (r: Option<Answer>)
      requires Valid()
      modifies this
      ensures Valid() && log == old(log) && ordered == (old(ordered) && now >= old(latest))
      ensures latest == if now > old(latest) then now else old(latest)
      ensures r.Some? ==> r == Answered(log, ttl, key, now)
      ensures now >= old(latest) ==> r == Answered(log, ttl, key, now)
    {
      ordered := ordered && now >= latest;
      latest := if now > latest then now else latest;
      if key == [] {
        return None;
      }
      if key !in entries {
        return None;
      }
      var e := entries[key];
      if now >= e.expires {
        entries := entries - {key};
        return None;
      }
      return Some(e.value);
    }

    /** cache.put: an empty key stores nothing; else the put is remembered, and nothing older than two ttls is. */
    method Put(key: Text, value: Answer, now: Time)
      requires Valid()
      modifies this
      ensures Valid() && ordered == (old(ordered) && now >= old(latest))
      ensures latest == if now > old(latest) then now else old(latest)
      ensures log == if key == [] then old(log) else old(log) + [Op.Put(key, value, now)]
      ensures key != [] ==> key in entries && entries[key] == Entry(value, now + ttl)
      ensures key != [] && ordered ==> forall k :: k in entries ==> entries[k].expires - ttl > now - 2 * ttl
    {
      ordered := ordered && now >= latest;
      latest := if now > latest then now else latest;
      if key == [] {
        return;
      }
      entries, lastSweep := Store(ttl, entries, lastSweep, key, value, now, log, latest, ordered);
      log := log + [Op.Put(key, value, now)];
    }

    /** cache.flush. */
    method Flush()
      requires Valid()
      modifies this
      ensures Valid() && log == old(log) + [Op.Flush] && latest == old(latest) && ordered == old(ordered)
      ensures entries == map[] && lastSweep == old(lastSweep)
    {
      entries := map[];
      log := log + [Op.Flush];
    }
  }
}
