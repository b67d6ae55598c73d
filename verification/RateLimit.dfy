/**
 * internal/server/ratelimit.go: fixed windows, and what they bound over a whole connection.
 *
 * Both of the limiter's counters are one thing: a window that opens with the first mark, counts the
 * marks that follow, and gives way to a new one at the first mark `per` later. A client event marks
 * its namespace's window, a refusal marks the connection's violation window.
 */
module RateLimit {
  import opened Bytes

  /** Nanoseconds. */
  type Time = int

  datatype Window = Window(start: Time, count: nat)

  /** One more mark at `now`. */
  function Mark(w: Option<Window>, per: Time, now: Time): Window {
    if w.None? || now - w.value.start >= per then Window(now, 1) else Window(w.value.start, w.value.count + 1)
  }

  /** The window after marks at these times. */
  function After(times: seq<Time>, per: Time): (w: Option<Window>)
    ensures w.None? <==> times == []
  {
    if times == [] then None
    else Some(Mark(After(times[..|times| - 1], per), per, times[|times| - 1]))
  }

  /** Which mark of its window the last one is, from 1. */
  function Rank(times: seq<Time>, per: Time): nat
    requires times != []
  {
    After(times, per).value.count
  }

  predicate Ascending(times: seq<Time>) {
    forall i, j :: 0 <= i < j < |times| ==> times[i] <= times[j]
  }

  function Hit(t: Time, lo: Time, hi: Time): nat { if lo <= t < hi then 1 else 0 }

  /** How many marks in [lo, hi) were among the first `limit` of their window. */
  function Counted(times: seq<Time>, per: Time, limit: nat, lo: Time, hi: Time): nat {
    if times == [] then 0
    else
      var t := times[|times| - 1];
      Counted(times[..|times| - 1], per, limit, lo, hi) + if Rank(times, per) <= limit then Hit(t, lo, hi) else 0
  }

  /** How many marks in [lo, hi). */
  function All(times: seq<Time>, lo: Time, hi: Time): nat {
    if times == [] then 0 else All(times[..|times| - 1], lo, hi) + Hit(times[|times| - 1], lo, hi)
  }

  lemma {:induction false} CountedSplits(times: seq<Time>, per: Time, limit: nat, lo: Time, mid: Time, hi: Time)
    requires lo <= mid <= hi
    ensures Counted(times, per, limit, lo, hi)
         == Counted(times, per, limit, lo, mid) + Counted(times, per, limit, mid, hi)
  {
    if times != [] {
      CountedSplits(times[..|times| - 1], per, limit, lo, mid, hi);
    }
  }

  lemma {:induction false} CountedGrows(
    times: seq<Time>, per: Time, limit: nat, lo: Time, hi: Time, lo': Time, hi': Time)
    requires lo' <= lo && hi <= hi'
    ensures Counted(times, per, limit, lo, hi) <= Counted(times, per, limit, lo', hi')
  {
    if times != [] {
      CountedGrows(times[..|times| - 1], per, limit, lo, hi, lo', hi');
    }
  }

  /** No mark is counted past the last one, or in an empty span. */
  lemma {:induction false} CountedNone(times: seq<Time>, per: Time, limit: nat, lo: Time, hi: Time)
    requires forall i :: 0 <= i < |times| ==> !(lo <= times[i] < hi)
    ensures Counted(times, per, limit, lo, hi) == 0
  {
    if times != [] {
      CountedNone(times[..|times| - 1], per, limit, lo, hi);
    }
  }

  /** Every mark so far came before the current window ends, and not after the last one. */
  lemma {:induction false} BeforeEnd(times: seq<Time>, per: Time)
    requires per > 0 && Ascending(times) && times != []
    ensures var w := After(times, per).value;
            w.start <= times[|times| - 1] < w.start + per && w.count > 0
  {
    if |times| > 1 {
      BeforeEnd(times[..|times| - 1], per);
    }
  }

  /** The current window has counted each mark since its start; the span before it, at most one window's worth. */
  lemma {:induction false} CurrentWindow(times: seq<Time>, per: Time, limit: nat)
    requires per > 0 && Ascending(times) && times != []
    ensures var w := After(times, per).value;
            && Counted(times, per, limit, w.start, w.start + per) == (if w.count <= limit then w.count else limit)
            && Counted(times, per, limit, w.start - per, w.start) <= limit
  {
    var before, now := times[..|times| - 1], times[|times| - 1];
    var w := After(times, per).value;
    if before == [] {
    } else {
      CurrentWindow(before, per, limit);
      BeforeEnd(before, per);
      var v := After(before, per).value;
      if now - v.start >= per {
        CountedNone(before, per, limit, now, now + per);
        if now - per >= v.start + per {
          CountedNone(before, per, limit, now - per, now);
        } else {
          CountedNone(before, per, limit, v.start + per, now);
          CountedSplits(before, per, limit, now - per, v.start + per, now);
          CountedGrows(before, per, limit, now - per, v.start + per, v.start, v.start + per);
        }
      }
    }
  }

  /** Any span of length `per` holds at most two windows' worth. */
  lemma {:induction false} SlidingBound(times: seq<Time>, per: Time, limit: nat, lo: Time)
    requires per > 0 && Ascending(times)
    ensures Counted(times, per, limit, lo, lo + per) <= 2 * limit
  {
    if times != [] {
      var before := times[..|times| - 1];
      var w := After(times, per).value;
      SlidingBound(before, per, limit, lo);
      CurrentWindow(times, per, limit);
      BeforeEnd(times, per);
      if lo + per <= w.start {
      } else if lo >= w.start + per {
        CountedNone(times, per, limit, lo, lo + per);
      } else if lo >= w.start {
        CountedNone(times, per, limit, w.start + per, lo + per);
        CountedSplits(times, per, limit, lo, w.start + per, lo + per);
        CountedGrows(times, per, limit, lo, w.start + per, w.start, w.start + per);
      } else {
        CountedSplits(times, per, limit, lo, w.start, lo + per);
        CountedGrows(times, per, limit, lo, w.start, w.start - per, w.start);
        CountedGrows(times, per, limit, w.start, lo + per, w.start, w.start + per);
      }
    }
  }

  /** A last mark of rank n has n marks, itself included, less than `per` before it. */
  lemma {:induction false} RankedMarks(times: seq<Time>, per: Time)
    requires per > 0 && Ascending(times) && times != []
    ensures Rank(times, per) <= All(times, After(times, per).value.start, times[|times| - 1] + 1)
    ensures times[|times| - 1] - per < After(times, per).value.start
  {
    BeforeEnd(times, per);
    var before, now := times[..|times| - 1], times[|times| - 1];
    if before != [] {
      RankedMarks(before, per);
      BeforeEnd(before, per);
      AllGrows(before, After(before, per).value.start, before[|before| - 1] + 1, now + 1);
    }
  }

  lemma {:induction false} AllGrows(times: seq<Time>, lo: Time, hi: Time, hi': Time)
    requires hi <= hi'
    ensures All(times, lo, hi) <= All(times, lo, hi')
  {
    if times != [] {
      AllGrows(times[..|times| - 1], lo, hi, hi');
    }
  }

  lemma {:induction false} AllShrinks(times: seq<Time>, lo: Time, lo': Time, hi: Time)
    requires lo' <= lo
    ensures All(times, lo, hi) <= All(times, lo', hi)
  {
    if times != [] {
      AllShrinks(times[..|times| - 1], lo, lo', hi);
    }
  }

  // ---------------------------------------------------------------- the limiter

  const SECOND: Time := 1_000_000_000
  const MAX_VIOLATIONS: nat := 10
  const VIOLATION_WINDOW: Time := 60 * SECOND

  datatype Rate = Rate(count: nat, per: Time)

  /** Each namespace's window is the window after its events. */
  ghost predicate WindowsMatch(rates: map<Text, Rate>, windows: map<Text, Window>, events: map<Text, seq<Time>>) {
    && (forall ns :: ns in rates ==> rates[ns].count >= 1 && rates[ns].per > 0)
    && windows.Keys == events.Keys <= rates.Keys
    && (forall ns :: ns in windows ==> After(events[ns], rates[ns].per) == Some(windows[ns]))
  }

  ghost predicate RefusalsMatch(violations: nat, since: Time, refusals: seq<Time>) {
    if refusals == [] then violations == 0
    else violations > 0 && After(refusals, VIOLATION_WINDOW) == Some(Window(since, violations))
  }

  ghost function Past(events: map<Text, seq<Time>>, ns: Text): seq<Time> {
    if ns in events then events[ns] else []
  }

  /** allow's first half: open a window, replace an outlived one, and count. */
  method CountEvent(
    rates: map<Text, Rate>, windows: map<Text, Window>, ns: Text, now: Time, ghost events: map<Text, seq<Time>>)
    returns (w: Window)
    requires WindowsMatch(rates, windows, events) && ns in rates
    ensures After(Past(events, ns) + [now], rates[ns].per) == Some(w)
    ensures WindowsMatch(rates, windows[ns := w], events[ns := Past(events, ns) + [now]])
  {
    ghost var past := Past(events, ns);
    assert (past + [now])[..|past|] == past;
    w := if ns in windows then windows[ns] else Window(now, 0);
    if now - w.start >= rates[ns].per {
      w := Window(now, 0);
    }
    w := w.(count := w.count + 1);
  }

  /** allow's second half: a refusal, in the violation window it falls in. */
  method CountRefusal(violations: nat, since: Time, now: Time, ghost refusals: seq<Time>) returns (v: nat, from: Time)
    requires RefusalsMatch(violations, since, refusals)
    ensures RefusalsMatch(v, from, refusals + [now]) && v == Rank(refusals + [now], VIOLATION_WINDOW)
  {
    assert (refusals + [now])[..|refusals|] == refusals;
    v, from := violations, since;
    if v == 0 || now - from >= VIOLATION_WINDOW {
      from := now;
      v := 0;
    }
    v := v + 1;
  }

  class Limiter {
    var windows: map<Text, Window>
    var violations: nat
    var since: Time
    const rates: map<Text, Rate>           // parseRates: one per namespace
    ghost var events: map<Text, seq<Time>> // every call of Allow, by namespace
    ghost var refusals: seq<Time>

    ghost predicate Valid()
      reads this
    {
      WindowsMatch(rates, windows, events) && RefusalsMatch(violations, since, refusals)
    }

    constructor (rates: map<Text, Rate>)
      requires forall ns :: ns in rates ==> rates[ns].count >= 1 && rates[ns].per > 0
      ensures Valid() && this.rates == rates && events == map[] && refusals == []
    {
      this.rates := rates;
      windows, violations, since := map[], 0, 0;
      events, refusals := map[], [];
    }

    /** limiter.allow. */
    method Allow(ns: Text, now: Time) returns (allowed: bool, abusive: bool)
      requires Valid() && ns in rates
      modifies this
      ensures Valid()
      ensures events == old(events)[ns := Past(old(events), ns) + [now]]
      ensures refusals == if allowed then old(refusals) else old(refusals) + [now]
      ensures allowed <==> Rank(events[ns], rates[ns].per) <= rates[ns].count
      ensures abusive <==> !allowed && Rank(refusals, VIOLATION_WINDOW) >= MAX_VIOLATIONS
    {
      hide WindowsMatch, RefusalsMatch;
      var w := CountEvent(rates, windows, ns, now, events);
      windows, events := windows[ns := w], events[ns := Past(events, ns) + [now]];
      if w.count <= rates[ns].count {
        return true, false;
      }
      violations, since := CountRefusal(violations, since, now, refusals);
      refusals := refusals + [now];
      return false, violations >= MAX_VIOLATIONS;
    }
  }

  /**
   * Under a clock that does not run backwards, the events of one namespace that Allow lets through:
   * at most 2 * count in any half-open span of length `per`, at most count in one window.
   */
  lemma AllowedBound(times: seq<Time>, rate: Rate, lo: Time)
    requires rate.per > 0 && Ascending(times)
    ensures Counted(times, rate.per, rate.count, lo, lo + rate.per) <= 2 * rate.count
    ensures times != [] ==>
              var w := After(times, rate.per).value;
              Counted(times, rate.per, rate.count, w.start, w.start + rate.per) <= rate.count
  {
    SlidingBound(times, rate.per, rate.count, lo);
    if times != [] {
      CurrentWindow(times, rate.per, rate.count);
    }
  }

  /** An abusive verdict means at least 10 refusals in the 60 seconds up to and including this one. */
  lemma AbusiveMeans(refusals: seq<Time>)
    requires Ascending(refusals) && refusals != [] && Rank(refusals, VIOLATION_WINDOW) >= MAX_VIOLATIONS
    ensures var now := refusals[|refusals| - 1];
            All(refusals, now - VIOLATION_WINDOW + 1, now + 1) >= MAX_VIOLATIONS
  {
    var now := refusals[|refusals| - 1];
    RankedMarks(refusals, VIOLATION_WINDOW);
    AllShrinks(refusals, After(refusals, VIOLATION_WINDOW).value.start, now - VIOLATION_WINDOW + 1, now + 1);
  }

  /** Every prefix of the refusals ended below the threshold: no refusal was answered with abusive. */
  predicate NeverAbusive(refusals: seq<Time>) {
    refusals != [] ==>
      Rank(refusals, VIOLATION_WINDOW) < MAX_VIOLATIONS && NeverAbusive(refusals[..|refusals| - 1])
  }

  /** A connection never found abusive was refused at most 18 times in any 60 seconds. */
  lemma {:induction false} ToleratedRefusals(refusals: seq<Time>, lo: Time)
    requires Ascending(refusals) && NeverAbusive(refusals)
    ensures All(refusals, lo, lo + VIOLATION_WINDOW) <= 2 * (MAX_VIOLATIONS - 1)
  {
    SlidingBound(refusals, VIOLATION_WINDOW, MAX_VIOLATIONS - 1, lo);
    AllAreCounted(refusals, lo, lo + VIOLATION_WINDOW);
  }

  lemma {:induction false} AllAreCounted(refusals: seq<Time>, lo: Time, hi: Time)
    requires NeverAbusive(refusals)
    ensures All(refusals, lo, hi) == Counted(refusals, VIOLATION_WINDOW, MAX_VIOLATIONS - 1, lo, hi)
  {
    if refusals != [] {
      AllAreCounted(refusals[..|refusals| - 1], lo, hi);
    }
  }
}
