/** internal/bus/redis.go: turning one subscription set into another with sorted, batched commands. */
module RedisDiff {
  import opened Bytes

  // ---------------------------------------------------------------- the order Go sorts strings by

  predicate Less(a: Text, b: Text) {
    b != [] && (a == [] || a[0] < b[0] || (a[0] == b[0] && Less(a[1..], b[1..])))
  }

  lemma {:induction false} LessTransitive(a: Text, b: Text, c: Text)
    requires Less(a, b) && Less(b, c)
    ensures Less(a, c)
  {
    if a != [] && a[0] == b[0] && b[0] == c[0] {
      LessTransitive(a[1..], b[1..], c[1..]);
    }
  }

  /** Exactly one of a < b, a == b and b < a. */
  lemma {:induction false} LessTotal(a: Text, b: Text)
    ensures Less(a, b) || a == b || Less(b, a)
    ensures !(Less(a, b) && Less(b, a)) && !Less(a, a)
  {
    if a != [] {
      LessTotal(a[1..], a[1..]);
      if b != [] {
        LessTotal(a[1..], b[1..]);
        if a[0] == b[0] && a[1..] == b[1..] {
          assert a == [a[0]] + a[1..] && b == [b[0]] + b[1..];
        }
      }
    }
  }

  predicate Sorted(s: seq<Text>) {
    forall i, j :: 0 <= i < j < |s| ==> Less(s[i], s[j])
  }

  function Elems(s: seq<Text>): set<Text> {
    set x | x in s
  }

  lemma NoElems(s: seq<Text>)
    ensures s == [] <==> Elems(s) == {}
  {
    if s != [] {
      assert s[0] in Elems(s);
    }
  }

  /** A sorted list is fixed by its elements, so the order a map was walked in cannot show. */
  lemma {:induction false} SortedIsUnique(a: seq<Text>, b: seq<Text>)
    requires Sorted(a) && Sorted(b) && Elems(a) == Elems(b)
    ensures a == b
  {
    if a == [] {
      NoElems(a);
      NoElems(b);
    } else {
      NoElems(b);
      assert a[0] in Elems(a);
      assert b != [] && b[0] in Elems(a);
      FirstIsLeast(a, b[0]);
      FirstIsLeast(b, a[0]);
      LessTotal(a[0], b[0]);
      TailElems(a);
      TailElems(b);
      SortedIsUnique(a[1..], b[1..]);
      assert a == [a[0]] + a[1..] && b == [b[0]] + b[1..];
    }
  }

  lemma FirstIsLeast(a: seq<Text>, x: Text)
    requires Sorted(a) && x in a
    ensures x == a[0] || Less(a[0], x)
  {}

  lemma TailElems(a: seq<Text>)
    requires Sorted(a) && a != []
    ensures Elems(a[1..]) == Elems(a) - {a[0]}
  {
    forall i | 1 <= i < |a| ensures a[i] != a[0] {
      LessTotal(a[0], a[i]);
    }
    assert a == [a[0]] + a[1..];
  }

  // ---------------------------------------------------------------- diff

  /** Adds `x`, which is not there yet, where it belongs. */
  method InsertSorted(s: seq<Text>, x: Text) returns (out: seq<Text>)
    requires Sorted(s) && x !in s
    ensures Sorted(out) && Elems(out) == Elems(s) + {x} && |out| == |s| + 1
  {
    var i := 0;
    while i < |s| && Less(s[i], x)
      invariant 0 <= i <= |s|
      invariant forall j :: 0 <= j < i ==> Less(s[j], x)
    {
      i := i + 1;
    }
    forall j | i <= j < |s| ensures Less(x, s[j]) {
      assert s[i] in s;
      LessTotal(x, s[i]);
      if j > i {
        LessTransitive(x, s[i], s[j]);
      }
    }
    out := s[..i] + [x] + s[i..];
    assert s == s[..i] + s[i..];
  }

  /** What is in `a` and not in `b`, sorted. */
  method Difference(a: set<Text>, b: set<Text>) returns (out: seq<Text>)
    ensures Sorted(out) && Elems(out) == a - b
  {
    out := [];
    var rest := a;
    while rest != {}
      invariant rest <= a
      invariant Sorted(out) && Elems(out) == (a - rest) - b
      decreases |rest|
    {
      var ch :| ch in rest;
      rest := rest - {ch};
      if ch !in b {
        assert ch !in Elems(out);
        out := InsertSorted(out, ch);
      }
    }
  }

  /** diff: what to subscribe and what to unsubscribe, each sorted and without duplicates. */
  method Diff(current: set<Text>, desired: set<Text>) returns (add: seq<Text>, remove: seq<Text>)
    ensures Sorted(add) && Elems(add) == desired - current
    ensures Sorted(remove) && Elems(remove) == current - desired
  {
    add := Difference(desired, current);
    remove := Difference(current, desired);
  }

  // ---------------------------------------------------------------- chunk

  ghost function Concat(parts: seq<seq<Text>>): seq<Text> {
    if parts == [] then [] else Concat(parts[..|parts| - 1]) + parts[|parts| - 1]
  }

  /** All pieces full but the last, and none empty. */
  predicate WellCut(parts: seq<seq<Text>>, size: nat) {
    && (forall i :: 0 <= i < |parts| ==> 0 < |parts[i]| <= size)
    && (forall i :: 0 <= i < |parts| - 1 ==> |parts[i]| == size)
  }

  /** chunk. */
  method Chunk(channels: seq<Text>, size: nat) returns (out: seq<seq<Text>>)
    requires size > 0
    ensures Concat(out) == channels && WellCut(out, size)
  {
    out := [];
    var i := 0;
    while i < |channels|
      invariant 0 <= i
      invariant i <= |channels| ==> Concat(out) == channels[..i]
      invariant i > |channels| ==> Concat(out) == channels
      invariant WellCut(out, size)
      invariant i < |channels| ==> forall k :: 0 <= k < |out| ==> |out[k]| == size
    {
      var hi := if i + size < |channels| then i + size else |channels|;
      var more := out + [channels[i..hi]];
      assert more[..|more| - 1] == out;
      assert channels[..hi] == channels[..i] + channels[i..hi];
      assert hi == |channels| ==> channels[..hi] == channels;
      out := more;
      i := i + size;
    }
    assert i == |channels| ==> channels[..i] == channels;
  }

  /** A well-cut list has ceil(n / size) pieces. */
  lemma {:induction false} PieceCount(parts: seq<seq<Text>>, size: nat)
    requires size > 0 && WellCut(parts, size)
    ensures |parts| == (|Concat(parts)| + size - 1) / size
  {
    if parts != [] {
      FullPieces(parts[..|parts| - 1], size);
      var k, last := |parts| - 1, |parts[|parts| - 1]|;
      assert |Concat(parts)| == k * size + last;
      CeilOf(k, last, size);
    }
  }

  lemma {:induction false} FullPieces(parts: seq<seq<Text>>, size: nat)
    requires forall i :: 0 <= i < |parts| ==> |parts[i]| == size
    ensures |Concat(parts)| == |parts| * size
  {
    if parts != [] {
      FullPieces(parts[..|parts| - 1], size);
    }
  }

  lemma CeilOf(k: nat, last: nat, size: nat)
    requires 0 < last <= size
    ensures (k * size + last + size - 1) / size == k + 1
  {
    var r := last - 1;
    assert k * size + last + size - 1 == (k + 1) * size + r && 0 <= r < size by {
      assert (k + 1) * size == k * size + size;
    }
    DivModUnique((k + 1) * size + r, k + 1, r, size);
  }

  lemma DivModUnique(n: nat, q: nat, r: nat, size: nat)
    requires 0 <= r < size && n == q * size + r
    ensures n / size == q
  {
    var p := n / size;
    assert n == p * size + n % size;
    assert (q - p) * size == n % size - r;
    assert q - p >= 1 ==> (q - p) * size >= size;
    assert p - q >= 1 ==> (p - q) * size >= size;
  }

  // ---------------------------------------------------------------- issuing the commands

  /** One SUBSCRIBE or UNSUBSCRIBE. */
  datatype Command = Command(hold: bool, part: seq<Text>)

  /** What the server holds after a command. */
  function Issue(held: set<Text>, c: Command): set<Text> {
    if c.hold then held + Elems(c.part) else held - Elems(c.part)
  }

  function IssueAll(held: set<Text>, cs: seq<Command>): set<Text> {
    if cs == [] then held else Issue(IssueAll(held, cs[..|cs| - 1]), cs[|cs| - 1])
  }

  function Commands(hold: bool, parts: seq<seq<Text>>): seq<Command> {
    seq(|parts|, i requires 0 <= i < |parts| => Command(hold, parts[i]))
  }

  lemma {:induction false} IssueParts(held: set<Text>, before: seq<Command>, hold: bool, parts: seq<seq<Text>>)
    ensures IssueAll(held, before + Commands(hold, parts))
         == (if hold then IssueAll(held, before) + Elems(Concat(parts))
             else IssueAll(held, before) - Elems(Concat(parts)))
  {
    var cs := before + Commands(hold, parts);
    if parts == [] {
      assert cs == before;
    } else {
      var n := |parts| - 1;
      IssueParts(held, before, hold, parts[..n]);
      assert cs[..|cs| - 1] == before + Commands(hold, parts[..n]);
      assert cs[|cs| - 1] == Command(hold, parts[n]);
    }
  }

  /**
   * What apply may send: commands of at most `size` names that end at `desired`, removals first,
   * each removing only what is held and unwanted and adding only what is wanted and not held, and
   * no name in two of them.
   */
  ghost predicate Plan(current: set<Text>, desired: set<Text>, size: nat, plan: seq<Command>) {
    && IssueAll(current, plan) == desired
    && (forall i :: 0 <= i < |plan| ==> 0 < |plan[i].part| <= size)
    && (forall i, j :: 0 <= i < j < |plan| ==> plan[i].hold ==> plan[j].hold)
    && (forall i :: 0 <= i < |plan| ==>
          Elems(plan[i].part) <= if plan[i].hold then desired - current else current - desired)
    && (forall i, j :: 0 <= i < j < |plan| ==> Elems(plan[i].part) !! Elems(plan[j].part))
  }

  /** apply, as far as its commands: the diff, cut into pieces, removals before additions. */
  method PlanSync(current: set<Text>, desired: set<Text>, size: nat) returns (plan: seq<Command>)
    requires size > 0
    ensures Plan(current, desired, size, plan)
    ensures plan == [] <==> current == desired
  {
    var add, remove := Diff(current, desired);
    NoElems(add);
    NoElems(remove);
    if |add| == 0 && |remove| == 0 {
      return [];
    }
    var drops := Chunk(remove, size);
    var takes := Chunk(add, size);
    plan := Commands(false, drops) + Commands(true, takes);
    CommandsPlan(current, desired, size, drops, takes);
    assert drops == [] && takes == [] ==> remove == [] && add == [];
  }

  /** Removing what is too much and then adding what is missing ends at `desired`. */
  lemma CommandsEnd(current: set<Text>, desired: set<Text>, drops: seq<seq<Text>>, takes: seq<seq<Text>>)
    requires Elems(Concat(drops)) == current - desired && Elems(Concat(takes)) == desired - current
    ensures IssueAll(current, Commands(false, drops) + Commands(true, takes)) == desired
  {
    hide Elems, Concat, Commands;
    assert [] + Commands(false, drops) == Commands(false, drops);
    IssueParts(current, [], false, drops);
    IssueParts(current, Commands(false, drops), true, takes);
    assert current - (current - desired) + (desired - current) == desired;
  }

  /** Each command is a removal of one of `drops`, or behind all of those an addition of one of `takes`. */
  lemma CommandAt(drops: seq<seq<Text>>, takes: seq<seq<Text>>, i: nat)
    requires i < |drops| + |takes|
    ensures (Commands(false, drops) + Commands(true, takes))[i]
         == if i < |drops| then Command(false, drops[i]) else Command(true, takes[i - |drops|])
  {}

  lemma CommandsPlan(
    current: set<Text>, desired: set<Text>, size: nat, drops: seq<seq<Text>>, takes: seq<seq<Text>>)
    requires WellCut(drops, size) && Sorted(Concat(drops)) && Elems(Concat(drops)) == current - desired
    requires WellCut(takes, size) && Sorted(Concat(takes)) && Elems(Concat(takes)) == desired - current
    ensures Plan(current, desired, size, Commands(false, drops) + Commands(true, takes))
  {
    hide Elems, Concat, Commands, IssueAll, Sorted;
    var plan := Commands(false, drops) + Commands(true, takes);
    assert |plan| == |drops| + |takes| by {
      CommandCount(false, drops);
      CommandCount(true, takes);
    }
    CommandsEnd(current, desired, drops, takes);
    forall i | 0 <= i < |plan|
      ensures plan[i].hold == (i >= |drops|) && 0 < |plan[i].part| <= size
      ensures Elems(plan[i].part) <= if plan[i].hold then desired - current else current - desired
    {
      CommandAt(drops, takes, i);
      if i < |drops| {
        PartOf(drops, i);
      } else {
        PartOf(takes, i - |drops|);
      }
    }
    forall i, j | 0 <= i < j < |plan| ensures Elems(plan[i].part) !! Elems(plan[j].part) {
      CommandAt(drops, takes, i);
      CommandAt(drops, takes, j);
      if j < |drops| {
        PartsDisjoint(drops, i, j);
      } else if i >= |drops| {
        PartsDisjoint(takes, i - |drops|, j - |drops|);
      }
    }
  }

  lemma SplitSorted(a: seq<Text>, b: seq<Text>)
    requires Sorted(a + b)
    ensures Sorted(a) && Elems(a) !! Elems(b)
  {
    assert forall i :: 0 <= i < |a| ==> (a + b)[i] == a[i];
    forall i, j | 0 <= i < |a| && 0 <= j < |b| ensures a[i] != b[j] {
      assert (a + b)[|a| + j] == b[j];
      LessTotal(a[i], b[j]);
    }
  }

  /** The pieces of a list without duplicates share nothing. */
  lemma {:induction false} PartsDisjoint(parts: seq<seq<Text>>, i: nat, j: nat)
    requires Sorted(Concat(parts)) && i < j < |parts|
    ensures Elems(parts[i]) !! Elems(parts[j])
  {
    var before := parts[..|parts| - 1];
    SplitSorted(Concat(before), parts[|parts| - 1]);
    if j < |before| {
      PartsDisjoint(before, i, j);
    } else {
      PartOf(before, i);
    }
  }

  /** A name of a command still to come is held or not as before the sync. */
  lemma {:induction false} NotTouchedYet(
    current: set<Text>, desired: set<Text>, size: nat, plan: seq<Command>, n: nat, i: nat, x: Text)
    requires Plan(current, desired, size, plan) && n <= i < |plan| && x in plan[i].part
    ensures x in IssueAll(current, plan[..n]) <==> x in current
  {
    if n > 0 {
      NotTouchedYet(current, desired, size, plan, n - 1, i, x);
      assert plan[..n][..n - 1] == plan[..n - 1] && plan[..n][n - 1] == plan[n - 1];
      assert x in Elems(plan[i].part) && x !in Elems(plan[n - 1].part);
    }
  }

  /** Every command of a sync changes what the server holds. */
  lemma EachCommandBites(current: set<Text>, desired: set<Text>, size: nat, plan: seq<Command>, n: nat)
    requires Plan(current, desired, size, plan) && n < |plan|
    ensures Issue(IssueAll(current, plan[..n]), plan[n]) != IssueAll(current, plan[..n])
  {
    hide IssueAll;
    var x := plan[n].part[0];
    NotTouchedYet(current, desired, size, plan, n, n, x);
    assert x in Elems(plan[n].part);
  }

  lemma CommandCount(hold: bool, parts: seq<seq<Text>>)
    ensures |Commands(hold, parts)| == |parts|
  {}

  lemma {:induction false} PartOf(parts: seq<seq<Text>>, i: nat)
    requires i < |parts|
    ensures Elems(parts[i]) <= Elems(Concat(parts))
  {
    if i < |parts| - 1 {
      PartOf(parts[..|parts| - 1], i);
    }
  }

  /**
   * Wherever a sync stops between two commands, the server holds nothing that was neither held nor
   * wanted, and has lost nothing that was both.
   */
  lemma {:induction false} HalfwayIsHarmless(
    current: set<Text>, desired: set<Text>, size: nat, plan: seq<Command>, n: nat)
    requires Plan(current, desired, size, plan) && n <= |plan|
    ensures current * desired <= IssueAll(current, plan[..n]) <= current + desired
  {
    if n > 0 {
      HalfwayIsHarmless(current, desired, size, plan, n - 1);
      assert plan[..n][..n - 1] == plan[..n - 1] && plan[..n][n - 1] == plan[n - 1];
    }
  }
}
