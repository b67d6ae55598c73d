/**
 * internal/glob: grants, what they mean, and the compiled matcher.
 *
 * `Covers` is the meaning the documentation gives a grant; everything below it is the
 * compiler and the greedy matcher, which are proved to decide exactly that meaning.
 */
module Glob {
  import opened Bytes

  // ---------------------------------------------------------------- meaning

  function Stars(p: Text): nat {
    if p == [] then 0 else (if p[0] == STAR then 1 else 0) + Stars(p[1..])
  }

  /** The grant `p` with its i-th star replaced by `fills[i]`. */
  function Fill(p: Text, fills: seq<Text>): Text
    requires |fills| == Stars(p)
  {
    if p == [] then []
    else if p[0] == STAR then fills[0] + Fill(p[1..], fills[1..])
    else [p[0]] + Fill(p[1..], fills)
  }

  /** `s` is `p` with each `*` replaced by some string. */
  ghost predicate Covers(p: Text, s: Text) {
    exists fills: seq<Text> :: |fills| == Stars(p) && Fill(p, fills) == s
  }

  /** A grant list covers what any of its grants covers. */
  ghost predicate CoveredBy(grants: seq<Text>, s: Text) {
    exists i :: 0 <= i < |grants| && Covers(grants[i], s)
  }

  // ---------------------------------------------------------------- segments

  /** strings.Split(p, "*"). */
  function Split(p: Text): (segs: seq<Text>)
    ensures |segs| == Stars(p) + 1
    ensures Weight(segs) <= |p|
  {
    if p == [] then [[]]
    else
      var rest := Split(p[1..]);
      if p[0] == STAR then [[]] + rest
      else
        WeightTail(rest);
        var segs := [[p[0]] + rest[0]] + rest[1..];
        assert segs[1..] == rest[1..];
        segs
  }

  function Weight(segs: seq<Text>): nat {
    if segs == [] then 0 else |segs[0]| + Weight(segs[1..])
  }

  lemma WeightTail(segs: seq<Text>)
    requires segs != []
    ensures Weight(segs) == |segs[0]| + Weight(segs[1..])
  {}

  lemma {:induction false} WeightAppend(a: seq<Text>, b: seq<Text>)
    ensures Weight(a + b) == Weight(a) + Weight(b)
  {
    if a == [] {
      assert a + b == b;
    } else {
      assert (a + b)[1..] == a[1..] + b;
      WeightAppend(a[1..], b);
    }
  }

  /** The first segment, then each later segment after an arbitrary gap, and nothing left over. */
  ghost predicate SegCovers(segs: seq<Text>, s: Text)
    requires segs != []
    decreases |segs|, 0
  {
    if |segs| == 1 then s == segs[0]
    else segs[0] <= s && Floats(segs[1..], s[|segs[0]|..])
  }

  /** As SegCovers, after a leading gap. */
  ghost predicate Floats(segs: seq<Text>, s: Text)
    requires segs != []
    decreases |segs|, 1
  {
    exists k :: 0 <= k <= |s| && SegCovers(segs, s[k..])
  }

  /** Replacing stars and leaving gaps between the star-separated segments are the same thing. */
  lemma CoversIsSegCovers(p: Text, s: Text)
    ensures Covers(p, s) <==> SegCovers(Split(p), s)
  {
    if Covers(p, s) {
      var fills: seq<Text> :| |fills| == Stars(p) && Fill(p, fills) == s;
      FillSegCovers(p, fills);
    }
    if SegCovers(Split(p), s) {
      var fills := SegCoversFill(p, s);
    }
  }

  lemma {:induction false} FillSegCovers(p: Text, fills: seq<Text>)
    requires |fills| == Stars(p)
    ensures SegCovers(Split(p), Fill(p, fills))
  {
    var segs, s := Split(p), Fill(p, fills);
    if p == [] {
    } else if p[0] == STAR {
      FillSegCovers(p[1..], fills[1..]);
      assert segs[1..] == Split(p[1..]);
      assert s[0..] == s && s[|fills[0]|..] == Fill(p[1..], fills[1..]);
    } else {
      FillSegCovers(p[1..], fills);
      PrependByte(p[0], Split(p[1..]), Fill(p[1..], fills));
    }
  }

  /** A byte in front of the first segment. */
  lemma PrependByte(b: byte, segs: seq<Text>, s: Text)
    requires segs != []
    ensures SegCovers([[b] + segs[0]] + segs[1..], [b] + s) <==> SegCovers(segs, s)
  {
    var more := [[b] + segs[0]] + segs[1..];
    assert more[1..] == segs[1..];
    if |segs| == 1 {
      assert ([b] + s)[1..] == s && more[0][1..] == segs[0];
    } else {
      if segs[0] <= s {
        assert s == segs[0] + s[|segs[0]|..];
        assert [b] + s == more[0] + s[|segs[0]|..];
      }
      if more[0] <= [b] + s {
        assert segs[0] == more[0][1..] == ([b] + s)[..|more[0]|][1..] == s[..|segs[0]|];
        assert ([b] + s)[|more[0]|..] == s[|segs[0]|..];
      }
    }
  }

  lemma {:induction false} SegCoversFill(p: Text, s: Text) returns (fills: seq<Text>)
    requires SegCovers(Split(p), s)
    ensures |fills| == Stars(p) && Fill(p, fills) == s
  {
    var segs := Split(p);
    if p == [] {
      fills := [];
    } else if p[0] == STAR {
      var rest := Split(p[1..]);
      assert segs[1..] == rest && s[0..] == s;
      var k :| 0 <= k <= |s| && SegCovers(rest, s[k..]);
      var more := SegCoversFill(p[1..], s[k..]);
      fills := [s[..k]] + more;
      assert fills[1..] == more;
    } else {
      var rest := Split(p[1..]);
      assert segs[0][0] == p[0] && s[0] == segs[0][0];
      assert s == [p[0]] + s[1..];
      PrependByte(p[0], rest, s[1..]);
      fills := SegCoversFill(p[1..], s[1..]);
    }
  }

  /** A gap may always be made longer. */
  lemma FloatsEarlier(segs: seq<Text>, s: Text, k: nat)
    requires segs != [] && k <= |s| && Floats(segs, s[k..])
    ensures Floats(segs, s)
  {
    var j :| 0 <= j <= |s[k..]| && SegCovers(segs, s[k..][j..]);
    assert s[k..][j..] == s[k + j..];
  }

  function NonEmpty(segs: seq<Text>): seq<Text> {
    if segs == [] then []
    else if segs[0] == [] then NonEmpty(segs[1..])
    else [segs[0]] + NonEmpty(segs[1..])
  }

  lemma {:induction false} NonEmptyAppend(a: seq<Text>, seg: Text)
    ensures NonEmpty(a + [seg]) == if seg == [] then NonEmpty(a) else NonEmpty(a) + [seg]
  {
    if a == [] {
      assert a + [seg] == [seg];
    } else {
      assert (a + [seg])[1..] == a[1..] + [seg];
      NonEmptyAppend(a[1..], seg);
    }
  }

  lemma {:induction false} NonEmptyWeight(a: seq<Text>)
    ensures Weight(NonEmpty(a)) == Weight(a)
  {
    if a != [] {
      NonEmptyWeight(a[1..]);
      if a[0] != [] {
        assert NonEmpty(a)[1..] == NonEmpty(a[1..]);
      }
    }
  }

  /** `a**b` means what `a*b` means: empty middle segments may be dropped. */
  lemma {:induction false} DropEmptyFloating(mids: seq<Text>, tail: Text, s: Text)
    ensures Floats(mids + [tail], s) <==> Floats(NonEmpty(mids) + [tail], s)
    decreases |mids|
  {
    if mids != [] {
      var full, slim := mids + [tail], NonEmpty(mids) + [tail];
      assert full[1..] == mids[1..] + [tail];
      if mids[0] == [] {
        if Floats(full, s) {
          var k :| 0 <= k <= |s| && SegCovers(full, s[k..]);
          assert s[k..][0..] == s[k..];
          FloatsEarlier(full[1..], s, k);
        }
        if Floats(full[1..], s) {
          assert s[0..] == s;
          assert SegCovers(full, s[0..]);
        }
        DropEmptyFloating(mids[1..], tail, s);
      } else {
        assert slim[1..] == NonEmpty(mids[1..]) + [tail];
        forall k | 0 <= k <= |s|
          ensures SegCovers(full, s[k..]) <==> SegCovers(slim, s[k..])
        {
          if mids[0] <= s[k..] {
            DropEmptyFloating(mids[1..], tail, s[k..][|mids[0]|..]);
          }
        }
      }
    } else {
      assert NonEmpty(mids) == mids;
    }
  }

  // ---------------------------------------------------------------- compiled patterns

  datatype Kind = KNone | KLiteral | KAny | KPrefix | KSuffix | KContains | KSegments

  datatype Pattern = Pattern(kind: Kind, head: Text, tail: Text, parts: seq<Text>)

  /** The segments a compiled pattern stands for. */
  function Shape(p: Pattern): seq<Text> {
    match p.kind
    case KNone => []
    case KLiteral => [p.head]
    case KAny => [[], []]
    case KPrefix => [p.head, []]
    case KSuffix => [[], p.tail]
    case KContains => [[], p.head, []]
    case KSegments => [p.head] + p.parts + [p.tail]
  }

  /** What a compiled pattern matches; the zero pattern matches nothing. */
  ghost predicate Denotes(p: Pattern, s: Text) {
    Shape(p) != [] && SegCovers(Shape(p), s)
  }

  /** `p` is a correct and no larger compilation of the grant `text`. */
  ghost predicate Compiles(text: Text, p: Pattern) {
    && Weight(Shape(p)) <= |text|
    && forall s :: Denotes(p, s) <==> Covers(text, s)
  }

  datatype Compiled = Compiled(p: Pattern) | ReservedPrefix

  /** glob.Compile. */
  method Compile(text: Text) returns (r: Compiled)
    ensures r.ReservedPrefix? <==> Reserved(text)
    ensures r.Compiled? ==> Compiles(text, r.p)
    ensures r.Compiled? ==> (r.p.kind == KLiteral <==> STAR !in text)
    ensures r.Compiled? ==> (r.p.kind == KAny <==> text != [] && forall i :: 0 <= i < |text| ==> text[i] == STAR)
    ensures r.Compiled? ==> r.p.kind != KNone && forall i :: 0 <= i < |r.p.parts| ==> r.p.parts[i] != []
  {
    hide Compiles;
    if Reserved(text) {
      return ReservedPrefix;
    }
    StarCount(text);
    if STAR !in text {
      LiteralCompiles(text);
      return Compiled(Pattern(KLiteral, text, [], []));
    }
    if forall i :: 0 <= i < |text| ==> text[i] == STAR {
      AnyCompiles(text);
      return Compiled(Pattern(KAny, [], [], []));
    }
    var segs := Split(text);
    var head, tail := segs[0], segs[|segs| - 1];
    ghost var between := segs[1..|segs| - 1];
    var middles: seq<Text> := [];
    for i := 1 to |segs| - 1
      invariant middles == NonEmpty(segs[1..i])
      invariant forall j :: 0 <= j < |middles| ==> middles[j] != []
    {
      assert segs[1..i + 1] == segs[1..i] + [segs[i]];
      NonEmptyAppend(segs[1..i], segs[i]);
      if segs[i] != [] {
        middles := middles + [segs[i]];
      }
    }
    assert middles == NonEmpty(between);
    assert segs == [head] + between + [tail];
    SplitSomeByte(text);
    var p;
    if head == [] && tail == [] && |middles| == 1 {
      p := Pattern(KContains, middles[0], [], []);
      assert Shape(p) == [head] + middles + [tail];
    } else if head == [] && |middles| == 0 {
      p := Pattern(KSuffix, [], tail, []);
      assert Shape(p) == [head] + middles + [tail];
    } else if tail == [] && |middles| == 0 {
      p := Pattern(KPrefix, head, [], []);
      assert Shape(p) == [head] + middles + [tail];
    } else {
      p := Pattern(KSegments, head, tail, middles);
    }
    SegmentsCompile(text, head, between, tail, p);
    r := Compiled(p);
  }

  lemma LiteralCompiles(text: Text)
    requires STAR !in text
    ensures Compiles(text, Pattern(KLiteral, text, [], []))
  {
    SplitLiteral(text);
    forall s ensures Covers(text, s) <==> s == text {
      CoversIsSegCovers(text, s);
    }
  }

  lemma AnyCompiles(text: Text)
    requires text != [] && forall i :: 0 <= i < |text| ==> text[i] == STAR
    ensures Compiles(text, Pattern(KAny, [], [], []))
  {
    SplitAllStars(text);
    StarCount(text);
    var any := Pattern(KAny, [], [], []);
    assert Weight(Shape(any)) == Weight(Shape(any)[1..]) == 0;
    forall s ensures Denotes(any, s) && Covers(text, s) {
      AllStarsCover(Shape(any), s);
      AllStarsCover(Split(text), s);
      CoversIsSegCovers(text, s);
    }
  }

  lemma SegmentsCompile(text: Text, head: Text, between: seq<Text>, tail: Text, p: Pattern)
    requires Split(text) == [head] + between + [tail]
    requires Shape(p) == [head] + NonEmpty(between) + [tail]
    ensures Compiles(text, p)
  {
    CompiledWeight(head, between, tail);
    forall s ensures Denotes(p, s) <==> Covers(text, s) {
      CompiledMeaning(head, between, tail, s);
      CoversIsSegCovers(text, s);
    }
  }

  lemma {:induction false} StarCount(p: Text)
    ensures Stars(p) == 0 <==> STAR !in p
  {
    if p != [] {
      StarCount(p[1..]);
      assert p == [p[0]] + p[1..];
    }
  }

  lemma {:induction false} SplitLiteral(p: Text)
    requires STAR !in p
    ensures Split(p) == [p]
  {
    if p != [] {
      assert p == [p[0]] + p[1..];
      assert STAR !in p[1..];
      SplitLiteral(p[1..]);
    }
  }

  lemma {:induction false} SplitAllStars(p: Text)
    requires forall i :: 0 <= i < |p| ==> p[i] == STAR
    ensures forall i :: 0 <= i < |Split(p)| ==> Split(p)[i] == []
  {
    if p != [] {
      forall i | 0 <= i < |p[1..]| ensures p[1..][i] == STAR {
        assert p[1..][i] == p[i + 1];
      }
      SplitAllStars(p[1..]);
    }
  }

  lemma {:induction false} AllStarsCover(segs: seq<Text>, s: Text)
    requires |segs| >= 2 && forall i :: 0 <= i < |segs| ==> segs[i] == []
    ensures SegCovers(segs, s)
  {
    assert s[|segs[0]|..] == s;
    assert s[|s|..] == [];
    if |segs| == 2 {
      assert SegCovers(segs[1..], s[|s|..]);
    } else {
      AllStarsCover(segs[1..], s[|s|..]);
    }
  }

  /** Dropping the empty middles of a split grant changes neither its meaning nor its length. */
  lemma CompiledMeaning(head: Text, between: seq<Text>, tail: Text, s: Text)
    ensures SegCovers([head] + NonEmpty(between) + [tail], s)
            <==> SegCovers([head] + between + [tail], s)
  {
    assert ([head] + NonEmpty(between) + [tail])[1..] == NonEmpty(between) + [tail];
    assert ([head] + between + [tail])[1..] == between + [tail];
    if head <= s {
      DropEmptyFloating(between, tail, s[|head|..]);
    }
  }

  lemma CompiledWeight(head: Text, between: seq<Text>, tail: Text)
    ensures Weight([head] + NonEmpty(between) + [tail]) == Weight([head] + between + [tail])
  {
    WeightAppend([head] + NonEmpty(between), [tail]);
    WeightAppend([head] + between, [tail]);
    WeightAppend([head], NonEmpty(between));
    WeightAppend([head], between);
    NonEmptyWeight(between);
  }

  /** A grant that is not all stars keeps at least one non-empty segment. */
  lemma {:induction false} SplitSomeByte(p: Text)
    requires exists i :: 0 <= i < |p| && p[i] != STAR
    ensures exists i :: 0 <= i < |Split(p)| && Split(p)[i] != []
  {
    if p[0] == STAR {
      var i :| 0 <= i < |p| && p[i] != STAR;
      assert p[1..][i - 1] == p[i];
      SplitSomeByte(p[1..]);
      var j :| 0 <= j < |Split(p[1..])| && Split(p[1..])[j] != [];
      assert Split(p)[j + 1] == Split(p[1..])[j];
    } else {
      assert Split(p)[0] != [];
    }
  }

  // ---------------------------------------------------------------- matching

  /** `seg` occurs in `s` at position `i`. */
  predicate At(s: Text, seg: Text, i: int) {
    0 <= i <= |s| - |seg| && s[i..i + |seg|] == seg
  }

  /** The parts occur in `s` in order and without overlap. */
  ghost predicate Placeable(parts: seq<Text>, s: Text) {
    parts != [] ==> exists i :: At(s, parts[0], i) && Placeable(parts[1..], s[i + |parts[0]|..])
  }

  /** Room to the left never hurts a placement: this is why leftmost needs no backtracking. */
  lemma {:induction false} PlaceableEarlier(parts: seq<Text>, s: Text, k: nat)
    requires k <= |s| && Placeable(parts, s[k..])
    ensures Placeable(parts, s)
  {
    if parts != [] {
      var i :| At(s[k..], parts[0], i) && Placeable(parts[1..], s[k..][i + |parts[0]|..]);
      assert s[k..][i..i + |parts[0]|] == s[k + i..k + i + |parts[0]|];
      assert s[k..][i + |parts[0]|..] == s[k + i + |parts[0]|..];
      assert At(s, parts[0], k + i);
    }
  }

  /** Committing to the leftmost occurrence of the first part loses nothing. */
  lemma LeftmostIsEnough(parts: seq<Text>, s: Text, i: nat)
    requires parts != [] && At(s, parts[0], i) && forall j :: 0 <= j < i ==> !At(s, parts[0], j)
    ensures Placeable(parts, s) <==> Placeable(parts[1..], s[i + |parts[0]|..])
  {
    if Placeable(parts, s) {
      var j :| At(s, parts[0], j) && Placeable(parts[1..], s[j + |parts[0]|..]);
      var rest := s[i + |parts[0]|..];
      assert rest[j - i..] == s[j + |parts[0]|..];
      PlaceableEarlier(parts[1..], rest, j - i);
    }
  }

  /** Floating parts before an anchored tail: the tail is a suffix and the parts fit before it. */
  lemma FloatsIsPlaceable(parts: seq<Text>, tail: Text, s: Text)
    ensures Floats(parts + [tail], s) <==>
            IsSuffix(tail, s) && Placeable(parts, s[..|s| - |tail|])
  {
    if Floats(parts + [tail], s) {
      FloatsPlaces(parts, tail, s);
    }
    if IsSuffix(tail, s) && Placeable(parts, s[..|s| - |tail|]) {
      PlacesFloat(parts, tail, s);
    }
  }

  lemma {:induction false} FloatsPlaces(parts: seq<Text>, tail: Text, s: Text)
    requires Floats(parts + [tail], s)
    ensures IsSuffix(tail, s) && Placeable(parts, s[..|s| - |tail|])
  {
    var segs := parts + [tail];
    var k :| 0 <= k <= |s| && SegCovers(segs, s[k..]);
    if parts != [] {
      var p := parts[0];
      var rest := s[k + |p|..];
      assert segs[1..] == parts[1..] + [tail];
      assert s[k..][|p|..] == rest;
      FloatsPlaces(parts[1..], tail, rest);
      assert s[|s| - |tail|..] == rest[|rest| - |tail|..];
      var room := s[..|s| - |tail|];
      assert room[k..k + |p|] == s[k..][..|p|] == p;
      assert At(room, p, k);
      assert room[k + |p|..] == rest[..|rest| - |tail|];
    }
  }

  lemma {:induction false} PlacesFloat(parts: seq<Text>, tail: Text, s: Text)
    requires IsSuffix(tail, s) && Placeable(parts, s[..|s| - |tail|])
    ensures Floats(parts + [tail], s)
  {
    var segs := parts + [tail];
    if parts == [] {
      assert SegCovers(segs, s[|s| - |tail|..]);
    } else {
      var p, room := parts[0], s[..|s| - |tail|];
      assert segs[1..] == parts[1..] + [tail];
      var k :| At(room, p, k) && Placeable(parts[1..], room[k + |p|..]);
      var rest := s[k + |p|..];
      assert room[k + |p|..] == rest[..|rest| - |tail|];
      assert rest[|rest| - |tail|..] == s[|s| - |tail|..];
      PlacesFloat(parts[1..], tail, rest);
      assert s[k..][..|p|] == room[k..k + |p|];
      assert s[k..][|p|..] == rest;
      assert SegCovers(segs, s[k..]);
    }
  }

  /** strings.HasPrefix by comparing bytes; `cost` counts the comparisons. */
  method StartsWith(s: Text, p: Text) returns (b: bool, ghost cost: nat)
    ensures b <==> p <= s
    ensures cost <= |s| * |p|
  {
    cost := 0;
    if |s| < |p| {
      return false, 0;
    }
    Scale(|s|, |p|);
    for i := 0 to |p|
      invariant s[..i] == p[..i] && cost == i
    {
      cost := cost + 1;
      assert s[..i + 1] == s[..i] + [s[i]] && p[..i + 1] == p[..i] + [p[i]];
      if s[i] != p[i] {
        assert s[..|p|][i] != p[i];
        return false, cost;
      }
    }
    assert p[..|p|] == p;
    b := true;
  }

  lemma Scale(a: nat, b: nat)
    requires b <= a
    ensures b <= a * b
  {
    if a > 0 {
      assert a * b == b + (a - 1) * b;
    }
  }

  /** strings.Index by trying every position from the left; `cost` counts byte comparisons. */
  method IndexOf(s: Text, seg: Text) returns (i: int, ghost cost: nat)
    ensures i >= 0 ==> At(s, seg, i) && forall j :: 0 <= j < i ==> !At(s, seg, j)
    ensures i < 0 ==> forall j :: !At(s, seg, j)
    ensures cost <= |s| * |seg|
    ensures seg != [] ==> cost >= if i >= 0 then i + |seg| else |s| - |seg| + 1
  {
    i, cost := 0, 0;
    if seg == [] {
      return 0, 0;
    }
    while i + |seg| <= |s|
      invariant 0 <= i <= |s|
      invariant forall j :: 0 <= j < i ==> !At(s, seg, j)
      invariant i <= cost <= i * |seg| && (i == 0 || i + |seg| <= |s| + 1)
    {
      var b, c := CompareAt(s, seg, i);
      cost := cost + c;
      assert (i + 1) * |seg| == i * |seg| + |seg|;
      assert (i + 1) * |seg| <= |s| * |seg| by { Monotone(i + 1, |s|, |seg|); }
      if b {
        return i, cost;
      }
      i := i + 1;
    }
    Monotone(i, |s|, |seg|);
    i := -1;
  }

  lemma Monotone(a: nat, b: nat, c: nat)
    requires a <= b
    ensures a * c <= b * c
  {
    assert b * c == a * c + (b - a) * c;
  }

  method CompareAt(s: Text, seg: Text, i: nat) returns (b: bool, ghost cost: nat)
    requires i + |seg| <= |s|
    ensures b <==> At(s, seg, i)
    ensures cost <= |seg| && (b ==> cost == |seg|) && (seg != [] ==> cost > 0)
  {
    cost := 0;
    for j := 0 to |seg|
      invariant s[i..i + j] == seg[..j] && cost == j
    {
      cost := cost + 1;
      assert s[i..i + j + 1] == s[i..i + j] + [s[i + j]] && seg[..j + 1] == seg[..j] + [seg[j]];
      if s[i + j] != seg[j] {
        assert s[i..i + |seg|][j] != seg[j];
        return false, cost;
      }
    }
    assert seg[..|seg|] == seg;
    b := true;
  }

  /** Pattern.matchSegments: anchored head and tail, then each part at its leftmost place. */
  method MatchSegments(p: Pattern, s0: Text) returns (b: bool, ghost cost: nat)
    requires p.kind == KSegments
    ensures b <==> Denotes(p, s0)
    ensures cost <= |s0| * Weight(Shape(p))
  {
    var s := s0;
    ghost var used: nat, c: nat := |p.head|, 0;
    SegmentsWeight(p);
    assert p.parts[0..] == p.parts;
    b, cost := StartsWith(s, p.head);
    Within(|s0|, used, Weight(Shape(p)));
    if !b {
      return;
    }
    s := s[|p.head|..];
    FloatsIsPlaceable(p.parts, p.tail, s);
    assert Shape(p)[1..] == p.parts + [p.tail];
    b, c := EndsWith(s, p.tail);
    cost, used := Spend(|s0|, cost, used, |s|, c, |p.tail|);
    Within(|s0|, used, Weight(Shape(p)));
    if !b {
      return;
    }
    s := s[..|s| - |p.tail|];
    ghost var room := s;
    for i := 0 to |p.parts|
      invariant |s| <= |s0|
      invariant Placeable(p.parts, room) <==> Placeable(p.parts[i..], s)
      invariant used + Weight(p.parts[i..]) == Weight(Shape(p))
      invariant cost <= |s0| * used
    {
      var seg := p.parts[i];
      assert p.parts[i..][1..] == p.parts[i + 1..];
      var at;
      at, c := IndexOf(s, seg);
      cost, used := Spend(|s0|, cost, used, |s|, c, |seg|);
      Within(|s0|, used, Weight(Shape(p)));
      if at < 0 {
        return false, cost;
      }
      LeftmostIsEnough(p.parts[i..], s, at);
      s := s[at + |seg|..];
    }
    b := true;
  }

  lemma SegmentsWeight(p: Pattern)
    requires p.kind == KSegments
    ensures Weight(Shape(p)) == |p.head| + |p.tail| + Weight(p.parts)
  {
    assert Shape(p) == [p.head] + (p.parts + [p.tail]);
    WeightAppend([p.head], p.parts + [p.tail]);
    WeightAppend(p.parts, [p.tail]);
  }

  /** Charging a search of `m <= n` bytes for a segment of `w` against a budget of `n` per byte. */
  lemma Spend(n: nat, cost: nat, used: nat, m: nat, c: nat, w: nat) returns (cost': nat, used': nat)
    requires cost <= n * used && c <= m * w && m <= n
    ensures cost' == cost + c && used' == used + w && cost' <= n * used'
  {
    cost', used' := cost + c, used + w;
    Monotone(m, n, w);
    assert n * (used + w) == n * used + n * w;
  }

  lemma Within(n: nat, used: nat, total: nat)
    requires used <= total
    ensures n * used <= n * total
  {
    Monotone(used, total, n);
  }

  /** strings.HasSuffix by comparing bytes. */
  method EndsWith(s: Text, tail: Text) returns (b: bool, ghost cost: nat)
    ensures b <==> IsSuffix(tail, s)
    ensures cost <= |s| * |tail|
  {
    if |s| < |tail| {
      return false, 0;
    }
    Scale(|s|, |tail|);
    b, cost := CompareAt(s, tail, |s| - |tail|);
  }

  /** Pattern.Match: exact on every compiled pattern, in at most |s| times its length comparisons. */
  method Match(p: Pattern, s: Text) returns (b: bool, ghost cost: nat)
    ensures b <==> Denotes(p, s)
    ensures cost <= |s| * Weight(Shape(p))
  {
    cost := 0;
    match p.kind
    case KNone => b := false;
    case KLiteral =>
      if |s| != |p.head| {
        return false, 0;
      }
      b, cost := StartsWith(s, p.head);
      assert Weight(Shape(p)) == |p.head|;
    case KAny =>
      AllStarsCover(Shape(p), s);
      b := true;
    case KPrefix =>
      b, cost := StartsWith(s, p.head);
      assert Shape(p)[1..] == [[]];
      assert Weight(Shape(p)) == |p.head| + Weight([[]]);
      if b {
        var rest := s[|p.head|..];
        assert rest[|rest|..] == [];
        assert SegCovers(Shape(p)[1..], rest[|rest|..]);
        assert Floats(Shape(p)[1..], rest);
      }
    case KSuffix =>
      b, cost := EndsWith(s, p.tail);
      assert Shape(p)[1..] == [] + [p.tail];
      assert Weight(Shape(p)) == Weight([p.tail]) == |p.tail|;
      assert s[0..] == s;
      FloatsIsPlaceable([], p.tail, s);
      assert Denotes(p, s) <==> b;
    case KContains =>
      var at;
      at, cost := IndexOf(s, p.head);
      assert Shape(p)[1..] == [p.head] + [[]];
      assert ([p.head] + [[]])[1..] == [[]];
      assert Weight(Shape(p)) == Weight([p.head] + [[]]) == |p.head| + Weight([[]]);
      b := at >= 0;
      assert s[0..] == s && s[..|s|] == s;
      FloatsIsPlaceable([p.head], [], s);
      assert IsSuffix([], s);
      if b {
        assert At(s, [p.head][0], at);
      }
      assert b <==> Placeable([p.head], s);
      assert Denotes(p, s) <==> Floats([p.head] + [[]], s[0..]);
    case KSegments =>
      b, cost := MatchSegments(p, s);
  }

  // ---------------------------------------------------------------- grant sets

  datatype SetResult = GrantSet(patterns: seq<Pattern>) | BadGrant(index: nat)

  /** `set` is the compilation of the whole grant list. */
  ghost predicate SetOf(grants: seq<Text>, set_: seq<Pattern>) {
    |set_| == |grants| && forall i :: 0 <= i < |grants| ==> Compiles(grants[i], set_[i])
  }

  /** glob.NewSet: every grant compiled, or none of them and the first that is refused. */
  method NewSet(grants: seq<Text>) returns (r: SetResult)
    ensures r.GrantSet? <==> forall i :: 0 <= i < |grants| ==> !Reserved(grants[i])
    ensures r.GrantSet? ==> SetOf(grants, r.patterns)
    ensures r.BadGrant? ==> r.index < |grants| && Reserved(grants[r.index])
                            && forall i :: 0 <= i < r.index ==> !Reserved(grants[i])
  {
    var compiled: seq<Pattern> := [];
    for i := 0 to |grants|
      invariant |compiled| == i
      invariant forall j :: 0 <= j < i ==> !Reserved(grants[j]) && Compiles(grants[j], compiled[j])
    {
      var c := Compile(grants[i]);
      if c.ReservedPrefix? {
        return BadGrant(i);
      }
      compiled := compiled + [c.p];
    }
    r := GrantSet(compiled);
  }

  /** Set.Match: the disjunction of the declarative meanings of the grants it was built from. */
  method SetMatch(patterns: seq<Pattern>, channel: Text, ghost grants: seq<Text>) returns (b: bool)
    requires SetOf(grants, patterns)
    ensures b <==> CoveredBy(grants, channel)
  {
    for i := 0 to |patterns|
      invariant forall j :: 0 <= j < i ==> !Covers(grants[j], channel)
    {
      var m, _ := Match(patterns[i], channel);
      if m {
        assert Covers(grants[i], channel);
        return true;
      }
    }
    b := false;
  }
}
