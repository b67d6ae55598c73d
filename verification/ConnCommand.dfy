/** internal/conn/command.go: the checks a channel name passes before it reaches the registry. */
module ConnCommand {
  import opened Bytes
  import Glob

  /** What one connection checks names against; `grants` is None until the connect webhook answers. */
  datatype Limits = Limits(maxChannelLength: int, maxSubscriptions: nat)

  /** 1 to maxChannelLength bytes, each in 0x21-0x7e. */
  predicate WellFormed(lim: Limits, ch: Text) {
    ch != [] && |ch| <= lim.maxChannelLength && forall i :: 0 <= i < |ch| ==> 0x20 < ch[i] < 0x7f
  }

  /** A channel a connection with these grants may subscribe to. */
  ghost predicate Authorized(lim: Limits, grants: seq<Text>, ch: Text) {
    WellFormed(lim, ch) && !Reserved(ch) && Glob.CoveredBy(grants, ch)
  }

  /** Conn.wellFormed. */
  method IsWellFormed(lim: Limits, ch: Text) returns (b: bool)
    ensures b <==> WellFormed(lim, ch)
  {
    if ch == [] || |ch| > lim.maxChannelLength {
      return false;
    }
    for i := 0 to |ch|
      invariant forall j :: 0 <= j < i ==> 0x20 < ch[j] < 0x7f
    {
      if ch[i] <= 0x20 || ch[i] >= 0x7f {
        return false;
      }
    }
    b := true;
  }

  datatype Verdict = Allowed | BadRequest | PermissionDenied

  /** Conn.checkChannel: shape first, then the reserved prefix before any grant, then the grants. */
  method CheckChannel(lim: Limits, set_: seq<Glob.Pattern>, ch: Text, ghost grants: seq<Text>) returns (v: Verdict)
    requires Glob.SetOf(grants, set_)
    ensures v == Allowed <==> Authorized(lim, grants, ch)
    ensures v == BadRequest <==> !WellFormed(lim, ch)
  {
    var ok := IsWellFormed(lim, ch);
    if !ok {
      return BadRequest;
    }
    if Reserved(ch) {
      return PermissionDenied;
    }
    var allowed := Glob.SetMatch(set_, ch, grants);
    v := if allowed then Allowed else PermissionDenied;
  }

  /** The first `max` distinct names of `requested` that `keep` accepts, in order. */
  ghost function Bound(requested: seq<Text>, keep: Text -> bool, max: nat): seq<Text> {
    if requested == [] then []
    else
      var before := requested[..|requested| - 1];
      var ch, out := requested[|requested| - 1], Bound(before, keep, max);
      if ch in before || !keep(ch) || |out| >= max then out else out + [ch]
  }

  /** The result keeps only accepted names, none twice, at most `max`, and drops a kept name only when full. */
  lemma {:induction false} BoundMeans(requested: seq<Text>, keep: Text -> bool, max: nat)
    ensures forall ch :: ch in Bound(requested, keep, max) ==> ch in requested && keep(ch)
    ensures |Bound(requested, keep, max)| <= max
    ensures forall i, j :: 0 <= i < j < |Bound(requested, keep, max)| ==>
              Bound(requested, keep, max)[i] != Bound(requested, keep, max)[j]
    ensures forall ch :: ch in requested && keep(ch) ==>
              ch in Bound(requested, keep, max) || |Bound(requested, keep, max)| == max
  {
    if requested != [] {
      var before := requested[..|requested| - 1];
      BoundMeans(before, keep, max);
      assert requested == before + [requested[|requested| - 1]];
      assert forall ch :: ch in requested <==> ch in before || ch == requested[|requested| - 1];
    }
  }

  /** Once full, later names change nothing. */
  lemma {:induction false} BoundFull(requested: seq<Text>, keep: Text -> bool, max: nat, n: nat)
    requires n <= |requested| && |Bound(requested[..n], keep, max)| == max
    ensures Bound(requested, keep, max) == Bound(requested[..n], keep, max)
    decreases |requested|
  {
    if n < |requested| {
      var before := requested[..|requested| - 1];
      assert before[..n] == requested[..n];
      BoundFull(before, keep, max, n);
    } else {
      assert requested[..n] == requested;
    }
  }

  /** The two filters Conn.bounded is given: checkChannel, and the shape alone. */
  ghost function ByGrant(lim: Limits, grants: seq<Text>): Text -> bool {
    ch => Authorized(lim, grants, ch)
  }

  ghost function ByShape(lim: Limits): Text -> bool {
    ch => WellFormed(lim, ch)
  }

  /** Conn.bounded, with either filter. */
  method Bounded(lim: Limits, requested: seq<Text>, byGrant: bool, set_: seq<Glob.Pattern>, ghost grants: seq<Text>)
    returns (out: seq<Text>)
    requires Glob.SetOf(grants, set_)
    ensures out == Bound(requested, if byGrant then ByGrant(lim, grants) else ByShape(lim), lim.maxSubscriptions)
  {
    ghost var keep := if byGrant then ByGrant(lim, grants) else ByShape(lim);
    out := [];
    var seen: set<Text> := {};
    for i := 0 to |requested|
      invariant seen == set ch | ch in requested[..i]
      invariant out == Bound(requested[..i], keep, lim.maxSubscriptions)
      invariant |out| <= lim.maxSubscriptions
    {
      var ch := requested[i];
      assert requested[..i + 1][..i] == requested[..i];
      assert requested[..i + 1] == requested[..i] + [ch];
      if ch in seen {
        continue;
      }
      seen := seen + {ch};
      var kept;
      if byGrant {
        var v := CheckChannel(lim, set_, ch, grants);
        kept := v == Allowed;
      } else {
        kept := IsWellFormed(lim, ch);
      }
      if !kept {
        continue;
      }
      if |out| == lim.maxSubscriptions {
        BoundFull(requested, keep, lim.maxSubscriptions, i);
        return;
      }
      out := out + [ch];
    }
    assert requested[..|requested|] == requested;
  }
}
