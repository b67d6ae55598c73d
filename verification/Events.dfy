/** Counting the events of a run. */
module Events {

  function One(b: bool): nat { if b then 1 else 0 }

  /** How many of them are such. */
  function Times<E>(run: seq<E>, p: E -> bool): nat {
    if run == [] then 0 else One(p(run[0])) + Times(run[1..], p)
  }

  lemma {:induction false} TimesAppend<E>(run: seq<E>, e: E, p: E -> bool)
    ensures Times(run + [e], p) == Times(run, p) + One(p(e))
  {
    if run == [] {
      assert run + [e] == [e] && [e][1..] == [];
    } else {
      TimesAppend(run[1..], e, p);
      assert (run + [e])[1..] == run[1..] + [e];
    }
  }

  lemma {:induction false} SomeTimes<E>(run: seq<E>, p: E -> bool)
    ensures Times(run, p) > 0 <==> exists i :: 0 <= i < |run| && p(run[i])
  {
    if run != [] {
      SomeTimes(run[1..], p);
      if i :| 0 <= i < |run| && p(run[i]) && i > 0 {
        assert run[1..][i - 1] == run[i];
      }
      if j :| 0 <= j < |run[1..]| && p(run[1..][j]) {
        assert run[j + 1] == run[1..][j];
      }
    }
  }

  /** What was due before and came up since, less what was done, is what is due now; over two stretches. */
  lemma Chain<T>(a: seq<T>, b: seq<T>, c: seq<T>, d: seq<T>, x: seq<T>, y: seq<T>, z: seq<T>)
    requires a + b == c + d && d + x == y + z
    ensures a + (b + x) == (c + y) + z
  {
    assert a + (b + x) == (a + b) + x == c + (d + x);
    assert (c + y) + z == c + (y + z);
  }
}
