/** internal/server: admission and drain as told by the events of a run. */
module DrainHistory {
  import opened Bytes
  import opened ServerDrain

  /** Admissions less releases. */
  function Net(run: seq<Event>): int {
    if run == [] then 0
    else Net(run[..|run| - 1]) + (match run[|run| - 1] case Reserve(_) => 1 case Release(_) => -1 case _ => 0)
  }

  /** A drain has begun. */
  ghost predicate Begun(run: seq<Event>) { exists d :: StartDrain(d) in run }

  /** The connection was recorded when a drain had begun. */
  ghost predicate TrackedLate(run: seq<Event>, c: Conn) {
    exists j :: 0 <= j < |run| && run[j] == Track(c) && Begun(run[..j])
  }

  /** It was among the recorded ones when a drain began. */
  ghost predicate InSnapshot(run: seq<Event>, c: Conn) {
    exists i :: 0 <= i < |run| && run[i].StartDrain? && Track(c) in run[..i] && Untrack(c) !in run[..i]
  }

  /** Some drain has closed it. */
  ghost predicate ClosedIn(run: seq<Event>, c: Conn) { exists d :: CloseOne(d, c) in run }

  ghost predicate CountTold(st: State, run: seq<Event>) {
    st.ledger.current == Net(run) && (st.ledger.draining <==> Begun(run))
  }

  /** A handshake is where its own last event left it. */
  ghost predicate StageTold(st: State, run: seq<Event>, c: Conn) {
    && (c in st.stages <==> Reserve(c) in run)
    && (c in st.stages ==>
          st.stages[c] == if Release(c) in run then Stage.Ended else if Untrack(c) in run then IsUntracked
                          else if Track(c) in run then IsTracked else HoldsSlot)
    && (Reserve(c) !in run ==> Track(c) !in run && Release(c) !in run)
    && (Track(c) !in run ==> Untrack(c) !in run)
    && (Track(c) in run && Untrack(c) !in run ==> Release(c) !in run)
  }

  /** Who is told to close itself, who is to be closed by a drain, and who has been. */
  ghost predicate CloseTold(st: State, run: seq<Event>, c: Conn) {
    && (c in st.asked <==> TrackedLate(run, c))
    && (c in st.seen <==> InSnapshot(run, c))
    && (c in st.told <==> ClosedIn(run, c))
  }

  /** The user the webhook named is the user recorded, unless a cap refused it. */
  ghost predicate NameTold(lim: Limits, st: State, run: seq<Event>, c: Conn, u: User) {
    && (Name(c, u) in run ==> c in st.named)
    && (c in st.ledger.conns && st.ledger.conns[c] == u != [] ==> Name(c, u) in run)
    && (c in st.ledger.conns && Name(c, u) in run && lim.maxPerUser <= 0 ==> st.ledger.conns[c] == u)
  }

  ghost predicate DrainTold(st: State, run: seq<Event>, d: nat) {
    && (d in st.drains <==> StartDrain(d) in run)
    && (d in st.drains ==>
          && (st.drains[d].Closing? <==> StartWait(d) !in run)
          && (st.drains[d].TimedOut? <==> GiveUp(d) in run)
          && (EndWait(d) in run ==> st.drains[d].Drained?)
          && (st.drains[d].Closing? ==> forall c :: c in st.drains[d].todo ==> CloseOne(d, c) !in run))
    && (d !in st.drains ==>
          && StartWait(d) !in run && GiveUp(d) !in run && EndWait(d) !in run
          && forall c :: CloseOne(d, c) !in run)
  }

  /** A drain that has waited to the end, and a channel that was closed, mean an empty server for good. */
  ghost predicate EmptyAfter(st: State) {
    && (st.ledger.drained.Some? || st.ledger.closed != [] || st.drains != map[] ==> st.ledger.draining)
    && (st.ledger.closed != [] ==> st.ledger.current == 0)
    && (forall d :: d in st.drains && st.drains[d].Drained? ==> st.ledger.current == 0)
  }

  lemma AppendIn(run: seq<Event>, e: Event)
    ensures forall x :: x in run + [e] <==> x in run || x == e
    ensures Begun(run + [e]) <==> Begun(run) || e.StartDrain?
    ensures Net(run + [e]) == Net(run) + (match e case Reserve(_) => 1 case Release(_) => -1 case _ => 0)
  {
    assert (run + [e])[..|run|] == run;
    if e.StartDrain? {
      assert StartDrain(e.d) in run + [e];
    }
    if Begun(run) {
      var d :| StartDrain(d) in run;
      assert StartDrain(d) in run + [e];
    }
  }

  lemma AppendLate(run: seq<Event>, e: Event, c: Conn)
    ensures TrackedLate(run + [e], c) <==> TrackedLate(run, c) || (e == Track(c) && Begun(run))
    ensures InSnapshot(run + [e], c) <==>
              InSnapshot(run, c) || (e.StartDrain? && Track(c) in run && Untrack(c) !in run)
    ensures ClosedIn(run + [e], c) <==> ClosedIn(run, c) || (e.CloseOne? && e.c == c)
  {
    var more := run + [e];
    assert forall i :: 0 <= i <= |run| ==> more[..i] == run[..i];
    if ClosedIn(run, c) {
      var d :| CloseOne(d, c) in run;
      assert CloseOne(d, c) in more;
    }
    if e.CloseOne? && e.c == c {
      assert CloseOne(e.d, c) in more;
    }
    assert more[..|run|] == run && more[|run|] == e;
    forall i | 0 <= i < |run| ensures more[i] == run[i] {}
  }

  lemma CountStep(lim: Limits, st: State, run: seq<Event>, e: Event)
    requires CountTold(st, run) && Slots(lim, st) && Enabled(lim, st, e)
    ensures CountTold(Do(lim, st, e), run + [e])
  {
    AppendIn(run, e);
    hide Net, Begun, AfterUntrack, AfterAdmit;
  }

  lemma StageStep(lim: Limits, st: State, run: seq<Event>, e: Event, c: Conn)
    requires StageTold(st, run, c) && Enabled(lim, st, e)
    ensures StageTold(Do(lim, st, e), run + [e], c)
  {
    AppendIn(run, e);
    hide Net, Begun, AfterUntrack, AfterAdmit;
  }

  lemma CloseStep(lim: Limits, st: State, run: seq<Event>, e: Event, c: Conn)
    requires CloseTold(st, run, c) && CountTold(st, run) && StageTold(st, run, c) && Books(st) && Enabled(lim, st, e)
    ensures CloseTold(Do(lim, st, e), run + [e], c)
  {
    AppendIn(run, e);
    AppendLate(run, e, c);
    hide Net, Begun, AfterUntrack, AfterAdmit, TrackedLate, InSnapshot, ClosedIn, Counted, ChannelsOk;
    if e.StartDrain? {
      assert c in st.ledger.conns <==> In(st, c, IsTracked);
    }
  }

  lemma NameStep(lim: Limits, st: State, run: seq<Event>, e: Event, c: Conn, u: User)
    requires NameTold(lim, st, run, c, u) && StageTold(st, run, c) && Books(st) && Enabled(lim, st, e)
    requires forall v :: Name(c, v) in run ==> c in st.named
    ensures NameTold(lim, Do(lim, st, e), run + [e], c, u)
  {
    AppendIn(run, e);
    hide Net, Begun;
  }

  lemma DrainStep(lim: Limits, st: State, run: seq<Event>, e: Event, d: nat)
    requires DrainTold(st, run, d) && Enabled(lim, st, e)
    ensures DrainTold(Do(lim, st, e), run + [e], d)
  {
    AppendIn(run, e);
    hide Net, Begun, AfterUntrack, AfterAdmit;
  }

  lemma EmptyStep(lim: Limits, st: State, e: Event)
    requires EmptyAfter(st) && Slots(lim, st) && Enabled(lim, st, e)
    ensures EmptyAfter(Do(lim, st, e))
  {
    hide AfterUntrack, AfterAdmit;
    if e.Release? {
      assert e.c in Active(st.stages);
    }
  }

  // ---------------------------------------------------------------- whole runs

  lemma {:induction false} LastStep(lim: Limits, st: State, run: seq<Event>, fin: State) returns (mid: State)
    requires Runs(lim, st, run, fin) && run != []
    ensures Runs(lim, st, run[..|run| - 1], mid)
    ensures Enabled(lim, mid, run[|run| - 1]) && Do(lim, mid, run[|run| - 1]) == fin
    decreases |run|
  {
    hide Do, Enabled;
    if |run| == 1 {
      mid := st;
      assert run == [run[0]] && run[..0] == [] && run[1..] == [];
    } else {
      mid := LastStep(lim, Do(lim, st, run[0]), run[1..], fin);
      assert run[1..][..|run| - 2] == run[..|run| - 1][1..];
    }
  }

  /** What a run says of the state it ends in. */
  ghost predicate Told(lim: Limits, st: State, run: seq<Event>) {
    && Inv(lim, st) && CountTold(st, run) && EmptyAfter(st)
    && (forall c :: StageTold(st, run, c))
    && (forall c :: CloseTold(st, run, c))
    && (forall c, u :: NameTold(lim, st, run, c, u))
    && (forall d :: DrainTold(st, run, d))
  }

  lemma ToldAtStart(lim: Limits)
    ensures Told(lim, START, [])
  {
    assert Active(START.stages) == {};
  }

  lemma ToldStep(lim: Limits, st: State, run: seq<Event>, e: Event)
    requires Told(lim, st, run) && Enabled(lim, st, e)
    ensures Told(lim, Do(lim, st, e), run + [e])
  {
    hide Do, Enabled, CountTold, EmptyAfter, StageTold, CloseTold, DrainTold, Slots, Books, Covered, Waiters;
    Keeps(lim, st, e);
    CountStep(lim, st, run, e);
    EmptyStep(lim, st, e);
    forall c ensures StageTold(Do(lim, st, e), run + [e], c) { StageStep(lim, st, run, e, c); }
    forall c ensures CloseTold(Do(lim, st, e), run + [e], c) { CloseStep(lim, st, run, e, c); }
    forall c, u ensures NameTold(lim, Do(lim, st, e), run + [e], c, u) {
      forall v | Name(c, v) in run ensures c in st.named {
        assert NameTold(lim, st, run, c, v);
      }
      NameStep(lim, st, run, e, c, u);
    }
    forall d ensures DrainTold(Do(lim, st, e), run + [e], d) { DrainStep(lim, st, run, e, d); }
  }

  lemma {:induction false} ToldByRun(lim: Limits, run: seq<Event>, fin: State)
    requires Runs(lim, START, run, fin)
    ensures Told(lim, fin, run)
    decreases |run|
  {
    hide Do, Enabled, Told;
    if run == [] {
      ToldAtStart(lim);
    } else {
      var mid := LastStep(lim, START, run, fin);
      ToldByRun(lim, run[..|run| - 1], mid);
      ToldStep(lim, mid, run[..|run| - 1], run[|run| - 1]);
      assert run[..|run| - 1] + [run[|run| - 1]] == run;
    }
  }

  /** Admitted, and not released since. */
  predicate Inside(run: seq<Event>, c: Conn) { Reserve(c) in run && Release(c) !in run }

  /**
   * In every run: `current` is the number of admissions less releases. Once a drain has begun, a
   * connection that was recorded and is not gone was in the snapshot of a drain or told by track to close
   * itself; what was in a snapshot has been closed, or is in the closing list of a drain. A drain that
   * reports the server empty is right: nobody admitted is still inside, and nobody ever comes in again.
   */
  lemma DrainByEvents(lim: Limits, run: seq<Event>, fin: State)
    requires Runs(lim, START, run, fin)
    ensures fin.ledger.current == Net(run) && (lim.maxConnections > 0 ==> Net(run) <= lim.maxConnections)
    ensures forall c :: Begun(run) && Track(c) in run && Untrack(c) !in run ==>
              TrackedLate(run, c) || InSnapshot(run, c)
    ensures forall c :: InSnapshot(run, c) && !ClosedIn(run, c) ==>
              exists d :: d in fin.drains && fin.drains[d].Closing? && c in fin.drains[d].todo
    ensures forall d :: d in fin.drains && fin.drains[d].Drained? ==>
              (forall c :: !Inside(run, c)) && forall c :: !Enabled(lim, fin, Reserve(c))
    ensures forall d :: DrainTold(fin, run, d)
  {
    hide Do, Active, Counted, ChannelsOk, DrainTold, NameTold, Runs;
    ToldByRun(lim, run, fin);
    forall c | Begun(run) && Track(c) in run && Untrack(c) !in run ensures TrackedLate(run, c) || InSnapshot(run, c) {
      assert StageTold(fin, run, c) && CloseTold(fin, run, c) && In(fin, c, IsTracked);
    }
    forall c | InSnapshot(run, c) && !ClosedIn(run, c)
      ensures exists d :: d in fin.drains && fin.drains[d].Closing? && c in fin.drains[d].todo
    {
      assert CloseTold(fin, run, c);
    }
    if fin.ledger.current == 0 {
      forall c ensures !Inside(run, c) {
        assert StageTold(fin, run, c);
        NobodyInside(lim, fin, c);
      }
    }
  }

  lemma NobodyInside(lim: Limits, st: State, c: Conn)
    requires Slots(lim, st) && st.ledger.current == 0
    ensures c in st.stages ==> st.stages[c] == Stage.Ended
  {
    assert Active(st.stages) == {};
    assert c in st.stages && st.stages[c] != Stage.Ended <==> c in Active(st.stages);
  }
}
