/** internal/conn: one connection's end as told by the events of a run. */
module ConnHistory {
  import opened Bytes
  import opened Events
  import opened HubSpec
  import opened ConnClose

  predicate IsEnter(e: Event) { e.Enter? }
  predicate IsLeave(e: Event) { e.Leave? }
  predicate IsDeregister(e: Event) { e.Deregister? }
  predicate IsFlag(e: Event) { e.Flag? }
  predicate IsNotice(e: Event) { e.OfferDisconnect? || e.SkipNotice? }
  predicate IsSignal(e: Event) { e.Signal? }
  predicate IsStartSend(e: Event) { e.StartSend? }
  predicate IsQueue(e: Event) { e.Queue? }
  predicate IsTake(e: Event) { e.WriteFrame? || e.DrainFrame? }
  predicate IsWritten(e: Event) { (e.WriteFrame? || e.DrainFrame?) && e.ok }
  predicate IsPing(e: Event) { e.WritePing? && e.ok }
  predicate IsReaderCall(e: Event) { e.ReaderCalls? }
  predicate IsReaderBack(e: Event) { e.ReaderResumes? || e.ReaderExits? }
  predicate IsSeeClosing(e: Event) { e.SeeClosing? }
  predicate IsDrained(e: Event) { e.DrainEnd? || (e.DrainFrame? && !e.ok) }
  predicate IsFailedWrite(e: Event) { (e.WriteFrame? || e.WritePing?) && !e.ok }
  predicate IsCloseSocket(e: Event) { e.CloseSocket? }

  /** A write to the socket that failed. */
  predicate Fails(e: Event) { (e.WriteFrame? || e.WritePing? || e.DrainFrame? || e.DrainEnd?) && !e.ok }

  function PassesOf(run: seq<Event>, n: nat): nat {
    if run == [] then 0 else One(run[0] == PassBy(Other(n))) + PassesOf(run[1..], n)
  }

  predicate IsDataFrame(w: Wire) { w.Data? }
  predicate IsPingFrame(w: Wire) { w.Ping? }
  predicate IsCloseFrame(w: Wire) { w.CloseFrame? }

  predicate Aborting(w: Writer) { w.WriterCloses? && w.last }
  predicate Waits(st: State, n: nat) { n in st.others && st.others[n].Some? }

  // ---------------------------------------------------------------- step by step

  /** doClose's statements. */
  lemma OnceStep(st: State, e: Event)
    requires EffectsOk(st.shut) && ActorsOk(st) && Enabled(st, e)
    ensures var sh, sh' := st.shut, Do(st, e).shut;
            && One(sh'.closed) == One(sh.closed) + One(e.Flag?)
            && One(Reached(sh') >= 3) == One(Reached(sh) >= 3) + One(IsNotice(e))
            && One(sh'.closing) == One(sh.closing) + One(e.Signal?)
            && sh'.closeCode == (if e.StoreCode? then sh.once.why.code else sh.closeCode)
            && sh'.removes == sh.removes + One(e.Deregister?)
            && One(!sh'.once.Fresh?) == One(!sh.once.Fresh?) + One(e.Enter?)
            && One(sh'.once.Finished?) == One(sh.once.Finished?) + One(e.Leave?)
  {
    match e
    case Leave =>
    case PassBy(_) =>
    case _ =>
  }

  /** The queue and the socket. */
  lemma TrafficStep(st: State, e: Event)
    requires Enabled(st, e)
    ensures var fin := Do(st, e);
            && fin.out.senders == st.out.senders + One(e.StartSend?) - One(e.Queue?)
            && fin.out.taken == st.out.taken + One(IsTake(e))
            && fin.sockCloses == st.sockCloses + One(e.CloseSocket?)
            && |fin.wire| <= |st.wire| + 1 && st.wire <= fin.wire
            && (IsWritten(e) ==>
                  st.out.taken < |st.out.accepted| && fin.wire == st.wire + [Data(st.out.accepted[st.out.taken])])
            && (IsPing(e) ==> fin.wire == st.wire + [Ping])
            && (e == DrainEnd(true) && st.shut.closeCode != 0 ==>
                  fin.wire == st.wire + [CloseFrame(st.shut.closeCode)])
            && (!IsWritten(e) && !IsPing(e) && !(e == DrainEnd(true) && st.shut.closeCode != 0) ==> fin.wire == st.wire)
  {
    match e
    case Leave | PassBy(_) =>
    case _ =>
  }

  /** The goroutines. */
  lemma ActorStep(st: State, e: Event, n: nat)
    requires ActorsOk(st) && Enabled(st, e)
    ensures var fin := Do(st, e);
            && (fin.reader.ReaderDone? <==> st.reader.ReaderDone? || e.ReaderExits?)
            && One(st.reader.ReaderCloses?) + One(e.ReaderCalls?)
               == One(fin.reader.ReaderCloses?) + One(IsReaderBack(e))
            && (n in fin.others <==> n in st.others || (e.Call? && e.n == n))
            && One(Waits(fin, n)) + One(n !in fin.others) + One(e == PassBy(Other(n)))
               <= One(Waits(st, n)) + One(n !in st.others)
  {
    match e
    case Leave | PassBy(_) =>
    case _ =>
  }

  lemma WriterStep(st: State, e: Event)
    requires Enabled(st, e)
    ensures var w, w' := st.writer, Do(st, e).writer;
            && One(w.Draining?) + One(e.SeeClosing?) == One(w'.Draining?) + One(IsDrained(e))
            && One(Aborting(w)) + One(w.Ending?) + One(IsDrained(e)) + One(IsFailedWrite(e))
               == One(Aborting(w')) + One(w'.Ending?) + One(e.CloseSocket?)
  {
    match e
    case Leave | PassBy(_) =>
    case _ =>
  }

  predicate IsWriterCall(e: Event) { e.WriterCalls? }

  /** The writer's call of Close, or its abort, returns. */
  predicate WriterBack(st: State, e: Event) {
    e == PassBy(TheWriter) || (e.Leave? && st.shut.once.Held? && st.shut.once.who == TheWriter)
  }

  lemma WriterCallStep(st: State, e: Event)
    requires ActorsOk(st) && Enabled(st, e)
    ensures One(st.writer.WriterCloses?) + One(e.WriterCalls?) + One(IsFailedWrite(e))
         == One(Do(st, e).writer.WriterCloses?) + One(WriterBack(st, e))
  {
    match e
    case Leave | PassBy(_) =>
    case _ =>
  }

  /** `a` is inside Close, or abort. */
  predicate Calls(st: State, a: Actor) {
    match a
    case TheReader => st.reader.ReaderCloses?
    case TheWriter => st.writer.WriterCloses?
    case Other(n) => Waits(st, n)
  }

  /** The next statement of doClose. */
  function NextStatement(sh: Shut): Event
    requires sh.once.Held?
  {
    match sh.once.step
    case Entered => Flag
    case Flagged => if sh.once.why.notify then StoreCode else SkipNotice
    case Coded => OfferDisconnect
    case Offered => Signal
    case Signalled => Deregister
    case Removed => Leave
  }

  // ---------------------------------------------------------------- whole runs

  /** How often the writer came back from a close, over a run. */
  ghost function WriterReturns(st: State, run: seq<Event>): nat
    decreases |run|
  {
    if run == [] || !Enabled(st, run[0]) then 0
    else One(WriterBack(st, run[0])) + WriterReturns(Do(st, run[0]), run[1..])
  }

  lemma {:induction false} WriterCallRun(st: State, run: seq<Event>, fin: State)
    requires Inv(st) && Runs(st, run, fin)
    ensures One(st.writer.WriterCloses?) + Times(run, IsWriterCall) + Times(run, IsFailedWrite)
         == One(fin.writer.WriterCloses?) + WriterReturns(st, run)
    decreases |run|
  {
    hide Do, Enabled, EffectsOk, ActorsOk, NoticesOk, WireOk, Bounded, WriterBack;
    if run != [] {
      Keeps(st, run[0]);
      WriterCallStep(st, run[0]);
      WriterCallRun(Do(st, run[0]), run[1..], fin);
    }
  }

  /**
   * Nobody waits in Close for ever: in every run a caller can enter the once, or finds it finished and can
   * go on, or waits for one that has an enabled statement of doClose ahead of it.
   */
  lemma CallersMove(capacity: nat, run: seq<Event>, fin: State, a: Actor)
    requires Runs(Start(capacity), run, fin) && Calls(fin, a)
    ensures match fin.shut.once
            case Fresh => Enabled(fin, Enter(a))
            case Held(_, _, _) => Enabled(fin, NextStatement(fin.shut))
            case Finished(_) => Enabled(fin, if a == TheReader then ReaderResumes else PassBy(a))
  {
    assert Inv(Start(capacity));
    RunKeeps(Start(capacity), run, fin);
    hide Do, Runs, NoticesOk, WireOk;
  }

  lemma {:induction false} OnceRun(st: State, run: seq<Event>, fin: State)
    requires Inv(st) && Runs(st, run, fin)
    ensures One(fin.shut.closed) == One(st.shut.closed) + Times(run, IsFlag)
    ensures One(Reached(fin.shut) >= 3) == One(Reached(st.shut) >= 3) + Times(run, IsNotice)
    ensures One(fin.shut.closing) == One(st.shut.closing) + Times(run, IsSignal)
    ensures fin.shut.removes == st.shut.removes + Times(run, IsDeregister)
    ensures One(!fin.shut.once.Fresh?) == One(!st.shut.once.Fresh?) + Times(run, IsEnter)
    ensures One(fin.shut.once.Finished?) == One(st.shut.once.Finished?) + Times(run, IsLeave)
    decreases |run|
  {
    hide Do, Enabled, EffectsOk, ActorsOk, NoticesOk, WireOk, Bounded;
    if run != [] {
      Keeps(st, run[0]);
      OnceStep(st, run[0]);
      OnceRun(Do(st, run[0]), run[1..], fin);
    }
  }

  lemma {:induction false} TrafficRun(st: State, run: seq<Event>, fin: State)
    requires Runs(st, run, fin)
    ensures fin.out.senders == st.out.senders + Times(run, IsStartSend) - Times(run, IsQueue)
    ensures fin.out.taken == st.out.taken + Times(run, IsTake)
    ensures fin.sockCloses == st.sockCloses + Times(run, IsCloseSocket)
    ensures Times(fin.wire, IsDataFrame) == Times(st.wire, IsDataFrame) + Times(run, IsWritten)
    ensures Times(fin.wire, IsPingFrame) == Times(st.wire, IsPingFrame) + Times(run, IsPing)
    decreases |run|
  {
    hide Do, Enabled;
    if run != [] {
      var next := Do(st, run[0]);
      TrafficStep(st, run[0]);
      if |next.wire| > |st.wire| {
        var w := next.wire[|st.wire|];
        assert next.wire == st.wire + [w];
        TimesAppend(st.wire, w, IsDataFrame);
        TimesAppend(st.wire, w, IsPingFrame);
      }
      TrafficRun(next, run[1..], fin);
    }
  }

  lemma {:induction false} ActorRun(st: State, run: seq<Event>, fin: State, n: nat)
    requires Inv(st) && Runs(st, run, fin)
    ensures fin.reader.ReaderDone? <==> st.reader.ReaderDone? || ReaderExits in run
    ensures One(st.reader.ReaderCloses?) + Times(run, IsReaderCall)
         == One(fin.reader.ReaderCloses?) + Times(run, IsReaderBack)
    ensures n in fin.others <==> n in st.others || exists i :: 0 <= i < |run| && run[i].Call? && run[i].n == n
    ensures PassesOf(run, n) + One(Waits(fin, n)) <= One(Waits(st, n)) + One(n !in st.others)
    decreases |run|
  {
    hide Do, Enabled, EffectsOk, ActorsOk, NoticesOk, WireOk, Bounded;
    if run != [] {
      Keeps(st, run[0]);
      ActorStep(st, run[0], n);
      ActorRun(Do(st, run[0]), run[1..], fin, n);
    }
  }

  lemma {:induction false} WriterRun(st: State, run: seq<Event>, fin: State)
    requires Runs(st, run, fin)
    ensures One(st.writer.Draining?) + Times(run, IsSeeClosing) == One(fin.writer.Draining?) + Times(run, IsDrained)
    ensures One(Aborting(st.writer)) + One(st.writer.Ending?) + Times(run, IsDrained) + Times(run, IsFailedWrite)
         == One(Aborting(fin.writer)) + One(fin.writer.Ending?) + Times(run, IsCloseSocket)
    decreases |run|
  {
    hide Do, Enabled, Aborting;
    if run != [] {
      WriterStep(st, run[0]);
      WriterRun(Do(st, run[0]), run[1..], fin);
    }
  }

  // ---------------------------------------------------------------- the close frame

  predicate IsEnd(e: Event) { e == DrainEnd(true) }

  /** A winner that wanted the peer told. */
  predicate Notifies(sh: Shut) { Winner(sh).Some? && Winner(sh).value.notify }

  lemma CloseFrameStep(st: State, e: Event)
    requires Inv(st) && Enabled(st, e)
    ensures Times(Do(st, e).wire, IsCloseFrame) == Times(st.wire, IsCloseFrame) + One(IsEnd(e) && Notifies(st.shut))
    ensures IsEnd(e) ==> Winner(st.shut).Some?
  {
    TrafficStep(st, e);
    if IsEnd(e) {
      assert Reached(st.shut) >= 4;
    }
    var next := Do(st, e);
    hide Do, NoticesOk, WireOk;
    if |next.wire| > |st.wire| {
      assert next.wire == st.wire + [next.wire[|st.wire|]];
      TimesAppend(st.wire, next.wire[|st.wire|], IsCloseFrame);
    }
  }

  lemma {:induction false} CloseFrameRun(st: State, run: seq<Event>, fin: State)
    requires Inv(st) && Runs(st, run, fin)
    ensures Times(fin.wire, IsCloseFrame)
         == Times(st.wire, IsCloseFrame) + if Notifies(fin.shut) then Times(run, IsEnd) else 0
    decreases |run|
  {
    hide Do, Enabled, Inv;
    if run != [] {
      Keeps(st, run[0]);
      CloseFrameStep(st, run[0]);
      CloseFrameRun(Do(st, run[0]), run[1..], fin);
      if IsEnd(run[0]) {
        OneWinner(st, run, fin);
      }
    }
  }

  /**
   * In every run the websocket close frame with code `k` is written if and only if the writer drained its
   * queue to the end on a healthy socket and the winner asked for that code.
   */
  lemma CloseFrameIff(capacity: nat, run: seq<Event>, fin: State, k: int)
    requires Runs(Start(capacity), run, fin)
    ensures CloseFrame(k) in fin.wire <==> DrainEnd(true) in run && Winner(fin.shut) == Some(Reason(k, true))
  {
    assert Inv(Start(capacity));
    RunKeeps(Start(capacity), run, fin);
    CloseFrameRun(Start(capacity), run, fin);
    SomeTimes(fin.wire, IsCloseFrame);
    SomeTimes(run, IsEnd);
    hide Do, Enabled, EffectsOk, ActorsOk, NoticesOk;
  }

  /**
   * Where the writer has finished, no write failed and the winner notifies, the wire ends with its close
   * frame, behind everything the writer took out of the queue.
   */
  lemma EndsWithCloseFrame(capacity: nat, run: seq<Event>, fin: State)
    requires Runs(Start(capacity), run, fin) && fin.writer.WriterDone? && Notifies(fin.shut)
    requires forall i :: 0 <= i < |run| ==> !Fails(run[i])
    ensures fin.wire != [] && fin.wire[|fin.wire| - 1] == CloseFrame(Winner(fin.shut).value.code)
    ensures fin.out.taken <= |fin.out.accepted| && DataOf(fin.wire) == fin.out.accepted[..fin.out.taken]
  {
    var k := Winner(fin.shut).value.code;
    ClosesOnce(capacity, run, fin);
    assert Inv(Start(capacity));
    RunKeeps(Start(capacity), run, fin);
    TrafficRun(Start(capacity), run, fin);
    WriterRun(Start(capacity), run, fin);
    SomeTimes(run, IsFailedWrite);
    SomeTimes(run, IsDrained);
    var i :| 0 <= i < |run| && IsDrained(run[i]);
    assert run[i] == DrainEnd(true);
    CloseFrameIff(capacity, run, fin, k);
    hide Do, Enabled, EffectsOk, ActorsOk, NoticesOk;
  }

  /**
   * In every run: the once is entered and left at most once, and each of its effects is its statement's;
   * Sends, frames taken and written, pings and socket closes are as many as their steps; the writer drains
   * after having seen the end, and closes the socket once for each way out of its loop; the reader and
   * the writer come back from each close they waited for; and any other caller passes the finished close at most once.
   */
  lemma ConnByEvents(capacity: nat, run: seq<Event>, fin: State, n: nat)
    requires Runs(Start(capacity), run, fin)
    ensures One(fin.shut.closed) == Times(run, IsFlag) && One(fin.shut.closing) == Times(run, IsSignal)
    ensures One(Reached(fin.shut) >= 3) == Times(run, IsNotice)
    ensures fin.shut.removes == Times(run, IsDeregister)
    ensures One(!fin.shut.once.Fresh?) == Times(run, IsEnter) && One(fin.shut.once.Finished?) == Times(run, IsLeave)
    ensures fin.out.senders == Times(run, IsStartSend) - Times(run, IsQueue)
    ensures fin.out.taken == Times(run, IsTake) && fin.sockCloses == Times(run, IsCloseSocket)
    ensures Times(fin.wire, IsDataFrame) == Times(run, IsWritten) && Times(fin.wire, IsPingFrame) == Times(run, IsPing)
    ensures Times(run, IsSeeClosing) == One(fin.writer.Draining?) + Times(run, IsDrained)
    ensures Times(run, IsDrained) + Times(run, IsFailedWrite)
         == One(Aborting(fin.writer)) + One(fin.writer.Ending?) + Times(run, IsCloseSocket)
    ensures fin.reader.ReaderDone? <==> ReaderExits in run
    ensures Times(run, IsReaderCall) == One(fin.reader.ReaderCloses?) + Times(run, IsReaderBack)
    ensures Times(run, IsWriterCall) + Times(run, IsFailedWrite)
         == One(fin.writer.WriterCloses?) + WriterReturns(Start(capacity), run)
    ensures n in fin.others <==> exists i :: 0 <= i < |run| && run[i].Call? && run[i].n == n
    ensures PassesOf(run, n) + One(Waits(fin, n)) <= 1
  {
    assert Inv(Start(capacity));
    hide Do, Enabled, Inv;
    OnceRun(Start(capacity), run, fin);
    TrafficRun(Start(capacity), run, fin);
    ActorRun(Start(capacity), run, fin, n);
    WriterRun(Start(capacity), run, fin);
    WriterCallRun(Start(capacity), run, fin);
  }
}
