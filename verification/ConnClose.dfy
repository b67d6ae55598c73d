/**
 * internal/conn: how one connection ends.
 *
 * The reader, the writer and any number of other goroutines may all decide to close the same
 * connection. sync.Once runs one of them through doClose, statement by statement, while the others
 * wait for it; the writer alone touches the socket for writing and closes it.
 */
module ConnClose {
  import opened Bytes
  import opened HubSpec
  import HubOrder

  datatype Actor = TheReader | TheWriter | Other(n: nat)

  /** A call of Close (code, true) or abort (0, false). */
  datatype Reason = Reason(code: int, notify: bool)

  /** doClose's statements, in order. */
  datatype Step = Entered | Flagged | Coded | Offered | Signalled | Removed

  datatype Once = Fresh | Held(who: Actor, why: Reason, step: Step) | Finished(why: Reason)

  datatype Reader = Reading | ReaderCloses(why: Reason) | ReaderDone

  /** `last`: the write failed, so the loop ends after this abort. */
  datatype Writer = Looping | WriterCloses(why: Reason, last: bool) | Draining | Ending | WriterDone

  datatype Wire = Data(frame: Frame) | Ping | CloseFrame(code: int)

  /** The outbound queue. */
  datatype Outbox = Outbox(
    capacity: nat,
    accepted: seq<Frame>,   // everything it ever took
    taken: nat,             // how many of those the writer has taken out
    senders: nat)           // Sends past the closed check, before their offer
  {
    predicate Full() { |accepted| - taken >= capacity }

    function Push(f: Frame): Outbox {
      if Full() then this else this.(accepted := accepted + [f])
    }
  }

  /** What doClose works on. */
  datatype Shut = Shut(once: Once, closed: bool, closeCode: int, closing: bool, removes: nat)

  datatype State = State(
    out: Outbox,
    shut: Shut,
    reader: Reader,
    writer: Writer,
    others: map<nat, Option<Reason>>,   // goroutines inside Close, None once back
    wire: seq<Wire>,
    sockCloses: nat)

  datatype Event =
    | Call(n: nat, why: Reason)
    | ReaderCalls(why: Reason)
    | WriterCalls(why: Reason)
    | Enter(a: Actor)
    | Flag
    | StoreCode
    | OfferDisconnect
    | SkipNotice
    | Signal
    | Deregister
    | Leave
    | PassBy(a: Actor)
    | ReaderResumes
    | ReaderExits
    | StartSend
    | Queue(frame: Frame)
    | WriteFrame(ok: bool)
    | WritePing(ok: bool)
    | SeeClosing
    | DrainFrame(ok: bool)
    | DrainEnd(ok: bool)
    | CloseSocket

  function Start(capacity: nat): State {
    State(Outbox(capacity, [], 0, 0), Shut(Fresh, false, 0, false, 0), Reading, Looping, map[], [], 0)
  }

  /** What an actor inside Close asked for. */
  function Wants(st: State, a: Actor): Option<Reason> {
    match a
    case TheReader => if st.reader.ReaderCloses? then Some(st.reader.why) else None
    case TheWriter => if st.writer.WriterCloses? then Some(st.writer.why) else None
    case Other(n) => if n in st.others then st.others[n] else None
  }

  /** A close code for Close, none for abort. */
  predicate Proper(why: Reason) { why.notify <==> why.code != 0 }

  predicate At(sh: Shut, step: Step) { sh.once.Held? && sh.once.step == step }

  predicate Enabled(st: State, e: Event) {
    match e
    case Call(n, why) => n !in st.others && Proper(why)
    case ReaderCalls(why) => st.reader.Reading? && Proper(why)
    case WriterCalls(why) => st.writer.Looping? && Proper(why) && why.notify
    case Enter(a) => st.shut.once.Fresh? && Wants(st, a).Some?
    case Flag => At(st.shut, Entered)
    case StoreCode => At(st.shut, Flagged) && st.shut.once.why.notify
    case OfferDisconnect => At(st.shut, Coded)
    case SkipNotice => At(st.shut, Flagged) && !st.shut.once.why.notify
    case Signal => At(st.shut, Offered)
    case Deregister => At(st.shut, Signalled)
    case Leave => At(st.shut, Removed)
    case PassBy(a) => st.shut.once.Finished? && Wants(st, a).Some? && a != TheReader
    case ReaderResumes => st.shut.once.Finished? && st.reader.ReaderCloses?
    case ReaderExits => st.shut.once.Finished? && st.reader.ReaderCloses?
    case StartSend => !st.shut.closed
    case Queue(f) => st.out.senders > 0 && !f.Disconnect?
    case WriteFrame(ok) => st.writer.Looping? && st.out.taken < |st.out.accepted|
    case WritePing(ok) => st.writer.Looping?
    case SeeClosing => st.writer.Looping? && st.shut.closing
    case DrainFrame(ok) => st.writer.Draining? && st.out.taken < |st.out.accepted|
    case DrainEnd(ok) => st.writer.Draining? && st.out.taken >= |st.out.accepted|
    case CloseSocket => st.writer.Ending?
  }

  /** An actor's call of Close returns. */
  function Back(st: State, a: Actor): State {
    match a
    case TheReader => st
    case TheWriter => if st.writer.WriterCloses? then st.(writer := if st.writer.last then Ending else Looping) else st
    case Other(n) => st.(others := st.others[n := None])
  }

  function Do(st: State, e: Event): State
    requires Enabled(st, e)
  {
    match e
    case Call(n, why) => st.(others := st.others[n := Some(why)])
    case ReaderCalls(why) => st.(reader := ReaderCloses(why))
    case WriterCalls(why) => st.(writer := WriterCloses(why, false))
    case Enter(a) => st.(shut := st.shut.(once := Held(a, Wants(st, a).value, Entered)))
    case Flag => st.(shut := st.shut.(closed := true, once := st.shut.once.(step := Flagged)))
    case StoreCode => st.(shut := st.shut.(closeCode := st.shut.once.why.code, once := st.shut.once.(step := Coded)))
    case OfferDisconnect =>
      st.(out := st.out.Push(Frame.Disconnect(st.shut.once.why.code)),
          shut := st.shut.(once := st.shut.once.(step := Offered)))
    case SkipNotice => st.(shut := st.shut.(once := st.shut.once.(step := Offered)))
    case Signal => st.(shut := st.shut.(closing := true, once := st.shut.once.(step := Signalled)))
    case Deregister => st.(shut := st.shut.(removes := st.shut.removes + 1, once := st.shut.once.(step := Removed)))
    case Leave => Back(st.(shut := st.shut.(once := Finished(st.shut.once.why))), st.shut.once.who)
    case PassBy(a) => Back(st, a)
    case ReaderResumes => st.(reader := Reading)
    case ReaderExits => st.(reader := ReaderDone)
    case StartSend => st.(out := st.out.(senders := st.out.senders + 1))
    case Queue(f) => st.(out := st.out.Push(f).(senders := st.out.senders - 1))
    case WriteFrame(ok) =>
      var f := st.out.accepted[st.out.taken];
      if ok then st.(out := st.out.(taken := st.out.taken + 1), wire := st.wire + [Data(f)])
      else st.(out := st.out.(taken := st.out.taken + 1), writer := WriterCloses(Reason(0, false), true))
    case WritePing(ok) =>
      if ok then st.(wire := st.wire + [Ping]) else st.(writer := WriterCloses(Reason(0, false), true))
    case SeeClosing => st.(writer := Draining)
    case DrainFrame(ok) =>
      if ok then st.(out := st.out.(taken := st.out.taken + 1), wire := st.wire + [Data(st.out.accepted[st.out.taken])])
      else st.(out := st.out.(taken := st.out.taken + 1), writer := Ending)
    case DrainEnd(ok) =>
      st.(writer := Ending,
          wire := if ok && st.shut.closeCode != 0 then st.wire + [CloseFrame(st.shut.closeCode)] else st.wire)
    case CloseSocket => st.(sockCloses := st.sockCloses + 1, writer := WriterDone)
  }

  // ---------------------------------------------------------------- invariant

  /** How far the one execution of doClose has come. */
  function Reached(sh: Shut): nat {
    match sh.once
    case Fresh => 0
    case Finished(_) => 6
    case Held(_, _, step) =>
      (match step
       case Entered => 0
       case Flagged => 1
       case Coded => 2
       case Offered => 3
       case Signalled => 4
       case Removed => 5)
  }

  function Winner(sh: Shut): Option<Reason> {
    if sh.once.Fresh? then None else Some(sh.once.why)
  }

  /** Each effect of doClose has happened exactly when its statement has run. */
  predicate EffectsOk(sh: Shut) {
    && (sh.closed <==> Reached(sh) >= 1)
    && (sh.closing <==> Reached(sh) >= 4)
    && sh.removes == (if Reached(sh) >= 5 then 1 else 0)
    && sh.closeCode
       == (if Winner(sh).Some? && Winner(sh).value.notify && Reached(sh) >= 2 then Winner(sh).value.code else 0)
    && (Winner(sh).Some? ==> Proper(Winner(sh).value))
    && (At(sh, Coded) ==> sh.once.why.notify)
  }

  predicate ActorsOk(st: State) {
    && (st.shut.once.Held? ==> Wants(st, st.shut.once.who) == Some(st.shut.once.why))
    && (st.reader.ReaderCloses? ==> Proper(st.reader.why))
    && (st.writer.WriterCloses? ==> Proper(st.writer.why))
    && (forall n :: n in st.others && st.others[n].Some? ==> Proper(st.others[n].value))
    && (st.reader.ReaderDone? ==> st.shut.once.Finished?)
    && (st.writer.Draining? || st.writer.Ending? || st.writer.WriterDone? ==> st.shut.closing)
    && st.sockCloses == (if st.writer.WriterDone? then 1 else 0)
  }

  /** Only the winner's code is ever queued, once, and not before its statement. */
  ghost predicate NoticesOk(st: State) {
    && (forall i :: 0 <= i < |st.out.accepted| && st.out.accepted[i].Disconnect? ==>
          Reached(st.shut) >= 3 && Winner(st.shut) == Some(Reason(st.out.accepted[i].code, true)))
    && (forall i, j :: 0 <= i < j < |st.out.accepted| && st.out.accepted[i].Disconnect? ==>
          !st.out.accepted[j].Disconnect?)
  }

  /** The data frames among what was written, in order. */
  function DataOf(wire: seq<Wire>): seq<Frame> {
    if wire == [] then []
    else
      var rest := DataOf(wire[..|wire| - 1]);
      if wire[|wire| - 1].Data? then rest + [wire[|wire| - 1].frame] else rest
  }

  /** The writer's stages in which every frame it took out has been written. */
  predicate InStep(w: Writer) { w.Looping? || w.Draining? || (w.WriterCloses? && !w.last) }

  /** Queue order is wire order; a close frame is last and carries the stored code. */
  ghost predicate WireOk(st: State) {
    && st.out.taken <= |st.out.accepted|
    && DataOf(st.wire) <= st.out.accepted[..st.out.taken]
    && (InStep(st.writer) ==> DataOf(st.wire) == st.out.accepted[..st.out.taken])
    && (forall i :: 0 <= i < |st.wire| && st.wire[i].CloseFrame? ==>
          && i == |st.wire| - 1 && (st.writer.Ending? || st.writer.WriterDone?)
          && Winner(st.shut) == Some(Reason(st.wire[i].code, true))
          && DataOf(st.wire) == st.out.accepted[..st.out.taken])
  }

  /** The queue never holds more than its capacity. */
  predicate Bounded(out: Outbox) { |out.accepted| - out.taken <= out.capacity }

  ghost predicate Inv(st: State) {
    EffectsOk(st.shut) && ActorsOk(st) && NoticesOk(st) && WireOk(st) && Bounded(st.out)
  }

  // ---------------------------------------------------------------- every step keeps it

  lemma DataOfAppend(wire: seq<Wire>, w: Wire)
    ensures DataOf(wire + [w]) == if w.Data? then DataOf(wire) + [w.frame] else DataOf(wire)
  {
    assert (wire + [w])[..|wire|] == wire;
  }

  lemma KeepsEffects(st: State, e: Event)
    requires EffectsOk(st.shut) && ActorsOk(st) && Enabled(st, e)
    ensures EffectsOk(Do(st, e).shut)
  {
    match e
    case Enter(a) =>
    case Flag =>
    case StoreCode =>
    case OfferDisconnect =>
    case SkipNotice =>
    case Signal =>
    case Deregister =>
    case Leave =>
    case PassBy(a) =>
    case _ =>
  }

  lemma KeepsActors(st: State, e: Event)
    requires EffectsOk(st.shut) && ActorsOk(st) && Enabled(st, e)
    ensures ActorsOk(Do(st, e))
  {
    match e
    case Call(_, _) | ReaderCalls(_) | WriterCalls(_) =>
    case Enter(_) =>
    case Flag | StoreCode | OfferDisconnect | SkipNotice | Signal | Deregister =>
    case Leave =>
    case PassBy(_) =>
    case ReaderResumes | ReaderExits =>
    case StartSend | Queue(_) =>
    case WriteFrame(_) | WritePing(_) =>
    case SeeClosing | DrainFrame(_) | DrainEnd(_) | CloseSocket =>
  }

  /** The queue gains at most one frame, and a disconnect frame only from the winner's own offer. */
  lemma QueueGains(st: State, e: Event)
    requires Enabled(st, e)
    ensures var q := Do(st, e).out.accepted;
            || q == st.out.accepted
            || (exists f :: q == st.out.accepted + [f] && !f.Disconnect?)
            || (At(st.shut, Coded) && Reached(Do(st, e).shut) == 3
                && q == st.out.accepted + [Frame.Disconnect(st.shut.once.why.code)])
    ensures Reached(Do(st, e).shut) >= Reached(st.shut)
    ensures Winner(st.shut).Some? ==> Winner(Do(st, e).shut) == Winner(st.shut)
  {
    match e
    case Queue(f) => assert !st.out.Full() ==> Do(st, e).out.accepted == st.out.accepted + [f] && !f.Disconnect?;
    case OfferDisconnect =>
    case Leave =>
    case _ =>
  }

  lemma KeepsNotices(st: State, e: Event)
    requires EffectsOk(st.shut) && NoticesOk(st) && Enabled(st, e)
    ensures NoticesOk(Do(st, e))
  {
    hide Do, Enabled;
    QueueGains(st, e);
  }

  /** A frame was taken out of the queue and, unless the write failed, written. */
  lemma TakenOut(st: State)
    requires WireOk(st) && st.out.taken < |st.out.accepted| && (st.writer.Looping? || st.writer.Draining?)
    ensures st.out.accepted[..st.out.taken + 1] == st.out.accepted[..st.out.taken] + [st.out.accepted[st.out.taken]]
    ensures DataOf(st.wire + [Data(st.out.accepted[st.out.taken])]) == st.out.accepted[..st.out.taken + 1]
    ensures forall i :: 0 <= i < |st.wire| ==> !st.wire[i].CloseFrame?
  {
    DataOfAppend(st.wire, Data(st.out.accepted[st.out.taken]));
  }

  predicate Writes(e: Event) { e.WriteFrame? || e.WritePing? || e.DrainFrame? || e.DrainEnd? }

  /** What any other step may do to the queue, the wire and the writer's stage. */
  lemma WritesNothing(st: State, e: Event)
    requires Enabled(st, e) && !Writes(e)
    ensures Do(st, e).wire == st.wire && Do(st, e).out.taken == st.out.taken
    ensures st.out.accepted <= Do(st, e).out.accepted
    ensures InStep(Do(st, e).writer) ==> InStep(st.writer)
    ensures st.writer.Ending? || st.writer.WriterDone? ==> Do(st, e).writer.Ending? || Do(st, e).writer.WriterDone?
    ensures Winner(st.shut).Some? ==> Winner(Do(st, e).shut) == Winner(st.shut)
  {
    match e
    case Leave =>
    case PassBy(_) =>
    case _ =>
  }

  lemma KeepsWire(st: State, e: Event)
    requires EffectsOk(st.shut) && ActorsOk(st) && WireOk(st) && Enabled(st, e)
    ensures WireOk(Do(st, e))
  {
    if Writes(e) {
      KeepsWireWriting(st, e);
    } else {
      hide Do, Enabled, EffectsOk, ActorsOk;
      WritesNothing(st, e);
      assert Do(st, e).out.accepted[..st.out.taken] == st.out.accepted[..st.out.taken];
    }
  }

  lemma KeepsWireWriting(st: State, e: Event)
    requires EffectsOk(st.shut) && ActorsOk(st) && WireOk(st) && Enabled(st, e) && Writes(e)
    ensures WireOk(Do(st, e))
  {
    match e
    case WriteFrame(_) => TakenOut(st);
    case DrainFrame(_) => TakenOut(st);
    case WritePing(_) => DataOfAppend(st.wire, Ping);
    case DrainEnd(_) => DataOfAppend(st.wire, CloseFrame(st.shut.closeCode));
  }

  lemma KeepsBound(st: State, e: Event)
    requires Bounded(st.out) && Enabled(st, e)
    ensures Bounded(Do(st, e).out)
  {
    match e
    case OfferDisconnect =>
    case Leave | PassBy(_) =>
    case Queue(_) =>
    case WriteFrame(_) | DrainFrame(_) =>
    case _ =>
  }

  lemma Keeps(st: State, e: Event)
    requires Inv(st) && Enabled(st, e)
    ensures Inv(Do(st, e))
  {
    hide EffectsOk, ActorsOk, NoticesOk, WireOk, Bounded, Do, Enabled;
    KeepsBound(st, e);
    KeepsEffects(st, e);
    KeepsActors(st, e);
    KeepsNotices(st, e);
    KeepsWire(st, e);
  }

  // ---------------------------------------------------------------- whole runs

  ghost predicate Runs(st: State, run: seq<Event>, fin: State)
    decreases |run|
  {
    if run == [] then fin == st
    else Enabled(st, run[0]) && Runs(Do(st, run[0]), run[1..], fin)
  }

  lemma {:induction false} RunKeeps(st: State, run: seq<Event>, fin: State)
    requires Inv(st) && Runs(st, run, fin)
    ensures Inv(fin)
    decreases |run|
  {
    if run != [] {
      Keeps(st, run[0]);
      RunKeeps(Do(st, run[0]), run[1..], fin);
    }
  }

  /** Once chosen, the winner and what it asked for never change. */
  lemma {:induction false} OneWinner(st: State, run: seq<Event>, fin: State)
    requires Inv(st) && Runs(st, run, fin) && Winner(st.shut).Some?
    ensures Winner(fin.shut) == Winner(st.shut)
    decreases |run|
  {
    hide Do, Enabled, Inv;
    if run != [] {
      Keeps(st, run[0]);
      QueueGains(st, run[0]);
      OneWinner(Do(st, run[0]), run[1..], fin);
    }
  }

  /**
   * In every run: at most one deregistration and one socket close, exactly one of each once the
   * winner and the writer are done; a websocket close frame (section 5.5.1 of RFC 6455) is the last
   * thing written and carries the winner's code, as does every disconnect frame queued or written,
   * of which there is at most one; and a reader that has exited leaves `closing` closed.
   */
  lemma ClosesOnce(capacity: nat, run: seq<Event>, fin: State)
    requires Runs(Start(capacity), run, fin)
    ensures fin.shut.removes <= 1 && (fin.shut.once.Finished? ==> fin.shut.removes == 1)
    ensures fin.sockCloses <= 1 && (fin.writer.WriterDone? <==> fin.sockCloses == 1)
    ensures forall i :: 0 <= i < |fin.wire| && fin.wire[i].CloseFrame? ==>
              i == |fin.wire| - 1 && Winner(fin.shut) == Some(Reason(fin.wire[i].code, true))
    ensures forall i :: 0 <= i < |fin.out.accepted| && fin.out.accepted[i].Disconnect? ==>
              Winner(fin.shut) == Some(Reason(fin.out.accepted[i].code, true))
    ensures forall i, j :: 0 <= i < j < |fin.out.accepted| && fin.out.accepted[i].Disconnect? ==>
              !fin.out.accepted[j].Disconnect?
    ensures fin.reader.ReaderDone? || fin.writer.WriterDone? ==> fin.shut.closing
  {
    assert Inv(Start(capacity));
    RunKeeps(Start(capacity), run, fin);
  }

  // ---------------------------------------------------------------- what follows the disconnect frame

  /** The queue has room, or a writer that may still take a frame out of it. */
  predicate Room(st: State) {
    !st.out.Full() || (st.out.capacity > 0 && InStep(st.writer))
  }

  /** Some continuation queues another frame. */
  ghost predicate Grows(st: State) {
    exists run, fin :: Runs(st, run, fin) && fin.out.accepted != st.out.accepted
  }

  predicate Settled(st: State) { Reached(st.shut) >= 3 && (st.out.senders == 0 || !Room(st)) }

  lemma SettledStays(st: State, e: Event)
    requires EffectsOk(st.shut) && st.out.taken <= |st.out.accepted| && Enabled(st, e) && Settled(st)
    ensures Do(st, e).out.accepted == st.out.accepted && Settled(Do(st, e))
  {
    match e
    case Queue(_) =>
    case Leave | PassBy(_) =>
    case WriteFrame(_) | DrainFrame(_) =>
    case _ =>
  }

  lemma {:induction false} SettledForever(st: State, run: seq<Event>, fin: State)
    requires Inv(st) && Runs(st, run, fin) && Settled(st)
    ensures fin.out.accepted == st.out.accepted
    decreases |run|
  {
    if run != [] {
      Keeps(st, run[0]);
      SettledStays(st, run[0]);
      SettledForever(Do(st, run[0]), run[1..], fin);
    }
  }

  /** The next step towards queueing `f`: finish doClose, bring the writer back, take a frame out. */
  function Toward(st: State, f: Frame): Event {
    if !st.out.Full() then Queue(f)
    else if st.writer.Looping? then WriteFrame(true)
    else if st.writer.Draining? then DrainFrame(true)
    else if At(st.shut, Offered) then Signal
    else if At(st.shut, Signalled) then Deregister
    else if At(st.shut, Removed) then Leave
    else PassBy(TheWriter)
  }

  /** How many of those steps are left. */
  function Distance(st: State): nat {
    if !st.out.Full() then 0 else if st.writer.WriterCloses? then 8 - Reached(st.shut) else 1
  }

  lemma TowardWorks(st: State, f: Frame)
    requires EffectsOk(st.shut) && Reached(st.shut) >= 3 && Bounded(st.out)
    requires st.out.senders > 0 && Room(st) && st.out.Full() && !f.Disconnect?
    ensures var e := Toward(st, f);
            && Enabled(st, e)
            && Reached(Do(st, e).shut) >= 3 && Distance(Do(st, e)) < Distance(st)
            && Do(st, e).out.accepted == st.out.accepted && Do(st, e).out.senders == st.out.senders
            && Room(Do(st, e))
  {
    if st.writer.WriterCloses? && At(st.shut, Removed) {
      assert Toward(st, f) == Leave;
    }
  }

  lemma {:induction false} Appends(st: State, f: Frame) returns (run: seq<Event>, fin: State)
    requires Inv(st) && Reached(st.shut) >= 3 && st.out.senders > 0 && Room(st) && !f.Disconnect?
    ensures Runs(st, run, fin) && fin.out.accepted == st.out.accepted + [f]
    decreases Distance(st)
  {
    var e := Toward(st, f);
    if st.out.Full() {
      hide Toward, Do, Enabled, Distance, Room;
      TowardWorks(st, f);
      Keeps(st, e);
      run, fin := Appends(Do(st, e), f);
    } else {
      run, fin := [], Do(st, e);
    }
    run := Before(st, e, run, fin);
  }

  /**
   * Once the disconnect frame has been offered it is the last thing the queue takes, on every
   * continuation, exactly where no Send is past its closed check or there is no room to come.
   */
  lemma DisconnectLast(capacity: nat, before: seq<Event>, st: State)
    requires Runs(Start(capacity), before, st) && Reached(st.shut) >= 3
    ensures Grows(st) <==> st.out.senders > 0 && Room(st)
  {
    assert Inv(Start(capacity));
    RunKeeps(Start(capacity), before, st);
    if st.out.senders > 0 && Room(st) {
      var run, fin := Appends(st, OtherReply);
      assert |fin.out.accepted| == |st.out.accepted| + 1;
    } else {
      forall run, fin | Runs(st, run, fin) ensures fin.out.accepted == st.out.accepted {
        SettledForever(st, run, fin);
      }
    }
  }

  function Script(why: Reason, f: Frame): seq<Event> {
    [StartSend, Call(0, why), Enter(Other(0)), Flag, StoreCode, OfferDisconnect, Queue(f)]
  }

  /** The states of that script, from the start of a connection with room for two frames. */
  function Stage(why: Reason, f: Frame, i: nat): State {
    var step := if i <= 3 then Entered else if i == 4 then Flagged else if i == 5 then Coded else Offered;
    var notice := Frame.Disconnect(why.code);
    State(Outbox(2, if i < 6 then [] else if i == 6 then [notice] else [notice, f], 0, if 1 <= i < 7 then 1 else 0),
          Shut(if i < 3 then Fresh else Held(Other(0), why, step),
               i >= 4, if i >= 5 then why.code else 0, false, 0),
          Reading, Looping, if i < 2 then map[] else map[0 := Some(why)], [], 0)
  }

  lemma StageStep(why: Reason, f: Frame, i: nat)
    requires i < 7 && why.notify && why.code != 0 && !f.Disconnect?
    ensures Enabled(Stage(why, f, i), Script(why, f)[i])
    ensures Do(Stage(why, f, i), Script(why, f)[i]) == Stage(why, f, i + 1)
  {}

  /** The condition is needed: a Send that saw the connection open may still queue behind the disconnect frame. */
  lemma FrameAfterDisconnect(code: int, f: Frame) returns (run: seq<Event>, fin: State)
    requires code != 0 && !f.Disconnect?
    ensures Runs(Start(2), run, fin) && fin.out.accepted == [Frame.Disconnect(code), f]
  {
    var why := Reason(code, true);
    fin := Stage(why, f, 7);
    run := [];
    var i := 7;
    while i > 0
      invariant 0 <= i <= 7 && Runs(Stage(why, f, i), run, fin)
    {
      hide Stage, Do, Enabled, Runs;
      i := i - 1;
      StageStep(why, f, i);
      run := Before(Stage(why, f, i), Script(why, f)[i], run, fin);
    }
  }

  lemma Before(st: State, e: Event, run: seq<Event>, fin: State) returns (longer: seq<Event>)
    requires Enabled(st, e) && Runs(Do(st, e), run, fin)
    ensures Runs(st, longer, fin)
  {
    longer := [e] + run;
    assert longer[1..] == run;
  }

  /** One writer turns queue order into wire order, so what is ordered in the queue is ordered on the wire. */
  lemma WireOrder(capacity: nat, run: seq<Event>, fin: State)
    requires Runs(Start(capacity), run, fin)
    ensures DataOf(fin.wire) <= fin.out.accepted
    ensures HubOrder.Ordered(fin.out.accepted) ==> HubOrder.Ordered(DataOf(fin.wire))
  {
    assert Inv(Start(capacity));
    RunKeeps(Start(capacity), run, fin);
    var wire := DataOf(fin.wire);
    assert wire == fin.out.accepted[..|wire|];
    if HubOrder.Ordered(fin.out.accepted) {
      forall i | 0 <= i < |wire| && wire[i].Pub? ensures HubOrder.Announced(wire[..i], wire[i].channel) {
        assert wire[..i] == fin.out.accepted[..i] && wire[i] == fin.out.accepted[i];
      }
    }
  }

  /** A writer that has not seen the end has a step of its own once `closing` is closed. */
  predicate CanEnd(st: State) {
    || Enabled(st, SeeClosing) || Enabled(st, PassBy(TheWriter))
    || Enabled(st, DrainFrame(true)) || Enabled(st, DrainEnd(true)) || Enabled(st, CloseSocket)
  }

  lemma ReaderGone(st: State)
    requires EffectsOk(st.shut) && ActorsOk(st) && st.reader.ReaderDone? && !st.writer.WriterDone?
    ensures CanEnd(st)
  {}

  /**
   * Run cannot wait for ever on a writer nobody told to stop: once the reader has exited, the writer
   * is either done or has a step of its own towards the end.
   */
  lemma WriterIsTold(capacity: nat, run: seq<Event>, fin: State)
    requires Runs(Start(capacity), run, fin) && fin.reader.ReaderDone? && !fin.writer.WriterDone?
    ensures CanEnd(fin)
  {
    assert Inv(Start(capacity));
    hide Do, Enabled, CanEnd;
    RunKeeps(Start(capacity), run, fin);
    ReaderGone(fin);
  }
}
