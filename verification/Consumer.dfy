/**
 * internal/consumer: dispatch workers, the control goroutine between them, and what each message counts as.
 */
module Consumer {
  import opened Bytes

  datatype Reason = Unsigned | Stale | Malformed

  /** Verify's answer on a control payload, and then hub.Control's. */
  datatype Verdict = Rejected(reason: Reason) | Verified(accepted: bool)

  /** A bus message: the channel it came on, and what the checks on its payload will find. */
  datatype Msg = Msg(channel: Text, size: nat, parses: bool, verdict: Verdict)

  datatype Worker = Idle | Holding(msg: Msg) | WorkerDone

  datatype Applier = Waiting | Applying(msg: Msg) | ApplierDone

  datatype Runner = JoiningWorkers | JoiningControl | Returned

  datatype Counters = Counters(
    dispatched: nat, malformed: nat, oversize: nat,
    applied: nat, unsigned: nat, stale: nat, controlMalformed: nat)

  /** What has been done so far. */
  datatype Log = Log(
    counters: Counters,
    received: nat,
    delivered: seq<Msg>,   // what deliver was called with
    toHub: seq<Msg>,       // what hub.Dispatch was called with
    toControl: seq<Msg>)   // what Verify, and then hub.Control, was called with

  datatype State = State(
    intake: seq<Msg>, busClosed: bool,
    workers: seq<Worker>,
    controlq: seq<Msg>, controlClosed: bool,
    applier: Applier,
    runner: Runner,
    cancelled: bool,
    log: Log)

  datatype Limits = Limits(controlKey: Text, maxMessage: int, controlQueue: nat) {
    predicate IsControl(m: Msg) { m.channel == controlKey }
  }

  datatype Event =
    | Arrive(msg: Msg)
    | BusClose
    | Cancel
    | Receive(i: nat)
    | Deliver(i: nat)
    | Forward(i: nat)
    | WorkerSeesClose(i: nat)
    | WorkerCancelled(i: nat)
    | TakeControl
    | Apply
    | ApplierSeesClose
    | ApplierCancelled
    | CloseControl
    | Finish

  function Start(workers: nat): State {
    State([], false, seq(workers, i => Idle), [], false, Waiting, JoiningWorkers, false,
          Log(Counters(0, 0, 0, 0, 0, 0, 0), 0, [], [], []))
  }

  predicate Enabled(lim: Limits, st: State, e: Event) {
    match e
    case Arrive(_) => !st.busClosed
    case BusClose => !st.busClosed
    case Cancel => true
    case Receive(i) => i < |st.workers| && st.workers[i].Idle? && st.intake != []
    case Deliver(i) => i < |st.workers| && st.workers[i].Holding? && !lim.IsControl(st.workers[i].msg)
    case Forward(i) =>
      && i < |st.workers| && st.workers[i].Holding? && lim.IsControl(st.workers[i].msg)
      && |st.controlq| < lim.controlQueue
    case WorkerSeesClose(i) => i < |st.workers| && st.workers[i].Idle? && st.intake == [] && st.busClosed
    case WorkerCancelled(i) =>
      && i < |st.workers| && st.cancelled
      && (st.workers[i].Idle? || (st.workers[i].Holding? && lim.IsControl(st.workers[i].msg)))
    case TakeControl => st.applier.Waiting? && st.controlq != []
    case Apply => st.applier.Applying?
    case ApplierSeesClose => st.applier.Waiting? && st.controlq == [] && st.controlClosed
    case ApplierCancelled => st.applier.Waiting? && st.cancelled
    case CloseControl => st.runner.JoiningWorkers? && AllDone(st.workers)
    case Finish => st.runner.JoiningControl? && st.applier.ApplierDone?
  }

  predicate AllDone(ws: seq<Worker>) { forall i :: 0 <= i < |ws| ==> ws[i].WorkerDone? }

  /** Consumer.deliver. */
  function Delivered(lim: Limits, c: Counters, m: Msg): Counters {
    if lim.maxMessage > 0 && m.size > lim.maxMessage then c.(oversize := c.oversize + 1)
    else if !m.parses then c.(malformed := c.malformed + 1)
    else c.(dispatched := c.dispatched + 1)
  }

  /** Consumer.apply and count. */
  function Applied(c: Counters, m: Msg): Counters {
    match m.verdict
    case Rejected(Unsigned) => c.(unsigned := c.unsigned + 1)
    case Rejected(Stale) => c.(stale := c.stale + 1)
    case Rejected(Malformed) => c.(controlMalformed := c.controlMalformed + 1)
    case Verified(accepted) =>
      if accepted then c.(applied := c.applied + 1) else c.(controlMalformed := c.controlMalformed + 1)
  }

  function AfterDeliver(lim: Limits, log: Log, m: Msg): Log {
    log.(counters := Delivered(lim, log.counters, m), delivered := log.delivered + [m],
         toHub := if lim.maxMessage > 0 && m.size > lim.maxMessage then log.toHub else log.toHub + [m])
  }

  function AfterApply(log: Log, m: Msg): Log {
    log.(counters := Applied(log.counters, m), toControl := log.toControl + [m])
  }

  function Do(lim: Limits, st: State, e: Event): State
    requires Enabled(lim, st, e)
  {
    match e
    case Arrive(m) => st.(intake := st.intake + [m])
    case BusClose => st.(busClosed := true)
    case Cancel => st.(cancelled := true)
    case Receive(i) =>
      st.(intake := st.intake[1..], workers := st.workers[i := Holding(st.intake[0])],
          log := st.log.(received := st.log.received + 1))
    case Deliver(i) => st.(workers := st.workers[i := Idle], log := AfterDeliver(lim, st.log, st.workers[i].msg))
    case Forward(i) => st.(workers := st.workers[i := Idle], controlq := st.controlq + [st.workers[i].msg])
    case WorkerSeesClose(i) => st.(workers := st.workers[i := WorkerDone])
    case WorkerCancelled(i) => st.(workers := st.workers[i := WorkerDone])
    case TakeControl => st.(applier := Applying(st.controlq[0]), controlq := st.controlq[1..])
    case Apply => st.(applier := Waiting, log := AfterApply(st.log, st.applier.msg))
    case ApplierSeesClose => st.(applier := ApplierDone)
    case ApplierCancelled => st.(applier := ApplierDone)
    case CloseControl => st.(controlClosed := true, runner := JoiningControl)
    case Finish => st.(runner := Returned)
  }

  // ---------------------------------------------------------------- adding up

  function Total(c: Counters): nat {
    c.dispatched + c.malformed + c.oversize + c.applied + c.unsigned + c.stale + c.controlMalformed
  }

  function Sum(ws: seq<Worker>, f: Worker -> nat): nat {
    if ws == [] then 0 else f(ws[0]) + Sum(ws[1..], f)
  }

  lemma {:induction false} SumUpdate(ws: seq<Worker>, f: Worker -> nat, i: nat, w: Worker)
    requires i < |ws|
    ensures Sum(ws[i := w], f) + f(ws[i]) == Sum(ws, f) + f(w)
  {
    if i == 0 {
      assert ws[0 := w][1..] == ws[1..];
    } else {
      SumUpdate(ws[1..], f, i - 1, w);
      assert ws[i := w][1..] == ws[1..][i - 1 := w];
    }
  }

  lemma {:induction false} SumDone(ws: seq<Worker>, f: Worker -> nat)
    requires AllDone(ws) && f(WorkerDone) == 0
    ensures Sum(ws, f) == 0
  {
    if ws != [] {
      assert AllDone(ws[1..]);
      SumDone(ws[1..], f);
    }
  }

  function InHand(w: Worker): nat { if w.Holding? then 1 else 0 }

  /** Messages received and not counted yet. */
  function Pending(st: State): nat {
    Sum(st.workers, InHand) + |st.controlq| + (if st.applier.Applying? then 1 else 0)
  }

  // ---------------------------------------------------------------- invariant

  /** The control queue closes only when no worker is left to send on it. */
  predicate Stages(st: State) {
    && (st.controlClosed <==> !st.runner.JoiningWorkers?)
    && (st.controlClosed ==> AllDone(st.workers))
    && (st.runner.Returned? ==> st.applier.ApplierDone?)
    && (!st.cancelled ==>
          && (forall i :: 0 <= i < |st.workers| && st.workers[i].WorkerDone? ==> st.intake == [] && st.busClosed)
          && (st.applier.ApplierDone? ==> st.controlq == [] && st.controlClosed))
  }

  predicate OnlyControl(lim: Limits, ms: seq<Msg>) { forall i :: 0 <= i < |ms| ==> lim.IsControl(ms[i]) }

  /** Each message is where its channel sends it. */
  predicate Sorted(lim: Limits, st: State) {
    && OnlyControl(lim, st.controlq) && OnlyControl(lim, st.log.toControl)
    && (st.applier.Applying? ==> lim.IsControl(st.applier.msg))
    && (forall i :: 0 <= i < |st.log.toHub| ==> !lim.IsControl(st.log.toHub[i]))
  }

  /** The messages not over the limit, in order; no limit at zero or below. */
  function Fitting(max: int, ms: seq<Msg>): seq<Msg> {
    if ms == [] then []
    else Fitting(max, ms[..|ms| - 1]) + if 0 < max < ms[|ms| - 1].size then [] else [ms[|ms| - 1]]
  }

  function Parsing(ms: seq<Msg>, parses: bool): nat {
    if ms == [] then 0 else Parsing(ms[..|ms| - 1], parses) + if ms[|ms| - 1].parses == parses then 1 else 0
  }

  function With(ms: seq<Msg>, verdict: Verdict): nat {
    if ms == [] then 0 else With(ms[..|ms| - 1], verdict) + if ms[|ms| - 1].verdict == verdict then 1 else 0
  }

  /** Every counter is the number of messages that met its fate. */
  predicate HubTally(max: int, log: Log) {
    && log.toHub == Fitting(max, log.delivered) && log.counters.oversize == |log.delivered| - |log.toHub|
    && log.counters.dispatched == Parsing(log.toHub, true) && log.counters.malformed == Parsing(log.toHub, false)
  }

  predicate ControlTally(log: Log) {
    && log.counters.applied == With(log.toControl, Verified(true))
    && log.counters.unsigned == With(log.toControl, Rejected(Unsigned))
    && log.counters.stale == With(log.toControl, Rejected(Stale))
    && log.counters.controlMalformed
       == With(log.toControl, Rejected(Malformed)) + With(log.toControl, Verified(false))
  }

  predicate Tallied(lim: Limits, log: Log) { HubTally(lim.maxMessage, log) && ControlTally(log) }

  predicate Accounted(st: State) {
    && (!st.cancelled ==> st.log.received == Total(st.log.counters) + Pending(st))
    && st.log.received >= Total(st.log.counters) + Pending(st)
  }

  predicate Inv(lim: Limits, st: State) {
    Stages(st) && Sorted(lim, st) && Accounted(st) && Tallied(lim, st.log)
  }

  lemma Keeps(lim: Limits, st: State, e: Event)
    requires Inv(lim, st) && Enabled(lim, st, e)
    ensures Inv(lim, Do(lim, st, e))
  {
    hide Stages, Sorted, Accounted, Tallied, Do, Enabled;
    KeepsStages(lim, st, e);
    KeepsAccounts(lim, st, e);
    KeepsTallies(lim, st, e);
  }

  lemma OneMore(ms: seq<Msg>, m: Msg, max: int, parses: bool, verdict: Verdict)
    ensures Fitting(max, ms + [m]) == Fitting(max, ms) + if 0 < max < m.size then [] else [m]
    ensures Parsing(ms + [m], parses) == Parsing(ms, parses) + if m.parses == parses then 1 else 0
    ensures With(ms + [m], verdict) == With(ms, verdict) + if m.verdict == verdict then 1 else 0
  {
    assert (ms + [m])[..|ms|] == ms;
  }

  lemma TallyDelivered(lim: Limits, log: Log, m: Msg)
    requires Tallied(lim, log)
    ensures Tallied(lim, AfterDeliver(lim, log, m))
  {
    OneMore(log.delivered, m, lim.maxMessage, true, m.verdict);
    OneMore(log.toHub, m, lim.maxMessage, true, m.verdict);
    OneMore(log.toHub, m, lim.maxMessage, false, m.verdict);
    hide Fitting, Parsing, With;
  }

  lemma TallyApplied(lim: Limits, log: Log, m: Msg)
    requires Tallied(lim, log)
    ensures Tallied(lim, AfterApply(log, m))
  {
    OneMore(log.toControl, m, 0, true, Verified(true));
    OneMore(log.toControl, m, 0, true, Verified(false));
    OneMore(log.toControl, m, 0, true, Rejected(Unsigned));
    OneMore(log.toControl, m, 0, true, Rejected(Stale));
    OneMore(log.toControl, m, 0, true, Rejected(Malformed));
    hide Fitting, Parsing, With;
  }

  lemma KeepsTallies(lim: Limits, st: State, e: Event)
    requires Tallied(lim, st.log) && Enabled(lim, st, e)
    ensures Tallied(lim, Do(lim, st, e).log)
  {
    if e.Deliver? {
      TallyDelivered(lim, st.log, st.workers[e.i].msg);
    } else if e.Apply? {
      TallyApplied(lim, st.log, st.applier.msg);
    }
    hide HubTally, ControlTally, AfterDeliver, AfterApply;
  }

  lemma KeepsStages(lim: Limits, st: State, e: Event)
    requires Stages(st) && Sorted(lim, st) && Enabled(lim, st, e)
    ensures Stages(Do(lim, st, e)) && Sorted(lim, Do(lim, st, e))
  {}

  /** One message, one count. */
  lemma CountedOnce(lim: Limits, log: Log, m: Msg)
    ensures Total(AfterDeliver(lim, log, m).counters) == Total(log.counters) + 1
    ensures Total(AfterApply(log, m).counters) == Total(log.counters) + 1
  {}

  lemma KeepsAccounts(lim: Limits, st: State, e: Event)
    requires Accounted(st) && Enabled(lim, st, e)
    ensures Accounted(Do(lim, st, e))
  {
    if e.Deliver? {
      CountedOnce(lim, st.log, st.workers[e.i].msg);
    } else if e.Apply? {
      CountedOnce(lim, st.log, st.applier.msg);
    }
    hide Delivered, Applied, Total;
    match e
    case Receive(i) => SumUpdate(st.workers, InHand, i, Holding(st.intake[0]));
    case Deliver(i) => SumUpdate(st.workers, InHand, i, Idle);
    case Forward(i) => SumUpdate(st.workers, InHand, i, Idle);
    case WorkerSeesClose(i) => SumUpdate(st.workers, InHand, i, WorkerDone);
    case WorkerCancelled(i) => SumUpdate(st.workers, InHand, i, WorkerDone);
    case _ =>
  }

  // ---------------------------------------------------------------- where a message is

  /** One for a worker that holds `m`. */
  function Copy(m: Msg): Worker -> nat { (w: Worker) => if w == Holding(m) then 1 else 0 }

  /** How many times `m` is in the gateway or past it: on the bus channel, in hand, queued, or handled. */
  function Copies(st: State, m: Msg): nat {
    multiset(st.intake)[m] + Sum(st.workers, Copy(m)) + multiset(st.controlq)[m]
    + (if st.applier == Applying(m) then 1 else 0)
    + multiset(st.log.delivered)[m] + multiset(st.log.toControl)[m]
  }

  /** How many times it arrived. */
  function Arrivals(run: seq<Event>, m: Msg): nat {
    if run == [] then 0 else (if run[0] == Arrive(m) then 1 else 0) + Arrivals(run[1..], m)
  }

  predicate Drops(e: Event) { e.WorkerCancelled? || e.ApplierCancelled? }

  /** Taking the first of a sequence. */
  lemma HeadCopies(ms: seq<Msg>, m: Msg)
    requires ms != []
    ensures multiset(ms)[m] == multiset(ms[1..])[m] + if ms[0] == m then 1 else 0
  {
    assert ms == [ms[0]] + ms[1..];
  }

  /** The workers' part: one of them takes a message up, or puts it down. */
  lemma WorkerCopies(ws: seq<Worker>, i: nat, w: Worker, m: Msg)
    requires i < |ws|
    ensures Sum(ws[i := w], Copy(m)) + (if ws[i] == Holding(m) then 1 else 0)
         == Sum(ws, Copy(m)) + if w == Holding(m) then 1 else 0
  {
    SumUpdate(ws, Copy(m), i, w);
  }

  /** The handled part. */
  lemma LogCopies(lim: Limits, log: Log, handled: Msg, m: Msg)
    ensures var log' := AfterDeliver(lim, log, handled);
            && multiset(log'.delivered)[m] == multiset(log.delivered)[m] + (if handled == m then 1 else 0)
            && log'.toControl == log.toControl
    ensures var log' := AfterApply(log, handled);
            && multiset(log'.toControl)[m] == multiset(log.toControl)[m] + (if handled == m then 1 else 0)
            && log'.delivered == log.delivered
  {
    hide Delivered, Applied;
  }

  predicate OfWorker(e: Event) { e.Receive? || e.Deliver? || e.Forward? || e.WorkerSeesClose? }

  lemma ReceiveDropsNone(lim: Limits, st: State, i: nat, m: Msg)
    requires Enabled(lim, st, Receive(i))
    ensures Copies(Do(lim, st, Receive(i)), m) == Copies(st, m)
  {
    HeadCopies(st.intake, m);
    WorkerCopies(st.workers, i, Holding(st.intake[0]), m);
    hide Sum, Copy;
  }

  lemma DeliverDropsNone(lim: Limits, st: State, i: nat, m: Msg)
    requires Enabled(lim, st, Deliver(i))
    ensures Copies(Do(lim, st, Deliver(i)), m) == Copies(st, m)
  {
    WorkerCopies(st.workers, i, Idle, m);
    LogCopies(lim, st.log, st.workers[i].msg, m);
    hide Sum, Copy, AfterDeliver;
  }

  lemma ForwardDropsNone(lim: Limits, st: State, i: nat, m: Msg)
    requires Enabled(lim, st, Forward(i))
    ensures Copies(Do(lim, st, Forward(i)), m) == Copies(st, m)
  {
    WorkerCopies(st.workers, i, Idle, m);
    hide Sum, Copy;
  }

  lemma LeaveDropsNone(lim: Limits, st: State, i: nat, m: Msg)
    requires Enabled(lim, st, WorkerSeesClose(i))
    ensures Copies(Do(lim, st, WorkerSeesClose(i)), m) == Copies(st, m)
  {
    WorkerCopies(st.workers, i, WorkerDone, m);
    hide Sum, Copy;
  }

  lemma WorkerDropsNone(lim: Limits, st: State, e: Event, m: Msg)
    requires Enabled(lim, st, e) && OfWorker(e)
    ensures Copies(Do(lim, st, e), m) == Copies(st, m)
  {
    hide Do, Enabled, Copies;
    match e
    case Receive(i) => ReceiveDropsNone(lim, st, i, m);
    case Deliver(i) => DeliverDropsNone(lim, st, i, m);
    case Forward(i) => ForwardDropsNone(lim, st, i, m);
    case WorkerSeesClose(i) => LeaveDropsNone(lim, st, i, m);
  }

  lemma NothingDropped(lim: Limits, st: State, e: Event, m: Msg)
    requires Enabled(lim, st, e) && !Drops(e)
    ensures Copies(Do(lim, st, e), m) == Copies(st, m) + if e == Arrive(m) then 1 else 0
  {
    if OfWorker(e) {
      hide Do, Enabled, Copies;
      WorkerDropsNone(lim, st, e, m);
    } else {
      hide AfterDeliver, AfterApply, Sum, Copy;
      match e
      case Apply => LogCopies(lim, st.log, st.applier.msg, m);
      case TakeControl => HeadCopies(st.controlq, m);
      case _ =>
    }
  }

  // ---------------------------------------------------------------- whole runs

  ghost predicate Runs(lim: Limits, st: State, run: seq<Event>, fin: State)
    decreases |run|
  {
    if run == [] then fin == st
    else Enabled(lim, st, run[0]) && Runs(lim, Do(lim, st, run[0]), run[1..], fin)
  }

  lemma {:induction false} RunKeeps(lim: Limits, st: State, run: seq<Event>, fin: State)
    requires Inv(lim, st) && Runs(lim, st, run, fin)
    ensures Inv(lim, fin) && |fin.workers| == |st.workers|
    decreases |run|
  {
    hide Inv, Do, Enabled;
    if run != [] {
      Keeps(lim, st, run[0]);
      SameWorkers(lim, st, run[0]);
      RunKeeps(lim, Do(lim, st, run[0]), run[1..], fin);
    }
  }

  lemma SameWorkers(lim: Limits, st: State, e: Event)
    requires Enabled(lim, st, e)
    ensures |Do(lim, st, e).workers| == |st.workers|
    ensures Do(lim, st, e).busClosed == (st.busClosed || e.BusClose?)
    ensures Do(lim, st, e).cancelled == (st.cancelled || e.Cancel?)
    ensures Drops(e) ==> st.cancelled
  {}

  /** The context is cancelled, and the bus closed, by their own events only. */
  lemma {:induction false} Switches(lim: Limits, st: State, run: seq<Event>, fin: State)
    requires Runs(lim, st, run, fin)
    ensures fin.busClosed <==> st.busClosed || BusClose in run
    ensures fin.cancelled <==> st.cancelled || Cancel in run
    decreases |run|
  {
    hide Do, Enabled;
    if run != [] {
      SameWorkers(lim, st, run[0]);
      Switches(lim, Do(lim, st, run[0]), run[1..], fin);
    }
  }

  lemma {:induction false} NoneLost(lim: Limits, st: State, run: seq<Event>, fin: State, m: Msg)
    requires Runs(lim, st, run, fin) && !st.cancelled && Cancel !in run
    ensures Copies(fin, m) == Copies(st, m) + Arrivals(run, m)
    decreases |run|
  {
    hide Do, Enabled, Copies;
    if run != [] {
      SameWorkers(lim, st, run[0]);
      NothingDropped(lim, st, run[0], m);
      NoneLost(lim, Do(lim, st, run[0]), run[1..], fin, m);
    }
  }

  lemma {:induction false} AllIdle(n: nat, f: Worker -> nat)
    requires f(Idle) == 0
    ensures Sum(seq(n, i => Idle), f) == 0
  {
    if n > 0 {
      AllIdle(n - 1, f);
      assert seq(n, i => Idle)[1..] == seq(n - 1, i => Idle);
    }
  }

  lemma StartAccounted(workers: nat)
    ensures Accounted(Start(workers))
  {
    AllIdle(workers, InHand);
    hide Sum;
  }

  lemma StartInv(lim: Limits, workers: nat)
    ensures Inv(lim, Start(workers))
  {
    StartAccounted(workers);
    hide Sum, Accounted;
  }

  lemma NothingYet(workers: nat, m: Msg)
    ensures Copies(Start(workers), m) == 0
  {
    AllIdle(workers, Copy(m));
    hide Sum;
  }

  /**
   * In every run, whatever the number of workers: what came on the control key never reaches Dispatch and
   * nothing else reaches Control; each counter is the number of messages that met its fate; and nothing
   * is sent on the closed control queue.
   */
  lemma EveryMessageCounted(lim: Limits, workers: nat, run: seq<Event>, fin: State)
    requires Runs(lim, Start(workers), run, fin)
    ensures forall i :: 0 <= i < |fin.log.toHub| ==> fin.log.toHub[i].channel != lim.controlKey
    ensures forall i :: 0 <= i < |fin.log.toControl| ==> fin.log.toControl[i].channel == lim.controlKey
    ensures HubTally(lim.maxMessage, fin.log) && ControlTally(fin.log)
    ensures fin.controlClosed ==> forall i :: !Enabled(lim, fin, Forward(i))
  {
    StartInv(lim, workers);
    hide HubTally, ControlTally, Accounted, Do;
    RunKeeps(lim, Start(workers), run, fin);
  }

  /**
   * And without a cancelled context every message that arrived is in one place for each time it did; when
   * Run has returned, deliver has been called with what came on other channels and apply with what came
   * on the control key, as often as it came, and as many were received as were counted.
   */
  lemma EveryMessageHandled(lim: Limits, workers: nat, run: seq<Event>, fin: State, m: Msg)
    requires workers > 0 && Runs(lim, Start(workers), run, fin) && Cancel !in run
    ensures Copies(fin, m) == Arrivals(run, m)
    ensures fin.runner.Returned? ==>
              && BusClose in run
              && Arrivals(run, m) == multiset(fin.log.delivered)[m] + multiset(fin.log.toControl)[m]
              && fin.log.received == Total(fin.log.counters)
  {
    StartInv(lim, workers);
    NothingYet(workers, m);
    hide Tallied, Sorted, Do, Enabled, Total, Copies, Start;
    Started(workers);
    RunKeeps(lim, Start(workers), run, fin);
    NoneLost(lim, Start(workers), run, fin, m);
    Switches(lim, Start(workers), run, fin);
    if fin.runner.Returned? {
      AllHandled(fin, m);
    }
  }

  lemma Started(workers: nat)
    ensures !Start(workers).cancelled && !Start(workers).busClosed && |Start(workers).workers| == workers
  {}

  lemma AllHandled(fin: State, m: Msg)
    requires Stages(fin) && Accounted(fin) && fin.runner.Returned? && !fin.cancelled && |fin.workers| > 0
    ensures fin.busClosed && Copies(fin, m) == multiset(fin.log.delivered)[m] + multiset(fin.log.toControl)[m]
    ensures fin.log.received == Total(fin.log.counters)
  {
    SumDone(fin.workers, InHand);
    SumDone(fin.workers, Copy(m));
    assert fin.workers[0].WorkerDone?;
    hide Sum;
  }

  // ---------------------------------------------------------------- Run returns

  function Load(w: Worker): nat {
    match w
    case WorkerDone => 0
    case Idle => 1
    case Holding(_) => 5
  }

  /** An upper bound on the steps left once the bus is closed. */
  function Work(st: State): nat {
    5 * |st.intake| + Sum(st.workers, Load) + 3 * |st.controlq|
    + (match st.applier case ApplierDone => 0 case Waiting => 1 case Applying(_) => 3)
    + (match st.runner case Returned => 0 case JoiningControl => 1 case JoiningWorkers => 2)
  }

  lemma WorkFalls(lim: Limits, st: State, e: Event)
    requires st.busClosed && Enabled(lim, st, e) && !e.Cancel?
    ensures Work(Do(lim, st, e)) < Work(st)
  {
    match e
    case Receive(i) => SumUpdate(st.workers, Load, i, Holding(st.intake[0]));
    case Deliver(i) => SumUpdate(st.workers, Load, i, Idle);
    case Forward(i) => SumUpdate(st.workers, Load, i, Idle);
    case WorkerSeesClose(i) => SumUpdate(st.workers, Load, i, WorkerDone);
    case WorkerCancelled(i) => SumUpdate(st.workers, Load, i, WorkerDone);
    case _ =>
  }

  lemma {:induction false} ClosedRunsEnd(lim: Limits, st: State, run: seq<Event>, fin: State)
    requires st.busClosed && Runs(lim, st, run, fin) && Cancel !in run
    ensures |run| + Work(fin) <= Work(st) && fin.busClosed
    decreases |run|
  {
    hide Do, Enabled, Work;
    if run != [] {
      SameWorkers(lim, st, run[0]);
      WorkFalls(lim, st, run[0]);
      ClosedRunsEnd(lim, Do(lim, st, run[0]), run[1..], fin);
    }
  }

  /** Where the bus is closed and Run has not returned, some goroutine can move. */
  lemma SomeoneMoves(lim: Limits, st: State) returns (e: Event)
    requires Inv(lim, st) && st.busClosed && !st.cancelled && !st.runner.Returned? && lim.controlQueue > 0
    ensures Enabled(lim, st, e) && !e.Cancel?
  {
    if st.applier.Applying? {
      return Apply;
    }
    if st.runner.JoiningControl? {
      return if st.applier.ApplierDone? then Finish else if st.controlq != [] then TakeControl else ApplierSeesClose;
    }
    if AllDone(st.workers) {
      return CloseControl;
    }
    var i :| 0 <= i < |st.workers| && !st.workers[i].WorkerDone?;
    if st.workers[i].Idle? {
      return if st.intake != [] then Receive(i) else WorkerSeesClose(i);
    }
    if !lim.IsControl(st.workers[i].msg) {
      return Deliver(i);
    }
    return if |st.controlq| < lim.controlQueue then Forward(i) else TakeControl;
  }

  /** After the bus closes Run returns: every schedule ends within Work steps, and only where Run is back. */
  lemma RunReturns(lim: Limits, workers: nat, before: seq<Event>, st: State, run: seq<Event>, fin: State)
    requires workers > 0 && lim.controlQueue > 0
    requires Runs(lim, Start(workers), before, st) && BusClose in before && Cancel !in before
    requires Runs(lim, st, run, fin) && Cancel !in run
    ensures |run| <= Work(st)
    ensures (forall e: Event :: !e.Cancel? ==> !Enabled(lim, fin, e)) ==> fin.runner.Returned?
  {
    StartInv(lim, workers);
    hide Inv, Enabled, Do, Work;
    RunKeeps(lim, Start(workers), before, st);
    Switches(lim, Start(workers), before, st);
    RunKeeps(lim, st, run, fin);
    Switches(lim, st, run, fin);
    ClosedRunsEnd(lim, st, run, fin);
    if !fin.runner.Returned? {
      var e := SomeoneMoves(lim, fin);
    }
  }
}
