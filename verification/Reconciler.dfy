/**
 * internal/hub/reconcile.go: the desired set is driven to the bus without losing a wakeup.
 *
 * A producer changes `desired` under the registry lock, and only after unlocking stores the dirty
 * flag and then offers a wake token. The reconciler swaps the flag, copies the set and calls Sync,
 * each in its own step, so every other goroutine may move in between.
 */
module Reconciler {
  import opened Bytes
  import opened Events
  import opened HubSpec

  /** Where the reconciler goroutine stands. */
  datatype Pc = Parked | Check | Snap | Syncing(set_: set<Key>) | Failed | Backoff | Exited

  datatype State = State(
    desired: set<Key>,
    unlocked: nat,          // producers past their unlock, before the flag store
    stored: nat,            // producers past the flag store, before the token offer
    dirty: bool,
    wake: bool,             // the capacity-1 wake channel holds a token
    pc: Pc,
    subs: set<Key>,         // MemoryBus.subs
    lastOk: Option<set<Key>>,
    cancelled: bool)

  datatype Event =
    | Change(r: Registry)   // the registry as a producer's critical section leaves it
    | StoreDirty
    | OfferToken
    | TakeToken
    | Swap
    | Snapshot
    | SyncOk
    | SyncFail(left: set<Key>)
    | Rearm
    | Retry
    | Cancel
    | Quit

  /** A new hub: only the control key is wanted, nothing is subscribed, and New is about to mark it dirty. */
  function Start(cfg: Config): State {
    State({ControlKey(cfg)}, 1, 0, false, false, Parked, {}, None, false)
  }

  ghost predicate Enabled(cfg: Config, st: State, e: Event) {
    match e
    case Change(r) => Consistent(cfg, r) && r.desired != st.desired
    case StoreDirty => st.unlocked > 0
    case OfferToken => st.stored > 0
    case TakeToken => st.pc.Parked? && st.wake
    case Swap => st.pc.Check?
    case Snapshot => st.pc.Snap?
    case SyncOk => st.pc.Syncing?
    case SyncFail(_) => st.pc.Syncing?
    case Rearm => st.pc.Failed?
    case Retry => st.pc.Backoff?
    case Cancel => true
    case Quit => st.cancelled && (st.pc.Parked? || st.pc.Backoff?)
  }

  ghost function Do(cfg: Config, st: State, e: Event): State
    requires Enabled(cfg, st, e)
  {
    match e
    case Change(r) => st.(desired := r.desired, unlocked := st.unlocked + 1)
    case StoreDirty => st.(unlocked := st.unlocked - 1, stored := st.stored + 1, dirty := true)
    case OfferToken => st.(stored := st.stored - 1, wake := true)
    case TakeToken => st.(wake := false, pc := Check)
    case Swap => if st.dirty then st.(dirty := false, pc := Snap) else st.(pc := Parked)
    case Snapshot => st.(pc := Syncing(st.desired))
    case SyncOk => st.(subs := st.pc.set_, lastOk := Some(st.pc.set_), pc := Check)
    case SyncFail(left) => st.(subs := left, pc := Failed)
    case Rearm => st.(dirty := true, pc := Backoff)
    case Retry => st.(pc := Check)
    case Cancel => st.(cancelled := true)
    case Quit => st.(pc := Exited)
  }

  // ---------------------------------------------------------------- invariant

  /** The last successful Sync carried exactly what is wanted, and the bus still holds it. */
  predicate Settled(st: State) {
    st.lastOk == Some(st.desired) && st.subs == st.desired
  }

  /** Where an unmet intent can be: the flag, a producer about to raise it, or a pass under way. */
  predicate IntentKept(st: State) {
    || Settled(st) || st.dirty || st.unlocked > 0
    || st.pc.Snap? || st.pc.Failed? || st.pc == Syncing(st.desired)
  }

  /** A pass carrying an outdated set has been overtaken by a change that raised, or will raise, the flag. */
  predicate StaleIsKnown(st: State) {
    st.pc.Syncing? && st.pc.set_ != st.desired ==> st.dirty || st.unlocked > 0
  }

  /** A raised flag is never slept on. */
  predicate NoLostWakeup(st: State) {
    st.dirty ==> st.wake || st.stored > 0 || !(st.pc.Parked? || st.pc.Exited?) || st.cancelled
  }

  predicate ControlKept(cfg: Config, st: State) {
    && ControlKey(cfg) in st.desired
    && (st.pc.Syncing? ==> ControlKey(cfg) in st.pc.set_)
    && (st.lastOk.Some? ==> ControlKey(cfg) in st.lastOk.value)
  }

  predicate Inv(cfg: Config, st: State) {
    && IntentKept(st) && StaleIsKnown(st) && NoLostWakeup(st) && ControlKept(cfg, st)
    && (st.pc.Exited? ==> st.cancelled)
  }

  lemma Keeps(cfg: Config, st: State, e: Event)
    requires Inv(cfg, st) && Enabled(cfg, st, e)
    ensures Inv(cfg, Do(cfg, st, e))
  {
    if e.Change? {
      ControlStaysWanted(cfg, e.r);
    }
    hide Consistent;
  }

  // ---------------------------------------------------------------- whole runs

  ghost predicate Runs(cfg: Config, st: State, run: seq<Event>, fin: State)
    decreases |run|
  {
    if run == [] then fin == st
    else Enabled(cfg, st, run[0]) && Runs(cfg, Do(cfg, st, run[0]), run[1..], fin)
  }

  lemma {:induction false} RunKeeps(cfg: Config, st: State, run: seq<Event>, fin: State)
    requires Inv(cfg, st) && Runs(cfg, st, run, fin)
    ensures Inv(cfg, fin)
    decreases |run|
  {
    if run != [] {
      Keeps(cfg, st, run[0]);
      RunKeeps(cfg, Do(cfg, st, run[0]), run[1..], fin);
    }
  }

  /** Asleep with no token waiting, and no producer between its unlock and the end of markDirty. */
  predicate Quiet(st: State) {
    st.pc.Parked? && !st.wake && st.unlocked == 0 && st.stored == 0
  }

  /**
   * Over any run, with any number of failed Syncs and overlapping changes: a reconciler that sleeps
   * with nothing on its way has carried exactly the desired set, and the memory bus holds it.
   */
  lemma SleepsOnlyWhenSettled(cfg: Config, run: seq<Event>, fin: State)
    requires Runs(cfg, Start(cfg), run, fin) && Quiet(fin) && !fin.cancelled
    ensures !fin.dirty && fin.lastOk == Some(fin.desired) && fin.subs == fin.desired
  {
    RunKeeps(cfg, Start(cfg), run, fin);
  }

  /** No critical section gives the control key up, so it is wanted for ever and every successful Sync carried it. */
  lemma ControlAlwaysWanted(cfg: Config, run: seq<Event>, fin: State)
    requires Runs(cfg, Start(cfg), run, fin)
    ensures ControlKey(cfg) in fin.desired
    ensures fin.lastOk.Some? ==> ControlKey(cfg) in fin.lastOk.value
  {
    RunKeeps(cfg, Start(cfg), run, fin);
  }

  // ---------------------------------------------------------------- the same, told by the events of the run

  predicate IsChange(e: Event) { e.Change? }
  predicate IsStore(e: Event) { e.StoreDirty? }
  predicate IsOffer(e: Event) { e.OfferToken? }
  predicate IsSnapshot(e: Event) { e.Snapshot? }
  predicate IsOutcome(e: Event) { e.SyncOk? || e.SyncFail? }
  predicate IsFailure(e: Event) { e.SyncFail? }
  predicate IsRearm(e: Event) { e.Rearm? }
  predicate IsRetry(e: Event) { e.Retry? }
  predicate IsSwap(e: Event) { e.Swap? }
  predicate IsLookAgain(e: Event) { e.TakeToken? || e.SyncOk? || e.Retry? }

  /** What is wanted after the run, if `d` was before it. */
  function Wanted(d: set<Key>, run: seq<Event>): set<Key>
    decreases |run|
  {
    if run == [] then d else Wanted(if run[0].Change? then run[0].r.desired else d, run[1..])
  }

  /** The last outcome of a Sync, if `o` was the one before the run. */
  function Outcome(o: Option<Event>, run: seq<Event>): Option<Event>
    decreases |run|
  {
    if run == [] then o else Outcome(if IsOutcome(run[0]) then Some(run[0]) else o, run[1..])
  }

  /** What the bus holds by the last outcome: all of what was sent, or whatever a failure left. */
  predicate HeldBy(st: State, o: Option<Event>) {
    match o
    case Some(SyncOk) => st.lastOk == Some(st.subs)
    case Some(SyncFail(left)) => st.subs == left
    case _ => st.subs == {} && st.lastOk.None?
  }

  lemma ToldByStep(cfg: Config, st: State, e: Event, o: Option<Event>)
    requires Enabled(cfg, st, e) && HeldBy(st, o)
    ensures var fin := Do(cfg, st, e);
            && fin.desired == (if e.Change? then e.r.desired else st.desired)
            && HeldBy(fin, if IsOutcome(e) then Some(e) else o)
            && (fin.cancelled <==> st.cancelled || e.Cancel?)
            && (fin.pc.Exited? <==> st.pc.Exited? || e.Quit?)
  {
    hide Consistent;
  }

  lemma {:induction false} ToldByRun(cfg: Config, st: State, run: seq<Event>, fin: State, o: Option<Event>)
    requires Runs(cfg, st, run, fin) && HeldBy(st, o)
    ensures fin.desired == Wanted(st.desired, run) && HeldBy(fin, Outcome(o, run))
    ensures fin.cancelled <==> st.cancelled || Cancel in run
    ensures fin.pc.Exited? <==> st.pc.Exited? || Quit in run
    decreases |run|
  {
    hide Enabled, Do, HeldBy;
    if run != [] {
      var e := run[0];
      ToldByStep(cfg, st, e, o);
      ToldByRun(cfg, Do(cfg, st, e), run[1..], fin, if IsOutcome(e) then Some(e) else o);
    }
  }

  lemma PassStep(cfg: Config, st: State, e: Event)
    requires Enabled(cfg, st, e) && !e.Quit?
    ensures var fin := Do(cfg, st, e);
            && One(fin.pc.Snap?) + One(e.Snapshot?) <= One(st.pc.Snap?) + One(e.Swap?)
            && One(st.pc.Syncing?) + One(e.Snapshot?) == One(fin.pc.Syncing?) + One(IsOutcome(e))
            && One(st.pc.Failed?) + One(e.SyncFail?) == One(fin.pc.Failed?) + One(e.Rearm?)
            && One(st.pc.Backoff?) + One(e.Rearm?) == One(fin.pc.Backoff?) + One(e.Retry?)
            && One(st.pc.Check?) + One(IsLookAgain(e)) == One(fin.pc.Check?) + One(e.Swap?)
  {
    hide Consistent;
  }

  lemma ProducerStep(cfg: Config, st: State, e: Event)
    requires Enabled(cfg, st, e)
    ensures st.unlocked + One(e.Change?) == Do(cfg, st, e).unlocked + One(e.StoreDirty?)
    ensures st.stored + One(e.StoreDirty?) == Do(cfg, st, e).stored + One(e.OfferToken?)
  {
    hide Consistent;
  }

  lemma {:induction false} ProducersAddUp(cfg: Config, st: State, run: seq<Event>, fin: State)
    requires Runs(cfg, st, run, fin)
    ensures st.unlocked + Times(run, IsChange) == fin.unlocked + Times(run, IsStore)
    ensures st.stored + Times(run, IsStore) == fin.stored + Times(run, IsOffer)
    decreases |run|
  {
    hide Enabled, Do;
    if run != [] {
      ProducerStep(cfg, st, run[0]);
      ProducersAddUp(cfg, Do(cfg, st, run[0]), run[1..], fin);
    }
  }

  lemma {:induction false} PassesAddUp(cfg: Config, st: State, run: seq<Event>, fin: State)
    requires Runs(cfg, st, run, fin) && Quit !in run
    ensures One(fin.pc.Snap?) + Times(run, IsSnapshot) <= One(st.pc.Snap?) + Times(run, IsSwap)
    ensures One(st.pc.Syncing?) + Times(run, IsSnapshot) == One(fin.pc.Syncing?) + Times(run, IsOutcome)
    ensures One(st.pc.Failed?) + Times(run, IsFailure) == One(fin.pc.Failed?) + Times(run, IsRearm)
    ensures One(st.pc.Backoff?) + Times(run, IsRearm) == One(fin.pc.Backoff?) + Times(run, IsRetry)
    ensures One(st.pc.Check?) + Times(run, IsLookAgain) == One(fin.pc.Check?) + Times(run, IsSwap)
    decreases |run|
  {
    hide Enabled, Do;
    if run != [] {
      PassStep(cfg, st, run[0]);
      PassesAddUp(cfg, Do(cfg, st, run[0]), run[1..], fin);
    }
  }

  /**
   * In every run: each change, and the start, stores the flag once and offers one token; what is wanted is
   * what the last change left; the bus holds what the last successful Sync
   * carried, or what a failure since has left; every copy of the desired set meets one outcome, every
   * failure raises the flag again and is waited out once before the flag is looked at again, and each
   * swap of the flag has its own reason.
   */
  lemma ReconcilerByEvents(cfg: Config, run: seq<Event>, fin: State)
    requires Runs(cfg, Start(cfg), run, fin)
    ensures fin.desired == Wanted({ControlKey(cfg)}, run) && HeldBy(fin, Outcome(None, run))
    ensures (fin.cancelled <==> Cancel in run) && (fin.pc.Exited? <==> Quit in run)
    ensures 1 + Times(run, IsChange) == fin.unlocked + Times(run, IsStore)
    ensures Times(run, IsStore) == fin.stored + Times(run, IsOffer)
    ensures Quit !in run ==>
              && Times(run, IsSnapshot) == One(fin.pc.Syncing?) + Times(run, IsOutcome)
              && Times(run, IsFailure) == One(fin.pc.Failed?) + Times(run, IsRearm)
              && Times(run, IsRearm) == One(fin.pc.Backoff?) + Times(run, IsRetry)
              && Times(run, IsLookAgain) == One(fin.pc.Check?) + Times(run, IsSwap)
  {
    ToldByRun(cfg, Start(cfg), run, fin, None);
    ProducersAddUp(cfg, Start(cfg), run, fin);
    if Quit !in run {
      PassesAddUp(cfg, Start(cfg), run, fin);
    }
  }

  // ---------------------------------------------------------------- convergence

  /** A step of the machinery itself: no new change, no failing bus, no shutdown. */
  predicate Internal(e: Event) {
    !e.Change? && !e.SyncFail? && !e.Cancel? && !e.Quit?
  }

  function PcWeight(pc: Pc): nat {
    match pc
    case Parked => 0
    case Check => 1
    case Syncing(_) => 2
    case Snap => 3
    case Backoff => 2
    case Failed => 6
    case Exited => 0
  }

  /** An upper bound on the internal steps left. */
  function Work(st: State): nat {
    7 * st.unlocked + 3 * st.stored + (if st.dirty then 3 else 0) + (if st.wake then 2 else 0) + PcWeight(st.pc)
  }

  lemma {:induction false} InternalRunsEnd(cfg: Config, st: State, run: seq<Event>, fin: State)
    requires Runs(cfg, st, run, fin) && forall i :: 0 <= i < |run| ==> Internal(run[i])
    ensures |run| + Work(fin) <= Work(st)
    ensures fin.desired == st.desired && fin.cancelled == st.cancelled
    decreases |run|
  {
    hide Consistent;
    if run != [] {
      assert Internal(run[0]);
      InternalRunsEnd(cfg, Do(cfg, st, run[0]), run[1..], fin);
    }
  }

  /** Where no step of the machinery is left, the reconciler sleeps and nothing is on its way. */
  lemma StuckIsQuiet(cfg: Config, st: State)
    requires Inv(cfg, st) && !st.cancelled
    requires forall e :: Internal(e) ==> !Enabled(cfg, st, e)
    ensures Quiet(st)
  {
    assert !Enabled(cfg, st, StoreDirty) && !Enabled(cfg, st, OfferToken) && !Enabled(cfg, st, TakeToken);
    assert !Enabled(cfg, st, Swap) && !Enabled(cfg, st, Snapshot) && !Enabled(cfg, st, SyncOk);
    assert !Enabled(cfg, st, Rearm) && !Enabled(cfg, st, Retry);
  }

  /**
   * Once changes and failures stop, every schedule of the remaining steps ends within Work(st) steps,
   * and where no step is left the reconciler sleeps over exactly the desired set.
   */
  lemma Converges(cfg: Config, before: seq<Event>, st: State, run: seq<Event>, fin: State)
    requires Runs(cfg, Start(cfg), before, st) && !st.cancelled
    requires Runs(cfg, st, run, fin) && forall i :: 0 <= i < |run| ==> Internal(run[i])
    ensures |run| <= Work(st)
    ensures (forall e :: Internal(e) ==> !Enabled(cfg, fin, e)) ==>
              Quiet(fin) && !fin.dirty && fin.lastOk == Some(st.desired) && fin.subs == st.desired
  {
    hide Runs, Enabled, Internal;
    assert Inv(cfg, Start(cfg));
    RunKeeps(cfg, Start(cfg), before, st);
    RunKeeps(cfg, st, run, fin);
    InternalRunsEnd(cfg, st, run, fin);
    if forall e :: Internal(e) ==> !Enabled(cfg, fin, e) {
      StuckIsQuiet(cfg, fin);
    }
  }
}
