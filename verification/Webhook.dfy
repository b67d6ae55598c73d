/** internal/webhook: how many calls run, how often one is retried, and how long its answer lasts. */
module Webhook {
  import opened Bytes
  import opened Events

  // ---------------------------------------------------------------- the two token channels

  /** A call of acquire and what follows, by the token it holds. */
  datatype Pc =
    | Arriving     // before the first select
    | Refused      // the cap was full; about to ask for a place in the queue
    | Queued       // holds a waiting token
    | Granted      // holds both; about to give the waiting token back
    | GivingUp     // holds a waiting token, and its wait is over
    | Calling      // holds an in-flight token
    | Gone

  datatype Tokens = Tokens(inflight: int, waiting: int, calls: map<nat, Pc>)

  datatype Event =
    | Arrive(c: nat)
    | TakeSlot(c: nat)
    | CapFull(c: nat)
    | JoinQueue(c: nat)
    | QueueFull(c: nat)
    | SlotFreed(c: nat)
    | Expire(c: nat)
    | LeaveQueue(c: nat)
    | Return(c: nat)

  /** app.webhook_concurrency and app.connect_queue. */
  datatype Caps = Caps(concurrency: nat, queue: nat)

  predicate At(t: Tokens, c: nat, pc: Pc) { c in t.calls && t.calls[c] == pc }

  /** A channel send is possible below its capacity, a receive when it holds a token. */
  predicate Enabled(caps: Caps, t: Tokens, e: Event) {
    match e
    case Arrive(c) => c !in t.calls
    case TakeSlot(c) => At(t, c, Arriving) && t.inflight < caps.concurrency
    case CapFull(c) => At(t, c, Arriving) && t.inflight >= caps.concurrency
    case JoinQueue(c) => At(t, c, Refused) && t.waiting < caps.queue
    case QueueFull(c) => At(t, c, Refused) && t.waiting >= caps.queue
    case SlotFreed(c) => At(t, c, Queued) && t.inflight < caps.concurrency
    case Expire(c) => At(t, c, Queued)
    case LeaveQueue(c) => (At(t, c, Granted) || At(t, c, GivingUp)) && t.waiting > 0
    case Return(c) => At(t, c, Calling) && t.inflight > 0
  }

  function Do(caps: Caps, t: Tokens, e: Event): Tokens
    requires Enabled(caps, t, e)
  {
    match e
    case Arrive(c) => t.(calls := t.calls[c := Arriving])
    case TakeSlot(c) => t.(inflight := t.inflight + 1, calls := t.calls[c := Calling])
    case CapFull(c) => t.(calls := t.calls[c := Refused])
    case JoinQueue(c) => t.(waiting := t.waiting + 1, calls := t.calls[c := Queued])
    case QueueFull(c) => t.(calls := t.calls[c := Gone])
    case SlotFreed(c) => t.(inflight := t.inflight + 1, calls := t.calls[c := Granted])
    case Expire(c) => t.(calls := t.calls[c := GivingUp])
    case LeaveQueue(c) =>
      t.(waiting := t.waiting - 1, calls := t.calls[c := if t.calls[c].Granted? then Calling else Gone])
    case Return(c) => t.(inflight := t.inflight - 1, calls := t.calls[c := Gone])
  }

  predicate HasSlot(pc: Pc) { pc.Granted? || pc.Calling? }
  predicate HasPlace(pc: Pc) { pc.Queued? || pc.Granted? || pc.GivingUp? }

  function Slots(calls: map<nat, Pc>): set<nat> { set c | c in calls && HasSlot(calls[c]) }
  function Places(calls: map<nat, Pc>): set<nat> { set c | c in calls && HasPlace(calls[c]) }

  /** The channels hold exactly the tokens of the calls that took one. */
  predicate Balanced(caps: Caps, t: Tokens) {
    && t.inflight == |Slots(t.calls)| <= caps.concurrency
    && t.waiting == |Places(t.calls)| <= caps.queue
  }

  lemma SlotMoves(calls: map<nat, Pc>, c: nat, pc: Pc)
    ensures |Slots(calls[c := pc])|
         == |Slots(calls)| - (if c in calls && HasSlot(calls[c]) then 1 else 0) + (if HasSlot(pc) then 1 else 0)
  {
    if HasSlot(pc) {
      assert Slots(calls[c := pc]) == Slots(calls) + {c};
    } else {
      assert Slots(calls[c := pc]) == Slots(calls) - {c};
    }
  }

  lemma PlaceMoves(calls: map<nat, Pc>, c: nat, pc: Pc)
    ensures |Places(calls[c := pc])|
         == |Places(calls)| - (if c in calls && HasPlace(calls[c]) then 1 else 0) + (if HasPlace(pc) then 1 else 0)
  {
    if HasPlace(pc) {
      assert Places(calls[c := pc]) == Places(calls) + {c};
    } else {
      assert Places(calls[c := pc]) == Places(calls) - {c};
    }
  }

  lemma KeepsBalance(caps: Caps, t: Tokens, e: Event)
    requires Balanced(caps, t) && Enabled(caps, t, e)
    ensures Balanced(caps, Do(caps, t, e))
  {
    hide Slots, Places;
    SlotMoves(t.calls, e.c, Do(caps, t, e).calls[e.c]);
    PlaceMoves(t.calls, e.c, Do(caps, t, e).calls[e.c]);
  }

  ghost predicate Runs(caps: Caps, t: Tokens, run: seq<Event>, fin: Tokens)
    decreases |run|
  {
    if run == [] then fin == t
    else Enabled(caps, t, run[0]) && Runs(caps, Do(caps, t, run[0]), run[1..], fin)
  }

  lemma {:induction false} RunKeeps(caps: Caps, t: Tokens, run: seq<Event>, fin: Tokens)
    requires Balanced(caps, t) && Runs(caps, t, run, fin)
    ensures Balanced(caps, fin)
    decreases |run|
  {
    if run != [] {
      KeepsBalance(caps, t, run[0]);
      RunKeeps(caps, Do(caps, t, run[0]), run[1..], fin);
    }
  }

  /**
   * In every run: never more calls than app.webhook_concurrency hold a slot nor more than
   * app.connect_queue wait; giving a token back never blocks; and when every call has ended, on
   * whatever path, all tokens are back.
   */
  lemma TokensReturn(caps: Caps, run: seq<Event>, fin: Tokens)
    requires Runs(caps, Tokens(0, 0, map[]), run, fin)
    ensures |Slots(fin.calls)| <= caps.concurrency && |Places(fin.calls)| <= caps.queue
    ensures forall c :: At(fin, c, Calling) ==> Enabled(caps, fin, Return(c))
    ensures forall c :: At(fin, c, Granted) || At(fin, c, GivingUp) ==> Enabled(caps, fin, LeaveQueue(c))
    ensures (forall c :: c in fin.calls ==> fin.calls[c].Gone?) ==> fin.inflight == 0 && fin.waiting == 0
  {
    assert Balanced(caps, Tokens(0, 0, map[])) by {
      assert Slots(map[]) == {} && Places(map[]) == {};
    }
    RunKeeps(caps, Tokens(0, 0, map[]), run, fin);
    forall c | At(fin, c, Calling) ensures fin.inflight > 0 {
      assert c in Slots(fin.calls);
    }
    forall c | At(fin, c, Granted) || At(fin, c, GivingUp) ensures fin.waiting > 0 {
      assert c in Places(fin.calls);
    }
    if forall c :: c in fin.calls ==> fin.calls[c].Gone? {
      assert Slots(fin.calls) == {} && Places(fin.calls) == {};
    }
  }

  // ---------------------------------------------------------------- the same, told by the events of the run

  predicate TakesSlot(e: Event) { e.TakeSlot? || e.SlotFreed? }
  predicate GivesSlot(e: Event) { e.Return? }
  predicate TakesPlace(e: Event) { e.JoinQueue? }
  predicate GivesPlace(e: Event) { e.LeaveQueue? }

  function StepsOf(run: seq<Event>, c: nat): nat {
    if run == [] then 0 else One(run[0].c == c) + StepsOf(run[1..], c)
  }

  /** How many steps a call has left at most. */
  function Left(t: Tokens, c: nat): nat {
    if c !in t.calls then 6
    else
      match t.calls[c]
      case Arriving => 5
      case Refused => 4
      case Queued => 3
      case Granted => 2
      case GivingUp => 1
      case Calling => 1
      case Gone => 0
  }

  lemma StepTells(caps: Caps, t: Tokens, e: Event, c: nat)
    requires Enabled(caps, t, e)
    ensures var t' := Do(caps, t, e);
            && t'.inflight == t.inflight + One(TakesSlot(e)) - One(GivesSlot(e))
            && t'.waiting == t.waiting + One(TakesPlace(e)) - One(GivesPlace(e))
            && One(e.c == c) + Left(t', c) <= Left(t, c)
            && (At(t', c, Calling) ==>
                  At(t, c, Calling) || e == TakeSlot(c) || (e == LeaveQueue(c) && At(t, c, Granted)))
            && (At(t', c, Granted) ==> At(t, c, Granted) || e == SlotFreed(c))
  {}

  lemma {:induction false} RunTells(caps: Caps, t: Tokens, run: seq<Event>, fin: Tokens, c: nat)
    requires Runs(caps, t, run, fin)
    ensures fin.inflight == t.inflight + Times(run, TakesSlot) - Times(run, GivesSlot)
    ensures fin.waiting == t.waiting + Times(run, TakesPlace) - Times(run, GivesPlace)
    ensures StepsOf(run, c) + Left(fin, c) <= Left(t, c)
    ensures At(fin, c, Granted) ==> At(t, c, Granted) || SlotFreed(c) in run
    ensures At(fin, c, Calling) ==> At(t, c, Calling) || At(t, c, Granted) || TakeSlot(c) in run || SlotFreed(c) in run
    decreases |run|
  {
    hide Enabled, Do, At, Left;
    if run != [] {
      StepTells(caps, t, run[0], c);
      RunTells(caps, Do(caps, t, run[0]), run[1..], fin, c);
    }
  }

  /**
   * In every run the channels hold what was taken less what was given back; a call is only made with a slot
   * taken for it; and each call ends within six steps of its own, one of which it can always take.
   */
  lemma CallsEnd(caps: Caps, run: seq<Event>, fin: Tokens, c: nat)
    requires Runs(caps, Tokens(0, 0, map[]), run, fin)
    ensures fin.inflight == Times(run, TakesSlot) - Times(run, GivesSlot)
    ensures fin.waiting == Times(run, TakesPlace) - Times(run, GivesPlace)
    ensures At(fin, c, Calling) ==> TakeSlot(c) in run || SlotFreed(c) in run
    ensures StepsOf(run, c) <= 6
    ensures c in fin.calls && !fin.calls[c].Gone? ==> exists e: Event :: e.c == c && Enabled(caps, fin, e)
  {
    RunTells(caps, Tokens(0, 0, map[]), run, fin, c);
    TokensReturn(caps, run, fin);
    if c in fin.calls && !fin.calls[c].Gone? {
      var e := NextStep(caps, fin, c);
    }
  }

  lemma NextStep(caps: Caps, t: Tokens, c: nat) returns (e: Event)
    requires c in t.calls && !t.calls[c].Gone?
    requires At(t, c, Calling) ==> Enabled(caps, t, Return(c))
    requires At(t, c, Granted) || At(t, c, GivingUp) ==> Enabled(caps, t, LeaveQueue(c))
    ensures e.c == c && Enabled(caps, t, e)
  {
    match t.calls[c]
    case Arriving => e := if t.inflight < caps.concurrency then TakeSlot(c) else CapFull(c);
    case Refused => e := if t.waiting < caps.queue then JoinQueue(c) else QueueFull(c);
    case Queued => e := Expire(c);
    case Granted => e := LeaveQueue(c);
    case GivingUp => e := LeaveQueue(c);
    case Calling => e := Return(c);
  }

  // ---------------------------------------------------------------- attempts

  datatype Cause = Cancelled | BudgetSpent | RequestRejected | Transport

  datatype Result = Authorized(expiresIn: int) | Denied | Unavailable(cause: Cause)

  /** What the world does during one iteration: the context, the clock, and the answer if asked. */
  datatype Turn = Turn(cancelled: bool, now: int, answer: Result)

  /** One request sent: when, and with what timeout. */
  datatype Issued = Issued(at: int, timeout: int)

  /** attempts. */
  method Attempts(retries: nat, webhookTimeout: int, deadline: int, turns: seq<Turn>)
    returns (r: Result, issued: seq<Issued>)
    requires |turns| == retries + 1 && webhookTimeout > 0
    // every request is sent inside the budget and cannot outlive it
    ensures |issued| <= retries + 1
    ensures forall i :: 0 <= i < |issued| ==>
              && issued[i].at == turns[i].now < deadline && !turns[i].cancelled
              && 0 < issued[i].timeout <= webhookTimeout && issued[i].at + issued[i].timeout <= deadline
              && (issued[i].timeout == webhookTimeout || issued[i].at + issued[i].timeout == deadline)
    // an answer, and a refusal of the request itself, is final
    ensures forall i :: 0 <= i < |issued| ==>
              (|| turns[i].answer.Authorized? || turns[i].answer.Denied?
               || turns[i].answer == Unavailable(RequestRejected))
              ==> i == |issued| - 1 && r == turns[i].answer
    // any other failure is retried, while turns and budget last and the caller is there
    ensures forall i :: 0 <= i < |issued| && i < retries ==>
              turns[i].answer.Unavailable? && turns[i].answer.cause != RequestRejected ==>
                !turns[i + 1].cancelled && turns[i + 1].now < deadline ==> i + 1 < |issued|
    ensures !turns[0].cancelled && turns[0].now < deadline ==> issued != []
    // and the result of having given up is the last failure, or says what ended it
    ensures |issued| == retries + 1 ==> r == turns[retries].answer
    ensures issued == [] ==> r == Unavailable(if turns[0].cancelled then Cancelled else BudgetSpent)
    ensures 0 < |issued| <= retries ==>
              var last := turns[|issued| - 1].answer;
              last.Unavailable? && last.cause != RequestRejected ==>
                r == Unavailable(if turns[|issued|].cancelled then Cancelled else BudgetSpent)
  {
    var last: Option<Result> := None;
    issued := [];
    for i := 0 to retries + 1
      invariant |issued| == i
      invariant i > 0 ==> last == Some(turns[i - 1].answer)
      invariant forall k :: 0 <= k < i ==>
                  && issued[k].at == turns[k].now < deadline && !turns[k].cancelled
                  && 0 < issued[k].timeout <= webhookTimeout && issued[k].at + issued[k].timeout <= deadline
                  && (issued[k].timeout == webhookTimeout || issued[k].at + issued[k].timeout == deadline)
      invariant forall k :: 0 <= k < i ==> turns[k].answer.Unavailable? && turns[k].answer.cause != RequestRejected
    {
      if turns[i].cancelled {
        return Unavailable(Cancelled), issued;
      }
      var remaining := deadline - turns[i].now;
      if remaining <= 0 {
        return Unavailable(BudgetSpent), issued;
      }
      issued := issued + [Issued(turns[i].now, if remaining < webhookTimeout then remaining else webhookTimeout)];
      var res := turns[i].answer;
      if !res.Unavailable? {
        return res, issued;
      }
      if res.cause == RequestRejected {
        return res, issued;
      }
      last := Some(res);
    }
    r := last.value;
  }

  // ---------------------------------------------------------------- clampExpiry

  const TWO_63: int := 0x8000_0000_0000_0000
  const TWO_64: int := 0x1_0000_0000_0000_0000
  const SECOND: int := 1_000_000_000

  predicate Int64(x: int) { -TWO_63 <= x < TWO_63 }

  /** int64 multiplication wraps. */
  function Wrap(x: int): (w: int)
    ensures Int64(w) && (Int64(x) ==> w == x)
  {
    (x + TWO_63) % TWO_64 - TWO_63
  }

  /** clampExpiry, in nanoseconds; for the bounds New accepts. */
  function ClampExpiry(seconds: int, minExpiry: int, maxExpiry: int): int
    requires Int64(seconds) && Int64(minExpiry) && minExpiry <= maxExpiry && 0 < maxExpiry < TWO_63
  {
    if seconds > maxExpiry / SECOND then maxExpiry
    else
      var d := Wrap(seconds * SECOND);
      if d > minExpiry then d else minExpiry
  }

  /** The smallest number of seconds whose nanoseconds fit in an int64. */
  const LEAST_SECONDS: int := -9_223_372_036

  /**
   * From LEAST_SECONDS up the answer is the application's own wish, moved into [min, max]; below it
   * the product wraps, and the answer stays in range only where the wrapped value does.
   */
  lemma ClampExpiryRange(seconds: int, minExpiry: int, maxExpiry: int)
    requires Int64(seconds) && Int64(minExpiry) && minExpiry <= maxExpiry && 0 < maxExpiry < TWO_63
    ensures var d := ClampExpiry(seconds, minExpiry, maxExpiry);
            && (minExpiry <= d <= maxExpiry <==> seconds >= LEAST_SECONDS || Wrap(seconds * SECOND) <= maxExpiry)
            && (seconds >= LEAST_SECONDS && minExpiry <= seconds * SECOND <= maxExpiry ==> d == seconds * SECOND)
            && (LEAST_SECONDS <= seconds && seconds * SECOND < minExpiry ==> d == minExpiry)
            && (seconds * SECOND >= maxExpiry ==> d == maxExpiry)
  {
    assert seconds <= maxExpiry / SECOND ==> seconds * SECOND <= maxExpiry;
    assert seconds > maxExpiry / SECOND ==> seconds * SECOND > maxExpiry;
  }

  /** One second further down, a validated maximum of at most 292 years is exceeded. */
  lemma ClampExpiryWraps(minExpiry: int, maxExpiry: int)
    requires Int64(minExpiry) && minExpiry <= maxExpiry && 0 < maxExpiry < 9_223_372_036_709_551_616
    ensures ClampExpiry(LEAST_SECONDS - 1, minExpiry, maxExpiry) == 9_223_372_036_709_551_616 > maxExpiry
  {
    assert (LEAST_SECONDS - 1) * SECOND == 9_223_372_036_709_551_616 - TWO_64;
  }
}
