/**
  What a concurrent queue does with the work it is given: items leave the list in the order they came, and none is
  lost; every synchronous call executes its own item, once, before it returns; asynchronous readers are executed as
  often as they are handed to the target queue; nothing new is begun while the queue is suspended; and when the
  queue can fall asleep with work on its list.
*/
module ConcurrentExecution {
  import opened ConcurrentQueue

  // ---------------------------------------------------------------------------------------------
  // The list: conservation and order
  // ---------------------------------------------------------------------------------------------

  /** What a step of `t` puts on the list. */
  function PushedBy(s: State, t: Tid): seq<Item>
    requires t in s.th
  {
    if s.th[t].Push? then [s.th[t].item] else []
  }

  /** What a step of `t` gives out for good: run inline, handed to a waiting caller, or to the target queue. */
  function GivenBy(s: State, t: Tid): seq<Item>
    requires t in s.th
  {
    match s.th[t]
    case Drain(DrainRun) => [Barrier]
    case Drain(RedirGive(item)) => [item]
    case Drain(InvSignal(u)) => [SyncBarrier(u)]
    case Hold(HandSignal(u)) => [SyncBarrier(u)]
    case _ => []
  }

  function Pushed(s: State, schedule: seq<(Tid, Call)>, width: nat): seq<Item>
    decreases |schedule|
  {
    if schedule == [] then []
    else
      var (t, call) := schedule[0];
      if t !in s.th then Pushed(s, schedule[1..], width)
      else PushedBy(s, t) + Pushed(Step(s, t, call, width), schedule[1..], width)
  }

  function Given(s: State, schedule: seq<(Tid, Call)>, width: nat): seq<Item>
    decreases |schedule|
  {
    if schedule == [] then []
    else
      var (t, call) := schedule[0];
      if t !in s.th then Given(s, schedule[1..], width)
      else GivenBy(s, t) + Given(Step(s, t, call, width), schedule[1..], width)
  }

  /** The item that a thread has taken off the list and not yet given out or put back. */
  function Holding(pc: Pc): seq<Item> {
    match pc
    case Hold(HandSuspend(u)) => [SyncBarrier(u)]
    case Hold(HandRunning(u)) => [SyncBarrier(u)]
    case Hold(HandSignal(u)) => [SyncBarrier(u)]
    case Drain(d) => DrainHolding(d)
    case _ => []
  }

  function DrainHolding(d: DrainPc): seq<Item> {
    match d
    case DrainTake => []
    case DrainSuspend(item) => [item]
    case DrainWidth(item) => [item]
    case DrainBarrier(item) => [item]
    case DrainRun => [Barrier]
    case RedirAdd(item) => [item]
    case RedirGive(item) => [item]
    case PutBack(item) => [item]
    case PopSuspend(u) => [SyncBarrier(u)]
    case PopRunning(u) => [SyncBarrier(u)]
    case InvDec(sema) => if sema < 0 then [] else [SyncBarrier(sema)]
    case InvSignal(u) => [SyncBarrier(u)]
  }

  function Held(s: State): seq<Item> {
    if s.owner in s.th then Holding(s.th[s.owner]) else []
  }

  /** The step takes nothing away and adds nothing but what it pushes. */
  predicate Accounted(s: State, t: Tid, s': State)
    requires t in s.th
  {
    Held(s) + s.items + PushedBy(s, t) == GivenBy(s, t) + Held(s') + s'.items
  }

  /** A synchronous owner goes on, gives up the list, or hands it over to a waiting barrier. */
  lemma HoldAccounted(s: State, t: Tid, h: HoldPc, call: Call)
    requires t in s.th && s.th[t] == Hold(h) && s.owner == t
    requires h.HandSignal? ==> Waiting(s, SyncBarrier(h.who))
    ensures Accounted(s, t, StepHold(s, t, h, call))
  {
    hide StepHold;
    if h.OneHead? { HoldTakes(s, t, h, call); } else { HoldGoesOn(s, t, h, call); }
  }

  lemma HoldTakes(s: State, t: Tid, h: HoldPc, call: Call)
    requires t in s.th && s.th[t] == Hold(h) && s.owner == t && h.OneHead?
    ensures Accounted(s, t, StepHold(s, t, h, call))
  {
    if s.items != [] && s.items[0].SyncBarrier? {
      assert s.items == [s.items[0]] + s.items[1..] && s.items[0] == SyncBarrier(s.items[0].t);
    }
  }

  lemma HoldGoesOn(s: State, t: Tid, h: HoldPc, call: Call)
    requires t in s.th && s.th[t] == Hold(h) && s.owner == t && !h.OneHead?
    requires h.HandSignal? ==> Waiting(s, SyncBarrier(h.who))
    ensures Accounted(s, t, StepHold(s, t, h, call))
  {
  }

  predicate TakesOrPuts(d: DrainPc) {
    d.DrainTake? || d.PutBack?
  }

  lemma DrainTakes(s: State, t: Tid, d: DrainPc, width: nat)
    requires t in s.th && s.th[t] == Drain(d) && s.owner == t && TakesOrPuts(d)
    ensures Accounted(s, t, StepDrain(s, t, d, width))
  {
    if s.items != [] { assert s.items == [s.items[0]] + s.items[1..]; }
  }

  lemma DrainGoesOn(s: State, t: Tid, d: DrainPc, width: nat)
    requires t in s.th && s.th[t] == Drain(d) && s.owner == t && !TakesOrPuts(d)
    requires d.DrainBarrier? ==> IsBarrier(d.item)
    requires d.InvSignal? ==> Waiting(s, SyncBarrier(d.who))
    ensures Accounted(s, t, StepDrain(s, t, d, width))
  {
  }

  lemma DrainAccounted(s: State, t: Tid, d: DrainPc, width: nat)
    requires Inv(s) && t in s.th && s.th[t] == Drain(d)
    ensures Accounted(s, t, StepDrain(s, t, d, width))
  {
    assert OwnerInv(s) && HandInv(s);
    OwnerHolds(s, t);
    hide OwnerInv, RunningInv, Alone, ItemsInv, PushInv, Accounted, StepDrain;
    if TakesOrPuts(d) { DrainTakes(s, t, d, width); } else { DrainGoesOn(s, t, d, width); }
  }

  /** A step of `t` leaves it without an item in its hands, and adds to the list only what it pushes. */
  predicate Plain(s: State, t: Tid, s': State)
    requires t in s.th
  {
    && s'.items == s.items + PushedBy(s, t) && GivenBy(s, t) == []
    && (s'.owner == s.owner || (s.running == 0 && s'.owner == t))
    && t in s'.th && Holding(s'.th[t]) == []
  }

  lemma AskPlain(s: State, t: Tid, a: AskPc, width: nat)
    requires t in s.th && s.th[t] == Ask(a)
    ensures Plain(s, t, StepAsk(s, t, a, width))
  {
  }

  lemma SharePlain(s: State, t: Tid, p: SharePc)
    requires t in s.th && s.th[t] == Share(p)
    ensures Plain(s, t, StepShare(s, t, p))
  {
  }

  lemma BeginPlain(s: State, t: Tid, call: Call)
    requires t in s.th && s.th[t] == Idle
    ensures Plain(s, t, Begin(s, t, call))
  {
  }

  /** A step of a thread that holds nothing. */
  lemma OtherShape(s: State, t: Tid, call: Call, width: nat)
    requires t in s.th && !Owns(s.th[t])
    ensures Plain(s, t, Step(s, t, call, width))
  {
    hide StepHold, StepDrain, StepAsk, StepShare, Begin;
    match s.th[t]
    case Idle => BeginPlain(s, t, call);
    case Ask(a) => AskPlain(s, t, a, width);
    case Share(p) => SharePlain(s, t, p);
    case _ =>
  }

  lemma OtherAccounted(s: State, t: Tid, call: Call, width: nat)
    requires Inv(s) && t in s.th && !Owns(s.th[t])
    ensures Accounted(s, t, Step(s, t, call, width))
  {
    AskersUnsignaled(s, t);
    hide Inv, Step, Holding, PushedBy, GivenBy;
    OtherShape(s, t, call, width);
    StepThreads(s, t, call, width);
    HoldsNothing(s.th[t]);
    var s' := Step(s, t, call, width);
    assert Held(s') == Held(s);
    hide Held;
    assert Held(s) + s.items + PushedBy(s, t) == Held(s) + (s.items + PushedBy(s, t));
  }

  lemma HoldsNothing(pc: Pc)
    requires !Owns(pc)
    ensures Holding(pc) == []
  {
  }

  lemma StepAccounted(s: State, t: Tid, call: Call, width: nat)
    requires Inv(s) && t in s.th
    ensures Accounted(s, t, Step(s, t, call, width))
  {
    hide Accounted, StepHold, StepDrain;
    match s.th[t]
    case Hold(h) =>
      OwnerHolds(s, t);
      hide Inv;
      HoldAccounted(s, t, h, call);
    case Drain(d) => hide Inv; DrainAccounted(s, t, d, width);
    case _ => hide Inv; OtherAccounted(s, t, call, width);
  }

  /** What was pushed is what was given out, what the owner holds, and what is listed, in this order. */
  predicate Balanced(s: State, pushed: seq<Item>, given: seq<Item>) {
    pushed == given + (Held(s) + s.items)
  }

  lemma BalancedStep(s: State, t: Tid, call: Call, width: nat, pushed: seq<Item>, given: seq<Item>)
    requires Inv(s) && t in s.th && Balanced(s, pushed, given)
    ensures Inv(Step(s, t, call, width))
    ensures Balanced(Step(s, t, call, width), pushed + PushedBy(s, t), given + GivenBy(s, t))
  {
    hide Inv, Step, Held, PushedBy, GivenBy;
    StepInv(s, t, call, width);
    StepAccounted(s, t, call, width);
    var s' := Step(s, t, call, width);
    Regroup(given, Held(s) + s.items, PushedBy(s, t), GivenBy(s, t), Held(s'), s'.items);
  }

  lemma Regroup<T>(g: seq<T>, a: seq<T>, b: seq<T>, c: seq<T>, d: seq<T>, e: seq<T>)
    requires a + b == c + d + e
    ensures g + a + b == g + c + (d + e)
  {
    assert g + a + b == g + (a + b);
    assert g + c + (d + e) == g + (c + d + e);
  }

  lemma {:induction false} RunBalanced(s: State, schedule: seq<(Tid, Call)>, width: nat, pushed: seq<Item>,
                                       given: seq<Item>)
    requires Inv(s) && Balanced(s, pushed, given)
    ensures Balanced(Run(s, schedule, width), pushed + Pushed(s, schedule, width), given + Given(s, schedule, width))
    decreases |schedule|
  {
    hide Inv, Step, Balanced, PushedBy, GivenBy;
    if schedule == [] {
      assert pushed + [] == pushed && given + [] == given;
    } else {
      var (t, call) := schedule[0];
      if t in s.th {
        var s', rest := Step(s, t, call, width), schedule[1..];
        BalancedStep(s, t, call, width, pushed, given);
        RunBalanced(s', rest, width, pushed + PushedBy(s, t), given + GivenBy(s, t));
        assert pushed + Pushed(s, schedule, width) == pushed + PushedBy(s, t) + Pushed(s', rest, width);
        assert given + Given(s, schedule, width) == given + GivenBy(s, t) + Given(s', rest, width);
      } else {
        RunBalanced(s, schedule[1..], width, pushed, given);
      }
    }
  }

  /**
    No item is lost, and none overtakes another: what was pushed is, in this order, what has been given out, the one
    item that the owner of the list may hold, and what is on the list.
  */
  lemma NothingLostInOrder(threads: set<Tid>, schedule: seq<(Tid, Call)>, width: nat)
    ensures var s := Reached(threads, schedule, width);
            var pushed, given := Pushed(Init(threads), schedule, width), Given(Init(threads), schedule, width);
            pushed == given + Held(s) + s.items && |Held(s)| <= 1
  {
    hide Inv, Run, Pushed, Given, Balanced, Held, Init;
    var s0 := Init(threads);
    InitInv(threads);
    StartsBalanced(threads);
    RunBalanced(s0, schedule, width, [], []);
    var pushed, given := Pushed(s0, schedule, width), Given(s0, schedule, width);
    assert [] + pushed == pushed && [] + given == given;
    InOrder(Reached(threads, schedule, width), pushed, given);
  }

  lemma StartsBalanced(threads: set<Tid>)
    ensures Balanced(Init(threads), [], [])
  {
  }

  lemma InOrder(s: State, pushed: seq<Item>, given: seq<Item>)
    requires Balanced(s, pushed, given)
    ensures pushed == given + Held(s) + s.items && |Held(s)| <= 1
  {
    assert given + Held(s) + s.items == given + (Held(s) + s.items);
  }

  // ---------------------------------------------------------------------------------------------
  // Calls, followed along a schedule
  // ---------------------------------------------------------------------------------------------

  /** The state after the first `k` steps of a schedule. */
  function At(threads: set<Tid>, schedule: seq<(Tid, Call)>, width: nat, k: nat): State
    requires k <= |schedule|
  {
    Reached(threads, schedule[..k], width)
  }

  lemma AtStart(threads: set<Tid>, schedule: seq<(Tid, Call)>, width: nat)
    ensures At(threads, schedule, width, 0) == Init(threads)
  {
    RunNothing(Init(threads), width);
  }

  /** One step further along a schedule. */
  lemma Next(threads: set<Tid>, schedule: seq<(Tid, Call)>, width: nat, k: nat)
    requires k < |schedule|
    ensures var (t, call) := schedule[k];
            var s, s' := At(threads, schedule, width, k), At(threads, schedule, width, k + 1);
            && Inv(s) && LockInv(s) && s.th.Keys == threads == s'.th.Keys
            && s' == if t in threads then Step(s, t, call, width) else s
  {
    hide Inv, LockInv, SlipInv, NarrowInv, Run, Step, Init;
    ReachedInv(threads, schedule[..k], width);
    ReachedInv(threads, schedule[..k + 1], width);
    var (t, call) := schedule[k];
    RunAppend(Init(threads), schedule[..k], t, call, width);
    assert schedule[..k + 1] == schedule[..k] + [(t, call)];
  }

  /** Between the steps `i` and `j` thread `t` makes one such call and returns from it. */
  predicate Calls(threads: set<Tid>, schedule: seq<(Tid, Call)>, width: nat, i: nat, j: nat, t: Tid, call: Call)
    requires i < j <= |schedule|
  {
    && t in At(threads, schedule, width, i).th && At(threads, schedule, width, i).th[t] == Idle
    && schedule[i] == (t, call)
    && (forall k :: i < k < j ==>
          t in At(threads, schedule, width, k).th && At(threads, schedule, width, k).th[t] != Idle)
    && t in At(threads, schedule, width, j).th && At(threads, schedule, width, j).th[t] == Idle
  }

  /** A thread inside an item: a reader or a barrier, of whatever kind. */
  predicate Executing(pc: Pc) {
    InReader(pc) || pc == Hold(FastRun) || pc == Hold(SlowRun) || pc == Drain(DrainRun)
  }

  /** The calls that submit work. */
  predicate Submits(call: Call) {
    call == Sync || call == BarrierSync || call == Async || call == BarrierAsync
  }

  /** What such a call is for: to execute its item, or to see it on the list or on the target queue. */
  predicate Achieves(call: Call, pc: Pc) {
    match call
    case Async => pc == Push(Reader) || pc == Share(AsyncRedirect)
    case BarrierAsync => pc == Push(Barrier)
    case _ => Executing(pc)
  }

  /** How often a step of `t` from `i` to `n` does that. */
  function Feats(threads: set<Tid>, schedule: seq<(Tid, Call)>, width: nat, i: nat, n: nat, t: Tid, call: Call): nat
    requires i <= n <= |schedule|
  {
    if i == n then 0
    else
      var s := At(threads, schedule, width, n - 1);
      Feats(threads, schedule, width, i, n - 1, t, call) +
      if schedule[n - 1].0 == t && t in s.th && Achieves(call, s.th[t]) then 1 else 0
  }

  /** Where a thread stands in a call that has not yet achieved its purpose, or has once. */
  predicate Before(call: Call, pc: Pc) {
    match call
    case Async =>
      || pc == Ask(AsyncTail) || pc == Ask(AsyncSuspend) || pc == Ask(AsyncAdd) || pc == Push(Reader)
      || pc == Share(AsyncBack) || pc == Share(AsyncUnlock) || pc == Share(AsyncRedirect)
      || (pc.Wake? && pc.after == PushesReader)
    case BarrierAsync => pc == Push(Barrier)
    case Sync =>
      || pc == Ask(SyncTail) || pc == Ask(SyncSuspend) || pc == Ask(SyncAdd) || (pc.Push? && pc.item.SyncReader?)
      || pc == Share(SyncBack) || pc == Share(SyncRun) || (pc.Wake? && pc.after == PushesSync)
      || Awaits(pc, AwaitsReader)
    case BarrierSync =>
      || pc == Ask(FastTail) || pc == Ask(FastSuspend) || pc == Ask(FastLock) || (pc.Push? && pc.item.SyncBarrier?)
      || pc == Hold(FastRun) || pc == Hold(SlowRun) || Awaits(pc, AwaitsBarrier)
    case _ => false
  }

  predicate After(call: Call, pc: Pc) {
    || pc == Idle || (pc.Wake? && pc.after == Returns)
    || (call == Sync && pc == Share(SyncSub))
    || (call == BarrierSync && pc.Hold? && pc.h != FastRun && pc.h != SlowRun)
  }

  predicate InCall(call: Call, pc: Pc, n: nat) {
    if n == 0 then Before(call, pc) else n == 1 && After(call, pc)
  }

  lemma HoldAfter(s: State, t: Tid, h: HoldPc, call: Call)
    requires t in s.th && s.th[t] == Hold(h)
    ensures After(BarrierSync, StepHold(s, t, h, call).th[t])
  {
  }

  lemma AskInCall(s: State, t: Tid, a: AskPc, width: nat, call: Call)
    requires t in s.th && s.th[t] == Ask(a) && Submits(call) && Before(call, s.th[t])
    ensures Before(call, StepAsk(s, t, a, width).th[t])
  {
  }

  lemma ShareInCall(s: State, t: Tid, p: SharePc, call: Call, n: nat)
    requires t in s.th && s.th[t] == Share(p) && Submits(call) && InCall(call, s.th[t], n)
    ensures InCall(call, StepShare(s, t, p).th[t], n + if Achieves(call, s.th[t]) then 1 else 0)
  {
  }

  lemma QuietInCall(s: State, t: Tid, next: Call, width: nat, call: Call, n: nat)
    requires t in s.th && Submits(call) && InCall(call, s.th[t], n)
    requires s.th[t].Push? || s.th[t].Wake? || s.th[t].Wait?
    ensures InCall(call, Step(s, t, next, width).th[t], n + if Achieves(call, s.th[t]) then 1 else 0)
  {
  }

  lemma CallStep(s: State, t: Tid, next: Call, width: nat, call: Call, n: nat)
    requires t in s.th && s.th[t] != Idle && Submits(call) && InCall(call, s.th[t], n)
    ensures t in Step(s, t, next, width).th
    ensures InCall(call, Step(s, t, next, width).th[t], n + if Achieves(call, s.th[t]) then 1 else 0)
  {
    hide Begin, StepHold, StepDrain, StepAsk, StepShare;
    StepThreads(s, t, next, width);
    match s.th[t]
    case Hold(h) => HoldAfter(s, t, h, next);
    case Ask(a) => AskInCall(s, t, a, width, call);
    case Share(p) => ShareInCall(s, t, p, call, n);
    case _ => QuietInCall(s, t, next, width, call, n);
  }

  lemma CallNext(threads: set<Tid>, schedule: seq<(Tid, Call)>, width: nat, i: nat, n: nat, t: Tid, call: Call)
    requires i < n < |schedule| && t in threads && Submits(call) && t in At(threads, schedule, width, n).th
    requires At(threads, schedule, width, n).th[t] != Idle
    requires InCall(call, At(threads, schedule, width, n).th[t], Feats(threads, schedule, width, i, n, t, call))
    ensures t in At(threads, schedule, width, n + 1).th
    ensures InCall(call, At(threads, schedule, width, n + 1).th[t], Feats(threads, schedule, width, i, n + 1, t, call))
  {
    hide Inv, LockInv, Step, At, InCall, Achieves;
    Next(threads, schedule, width, n);
    var s := At(threads, schedule, width, n);
    var (u, next) := schedule[n];
    if u == t {
      CallStep(s, t, next, width, call, Feats(threads, schedule, width, i, n, t, call));
    } else if u in threads {
      StepThreads(s, u, next, width);
    }
  }

  lemma CallBegins(s: State, t: Tid, call: Call, width: nat)
    requires t in s.th && s.th[t] == Idle && Submits(call)
    ensures t in Step(s, t, call, width).th && InCall(call, Step(s, t, call, width).th[t], 0)
    ensures !Achieves(call, s.th[t])
  {
  }

  /**
    Between its beginning and its return, a synchronous call of a reader or a barrier executes exactly one item, and
    an asynchronous one puts exactly one on the list or hands it to the target queue.
  */
  lemma CallDoesOne(threads: set<Tid>, schedule: seq<(Tid, Call)>, width: nat, i: nat, j: nat, t: Tid, call: Call)
    requires i < j <= |schedule| && Submits(call) && Calls(threads, schedule, width, i, j, t, call)
    ensures Feats(threads, schedule, width, i, j, t, call) == 1
  {
    hide Inv, LockInv, Step, At, InCall, Achieves;
    Next(threads, schedule, width, i);
    CallBegins(At(threads, schedule, width, i), t, call, width);
    assert Feats(threads, schedule, width, i, i, t, call) == 0;
    var n := i + 1;
    while n < j
      invariant i < n <= j && t in threads && t in At(threads, schedule, width, n).th
      invariant InCall(call, At(threads, schedule, width, n).th[t], Feats(threads, schedule, width, i, n, t, call))
    {
      assert At(threads, schedule, width, n).th[t] != Idle;
      CallNext(threads, schedule, width, i, n, t, call);
      n := n + 1;
    }
    CallOver(call, Feats(threads, schedule, width, i, j, t, call));
  }

  lemma CallOver(call: Call, n: nat)
    requires InCall(call, Idle, n)
    ensures n == 1
  {
  }

  // ---------------------------------------------------------------------------------------------
  // Lock transfer
  // ---------------------------------------------------------------------------------------------

  /**
    The first item is not a waiting barrier or is not in the head yet, a client has suspended the queue, or a barrier
    that was handed the list itself finds readers beside it.
  */
  predicate NothingToTransfer(s: State, pc: Pc, call: Call) {
    || s.items == [] || !s.items[0].SyncBarrier? || call == Stalled || s.clients > 0
    || (pc == Hold(SlowRunning) && s.running > 2)
  }

  /** At step `k` thread `t`, its item executed, hands the list over, or finds that it cannot. */
  predicate Parts(threads: set<Tid>, schedule: seq<(Tid, Call)>, width: nat, k: nat, t: Tid)
    requires k < |schedule|
  {
    var s := At(threads, schedule, width, k);
    && schedule[k].0 == t && t in s.th && s.th[t].Hold? && !Executing(s.th[t])
    && (s.th[t].h.HandSignal? || NothingToTransfer(s, s.th[t], schedule[k].1))
  }

  /** On the way out of a barrier. */
  predicate Departs(pc: Pc) {
    match pc
    case Hold(h) => h == FastDec || h == SlowSubSuspend || h == SlowSubRunning
    case Wake(_, after) => after == Returns
    case Idle => true
    case _ => false
  }

  lemma HoldParts(s: State, t: Tid, h: HoldPc, call: Call)
    requires t in s.th && s.th[t] == Hold(h) && !Departs(Hold(h)) && Departs(StepHold(s, t, h, call).th[t])
    requires s.clients == 0 ==> s.suspend < 2 || (HoldSuspends(h) && s.suspend < 4)
    requires s.running >= HoldWeight(h)
    ensures !Executing(s.th[t]) && (h.HandSignal? || NothingToTransfer(s, s.th[t], call))
  {
  }

  lemma HoldWords(s: State, t: Tid, h: HoldPc)
    requires Inv(s) && LockInv(s) && t in s.th && s.th[t] == Hold(h)
    ensures s.clients == 0 ==> s.suspend < 2 || (HoldSuspends(h) && s.suspend < 4)
    ensures s.running >= HoldWeight(h)
  {
    OwnerHolds(s, t);
    hide ItemsInv, HandInv, Alone, PushInv, OwnerInv;
  }

  lemma OnlyHoldDeparts(s: State, t: Tid, call: Call, width: nat)
    requires t in s.th && !s.th[t].Hold? && Before(BarrierSync, s.th[t])
    ensures t in Step(s, t, call, width).th && !Departs(Step(s, t, call, width).th[t])
  {
    hide StepHold, StepDrain;
  }

  lemma StepsHold(s: State, t: Tid, call: Call, width: nat)
    requires t in s.th && s.th[t].Hold?
    ensures Step(s, t, call, width) == StepHold(s, t, s.th[t].h, call)
  {
    hide StepHold;
  }

  /** A thread in the call that is neither at a hold nor on its way out has not executed yet. */
  lemma StillBefore(pc: Pc, n: nat)
    requires InCall(BarrierSync, pc, n) && !pc.Hold? && !Departs(pc)
    ensures Before(BarrierSync, pc)
  {
  }

  lemma DepartNext(threads: set<Tid>, schedule: seq<(Tid, Call)>, width: nat, n: nat, t: Tid, m: nat)
    requires n < |schedule| && t in threads && t in At(threads, schedule, width, n).th
    requires !Departs(At(threads, schedule, width, n).th[t])
    requires InCall(BarrierSync, At(threads, schedule, width, n).th[t], m)
    ensures t in At(threads, schedule, width, n + 1).th
    ensures Departs(At(threads, schedule, width, n + 1).th[t]) ==> Parts(threads, schedule, width, n, t)
  {
    hide Inv, LockInv, Step, At, Departs, InCall, Before, NothingToTransfer, StepHold, Executing;
    Next(threads, schedule, width, n);
    var s := At(threads, schedule, width, n);
    var (u, call) := schedule[n];
    if u in threads { StepThreads(s, u, call, width); }
    if u == t {
      if s.th[t].Hold? {
        HoldWords(s, t, s.th[t].h);
        StepsHold(s, t, call, width);
        if Departs(StepHold(s, t, s.th[t].h, call).th[t]) { HoldParts(s, t, s.th[t].h, call); }
      } else {
        StillBefore(s.th[t], m);
        OnlyHoldDeparts(s, t, call, width);
      }
    }
  }

  lemma BeginsInside(s: State, t: Tid, width: nat)
    requires t in s.th && s.th[t] == Idle
    ensures t in Step(s, t, BarrierSync, width).th && !Departs(Step(s, t, BarrierSync, width).th[t])
  {
  }

  lemma IdleDeparts()
    ensures Departs(Idle)
  {
  }

  /**
    A synchronous barrier, its item executed, hands the list over to the synchronous barrier that waits first in the
    list; it leaves without doing so only if it finds a reason not to.
  */
  lemma TransfersLock(threads: set<Tid>, schedule: seq<(Tid, Call)>, width: nat, i: nat, j: nat, t: Tid)
    requires i < j <= |schedule| && Calls(threads, schedule, width, i, j, t, BarrierSync)
    ensures exists k :: i < k < j && Parts(threads, schedule, width, k, t)
  {
    hide Inv, LockInv, Step, At, InCall, Departs, Parts, Achieves;
    Next(threads, schedule, width, i);
    CallBegins(At(threads, schedule, width, i), t, BarrierSync, width);
    BeginsInside(At(threads, schedule, width, i), t, width);
    assert Feats(threads, schedule, width, i, i, t, BarrierSync) == 0;
    IdleDeparts();
    var n := i + 1;
    while !Parts(threads, schedule, width, n, t)
      invariant i < n < j && t in threads && t in At(threads, schedule, width, n).th
      invariant InCall(BarrierSync, At(threads, schedule, width, n).th[t],
                       Feats(threads, schedule, width, i, n, t, BarrierSync))
      invariant !Departs(At(threads, schedule, width, n).th[t])
      decreases j - n
    {
      assert At(threads, schedule, width, n).th[t] != Idle;
      CallNext(threads, schedule, width, i, n, t, BarrierSync);
      DepartNext(threads, schedule, width, n, t, Feats(threads, schedule, width, i, n, t, BarrierSync));
      n := n + 1;
    }
  }

  // ---------------------------------------------------------------------------------------------
  // Readers on the target queue
  // ---------------------------------------------------------------------------------------------

  /** The step hands an asynchronous reader to the target queue. */
  predicate Redirects(pc: Pc) {
    pc == Share(AsyncRedirect) || (pc.Drain? && pc.d.RedirGive? && !pc.d.item.SyncReader?)
  }

  /** Handed over less executed, by the first `n` steps. */
  function InFlight(threads: set<Tid>, schedule: seq<(Tid, Call)>, width: nat, n: nat): int
    requires n <= |schedule|
  {
    if n == 0 then 0
    else
      var (s, t) := (At(threads, schedule, width, n - 1), schedule[n - 1].0);
      InFlight(threads, schedule, width, n - 1) +
      if t !in s.th then 0 else if Redirects(s.th[t]) then 1 else if s.th[t] == Share(RedirRun) then -1 else 0
  }

  function Runners(s: State): set<Tid> {
    set u | u in s.th && s.th[u] == Share(RedirRun)
  }

  lemma RunnersMove(s: State, s': State, t: Tid)
    requires Moved(s, s', t)
    ensures |Runners(s')| == |Runners(s)| - One(s.th[t] == Share(RedirRun)) + One(s'.th[t] == Share(RedirRun))
  {
    assert Runners(s') - {t} == Runners(s) - {t};
    Without(Runners(s), t);
    Without(Runners(s'), t);
  }

  lemma RedirectHold(s: State, t: Tid, h: HoldPc, call: Call)
    requires t in s.th && s.th[t] == Hold(h)
    ensures StepHold(s, t, h, call).redirected == s.redirected && StepHold(s, t, h, call).th[t] != Share(RedirRun)
  {
  }

  lemma RedirectDrain(s: State, t: Tid, d: DrainPc, width: nat)
    requires t in s.th && s.th[t] == Drain(d)
    ensures StepDrain(s, t, d, width).redirected == s.redirected + One(Redirects(Drain(d)))
    ensures StepDrain(s, t, d, width).th[t] != Share(RedirRun)
  {
  }

  lemma RedirectStep(s: State, t: Tid, call: Call, width: nat)
    requires t in s.th
    ensures var s' := Step(s, t, call, width);
            && t in s'.th
            && s'.redirected + One(s'.th[t] == Share(RedirRun)) == s.redirected + One(Redirects(s.th[t]))
  {
    hide StepHold, StepDrain;
    match s.th[t]
    case Hold(h) => RedirectHold(s, t, h, call); HoldThreads(s, t, h, call);
    case Drain(d) => RedirectDrain(s, t, d, width); DrainThreads(s, t, d, width);
    case _ =>
  }

  /** Every asynchronous reader handed to the target queue waits there, is being executed, or has been, once. */
  lemma {:induction false} ReadersRunOnce(threads: set<Tid>, schedule: seq<(Tid, Call)>, width: nat, n: nat)
    requires n <= |schedule|
    ensures var s := At(threads, schedule, width, n);
            InFlight(threads, schedule, width, n) == s.redirected + |Runners(s)|
    decreases n
  {
    hide Inv, LockInv, Step, At;
    if n == 0 {
      AtStart(threads, schedule, width);
      assert Runners(Init(threads)) == {};
    } else {
      ReadersRunOnce(threads, schedule, width, n - 1);
      hide Runners;
      Next(threads, schedule, width, n - 1);
      var (t, call) := schedule[n - 1];
      var s := At(threads, schedule, width, n - 1);
      if t in threads {
        StepThreads(s, t, call, width);
        RedirectStep(s, t, call, width);
        RunnersMove(s, At(threads, schedule, width, n), t);
      }
    }
  }

  // ---------------------------------------------------------------------------------------------
  // Suspension
  // ---------------------------------------------------------------------------------------------

  /** Suspensions less resumptions, as the clients count them. */
  function Outstanding(threads: set<Tid>, schedule: seq<(Tid, Call)>, width: nat): nat
    decreases |schedule|
  {
    if schedule == [] then 0
    else
      var before := schedule[..|schedule| - 1];
      var (t, call) := schedule[|schedule| - 1];
      var n, s := Outstanding(threads, before, width), Reached(threads, before, width);
      if t !in s.th || s.th[t] != Idle then n
      else match call
           case Suspend => n + 1
           case Resume => if n == 0 then 0 else n - 1
           case _ => n
  }

  lemma HoldClients(s: State, t: Tid, h: HoldPc, call: Call)
    requires t in s.th
    ensures StepHold(s, t, h, call).clients == s.clients
  {
  }

  lemma DrainClients(s: State, t: Tid, d: DrainPc, width: nat)
    requires t in s.th
    ensures StepDrain(s, t, d, width).clients == s.clients
  {
  }

  lemma ClientsStep(s: State, t: Tid, call: Call, width: nat)
    requires t in s.th && (s.clients > 0 ==> s.suspend >= 2)
    ensures Step(s, t, call, width).clients ==
            if s.th[t] != Idle then s.clients
            else if call == Suspend then s.clients + 1
            else if call == Resume && s.clients > 0 then s.clients - 1 else s.clients
  {
    hide StepHold, StepDrain;
    match s.th[t]
    case Hold(h) => HoldClients(s, t, h, call);
    case Drain(d) => DrainClients(s, t, d, width);
    case _ =>
  }

  lemma ClientsWord(s: State)
    requires LockInv(s)
    ensures s.clients > 0 ==> s.suspend >= 2
  {
  }

  lemma {:induction false} ClientsExact(threads: set<Tid>, schedule: seq<(Tid, Call)>, width: nat)
    ensures Reached(threads, schedule, width).clients == Outstanding(threads, schedule, width)
    decreases |schedule|
  {
    hide Inv, LockInv, Step, Run;
    if schedule == [] {
      RunNothing(Init(threads), width);
    } else {
      var n := |schedule| - 1;
      ClientsExact(threads, schedule[..n], width);
      assert schedule[..n + 1] == schedule;
      Next(threads, schedule, width, n);
      var (t, call) := schedule[n];
      hide Init, Reached;
      if t in threads {
        ClientsWord(Reached(threads, schedule[..n], width));
        ClientsStep(Reached(threads, schedule[..n], width), t, call, width);
      }
    }
  }

  predicate HoldLicence(h: HoldPc) {
    match h
    case FastTailAgain => false
    case FastSuspendAgain => false
    case FastDec => false
    case SlowSuspend => false
    case SlowSubSuspend => false
    case SlowSubRunning => false
    case _ => true
  }

  predicate DrainLicence(d: DrainPc) {
    match d
    case DrainTake => false
    case DrainSuspend(_) => false
    case PutBack(_) => false
    case InvDec(sema) => sema >= 0
    case _ => true
  }

  /** The thread is past its suspension test: it may still execute one item, or have one executed. */
  predicate Licensed(s: State, u: Tid)
    requires u in s.th
  {
    || u in s.signaled
    || match s.th[u]
       case Ask(a) => a == AsyncAdd || a == SyncAdd || a == FastLock
       case Share(p) => p == AsyncRedirect || p == SyncRun || p == RedirRun
       case Hold(h) => HoldLicence(h)
       case Drain(d) => DrainLicence(d)
       case _ => false
  }

  function Allowed(s: State): set<Tid> {
    set u | u in s.th && Licensed(s, u)
  }

  /** The executions that can still come: of licensed threads, and of readers on the target queue. */
  function Potential(s: State): nat {
    |Allowed(s)| + s.redirected
  }

  predicate Shrinks(s: State, t: Tid, s': State)
    requires t in s.th && t in s'.th
  {
    One(Licensed(s', t)) + s'.redirected + One(Executing(s.th[t])) <= One(Licensed(s, t)) + s.redirected
  }

  lemma PotentialMove(s: State, s': State, t: Tid)
    requires Moved(s, s', t) && Shrinks(s, t, s') && s'.signaled - {t} == s.signaled - {t}
    ensures Potential(s') + One(Executing(s.th[t])) <= Potential(s)
  {
    forall u | u in s.th && u != t ensures Licensed(s', u) <==> Licensed(s, u) {
      assert u in s'.signaled - {t} <==> u in s.signaled - {t};
    }
    assert Allowed(s') - {t} == Allowed(s) - {t};
    Without(Allowed(s), t);
    Without(Allowed(s'), t);
  }

  lemma PotentialHand(s: State, s': State, t: Tid, w: Tid)
    requires Moved(s, s', t) && w in s.th && w != t && !Licensed(s, w) && s'.signaled == s.signaled + {w}
    requires Licensed(s, t) && !Licensed(s', t) && !Executing(s.th[t]) && s'.redirected == s.redirected
    ensures Potential(s') + One(Executing(s.th[t])) <= Potential(s)
  {
    forall u | u in s.th && u != t && u != w ensures Licensed(s', u) <==> Licensed(s, u) {
      assert u in s'.signaled <==> u in s.signaled;
    }
    hide Licensed, Executing;
    assert Licensed(s', w) by { Signalled(s', w); }
    assert Allowed(s') == Allowed(s) - {t} + {w};
  }

  lemma Signalled(s: State, u: Tid)
    requires u in s.th && u in s.signaled
    ensures Licensed(s, u)
  {
  }

  /** The waiting thread that a step signals, if any. */
  predicate Signals(pc: Pc, w: Tid) {
    || pc == Hold(HandSignal(w)) || pc == Drain(InvSignal(w)) || pc == Drain(RedirGive(SyncReader(w)))
  }

  lemma HoldShrinks(s: State, t: Tid, h: HoldPc, call: Call)
    requires t in s.th && s.th[t] == Hold(h) && t !in s.signaled && !h.HandSignal?
    requires s.suspend >= if HoldSuspends(h) then 4 else 2
    ensures var s' := StepHold(s, t, h, call);
            Moved(s, s', t) && Shrinks(s, t, s') && s'.signaled == s.signaled
  {
  }

  lemma DrainShrinks(s: State, t: Tid, d: DrainPc, width: nat)
    requires t in s.th && s.th[t] == Drain(d) && t !in s.signaled && s.suspend >= 2
    requires !d.InvSignal? && !(d.RedirGive? && d.item.SyncReader?)
    ensures var s' := StepDrain(s, t, d, width);
            Moved(s, s', t) && Shrinks(s, t, s') && s'.signaled == s.signaled
  {
  }

  /** A step of `t` that signals nobody and licenses nobody new. */
  predicate Restrained(s: State, t: Tid, s': State)
    requires t in s.th
  {
    t in s'.th && Shrinks(s, t, s') && s'.signaled - {t} == s.signaled - {t}
  }

  lemma AskShrinks(s: State, t: Tid, a: AskPc, width: nat)
    requires t in s.th && s.th[t] == Ask(a) && s.suspend >= 2 && t !in s.signaled
    ensures Restrained(s, t, StepAsk(s, t, a, width))
  {
  }

  lemma ShareShrinks(s: State, t: Tid, p: SharePc)
    requires t in s.th && s.th[t] == Share(p) && t !in s.signaled
    ensures Restrained(s, t, StepShare(s, t, p))
  {
  }

  lemma BeginShrinks(s: State, t: Tid, call: Call)
    requires t in s.th && s.th[t] == Idle && t !in s.signaled
    ensures Restrained(s, t, Begin(s, t, call))
  {
  }

  lemma OtherShrinks(s: State, t: Tid, call: Call, width: nat)
    requires t in s.th && !Owns(s.th[t]) && s.suspend >= 2
    requires t in s.signaled ==> s.th[t].Wake? || s.th[t].Wait?
    ensures Restrained(s, t, Step(s, t, call, width))
  {
    hide Begin, StepAsk, StepShare, StepHold, StepDrain;
    match s.th[t]
    case Idle => BeginShrinks(s, t, call);
    case Ask(a) => AskShrinks(s, t, a, width);
    case Share(p) => ShareShrinks(s, t, p);
    case _ =>
  }

  lemma HandsOver(s: State, t: Tid, call: Call, width: nat, w: Tid)
    requires t in s.th && Signals(s.th[t], w) && t !in s.signaled && w != t
    ensures var s' := Step(s, t, call, width);
            && Moved(s, s', t) && s'.signaled == s.signaled + {w} && s'.redirected == s.redirected
            && Licensed(s, t) && !Licensed(s', t) && !Executing(s.th[t])
  {
  }

  /** The waiter that is signalled has no licence of its own. */
  lemma Receiver(s: State, t: Tid, w: Tid)
    requires Inv(s) && t in s.th && Signals(s.th[t], w)
    ensures w in s.th && w != t && !Licensed(s, w) && t !in s.signaled
  {
    OwnerHolds(s, t);
    Unsignaled(s, t);
    hide Inv;
  }

  lemma SuspendWord(s: State, t: Tid)
    requires Inv(s) && LockInv(s) && s.clients > 0 && t in s.th
    ensures s.suspend >= 2
    ensures s.th[t].Hold? && HoldSuspends(s.th[t].h) ==> s.suspend >= 4
    ensures t in s.signaled ==> s.th[t].Wake? || s.th[t].Wait?
  {
    hide RunningInv, Alone, ItemsInv, HandInv, PushInv;
  }

  lemma SuspendedStep(s: State, t: Tid, call: Call, width: nat)
    requires Inv(s) && LockInv(s) && t in s.th && s.clients > 0
    ensures Potential(Step(s, t, call, width)) + One(Executing(s.th[t])) <= Potential(s)
  {
    hide Inv, LockInv, Potential, Shrinks, StepHold, StepDrain, Executing;
    SuspendWord(s, t);
    StepThreads(s, t, call, width);
    if w :| w in s.th && Signals(s.th[t], w) {
      Receiver(s, t, w);
      HandsOver(s, t, call, width, w);
      PotentialHand(s, Step(s, t, call, width), t, w);
    } else {
      SignalsNobody(s, t);
      match s.th[t]
      case Hold(h) => HoldShrinks(s, t, h, call); PotentialMove(s, Step(s, t, call, width), t);
      case Drain(d) => DrainShrinks(s, t, d, width); PotentialMove(s, Step(s, t, call, width), t);
      case _ => OtherShrinks(s, t, call, width); PotentialMove(s, Step(s, t, call, width), t);
    }
  }

  lemma SignalsNobody(s: State, t: Tid)
    requires Inv(s) && t in s.th && forall w :: w in s.th ==> !Signals(s.th[t], w)
    ensures s.th[t].Hold? ==> !s.th[t].h.HandSignal?
    ensures s.th[t].Drain? ==> !s.th[t].d.InvSignal? && !(s.th[t].d.RedirGive? && s.th[t].d.item.SyncReader?)
  {
    if Owns(s.th[t]) { OwnerHolds(s, t); }
    hide Inv;
  }

  /** How many items are executed by the steps from `i` to `n`. */
  function Executions(threads: set<Tid>, schedule: seq<(Tid, Call)>, width: nat, i: nat, n: nat): nat
    requires i <= n <= |schedule|
  {
    if i == n then 0
    else
      var (s, t) := (At(threads, schedule, width, n - 1), schedule[n - 1].0);
      Executions(threads, schedule, width, i, n - 1) + if t in s.th && Executing(s.th[t]) then 1 else 0
  }

  lemma SuspendNext(threads: set<Tid>, schedule: seq<(Tid, Call)>, width: nat, n: nat)
    requires n < |schedule| && Outstanding(threads, schedule[..n], width) > 0
    ensures var (s, t) := (At(threads, schedule, width, n), schedule[n].0);
            Potential(At(threads, schedule, width, n + 1)) + (if t in s.th && Executing(s.th[t]) then 1 else 0)
            <= Potential(s)
  {
    hide Inv, LockInv, Step, Potential, Outstanding, Reached, Executing;
    Next(threads, schedule, width, n);
    ClientsExact(threads, schedule[..n], width);
    var (t, call) := schedule[n];
    if t in threads { SuspendedStep(At(threads, schedule, width, n), t, call, width); }
  }

  /**
    While the queue is suspended, no more items are executed than there were threads past their suspension test and
    readers on the target queue when that began; if there were none, none is.
  */
  lemma SuspendStops(threads: set<Tid>, schedule: seq<(Tid, Call)>, width: nat, i: nat, j: nat)
    requires i <= j <= |schedule| && forall k :: i <= k < j ==> Outstanding(threads, schedule[..k], width) > 0
    ensures Executions(threads, schedule, width, i, j) + Potential(At(threads, schedule, width, j))
            <= Potential(At(threads, schedule, width, i))
  {
    hide Potential, At, Outstanding;
    var n := i;
    while n < j
      invariant i <= n <= j
      invariant Executions(threads, schedule, width, i, n) + Potential(At(threads, schedule, width, n))
                <= Potential(At(threads, schedule, width, i))
    {
      assert Outstanding(threads, schedule[..n], width) > 0;
      SuspendNext(threads, schedule, width, n);
      n := n + 1;
    }
  }

  // ---------------------------------------------------------------------------------------------
  // Waiting callers
  // ---------------------------------------------------------------------------------------------

  /** The item that a thread on its way to its semaphore waits for. */
  predicate WaitsFor(s: State, u: Tid, item: Item)
    requires u in s.th
  {
    u !in s.signaled && ((Awaits(s.th[u], AwaitsReader) && item == SyncReader(u))
                         || (Awaits(s.th[u], AwaitsBarrier) && item == SyncBarrier(u)))
  }

  /** Only slow synchronous calls wait. */
  predicate AtSemaphore(pc: Pc) {
    pc.Wait? ==> pc.after == AwaitsReader || pc.after == AwaitsBarrier
  }

  /** Every waiting caller has its item on the list or in the hands of the owner. */
  ghost predicate Served(s: State) {
    && (forall u, item :: u in s.th && WaitsFor(s, u, item) ==> item in Held(s) + s.items)
    && (forall u :: u in s.th ==> AtSemaphore(s.th[u]))
  }

  lemma HoldSignals(s: State, t: Tid, h: HoldPc, call: Call)
    requires t in s.th && s.th[t] == Hold(h)
    ensures var s' := StepHold(s, t, h, call);
            && s.signaled <= s'.signaled && !s'.th[t].Wait?
            && (forall w :: SyncBarrier(w) in GivenBy(s, t) ==> w in s'.signaled)
            && (forall w :: SyncReader(w) !in GivenBy(s, t))
            && !Awaits(s'.th[t], AwaitsReader) && !Awaits(s'.th[t], AwaitsBarrier)
  {
  }

  lemma DrainSignals(s: State, t: Tid, d: DrainPc, width: nat)
    requires t in s.th && s.th[t] == Drain(d) && (d.RedirGive? ==> !IsBarrier(d.item))
    ensures var s' := StepDrain(s, t, d, width);
            && s.signaled <= s'.signaled && !s'.th[t].Wait? && !s'.th[t].Wake?
            && (forall w :: SyncBarrier(w) in GivenBy(s, t) ==> w in s'.signaled)
            && (forall w :: SyncReader(w) in GivenBy(s, t) ==> w in s'.signaled)
  {
  }

  /** A step of `t` signals nobody, and makes it wait only for the item it has just pushed. */
  predicate Patient(s: State, t: Tid, s': State)
    requires t in s.th
  {
    && t in s'.th && s.signaled - {t} <= s'.signaled && AtSemaphore(s'.th[t])
    && (t !in s'.signaled && Awaits(s'.th[t], AwaitsReader) ==>
          (s.th[t].Push? && s.th[t].item.SyncReader?) || (t !in s.signaled && Awaits(s.th[t], AwaitsReader)))
    && (t !in s'.signaled && Awaits(s'.th[t], AwaitsBarrier) ==>
          (s.th[t].Push? && s.th[t].item.SyncBarrier?) || (t !in s.signaled && Awaits(s.th[t], AwaitsBarrier)))
  }

  lemma AskPatient(s: State, t: Tid, a: AskPc, width: nat)
    requires t in s.th && s.th[t] == Ask(a)
    ensures Patient(s, t, StepAsk(s, t, a, width))
  {
  }

  lemma SharePatient(s: State, t: Tid, p: SharePc)
    requires t in s.th && s.th[t] == Share(p)
    ensures Patient(s, t, StepShare(s, t, p))
  {
  }

  lemma BeginPatient(s: State, t: Tid, call: Call)
    requires t in s.th && s.th[t] == Idle
    ensures Patient(s, t, Begin(s, t, call))
  {
  }

  lemma OtherWaits(s: State, t: Tid, call: Call, width: nat)
    requires t in s.th && !Owns(s.th[t]) && AtSemaphore(s.th[t])
    ensures Patient(s, t, Step(s, t, call, width))
  {
    hide StepHold, StepDrain, StepAsk, StepShare, Begin;
    match s.th[t]
    case Idle => BeginPatient(s, t, call);
    case Ask(a) => AskPatient(s, t, a, width);
    case Share(p) => SharePatient(s, t, p);
    case _ =>
  }

  /** What a thread waits for after a step it waited for before, unless it has just pushed it. */
  lemma WaitsOn(s: State, t: Tid, call: Call, width: nat, u: Tid, item: Item)
    requires Inv(s) && Served(s) && t in s.th && u in s.th && u in Step(s, t, call, width).th
    requires WaitsFor(Step(s, t, call, width), u, item)
    ensures (WaitsFor(s, u, item) && item !in GivenBy(s, t)) || item in PushedBy(s, t)
  {
    StepThreads(s, t, call, width);
    match s.th[t]
    case Hold(h) => hide Inv, Served, StepHold; HoldSignals(s, t, h, call);
    case Drain(d) =>
      OwnerHolds(s, t);
      assert HandInv(s);
      hide OwnerInv, RunningInv, Alone, ItemsInv, PushInv, Served, StepDrain;
      DrainSignals(s, t, d, width);
    case _ =>
      assert PushInv(s);
      assert AtSemaphore(s.th[t]);
      hide OwnerInv, RunningInv, Alone, ItemsInv, HandInv, Served, Step;
      OtherWaits(s, t, call, width);
      HoldsNothing(s.th[t]);
      GivesNothing(s, t);
  }

  lemma GivesNothing(s: State, t: Tid)
    requires t in s.th && !Owns(s.th[t])
    ensures GivenBy(s, t) == []
  {
  }

  lemma WaitsRightly(s: State, t: Tid, call: Call, width: nat)
    requires Served(s) && t in s.th
    ensures var s' := Step(s, t, call, width);
            t in s'.th && AtSemaphore(s'.th[t])
  {
    StepThreads(s, t, call, width);
    match s.th[t]
    case Hold(h) => hide Served, StepHold; HoldSignals(s, t, h, call);
    case Drain(d) => hide Served; DrainWaits(s, t, d, width);
    case _ =>
      assert AtSemaphore(s.th[t]);
      hide Served, Step;
      OtherWaits(s, t, call, width);
  }

  lemma DrainWaits(s: State, t: Tid, d: DrainPc, width: nat)
    requires t in s.th && s.th[t] == Drain(d)
    ensures !StepDrain(s, t, d, width).th[t].Wait?
  {
  }

  lemma ServedStep(s: State, t: Tid, call: Call, width: nat)
    requires Inv(s) && Served(s) && t in s.th
    ensures Served(Step(s, t, call, width))
  {
    var s' := Step(s, t, call, width);
    StepThreads(s, t, call, width);
    WaitsRightly(s, t, call, width);
    StepAccounted(s, t, call, width);
    hide Inv, Step, WaitsFor, Held, GivenBy, PushedBy;
    forall u, item | u in s'.th && WaitsFor(s', u, item) ensures item in Held(s') + s'.items {
      WaitsOn(s, t, call, width, u, item);
      assert item in Held(s) + s.items + PushedBy(s, t);
      assert item in GivenBy(s, t) + Held(s') + s'.items;
      if item in GivenBy(s, t) { PushesApart(s, t, item); }
    }
  }

  /** No step both gives out and pushes. */
  lemma PushesApart(s: State, t: Tid, item: Item)
    requires t in s.th && item in GivenBy(s, t)
    ensures item !in PushedBy(s, t)
  {
  }

  // ---------------------------------------------------------------------------------------------
  // Falling asleep with work on the list
  // ---------------------------------------------------------------------------------------------

  /** Work is listed, and the queue is neither on its target nor suspended nor running. */
  predicate Idling(s: State) {
    s.items != [] && s.suspend == 0 && s.running == 0
  }

  predicate Committed(pc: Pc) {
    pc.Wake? || pc.InvCheck?
  }

  /** Such a queue has a thread bound for the wakeup. */
  predicate Awake(s: State) {
    Idling(s) ==> exists u :: u in s.th && Committed(s.th[u])
  }

  /** A reader that backs off from a barrier, and is the last to give back its share. */
  predicate UnlocksLast(s: State, t: Tid) {
    t in s.th && s.th[t] == Share(AsyncUnlock) && s.running == 2
  }

  lemma AwakeFrame(s: State, s': State, t: Tid)
    requires Awake(s) && Moved(s, s', t)
    requires Idling(s') ==> Committed(s'.th[t]) || (Idling(s) && !Committed(s.th[t]))
    ensures Awake(s')
  {
    if Idling(s') && !Committed(s'.th[t]) {
      var u :| u in s.th && Committed(s.th[u]);
      assert u in s'.th && Committed(s'.th[u]);
    }
  }

  lemma HoldWakes(s: State, t: Tid, h: HoldPc, call: Call)
    requires t in s.th && s.th[t] == Hold(h) && s.running > 0
    ensures var s' := StepHold(s, t, h, call);
            Idling(s') ==> Committed(s'.th[t])
  {
  }

  lemma DrainWakes(s: State, t: Tid, d: DrainPc, width: nat)
    requires t in s.th && s.th[t] == Drain(d) && s.suspend > 0
    ensures !Idling(StepDrain(s, t, d, width))
  {
  }

  /** A queue that idles after a step of `t` has `t` bound for the wakeup, or idled before. */
  predicate Alert(s: State, t: Tid, s': State)
    requires t in s.th
  {
    t in s'.th && (Idling(s') ==> Committed(s'.th[t]) || (Idling(s) && !Committed(s.th[t])))
  }

  lemma AskAlert(s: State, t: Tid, a: AskPc, width: nat)
    requires t in s.th && s.th[t] == Ask(a)
    ensures Alert(s, t, StepAsk(s, t, a, width))
  {
  }

  lemma ShareAlert(s: State, t: Tid, p: SharePc)
    requires t in s.th && s.th[t] == Share(p) && (p == AsyncUnlock ==> s.running > 2)
    ensures Alert(s, t, StepShare(s, t, p))
  {
  }

  lemma BeginAlert(s: State, t: Tid, call: Call)
    requires t in s.th && s.th[t] == Idle
    ensures Alert(s, t, Begin(s, t, call))
  {
  }

  lemma OtherWakes(s: State, t: Tid, call: Call, width: nat)
    requires t in s.th && !Owns(s.th[t]) && !UnlocksLast(s, t)
    requires s.th[t] == Share(AsyncUnlock) ==> s.running >= 2
    ensures Alert(s, t, Step(s, t, call, width))
  {
    hide Begin, StepAsk, StepShare, StepHold, StepDrain;
    match s.th[t]
    case Idle => BeginAlert(s, t, call);
    case Ask(a) => AskAlert(s, t, a, width);
    case Share(p) => ShareAlert(s, t, p);
    case _ =>
  }

  lemma OwnerBusy(s: State, t: Tid)
    requires Inv(s) && LockInv(s) && t in s.th
    ensures s.th[t].Hold? ==> s.running > 0
    ensures s.th[t].Drain? ==> s.suspend > 0
    ensures s.th[t] == Share(AsyncUnlock) ==> s.running >= 2
  {
    hide ItemsInv, HandInv, Alone, PushInv;
    if s.th[t] == Share(AsyncUnlock) { assert t in Sharers(s); }
  }

  lemma AwakeStep(s: State, t: Tid, call: Call, width: nat)
    requires Inv(s) && LockInv(s) && Awake(s) && t in s.th && !UnlocksLast(s, t)
    ensures Awake(Step(s, t, call, width))
  {
    hide Inv, LockInv, Awake, StepHold, StepDrain;
    OwnerBusy(s, t);
    StepThreads(s, t, call, width);
    match s.th[t]
    case Hold(h) => HoldWakes(s, t, h, call); AwakeFrame(s, Step(s, t, call, width), t);
    case Drain(d) => DrainWakes(s, t, d, width); AwakeFrame(s, Step(s, t, call, width), t);
    case _ => OtherWakes(s, t, call, width); AwakeFrame(s, Step(s, t, call, width), t);
  }

  /** No step of the schedule is an unlock of the last share. */
  predicate NeverUnlocksLast(threads: set<Tid>, schedule: seq<(Tid, Call)>, width: nat) {
    forall k :: 0 <= k < |schedule| ==> !UnlocksLast(At(threads, schedule, width, k), schedule[k].0)
  }

  lemma StartsAwake(threads: set<Tid>)
    ensures Awake(Init(threads)) && Served(Init(threads))
  {
  }

  /** Unless a reader unlocks last, the queue stays awake and no waiting caller is forgotten. */
  lemma {:induction false} StaysAwake(threads: set<Tid>, schedule: seq<(Tid, Call)>, width: nat, n: nat)
    requires n <= |schedule| && NeverUnlocksLast(threads, schedule, width)
    ensures Awake(At(threads, schedule, width, n)) && Served(At(threads, schedule, width, n))
    decreases n
  {
    hide Inv, LockInv, Step, At;
    if n == 0 {
      AtStart(threads, schedule, width);
      StartsAwake(threads);
    } else {
      StaysAwake(threads, schedule, width, n - 1);
      hide Awake, Served, UnlocksLast;
      Next(threads, schedule, width, n - 1);
      var (t, call) := schedule[n - 1];
      if t in threads {
        AwakeStep(At(threads, schedule, width, n - 1), t, call, width);
        ServedStep(At(threads, schedule, width, n - 1), t, call, width);
      }
    }
  }

  /** Nobody can move: every thread is idle or blocked, and the queue is not on its target and not suspended. */
  predicate Quiescent(s: State) {
    && (forall u :: u in s.th ==> s.th[u] == Idle || (s.th[u].Wait? && u !in s.signaled))
    && s.lock == Unlocked && s.clients == 0 && s.redirected == 0
  }

  lemma QuietWords(s: State)
    requires Inv(s) && LockInv(s) && Quiescent(s)
    ensures s.running == 0 && s.suspend == 0 && Held(s) == []
  {
    hide ItemsInv, HandInv, Alone, PushInv;
    assert Sharers(s) == {};
    assert s.owner == NULL;
  }

  lemma QuietAwake(s: State)
    requires Quiescent(s) && Awake(s) && Served(s) && s.running == 0 && s.suspend == 0 && Held(s) == []
    ensures s.items == [] && forall u :: u in s.th ==> s.th[u] == Idle
  {
    forall u | u in s.th ensures s.th[u] == Idle {
      if s.th[u].Wait? {
        assert WaitsFor(s, u, if s.th[u].after == AwaitsReader then SyncReader(u) else SyncBarrier(u));
      }
    }
  }

  /** No thread inside a call can change anything by its next step. */
  predicate Stuck(s: State, width: nat) {
    forall u :: u in s.th ==> s.th[u] == Idle || Step(s, u, Async, width) == s
  }

  lemma HoldMovesOn(s: State, t: Tid, h: HoldPc)
    requires t in s.th && s.th[t] == Hold(h)
    ensures StepHold(s, t, h, Async).th[t] != Hold(h)
  {
  }

  lemma DrainMovesOn(s: State, t: Tid, d: DrainPc, width: nat)
    requires t in s.th && s.th[t] == Drain(d)
    ensures StepDrain(s, t, d, width).th[t] != Drain(d)
  {
  }

  /** Only an unsignalled waiter stays where it is. */
  lemma StaysPut(s: State, t: Tid, width: nat)
    requires t in s.th && Step(s, t, Async, width).th == s.th
    ensures s.th[t].Wait? && t !in s.signaled
  {
    hide StepHold, StepDrain;
    assert Step(s, t, Async, width).th[t] == s.th[t];
    match s.th[t]
    case Hold(h) => HoldMovesOn(s, t, h);
    case Drain(d) => DrainMovesOn(s, t, d, width);
    case _ =>
  }

  /**
    No deadlock unless a reader has unlocked last: when no thread inside a call can move, and the queue is not on its
    target and not suspended and has nothing on the target queue, everything that was pushed has been given out and
    all calls have returned.
  */
  lemma NothingLeft(threads: set<Tid>, schedule: seq<(Tid, Call)>, width: nat)
    requires NeverUnlocksLast(threads, schedule, width)
    ensures var s := Reached(threads, schedule, width);
            Stuck(s, width) && s.lock == Unlocked && s.clients == 0 && s.redirected == 0 ==>
              && s.items == [] && Pushed(Init(threads), schedule, width) == Given(Init(threads), schedule, width)
              && forall u :: u in s.th ==> s.th[u] == Idle
  {
    assert schedule[..|schedule|] == schedule;
    StaysAwake(threads, schedule, width, |schedule|);
    hide Inv, LockInv, SlipInv, NarrowInv, Run, Pushed, Given, Awake, Served, Held, Reached, Step;
    NothingLostInOrder(threads, schedule, width);
    ReachedInv(threads, schedule, width);
    var s := Reached(threads, schedule, width);
    if Stuck(s, width) && s.lock == Unlocked && s.clients == 0 && s.redirected == 0 {
      forall u | u in s.th && s.th[u] != Idle ensures s.th[u].Wait? && u !in s.signaled {
        StaysPut(s, u, width);
      }
      QuietWords(s);
      QuietAwake(s);
      var given := Given(Init(threads), schedule, width);
      assert given + [] + [] == given;
    }
  }

  // ---------------------------------------------------------------------------------------------
  // When exactly that can happen
  // ---------------------------------------------------------------------------------------------

  predicate AsksAsync(pc: Pc) {
    pc == Ask(AsyncTail) || pc == Ask(AsyncSuspend) || pc == Ask(AsyncAdd)
  }

  /** Nobody backs off from a barrier, and without asynchronous readers nobody is about to. */
  predicate Unhurried(s: State, asyncs: bool) {
    forall u :: u in s.th ==> Calm(s.th[u], asyncs)
  }

  /** So it is for one thread. */
  predicate Calm(pc: Pc, asyncs: bool) {
    pc != Share(AsyncUnlock) && (!asyncs ==> !AsksAsync(pc))
  }

  lemma AskUnhurried(s: State, t: Tid, a: AskPc, width: nat, asyncs: bool)
    requires t in s.th && s.th[t] == Ask(a) && Calm(Ask(a), asyncs) && (asyncs ==> width < 3)
    ensures Calm(StepAsk(s, t, a, width).th[t], asyncs)
  {
  }

  lemma ShareUnhurried(s: State, t: Tid, p: SharePc, asyncs: bool)
    requires t in s.th && s.th[t] == Share(p) && Calm(Share(p), asyncs)
    ensures Calm(StepShare(s, t, p).th[t], asyncs)
  {
  }

  lemma BeginUnhurried(s: State, t: Tid, call: Call, asyncs: bool)
    requires t in s.th && s.th[t] == Idle && (!asyncs ==> call != Async)
    ensures Calm(Begin(s, t, call).th[t], asyncs)
  {
  }

  lemma UnhurriedMove(s: State, t: Tid, call: Call, width: nat, asyncs: bool)
    requires t in s.th && Calm(s.th[t], asyncs) && (!asyncs ==> call != Async) && (asyncs ==> width < 3)
    ensures t in Step(s, t, call, width).th && Calm(Step(s, t, call, width).th[t], asyncs)
  {
    hide Begin, StepAsk, StepShare, StepHold, StepDrain;
    StepThreads(s, t, call, width);
    match s.th[t]
    case Idle => BeginUnhurried(s, t, call, asyncs);
    case Ask(a) => AskUnhurried(s, t, a, width, asyncs);
    case Share(p) => ShareUnhurried(s, t, p, asyncs);
    case Hold(h) => HoldUnhurried(s, t, h, call);
    case Drain(d) => DrainUnhurried(s, t, d, width);
    case _ =>
  }

  lemma HoldUnhurried(s: State, t: Tid, h: HoldPc, call: Call)
    requires t in s.th && s.th[t] == Hold(h)
    ensures var s' := StepHold(s, t, h, call); t in s'.th && !s'.th[t].Share? && !s'.th[t].Ask?
  {
  }

  lemma DrainUnhurried(s: State, t: Tid, d: DrainPc, width: nat)
    requires t in s.th && s.th[t] == Drain(d)
    ensures var s' := StepDrain(s, t, d, width); t in s'.th && !s'.th[t].Share? && !s'.th[t].Ask?
  {
  }

  predicate NeverAsync(schedule: seq<(Tid, Call)>) {
    forall k :: 0 <= k < |schedule| ==> schedule[k].1 != Async
  }

  lemma {:induction false} UnhurriedAt(threads: set<Tid>, schedule: seq<(Tid, Call)>, width: nat, asyncs: bool, n: nat)
    requires n <= |schedule| && (asyncs || NeverAsync(schedule)) && (asyncs ==> width < 3)
    ensures Unhurried(At(threads, schedule, width, n), asyncs)
    decreases n
  {
    hide Inv, LockInv, Step, At;
    if n == 0 {
      AtStart(threads, schedule, width);
    } else {
      UnhurriedAt(threads, schedule, width, asyncs, n - 1);
      Next(threads, schedule, width, n - 1);
      var (t, call) := schedule[n - 1];
      if t in threads {
        var s := At(threads, schedule, width, n - 1);
        StepThreads(s, t, call, width);
        UnhurriedMove(s, t, call, width, asyncs);
      }
    }
  }

  lemma AwakeWithout(threads: set<Tid>, schedule: seq<(Tid, Call)>, width: nat, asyncs: bool)
    requires (asyncs || NeverAsync(schedule)) && (asyncs ==> width < 3)
    ensures Awake(Reached(threads, schedule, width))
  {
    hide Awake, NeverAsync, Reached;
    forall k | 0 <= k < |schedule| ensures !UnlocksLast(At(threads, schedule, width, k), schedule[k].0) {
      UnhurriedAt(threads, schedule, width, asyncs, k);
    }
    StaysAwake(threads, schedule, width, |schedule|);
    assert schedule[..|schedule|] == schedule;
  }

  // A run that ends with work on the list and every thread idle.

  /** Barrier 0 begins. */
  lemma BarrierAsks(width: nat) returns (schedule: seq<(Tid, Call)>, s: State)
    ensures Reached({0, 1, 2, 3}, schedule, width) == s
    ensures s == Scene([], 0, 0, Unlocked, 0, {}, Ask(FastTail), Idle, Idle, Idle, NULL, {})
  {
    schedule, s := [], Init({0, 1, 2, 3});
    assert s == Scene([], 0, 0, Unlocked, 0, {}, Idle, Idle, Idle, Idle, NULL, {});
    RunNothing(s, width);
    hide Run, Reached, Init;
    schedule, s := Turn(schedule, s, 0, BarrierSync, width);
  }

  /** It has made its tests. */
  lemma BarrierTests(width: nat) returns (schedule: seq<(Tid, Call)>, s: State)
    ensures Reached({0, 1, 2, 3}, schedule, width) == s
    ensures s == Scene([], 0, 0, Unlocked, 0, {}, Ask(FastLock), Idle, Idle, Idle, NULL, {})
  {
    hide Run, Reached, Init;
    schedule, s := BarrierAsks(width);
    schedule, s := Turn(schedule, s, 0, Sync, width);
    assert s == Scene([], 0, 0, Unlocked, 0, {}, Ask(FastSuspend), Idle, Idle, Idle, NULL, {});
    schedule, s := Turn(schedule, s, 0, Sync, width);
  }

  /** It executes through the fast path. */
  lemma BarrierRuns(width: nat) returns (schedule: seq<(Tid, Call)>, s: State)
    ensures Reached({0, 1, 2, 3}, schedule, width) == s
    ensures s == Scene([], 1, 0, Unlocked, 0, {}, Hold(FastRun), Idle, Idle, Idle, 0, {})
  {
    hide Run, Reached, Init;
    schedule, s := BarrierTests(width);
    schedule, s := Turn(schedule, s, 0, Sync, width);
  }

  /** Reader 1 adds its share and finds the barrier. */
  lemma ReaderComes(width: nat) returns (schedule: seq<(Tid, Call)>, s: State)
    requires width >= 3
    ensures Reached({0, 1, 2, 3}, schedule, width) == s
    ensures s == Scene([], 3, 0, Unlocked, 0, {}, Hold(FastRun), Share(AsyncUnlock), Idle, Idle, 0, {})
  {
    hide Run, Reached, Init;
    schedule, s := BarrierRuns(width);
    schedule, s := Turn(schedule, s, 1, Async, width);
    assert s == Scene([], 1, 0, Unlocked, 0, {}, Hold(FastRun), Ask(AsyncTail), Idle, Idle, 0, {});
    schedule, s := Turn(schedule, s, 1, Sync, width);
    assert s == Scene([], 1, 0, Unlocked, 0, {}, Hold(FastRun), Ask(AsyncSuspend), Idle, Idle, 0, {});
    schedule, s := Turn(schedule, s, 1, Sync, width);
    assert s == Scene([], 1, 0, Unlocked, 0, {}, Hold(FastRun), Ask(AsyncAdd), Idle, Idle, 0, {});
    schedule, s := Turn(schedule, s, 1, Sync, width);
  }

  /** Thread 2 pushes a barrier onto the empty list. */
  lemma BarrierListed(width: nat) returns (schedule: seq<(Tid, Call)>, s: State)
    requires width >= 3
    ensures Reached({0, 1, 2, 3}, schedule, width) == s
    ensures s == Scene([Barrier], 3, 0, Unlocked, 0, {},
                       Hold(FastRun), Share(AsyncUnlock), Wake(WakeSuspend, Returns), Idle, 0, {})
  {
    hide Run, Reached, Init;
    schedule, s := ReaderComes(width);
    schedule, s := Turn(schedule, s, 2, BarrierAsync, width);
    assert s == Scene([], 3, 0, Unlocked, 0, {}, Hold(FastRun), Share(AsyncUnlock), Push(Barrier), Idle, 0, {});
    schedule, s := Turn(schedule, s, 2, Sync, width);
  }

  /** It wakes the queue. */
  lemma OntoTarget(width: nat) returns (schedule: seq<(Tid, Call)>, s: State)
    requires width >= 3
    ensures Reached({0, 1, 2, 3}, schedule, width) == s
    ensures s == Scene([Barrier], 3, 1, OnTarget, 0, {}, Hold(FastRun), Share(AsyncUnlock), Idle, Idle, 0, {})
  {
    hide Run, Reached, Init;
    schedule, s := BarrierListed(width);
    schedule, s := Turn(schedule, s, 2, Sync, width);
    assert s == Scene([Barrier], 3, 0, Unlocked, 0, {},
                      Hold(FastRun), Share(AsyncUnlock), Wake(WakeTail, Returns), Idle, 0, {});
    schedule, s := Turn(schedule, s, 2, Sync, width);
    assert s == Scene([Barrier], 3, 0, Unlocked, 0, {},
                      Hold(FastRun), Share(AsyncUnlock), Wake(WakeLock, Returns), Idle, 0, {});
    schedule, s := Turn(schedule, s, 2, Sync, width);
  }

  /** The target queue runs it in vain: the running word is not zero. */
  lemma TurnedAway(width: nat) returns (schedule: seq<(Tid, Call)>, s: State)
    requires width >= 3
    ensures Reached({0, 1, 2, 3}, schedule, width) == s
    ensures s == Scene([Barrier], 3, 1, InvokedBy(3), 0, {},
                       Hold(FastRun), Share(AsyncUnlock), Idle, Door(InvUnlock), 0, {})
  {
    hide Run, Reached, Init;
    schedule, s := OntoTarget(width);
    schedule, s := Turn(schedule, s, 3, Invoke, width);
    assert s == Scene([Barrier], 3, 1, InvokedBy(3), 0, {},
                      Hold(FastRun), Share(AsyncUnlock), Idle, Door(InvSuspend), 0, {});
    schedule, s := Turn(schedule, s, 3, Sync, width);
    assert s == Scene([Barrier], 3, 1, InvokedBy(3), 0, {},
                      Hold(FastRun), Share(AsyncUnlock), Idle, Door(InvLock), 0, {});
    schedule, s := Turn(schedule, s, 3, Sync, width);
  }

  lemma OffTarget(width: nat) returns (schedule: seq<(Tid, Call)>, s: State)
    requires width >= 3
    ensures Reached({0, 1, 2, 3}, schedule, width) == s
    ensures s == Scene([Barrier], 3, 0, Unlocked, 0, {}, Hold(FastRun), Share(AsyncUnlock), Idle, Idle, 0, {})
  {
    hide Run, Reached, Init;
    schedule, s := TurnedAway(width);
    schedule, s := Turn(schedule, s, 3, Sync, width);
    assert s == Scene([Barrier], 3, 0, Unlocked, 0, {}, Hold(FastRun), Share(AsyncUnlock), Idle, InvCheck, 0, {});
    schedule, s := Turn(schedule, s, 3, Sync, width);
  }

  /** Barrier 0 ends and finds nothing that it could hand over to. */
  lemma BarrierEnds(width: nat) returns (schedule: seq<(Tid, Call)>, s: State)
    requires width >= 3
    ensures Reached({0, 1, 2, 3}, schedule, width) == s
    ensures s == Scene([Barrier], 3, 0, Unlocked, 0, {}, Hold(OneHead(true)), Share(AsyncUnlock), Idle, Idle, 0, {})
  {
    hide Run, Reached, Init;
    schedule, s := OffTarget(width);
    schedule, s := Turn(schedule, s, 0, Sync, width);
    assert s == Scene([Barrier], 3, 0, Unlocked, 0, {}, Hold(FastTailAgain), Share(AsyncUnlock), Idle, Idle, 0, {});
    schedule, s := Turn(schedule, s, 0, Sync, width);
    assert s == Scene([Barrier], 3, 0, Unlocked, 0, {}, Hold(FastSuspendAgain), Share(AsyncUnlock), Idle, Idle, 0, {});
    schedule, s := Turn(schedule, s, 0, Sync, width);
  }

  /** It gives back its share, but reader 1 still has one: nobody is woken. */
  lemma BarrierGone(width: nat) returns (schedule: seq<(Tid, Call)>, s: State)
    requires width >= 3
    ensures Reached({0, 1, 2, 3}, schedule, width) == s
    ensures s == Scene([Barrier], 2, 0, Unlocked, 0, {}, Idle, Share(AsyncUnlock), Idle, Idle, NULL, {})
  {
    hide Run, Reached, Init;
    schedule, s := BarrierEnds(width);
    schedule, s := Turn(schedule, s, 0, Sync, width);
    assert s == Scene([Barrier], 3, 0, Unlocked, 0, {}, Hold(FastDec), Share(AsyncUnlock), Idle, Idle, 0, {});
    schedule, s := Turn(schedule, s, 0, Sync, width);
  }

  /** Reader 1 unlocks last and starts over: it goes to the list, which is not empty. */
  lemma FallsAsleep(width: nat) returns (schedule: seq<(Tid, Call)>, s: State)
    requires width >= 3
    ensures Reached({0, 1, 2, 3}, schedule, width) == s && !Awake(s)
    ensures s.items != [] && s.th.Keys == {0, 1, 2, 3} && forall u :: u in s.th ==> s.th[u] == Idle
  {
    hide Run, Reached, Init;
    schedule, s := BarrierGone(width);
    schedule, s := Turn(schedule, s, 1, Sync, width);
    assert s == Scene([Barrier], 0, 0, Unlocked, 0, {}, Idle, Ask(AsyncTail), Idle, Idle, NULL, {});
    schedule, s := Turn(schedule, s, 1, Sync, width);
    assert s == Scene([Barrier], 0, 0, Unlocked, 0, {}, Idle, Push(Reader), Idle, Idle, NULL, {});
    schedule, s := Turn(schedule, s, 1, Sync, width);
    assert s == Scene([Barrier, Reader], 0, 0, Unlocked, 0, {}, Idle, Idle, Idle, Idle, NULL, {});
  }

  /** Runs in which readers are submitted asynchronously only if `asyncs`. */
  ghost predicate NeverSleeps(asyncs: bool, width: nat) {
    forall threads, schedule ::
      asyncs || NeverAsync(schedule) ==> Awake(Reached(threads, schedule, width))
  }

  /**
    A queue with work on its list stays bound for a wakeup in every run if and only if no readers are submitted
    asynchronously, or its width is below 3: a reader that backs off from a barrier and is the last to give back its
    share does not wake the queue.
  */
  lemma SleepsExactly(asyncs: bool, width: nat)
    ensures NeverSleeps(asyncs, width) <==> !asyncs || width < 3
  {
    hide Awake, NeverAsync, Reached;
    if asyncs && width >= 3 {
      var schedule, s := FallsAsleep(width);
      assert !Awake(Reached({0, 1, 2, 3}, schedule, width));
    } else {
      forall threads, schedule | asyncs || NeverAsync(schedule) ensures Awake(Reached(threads, schedule, width)) {
        AwakeWithout(threads, schedule, width, asyncs);
      }
    }
  }

  // ---------------------------------------------------------------------------------------------
  // The tail test
  // ---------------------------------------------------------------------------------------------

  /** The first test of a call of each kind. */
  predicate TestsTail(pc: Pc) {
    pc == Ask(AsyncTail) || pc == Ask(SyncTail) || pc == Ask(FastTail)
  }

  /**
    A call that goes on from its tail test instead of going to the list overtakes at most one item: the one that the
    owner of the list has taken off and may still put back.
  */
  lemma OvertakesAtMostOne(threads: set<Tid>, schedule: seq<(Tid, Call)>, width: nat, t: Tid, call: Call)
    requires t in threads
    ensures var s := Reached(threads, schedule, width);
            && t in s.th && t in Step(s, t, call, width).th
            && (TestsTail(s.th[t]) && Step(s, t, call, width).th[t].Ask? ==>
                  Pushed(Init(threads), schedule, width) == Given(Init(threads), schedule, width) + Held(s))
  {
    hide Inv, LockInv, SlipInv, NarrowInv, Run, Pushed, Given, Held, Reached;
    ReachedInv(threads, schedule, width);
    NothingLostInOrder(threads, schedule, width);
    var s := Reached(threads, schedule, width);
    var given := Given(Init(threads), schedule, width);
    StepThreads(s, t, call, width);
    if TestsTail(s.th[t]) && Step(s, t, call, width).th[t].Ask? {
      assert s.items == [];
      assert given + Held(s) + [] == given + Held(s);
    }
  }

  // ---------------------------------------------------------------------------------------------
  // The width
  // ---------------------------------------------------------------------------------------------

  /** A thread that has let in an asynchronous reader, executes one, or is leaving one. */
  predicate InAsync(pc: Pc) {
    pc == Share(AsyncRedirect) || pc == Share(RedirRun) || pc == Share(RedirSub)
  }

  function AsyncOnes(s: State): set<Tid> {
    set u | u in s.th && InAsync(s.th[u])
  }

  /** The asynchronous readers under way, here or on the target queue. */
  function UnderWay(s: State): nat {
    s.redirected + |AsyncOnes(s)|
  }

  /** The owner is about to let in one more. */
  predicate LetsIn(pc: Pc) {
    pc.Drain? && (pc.d.RedirAdd? || pc.d.RedirGive?) && !pc.d.item.SyncReader?
  }

  predicate Admitting(s: State) {
    s.owner in s.th && LetsIn(s.th[s.owner])
  }

  predicate Within(s: State, width: nat) {
    2 * (UnderWay(s) + One(Admitting(s))) <= width + 1
  }

  lemma AsyncMove(s: State, s': State, t: Tid)
    requires Moved(s, s', t)
    ensures |AsyncOnes(s')| == |AsyncOnes(s)| - One(InAsync(s.th[t])) + One(InAsync(s'.th[t]))
  {
    assert AsyncOnes(s') - {t} == AsyncOnes(s) - {t};
    Without(AsyncOnes(s), t);
    Without(AsyncOnes(s'), t);
  }

  /** Every reader under way has its share of the running word. */
  lemma UnderWayCounts(s: State)
    requires RunningInv(s)
    ensures OwnerWeight(s) + 2 * UnderWay(s) <= s.running
  {
    Included(AsyncOnes(s), Sharers(s));
  }

  /** What a step of `t` adds to the readers under way. */
  function Gain(s: State, t: Tid, s': State): int
    requires t in s.th && t in s'.th
  {
    s'.redirected - s.redirected + One(InAsync(s'.th[t])) - One(InAsync(s.th[t]))
  }

  lemma HoldGain(s: State, t: Tid, h: HoldPc, call: Call)
    requires t in s.th && s.th[t] == Hold(h)
    ensures var s' := StepHold(s, t, h, call); t in s'.th && Gain(s, t, s') == 0 && !LetsIn(s'.th[t])
  {
  }

  lemma DrainGain(s: State, t: Tid, d: DrainPc, width: nat)
    requires t in s.th && s.th[t] == Drain(d)
    ensures var s' := StepDrain(s, t, d, width);
            && t in s'.th
            && Gain(s, t, s') + One(LetsIn(s'.th[t])) <=
               One(LetsIn(Drain(d))) + One(d.DrainWidth? && s.running <= width)
  {
  }

  /** An asynchronous call lets its reader in only within the width, and not beside a barrier. */
  predicate Gains(s: State, t: Tid, s': State, width: nat)
    requires t in s.th
  {
    && t in s'.th && !LetsIn(s'.th[t])
    && Gain(s, t, s') <= One(s.th[t] == Ask(AsyncAdd) && (s.running + 2) % 2 == 0 && s.running + 2 <= width)
  }

  lemma AskGain(s: State, t: Tid, a: AskPc, width: nat)
    requires t in s.th && s.th[t] == Ask(a)
    ensures Gains(s, t, StepAsk(s, t, a, width), width)
  {
  }

  lemma ShareGain(s: State, t: Tid, p: SharePc, width: nat)
    requires t in s.th && s.th[t] == Share(p)
    ensures Gains(s, t, StepShare(s, t, p), width)
  {
  }

  lemma BeginGain(s: State, t: Tid, call: Call, width: nat)
    requires t in s.th && s.th[t] == Idle
    ensures Gains(s, t, Begin(s, t, call), width)
  {
  }

  lemma OtherGain(s: State, t: Tid, call: Call, width: nat)
    requires t in s.th && !Owns(s.th[t])
    ensures Gains(s, t, Step(s, t, call, width), width)
  {
    hide Begin, StepAsk, StepShare, StepHold, StepDrain;
    match s.th[t]
    case Idle => BeginGain(s, t, call, width);
    case Ask(a) => AskGain(s, t, a, width);
    case Share(p) => ShareGain(s, t, p, width);
    case _ =>
  }

  lemma OwnersAfter(s: State, t: Tid, call: Call, width: nat)
    requires Inv(s) && t in s.th && Admitting(Step(s, t, call, width))
    ensures var s' := Step(s, t, call, width);
            (s.owner == t && s'.owner == t) || (t != s.owner && s'.owner == s.owner && Admitting(s))
  {
    StepThreads(s, t, call, width);
    match s.th[t]
    case Hold(h) => OwnerHolds(s, t); hide Inv, StepHold; HoldOwnersAfter(s, t, h, call);
    case Drain(d) => OwnerHolds(s, t); hide Inv, StepDrain; DrainOwnersAfter(s, t, d, width);
    case _ =>
      AskersUnsignaled(s, t);
      assert OwnerInv(s);
      hide Inv, Step;
      OtherShape(s, t, call, width);
      OtherGain(s, t, call, width);
  }

  lemma HoldOwnersAfter(s: State, t: Tid, h: HoldPc, call: Call)
    requires t in s.th && s.th[t] == Hold(h) && s.owner == t && Waiting(s, InHand(s.th[t]))
    ensures !Admitting(StepHold(s, t, h, call))
  {
  }

  lemma DrainOwnersAfter(s: State, t: Tid, d: DrainPc, width: nat)
    requires t in s.th && s.th[t] == Drain(d) && s.owner == t && Waiting(s, InHand(s.th[t]))
    ensures Admitting(StepDrain(s, t, d, width)) ==> StepDrain(s, t, d, width).owner == t
  {
  }

  /** The owner's share is odd while it lets a reader in: asynchronous calls then back off. */
  lemma OddWhileAdmitting(s: State)
    requires Inv(s) && Admitting(s)
    ensures s.running % 2 == 1
  {
    hide ItemsInv, HandInv, Alone, PushInv, OwnerInv;
  }

  lemma WithinOwner(s: State, t: Tid, d: DrainPc, width: nat)
    requires Inv(s) && Within(s, width) && t in s.th && s.th[t] == Drain(d)
    ensures Within(StepDrain(s, t, d, width), width)
  {
    OwnerHolds(s, t);
    UnderWayCounts(s);
    var s' := StepDrain(s, t, d, width);
    DrainThreads(s, t, d, width);
    DrainGain(s, t, d, width);
    DrainOwnersAfter(s, t, d, width);
    assert d.DrainWidth? ==> OwnerWeight(s) == 1;
    hide Inv, StepDrain, AsyncOnes;
    AsyncMove(s, s', t);
    assert One(Admitting(s')) <= One(LetsIn(s'.th[t]));
  }

  lemma WithinOther(s: State, t: Tid, call: Call, width: nat)
    requires Inv(s) && Within(s, width) && t in s.th && !Owns(s.th[t])
    ensures Within(Step(s, t, call, width), width)
  {
    UnderWayCounts(s);
    if Admitting(s) { OddWhileAdmitting(s); }
    assert t != s.owner || !Owns(s.th[t]);
    var s' := Step(s, t, call, width);
    hide Inv, Step, AsyncOnes, LetsIn;
    StepThreads(s, t, call, width);
    OtherGain(s, t, call, width);
    AsyncMove(s, s', t);
    if Admitting(s') { OwnersAfter(s, t, call, width); }
  }

  lemma WithinHold(s: State, t: Tid, h: HoldPc, call: Call, width: nat)
    requires Inv(s) && Within(s, width) && t in s.th && s.th[t] == Hold(h)
    ensures Within(StepHold(s, t, h, call), width)
  {
    OwnerHolds(s, t);
    var s' := StepHold(s, t, h, call);
    HoldThreads(s, t, h, call);
    HoldGain(s, t, h, call);
    HoldOwnersAfter(s, t, h, call);
    hide Inv, StepHold, AsyncOnes, Admitting;
    AsyncMove(s, s', t);
  }

  lemma WithinStep(s: State, t: Tid, call: Call, width: nat)
    requires Inv(s) && Within(s, width) && t in s.th
    ensures Within(Step(s, t, call, width), width)
  {
    hide Inv, Within, StepHold, StepDrain;
    match s.th[t]
    case Hold(h) => WithinHold(s, t, h, call, width);
    case Drain(d) => WithinOwner(s, t, d, width);
    case _ => WithinOther(s, t, call, width);
  }

  lemma StartsWithin(threads: set<Tid>, width: nat)
    ensures Within(Init(threads), width)
  {
    assert AsyncOnes(Init(threads)) == {};
  }

  /** There are never more asynchronous readers under way than half the width, rounded up. */
  lemma {:induction false} WidthLimits(threads: set<Tid>, schedule: seq<(Tid, Call)>, width: nat, n: nat)
    requires n <= |schedule|
    ensures var s := At(threads, schedule, width, n);
            Within(s, width) && UnderWay(s) <= (width + 1) / 2
    decreases n
  {
    hide Inv, LockInv, Step, At;
    if n == 0 {
      AtStart(threads, schedule, width);
      StartsWithin(threads, width);
    } else {
      WidthLimits(threads, schedule, width, n - 1);
      hide Within;
      Next(threads, schedule, width, n - 1);
      var (t, call) := schedule[n - 1];
      if t in threads { WithinStep(At(threads, schedule, width, n - 1), t, call, width); }
      HalfWidth(At(threads, schedule, width, n), width);
    }
  }

  lemma HalfWidth(s: State, width: nat)
    requires Within(s, width)
    ensures UnderWay(s) <= (width + 1) / 2
  {
  }
}
