/**
  A concurrent dispatch queue (width above 1, fixed target): readers that add 2 to the running word
  and may back off, redirected readers, and barriers that run inline in a drain, through the fast
  synchronous path, or handed over to a waiting synchronous caller.

  The list is an atomic sequence here: SerialQueue proves that the intrusive list is one.
*/
module ConcurrentQueue {
  type Tid = nat
  const NULL: int := -1

  datatype Item = Reader | Barrier | SyncReader(t: Tid) | SyncBarrier(t: Tid)

  /**
    What an idle thread does. `Stalled` is no call: it makes a lock transfer find no first item, because the
    pusher of that item has not stored it in the head yet.
  */
  datatype Call = Async | BarrierAsync | Sync | BarrierSync | Redirected | Invoke | Suspend | Resume | Stalled

  datatype Pc =
    | Idle
    // _dispatch_queue_push; a wakeup follows if the list was empty
    | Push(item: Item)
    // _dispatch_wakeup, and the thread semaphore; `after` is what the caller does then
    | Wake(w: WakePc, after: After)
    | Wait(after: After)
    // callers of dispatch_async_f, dispatch_sync_f and dispatch_barrier_sync_f before they hold anything
    | Ask(a: AskPc)
    // holders of a reader's share of the running word
    | Share(p: SharePc)
    // _dispatch_queue_invoke before and after the drain
    | Door(i: DoorPc)
    | InvCheck
    // the owner of the list: a barrier, or a drain
    | Hold(h: HoldPc)
    | Drain(d: DrainPc)

  datatype After = Returns | AwaitsReader | AwaitsBarrier | PushesReader | PushesSync

  datatype WakePc = WakeSuspend | WakeTail | WakeLock

  datatype AskPc =
    | AsyncTail | AsyncSuspend | AsyncAdd
    | SyncTail | SyncSuspend | SyncAdd
    | FastTail | FastSuspend | FastLock

  datatype SharePc =
    | AsyncBack | AsyncUnlock | AsyncRedirect
    | SyncBack | SyncRun | SyncSub
    | RedirRun | RedirSub

  datatype DoorPc = InvSuspend | InvLock | InvUnlock

  datatype HoldPc =
    | FastRun | FastTailAgain | FastSuspendAgain | FastDec
    | SlowRun | SlowSuspend | SlowRunning | SlowSubSuspend | SlowSubRunning
    | OneHead(fast: bool)
    | HandSuspend(who: Tid)
    | HandRunning(who: Tid)
    | HandSignal(who: Tid)

  datatype DrainPc =
    | DrainTake
    | DrainSuspend(item: Item)
    | DrainWidth(item: Item)
    | DrainBarrier(item: Item)
    | DrainRun
    | RedirAdd(item: Item)
    | RedirGive(item: Item)
    | PopSuspend(who: Tid)
    | PopRunning(who: Tid)
    | PutBack(item: Item)
    | InvDec(sema: int)
    | InvSignal(who: Tid)

  datatype Lock = Unlocked | OnTarget | InvokedBy(t: Tid)

  /**
    `redirected` counts readers waiting on the target queue. History: `owner` as in SerialQueue; of the
    readers past their suspension test when the queue was last suspended for a barrier, `admitted` are the
    synchronous ones and `late` is the number of all.
  */
  datatype State = State(
    items: seq<Item>, running: nat, suspend: nat, lock: Lock, clients: nat, redirected: nat,
    signaled: set<Tid>, th: map<Tid, Pc>, owner: int, admitted: set<Tid>, late: nat)

  function Init(threads: set<Tid>): State {
    State([], 0, 0, Unlocked, 0, 0, {}, map t | t in threads :: Idle, NULL, {}, 0)
  }

  function Go(s: State, t: Tid, pc: Pc): State {
    s.(th := s.th[t := pc])
  }

  function Less(x: nat, y: nat): nat {
    if x < y then 0 else x - y
  }

  predicate Suspended(s: State) {
    s.suspend >= 2
  }

  /** Past the suspension test, about to add a share to the running word. */
  predicate Adding(pc: Pc) {
    pc == Ask(AsyncAdd) || pc == Ask(SyncAdd)
  }

  function Adders(s: State): set<Tid> {
    set u | u in s.th && Adding(s.th[u])
  }

  function SyncAdders(s: State): set<Tid> {
    set u | u in s.th && s.th[u] == Ask(SyncAdd)
  }

  function Begin(s: State, t: Tid, call: Call): State {
    match call
    case Async => Go(s, t, Ask(AsyncTail))
    case BarrierAsync => Go(s, t, Push(Barrier))
    case Sync => Go(s, t, Ask(SyncTail))
    case BarrierSync => Go(s, t, Ask(FastTail))
    case Redirected =>
      if s.redirected == 0 then s else Go(s.(redirected := s.redirected - 1), t, Share(RedirRun))
    case Invoke => if s.lock == OnTarget then Go(s.(lock := InvokedBy(t)), t, Door(InvSuspend)) else s
    case Suspend => s.(suspend := s.suspend + 2, clients := s.clients + 1)
    case Resume =>
      if s.clients == 0 || s.suspend < 2 then s
      else
        var s1 := s.(suspend := s.suspend - 2, clients := s.clients - 1);
        if s.suspend == 2 then Go(s1, t, Wake(WakeSuspend, Returns)) else s1
    case Stalled => s
  }

  function AfterPush(item: Item): After {
    match item
    case SyncReader(_) => AwaitsReader
    case SyncBarrier(_) => AwaitsBarrier
    case _ => Returns
  }

  function Arrive(t: Tid, after: After): Pc {
    match after
    case Returns => Idle
    case AwaitsReader => Wait(AwaitsReader)
    case AwaitsBarrier => Wait(AwaitsBarrier)
    case PushesReader => Push(Reader)
    case PushesSync => Push(SyncReader(t))
  }

  function StepPush(s: State, t: Tid, item: Item): State {
    Go(s.(items := s.items + [item]), t,
       if s.items == [] then Wake(WakeSuspend, AfterPush(item)) else Arrive(t, AfterPush(item)))
  }

  function StepWake(s: State, t: Tid, w: WakePc, after: After): State {
    match w
    case WakeSuspend => Go(s, t, if Suspended(s) then Arrive(t, after) else Wake(WakeTail, after))
    case WakeTail => Go(s, t, if s.items == [] then Arrive(t, after) else Wake(WakeLock, after))
    case WakeLock =>
      if s.suspend == 0 then Go(s.(suspend := 1, lock := OnTarget), t, Arrive(t, after))
      else Go(s, t, Arrive(t, after))
  }

  function StepWait(s: State, t: Tid, after: After): State {
    if t !in s.signaled then s
    else Go(s.(signaled := s.signaled - {t}), t,
            if after == AwaitsReader then Share(SyncRun) else Hold(SlowRun))
  }

  function StepAsk(s: State, t: Tid, a: AskPc, width: nat): State {
    match a
    case AsyncTail => Go(s, t, if s.items != [] then Push(Reader) else Ask(AsyncSuspend))
    case AsyncSuspend => Go(s, t, if Suspended(s) then Push(Reader) else Ask(AsyncAdd))
    case AsyncAdd =>
      var r := s.running + 2;
      Go(s.(running := r), t,
         Share(if r > width then AsyncBack else if r % 2 == 0 then AsyncRedirect else AsyncUnlock))
    case SyncTail => Go(s, t, if s.items != [] then Push(SyncReader(t)) else Ask(SyncSuspend))
    case SyncSuspend => Go(s, t, if Suspended(s) then Push(SyncReader(t)) else Ask(SyncAdd))
    case SyncAdd =>
      var r := s.running + 2;
      Go(s.(running := r), t, Share(if r % 2 == 1 then SyncBack else SyncRun))
    case FastTail => Go(s, t, if s.items != [] then Push(SyncBarrier(t)) else Ask(FastSuspend))
    case FastSuspend => Go(s, t, if Suspended(s) then Push(SyncBarrier(t)) else Ask(FastLock))
    case FastLock =>
      if s.running == 0 then Go(s.(running := 1, owner := t), t, Hold(FastRun))
      else Go(s, t, Push(SyncBarrier(t)))
  }

  /** Gives back one reader's share; whoever brings the word to zero wakes the queue. */
  function LeaveReader(s: State, t: Tid, after: After): State {
    var r := Less(s.running, 2);
    Go(s.(running := r), t, if r == 0 then Wake(WakeSuspend, after) else Arrive(t, after))
  }

  function StepShare(s: State, t: Tid, p: SharePc): State {
    match p
    case AsyncBack => LeaveReader(s, t, PushesReader)
    case AsyncUnlock =>
      // The barrier may have ended by now: then start over.
      var r := Less(s.running, 2);
      Go(s.(running := r), t, if r % 2 == 1 then Push(Reader) else Ask(AsyncTail))
    case AsyncRedirect => Go(s.(redirected := s.redirected + 1), t, Idle)
    case SyncBack => LeaveReader(s, t, PushesSync)
    case SyncRun => Go(s, t, Share(SyncSub))
    case SyncSub => LeaveReader(s, t, Returns)
    case RedirRun => Go(s, t, Share(RedirSub))
    case RedirSub => LeaveReader(s, t, Returns)
  }

  function StepDoor(s: State, t: Tid, i: DoorPc): State {
    match i
    case InvSuspend => Go(s, t, Door(if Suspended(s) then InvUnlock else InvLock))
    case InvLock =>
      if s.running == 0 then Go(s.(running := 1, owner := t), t, Drain(DrainTake))
      else Go(s, t, Door(InvUnlock))
    case InvUnlock =>
      var r := Less(s.suspend, 1);
      Go(s.(suspend := r, lock := Unlocked), t, if r == 0 then InvCheck else Idle)
  }

  function LeaveBarrier(s: State, t: Tid, k: nat): State {
    var r := Less(s.running, k);
    Go(s.(running := r, owner := NULL), t, if r == 0 then Wake(WakeSuspend, Returns) else Idle)
  }

  function StepHold(s: State, t: Tid, h: HoldPc, call: Call): State {
    match h
    case FastRun => Go(s, t, Hold(FastTailAgain))
    case FastTailAgain => Go(s, t, Hold(if s.items != [] then FastSuspendAgain else FastDec))
    case FastSuspendAgain => Go(s, t, Hold(if Suspended(s) then FastDec else OneHead(true)))
    case FastDec => LeaveBarrier(s, t, 1)
    case SlowRun => Go(s, t, Hold(SlowSuspend))
    case SlowSuspend => Go(s, t, Hold(if s.suspend < 4 then SlowRunning else SlowSubSuspend))
    case SlowRunning => Go(s, t, Hold(if s.running == 2 then OneHead(false) else SlowSubSuspend))
    case SlowSubSuspend => Go(s.(suspend := Less(s.suspend, 2)), t, Hold(SlowSubRunning))
    case SlowSubRunning => LeaveBarrier(s, t, 2)
    case OneHead(fast) =>
      if call != Stalled && s.items != [] && s.items[0].SyncBarrier? then
        var u := s.items[0].t;
        Go(s.(items := s.items[1..]), t, Hold(if fast then HandSuspend(u) else HandSignal(u)))
      else Go(s, t, Hold(if fast then FastDec else SlowSubSuspend))
    case HandSuspend(u) =>
      Go(s.(suspend := s.suspend + 2, admitted := SyncAdders(s), late := |Adders(s)|), t, Hold(HandRunning(u)))
    case HandRunning(u) => Go(s.(running := s.running + 1), t, Hold(HandSignal(u)))
    case HandSignal(u) => Go(s.(signaled := s.signaled + {u}, owner := u), t, Idle)
  }

  predicate IsBarrier(item: Item) {
    item.Barrier? || item.SyncBarrier?
  }

  function StepDrain(s: State, t: Tid, d: DrainPc, width: nat): State {
    match d
    case DrainTake =>
      if s.items == [] then Go(s, t, Drain(InvDec(NULL)))
      else Go(s.(items := s.items[1..]), t, Drain(DrainSuspend(s.items[0])))
    case DrainSuspend(item) => Go(s, t, Drain(if Suspended(s) then PutBack(item) else DrainWidth(item)))
    case DrainWidth(item) =>
      Go(s, t, Drain(if s.running > width then PutBack(item)
                     else if IsBarrier(item) then DrainBarrier(item) else RedirAdd(item)))
    case DrainBarrier(item) =>
      Go(s, t, Drain(if s.running > 1 then PutBack(item)
                     else if item.SyncBarrier? then PopSuspend(item.t) else DrainRun))
    case DrainRun => Go(s, t, Drain(DrainTake))
    case RedirAdd(item) => Go(s.(running := s.running + 2), t, Drain(RedirGive(item)))
    case RedirGive(item) =>
      var s1 := if item.SyncReader? then s.(signaled := s.signaled + {item.t})
                else s.(redirected := s.redirected + 1);
      Go(s1, t, Drain(DrainTake))
    case PopSuspend(u) =>
      Go(s.(suspend := s.suspend + 2, admitted := SyncAdders(s), late := |Adders(s)|), t, Drain(PopRunning(u)))
    case PopRunning(u) => Go(s.(running := s.running + 2), t, Drain(InvDec(u)))
    case PutBack(item) => Go(s.(items := [item] + s.items), t, Drain(InvDec(NULL)))
    case InvDec(sema) =>
      var s1 := s.(running := Less(s.running, 1));
      if sema < 0 then Go(s1.(owner := NULL), t, Door(InvUnlock)) else Go(s1, t, Drain(InvSignal(sema)))
    case InvSignal(u) => Go(s.(signaled := s.signaled + {u}, owner := u), t, Door(InvUnlock))
  }

  /** One atomic step of thread `t` on a queue of the given width. */
  function Step(s: State, t: Tid, call: Call, width: nat): State
    requires t in s.th
  {
    match s.th[t]
    case Idle => Begin(s, t, call)
    case Push(item) => StepPush(s, t, item)
    case Wake(w, after) => StepWake(s, t, w, after)
    case Wait(after) => StepWait(s, t, after)
    case Ask(a) => StepAsk(s, t, a, width)
    case Share(p) => StepShare(s, t, p)
    case Door(i) => StepDoor(s, t, i)
    case InvCheck => Go(s, t, if s.running == 0 then Wake(WakeSuspend, Returns) else Idle)
    case Hold(h) => StepHold(s, t, h, call)
    case Drain(d) => StepDrain(s, t, d, width)
  }

  function Run(s: State, schedule: seq<(Tid, Call)>, width: nat): State
    decreases |schedule|
  {
    if schedule == [] then s
    else
      var (t, call) := schedule[0];
      Run(if t in s.th then Step(s, t, call, width) else s, schedule[1..], width)
  }

  // ---------------------------------------------------------------------------------------------
  // Invariant
  // ---------------------------------------------------------------------------------------------

  predicate Owns(pc: Pc) {
    pc.Hold? || pc.Drain?
  }

  /** The owner's share of the running word; the low bit is set exactly when it is odd. */
  function Weight(pc: Pc): nat {
    match pc
    case Hold(h) => HoldWeight(h)
    case Drain(d) => DrainWeight(d)
    case _ => 2
  }

  function HoldWeight(h: HoldPc): nat {
    match h
    case FastRun | FastTailAgain | FastSuspendAgain | FastDec | HandSuspend(_) | HandRunning(_) => 1
    case OneHead(fast) => if fast then 1 else 2
    case _ => 2
  }

  function DrainWeight(d: DrainPc): nat {
    match d
    case RedirGive(_) => 3
    case InvDec(sema) => if sema < 0 then 1 else 3
    case InvSignal(_) => 2
    case _ => 1
  }

  function OwnerWeight(s: State): nat {
    if s.owner in s.th then Weight(s.th[s.owner]) else 0
  }

  /** On the way to the semaphore of a slow reader, or of a slow barrier. */
  predicate Awaits(pc: Pc, after: After) {
    (pc.Wake? || pc.Wait?) && pc.after == after
  }

  /** Threads that hold a reader's share: executing, on their way to it, or backing off. */
  predicate Shares(s: State, u: Tid)
    requires u in s.th
  {
    s.th[u].Share? || (u in s.signaled && Awaits(s.th[u], AwaitsReader))
  }

  function Sharers(s: State): set<Tid> {
    set u | u in s.th && Shares(s, u)
  }

  /** Readers that have been let in: executing, leaving, or bound to execute. */
  predicate Active(s: State, u: Tid)
    requires u in s.th
  {
    Shares(s, u) && (s.th[u].Share? ==> !s.th[u].p.AsyncBack? && !s.th[u].p.AsyncUnlock? && !s.th[u].p.SyncBack?)
  }

  predicate OwnerInv(s: State) {
    && s.signaled <= s.th.Keys
    && (s.owner == NULL ||
        (s.owner in s.th && (Owns(s.th[s.owner]) || (s.owner in s.signaled && Awaits(s.th[s.owner], AwaitsBarrier)))))
    && (forall u :: u in s.th && (Owns(s.th[u]) || (u in s.signaled && Awaits(s.th[u], AwaitsBarrier))) ==>
          s.owner == u)
    && (forall u :: u in s.signaled && u in s.th ==> Awaits(s.th[u], AwaitsReader) || Awaits(s.th[u], AwaitsBarrier))
  }

  predicate RunningInv(s: State) {
    s.running == OwnerWeight(s) + 2 * (|Sharers(s)| + s.redirected)
  }

  /** A barrier that executes with the low bit held, or the low bit kept from it to a hand-over. */
  predicate LowBitBarrier(pc: Pc) {
    match pc
    case Hold(h) => h.FastRun? || h.FastTailAgain? || h.FastSuspendAgain? || h == OneHead(true) || h.HandSuspend?
    case Drain(d) => d.DrainRun? || d.PopSuspend?
    case _ => false
  }

  predicate Alone(s: State) {
    s.owner in s.th && LowBitBarrier(s.th[s.owner]) ==>
      s.redirected == 0 && forall u :: u in s.th ==> !Active(s, u)
  }

  /** The thread an item will signal has not been signalled and waits in the right role. */
  predicate Waiting(s: State, item: Item) {
    match item
    case SyncReader(u) => u in s.th && u !in s.signaled && Awaits(s.th[u], AwaitsReader)
    case SyncBarrier(u) => u in s.th && u !in s.signaled && Awaits(s.th[u], AwaitsBarrier)
    case _ => true
  }

  predicate Clash(a: Item, b: Item) {
    (a.SyncReader? || a.SyncBarrier?) && (b.SyncReader? || b.SyncBarrier?) && a.t == b.t
  }

  /** What the owner holds outside the list. */
  function InHand(pc: Pc): Item {
    match pc
    case Hold(HandSuspend(u)) => SyncBarrier(u)
    case Hold(HandRunning(u)) => SyncBarrier(u)
    case Hold(HandSignal(u)) => SyncBarrier(u)
    case Drain(DrainSuspend(item)) => item
    case Drain(DrainWidth(item)) => item
    case Drain(DrainBarrier(item)) => item
    case Drain(RedirAdd(item)) => item
    case Drain(RedirGive(item)) => item
    case Drain(PutBack(item)) => item
    case Drain(PopSuspend(u)) => SyncBarrier(u)
    case Drain(PopRunning(u)) => SyncBarrier(u)
    case Drain(InvDec(sema)) => if sema < 0 then Reader else SyncBarrier(sema)
    case Drain(InvSignal(u)) => SyncBarrier(u)
    case _ => Reader
  }

  predicate ItemsInv(s: State) {
    && (forall i :: 0 <= i < |s.items| ==> Waiting(s, s.items[i]))
    && (forall i, j :: 0 <= i < j < |s.items| ==> !Clash(s.items[i], s.items[j]))
  }

  predicate HandInv(s: State) {
    s.owner in s.th ==>
      var pc := s.th[s.owner];
      && Waiting(s, InHand(pc))
      && (forall i :: 0 <= i < |s.items| ==> !Clash(InHand(pc), s.items[i]))
      && (pc.Drain? && pc.d.DrainBarrier? ==> IsBarrier(pc.d.item))
      && (pc.Drain? && (pc.d.RedirAdd? || pc.d.RedirGive?) ==> !IsBarrier(pc.d.item))
  }

  /** A thread about to push itself is not on the list and not signalled. */
  predicate PushInv(s: State) {
    forall u :: u in s.th && s.th[u].Push? ==>
      s.th[u].item == Reader || s.th[u].item == Barrier
      || s.th[u].item == SyncReader(u) || s.th[u].item == SyncBarrier(u)
  }

  predicate Inv(s: State) {
    OwnerInv(s) && RunningInv(s) && Alone(s) && ItemsInv(s) && HandInv(s) && PushInv(s)
  }

  lemma InitInv(threads: set<Tid>)
    ensures Inv(Init(threads))
  {
    assert Sharers(Init(threads)) == {};
  }

  predicate Moved(s: State, s': State, t: Tid) {
    t in s.th && t in s'.th && s'.th == s.th[t := s'.th[t]]
  }

  function One(b: bool): nat {
    if b then 1 else 0
  }

  lemma Without(a: set<Tid>, t: Tid)
    ensures |a| == |a - {t}| + One(t in a)
  {
    assert a == (a - {t}) + (if t in a then {t} else {});
  }

  /** Only `t` can have joined or left the sharers. */
  lemma SharersMove(s: State, s': State, t: Tid)
    requires Moved(s, s', t) && (forall u :: u != t ==> (u in s'.signaled <==> u in s.signaled))
    ensures |Sharers(s')| == |Sharers(s)| - One(Shares(s, t)) + One(Shares(s', t))
  {
    assert forall u :: u in s.th && u != t ==> Shares(s', u) == Shares(s, u);
    assert Sharers(s') - {t} == Sharers(s) - {t};
    Without(Sharers(s), t);
    Without(Sharers(s'), t);
  }

  /** A signal makes a waiting reader, and no one else, a sharer. */
  lemma SharersSignal(s: State, s': State, t: Tid, u: Tid)
    requires Moved(s, s', t) && u in s.th && u != t && u !in s.signaled && s'.signaled == s.signaled + {u}
    requires !Shares(s, t) && !Shares(s', t) && (s.th[u].Wake? || s.th[u].Wait?)
    ensures |Sharers(s')| == |Sharers(s)| + One(Awaits(s.th[u], AwaitsReader))
  {
    var more := if Awaits(s.th[u], AwaitsReader) then {u} else {};
    assert !Shares(s, u) && Shares(s', u) == Awaits(s.th[u], AwaitsReader);
    forall w | w in s.th ensures Shares(s', w) <==> Shares(s, w) || w in more {
      if w != u && w != t { assert s'.th[w] == s.th[w]; }
    }
    hide Shares;
    assert Sharers(s') == Sharers(s) + more;
  }

  lemma NoSharers(s: State)
    requires RunningInv(s) && s.running <= OwnerWeight(s)
    ensures s.redirected == 0 && forall u :: u in s.th ==> !Shares(s, u)
  {
    assert Sharers(s) == {};
    forall u | u in s.th ensures !Shares(s, u) {
      assert u !in Sharers(s);
    }
  }

  // ---------------------------------------------------------------------------------------------
  // Threads that do not own the list
  // ---------------------------------------------------------------------------------------------

  /** A step of a thread that is not, and does not become, an owner, a waiter or a signalled thread. */
  predicate Quiet(s: State, s': State, t: Tid) {
    && Moved(s, s', t) && !Owns(s.th[t]) && !Owns(s'.th[t])
    && s'.owner == s.owner && s'.signaled == s.signaled && s'.items == s.items
    && (Awaits(s'.th[t], AwaitsReader) <==> Awaits(s.th[t], AwaitsReader))
    && (Awaits(s'.th[t], AwaitsBarrier) <==> Awaits(s.th[t], AwaitsBarrier))
  }

  lemma QuietOwner(s: State, s': State, t: Tid)
    requires OwnerInv(s) && Quiet(s, s', t)
    ensures OwnerInv(s') && OwnerWeight(s') == OwnerWeight(s)
  {
  }

  lemma QuietItems(s: State, s': State, t: Tid)
    requires OwnerInv(s) && ItemsInv(s) && HandInv(s) && Quiet(s, s', t)
    ensures ItemsInv(s') && HandInv(s')
  {
  }

  lemma QuietAlone(s: State, s': State, t: Tid)
    requires OwnerInv(s) && Alone(s) && RunningInv(s') && Quiet(s, s', t)
    requires Active(s', t) || s'.redirected > 0 ==> Active(s, t) || s.redirected > 0 || s'.running % 2 == 0
    ensures Alone(s')
  {
    if s'.owner in s'.th && LowBitBarrier(s'.th[s'.owner]) {
      assert s.th[s.owner] == s'.th[s'.owner];
      assert s'.running % 2 == 1;
      forall u | u in s'.th ensures !Active(s', u) {
        assert !Active(s, u);
      }
    }
  }

  lemma QuietKeeps(s: State, s': State, t: Tid)
    requires Inv(s) && Quiet(s, s', t)
    requires s'.running + 2 * (One(Shares(s, t)) + s.redirected)
             == s.running + 2 * (One(Shares(s', t)) + s'.redirected)
    requires Active(s', t) || s'.redirected > 0 ==> Active(s, t) || s.redirected > 0 || s'.running % 2 == 0
    requires s'.th[t].Push? ==> s'.th[t].item in {Reader, Barrier, SyncReader(t), SyncBarrier(t)}
    ensures Inv(s')
  {
    hide OwnerInv, RunningInv, ItemsInv, HandInv, Alone;
    QuietOwner(s, s', t);
    SharersMove(s, s', t);
    QuietRunning(s, s', t);
    QuietItems(s, s', t);
    QuietAlone(s, s', t);
  }

  lemma QuietRunning(s: State, s': State, t: Tid)
    requires RunningInv(s) && OwnerWeight(s') == OwnerWeight(s) && t in s.th && t in s'.th
    requires |Sharers(s')| == |Sharers(s)| - One(Shares(s, t)) + One(Shares(s', t))
    requires s'.running + 2 * (One(Shares(s, t)) + s.redirected)
             == s.running + 2 * (One(Shares(s', t)) + s'.redirected)
    ensures RunningInv(s')
  {
  }

  /** Nobody but a waiter can have been signalled. */
  lemma Unsignaled(s: State, t: Tid)
    requires OwnerInv(s) && t in s.th && !s.th[t].Wake? && !s.th[t].Wait?
    ensures t !in s.signaled
  {
  }

  lemma BeginKeeps(s: State, t: Tid, call: Call)
    requires Inv(s) && t in s.th && s.th[t] == Idle
    ensures Inv(Begin(s, t, call))
  {
    hide OwnerInv, RunningInv, ItemsInv, HandInv, Alone;
    Unsignaled(s, t);
    QuietKeeps(s, Begin(s, t, call), t);
  }

  lemma WakeKeeps(s: State, t: Tid)
    requires Inv(s) && t in s.th && s.th[t].Wake?
    ensures Inv(StepWake(s, t, s.th[t].w, s.th[t].after))
  {
    hide OwnerInv, RunningInv, ItemsInv, HandInv, Alone;
    QuietKeeps(s, StepWake(s, t, s.th[t].w, s.th[t].after), t);
  }

  /** A sharer accounts for 2 in the running word. */
  lemma SharerCounts(s: State, t: Tid)
    requires RunningInv(s) && t in s.th && Shares(s, t)
    ensures s.running >= 2
  {
    assert t in Sharers(s);
  }

  /** A share is given back. */
  lemma LeaveKeeps(s: State, t: Tid, after: After)
    requires Inv(s) && t in s.th && s.th[t].Share? && s.running >= 2 && t !in s.signaled
    requires after == Returns || after == PushesReader || after == PushesSync
    ensures Inv(LeaveReader(s, t, after))
  {
    hide Inv;
    QuietKeeps(s, LeaveReader(s, t, after), t);
  }

  lemma UnlockKeeps(s: State, t: Tid)
    requires Inv(s) && t in s.th && s.th[t] == Share(AsyncUnlock) && s.running >= 2 && t !in s.signaled
    ensures Inv(StepShare(s, t, AsyncUnlock))
  {
    hide Inv;
    QuietKeeps(s, StepShare(s, t, AsyncUnlock), t);
  }

  lemma PassKeeps(s: State, t: Tid, p: SharePc)
    requires Inv(s) && t in s.th && s.th[t] == Share(p) && t !in s.signaled
    requires p == AsyncRedirect || p == SyncRun || p == RedirRun
    ensures Inv(StepShare(s, t, p))
  {
    hide Inv;
    QuietKeeps(s, StepShare(s, t, p), t);
  }

  lemma ShareKeeps(s: State, t: Tid, p: SharePc)
    requires Inv(s) && t in s.th && s.th[t] == Share(p)
    ensures Inv(StepShare(s, t, p))
  {
    SharerCounts(s, t);
    Unsignaled(s, t);
    hide Inv, LeaveReader;
    match p
    case AsyncBack => LeaveKeeps(s, t, PushesReader);
    case SyncBack => LeaveKeeps(s, t, PushesSync);
    case SyncSub => LeaveKeeps(s, t, Returns);
    case RedirSub => LeaveKeeps(s, t, Returns);
    case AsyncUnlock => UnlockKeeps(s, t);
    case _ => PassKeeps(s, t, p);
  }

  lemma AskKeeps(s: State, t: Tid, width: nat)
    requires Inv(s) && t in s.th && s.th[t].Ask? && (s.th[t].a == FastLock ==> s.running != 0)
    ensures Inv(StepAsk(s, t, s.th[t].a, width))
  {
    hide OwnerInv, RunningInv, ItemsInv, HandInv, Alone;
    Unsignaled(s, t);
    QuietKeeps(s, StepAsk(s, t, s.th[t].a, width), t);
  }

  lemma DoorKeeps(s: State, t: Tid)
    requires Inv(s) && t in s.th && s.th[t].Door? && (s.th[t].i == InvLock ==> s.running != 0)
    ensures Inv(StepDoor(s, t, s.th[t].i))
  {
    hide OwnerInv, RunningInv, ItemsInv, HandInv, Alone;
    Unsignaled(s, t);
    QuietKeeps(s, StepDoor(s, t, s.th[t].i), t);
  }

  lemma CheckKeeps(s: State, t: Tid, call: Call, width: nat)
    requires Inv(s) && t in s.th && s.th[t].InvCheck?
    ensures Inv(Step(s, t, call, width))
  {
    hide OwnerInv, RunningInv, ItemsInv, HandInv, Alone;
    Unsignaled(s, t);
    QuietKeeps(s, Step(s, t, call, width), t);
  }

  lemma PushItems(s: State, t: Tid, item: Item)
    requires OwnerInv(s) && ItemsInv(s) && HandInv(s) && PushInv(s) && t in s.th && s.th[t] == Push(item)
    requires t !in s.signaled
    ensures ItemsInv(StepPush(s, t, item)) && HandInv(StepPush(s, t, item))
  {
    var s' := StepPush(s, t, item);
    forall i | 0 <= i < |s'.items| ensures Waiting(s', s'.items[i]) {
      if i < |s.items| { assert Waiting(s, s.items[i]); }
    }
    forall i | 0 <= i < |s.items| ensures !Clash(s.items[i], item) {
      assert Waiting(s, s.items[i]);
    }
  }

  lemma PushKeeps(s: State, t: Tid, item: Item)
    requires Inv(s) && t in s.th && s.th[t] == Push(item)
    ensures Inv(StepPush(s, t, item))
  {
    Unsignaled(s, t);
    PushItems(s, t, item);
    PushOwner(s, t, item);
    var s' := StepPush(s, t, item);
    SharersMove(s, s', t);
    hide ItemsInv, HandInv, OwnerInv;
    assert RunningInv(s');
    assert Alone(s') by {
      forall u | u in s.th && u != t ensures Active(s', u) == Active(s, u) {}
    }
  }

  lemma PushOwner(s: State, t: Tid, item: Item)
    requires OwnerInv(s) && t in s.th && s.th[t] == Push(item) && t !in s.signaled
    ensures OwnerInv(StepPush(s, t, item)) && OwnerWeight(StepPush(s, t, item)) == OwnerWeight(s)
  {
  }

  lemma WaitKeeps(s: State, t: Tid)
    requires Inv(s) && t in s.th && s.th[t].Wait?
    ensures Inv(StepWait(s, t, s.th[t].after))
  {
    var s' := StepWait(s, t, s.th[t].after);
    if t in s.signaled {
      SharersMove(s, s', t);
      assert RunningInv(s');
      assert ItemsInv(s') by {
        forall i | 0 <= i < |s.items| ensures Waiting(s', s.items[i]) {
          assert Waiting(s, s.items[i]);
        }
      }
      WaitOwner(s, t);
      assert Alone(s') by {
        forall u | u in s.th ensures Active(s', u) == Active(s, u) {}
      }
    }
  }

  lemma WaitOwner(s: State, t: Tid)
    requires OwnerInv(s) && HandInv(s) && t in s.th && s.th[t].Wait? && t in s.signaled
    ensures var s' := StepWait(s, t, s.th[t].after); OwnerInv(s') && HandInv(s')
  {
  }

  // ---------------------------------------------------------------------------------------------
  // The owner
  // ---------------------------------------------------------------------------------------------

  /** Taking the running word from zero: no owner, no reader, and now a barrier alone. */
  lemma Acquire(s: State, s': State, t: Tid)
    requires Inv(s) && s.running == 0 && Moved(s, s', t) && t !in s.signaled
    requires s.th[t].Ask? || s.th[t].Door?
    requires s' == s.(running := 1, owner := t, th := s'.th)
    requires s'.th[t] == Hold(FastRun) || s'.th[t] == Drain(DrainTake)
    ensures Inv(s')
  {
    NoSharers(s);
    SharersMove(s, s', t);
    assert s.owner == NULL;
    assert ItemsInv(s') by {
      forall i | 0 <= i < |s.items| ensures Waiting(s', s.items[i]) {
        assert Waiting(s, s.items[i]);
      }
    }
    assert Alone(s') by {
      forall u | u in s.th ensures !Active(s', u) { assert !Shares(s, u); }
    }
  }

  /** The owner goes on without touching the list, and keeps or drops what it holds. */
  lemma OwnerMoves(s: State, s': State, t: Tid)
    requires Inv(s) && Moved(s, s', t) && Owns(s.th[t]) && Owns(s'.th[t])
    requires s' == s.(th := s'.th, running := s'.running, suspend := s'.suspend,
                      admitted := s'.admitted, late := s'.late)
    requires s'.running + Weight(s.th[t]) == s.running + Weight(s'.th[t])
    requires InHand(s'.th[t]) == InHand(s.th[t]) || InHand(s'.th[t]) == Reader
    requires LowBitBarrier(s'.th[t]) ==> s'.running == 1 || LowBitBarrier(s.th[t])
    requires s'.th[t].Drain? && s'.th[t].d.DrainBarrier? ==> IsBarrier(s'.th[t].d.item)
    requires s'.th[t].Drain? && (s'.th[t].d.RedirAdd? || s'.th[t].d.RedirGive?) ==> !IsBarrier(s'.th[t].d.item)
    ensures Inv(s')
  {
    SharersMove(s, s', t);
    assert s.owner == t;
    Unsignaled(s, t);
    hide InHand;
    assert RunningInv(s');
    if LowBitBarrier(s'.th[t]) && s'.running == 1 { NoSharers(s'); }
    assert Alone(s') by {
      forall u | u in s.th && u != t ensures Active(s', u) == Active(s, u) {}
    }
    assert OwnerInv(s');
    assert ItemsInv(s') by {
      forall i | 0 <= i < |s.items| ensures Waiting(s', s.items[i]) {
        assert Waiting(s, s.items[i]);
      }
    }
  }

  /** The owner leaves the list to nobody. */
  lemma OwnerLeaves(s: State, s': State, t: Tid)
    requires Inv(s) && Moved(s, s', t) && Owns(s.th[t])
    requires s' == s.(th := s'.th, running := s'.running, owner := NULL)
    requires s'.running + Weight(s.th[t]) == s.running
    requires s'.th[t] == Idle || s'.th[t] == Wake(WakeSuspend, Returns) || s'.th[t] == Door(InvUnlock)
    ensures Inv(s')
  {
    SharersMove(s, s', t);
    Unsignaled(s, t);
    assert ItemsInv(s') by {
      forall i | 0 <= i < |s.items| ensures Waiting(s', s.items[i]) {
        assert Waiting(s, s.items[i]);
      }
    }
  }

  /** The owner takes the first item off the list, or puts what it holds back in front. */
  lemma OwnerTakes(s: State, s': State, t: Tid)
    requires Inv(s) && Moved(s, s', t) && Owns(s.th[t]) && Owns(s'.th[t]) && s.items != []
    requires s' == s.(th := s'.th, items := s.items[1..])
    requires Weight(s'.th[t]) == Weight(s.th[t]) && InHand(s'.th[t]) == s.items[0]
    requires s'.th[t].Hold? || s'.th[t] == Drain(DrainSuspend(s.items[0]))
    requires LowBitBarrier(s'.th[t]) ==> LowBitBarrier(s.th[t])
    ensures Inv(s')
  {
    SharersMove(s, s', t);
    Unsignaled(s, t);
    hide InHand;
    assert Waiting(s, s.items[0]);
    forall i | 0 <= i < |s'.items| ensures Waiting(s', s'.items[i]) && !Clash(s.items[0], s'.items[i]) {
      assert s'.items[i] == s.items[i + 1] && Waiting(s, s.items[i + 1]);
    }
  }

  lemma OwnerPutsBack(s: State, s': State, t: Tid)
    requires Inv(s) && Moved(s, s', t) && s.th[t].Drain? && s.th[t].d.PutBack?
    requires s' == s.(th := s'.th, items := [s.th[t].d.item] + s.items) && s'.th[t] == Drain(InvDec(NULL))
    ensures Inv(s')
  {
    SharersMove(s, s', t);
    Unsignaled(s, t);
    var item := s.th[t].d.item;
    assert s.owner == t && Waiting(s, item);
    forall i | 0 <= i < |s'.items| ensures Waiting(s', s'.items[i]) {
      if i > 0 { assert s'.items[i] == s.items[i - 1] && Waiting(s, s.items[i - 1]); }
    }
    forall i, j | 0 <= i < j < |s'.items| ensures !Clash(s'.items[i], s'.items[j]) {
      assert s'.items[j] == s.items[j - 1];
      if i > 0 { assert s'.items[i] == s.items[i - 1]; }
    }
  }

  /** The signal passes the list, with a share of 2, to a waiting synchronous barrier. */
  lemma OwnerSignals(s: State, s': State, t: Tid, u: Tid)
    requires Inv(s) && Moved(s, s', t) && Owns(s.th[t])
    requires InHand(s.th[t]) == SyncBarrier(u) && Weight(s.th[t]) == 2
    requires s' == s.(th := s'.th, signaled := s.signaled + {u}, owner := u)
    requires s'.th[t] == Idle || s'.th[t] == Door(InvUnlock)
    ensures Inv(s')
  {
    Unsignaled(s, t);
    assert s.owner == t && Waiting(s, SyncBarrier(u));
    hide InHand;
    SharersSignal(s, s', t, u);
    forall i | 0 <= i < |s.items| ensures Waiting(s', s.items[i]) {
      assert Waiting(s, s.items[i]) && !Clash(SyncBarrier(u), s.items[i]);
    }
  }

  /** A drained reader is given its share: signalled, or sent to the target queue. */
  lemma OwnerRedirects(s: State, t: Tid, item: Item, width: nat)
    requires Inv(s) && t in s.th && s.th[t] == Drain(RedirGive(item))
    ensures Inv(StepDrain(s, t, RedirGive(item), width))
  {
    var s' := StepDrain(s, t, RedirGive(item), width);
    Unsignaled(s, t);
    assert s.owner == t && Waiting(s, item);
    if item.SyncReader? {
      SharersSignal(s, s', t, item.t);
    } else {
      SharersMove(s, s', t);
    }
    forall i | 0 <= i < |s.items| ensures Waiting(s', s.items[i]) {
      assert Waiting(s, s.items[i]) && !Clash(item, s.items[i]);
    }
  }

  lemma OwnerCounts(s: State, t: Tid)
    requires Inv(s) && t in s.th && Owns(s.th[t])
    ensures s.owner == t && s.running >= Weight(s.th[t])
  {
    hide ItemsInv, HandInv, Alone, PushInv;
  }

  /** What the owner does next, according to where it stands. */
  datatype Kind = Moves | Leaves | Takes | PutsBack | Signals | Redirects

  function KindOf(s: State, pc: Pc, call: Call): Kind {
    match pc
    case Hold(h) =>
      if h.FastDec? || h.SlowSubRunning? then Leaves
      else if h.HandSignal? then Signals
      else if h.OneHead? && call != Stalled && s.items != [] && s.items[0].SyncBarrier? then Takes
      else Moves
    case Drain(d) =>
      if d.InvDec? && d.sema < 0 then Leaves
      else if d.InvSignal? then Signals
      else if d.DrainTake? && s.items != [] then Takes
      else if d.PutBack? then PutsBack
      else if d.RedirGive? then Redirects
      else Moves
    case _ => Moves
  }

  lemma HoldMoves(s: State, t: Tid, h: HoldPc, call: Call)
    requires Inv(s) && t in s.th && s.th[t] == Hold(h) && KindOf(s, s.th[t], call) == Moves
    ensures Inv(StepHold(s, t, h, call))
  {
    hide Inv;
    OwnerMoves(s, StepHold(s, t, h, call), t);
  }

  lemma HoldKeeps(s: State, t: Tid, h: HoldPc, call: Call)
    requires Inv(s) && t in s.th && s.th[t] == Hold(h)
    ensures Inv(StepHold(s, t, h, call))
  {
    hide Inv;
    OwnerCounts(s, t);
    var s' := StepHold(s, t, h, call);
    match KindOf(s, s.th[t], call)
    case Leaves => OwnerLeaves(s, s', t);
    case Takes => OwnerTakes(s, s', t);
    case Signals => OwnerSignals(s, s', t, h.who);
    case _ => HoldMoves(s, t, h, call);
  }

  lemma DrainMoves(s: State, t: Tid, d: DrainPc, width: nat)
    requires Inv(s) && t in s.th && s.th[t] == Drain(d) && KindOf(s, s.th[t], Sync) == Moves
    requires d.DrainBarrier? ==> IsBarrier(d.item)
    requires d.RedirAdd? ==> !IsBarrier(d.item)
    requires s.running >= DrainWeight(d)
    ensures Inv(StepDrain(s, t, d, width))
  {
    hide Inv;
    OwnerMoves(s, StepDrain(s, t, d, width), t);
  }

  lemma DrainKeeps(s: State, t: Tid, d: DrainPc, width: nat)
    requires Inv(s) && t in s.th && s.th[t] == Drain(d)
    ensures Inv(StepDrain(s, t, d, width))
  {
    OwnerCounts(s, t);
    assert d.DrainBarrier? ==> IsBarrier(d.item);
    assert d.RedirAdd? ==> !IsBarrier(d.item);
    hide Inv;
    var s' := StepDrain(s, t, d, width);
    match KindOf(s, s.th[t], Sync)
    case Leaves => OwnerLeaves(s, s', t);
    case Takes => OwnerTakes(s, s', t);
    case PutsBack => OwnerPutsBack(s, s', t);
    case Signals => OwnerSignals(s, s', t, d.who);
    case Redirects => OwnerRedirects(s, t, d.item, width);
    case Moves => DrainMoves(s, t, d, width);
  }

  // ---------------------------------------------------------------------------------------------
  // The suspend word
  // ---------------------------------------------------------------------------------------------

  predicate HoldSuspends(h: HoldPc) {
    match h
    case HandRunning(_) | HandSignal(_) | SlowRun | SlowSuspend | SlowRunning | SlowSubSuspend => true
    case OneHead(fast) => !fast
    case _ => false
  }

  predicate DrainSuspends(d: DrainPc) {
    d.PopRunning? || (d.InvDec? && d.sema >= 0) || d.InvSignal?
  }

  /** Whether the owner has added a suspension of its own. */
  predicate OwnerSuspends(s: State) {
    s.owner in s.th &&
      match s.th[s.owner]
      case Hold(h) => HoldSuspends(h)
      case Drain(d) => DrainSuspends(d)
      case _ => true
  }

  predicate InInvoke(pc: Pc) {
    pc.Door? || pc.Drain?
  }

  predicate LockInv(s: State) {
    && (forall u :: u in s.th && InInvoke(s.th[u]) ==> s.lock == InvokedBy(u))
    && (s.lock.InvokedBy? ==> s.lock.t in s.th && InInvoke(s.th[s.lock.t]))
    && s.suspend == One(s.lock != Unlocked) + 2 * s.clients + 2 * One(OwnerSuspends(s))
  }

  lemma BeginLock(s: State, t: Tid, call: Call)
    requires OwnerInv(s) && LockInv(s) && t in s.th && s.th[t] == Idle
    ensures LockInv(Begin(s, t, call))
  {
  }

  lemma LockFrame(s: State, s': State, t: Tid)
    requires LockInv(s) && Moved(s, s', t) && InInvoke(s'.th[t]) == InInvoke(s.th[t])
    requires s'.lock == s.lock && s'.clients == s.clients
    requires s'.suspend + 2 * One(OwnerSuspends(s)) == s.suspend + 2 * One(OwnerSuspends(s'))
    ensures LockInv(s')
  {
  }

  /** Steps of threads that do not own the list do not change whether the owner suspends. */
  lemma SuspendsSame(s: State, s': State, t: Tid)
    requires Moved(s, s', t) && s'.owner == s.owner
    requires t == s.owner ==> !Owns(s.th[t]) && !Owns(s'.th[t])
    ensures OwnerSuspends(s') == OwnerSuspends(s)
  {
  }

  /** A step that changes neither the owner nor the suspend word. */
  lemma QuietLock(s: State, s': State, t: Tid)
    requires LockInv(s) && Moved(s, s', t) && InInvoke(s'.th[t]) == InInvoke(s.th[t])
    requires s'.owner == s.owner && s'.lock == s.lock && s'.clients == s.clients && s'.suspend == s.suspend
    requires !Owns(s.th[t]) && !Owns(s'.th[t])
    ensures LockInv(s')
  {
    hide LockInv;
    SuspendsSame(s, s', t);
    LockFrame(s, s', t);
  }

  lemma PushLock(s: State, t: Tid, item: Item)
    requires LockInv(s) && t in s.th && s.th[t] == Push(item)
    ensures LockInv(StepPush(s, t, item))
  {
    hide LockInv;
    QuietLock(s, StepPush(s, t, item), t);
  }

  lemma AskLock(s: State, t: Tid, a: AskPc, width: nat)
    requires LockInv(s) && t in s.th && s.th[t] == Ask(a) && (a != FastLock || s.running != 0)
    ensures LockInv(StepAsk(s, t, a, width))
  {
    hide LockInv;
    QuietLock(s, StepAsk(s, t, a, width), t);
  }

  lemma ShareLock(s: State, t: Tid, p: SharePc)
    requires LockInv(s) && t in s.th && s.th[t] == Share(p)
    ensures LockInv(StepShare(s, t, p))
  {
    hide LockInv;
    QuietLock(s, StepShare(s, t, p), t);
  }

  lemma CheckLock(s: State, t: Tid, call: Call, width: nat)
    requires LockInv(s) && t in s.th && s.th[t] == InvCheck
    ensures LockInv(Step(s, t, call, width))
  {
    hide LockInv;
    QuietLock(s, Step(s, t, call, width), t);
  }

  /** Taking the running word from zero. */
  lemma AcquireLock(s: State, t: Tid, call: Call, width: nat)
    requires LockInv(s) && t in s.th && s.running == 0 && s.owner == NULL
    requires s.th[t] == Ask(FastLock) || s.th[t] == Door(InvLock)
    ensures LockInv(Step(s, t, call, width))
  {
    var s' := Step(s, t, call, width);
    assert !OwnerSuspends(s) && !OwnerSuspends(s');
    hide LockInv, OwnerSuspends;
    LockFrame(s, s', t);
  }

  lemma WaitLock(s: State, t: Tid)
    requires OwnerInv(s) && LockInv(s) && t in s.th && s.th[t].Wait?
    ensures LockInv(StepWait(s, t, s.th[t].after))
  {
    hide LockInv;
    LockFrame(s, StepWait(s, t, s.th[t].after), t);
  }

  lemma WakeLockKeeps(s: State, t: Tid)
    requires LockInv(s) && t in s.th && s.th[t].Wake?
    ensures LockInv(StepWake(s, t, s.th[t].w, s.th[t].after))
  {
    var s' := StepWake(s, t, s.th[t].w, s.th[t].after);
    if s.th[t].w == WakeLock && s.suspend == 0 {
      SuspendsSame(s, s', t);
      hide OwnerSuspends;
    } else {
      hide LockInv;
      QuietLock(s, s', t);
    }
  }

  lemma DoorLock(s: State, t: Tid)
    requires LockInv(s) && t in s.th && s.th[t].Door? && (s.th[t].i != InvLock || s.running != 0)
    ensures LockInv(StepDoor(s, t, s.th[t].i))
  {
    var s' := StepDoor(s, t, s.th[t].i);
    if s.th[t].i == InvUnlock {
      SuspendsSame(s, s', t);
      hide OwnerSuspends;
    } else {
      hide LockInv;
      QuietLock(s, s', t);
    }
  }

  lemma HoldLock(s: State, t: Tid, h: HoldPc, call: Call)
    requires LockInv(s) && t in s.th && s.th[t] == Hold(h) && s.owner == t && Waiting(s, InHand(s.th[t]))
    ensures LockInv(StepHold(s, t, h, call))
  {
    var s' := StepHold(s, t, h, call);
    assert OwnerSuspends(s) == HoldSuspends(h);
    assert h == SlowSubSuspend ==> s.suspend >= 2;
    HoldNext(s, t, h, call);
    hide LockInv, OwnerSuspends, StepHold;
    LockFrame(s, s', t);
  }

  /** The suspend word follows the owner's part in it. */
  lemma HoldNext(s: State, t: Tid, h: HoldPc, call: Call)
    requires t in s.th && s.th[t] == Hold(h) && s.owner == t && Waiting(s, InHand(s.th[t]))
    requires h == SlowSubSuspend ==> s.suspend >= 2
    ensures var s' := StepHold(s, t, h, call);
            && Moved(s, s', t) && !InInvoke(s'.th[t]) && s'.lock == s.lock && s'.clients == s.clients
            && s'.suspend + 2 * One(HoldSuspends(h)) == s.suspend + 2 * One(OwnerSuspends(s'))
  {
  }

  lemma DrainLock(s: State, t: Tid, d: DrainPc, width: nat)
    requires LockInv(s) && t in s.th && s.th[t] == Drain(d) && s.owner == t && Waiting(s, InHand(s.th[t]))
    ensures LockInv(StepDrain(s, t, d, width))
  {
    var s' := StepDrain(s, t, d, width);
    assert OwnerSuspends(s) == DrainSuspends(d);
    DrainNext(s, t, d, width);
    hide LockInv, OwnerSuspends, StepDrain;
    LockFrame(s, s', t);
  }

  lemma DrainNext(s: State, t: Tid, d: DrainPc, width: nat)
    requires t in s.th && s.th[t] == Drain(d) && s.owner == t && Waiting(s, InHand(s.th[t]))
    ensures var s' := StepDrain(s, t, d, width);
            && Moved(s, s', t) && InInvoke(s'.th[t]) && s'.lock == s.lock && s'.clients == s.clients
            && s'.suspend + 2 * One(DrainSuspends(d)) == s.suspend + 2 * One(OwnerSuspends(s'))
  {
  }

  // ---------------------------------------------------------------------------------------------
  // Readers beside a handed-over barrier
  // ---------------------------------------------------------------------------------------------

  /** Let in, or past the suspension test and about to ask. */
  predicate Loose(s: State, u: Tid)
    requires u in s.th
  {
    Adding(s.th[u]) || Active(s, u)
  }

  function LooseOnes(s: State): set<Tid> {
    set u | u in s.th && Loose(s, u)
  }

  /** A synchronous reader, which runs its item itself. */
  predicate SyncLoose(s: State, u: Tid)
    requires u in s.th
  {
    s.th[u] == Ask(SyncAdd) || s.th[u] == Share(SyncRun) || s.th[u] == Share(SyncSub)
    || (u in s.signaled && Awaits(s.th[u], AwaitsReader))
  }

  /** While a barrier is handed over, readers come only from those past their test when it was suspended for. */
  predicate SlipInv(s: State) {
    OwnerSuspends(s) ==>
      && |LooseOnes(s)| + s.redirected <= s.late
      && forall u :: u in s.th && SyncLoose(s, u) ==> u in s.admitted
  }

  lemma SlipFrame(s: State, s': State, t: Tid)
    requires SlipInv(s) && Moved(s, s', t) && s'.admitted == s.admitted && s'.late == s.late
    requires OwnerSuspends(s') ==> OwnerSuspends(s)
    requires forall u :: u in s.th && u != t ==> Loose(s', u) == Loose(s, u) && SyncLoose(s', u) == SyncLoose(s, u)
    requires One(Loose(s', t)) + s'.redirected <= One(Loose(s, t)) + s.redirected
    requires SyncLoose(s', t) ==> SyncLoose(s, t)
    ensures SlipInv(s')
  {
    hide OwnerSuspends, Loose, SyncLoose, LooseOnes;
    LooseMove(s, s', t);
  }

  lemma LooseMove(s: State, s': State, t: Tid)
    requires Moved(s, s', t) && forall u :: u in s.th && u != t ==> Loose(s', u) == Loose(s, u)
    ensures |LooseOnes(s')| == |LooseOnes(s)| - One(Loose(s, t)) + One(Loose(s', t))
  {
    hide Loose;
    assert LooseOnes(s') - {t} == LooseOnes(s) - {t};
    Without(LooseOnes(s), t);
    Without(LooseOnes(s'), t);
  }

  /** A signal to a barrier lets no reader in. */
  lemma OthersSame(s: State, s': State, t: Tid)
    requires Moved(s, s', t)
    requires forall u :: u in s.th && u != t ==>
               (u in s'.signaled <==> u in s.signaled) || Awaits(s.th[u], AwaitsBarrier)
    ensures forall u :: u in s.th && u != t ==> Loose(s', u) == Loose(s, u) && SyncLoose(s', u) == SyncLoose(s, u)
  {
  }

  /** A step of a thread that does not own the list. */
  lemma QuietSlip(s: State, s': State, t: Tid)
    requires SlipInv(s) && Moved(s, s', t) && s'.admitted == s.admitted && s'.late == s.late && s'.owner == s.owner
    requires !Owns(s.th[t]) && (Owns(s'.th[t]) ==> s'.th[t] == Hold(SlowRun) && t == s.owner)
    requires forall u :: u in s.th && u != t ==> (u in s'.signaled <==> u in s.signaled)
    requires One(Loose(s', t)) + s'.redirected <= One(Loose(s, t)) + s.redirected
    requires SyncLoose(s', t) ==> SyncLoose(s, t)
    ensures SlipInv(s')
  {
    OthersSame(s, s', t);
    assert OwnerSuspends(s') ==> OwnerSuspends(s);
    hide SlipInv, OwnerSuspends, Loose, SyncLoose;
    SlipFrame(s, s', t);
  }

  /** While the owner suspends, the queue is seen to be suspended. */
  lemma SeenSuspended(s: State)
    requires LockInv(s) && OwnerSuspends(s)
    ensures Suspended(s)
  {
  }

  lemma BeginSlip(s: State, t: Tid, call: Call)
    requires SlipInv(s) && t in s.th && s.th[t] == Idle && t !in s.signaled
    ensures SlipInv(Begin(s, t, call))
  {
    hide SlipInv;
    QuietSlip(s, Begin(s, t, call), t);
  }

  lemma ShareSlip(s: State, t: Tid, p: SharePc)
    requires SlipInv(s) && t in s.th && s.th[t] == Share(p) && t !in s.signaled
    ensures SlipInv(StepShare(s, t, p))
  {
    hide SlipInv;
    QuietSlip(s, StepShare(s, t, p), t);
  }

  lemma PushSlip(s: State, t: Tid, item: Item)
    requires SlipInv(s) && t in s.th && s.th[t] == Push(item) && t !in s.signaled
    ensures SlipInv(StepPush(s, t, item))
  {
    hide SlipInv;
    QuietSlip(s, StepPush(s, t, item), t);
  }

  lemma WakeSlip(s: State, t: Tid)
    requires SlipInv(s) && t in s.th && s.th[t].Wake?
    ensures SlipInv(StepWake(s, t, s.th[t].w, s.th[t].after))
  {
    hide SlipInv;
    QuietSlip(s, StepWake(s, t, s.th[t].w, s.th[t].after), t);
  }

  lemma WaitSlip(s: State, t: Tid)
    requires SlipInv(s) && OwnerInv(s) && t in s.th && s.th[t].Wait?
    ensures SlipInv(StepWait(s, t, s.th[t].after))
  {
    hide SlipInv;
    QuietSlip(s, StepWait(s, t, s.th[t].after), t);
  }

  lemma DoorSlip(s: State, t: Tid)
    requires SlipInv(s) && t in s.th && s.th[t].Door? && t !in s.signaled && (s.th[t].i != InvLock || s.running != 0)
    ensures SlipInv(StepDoor(s, t, s.th[t].i))
  {
    hide SlipInv;
    QuietSlip(s, StepDoor(s, t, s.th[t].i), t);
  }

  lemma CheckSlip(s: State, t: Tid, call: Call, width: nat)
    requires SlipInv(s) && t in s.th && s.th[t] == InvCheck && t !in s.signaled
    ensures SlipInv(Step(s, t, call, width))
  {
    hide SlipInv;
    QuietSlip(s, Step(s, t, call, width), t);
  }

  /** A reader that tests now is sent to the list; one past the test may be let in. */
  lemma AskSlip(s: State, t: Tid, a: AskPc, width: nat)
    requires SlipInv(s) && LockInv(s) && t in s.th && s.th[t] == Ask(a)
    requires t !in s.signaled && (a != FastLock || s.running != 0)
    ensures SlipInv(StepAsk(s, t, a, width))
  {
    var s' := StepAsk(s, t, a, width);
    SuspendsSame(s, s', t);
    if OwnerSuspends(s) {
      SeenSuspended(s);
      hide SlipInv, LockInv, OwnerSuspends;
      QuietSlip(s, s', t);
    }
  }

  lemma AcquireSlip(s: State, t: Tid, call: Call, width: nat)
    requires t in s.th && s.running == 0 && (s.th[t] == Ask(FastLock) || s.th[t] == Door(InvLock))
    ensures SlipInv(Step(s, t, call, width))
  {
  }

  /** The step that suspends the queue for a barrier notes who is past the test; nobody has been let in. */
  lemma SuspendSlip(s: State, s': State, t: Tid)
    requires Alone(s) && t in s.th && s.owner == t && LowBitBarrier(s.th[t]) && Moved(s, s', t)
    requires s' == s.(th := s'.th, suspend := s'.suspend, admitted := SyncAdders(s), late := |Adders(s)|)
    requires Owns(s.th[t]) && Owns(s'.th[t]) && t !in s.signaled
    ensures SlipInv(s')
  {
    forall u | u in s'.th ensures Loose(s', u) <==> u in Adders(s) {
      assert !Active(s, u);
    }
    assert LooseOnes(s') == Adders(s);
    forall u | u in s'.th && SyncLoose(s', u) ensures u in SyncAdders(s) {
      assert !Active(s, u);
    }
  }

  lemma HoldSlip(s: State, t: Tid, h: HoldPc, call: Call)
    requires SlipInv(s) && Alone(s) && t in s.th && s.th[t] == Hold(h) && s.owner == t && Waiting(s, InHand(s.th[t]))
    requires t !in s.signaled
    ensures SlipInv(StepHold(s, t, h, call))
  {
    var s' := StepHold(s, t, h, call);
    if h.HandSuspend? {
      SuspendSlip(s, s', t);
    } else {
      HoldQuiet(s, t, h, call);
      OthersSame(s, s', t);
      hide SlipInv, OwnerSuspends, Loose, SyncLoose, StepHold;
      SlipFrame(s, s', t);
    }
  }

  lemma HoldQuiet(s: State, t: Tid, h: HoldPc, call: Call)
    requires t in s.th && s.th[t] == Hold(h) && s.owner == t && Waiting(s, InHand(s.th[t]))
    requires !h.HandSuspend? && t !in s.signaled
    ensures var s' := StepHold(s, t, h, call);
            && Moved(s, s', t) && s'.admitted == s.admitted && s'.late == s.late && s'.redirected == s.redirected
            && (OwnerSuspends(s') ==> OwnerSuspends(s)) && !Loose(s', t) && !SyncLoose(s', t)
            && forall u :: u in s.th && u != t ==>
                 (u in s'.signaled <==> u in s.signaled) || Awaits(s.th[u], AwaitsBarrier)
  {
  }

  lemma DrainSlip(s: State, t: Tid, d: DrainPc, width: nat)
    requires SlipInv(s) && Alone(s) && t in s.th && s.th[t] == Drain(d) && s.owner == t && Waiting(s, InHand(s.th[t]))
    requires t !in s.signaled
    ensures SlipInv(StepDrain(s, t, d, width))
  {
    var s' := StepDrain(s, t, d, width);
    if d.PopSuspend? {
      SuspendSlip(s, s', t);
    } else if DrainSuspends(d) {
      DrainQuiet(s, t, d, width);
      OthersSame(s, s', t);
      hide SlipInv, OwnerSuspends, Loose, SyncLoose, StepDrain;
      SlipFrame(s, s', t);
    } else {
      assert !OwnerSuspends(s');
    }
  }

  lemma DrainQuiet(s: State, t: Tid, d: DrainPc, width: nat)
    requires t in s.th && s.th[t] == Drain(d) && s.owner == t && Waiting(s, InHand(s.th[t]))
    requires DrainSuspends(d) && t !in s.signaled
    ensures var s' := StepDrain(s, t, d, width);
            && Moved(s, s', t) && s'.admitted == s.admitted && s'.late == s.late && s'.redirected == s.redirected
            && OwnerSuspends(s) && !Loose(s', t) && !SyncLoose(s', t)
            && forall u :: u in s.th && u != t ==>
                 (u in s'.signaled <==> u in s.signaled) || Awaits(s.th[u], AwaitsBarrier)
  {
  }

  lemma StepSlip(s: State, t: Tid, call: Call, width: nat)
    requires Inv(s) && LockInv(s) && SlipInv(s) && t in s.th
    ensures SlipInv(Step(s, t, call, width))
  {
    if !s.th[t].Wake? && !s.th[t].Wait? { Unsignaled(s, t); }
    if Owns(s.th[t]) { OwnerHolds(s, t); }
    hide SlipInv, LockInv, OwnerInv, RunningInv, ItemsInv, HandInv, Alone, PushInv;
    hide Begin, StepPush, StepWake, StepWait, StepAsk, StepShare, StepDoor, StepHold, StepDrain;
    match s.th[t]
    case Idle => BeginSlip(s, t, call);
    case Push(item) => PushSlip(s, t, item);
    case Wake(_, _) => WakeSlip(s, t);
    case Wait(_) => WaitSlip(s, t);
    case Ask(a) =>
      if a == FastLock && s.running == 0 { AcquireSlip(s, t, call, width); } else { AskSlip(s, t, a, width); }
    case Share(p) => ShareSlip(s, t, p);
    case Door(i) =>
      if i == InvLock && s.running == 0 { AcquireSlip(s, t, call, width); } else { DoorSlip(s, t); }
    case InvCheck => CheckSlip(s, t, call, width);
    case Hold(h) => HoldSlip(s, t, h, call);
    case Drain(d) => DrainSlip(s, t, d, width);
  }

  /**
    On a queue of width below 4 the barrier's own share leaves no room for an asynchronous reader: beside a
    hand-over only synchronous ones are let in.
  */
  predicate NarrowInv(s: State, width: nat) {
    width < 4 && OwnerSuspends(s) ==>
      s.redirected == 0 && forall u :: u in s.th && Active(s, u) ==> SyncLoose(s, u)
  }

  /** Whether the moved thread keeps to it. */
  predicate NarrowStep(s: State, s': State, t: Tid, width: nat)
    requires t in s'.th
  {
    width < 4 && OwnerSuspends(s) ==> s'.redirected == 0 && (Active(s', t) ==> SyncLoose(s', t))
  }

  lemma NarrowFrame(s: State, s': State, t: Tid, width: nat)
    requires NarrowInv(s, width) && Moved(s, s', t) && (OwnerSuspends(s') ==> OwnerSuspends(s))
    requires NarrowStep(s, s', t, width)
    requires forall u :: u in s.th && u != t ==>
               (u in s'.signaled <==> u in s.signaled) || Awaits(s.th[u], AwaitsBarrier)
    ensures NarrowInv(s', width)
  {
    hide OwnerSuspends;
    forall u | u in s.th && u != t ensures Active(s', u) == Active(s, u) && SyncLoose(s', u) == SyncLoose(s, u) {
    }
  }

  lemma SuspendsWeight(s: State)
    requires OwnerInv(s) && RunningInv(s) && OwnerSuspends(s)
    ensures s.running > 0
  {
  }

  lemma AskNarrow(s: State, t: Tid, a: AskPc, width: nat)
    requires OwnerInv(s) && RunningInv(s) && NarrowInv(s, width) && t in s.th && s.th[t] == Ask(a)
    requires t !in s.signaled && (a != FastLock || s.running != 0)
    ensures NarrowInv(StepAsk(s, t, a, width), width)
  {
    var s' := StepAsk(s, t, a, width);
    SuspendsSame(s, s', t);
    if OwnerSuspends(s) {
      SuspendsWeight(s);
      hide OwnerInv, RunningInv, OwnerSuspends;
      NarrowFrame(s, s', t, width);
    }
  }

  lemma ShareNarrow(s: State, t: Tid, p: SharePc, width: nat)
    requires NarrowInv(s, width) && t in s.th && s.th[t] == Share(p) && t !in s.signaled
    ensures NarrowInv(StepShare(s, t, p), width)
  {
    var s' := StepShare(s, t, p);
    SuspendsSame(s, s', t);
    if OwnerSuspends(s) && width < 4 {
      assert Active(s, t) ==> SyncLoose(s, t);
      hide NarrowInv, OwnerSuspends;
      NarrowFrame(s, s', t, width);
    }
  }

  lemma BeginNarrow(s: State, t: Tid, call: Call, width: nat)
    requires NarrowInv(s, width) && t in s.th && s.th[t] == Idle && t !in s.signaled
    ensures NarrowInv(Begin(s, t, call), width)
  {
    var s' := Begin(s, t, call);
    BeginThreads(s, t, call);
    SuspendsSame(s, s', t);
    if OwnerSuspends(s) && width < 4 {
      assert s.redirected == 0;
      hide NarrowInv, OwnerSuspends;
      NarrowFrame(s, s', t, width);
    }
  }

  /** The remaining steps of threads that do not own the list let nobody in. */
  lemma QuietNarrow(s: State, t: Tid, call: Call, width: nat)
    requires OwnerInv(s) && NarrowInv(s, width) && t in s.th
    requires s.th[t].Push? || s.th[t].Wake? || s.th[t].Wait? || s.th[t].InvCheck?
             || (s.th[t].Door? && (s.th[t].i != InvLock || s.running != 0))
    ensures NarrowInv(Step(s, t, call, width), width)
  {
    var s' := Step(s, t, call, width);
    QuietThreads(s, t, call, width);
    assert OwnerSuspends(s') ==> OwnerSuspends(s);
    if OwnerSuspends(s) && width < 4 {
      assert s.redirected == 0 && (Active(s, t) ==> SyncLoose(s, t));
      hide NarrowInv, OwnerSuspends;
      NarrowFrame(s, s', t, width);
    }
  }

  lemma HoldNarrow(s: State, t: Tid, h: HoldPc, call: Call, width: nat)
    requires NarrowInv(s, width) && Alone(s) && t in s.th && s.th[t] == Hold(h) && s.owner == t
    requires Waiting(s, InHand(s.th[t])) && t !in s.signaled
    ensures NarrowInv(StepHold(s, t, h, call), width)
  {
    var s' := StepHold(s, t, h, call);
    if h.HandSuspend? {
      SuspendNarrow(s, s', t, width);
    } else {
      HoldQuiet(s, t, h, call);
      assert OwnerSuspends(s) && width < 4 ==> s.redirected == 0;
      hide NarrowInv, OwnerSuspends, StepHold;
      NarrowFrame(s, s', t, width);
    }
  }

  lemma DrainNarrow(s: State, t: Tid, d: DrainPc, width: nat)
    requires NarrowInv(s, width) && Alone(s) && t in s.th && s.th[t] == Drain(d) && s.owner == t
    requires Waiting(s, InHand(s.th[t])) && t !in s.signaled
    ensures NarrowInv(StepDrain(s, t, d, width), width)
  {
    var s' := StepDrain(s, t, d, width);
    if d.PopSuspend? {
      SuspendNarrow(s, s', t, width);
    } else if DrainSuspends(d) {
      DrainQuiet(s, t, d, width);
      assert width < 4 ==> s.redirected == 0;
      hide NarrowInv, OwnerSuspends, StepDrain;
      NarrowFrame(s, s', t, width);
    } else {
      assert !OwnerSuspends(s');
    }
  }

  lemma SuspendNarrow(s: State, s': State, t: Tid, width: nat)
    requires Alone(s) && t in s.th && s.owner == t && LowBitBarrier(s.th[t]) && Moved(s, s', t)
    requires s' == s.(th := s'.th, suspend := s'.suspend, admitted := s'.admitted, late := s'.late)
    requires Owns(s.th[t]) && Owns(s'.th[t]) && t !in s.signaled
    ensures NarrowInv(s', width)
  {
    forall u | u in s'.th ensures !Active(s', u) {
      assert !Active(s, u);
    }
  }

  lemma StepNarrow(s: State, t: Tid, call: Call, width: nat)
    requires Inv(s) && NarrowInv(s, width) && t in s.th
    ensures NarrowInv(Step(s, t, call, width), width)
  {
    if !s.th[t].Wake? && !s.th[t].Wait? { Unsignaled(s, t); }
    if Owns(s.th[t]) { OwnerHolds(s, t); }
    hide NarrowInv, OwnerInv, RunningInv, ItemsInv, HandInv, Alone, PushInv;
    hide Begin, StepAsk, StepShare, StepHold, StepDrain;
    match s.th[t]
    case Idle => BeginNarrow(s, t, call, width);
    case Ask(a) =>
      if a == FastLock && s.running == 0 { AcquireNarrow(s, t, call, width); } else { AskNarrow(s, t, a, width); }
    case Share(p) => ShareNarrow(s, t, p, width);
    case Door(i) =>
      if i == InvLock && s.running == 0 { AcquireNarrow(s, t, call, width); } else { QuietNarrow(s, t, call, width); }
    case Hold(h) => HoldNarrow(s, t, h, call, width);
    case Drain(d) => DrainNarrow(s, t, d, width);
    case _ => QuietNarrow(s, t, call, width);
  }

  lemma AcquireNarrow(s: State, t: Tid, call: Call, width: nat)
    requires t in s.th && s.running == 0 && (s.th[t] == Ask(FastLock) || s.th[t] == Door(InvLock))
    ensures NarrowInv(Step(s, t, call, width), width)
  {
  }

  // ---------------------------------------------------------------------------------------------
  // Every run
  // ---------------------------------------------------------------------------------------------

  lemma AcquireKeeps(s: State, t: Tid, call: Call, width: nat)
    requires Inv(s) && t in s.th && s.running == 0
    requires s.th[t] == Ask(FastLock) || s.th[t] == Door(InvLock)
    ensures Inv(Step(s, t, call, width))
  {
    AskersUnsignaled(s, t);
    hide Inv;
    Acquire(s, Step(s, t, call, width), t);
  }

  lemma StepInv(s: State, t: Tid, call: Call, width: nat)
    requires Inv(s) && t in s.th
    ensures Inv(Step(s, t, call, width))
  {
    hide Inv, Begin, StepPush, StepWake, StepWait, StepAsk, StepShare, StepDoor, StepHold, StepDrain;
    match s.th[t]
    case Idle => BeginKeeps(s, t, call);
    case Push(item) => PushKeeps(s, t, item);
    case Wake(_, _) => WakeKeeps(s, t);
    case Wait(_) => WaitKeeps(s, t);
    case Ask(a) =>
      if a == FastLock && s.running == 0 { AcquireKeeps(s, t, call, width); } else { AskKeeps(s, t, width); }
    case Share(p) => ShareKeeps(s, t, p);
    case Door(i) =>
      if i == InvLock && s.running == 0 { AcquireKeeps(s, t, call, width); } else { DoorKeeps(s, t); }
    case InvCheck => CheckKeeps(s, t, call, width);
    case Hold(h) => HoldKeeps(s, t, h, call);
    case Drain(d) => DrainKeeps(s, t, d, width);
  }

  lemma BeginThreads(s: State, t: Tid, call: Call)
    requires t in s.th && s.th[t] == Idle
    ensures Moved(s, Begin(s, t, call), t)
  {
  }

  lemma ShareThreads(s: State, t: Tid, p: SharePc)
    requires t in s.th
    ensures Moved(s, StepShare(s, t, p), t)
  {
  }

  lemma HoldThreads(s: State, t: Tid, h: HoldPc, call: Call)
    requires t in s.th
    ensures Moved(s, StepHold(s, t, h, call), t)
  {
  }

  lemma DrainThreads(s: State, t: Tid, d: DrainPc, width: nat)
    requires t in s.th
    ensures Moved(s, StepDrain(s, t, d, width), t)
  {
  }

  lemma QuietThreads(s: State, t: Tid, call: Call, width: nat)
    requires t in s.th
    requires s.th[t].Push? || s.th[t].Wake? || s.th[t].Wait? || s.th[t].Ask? || s.th[t].Door? || s.th[t].InvCheck?
    ensures Moved(s, Step(s, t, call, width), t)
  {
  }

  /** A step moves one thread. */
  lemma StepThreads(s: State, t: Tid, call: Call, width: nat)
    requires t in s.th
    ensures Moved(s, Step(s, t, call, width), t) && Step(s, t, call, width).th.Keys == s.th.Keys
  {
    hide Begin, StepPush, StepWake, StepWait, StepAsk, StepShare, StepDoor, StepHold, StepDrain;
    match s.th[t]
    case Idle => BeginThreads(s, t, call);
    case Share(p) => ShareThreads(s, t, p);
    case Hold(h) => HoldThreads(s, t, h, call);
    case Drain(d) => DrainThreads(s, t, d, width);
    case _ => QuietThreads(s, t, call, width);
  }

  lemma AskersUnsignaled(s: State, t: Tid)
    requires Inv(s) && t in s.th
    ensures s.th[t].Ask? || s.th[t].Door? ==> t !in s.signaled
    ensures s.running == 0 ==> s.owner == NULL
  {
    hide ItemsInv, HandInv, Alone, PushInv;
  }

  lemma StepLock(s: State, t: Tid, call: Call, width: nat)
    requires Inv(s) && LockInv(s) && t in s.th
    ensures LockInv(Step(s, t, call, width))
  {
    AskersUnsignaled(s, t);
    if Owns(s.th[t]) { OwnerHolds(s, t); }
    hide LockInv, OwnerInv, RunningInv, ItemsInv, HandInv, Alone, PushInv;
    hide Begin, StepPush, StepWake, StepWait, StepAsk, StepShare, StepDoor, StepHold, StepDrain;
    match s.th[t]
    case Idle => BeginLock(s, t, call);
    case Push(item) => PushLock(s, t, item);
    case Wake(_, _) => WakeLockKeeps(s, t);
    case Wait(_) => WaitLock(s, t);
    case Ask(a) =>
      if a == FastLock && s.running == 0 { AcquireLock(s, t, call, width); } else { AskLock(s, t, a, width); }
    case Share(p) => ShareLock(s, t, p);
    case Door(i) =>
      if i == InvLock && s.running == 0 { AcquireLock(s, t, call, width); } else { DoorLock(s, t); }
    case InvCheck => CheckLock(s, t, call, width);
    case Hold(h) => HoldLock(s, t, h, call);
    case Drain(d) => DrainLock(s, t, d, width);
  }

  lemma OwnerHolds(s: State, t: Tid)
    requires OwnerInv(s) && HandInv(s) && t in s.th && Owns(s.th[t])
    ensures s.owner == t && Waiting(s, InHand(s.th[t]))
  {
  }

  lemma {:induction false} RunKeeps(s: State, schedule: seq<(Tid, Call)>, width: nat)
    requires Inv(s) && LockInv(s) && SlipInv(s) && NarrowInv(s, width)
    ensures Inv(Run(s, schedule, width)) && LockInv(Run(s, schedule, width)) && SlipInv(Run(s, schedule, width))
    ensures NarrowInv(Run(s, schedule, width), width) && Run(s, schedule, width).th.Keys == s.th.Keys
    decreases |schedule|
  {
    hide Inv, LockInv, SlipInv, NarrowInv, Step;
    if schedule != [] {
      var (t, call) := schedule[0];
      if t in s.th {
        StepInv(s, t, call, width);
        StepThreads(s, t, call, width);
        StepLock(s, t, call, width);
        StepSlip(s, t, call, width);
        StepNarrow(s, t, call, width);
      }
      RunKeeps(if t in s.th then Step(s, t, call, width) else s, schedule[1..], width);
    }
  }

  function Reached(threads: set<Tid>, schedule: seq<(Tid, Call)>, width: nat): State {
    Run(Init(threads), schedule, width)
  }

  lemma ReachedInv(threads: set<Tid>, schedule: seq<(Tid, Call)>, width: nat)
    ensures Inv(Reached(threads, schedule, width)) && LockInv(Reached(threads, schedule, width))
    ensures SlipInv(Reached(threads, schedule, width)) && NarrowInv(Reached(threads, schedule, width), width)
    ensures Reached(threads, schedule, width).th.Keys == threads
  {
    InitInv(threads);
    assert LockInv(Init(threads)) && SlipInv(Init(threads)) && NarrowInv(Init(threads), width);
    hide Inv, LockInv, SlipInv, NarrowInv;
    RunKeeps(Init(threads), schedule, width);
  }

  datatype BarrierKind = Inline | FastSync | SlowSync

  /** A thread inside a barrier item of the given kind. */
  predicate InBarrier(pc: Pc, kind: BarrierKind) {
    match kind
    case Inline => pc == Drain(DrainRun)
    case FastSync => pc == Hold(FastRun)
    case SlowSync => pc == Hold(SlowRun)
  }

  /** A thread inside an item that is not a barrier. */
  predicate InReader(pc: Pc) {
    pc == Share(SyncRun) || pc == Share(RedirRun)
  }

  /** Two barriers, of whatever kinds, never overlap. */
  lemma BarriersExclude(threads: set<Tid>, schedule: seq<(Tid, Call)>, width: nat,
                        t: Tid, u: Tid, kind: BarrierKind, kind': BarrierKind)
    requires t in threads && u in threads
    ensures var s := Reached(threads, schedule, width);
            t in s.th && u in s.th && (InBarrier(s.th[t], kind) && InBarrier(s.th[u], kind') ==> t == u)
  {
    ReachedInv(threads, schedule, width);
    hide Run, Reached, Init, LockInv, SlipInv, NarrowInv;
  }

  /** Nothing else executes, or is even let in, while a barrier runs with the low bit held. */
  lemma LowBitExcludesReaders(threads: set<Tid>, schedule: seq<(Tid, Call)>, width: nat,
                              t: Tid, u: Tid, kind: BarrierKind)
    requires t in threads && u in threads && kind != SlowSync
    ensures var s := Reached(threads, schedule, width);
            && t in s.th && u in s.th
            && (InBarrier(s.th[t], kind) ==> !InReader(s.th[u]) && !Active(s, u) && s.redirected == 0)
  {
    ReachedInv(threads, schedule, width);
    hide Run, Reached, Init, LockInv, SlipInv, NarrowInv;
  }

  /**
    A reader can overlap a handed-over barrier only if it made its suspension test before: while that
    barrier runs the queue is suspended, so a reader that asks now is sent to the list.
  */
  lemma SlowBarrierStopsNewReaders(threads: set<Tid>, schedule: seq<(Tid, Call)>, width: nat,
                                   t: Tid, u: Tid, call: Call)
    requires t in threads && u in threads
    ensures var s := Reached(threads, schedule, width);
            && t in s.th && u in s.th
            && (InBarrier(s.th[t], SlowSync)
                && (s.th[u] == Ask(AsyncSuspend) || s.th[u] == Ask(SyncSuspend) || s.th[u] == Ask(FastSuspend)) ==>
                  Step(s, u, call, width).th[u].Push?)
  {
    ReachedInv(threads, schedule, width);
    hide Run, Reached, Init, SlipInv, NarrowInv;
    SuspendedWhileSlow(Reached(threads, schedule, width), t);
  }

  lemma SuspendedWhileSlow(s: State, t: Tid)
    requires Inv(s) && LockInv(s) && t in s.th
    ensures s.th[t] == Hold(SlowRun) ==> Suspended(s)
  {
    hide RunningInv, ItemsInv, HandInv, Alone, PushInv;
  }

  function Readers(s: State): set<Tid> {
    set u | u in s.th && InReader(s.th[u])
  }

  /**
    Beside a handed-over barrier there are no more readers than were past their test when the queue was
    suspended for it, and every synchronous one was among them; if there were none, nobody is let in.
  */
  lemma OnlyLateReadersSlipIn(threads: set<Tid>, schedule: seq<(Tid, Call)>, width: nat, t: Tid)
    requires t in threads
    ensures var s := Reached(threads, schedule, width);
            && t in s.th
            && (InBarrier(s.th[t], SlowSync) ==>
                  && |Readers(s)| <= s.late
                  && (forall u :: u in s.th && s.th[u] == Share(SyncRun) ==> u in s.admitted)
                  && (s.late == 0 ==> s.redirected == 0 && forall u :: u in s.th ==> !Active(s, u)))
  {
    ReachedInv(threads, schedule, width);
    var s := Reached(threads, schedule, width);
    hide Run, Reached, Init, LockInv;
    if InBarrier(s.th[t], SlowSync) { OnlyLate(s, t); }
  }

  lemma OnlyLate(s: State, t: Tid)
    requires OwnerInv(s) && SlipInv(s) && t in s.th && s.th[t] == Hold(SlowRun)
    ensures |Readers(s)| <= s.late
    ensures forall u :: u in s.th && s.th[u] == Share(SyncRun) ==> u in s.admitted
    ensures s.late == 0 ==> s.redirected == 0 && forall u :: u in s.th ==> !Active(s, u)
  {
    assert OwnerSuspends(s);
    assert Readers(s) <= LooseOnes(s);
    Included(Readers(s), LooseOnes(s));
    if s.late == 0 {
      forall u | u in s.th ensures !Active(s, u) {
        assert u !in LooseOnes(s);
      }
    }
  }

  lemma Included(a: set<Tid>, b: set<Tid>)
    requires a <= b
    ensures |a| <= |b|
  {
    assert b == a + (b - a);
  }

  /** No reader ever executes beside a barrier of this kind. */
  ghost predicate ReaderExclusive(kind: BarrierKind) {
    forall threads, schedule, width, t, u :: t in threads && u in threads ==>
      var s := Reached(threads, schedule, width);
      t in s.th && u in s.th ==> !(InBarrier(s.th[t], kind) && InReader(s.th[u]))
  }

  lemma {:induction false} RunAppend(s: State, schedule: seq<(Tid, Call)>, t: Tid, call: Call, width: nat)
    ensures var s' := Run(s, schedule, width);
            Run(s, schedule + [(t, call)], width) == if t in s'.th then Step(s', t, call, width) else s'
    decreases |schedule|
  {
    hide Step;
    var all := schedule + [(t, call)];
    if schedule == [] {
      assert all[1..] == [];
    } else {
      var (u, c) := schedule[0];
      assert all[1..] == schedule[1..] + [(t, call)] && all[0] == (u, c);
      RunAppend(if u in s.th then Step(s, u, c, width) else s, schedule[1..], t, call, width);
    }
  }

  /** One more step of `t` after a schedule. */
  lemma Next(s0: State, schedule: seq<(Tid, Call)>, s: State, t: Tid, call: Call, width: nat)
    returns (schedule': seq<(Tid, Call)>, s': State)
    requires Run(s0, schedule, width) == s && Inv(s) && LockInv(s) && t in s.th
    ensures s' == Step(s, t, call, width) && Run(s0, schedule', width) == s'
    ensures Inv(s') && LockInv(s') && Moved(s, s', t)
  {
    hide Inv, LockInv, Step, Run;
    RunAppend(s0, schedule, t, call, width);
    StepInv(s, t, call, width);
    StepLock(s, t, call, width);
    StepThreads(s, t, call, width);
    schedule', s' := schedule + [(t, call)], Step(s, t, call, width);
  }

  lemma RunNothing(s: State, width: nat)
    ensures Run(s, [], width) == s
  {
  }

  /** The queue has just been suspended for the barrier of `v`. */
  predicate JustSuspended(pc: Pc, v: Tid) {
    pc == Drain(PopRunning(v)) || pc == Hold(HandRunning(v))
  }

  /** No reader holds a share. */
  predicate Calm(s: State) {
    s.redirected == 0 && forall w :: w in s.th ==> !Shares(s, w)
  }

  /** Nobody has been let in; who holds a share is backing off. */
  predicate BackingOff(s: State) {
    s.redirected == 0 && forall w :: w in s.th ==> !Active(s, w)
  }

  /** One thread backs off. */
  lemma BackStep(s: State, w: Tid, width: nat)
    requires OwnerInv(s) && BackingOff(s) && w in s.th && Shares(s, w)
    ensures var s' := Step(s, w, Sync, width);
            && s.th[w].Share? && Moved(s, s', w) && BackingOff(s') && !Shares(s', w) && s'.signaled == s.signaled
            && s'.owner == s.owner && s'.admitted == s.admitted && s'.late == s.late
  {
    var s' := Step(s, w, Sync, width);
    assert !Active(s, w);
    assert s.th[w].Share? && w !in s.signaled;
    hide OwnerInv;
    forall x | x in s'.th ensures !Active(s', x) {
      assert !Active(s, x);
    }
  }

  /** Everybody who backs off is gone; nobody else has moved. */
  lemma BacksOff(s0: State, width: nat) returns (schedule: seq<(Tid, Call)>, s: State)
    requires Inv(s0) && LockInv(s0) && BackingOff(s0)
    ensures Run(s0, schedule, width) == s && Inv(s) && LockInv(s) && Calm(s)
    ensures s.admitted == s0.admitted && s.late == s0.late && s.th.Keys == s0.th.Keys
    ensures forall x :: x in s0.th && !s0.th[x].Share? ==> s.th[x] == s0.th[x]
  {
    hide Inv, LockInv, Run, Step, BackingOff;
    schedule, s := [], s0;
    RunNothing(s0, width);
    while Sharers(s) != {}
      invariant Run(s0, schedule, width) == s && Inv(s) && LockInv(s) && BackingOff(s)
      invariant s.admitted == s0.admitted && s.late == s0.late && s.th.Keys == s0.th.Keys
      invariant forall x :: x in s0.th && !s0.th[x].Share? ==> s.th[x] == s0.th[x]
      decreases |Sharers(s)|
    {
      var w :| w in Sharers(s);
      assert OwnerInv(s) by { InvOwner(s); }
      BackStep(s, w, width);
      ghost var s1 := s;
      schedule, s := Next(s0, schedule, s, w, Sync, width);
      SharersMove(s1, s, w);
    }
    CalmDown(s);
  }

  lemma InvOwner(s: State)
    requires Inv(s)
    ensures OwnerInv(s)
  {
  }

  lemma CalmDown(s: State)
    requires BackingOff(s) && Sharers(s) == {}
    ensures Calm(s)
  {
    forall w | w in s.th ensures !Shares(s, w) {
      assert w !in Sharers(s);
    }
  }

  /** What follows on the way to the signal. */
  function Onward(pc: Pc, v: Tid): Pc {
    match pc
    case Drain(PopRunning(_)) => Drain(InvDec(v))
    case Drain(InvDec(_)) => Drain(InvSignal(v))
    case _ => Hold(HandSignal(v))
  }

  /** The step concerns one thread, which holds no reader's share. */
  predicate Aside(s: State, s': State, t: Tid) {
    Moved(s, s', t) && s'.admitted == s.admitted && s'.late == s.late && s'.redirected == s.redirected
    && (Calm(s) ==> Calm(s'))
  }

  lemma OnwardStep(s: State, t: Tid, v: Tid, width: nat)
    requires t in s.th && (JustSuspended(s.th[t], v) || s.th[t] == Drain(InvDec(v)))
    ensures var s' := Step(s, t, Sync, width);
            && s'.th == s.th[t := Onward(s.th[t], v)]
            && s'.signaled == s.signaled && s'.owner == s.owner && Aside(s, s', t)
  {
  }

  lemma SignalStep(s: State, t: Tid, v: Tid, width: nat)
    requires t in s.th && v in s.th && t != v && (s.th[t] == Drain(InvSignal(v)) || s.th[t] == Hold(HandSignal(v)))
    requires Awaits(s.th[v], AwaitsBarrier)
    ensures var s' := Step(s, t, Sync, width);
            Aside(s, s', t) && v in s'.signaled && s'.owner == v
  {
  }

  lemma WaitsFor(s: State, t: Tid, v: Tid)
    requires Inv(s) && t in s.th && JustSuspended(s.th[t], v)
    ensures v in s.th && v != t && Awaits(s.th[v], AwaitsBarrier)
  {
    OwnerHolds(s, t);
    hide Inv;
  }

  /** The owner goes on to signal the barrier. */
  lemma SignalsOn(s0: State, before: seq<(Tid, Call)>, s1: State, t: Tid, v: Tid, width: nat)
    returns (schedule: seq<(Tid, Call)>, s: State)
    requires Run(s0, before, width) == s1 && Inv(s1) && LockInv(s1) && t in s1.th && JustSuspended(s1.th[t], v)
    ensures Run(s0, schedule, width) == s && Inv(s) && LockInv(s) && Aside(s1, s, t)
    ensures v in s.th && v != t && v in s.signaled && s.th[v] == s1.th[v] && Awaits(s.th[v], AwaitsBarrier)
  {
    hide Inv, LockInv, Run, Step, Calm;
    WaitsFor(s1, t, v);
    schedule, s := before, s1;
    if s1.th[t].Drain? {
      OnwardStep(s, t, v, width);
      schedule, s := Next(s0, schedule, s, t, Sync, width);
    }
    OnwardStep(s, t, v, width);
    schedule, s := Next(s0, schedule, s, t, Sync, width);
    SignalStep(s, t, v, width);
    schedule, s := Next(s0, schedule, s, t, Sync, width);
  }

  lemma ArriveStep(s: State, v: Tid, width: nat)
    requires v in s.th && v in s.signaled && Awaits(s.th[v], AwaitsBarrier)
    ensures var s' := Step(s, v, Sync, width);
            && Aside(s, s', v)
            && (if s.th[v].Wait? then s'.th[v] == Hold(SlowRun) else
                  && v in s'.signaled && Awaits(s'.th[v], AwaitsBarrier)
                  && (s'.th[v].Wake? ==> Rank(s'.th[v]) < Rank(s.th[v])))
  {
  }

  function Rank(pc: Pc): nat {
    if !pc.Wake? then 0 else if pc.w == WakeLock then 1 else if pc.w == WakeTail then 2 else 3
  }

  /** The signalled barrier reaches its item. */
  lemma Arrives(s0: State, before: seq<(Tid, Call)>, s1: State, v: Tid, width: nat)
    returns (schedule: seq<(Tid, Call)>, s: State)
    requires Run(s0, before, width) == s1 && Inv(s1) && LockInv(s1)
    requires v in s1.th && v in s1.signaled && Awaits(s1.th[v], AwaitsBarrier)
    ensures Run(s0, schedule, width) == s && Inv(s) && LockInv(s) && Aside(s1, s, v) && s.th[v] == Hold(SlowRun)
  {
    hide Inv, LockInv, Run, Step, Calm;
    schedule, s := before, s1;
    while s.th[v].Wake?
      invariant Run(s0, schedule, width) == s && Inv(s) && LockInv(s) && Aside(s1, s, v)
      invariant v in s.signaled && Awaits(s.th[v], AwaitsBarrier)
      decreases Rank(s.th[v])
    {
      ArriveStep(s, v, width);
      schedule, s := Next(s0, schedule, s, v, Sync, width);
    }
    ArriveStep(s, v, width);
    schedule, s := Next(s0, schedule, s, v, Sync, width);
  }

  /** A reader that asks beside a handed-over barrier does not see the low bit. */
  lemma LetIn(s: State, v: Tid, u: Tid, width: nat)
    requires Inv(s) && v in s.th && s.th[v] == Hold(SlowRun) && u in s.th && s.th[u] == Ask(SyncAdd)
    ensures Step(s, u, Sync, width).th[u] == Share(SyncRun)
  {
    assert s.owner == v && OwnerWeight(s) == 2;
    hide ItemsInv, HandInv, Alone, PushInv;
  }

  /** An asynchronous one is let in if the width has room for its share beside the barrier's. */
  lemma LetInAsync(s: State, v: Tid, u: Tid, width: nat)
    requires Inv(s) && Calm(s) && v in s.th && s.th[v] == Hold(SlowRun) && u in s.th && s.th[u] == Ask(AsyncAdd)
    requires width >= 4
    ensures Step(s, u, Sync, width).th[u] == Share(AsyncRedirect)
  {
    assert s.owner == v && OwnerWeight(s) == 2;
    assert Sharers(s) == {};
    hide ItemsInv, HandInv, Alone, PushInv;
  }

  /** Its item is picked up from the target queue. */
  lemma PickedUp(s: State, u: Tid, width: nat)
    requires u in s.th && s.th[u] == Share(AsyncRedirect)
    ensures var s1 := Step(s, u, Sync, width);
            && Moved(s, s1, u) && s1.admitted == s.admitted && s1.late == s.late
            && var s2 := Step(s1, u, Redirected, width);
               Moved(s1, s2, u) && s2.admitted == s.admitted && s2.late == s.late && s2.th[u] == Share(RedirRun)
  {
  }

  /** In some continuation of the same hand-over a reader executes beside the barrier of `v`. */
  ghost predicate SlipsBeside(s: State, v: Tid, width: nat) {
    exists schedule :: Beside(s, Run(s, schedule, width), v)
  }

  predicate Beside(s: State, s': State, v: Tid) {
    && s'.admitted == s.admitted && s'.late == s.late && v in s'.th && s'.th[v] == Hold(SlowRun)
    && exists u :: u in s'.th && InReader(s'.th[u])
  }

  lemma OverlapFrom(s0: State, t: Tid, v: Tid, u: Tid, width: nat)
    requires Inv(s0) && LockInv(s0) && t in s0.th && JustSuspended(s0.th[t], v)
    requires u in s0.th && s0.th[u] == Ask(SyncAdd)
    ensures SlipsBeside(s0, v, width)
  {
    hide Inv, LockInv, Run, Calm, Step;
    RunNothing(s0, width);
    var schedule, s := SignalsOn(s0, [], s0, t, v, width);
    schedule, s := Arrives(s0, schedule, s, v, width);
    LetIn(s, v, u, width);
    AddStep(s, u, width);
    schedule, s := Next(s0, schedule, s, u, Sync, width);
    assert InReader(s.th[u]);
    assert Beside(s0, Run(s0, schedule, width), v);
  }

  lemma AddStep(s: State, u: Tid, width: nat)
    requires u in s.th && Adding(s.th[u])
    ensures var s' := Step(s, u, Sync, width); s'.admitted == s.admitted && s'.late == s.late
  {
  }

  lemma OverlapAsync(s0: State, t: Tid, v: Tid, u: Tid, width: nat)
    requires Inv(s0) && LockInv(s0) && BackingOff(s0) && t in s0.th && JustSuspended(s0.th[t], v)
    requires u in s0.th && s0.th[u] == Ask(AsyncAdd) && width >= 4
    ensures SlipsBeside(s0, v, width)
  {
    hide Inv, LockInv, Run, Calm, Step, BackingOff;
    var schedule, s := BacksOff(s0, width);
    schedule, s := SignalsOn(s0, schedule, s, t, v, width);
    schedule, s := Arrives(s0, schedule, s, v, width);
    LetInAsync(s, v, u, width);
    AddStep(s, u, width);
    schedule, s := Next(s0, schedule, s, u, Sync, width);
    PickedUp(s, u, width);
    schedule, s := Next(s0, schedule, s, u, Sync, width);
    schedule, s := Next(s0, schedule, s, u, Redirected, width);
    assert InReader(s.th[u]);
    assert Beside(s0, Run(s0, schedule, width), v);
  }

  /**
    At the step that suspends the queue for the barrier of `v`: a reader can come to execute beside that
    barrier if and only if a synchronous one is past its suspension test, or an asynchronous one is and the
    width has room for its share beside the barrier's.
  */
  lemma HandOverExactly(threads: set<Tid>, schedule: seq<(Tid, Call)>, width: nat, t: Tid, v: Tid, call: Call)
    requires t in threads
    ensures var s := Reached(threads, schedule, width);
            && t in s.th
            && (s.th[t] == Drain(PopSuspend(v)) || s.th[t] == Hold(HandSuspend(v)) ==>
                  (SlipsBeside(Step(s, t, call, width), v, width) <==>
                     SyncAdders(s) != {} || (Adders(s) != {} && width >= 4)))
  {
    ReachedInv(threads, schedule, width);
    var s := Reached(threads, schedule, width);
    if s.th[t] == Drain(PopSuspend(v)) || s.th[t] == Hold(HandSuspend(v)) {
      hide Inv, LockInv, SlipInv, NarrowInv, Run, Reached, Step, BackingOff;
      StepInv(s, t, call, width);
      StepLock(s, t, call, width);
      StepSlip(s, t, call, width);
      StepNarrow(s, t, call, width);
      SuspendStep(s, t, v, call, width);
      var s' := Step(s, t, call, width);
      if SyncAdders(s) != {} {
        var u :| u in SyncAdders(s');
        OverlapFrom(s', t, v, u, width);
      } else if Adders(s) != {} && width >= 4 {
        var u :| u in Adders(s');
        assert u !in SyncAdders(s');
        OverlapAsync(s', t, v, u, width);
      }
      forall later | Beside(s', Run(s', later, width), v)
        ensures SyncAdders(s) != {} || (Adders(s) != {} && width >= 4)
      {
        RunKeeps(s', later, width);
        NeedsAdmitted(Run(s', later, width), v, width);
      }
    }
  }

  lemma SuspendStep(s: State, t: Tid, v: Tid, call: Call, width: nat)
    requires Inv(s) && t in s.th && (s.th[t] == Drain(PopSuspend(v)) || s.th[t] == Hold(HandSuspend(v)))
    ensures var s' := Step(s, t, call, width);
            && t in s'.th && JustSuspended(s'.th[t], v) && BackingOff(s')
            && s'.admitted == SyncAdders(s) == SyncAdders(s') && Adders(s') == Adders(s) && s'.late == |Adders(s)|
  {
    OwnerHolds(s, t);
    Unsignaled(s, t);
    assert Alone(s);
    hide Inv;
    var s' := Step(s, t, call, width);
    assert forall u :: u in s.th && u != t ==> s'.th[u] == s.th[u];
    forall u | u in s'.th ensures !Active(s', u) {
      assert !Active(s, u);
    }
  }

  /** A reader beside the barrier was admitted, or is asynchronous on a queue that is wide enough. */
  lemma NeedsAdmitted(s: State, v: Tid, width: nat)
    requires Inv(s) && SlipInv(s) && NarrowInv(s, width) && v in s.th && s.th[v] == Hold(SlowRun)
    requires exists u :: u in s.th && InReader(s.th[u])
    ensures s.admitted != {} || (s.late > 0 && width >= 4)
  {
    OnlyLate(s, v);
    assert OwnerSuspends(s);
    var u :| u in s.th && InReader(s.th[u]);
    assert Active(s, u);
    hide Inv, LooseOnes;
  }

  /** Extends a schedule by one step of `t`. */
  lemma Turn(schedule: seq<(Tid, Call)>, s: State, t: Tid, call: Call, width: nat)
    returns (schedule': seq<(Tid, Call)>, s': State)
    requires Reached({0, 1, 2, 3}, schedule, width) == s && t in s.th
    ensures s' == Step(s, t, call, width) && Reached({0, 1, 2, 3}, schedule', width) == s'
  {
    RunAppend(Init({0, 1, 2, 3}), schedule, t, call, width);
    schedule', s' := schedule + [(t, call)], Step(s, t, call, width);
  }

  /** A state of the four threads of the run below. */
  function Scene(items: seq<Item>, running: nat, suspend: nat, lock: Lock, clients: nat, signaled: set<Tid>,
                 p0: Pc, p1: Pc, p2: Pc, p3: Pc, owner: int, admitted: set<Tid>): State
  {
    State(items, running, suspend, lock, clients, 0, signaled, map[0 := p0, 1 := p1, 2 := p2, 3 := p3],
          owner, admitted, |admitted|)
  }

  /** Reader 2 begins. */
  lemma Asks(width: nat) returns (schedule: seq<(Tid, Call)>, s: State)
    ensures Reached({0, 1, 2, 3}, schedule, width) == s
    ensures s == Scene([], 0, 0, Unlocked, 0, {}, Idle, Idle, Ask(SyncTail), Idle, NULL, {})
  {
    schedule, s := [], Init({0, 1, 2, 3});
    assert s == Scene([], 0, 0, Unlocked, 0, {}, Idle, Idle, Idle, Idle, NULL, {});
    RunNothing(s, width);
    assert Reached({0, 1, 2, 3}, [], width) == s;
    hide Run, Reached, Init;
    schedule, s := Turn(schedule, s, 2, Sync, width);
  }

  /** Reader 2 has made its tests; the queue is then suspended. */
  lemma TestsSuspension(width: nat) returns (schedule: seq<(Tid, Call)>, s: State)
    ensures Reached({0, 1, 2, 3}, schedule, width) == s
    ensures s == Scene([], 0, 2, Unlocked, 1, {}, Idle, Idle, Ask(SyncAdd), Idle, NULL, {})
  {
    hide Run, Reached, Init;
    schedule, s := Asks(width);
    schedule, s := Turn(schedule, s, 2, Sync, width);
    assert s == Scene([], 0, 0, Unlocked, 0, {}, Idle, Idle, Ask(SyncSuspend), Idle, NULL, {});
    schedule, s := Turn(schedule, s, 2, Sync, width);
    assert s == Scene([], 0, 0, Unlocked, 0, {}, Idle, Idle, Ask(SyncAdd), Idle, NULL, {});
    schedule, s := Turn(schedule, s, 3, Suspend, width);
  }

  /** Barrier 0 finds the queue suspended. */
  lemma SeesSuspension(width: nat) returns (schedule: seq<(Tid, Call)>, s: State)
    ensures Reached({0, 1, 2, 3}, schedule, width) == s
    ensures s == Scene([], 0, 2, Unlocked, 1, {}, Push(SyncBarrier(0)), Idle, Ask(SyncAdd), Idle, NULL, {})
  {
    hide Run, Reached, Init;
    schedule, s := TestsSuspension(width);
    schedule, s := Turn(schedule, s, 0, BarrierSync, width);
    assert s == Scene([], 0, 2, Unlocked, 1, {}, Ask(FastTail), Idle, Ask(SyncAdd), Idle, NULL, {});
    schedule, s := Turn(schedule, s, 0, Sync, width);
    assert s == Scene([], 0, 2, Unlocked, 1, {}, Ask(FastSuspend), Idle, Ask(SyncAdd), Idle, NULL, {});
    schedule, s := Turn(schedule, s, 0, Sync, width);
    assert s == Scene([], 0, 2, Unlocked, 1, {}, Push(SyncBarrier(0)), Idle, Ask(SyncAdd), Idle, NULL, {});
  }

  /** Barrier 0 finds the queue suspended and goes to the list. */
  lemma GoesToList(width: nat) returns (schedule: seq<(Tid, Call)>, s: State)
    ensures Reached({0, 1, 2, 3}, schedule, width) == s
    ensures s == Scene([SyncBarrier(0)], 0, 2, Unlocked, 1, {}, Wait(AwaitsBarrier), Idle, Ask(SyncAdd), Idle, NULL, {})
  {
    hide Run, Reached, Init;
    schedule, s := SeesSuspension(width);
    schedule, s := Turn(schedule, s, 0, Sync, width);
    assert s == Scene([SyncBarrier(0)], 0, 2, Unlocked, 1, {},
                      Wake(WakeSuspend, AwaitsBarrier), Idle, Ask(SyncAdd), Idle, NULL, {});
    schedule, s := Turn(schedule, s, 0, Sync, width);
    assert s == Scene([SyncBarrier(0)], 0, 2, Unlocked, 1, {}, Wait(AwaitsBarrier), Idle, Ask(SyncAdd), Idle, NULL, {});
  }

  /** The queue is resumed and woken. */
  lemma WakesUp(width: nat) returns (schedule: seq<(Tid, Call)>, s: State)
    ensures Reached({0, 1, 2, 3}, schedule, width) == s
    ensures s == Scene([SyncBarrier(0)], 0, 1, OnTarget, 0, {}, Wait(AwaitsBarrier), Idle, Ask(SyncAdd), Idle, NULL, {})
  {
    hide Run, Reached, Init;
    schedule, s := GoesToList(width);
    schedule, s := Turn(schedule, s, 3, Resume, width);
    assert s == Scene([SyncBarrier(0)], 0, 0, Unlocked, 0, {},
                      Wait(AwaitsBarrier), Idle, Ask(SyncAdd), Wake(WakeSuspend, Returns), NULL, {});
    schedule, s := Turn(schedule, s, 3, Sync, width);
    assert s == Scene([SyncBarrier(0)], 0, 0, Unlocked, 0, {},
                      Wait(AwaitsBarrier), Idle, Ask(SyncAdd), Wake(WakeTail, Returns), NULL, {});
    schedule, s := Turn(schedule, s, 3, Sync, width);
    assert s == Scene([SyncBarrier(0)], 0, 0, Unlocked, 0, {},
                      Wait(AwaitsBarrier), Idle, Ask(SyncAdd), Wake(WakeLock, Returns), NULL, {});
    schedule, s := Turn(schedule, s, 3, Sync, width);
    assert s == Scene([SyncBarrier(0)], 0, 1, OnTarget, 0, {}, Wait(AwaitsBarrier), Idle, Ask(SyncAdd), Idle, NULL, {});
  }

  /** A worker starts to drain. */
  lemma StartsDrain(width: nat) returns (schedule: seq<(Tid, Call)>, s: State)
    requires width >= 2
    ensures Reached({0, 1, 2, 3}, schedule, width) == s
    ensures s == Scene([SyncBarrier(0)], 1, 1, InvokedBy(1), 0, {},
                       Wait(AwaitsBarrier), Drain(DrainTake), Ask(SyncAdd), Idle, 1, {})
  {
    hide Run, Reached, Init;
    schedule, s := WakesUp(width);
    schedule, s := Turn(schedule, s, 1, Invoke, width);
    assert s == Scene([SyncBarrier(0)], 0, 1, InvokedBy(1), 0, {},
                      Wait(AwaitsBarrier), Door(InvSuspend), Ask(SyncAdd), Idle, NULL, {});
    schedule, s := Turn(schedule, s, 1, Sync, width);
    assert s == Scene([SyncBarrier(0)], 0, 1, InvokedBy(1), 0, {},
                      Wait(AwaitsBarrier), Door(InvLock), Ask(SyncAdd), Idle, NULL, {});
    schedule, s := Turn(schedule, s, 1, Sync, width);
    assert s == Scene([SyncBarrier(0)], 1, 1, InvokedBy(1), 0, {},
                      Wait(AwaitsBarrier), Drain(DrainTake), Ask(SyncAdd), Idle, 1, {});
  }

  /** A drain takes the barrier off the list. */
  lemma TakenOff(width: nat) returns (schedule: seq<(Tid, Call)>, s: State)
    requires width >= 2
    ensures Reached({0, 1, 2, 3}, schedule, width) == s
    ensures s == Scene([], 1, 1, InvokedBy(1), 0, {},
                       Wait(AwaitsBarrier), Drain(PopSuspend(0)), Ask(SyncAdd), Idle, 1, {})
  {
    hide Run, Reached, Init;
    schedule, s := StartsDrain(width);
    schedule, s := Turn(schedule, s, 1, Sync, width);
    assert s == Scene([], 1, 1, InvokedBy(1), 0, {},
                      Wait(AwaitsBarrier), Drain(DrainSuspend(SyncBarrier(0))), Ask(SyncAdd), Idle, 1, {});
    schedule, s := Turn(schedule, s, 1, Sync, width);
    assert s == Scene([], 1, 1, InvokedBy(1), 0, {},
                      Wait(AwaitsBarrier), Drain(DrainWidth(SyncBarrier(0))), Ask(SyncAdd), Idle, 1, {});
    schedule, s := Turn(schedule, s, 1, Sync, width);
    assert s == Scene([], 1, 1, InvokedBy(1), 0, {},
                      Wait(AwaitsBarrier), Drain(DrainBarrier(SyncBarrier(0))), Ask(SyncAdd), Idle, 1, {});
    schedule, s := Turn(schedule, s, 1, Sync, width);
    assert s == Scene([], 1, 1, InvokedBy(1), 0, {},
                      Wait(AwaitsBarrier), Drain(PopSuspend(0)), Ask(SyncAdd), Idle, 1, {});
  }

  /** The drain suspends the queue for the barrier: reader 2 is past its test. */
  lemma Suspends(width: nat) returns (schedule: seq<(Tid, Call)>, s: State)
    requires width >= 2
    ensures Reached({0, 1, 2, 3}, schedule, width) == s
    ensures s == Scene([], 1, 3, InvokedBy(1), 0, {},
                       Wait(AwaitsBarrier), Drain(PopRunning(0)), Ask(SyncAdd), Idle, 1, {2})
  {
    hide Run, Reached, Init;
    schedule, s := TakenOff(width);
    assert Adders(s) == {2} && SyncAdders(s) == {2};
    schedule, s := Turn(schedule, s, 1, Sync, width);
  }

  /** The owner signals the barrier, which starts, and the reader adds its share without seeing the low bit. */
  lemma Overlap(width: nat) returns (schedule: seq<(Tid, Call)>, s: State)
    requires width >= 2
    ensures Reached({0, 1, 2, 3}, schedule, width) == s && s.th.Keys == {0, 1, 2, 3}
    ensures InBarrier(s.th[0], SlowSync) && InReader(s.th[2])
  {
    hide Run, Init, Inv, LockInv, SlipInv, NarrowInv, Calm, Step;
    schedule, s := Suspends(width);
    ReachedInv({0, 1, 2, 3}, schedule, width);
    schedule, s := SignalsOn(Init({0, 1, 2, 3}), schedule, s, 1, 0, width);
    schedule, s := Arrives(Init({0, 1, 2, 3}), schedule, s, 0, width);
    LetIn(s, 0, 2, width);
    schedule, s := Next(Init({0, 1, 2, 3}), schedule, s, 2, Sync, width);
  }

  /** Readers are kept out of a barrier in every run if and only if it is not a slow synchronous one. */
  lemma ReaderExclusionExactly(kind: BarrierKind)
    ensures ReaderExclusive(kind) <==> kind != SlowSync
  {
    if kind != SlowSync {
      forall threads, schedule, width, t, u | t in threads && u in threads
        ensures var s := Reached(threads, schedule, width);
                t in s.th && u in s.th ==> !(InBarrier(s.th[t], kind) && InReader(s.th[u]))
      {
        LowBitExcludesReaders(threads, schedule, width, t, u, kind);
      }
    } else {
      var schedule, s := Overlap(2);
      assert 0 in {0, 1, 2, 3} && 2 in {0, 1, 2, 3};
      var r := Reached({0, 1, 2, 3}, schedule, 2);
      assert InBarrier(r.th[0], kind) && InReader(r.th[2]);
    }
  }
}
