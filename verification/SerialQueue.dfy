/**
  A serial (width 1) dispatch queue whose target never changes: the intrusive list, the running
  word, the suspend word, asynchronous pushes, fast and slow synchronous calls, lock transfer,
  draining, suspend and resume, interleaved one atomic access at a time by any number of threads.

  Nodes are named by the order of their tail exchange: node `i` is the `i`-th one pushed.
  A thread identifier stands for one activation of a library call, so a work item that calls back
  into its queue is one more activation.
*/
module SerialQueue {
  type Tid = nat
  const NULL: int := -1

  datatype Node = Node(pusher: Tid, sync: bool, next: int)

  /** Who holds the lock bit of the suspend word. */
  datatype Lock = Unlocked | OnTarget | InvokedBy(t: Tid)

  /** A library call that an idle thread may begin; `Invoke` is the target queue running this queue. */
  datatype Call = Async | Sync | Suspend | Resume | Invoke

  /** Program counters: each constructor is the atomic access about to be made, with its locals. */
  datatype Pc =
    | Idle
    // _dispatch_queue_push
    | PushXchg(sync: bool)
    | PushLink(node: int, prev: int, sync: bool)
    | PushHead(node: int, sync: bool)
    // _dispatch_wakeup; `node` is the caller's own synchronous item, or NULL
    | Wake(w: WakePc, node: int)
    // _dispatch_barrier_sync_f_slow at its semaphore
    | Wait(node: int)
    // dispatch_barrier_sync_f before it has the running word
    | Try(f: TryPc)
    // _dispatch_queue_invoke before and after it has the running word
    | Door(i: DoorPc)
    | InvCheck
    // owner of the list through a synchronous call, or through an invoke
    | Hold(h: HoldPc)
    | Drain(d: DrainPc)

  datatype WakePc = WakeSuspend | WakeTail | WakeLock
  datatype TryPc = FastTail | FastSuspend | FastLock
  datatype DoorPc = InvSuspend | InvLock | InvUnlock

  datatype HoldPc =
    | FastRun | FastTailAgain | FastSuspendAgain | FastDec
    | SlowRun | SlowSuspend | SlowRunning | SlowSubSuspend | SlowSubRunning
    // _dispatch_queue_drain_one_barrier_sync, from the fast or the slow path
    | OneHead(fast: bool)
    | OneNext(fast: bool, dc: int)
    | OneStore(fast: bool, dc: int, next: int)
    | OneTail(fast: bool, dc: int)
    | OneSpin(fast: bool, dc: int)
    | OneStoreNext(fast: bool, dc: int, next: int)
    | HandSuspend(sema: int)
    | HandRunning(sema: int)
    | HandSignal(sema: int)

  datatype DrainPc =
    | DrainTail
    | DrainHead
    | DrainClear(dc: int)
    | DrainNext(dc: int)
    | DrainSwing(dc: int)
    | DrainSpin(dc: int)
    | DrainSuspend(dc: int, next: int)
    | DrainWidth(dc: int, next: int)
    | DrainRun(dc: int, next: int)
    | PopSuspend(dc: int, next: int)
    | PopRunning(dc: int, next: int)
    | OutTail(dc: int)
    | OutSpin(dc: int)
    | OutLink(dc: int, next: int)
    | OutHead(dc: int, sema: int)
    | InvDec(sema: int)
    | InvSignal(sema: int)

  /**
    `signaled` holds the threads whose semaphore was signalled and not yet waited for.
    `clients`, `owner` and `started` are history: suspensions the clients have not resumed, the
    thread responsible for the list (NULL if none), and the nodes whose execution was begun or
    handed over, in that order.
  */
  datatype State = State(
    nodes: seq<Node>, head: int, tail: int,
    running: nat, suspend: nat, lock: Lock,
    signaled: set<Tid>, th: map<Tid, Pc>,
    clients: nat, owner: int, started: seq<int>)

  function Init(threads: set<Tid>): State {
    State([], NULL, NULL, 0, 0, Unlocked, {}, map t | t in threads :: Idle, 0, NULL, [])
  }

  function Go(s: State, t: Tid, pc: Pc): State {
    s.(th := s.th[t := pc])
  }

  // ---------------------------------------------------------------------------------------------
  // Steps
  // ---------------------------------------------------------------------------------------------

  function Begin(s: State, t: Tid, call: Call): State {
    match call
    case Async => Go(s, t, PushXchg(false))
    case Sync => Go(s, t, Try(FastTail))
    case Suspend => s.(suspend := s.suspend + 2, clients := s.clients + 1)
    case Resume =>
      // A client resumes only what it has suspended.
      if s.clients == 0 || s.suspend < 2 then s
      else
        var s1 := s.(suspend := s.suspend - 2, clients := s.clients - 1);
        if s.suspend == 2 then Go(s1, t, Wake(WakeSuspend, NULL)) else s1
    case Invoke =>
      if s.lock == OnTarget then Go(s.(lock := InvokedBy(t)), t, Door(InvSuspend)) else s
  }

  function AfterPush(node: int): Pc {
    if node == NULL then Idle else Wait(node)
  }

  function SetNext(s: State, k: int, next: int): State {
    if 0 <= k < |s.nodes| then s.(nodes := s.nodes[k := s.nodes[k].(next := next)]) else s
  }

  function StepXchg(s: State, t: Tid, sync: bool): State {
    var n := |s.nodes|;
    var s1 := s.(nodes := s.nodes + [Node(t, sync, NULL)], tail := n);
    if s.tail != NULL then Go(s1, t, PushLink(n, s.tail, sync)) else Go(s1, t, PushHead(n, sync))
  }

  function StepLink(s: State, t: Tid, node: int, prev: int, sync: bool): State {
    Go(SetNext(s, prev, node), t, AfterPush(if sync then node else NULL))
  }

  function StepHead(s: State, t: Tid, node: int, sync: bool): State {
    Go(s.(head := node), t, Wake(WakeSuspend, if sync then node else NULL))
  }

  function StepWake(s: State, t: Tid, w: WakePc, node: int): State {
    match w
    case WakeSuspend => Go(s, t, if s.suspend >= 2 then AfterPush(node) else Wake(WakeTail, node))
    case WakeTail => Go(s, t, if s.tail == NULL then AfterPush(node) else Wake(WakeLock, node))
    case WakeLock =>
      if s.suspend == 0 then Go(s.(suspend := 1, lock := OnTarget), t, AfterPush(node))
      else Go(s, t, AfterPush(node))
  }

  function StepTry(s: State, t: Tid, f: TryPc): State {
    match f
    case FastTail => Go(s, t, if s.tail != NULL then PushXchg(true) else Try(FastSuspend))
    case FastSuspend => Go(s, t, if s.suspend >= 2 then PushXchg(true) else Try(FastLock))
    case FastLock =>
      if s.running == 0 then Go(s.(running := 1, owner := t), t, Hold(FastRun))
      else Go(s, t, PushXchg(true))
  }

  function StepWait(s: State, t: Tid): State {
    if t in s.signaled then Go(s.(signaled := s.signaled - {t}), t, Hold(SlowRun)) else s
  }

  function StepDoor(s: State, t: Tid, i: DoorPc): State {
    match i
    case InvSuspend => Go(s, t, if s.suspend >= 2 then Door(InvUnlock) else Door(InvLock))
    case InvLock =>
      if s.running == 0 then Go(s.(running := 1, owner := t), t, Drain(DrainTail))
      else Go(s, t, Door(InvUnlock))
    case InvUnlock =>
      var r := Less(s.suspend, 1);
      Go(s.(suspend := r, lock := Unlocked), t, if r == 0 then InvCheck else Idle)
  }

  function Less(x: nat, y: nat): nat {
    if x < y then 0 else x - y
  }

  function NextOf(s: State, dc: int): int {
    if 0 <= dc < |s.nodes| then s.nodes[dc].next else NULL
  }

  predicate IsSync(s: State, dc: int) {
    0 <= dc < |s.nodes| && s.nodes[dc].sync
  }

  /** Signals the semaphore of the thread that pushed node `sema`, which now answers for the list. */
  function Signal(s: State, sema: int): State {
    if 0 <= sema < |s.nodes| then
      s.(signaled := s.signaled + {s.nodes[sema].pusher}, owner := s.nodes[sema].pusher)
    else s
  }

  /** Gives back `k` of the running word; whoever brings it to zero must wake the queue. */
  function Leave(s: State, t: Tid, k: nat): State {
    var r := Less(s.running, k);
    Go(s.(running := r, owner := NULL), t, if r == 0 then Wake(WakeSuspend, NULL) else Idle)
  }

  /** Marks the start of `dc`, the node the consumer has in its hands. */
  function Start(s: State, dc: int): State {
    s.(started := s.started + [dc])
  }

  function AfterOne(fast: bool, dc: int): Pc {
    Hold(if fast then HandSuspend(dc) else HandSignal(dc))
  }

  function StepHold(s: State, t: Tid, h: HoldPc): State {
    match h
    case FastRun => Go(s, t, Hold(FastTailAgain))
    case FastTailAgain => Go(s, t, Hold(if s.tail != NULL then FastSuspendAgain else FastDec))
    case FastSuspendAgain => Go(s, t, Hold(if s.suspend >= 2 then FastDec else OneHead(true)))
    case FastDec => Leave(s, t, 1)
    case SlowRun => Go(s, t, Hold(SlowSuspend))
    case SlowSuspend => Go(s, t, Hold(if s.suspend < 4 then SlowRunning else SlowSubSuspend))
    case SlowRunning => Go(s, t, Hold(if s.running == 2 then OneHead(false) else SlowSubSuspend))
    case SlowSubSuspend => Go(s.(suspend := Less(s.suspend, 2)), t, Hold(SlowSubRunning))
    case SlowSubRunning => Leave(s, t, 2)
    case OneHead(fast) =>
      Go(s, t, Hold(if s.head != NULL && IsSync(s, s.head) then OneNext(fast, s.head)
                    else if fast then FastDec else SlowSubSuspend))
    case OneNext(fast, dc) => Go(s, t, Hold(OneStore(fast, dc, NextOf(s, dc))))
    case OneStore(fast, dc, next) =>
      if next == NULL then Go(s.(head := NULL), t, Hold(OneTail(fast, dc)))
      else Go(Start(s.(head := next), dc), t, AfterOne(fast, dc))
    case OneTail(fast, dc) =>
      if s.tail == dc then Go(Start(s.(tail := NULL), dc), t, AfterOne(fast, dc))
      else Go(s, t, Hold(OneSpin(fast, dc)))
    case OneSpin(fast, dc) =>
      if NextOf(s, dc) == NULL then s else Go(s, t, Hold(OneStoreNext(fast, dc, NextOf(s, dc))))
    case OneStoreNext(fast, dc, next) => Go(Start(s.(head := next), dc), t, AfterOne(fast, dc))
    case HandSuspend(sema) => Go(s.(suspend := s.suspend + 2), t, Hold(HandRunning(sema)))
    case HandRunning(sema) => Go(s.(running := s.running + 1), t, Hold(HandSignal(sema)))
    case HandSignal(sema) => Go(Signal(s, sema), t, Idle)
  }

  function DrainOut(dc: int, next: int): Pc {
    Drain(if next == NULL then OutTail(dc) else OutHead(dc, NULL))
  }

  function StepDrain(s: State, t: Tid, d: DrainPc): State {
    match d
    case DrainTail => Go(s, t, Drain(if s.tail == NULL then InvDec(NULL) else DrainHead))
    case DrainHead => if s.head == NULL then s else Go(s, t, Drain(DrainClear(s.head)))
    case DrainClear(dc) => Go(s.(head := NULL), t, Drain(DrainNext(dc)))
    case DrainNext(dc) =>
      Go(s, t, Drain(if NextOf(s, dc) == NULL then DrainSwing(dc) else DrainSuspend(dc, NextOf(s, dc))))
    case DrainSwing(dc) =>
      if s.tail == dc then Go(s.(tail := NULL), t, Drain(DrainSuspend(dc, NULL)))
      else Go(s, t, Drain(DrainSpin(dc)))
    case DrainSpin(dc) =>
      if NextOf(s, dc) == NULL then s else Go(s, t, Drain(DrainSuspend(dc, NextOf(s, dc))))
    case DrainSuspend(dc, next) =>
      Go(s, t, if s.suspend >= 2 then DrainOut(dc, next) else Drain(DrainWidth(dc, next)))
    case DrainWidth(dc, next) =>
      if s.running > 1 then Go(s, t, DrainOut(dc, next))
      else Go(Start(s, dc), t, Drain(if IsSync(s, dc) then PopSuspend(dc, next) else DrainRun(dc, next)))
    case DrainRun(dc, next) => Go(s, t, Drain(if next == NULL then DrainTail else DrainNext(next)))
    case PopSuspend(dc, next) => Go(s.(suspend := s.suspend + 2), t, Drain(PopRunning(dc, next)))
    case PopRunning(dc, next) =>
      Go(s.(running := s.running + 2), t, Drain(if next == NULL then InvDec(dc) else OutHead(next, dc)))
    case OutTail(dc) =>
      if s.tail == NULL then Go(s.(tail := dc), t, Drain(OutHead(dc, NULL)))
      else Go(s, t, Drain(OutSpin(dc)))
    case OutSpin(dc) => if s.head == NULL then s else Go(s, t, Drain(OutLink(dc, s.head)))
    case OutLink(dc, next) => Go(SetNext(s, dc, next), t, Drain(OutHead(dc, NULL)))
    case OutHead(dc, sema) => Go(s.(head := dc), t, Drain(InvDec(sema)))
    case InvDec(sema) =>
      var s1 := s.(running := Less(s.running, 1));
      if sema == NULL then Go(s1.(owner := NULL), t, Door(InvUnlock)) else Go(s1, t, Drain(InvSignal(sema)))
    case InvSignal(sema) => Go(Signal(s, sema), t, Door(InvUnlock))
  }

  /** One atomic step of thread `t`; `call` is used only when `t` is idle. */
  function Step(s: State, t: Tid, call: Call): State
    requires t in s.th
  {
    match s.th[t]
    case Idle => Begin(s, t, call)
    case PushXchg(sync) => StepXchg(s, t, sync)
    case PushLink(node, prev, sync) => StepLink(s, t, node, prev, sync)
    case PushHead(node, sync) => StepHead(s, t, node, sync)
    case Wake(w, node) => StepWake(s, t, w, node)
    case Wait(_) => StepWait(s, t)
    case Try(f) => StepTry(s, t, f)
    case Door(i) => StepDoor(s, t, i)
    case InvCheck => Go(s, t, if s.running == 0 then Wake(WakeSuspend, NULL) else Idle)
    case Hold(h) => StepHold(s, t, h)
    case Drain(d) => StepDrain(s, t, d)
  }

  /** The state after a schedule; entries naming an unknown thread are skipped. */
  function Run(s: State, schedule: seq<(Tid, Call)>): State
    decreases |schedule|
  {
    if schedule == [] then s
    else
      var (t, call) := schedule[0];
      Run(if t in s.th then Step(s, t, call) else s, schedule[1..])
  }

  // ---------------------------------------------------------------------------------------------
  // Invariant
  // ---------------------------------------------------------------------------------------------

  /**
    How the owner of the list stands: its share of the running word, whether it has added a
    suspension, the synchronous node it has started and not yet signalled, where the first listed
    node is, and how many unstarted nodes (0 or 1) it has detached.
  */
  datatype View = View(weight: nat, holds: bool, hand: int, mode: Mode, ahead: nat)

  datatype Mode = Free | AtHead | Held | Putting

  function SyncView(fast: bool, mode: Mode): View {
    View(if fast then 1 else 2, !fast, NULL, mode, 0)
  }

  function HoldView(h: HoldPc): View {
    match h
    case FastRun | FastTailAgain | FastSuspendAgain | FastDec => SyncView(true, Free)
    case SlowRun | SlowSuspend | SlowRunning | SlowSubSuspend => SyncView(false, Free)
    case SlowSubRunning => View(2, false, NULL, Free, 0)
    case OneHead(fast) => SyncView(fast, Free)
    case OneNext(fast, _) => SyncView(fast, AtHead)
    case OneStore(fast, _, _) => SyncView(fast, AtHead)
    case OneTail(fast, _) => SyncView(fast, Held)
    case OneSpin(fast, _) => SyncView(fast, Held)
    case OneStoreNext(fast, _, _) => SyncView(fast, Held)
    case HandSuspend(sema) => View(1, false, sema, Free, 0)
    case HandRunning(sema) => View(1, true, sema, Free, 0)
    case HandSignal(sema) => View(2, true, sema, Free, 0)
  }

  function FreeIf(next: int): Mode {
    if next == NULL then Free else Held
  }

  function DrainView(d: DrainPc): View {
    match d
    case DrainTail | DrainHead => View(1, false, NULL, Free, 0)
    case DrainClear(_) => View(1, false, NULL, AtHead, 0)
    case DrainNext(_) | DrainSwing(_) | DrainSpin(_) => View(1, false, NULL, Held, 0)
    case DrainSuspend(_, next) => View(1, false, NULL, FreeIf(next), if next == NULL then 1 else 0)
    case DrainWidth(_, next) => View(1, false, NULL, FreeIf(next), if next == NULL then 1 else 0)
    case DrainRun(_, next) => View(1, false, NULL, FreeIf(next), 0)
    case PopSuspend(dc, next) => View(1, false, dc, FreeIf(next), 0)
    case PopRunning(dc, next) => View(1, true, dc, FreeIf(next), 0)
    case OutTail(_) | OutSpin(_) | OutLink(_, _) => View(1, false, NULL, Free, 1)
    case OutHead(_, sema) => View(if sema == NULL then 1 else 3, sema != NULL, sema, Putting, 0)
    case InvDec(sema) => View(if sema == NULL then 1 else 3, sema != NULL, sema, Free, 0)
    case InvSignal(sema) => View(2, true, sema, Free, 0)
  }

  const Nobody := View(0, false, NULL, Free, 0)
  const Signaled := View(2, true, NULL, Free, 0)

  /** A signalled thread owns the list while it is still on its way to its semaphore. */
  function ViewOf(s: State): View {
    if s.owner !in s.th then Nobody
    else if s.owner in s.signaled then Signaled
    else match s.th[s.owner]
         case Hold(h) => HoldView(h)
         case Drain(d) => DrainView(d)
         case _ => Nobody
  }

  predicate Owns(s: State, u: Tid)
    requires u in s.th
  {
    u in s.signaled || s.th[u].Hold? || s.th[u].Drain?
  }

  predicate InInvoke(pc: Pc) {
    pc.Door? || pc.Drain?
  }

  predicate OwnerInv(s: State, v: View) {
    && s.signaled <= s.th.Keys
    && (s.owner == NULL || (s.owner in s.th && Owns(s, s.owner)))
    && (forall u :: u in s.th && Owns(s, u) ==> s.owner == u)
    && s.running == v.weight
  }

  predicate LockInv(s: State, v: View) {
    && (forall u :: u in s.th && InInvoke(s.th[u]) ==> s.lock == InvokedBy(u))
    && (s.lock.InvokedBy? ==> s.lock.t in s.th && InInvoke(s.th[s.lock.t]))
    && s.suspend == (if s.lock.Unlocked? then 0 else 1) + 2 * s.clients + (if v.holds then 2 else 0)
  }

  /** The pusher of node `k` is about to store it in its predecessor. */
  predicate Linking(s: State, k: int)
    requires 0 < k < |s.nodes|
  {
    var u := s.nodes[k].pusher;
    u in s.th && s.th[u] == PushLink(k, k - 1, s.nodes[k].sync)
  }

  /** The pusher of node `k` is about to store it in the head. */
  predicate Heading(s: State, k: int)
    requires 0 <= k < |s.nodes|
  {
    var u := s.nodes[k].pusher;
    u in s.th && s.th[u] == PushHead(k, s.nodes[k].sync)
  }

  /** Node `k` has its predecessor's link, or its pusher is about to store it. */
  predicate Chained(s: State, k: int)
    requires 0 < k < |s.nodes|
  {
    s.nodes[k - 1].next == k || (s.nodes[k - 1].next == NULL && Linking(s, k))
  }

  predicate ListInv(s: State, v: View) {
    var n, b := |s.nodes|, |s.started| + v.ahead;
    && b <= n
    && (forall k {:trigger Chained(s, k)} :: b < k < n ==> Chained(s, k))
    && (b == n ==> v.mode == Free && s.head == NULL && s.tail == NULL)
    && (b < n ==> s.tail == n - 1 && s.nodes[n - 1].next == NULL)
    && (b < n && v.mode == Free ==> s.head == b || (s.head == NULL && Heading(s, b)))
    && (v.mode == Held ==> s.head == NULL)
    && (v.mode == AtHead ==> s.head == b)
  }

  /** Pushers that have exchanged the tail and not yet published their node. */
  predicate PushersInv(s: State, v: View) {
    var n, b := |s.nodes|, |s.started| + v.ahead;
    && (forall u :: u in s.th && s.th[u].PushLink? ==>
          var k := s.th[u].node;
          && b < k < n && s.th[u].prev == k - 1 && s.nodes[k - 1].next == NULL
          && s.nodes[k].pusher == u && s.nodes[k].sync == s.th[u].sync)
    && (forall u :: u in s.th && s.th[u].PushHead? ==>
          && b == s.th[u].node < n && s.head == NULL && v.mode == Free
          && s.nodes[b].pusher == u && s.nodes[b].sync == s.th[u].sync)
  }

  predicate HoldLocals(s: State, h: HoldPc) {
    var n, p := |s.nodes|, |s.started|;
    match h
    case OneNext(_, dc) => dc == p < n && s.nodes[p].sync
    case OneStore(_, dc, next) =>
      dc == p < n && s.nodes[p].sync && (next == NULL || (next == p + 1 < n && s.nodes[p].next == next))
    case OneTail(_, dc) => dc == p < n && s.nodes[p].sync
    case OneSpin(_, dc) => dc == p < n - 1 && s.nodes[p].sync
    case OneStoreNext(_, dc, next) => dc == p < n - 1 && s.nodes[p].sync && next == p + 1 == s.nodes[p].next
    case HandSuspend(sema) => sema != NULL
    case HandRunning(sema) => sema != NULL
    case HandSignal(sema) => sema != NULL
    case _ => true
  }

  predicate DrainLocals(s: State, d: DrainPc) {
    var n, p := |s.nodes|, |s.started|;
    match d
    case DrainHead => p < n
    case DrainClear(dc) => dc == p < n
    case DrainNext(dc) => dc == p < n
    case DrainSwing(dc) => dc == p < n
    case DrainSpin(dc) => dc == p < n - 1
    case DrainSuspend(dc, next) => dc == p < n && s.nodes[p].next == next && (next == NULL || next == p + 1 < n)
    case DrainWidth(dc, next) => dc == p < n && s.nodes[p].next == next && (next == NULL || next == p + 1 < n)
    case DrainRun(dc, next) => dc == p - 1 >= 0 && (next == NULL || next == p < n)
    case PopSuspend(dc, next) => dc == p - 1 >= 0 && (next == NULL || next == p < n)
    case PopRunning(dc, next) => dc == p - 1 >= 0 && (next == NULL || next == p < n)
    case OutTail(dc) => dc == p < n && s.nodes[p].next == NULL
    case OutSpin(dc) => dc == p < n - 1 && s.nodes[p].next == NULL
    case OutLink(dc, next) => dc == p < n - 1 && s.nodes[p].next == NULL && next == p + 1 == s.head
    case OutHead(dc, _) => dc == p < n
    case InvSignal(sema) => sema != NULL
    case _ => true
  }

  /** What the owner's local variables mean. */
  predicate Locals(s: State) {
    s.owner in s.th && s.owner !in s.signaled ==>
      match s.th[s.owner]
      case Hold(h) => HoldLocals(s, h)
      case Drain(d) => DrainLocals(s, d)
      case _ => true
  }

  /** The pushed node of a slow synchronous call that has not yet passed its semaphore. */
  function Pending(pc: Pc): int {
    match pc
    case PushLink(k, _, sync) => if sync then k else NULL
    case PushHead(k, sync) => if sync then k else NULL
    case Wake(_, k) => k
    case Wait(k) => k
    case _ => NULL
  }

  /** The pusher of the synchronous node `k` has not been signalled for it. */
  predicate Unserved(s: State, k: int)
    requires 0 <= k < |s.nodes|
  {
    var u := s.nodes[k].pusher;
    s.nodes[k].sync && u in s.th && u !in s.signaled && Pending(s.th[u]) == k
  }

  predicate SyncInv(s: State, v: View) {
    var n, p := |s.nodes|, |s.started|;
    && p <= n
    && (forall u :: u in s.th && s.th[u].Wait? ==> s.th[u].node != NULL)
    && (forall u :: u in s.th && Pending(s.th[u]) != NULL ==>
          var k := Pending(s.th[u]);
          && 0 <= k < n && s.nodes[k].pusher == u && s.nodes[k].sync
          && (u !in s.signaled ==> k >= p || v.hand == k))
    && (forall k :: p <= k < n && s.nodes[k].sync ==> Unserved(s, k))
    && (forall u :: u in s.signaled && u in s.th ==> Pending(s.th[u]) != NULL)
    && (v.hand != NULL ==> 0 <= v.hand < p && Unserved(s, v.hand))
  }

  /** Execution begins in the order of the tail exchanges, each node once. */
  predicate Fifo(s: State) {
    forall i :: 0 <= i < |s.started| ==> s.started[i] == i
  }

  /** A thread on its way into _dispatch_wakeup. */
  predicate Committed(pc: Pc) {
    pc.PushHead? || pc.Wake? || pc.InvCheck?
  }

  predicate NoStrand(s: State) {
    s.tail != NULL && s.suspend == 0 && s.running == 0 ==>
      exists t :: t in s.th && Committed(s.th[t])
  }

  predicate CountInv(s: State, v: View) {
    OwnerInv(s, v) && LockInv(s, v)
  }

  predicate Inv(s: State) {
    var v := ViewOf(s);
    && CountInv(s, v) && ListInv(s, v) && PushersInv(s, v) && Locals(s)
    && SyncInv(s, v) && Fifo(s) && NoStrand(s)
  }

  lemma InitInv(threads: set<Tid>)
    ensures Inv(Init(threads))
  {
  }

  // ---------------------------------------------------------------------------------------------
  // Frames: what a step of `t` that leaves the list alone cannot disturb
  // ---------------------------------------------------------------------------------------------

  predicate Moved(s: State, s': State, t: Tid) {
    t in s.th && t in s'.th && s'.th == s.th[t := s'.th[t]]
  }

  predicate Publishing(pc: Pc) {
    pc.PushLink? || pc.PushHead?
  }

  predicate SameCounts(s: State, s': State) {
    && s'.running == s.running && s'.suspend == s.suspend && s'.lock == s.lock
    && s'.clients == s.clients && s'.owner == s.owner && s'.signaled == s.signaled
  }

  /** The list is not written; the owner may have looked at the head or be about to put it back. */
  lemma ListFrame(s: State, s': State, t: Tid, v: View, v': View)
    requires ListInv(s, v) && PushersInv(s, v) && Moved(s, s', t)
    requires s'.nodes == s.nodes && s'.head == s.head && s'.tail == s.tail
    requires |s'.started| + v'.ahead == |s.started| + v.ahead
    requires v'.mode == v.mode || (v.mode == Free && v'.mode == AtHead && s.head != NULL)
             || (v.mode == Held && v'.mode == Putting)
    requires !Publishing(s.th[t]) && !Publishing(s'.th[t])
    ensures ListInv(s', v') && PushersInv(s', v')
  {
    TailFacts(s, v);
    assert PushersInv(s', v') by { hide ListInv; PushersSame(s, s', t, v, v'); }
    hide PushersInv;
    forall k | |s.started| + v.ahead < k < |s.nodes| ensures Chained(s', k) {
      assert Chained(s, k);
    }
  }

  lemma PushersSame(s: State, s': State, t: Tid, v: View, v': View)
    requires PushersInv(s, v) && Moved(s, s', t) && s'.nodes == s.nodes && s'.head == s.head
    requires |s'.started| + v'.ahead == |s.started| + v.ahead && (v.mode == Free ==> v'.mode == Free || s.head != NULL)
    requires !Publishing(s'.th[t])
    ensures PushersInv(s', v')
  {
  }

  lemma SyncFrame(s: State, s': State, t: Tid, v: View, v': View)
    requires SyncInv(s, v) && Moved(s, s', t)
    requires s'.nodes == s.nodes && s'.started == s.started && s'.signaled == s.signaled
    requires v'.hand == v.hand && Pending(s'.th[t]) == Pending(s.th[t])
    requires s'.th[t].Wait? ==> s'.th[t].node != NULL
    ensures SyncInv(s', v')
  {
  }

  lemma CountFrame(s: State, s': State, t: Tid, v: View, v': View)
    requires CountInv(s, v) && Moved(s, s', t) && SameCounts(s, s')
    requires v'.weight == v.weight && v'.holds == v.holds
    requires s'.th[t].Hold? == s.th[t].Hold? && s'.th[t].Drain? == s.th[t].Drain?
    requires s'.th[t].Door? == s.th[t].Door?
    ensures CountInv(s', v')
  {
  }

  predicate Idling(s: State) {
    s.tail != NULL && s.suspend == 0 && s.running == 0
  }

  lemma StrandFrame(s: State, s': State, t: Tid)
    requires NoStrand(s) && Moved(s, s', t)
    requires Idling(s') ==> Committed(s'.th[t]) || (Idling(s) && !Committed(s.th[t]))
    ensures NoStrand(s')
  {
    if Idling(s') && !Committed(s'.th[t]) {
      var u :| u in s.th && Committed(s.th[u]);
      assert u in s'.th && Committed(s'.th[u]);
    }
  }

  /** The owner stays where it is, and nothing its locals speak about has changed. */
  lemma OwnerFrame(s: State, s': State, t: Tid)
    requires Moved(s, s', t) && s'.owner == s.owner && s'.signaled == s.signaled
    requires s.owner != t || t in s.signaled
    requires s'.nodes == s.nodes && s'.head == s.head && s'.started == s.started
    requires Locals(s)
    ensures ViewOf(s') == ViewOf(s) && Locals(s')
  {
    assert s.owner in s.th && s.owner != t ==> s'.th[s.owner] == s.th[s.owner];
  }

  lemma NotOwner(s: State, t: Tid, v: View)
    requires CountInv(s, v) && SyncInv(s, v) && t in s.th
    requires !s.th[t].Hold? && !s.th[t].Drain?
    ensures s.owner == t ==> t in s.signaled
    ensures Pending(s.th[t]) == NULL ==> s.owner != t && t !in s.signaled
  {
  }

  // ---------------------------------------------------------------------------------------------
  // Steps of threads that do not own the list
  // ---------------------------------------------------------------------------------------------

  lemma BeginCounts(s: State, t: Tid, call: Call, v: View)
    requires CountInv(s, v) && t in s.th && s.th[t] == Idle && t !in s.signaled
    ensures CountInv(Begin(s, t, call), v)
  {
  }

  lemma BeginKeeps(s: State, t: Tid, call: Call)
    requires Inv(s) && t in s.th && s.th[t] == Idle
    ensures Inv(Begin(s, t, call))
  {
    hide CountInv, ListInv, PushersInv, SyncInv, Locals, ViewOf, NoStrand;
    var s', v := Begin(s, t, call), ViewOf(s);
    NotOwner(s, t, v);
    OwnerFrame(s, s', t);
    ListFrame(s, s', t, v, v);
    SyncFrame(s, s', t, v, v);
    BeginCounts(s, t, call, v);
    StrandFrame(s, s', t);
  }

  lemma WakeCounts(s: State, t: Tid, w: WakePc, node: int, v: View)
    requires CountInv(s, v) && t in s.th && s.th[t] == Wake(w, node)
    ensures CountInv(StepWake(s, t, w, node), v)
  {
  }

  lemma WakeKeeps(s: State, t: Tid, w: WakePc, node: int)
    requires Inv(s) && t in s.th && s.th[t] == Wake(w, node)
    ensures Inv(StepWake(s, t, w, node))
  {
    hide CountInv, ListInv, PushersInv, SyncInv, Locals, ViewOf, NoStrand;
    var s', v := StepWake(s, t, w, node), ViewOf(s);
    NotOwner(s, t, v);
    OwnerFrame(s, s', t);
    ListFrame(s, s', t, v, v);
    SyncFrame(s, s', t, v, v);
    WakeCounts(s, t, w, node, v);
    StrandFrame(s, s', t);
  }

  lemma CheckKeeps(s: State, t: Tid, call: Call)
    requires Inv(s) && t in s.th && s.th[t] == InvCheck
    ensures Inv(Step(s, t, call))
  {
    hide CountInv, ListInv, PushersInv, SyncInv, Locals, ViewOf, NoStrand;
    var s', v := Step(s, t, call), ViewOf(s);
    NotOwner(s, t, v);
    OwnerFrame(s, s', t);
    ListFrame(s, s', t, v, v);
    SyncFrame(s, s', t, v, v);
    CountFrame(s, s', t, v, v);
    StrandFrame(s, s', t);
  }

  lemma XchgPushers(s: State, t: Tid, sync: bool, v: View)
    requires ListInv(s, v) && PushersInv(s, v) && t in s.th && s.th[t] == PushXchg(sync)
    ensures PushersInv(StepXchg(s, t, sync), v)
  {
    TailFacts(s, v);
    hide ListInv;
    var s' := StepXchg(s, t, sync);
    assert forall k :: 0 <= k < |s.nodes| ==> s'.nodes[k] == s.nodes[k];
  }

  /** The tail is NULL exactly when the list is empty, and the last node has no link. */
  lemma TailFacts(s: State, v: View)
    requires ListInv(s, v)
    ensures var n, b := |s.nodes|, |s.started| + v.ahead;
            && b <= n && (s.tail == NULL <==> b == n) && (b == n ==> v.mode == Free && s.head == NULL)
            && (b < n ==> s.tail == n - 1 && s.nodes[n - 1].next == NULL)
  {
  }

  lemma XchgList(s: State, t: Tid, sync: bool, v: View)
    requires ListInv(s, v) && t in s.th && s.th[t] == PushXchg(sync)
    ensures ListInv(StepXchg(s, t, sync), v)
  {
    var s' := StepXchg(s, t, sync);
    var n := |s.nodes|;
    forall k | |s.started| + v.ahead < k < |s'.nodes| ensures Chained(s', k) {
      if k < n {
        assert Chained(s, k);
        assert s'.nodes[k] == s.nodes[k] && s'.nodes[k - 1] == s.nodes[k - 1];
      }
    }
  }

  lemma XchgSync(s: State, t: Tid, sync: bool, v: View)
    requires SyncInv(s, v) && t in s.th && s.th[t] == PushXchg(sync) && t !in s.signaled
    ensures SyncInv(StepXchg(s, t, sync), v)
  {
    var s' := StepXchg(s, t, sync);
    assert forall k :: 0 <= k < |s.nodes| ==> s'.nodes[k] == s.nodes[k];
    forall k | |s.started| <= k < |s'.nodes| && s'.nodes[k].sync ensures Unserved(s', k) {
      if k < |s.nodes| {
        assert Unserved(s, k);
      }
    }
  }

  /** An appended node leaves the owner's locals true. */
  lemma XchgLocals(s: State, t: Tid, sync: bool)
    requires Locals(s) && t in s.th && s.owner != t
    ensures Locals(StepXchg(s, t, sync)) && ViewOf(StepXchg(s, t, sync)) == ViewOf(s)
  {
    var s' := StepXchg(s, t, sync);
    assert s'.nodes[..|s.nodes|] == s.nodes;
    if s.owner in s.th && s.owner !in s.signaled {
      assert s'.th[s.owner] == s.th[s.owner];
      match s.th[s.owner]
      case Hold(h) => HoldGrows(s, s', h);
      case Drain(d) => DrainGrows(s, s', d);
      case _ =>
    }
    hide HoldLocals, DrainLocals;
  }

  /** More nodes at the end leave what the owner knows true. */
  lemma HoldGrows(s: State, s': State, h: HoldPc)
    requires HoldLocals(s, h) && s.nodes <= s'.nodes && s'.started == s.started
    ensures HoldLocals(s', h)
  {
  }

  lemma DrainGrows(s: State, s': State, d: DrainPc)
    requires DrainLocals(s, d) && s.nodes <= s'.nodes && s'.started == s.started && s'.head == s.head
    ensures DrainLocals(s', d)
  {
  }

  lemma XchgKeeps(s: State, t: Tid, sync: bool)
    requires Inv(s) && t in s.th && s.th[t] == PushXchg(sync)
    ensures Inv(StepXchg(s, t, sync))
  {
    hide CountInv, ListInv, PushersInv, SyncInv, Locals, ViewOf, NoStrand;
    var s', v := StepXchg(s, t, sync), ViewOf(s);
    NotOwner(s, t, v);
    XchgLocals(s, t, sync);
    XchgPushers(s, t, sync, v);
    XchgList(s, t, sync, v);
    XchgSync(s, t, sync, v);
    CountFrame(s, s', t, v, v);
    StrandFrame(s, s', t);
  }

  lemma LinkPushers(s: State, t: Tid, node: int, prev: int, sync: bool, v: View)
    requires PushersInv(s, v) && t in s.th && s.th[t] == PushLink(node, prev, sync)
    ensures PushersInv(StepLink(s, t, node, prev, sync), v)
  {
  }

  lemma LinkList(s: State, t: Tid, node: int, prev: int, sync: bool, v: View)
    requires ListInv(s, v) && PushersInv(s, v) && t in s.th && s.th[t] == PushLink(node, prev, sync)
    ensures ListInv(StepLink(s, t, node, prev, sync), v)
  {
    var s' := StepLink(s, t, node, prev, sync);
    assert |s.started| + v.ahead < node < |s.nodes| && prev == node - 1;
    hide PushersInv;
    forall k | |s.started| + v.ahead < k < |s.nodes| ensures Chained(s', k) {
      assert Chained(s, k);
    }
  }

  lemma LinkSync(s: State, t: Tid, node: int, prev: int, sync: bool, v: View)
    requires SyncInv(s, v) && t in s.th && s.th[t] == PushLink(node, prev, sync) && 0 <= node
    ensures SyncInv(StepLink(s, t, node, prev, sync), v)
  {
    var s' := StepLink(s, t, node, prev, sync);
    assert forall k :: 0 <= k < |s.nodes| ==>
      s'.nodes[k].pusher == s.nodes[k].pusher && s'.nodes[k].sync == s.nodes[k].sync;
    forall k | |s.started| <= k < |s.nodes| && s.nodes[k].sync ensures Unserved(s', k) {
      assert Unserved(s, k);
    }
  }

  /** No owner's locals speak of a link that is still to be stored. */
  lemma LinkLocals(s: State, t: Tid, node: int, prev: int, sync: bool)
    requires Locals(s) && PushersInv(s, ViewOf(s)) && t in s.th && s.th[t] == PushLink(node, prev, sync)
    requires s.owner != t || t in s.signaled
    ensures Locals(StepLink(s, t, node, prev, sync)) && ViewOf(StepLink(s, t, node, prev, sync)) == ViewOf(s)
  {
    var s' := StepLink(s, t, node, prev, sync);
    assert forall k :: 0 <= k < |s.nodes| ==>
      s'.nodes[k].sync == s.nodes[k].sync && (k != prev ==> s'.nodes[k] == s.nodes[k]);
    assert s.owner in s.th && s.owner != t ==> s'.th[s.owner] == s.th[s.owner];
  }

  lemma LinkKeeps(s: State, t: Tid, node: int, prev: int, sync: bool)
    requires Inv(s) && t in s.th && s.th[t] == PushLink(node, prev, sync)
    ensures Inv(StepLink(s, t, node, prev, sync))
  {
    hide CountInv, ListInv, SyncInv, Locals, ViewOf, NoStrand;
    var s', v := StepLink(s, t, node, prev, sync), ViewOf(s);
    NotOwner(s, t, v);
    LinkLocals(s, t, node, prev, sync);
    LinkPushers(s, t, node, prev, sync, v);
    LinkList(s, t, node, prev, sync, v);
    LinkSync(s, t, node, prev, sync, v);
    CountFrame(s, s', t, v, v);
    StrandFrame(s, s', t);
  }

  lemma HeadList(s: State, t: Tid, node: int, sync: bool, v: View)
    requires ListInv(s, v) && PushersInv(s, v) && t in s.th && s.th[t] == PushHead(node, sync)
    ensures ListInv(StepHead(s, t, node, sync), v) && PushersInv(StepHead(s, t, node, sync), v)
  {
    var s' := StepHead(s, t, node, sync);
    forall k | |s.started| + v.ahead < k < |s.nodes| ensures Chained(s', k) {
      assert Chained(s, k);
    }
  }

  lemma HeadLocals(s: State, t: Tid, node: int, sync: bool)
    requires Locals(s) && PushersInv(s, ViewOf(s)) && t in s.th && s.th[t] == PushHead(node, sync)
    requires s.owner != t || t in s.signaled
    ensures Locals(StepHead(s, t, node, sync)) && ViewOf(StepHead(s, t, node, sync)) == ViewOf(s)
  {
    var s' := StepHead(s, t, node, sync);
    assert s.owner in s.th && s.owner != t ==> s'.th[s.owner] == s.th[s.owner];
  }

  lemma HeadKeeps(s: State, t: Tid, node: int, sync: bool)
    requires Inv(s) && t in s.th && s.th[t] == PushHead(node, sync)
    ensures Inv(StepHead(s, t, node, sync))
  {
    hide CountInv, ListInv, SyncInv, Locals, ViewOf, NoStrand, PushersInv;
    var s', v := StepHead(s, t, node, sync), ViewOf(s);
    NotOwner(s, t, v);
    HeadLocals(s, t, node, sync);
    HeadList(s, t, node, sync, v);
    SyncFrame(s, s', t, v, v);
    CountFrame(s, s', t, v, v);
    StrandFrame(s, s', t);
  }

  /** Taking the running word from zero makes `t` the only owner. */
  lemma Acquire(s: State, s': State, t: Tid, v: View, v': View)
    requires CountInv(s, v) && Moved(s, s', t) && s.running == 0 && s'.running == 1 == v'.weight
    requires s'.suspend == s.suspend && s'.lock == s.lock && s'.clients == s.clients && s'.signaled == s.signaled
    requires s'.owner == t && !v'.holds && !v.holds && s.owner == NULL
    requires s'.th[t].Hold? || s'.th[t].Drain?
    requires InInvoke(s'.th[t]) == InInvoke(s.th[t])
    ensures CountInv(s', v')
  {
  }

  /** Nobody owns the list while the running word is zero. */
  lemma NoOwner(s: State)
    requires OwnerInv(s, ViewOf(s)) && s.running == 0
    ensures s.owner == NULL && ViewOf(s) == Nobody
  {
  }

  lemma TryKeeps(s: State, t: Tid, f: TryPc)
    requires Inv(s) && t in s.th && s.th[t] == Try(f)
    ensures Inv(StepTry(s, t, f))
  {
    hide ListInv, SyncInv, Locals, ViewOf, NoStrand, PushersInv, LockInv;
    var s', v := StepTry(s, t, f), ViewOf(s);
    NotOwner(s, t, v);
    if f == FastLock && s.running == 0 {
      NoOwner(s);
      AcquiredView(s', t, FastRun);
      var v' := HoldView(FastRun);
      ListFrame(s, s', t, v, v');
      SyncFrame(s, s', t, v, v');
      Acquire(s, s', t, v, v');
    } else {
      OwnerFrame(s, s', t);
      ListFrame(s, s', t, v, v);
      SyncFrame(s, s', t, v, v);
      CountFrame(s, s', t, v, v);
    }
    StrandFrame(s, s', t);
  }

  lemma AcquiredView(s: State, t: Tid, h: HoldPc)
    requires t in s.th && s.owner == t && t !in s.signaled && s.th[t] == Hold(h)
    ensures ViewOf(s) == HoldView(h) && (HoldLocals(s, h) ==> Locals(s))
  {
  }

  lemma DrainingView(s: State, t: Tid, d: DrainPc)
    requires t in s.th && s.owner == t && t !in s.signaled && s.th[t] == Drain(d)
    ensures ViewOf(s) == DrainView(d) && (DrainLocals(s, d) ==> Locals(s))
  {
  }

  lemma UnlockCounts(s: State, t: Tid, v: View)
    requires CountInv(s, v) && t in s.th && s.th[t] == Door(InvUnlock)
    ensures CountInv(StepDoor(s, t, InvUnlock), v) && s.suspend >= 1
  {
  }

  lemma DoorKeeps(s: State, t: Tid, i: DoorPc)
    requires Inv(s) && t in s.th && s.th[t] == Door(i)
    ensures Inv(StepDoor(s, t, i))
  {
    hide ListInv, SyncInv, Locals, ViewOf, NoStrand, PushersInv, LockInv;
    var s', v := StepDoor(s, t, i), ViewOf(s);
    NotOwner(s, t, v);
    if i == InvLock && s.running == 0 {
      NoOwner(s);
      DrainingView(s', t, DrainTail);
      var v' := DrainView(DrainTail);
      ListFrame(s, s', t, v, v');
      SyncFrame(s, s', t, v, v');
      Acquire(s, s', t, v, v');
    } else {
      OwnerFrame(s, s', t);
      ListFrame(s, s', t, v, v);
      SyncFrame(s, s', t, v, v);
      if i == InvUnlock {
        UnlockCounts(s, t, v);
      } else {
        CountFrame(s, s', t, v, v);
      }
    }
    StrandFrame(s, s', t);
  }

  lemma WaitSync(s: State, t: Tid, v: View)
    requires SyncInv(s, v) && t in s.th && s.th[t].Wait? && t in s.signaled
    ensures SyncInv(StepWait(s, t), HoldView(SlowRun)) || v.hand != NULL
  {
    var s' := StepWait(s, t);
    forall k | |s.started| <= k < |s.nodes| && s.nodes[k].sync ensures Unserved(s', k) {
      assert Unserved(s, k);
    }
  }

  lemma WaitCounts(s: State, t: Tid)
    requires CountInv(s, Signaled) && t in s.th && s.th[t].Wait? && t in s.signaled
    ensures CountInv(StepWait(s, t), HoldView(SlowRun)) && StepWait(s, t).owner == t
  {
  }

  lemma WaitKeeps(s: State, t: Tid)
    requires Inv(s) && t in s.th && s.th[t].Wait?
    ensures Inv(StepWait(s, t))
  {
    if t in s.signaled {
      hide ListInv, SyncInv, Locals, ViewOf, NoStrand, PushersInv, LockInv;
      var s', v, v' := StepWait(s, t), ViewOf(s), HoldView(SlowRun);
      assert v == Signaled by { SignaledView(s, t); }
      WaitCounts(s, t);
      AcquiredView(s', t, SlowRun);
      ListFrame(s, s', t, v, v');
      WaitSync(s, t, v);
      StrandFrame(s, s', t);
    }
  }

  lemma SignaledView(s: State, t: Tid)
    requires OwnerInv(s, ViewOf(s)) && t in s.signaled && t in s.th
    ensures s.owner == t && ViewOf(s) == Signaled
  {
  }

  // ---------------------------------------------------------------------------------------------
  // Steps of the owner on the list; `p` is the first node not yet started
  // ---------------------------------------------------------------------------------------------

  predicate Consumes(s: State, s': State, t: Tid) {
    Moved(s, s', t) && !Publishing(s.th[t]) && !Publishing(s'.th[t])
  }

  lemma ClearHead(s: State, s': State, t: Tid, v: View, v': View)
    requires ListInv(s, v) && PushersInv(s, v) && Consumes(s, s', t)
    requires s'.nodes == s.nodes && s'.tail == s.tail && s'.started == s.started && s'.head == NULL
    requires v.mode == AtHead && v'.mode == Held && v'.ahead == v.ahead
    ensures ListInv(s', v') && PushersInv(s', v')
  {
    forall k | |s.started| + v.ahead < k < |s.nodes| ensures Chained(s', k) {
      assert Chained(s, k);
    }
  }

  /** The first node goes and its successor, already linked, becomes the head or stays in hand. */
  lemma Advance(s: State, s': State, t: Tid, v: View, v': View)
    requires ListInv(s, v) && PushersInv(s, v) && Consumes(s, s', t) && v.ahead == 0 == v'.ahead
    requires s'.nodes == s.nodes && s'.tail == s.tail && |s'.started| == |s.started| + 1 < |s.nodes|
    requires v.mode == AtHead || v.mode == Held
    requires s.nodes[|s.started|].next == |s.started| + 1
    requires (v'.mode == Free && s'.head == |s.started| + 1) || (v'.mode == Held && s'.head == NULL)
    ensures ListInv(s', v') && PushersInv(s', v')
  {
    forall k | |s'.started| < k < |s.nodes| ensures Chained(s', k) {
      assert Chained(s, k);
    }
  }

  /** The exchange of the tail from the last node to NULL empties the list. */
  lemma SwingTail(s: State, s': State, t: Tid, v: View, v': View)
    requires ListInv(s, v) && PushersInv(s, v) && Consumes(s, s', t) && v.ahead == 0
    requires s'.nodes == s.nodes && s'.head == s.head && s'.tail == NULL
    requires v.mode == Held && s.tail == |s.started| && v'.mode == Free
    requires |s'.started| + v'.ahead == |s.started| + 1
    ensures ListInv(s', v') && PushersInv(s', v')
  {
  }

  /** A nonempty link of the first node names its successor in push order. */
  lemma NextIsSuccessor(s: State, v: View)
    requires ListInv(s, v) && v.ahead == 0 && |s.started| < |s.nodes|
    ensures s.tail != |s.started| ==> |s.started| + 1 < |s.nodes|
    ensures s.nodes[|s.started|].next != NULL ==>
              |s.started| + 1 < |s.nodes| && s.nodes[|s.started|].next == |s.started| + 1
  {
    if |s.started| + 1 < |s.nodes| {
      assert Chained(s, |s.started| + 1);
    }
  }

  /** Starting node `p`: a synchronous one is now in the owner's hand. */
  lemma StartSync(s: State, s': State, t: Tid, v: View, v': View)
    requires SyncInv(s, v) && Moved(s, s', t) && v.hand == NULL
    requires s'.nodes == s.nodes && s'.signaled == s.signaled && |s'.started| == |s.started| + 1 <= |s.nodes|
    requires Pending(s.th[t]) == NULL == Pending(s'.th[t]) && !s'.th[t].Wait?
    requires v'.hand == if s.nodes[|s.started|].sync then |s.started| else NULL
    ensures SyncInv(s', v')
  {
    forall k | |s.started| <= k < |s.nodes| && s.nodes[k].sync ensures Unserved(s', k) {
      assert Unserved(s, k);
    }
  }

  lemma SignalSync(s: State, s': State, t: Tid, v: View, v': View)
    requires SyncInv(s, v) && Moved(s, s', t) && v.hand != NULL && v'.hand == NULL
    requires s'.nodes == s.nodes && s'.started == s.started
    requires Pending(s.th[t]) == NULL == Pending(s'.th[t]) && !s'.th[t].Wait?
    requires 0 <= v.hand < |s.nodes| && s'.signaled == s.signaled + {s.nodes[v.hand].pusher}
    ensures SyncInv(s', v')
  {
    assert Unserved(s, v.hand);
    forall k | |s.started| <= k < |s.nodes| && s.nodes[k].sync ensures Unserved(s', k) {
      assert Unserved(s, k);
    }
  }

  /** The signal makes the pusher of the handed node the owner in place of `t`. */
  lemma SignalCounts(s: State, s': State, t: Tid, v: View)
    requires CountInv(s, v) && SyncInv(s, v) && Moved(s, s', t) && s.owner == t && t !in s.signaled
    requires s.th[t].Hold? || s.th[t].Drain?
    requires v.hand != NULL && v.weight == 2 && v.holds
    requires s' == Signal(s, v.hand).(th := s'.th)
    requires !s'.th[t].Hold? && !s'.th[t].Drain? && InInvoke(s'.th[t]) == InInvoke(s.th[t])
    ensures CountInv(s', Signaled) && ViewOf(s') == Signaled && Locals(s')
  {
    assert Unserved(s, v.hand);
  }

  lemma HoldOwner(s: State, t: Tid, h: HoldPc)
    requires Inv(s) && t in s.th && s.th[t] == Hold(h)
    ensures s.owner == t && t !in s.signaled && ViewOf(s) == HoldView(h) && HoldLocals(s, h)
  {
    hide ListInv, PushersInv, NoStrand, Fifo, LockInv;
  }

  lemma DrainOwner(s: State, t: Tid, d: DrainPc)
    requires Inv(s) && t in s.th && s.th[t] == Drain(d)
    ensures s.owner == t && t !in s.signaled && ViewOf(s) == DrainView(d) && DrainLocals(s, d)
  {
    hide ListInv, PushersInv, NoStrand, Fifo, LockInv;
  }

  /** Steps that only look: the owner's view does not change. */
  lemma HoldLooks(s: State, t: Tid, h: HoldPc, h': HoldPc)
    requires Inv(s) && t in s.th && s.th[t] == Hold(h) && HoldView(h') == HoldView(h)
    requires HoldLocals(s, h) ==> HoldLocals(Go(s, t, Hold(h')), h')
    ensures Inv(Go(s, t, Hold(h')))
  {
    hide CountInv, ListInv, SyncInv, Locals, ViewOf, NoStrand, PushersInv, HoldView, HoldLocals;
    var s', v := Go(s, t, Hold(h')), HoldView(h);
    HoldOwner(s, t, h);
    AcquiredView(s', t, h');
    ListFrame(s, s', t, v, v);
    SyncFrame(s, s', t, v, v);
    CountFrame(s, s', t, v, v);
    StrandFrame(s, s', t);
  }

  lemma LeaveCounts(s: State, t: Tid, k: nat, v: View)
    requires CountInv(s, v) && t in s.th && s.th[t].Hold? && s.owner == t && t !in s.signaled
    requires v.weight == k && !v.holds
    ensures CountInv(Leave(s, t, k), Nobody) && ViewOf(Leave(s, t, k)) == Nobody && Locals(Leave(s, t, k))
    ensures Committed(Leave(s, t, k).th[t])
  {
  }

  lemma HoldWordsCounts(s: State, t: Tid, h: HoldPc, v: View, h': HoldPc)
    requires CountInv(s, v) && t in s.th && s.th[t] == Hold(h) && v == HoldView(h) && s.owner == t && t !in s.signaled
    requires h.SlowSubSuspend? || h.HandSuspend? || h.HandRunning?
    requires StepHold(s, t, h).th[t] == Hold(h')
    ensures CountInv(StepHold(s, t, h), HoldView(h'))
  {
  }

  /** Steps that change the running or the suspend word and keep the list. */
  lemma HoldWordsKeep(s: State, t: Tid, h: HoldPc)
    requires Inv(s) && t in s.th && s.th[t] == Hold(h)
    requires h.SlowSubSuspend? || h.HandSuspend? || h.HandRunning?
    ensures Inv(StepHold(s, t, h))
  {
    hide CountInv, ListInv, SyncInv, Locals, ViewOf, NoStrand, PushersInv;
    var s', v := StepHold(s, t, h), HoldView(h);
    var h' := s'.th[t].h;
    HoldOwner(s, t, h);
    AcquiredView(s', t, h');
    ListFrame(s, s', t, v, HoldView(h'));
    SyncFrame(s, s', t, v, HoldView(h'));
    HoldWordsCounts(s, t, h, v, h');
    CountsPositive(s, v);
    StrandFrame(s, s', t);
  }

  lemma CountsPositive(s: State, v: View)
    requires CountInv(s, v)
    ensures s.running == v.weight && (v.holds ==> s.suspend >= 2)
  {
  }

  lemma HoldLeaves(s: State, t: Tid, h: HoldPc)
    requires Inv(s) && t in s.th && s.th[t] == Hold(h) && (h.FastDec? || h.SlowSubRunning?)
    ensures Inv(StepHold(s, t, h))
  {
    hide CountInv, ListInv, SyncInv, Locals, ViewOf, NoStrand, PushersInv, Leave;
    var s', v := StepHold(s, t, h), HoldView(h);
    HoldOwner(s, t, h);
    LeaveCounts(s, t, v.weight, v);
    LeaveMoves(s, t, v.weight);
    ListFrame(s, s', t, v, Nobody);
    SyncFrame(s, s', t, v, Nobody);
    StrandFrame(s, s', t);
  }

  lemma LeaveMoves(s: State, t: Tid, k: nat)
    requires t in s.th
    ensures var s' := Leave(s, t, k);
            && Moved(s, s', t) && (s'.th[t] == Wake(WakeSuspend, NULL) || s'.th[t] == Idle)
            && s' == s.(running := s'.running, owner := NULL, th := s'.th)
  {
  }

  lemma HoldSignals(s: State, t: Tid, sema: int)
    requires Inv(s) && t in s.th && s.th[t] == Hold(HandSignal(sema)) && sema != NULL
    ensures Inv(StepHold(s, t, HandSignal(sema)))
  {
    hide CountInv, ListInv, Locals, ViewOf, NoStrand, PushersInv;
    var s', v := StepHold(s, t, HandSignal(sema)), HoldView(HandSignal(sema));
    HoldOwner(s, t, HandSignal(sema));
    assert 0 <= sema < |s.nodes| && Unserved(s, sema);
    hide SyncInv;
    SignalCounts(s, s', t, v);
    ListFrame(s, s', t, v, Signaled);
    SignalSync(s, s', t, v, Signaled);
    CountsPositive(s, v);
    StrandFrame(s, s', t);
  }

  /** The owner has the first node in sight and takes a synchronous one off the list. */
  lemma OneTakes(s: State, t: Tid, h: HoldPc)
    requires Inv(s) && t in s.th && s.th[t] == Hold(h)
    requires (h.OneStore? && h.next != NULL) || (h.OneTail? && s.tail == h.dc) || h.OneStoreNext?
    ensures Inv(StepHold(s, t, h))
  {
    hide CountInv, ListInv, SyncInv, Locals, ViewOf, NoStrand, PushersInv;
    var s', v := StepHold(s, t, h), HoldView(h);
    var h' := s'.th[t].h;
    var v' := HoldView(h');
    HoldOwner(s, t, h);
    AcquiredView(s', t, h');
    if h.OneTail? {
      SwingTail(s, s', t, v, v');
    } else {
      Advance(s, s', t, v, v');
    }
    StartSync(s, s', t, v, v');
    CountFrame(s, s', t, v, v');
    CountsPositive(s, v);
    StrandFrame(s, s', t);
  }

  lemma OneClears(s: State, t: Tid, h: HoldPc)
    requires Inv(s) && t in s.th && s.th[t] == Hold(h) && h.OneStore? && h.next == NULL
    ensures Inv(StepHold(s, t, h))
  {
    hide CountInv, ListInv, SyncInv, Locals, ViewOf, NoStrand, PushersInv;
    var s', v, v' := StepHold(s, t, h), HoldView(h), HoldView(OneTail(h.fast, h.dc));
    HoldOwner(s, t, h);
    AcquiredView(s', t, OneTail(h.fast, h.dc));
    ClearHead(s, s', t, v, v');
    SyncFrame(s, s', t, v, v');
    CountFrame(s, s', t, v, v');
    CountsPositive(s, v);
    StrandFrame(s, s', t);
  }

  /** The head the owner reads is the first node not yet started. */
  lemma HeadIsFirst(s: State, v: View)
    requires ListInv(s, v) && v.mode == Free && s.head != NULL
    ensures s.head == |s.started| + v.ahead < |s.nodes|
  {
  }

  lemma OneFinds(s: State, t: Tid, fast: bool)
    requires Inv(s) && t in s.th && s.th[t] == Hold(OneHead(fast)) && s.head != NULL && IsSync(s, s.head)
    ensures Inv(StepHold(s, t, OneHead(fast)))
  {
    hide CountInv, ListInv, SyncInv, Locals, ViewOf, NoStrand, PushersInv;
    var h, h' := OneHead(fast), OneNext(fast, s.head);
    var s', v, v' := StepHold(s, t, h), HoldView(h), HoldView(h');
    HoldOwner(s, t, h);
    HeadIsFirst(s, v);
    AcquiredView(s', t, h');
    ListFrame(s, s', t, v, v');
    SyncFrame(s, s', t, v, v');
    CountFrame(s, s', t, v, v');
    CountsPositive(s, v);
    StrandFrame(s, s', t);
  }

  lemma HoldKeeps(s: State, t: Tid, h: HoldPc)
    requires Inv(s) && t in s.th && s.th[t] == Hold(h)
    ensures Inv(StepHold(s, t, h))
  {
    hide CountInv, ListInv, SyncInv, Locals, ViewOf, NoStrand, PushersInv;
    HoldOwner(s, t, h);
    CountsPositive(s, HoldView(h));
    match h
    case SlowSubSuspend => HoldWordsKeep(s, t, h);
    case HandSuspend(_) => HoldWordsKeep(s, t, h);
    case HandRunning(_) => HoldWordsKeep(s, t, h);
    case FastDec => HoldLeaves(s, t, h);
    case SlowSubRunning => HoldLeaves(s, t, h);
    case HandSignal(sema) => HoldSignals(s, t, sema);
    case OneStoreNext(_, _, _) => OneTakes(s, t, h);
    case OneStore(_, _, next) =>
      if next == NULL { OneClears(s, t, h); } else { OneTakes(s, t, h); }
    case OneTail(fast, dc) =>
      if s.tail == dc { OneTakes(s, t, h); }
      else { NextIsSuccessor(s, HoldView(h)); HoldLooks(s, t, h, OneSpin(fast, dc)); }
    case OneHead(fast) =>
      if s.head != NULL && IsSync(s, s.head) { OneFinds(s, t, fast); }
      else { HoldLooks(s, t, h, if fast then FastDec else SlowSubSuspend); }
    case OneNext(fast, dc) =>
      NextIsSuccessor(s, HoldView(h));
      HoldLooks(s, t, h, OneStore(fast, dc, NextOf(s, dc)));
    case OneSpin(fast, dc) =>
      NextIsSuccessor(s, HoldView(h));
      if NextOf(s, dc) != NULL { HoldLooks(s, t, h, OneStoreNext(fast, dc, NextOf(s, dc))); }
    case _ => HoldLooks(s, t, h, StepHold(s, t, h).th[t].h);
  }

  lemma DrainLooks(s: State, t: Tid, d: DrainPc, d': DrainPc)
    requires Inv(s) && t in s.th && s.th[t] == Drain(d)
    requires DrainLocals(s, d) ==> DrainLocals(Go(s, t, Drain(d')), d')
    requires DrainView(d') == DrainView(d)
             || (DrainView(d).mode == Free && s.head != NULL && DrainView(d') == DrainView(d).(mode := AtHead))
             || (DrainView(d).mode == Held && DrainView(d') == DrainView(d).(mode := Putting))
    ensures Inv(Go(s, t, Drain(d')))
  {
    hide CountInv, ListInv, SyncInv, Locals, ViewOf, NoStrand, PushersInv, DrainView, DrainLocals;
    var s', v, v' := Go(s, t, Drain(d')), DrainView(d), DrainView(d');
    DrainOwner(s, t, d);
    DrainingView(s', t, d');
    ListFrame(s, s', t, v, v');
    SyncFrame(s, s', t, v, v');
    CountFrame(s, s', t, v, v');
    StrandFrame(s, s', t);
  }

  /** The drainer takes the head, or swings the tail behind the last node. */
  lemma DrainDetaches(s: State, t: Tid, d: DrainPc)
    requires Inv(s) && t in s.th && s.th[t] == Drain(d)
    requires d.DrainClear? || (d.DrainSwing? && s.tail == d.dc)
    ensures Inv(StepDrain(s, t, d))
  {
    hide CountInv, ListInv, SyncInv, Locals, ViewOf, NoStrand, PushersInv;
    var s', v := StepDrain(s, t, d), DrainView(d);
    var v' := DrainView(s'.th[t].d);
    DrainOwner(s, t, d);
    if d.DrainClear? {
      ClearHead(s, s', t, v, v');
    } else {
      SwingTail(s, s', t, v, v');
      LastUnlinked(s, v);
    }
    DrainingView(s', t, s'.th[t].d);
    SyncFrame(s, s', t, v, v');
    CountFrame(s, s', t, v, v');
    CountsPositive(s, v);
    StrandFrame(s, s', t);
  }

  lemma LastUnlinked(s: State, v: View)
    requires ListInv(s, v) && v.ahead == 0 && s.tail == |s.started|
    ensures |s.started| < |s.nodes| ==> s.nodes[|s.started|].next == NULL
  {
  }

  lemma DrainStarts(s: State, t: Tid, dc: int, next: int)
    requires Inv(s) && t in s.th && s.th[t] == Drain(DrainWidth(dc, next)) && s.running <= 1
    ensures Inv(StepDrain(s, t, DrainWidth(dc, next)))
  {
    hide CountInv, ListInv, SyncInv, Locals, ViewOf, NoStrand, PushersInv;
    var d := DrainWidth(dc, next);
    var s', v := StepDrain(s, t, d), DrainView(d);
    var v' := DrainView(s'.th[t].d);
    DrainOwner(s, t, d);
    DrainingView(s', t, s'.th[t].d);
    if next == NULL {
      ListFrame(s, s', t, v, v');
    } else {
      HeldHead(s, v);
      Advance(s, s', t, v, v');
    }
    StartSync(s, s', t, v, v');
    CountFrame(s, s', t, v, v');
    CountsPositive(s, v);
    StrandFrame(s, s', t);
  }

  lemma HeldHead(s: State, v: View)
    requires ListInv(s, v) && v.mode == Held
    ensures s.head == NULL
  {
  }

  /** Putting back a detached node when nothing was pushed behind it. */
  lemma PutTail(s: State, s': State, t: Tid, v: View, v': View)
    requires ListInv(s, v) && PushersInv(s, v) && Consumes(s, s', t) && v.ahead == 1 && v'.ahead == 0
    requires s'.nodes == s.nodes && s'.started == s.started && s'.head == s.head
    requires |s.started| < |s.nodes| && s.nodes[|s.started|].next == NULL
    requires v.mode == Free && s.tail == NULL && s'.tail == |s.started| && v'.mode == Putting
    ensures ListInv(s', v') && PushersInv(s', v')
  {
  }

  /** Putting back a detached node in front of what was pushed meanwhile. */
  lemma Relink(s: State, s': State, t: Tid, v: View, v': View)
    requires ListInv(s, v) && PushersInv(s, v) && Consumes(s, s', t) && v.ahead == 1 && v'.ahead == 0
    requires |s.started| + 1 < |s.nodes| && s.head == |s.started| + 1
    requires s' == SetNext(s, |s.started|, |s.started| + 1).(th := s'.th)
    requires v.mode == Free && v'.mode == Putting
    ensures ListInv(s', v') && PushersInv(s', v')
  {
    forall k | |s.started| < k < |s.nodes| ensures Chained(s', k) {
      if k > |s.started| + 1 {
        assert Chained(s, k);
      }
    }
  }

  lemma RelinkSync(s: State, s': State, t: Tid, v: View, v': View)
    requires SyncInv(s, v) && Moved(s, s', t) && v'.hand == v.hand
    requires |s.started| < |s.nodes| && s' == SetNext(s, |s.started|, |s.started| + 1).(th := s'.th)
    requires Pending(s.th[t]) == NULL == Pending(s'.th[t]) && !s'.th[t].Wait?
    ensures SyncInv(s', v')
  {
    forall k | |s.started| <= k < |s.nodes| && s.nodes[k].sync ensures Unserved(s', k) {
      assert Unserved(s, k);
    }
    if v.hand != NULL {
      assert Unserved(s, v.hand);
    }
  }

  lemma PutHead(s: State, s': State, t: Tid, v: View, v': View)
    requires ListInv(s, v) && PushersInv(s, v) && Consumes(s, s', t) && v.ahead == 0 == v'.ahead
    requires s'.nodes == s.nodes && s'.started == s.started && s'.tail == s.tail && s'.head == |s.started| < |s.nodes|
    requires v.mode == Putting && v'.mode == Free
    ensures ListInv(s', v') && PushersInv(s', v')
  {
    forall k | |s.started| < k < |s.nodes| ensures Chained(s', k) {
      assert Chained(s, k);
    }
  }

  lemma DrainPutsBack(s: State, t: Tid, d: DrainPc)
    requires Inv(s) && t in s.th && s.th[t] == Drain(d)
    requires (d.OutTail? && s.tail == NULL) || d.OutLink? || d.OutHead?
    ensures Inv(StepDrain(s, t, d))
  {
    hide CountInv, ListInv, SyncInv, Locals, ViewOf, NoStrand, PushersInv;
    var s', v := StepDrain(s, t, d), DrainView(d);
    var v' := DrainView(s'.th[t].d);
    DrainOwner(s, t, d);
    DrainingView(s', t, s'.th[t].d);
    CountFrame(s, s', t, v, v');
    CountsPositive(s, v);
    StrandFrame(s, s', t);
    if d.OutTail? {
      PutTail(s, s', t, v, v');
      SyncFrame(s, s', t, v, v');
    } else if d.OutLink? {
      Relink(s, s', t, v, v');
      RelinkSync(s, s', t, v, v');
    } else {
      PutHead(s, s', t, v, v');
      SyncFrame(s, s', t, v, v');
    }
  }

  predicate ChangesWords(d: DrainPc) {
    d.PopSuspend? || d.PopRunning? || (d.InvDec? && d.sema != NULL)
  }

  lemma DrainWordsCounts(s: State, t: Tid, d: DrainPc, v: View, d': DrainPc)
    requires CountInv(s, v) && t in s.th && s.th[t] == Drain(d) && v == DrainView(d) && s.owner == t && t !in s.signaled
    requires ChangesWords(d) && DrainLocals(s, d)
    requires StepDrain(s, t, d).th[t] == Drain(d')
    ensures CountInv(StepDrain(s, t, d), DrainView(d'))
  {
  }

  lemma DrainWordsKeep(s: State, t: Tid, d: DrainPc)
    requires Inv(s) && t in s.th && s.th[t] == Drain(d) && ChangesWords(d)
    ensures Inv(StepDrain(s, t, d))
  {
    hide CountInv, ListInv, SyncInv, Locals, ViewOf, NoStrand, PushersInv;
    var s', v := StepDrain(s, t, d), DrainView(d);
    var v' := DrainView(s'.th[t].d);
    DrainOwner(s, t, d);
    DrainingView(s', t, s'.th[t].d);
    ListFrame(s, s', t, v, v');
    SyncFrame(s, s', t, v, v');
    DrainWordsCounts(s, t, d, v, s'.th[t].d);
    CountsPositive(s', v');
    StrandFrame(s, s', t);
  }

  lemma DrainLeaveCounts(s: State, t: Tid, v: View)
    requires CountInv(s, v) && t in s.th && s.th[t] == Drain(InvDec(NULL)) && v == DrainView(InvDec(NULL))
    requires s.owner == t && t !in s.signaled
    ensures var s' := StepDrain(s, t, InvDec(NULL));
            CountInv(s', Nobody) && ViewOf(s') == Nobody && Locals(s') && s'.suspend != 0
  {
  }

  lemma DrainLeaves(s: State, t: Tid)
    requires Inv(s) && t in s.th && s.th[t] == Drain(InvDec(NULL))
    ensures Inv(StepDrain(s, t, InvDec(NULL)))
  {
    hide CountInv, ListInv, SyncInv, Locals, ViewOf, NoStrand, PushersInv;
    var s', v := StepDrain(s, t, InvDec(NULL)), DrainView(InvDec(NULL));
    DrainOwner(s, t, InvDec(NULL));
    DrainLeaveCounts(s, t, v);
    ListFrame(s, s', t, v, Nobody);
    SyncFrame(s, s', t, v, Nobody);
    StrandFrame(s, s', t);
  }

  lemma DrainSignals(s: State, t: Tid, sema: int)
    requires Inv(s) && t in s.th && s.th[t] == Drain(InvSignal(sema)) && sema != NULL
    ensures Inv(StepDrain(s, t, InvSignal(sema)))
  {
    hide CountInv, ListInv, Locals, ViewOf, NoStrand, PushersInv;
    var s', v := StepDrain(s, t, InvSignal(sema)), DrainView(InvSignal(sema));
    DrainOwner(s, t, InvSignal(sema));
    assert 0 <= sema < |s.nodes| && Unserved(s, sema);
    hide SyncInv;
    SignalCounts(s, s', t, v);
    ListFrame(s, s', t, v, Signaled);
    SignalSync(s, s', t, v, Signaled);
    CountsPositive(s, v);
    StrandFrame(s, s', t);
  }

  lemma TailNonempty(s: State, v: View)
    requires ListInv(s, v) && s.tail != NULL
    ensures |s.started| + v.ahead < |s.nodes|
  {
  }

  /** The drain takes the next item off the list. */
  predicate Taking(d: DrainPc) {
    d.DrainTail? || d.DrainHead? || d.DrainClear? || d.DrainNext? || d.DrainSwing? || d.DrainSpin?
  }

  /** The drain puts an item back. */
  predicate PuttingBack(d: DrainPc) {
    d.OutTail? || d.OutSpin? || d.OutLink? || d.OutHead?
  }

  lemma TakingKeeps(s: State, t: Tid, d: DrainPc)
    requires Inv(s) && t in s.th && s.th[t] == Drain(d) && Taking(d)
    ensures Inv(StepDrain(s, t, d))
  {
    hide CountInv, ListInv, SyncInv, Locals, ViewOf, NoStrand, PushersInv;
    DrainOwner(s, t, d);
    var v := DrainView(d);
    match d
    case DrainTail =>
      if s.tail != NULL { TailNonempty(s, v); }
      DrainLooks(s, t, d, if s.tail == NULL then InvDec(NULL) else DrainHead);
    case DrainHead =>
      if s.head != NULL { HeadIsFirst(s, v); DrainLooks(s, t, d, DrainClear(s.head)); }
    case DrainClear(_) => DrainDetaches(s, t, d);
    case DrainNext(dc) => NextIsSuccessor(s, v); DrainLooks(s, t, d, StepDrain(s, t, d).th[t].d);
    case DrainSwing(dc) =>
      if s.tail == dc { DrainDetaches(s, t, d); }
      else { NextIsSuccessor(s, v); DrainLooks(s, t, d, DrainSpin(dc)); }
    case DrainSpin(dc) =>
      NextIsSuccessor(s, v);
      if NextOf(s, dc) != NULL { DrainLooks(s, t, d, DrainSuspend(dc, NextOf(s, dc))); }
  }

  lemma PuttingBackKeeps(s: State, t: Tid, d: DrainPc)
    requires Inv(s) && t in s.th && s.th[t] == Drain(d) && PuttingBack(d)
    ensures Inv(StepDrain(s, t, d))
  {
    hide CountInv, ListInv, SyncInv, Locals, ViewOf, NoStrand, PushersInv;
    DrainOwner(s, t, d);
    var v := DrainView(d);
    match d
    case OutTail(dc) =>
      if s.tail == NULL { DrainPutsBack(s, t, d); }
      else { TailNonempty(s, v); DrainLooks(s, t, d, OutSpin(dc)); }
    case OutSpin(dc) =>
      if s.head != NULL { HeadIsFirst(s, v); DrainLooks(s, t, d, OutLink(dc, s.head)); }
    case OutLink(_, _) => DrainPutsBack(s, t, d);
    case OutHead(_, _) => DrainPutsBack(s, t, d);
  }

  lemma DrainKeeps(s: State, t: Tid, d: DrainPc)
    requires Inv(s) && t in s.th && s.th[t] == Drain(d)
    ensures Inv(StepDrain(s, t, d))
  {
    if Taking(d) {
      TakingKeeps(s, t, d);
    } else if PuttingBack(d) {
      PuttingBackKeeps(s, t, d);
    } else {
      hide CountInv, ListInv, SyncInv, Locals, ViewOf, NoStrand, PushersInv;
      DrainOwner(s, t, d);
      CountsPositive(s, DrainView(d));
      match d
      case DrainSuspend(_, _) => DrainLooks(s, t, d, StepDrain(s, t, d).th[t].d);
      case DrainWidth(dc, next) => DrainStarts(s, t, dc, next);
      case DrainRun(_, _) => DrainLooks(s, t, d, StepDrain(s, t, d).th[t].d);
      case PopSuspend(_, _) => DrainWordsKeep(s, t, d);
      case PopRunning(_, _) => DrainWordsKeep(s, t, d);
      case InvDec(sema) =>
        if sema == NULL { DrainLeaves(s, t); } else { DrainWordsKeep(s, t, d); }
      case InvSignal(sema) => DrainSignals(s, t, sema);
    }
  }

  // ---------------------------------------------------------------------------------------------
  // Every run
  // ---------------------------------------------------------------------------------------------

  lemma HoldThreads(s: State, t: Tid, h: HoldPc)
    requires t in s.th
    ensures StepHold(s, t, h).th.Keys == s.th.Keys
  {
  }

  lemma DrainThreads(s: State, t: Tid, d: DrainPc)
    requires t in s.th
    ensures StepDrain(s, t, d).th.Keys == s.th.Keys
  {
  }

  lemma StepThreads(s: State, t: Tid, call: Call)
    requires t in s.th
    ensures Step(s, t, call).th.Keys == s.th.Keys
  {
    hide StepHold, StepDrain;
    match s.th[t]
    case Hold(h) => HoldThreads(s, t, h);
    case Drain(d) => DrainThreads(s, t, d);
    case _ =>
  }

  lemma StepKeeps(s: State, t: Tid, call: Call)
    requires Inv(s) && t in s.th
    ensures Inv(Step(s, t, call)) && Step(s, t, call).th.Keys == s.th.Keys
  {
    StepThreads(s, t, call);
    hide Inv, Begin, StepXchg, StepLink, StepHead, StepWake, StepTry, StepWait, StepDoor, StepHold, StepDrain;
    match s.th[t]
    case Idle => BeginKeeps(s, t, call);
    case PushXchg(sync) => XchgKeeps(s, t, sync);
    case PushLink(node, prev, sync) => LinkKeeps(s, t, node, prev, sync);
    case PushHead(node, sync) => HeadKeeps(s, t, node, sync);
    case Wake(w, node) => WakeKeeps(s, t, w, node);
    case Wait(_) => WaitKeeps(s, t);
    case Try(f) => TryKeeps(s, t, f);
    case Door(i) => DoorKeeps(s, t, i);
    case InvCheck => CheckKeeps(s, t, call);
    case Hold(h) => HoldKeeps(s, t, h);
    case Drain(d) => DrainKeeps(s, t, d);
  }

  lemma {:induction false} RunKeeps(s: State, schedule: seq<(Tid, Call)>)
    requires Inv(s)
    ensures Inv(Run(s, schedule)) && Run(s, schedule).th.Keys == s.th.Keys
    decreases |schedule|
  {
    hide Inv, Step;
    if schedule != [] {
      var (t, call) := schedule[0];
      if t in s.th {
        StepKeeps(s, t, call);
      }
      RunKeeps(if t in s.th then Step(s, t, call) else s, schedule[1..]);
    }
  }

  /** The state a schedule reaches from an idle queue. */
  function Reached(threads: set<Tid>, schedule: seq<(Tid, Call)>): State {
    Run(Init(threads), schedule)
  }

  lemma ReachedInv(threads: set<Tid>, schedule: seq<(Tid, Call)>)
    ensures Inv(Reached(threads, schedule)) && Reached(threads, schedule).th.Keys == threads
  {
    hide Inv;
    InitInv(threads);
    RunKeeps(Init(threads), schedule);
  }

  /** A thread inside a work item of the queue: drained, fast synchronous or slow synchronous. */
  predicate Executing(pc: Pc) {
    pc == Hold(FastRun) || pc == Hold(SlowRun) || (pc.Drain? && pc.d.DrainRun?)
  }

  /** Never two work items at a time, and the running word is not zero while one executes. */
  lemma MutualExclusion(threads: set<Tid>, schedule: seq<(Tid, Call)>, t: Tid, u: Tid)
    requires t in threads && u in threads
    ensures var s := Reached(threads, schedule);
            && t in s.th && u in s.th
            && (Executing(s.th[t]) && Executing(s.th[u]) ==> t == u)
            && (Executing(s.th[t]) ==> s.running != 0)
  {
    ReachedInv(threads, schedule);
    var s := Reached(threads, schedule);
    hide Inv, Run, Reached, Init;
    Exclusive(s, t, u);
  }

  lemma Exclusive(s: State, t: Tid, u: Tid)
    requires Inv(s) && t in s.th && u in s.th
    ensures Executing(s.th[t]) && Executing(s.th[u]) ==> t == u
    ensures Executing(s.th[t]) ==> s.running != 0
  {
    hide ListInv, PushersInv, LockInv, NoStrand, Fifo, Locals;
  }

  /** The list is a FIFO queue: what has been started is exactly a prefix of the push order. */
  lemma FirstInFirstOut(threads: set<Tid>, schedule: seq<(Tid, Call)>)
    ensures var s := Reached(threads, schedule);
            |s.started| <= |s.nodes| && forall i :: 0 <= i < |s.started| ==> s.started[i] == i
  {
    ReachedInv(threads, schedule);
    hide Run, Reached, Init;
    Prefix(Reached(threads, schedule));
  }

  lemma Prefix(s: State)
    requires Inv(s)
    ensures |s.started| <= |s.nodes| && forall i :: 0 <= i < |s.started| ==> s.started[i] == i
  {
  }

  /** Work waiting on a queue that is neither running nor suspended has a thread bound to wake it. */
  lemma NoStrandedWork(threads: set<Tid>, schedule: seq<(Tid, Call)>)
    ensures var s := Reached(threads, schedule);
            |s.started| < |s.nodes| && s.suspend == 0 && s.running == 0 ==>
              exists t :: t in s.th && Committed(s.th[t])
  {
    ReachedInv(threads, schedule);
    hide Run, Reached, Init;
    Unstranded(Reached(threads, schedule));
  }

  lemma Unstranded(s: State)
    requires Inv(s)
    ensures |s.started| < |s.nodes| && s.suspend == 0 && s.running == 0 ==>
              exists t :: t in s.th && Committed(s.th[t])
  {
    hide PushersInv, LockInv, Fifo, Locals, SyncInv;
    if |s.started| < |s.nodes| && s.suspend == 0 && s.running == 0 {
      NoOwner(s);
    }
  }

  /** Nobody can move: every thread is idle or blocked, the queue is not on its target, not suspended. */
  predicate Quiescent(s: State) {
    && (forall u :: u in s.th ==> s.th[u] == Idle || (s.th[u].Wait? && u !in s.signaled))
    && s.lock == Unlocked && s.clients == 0
  }

  /** When nothing can move, all that was pushed has been started and no caller is left waiting. */
  lemma NothingLost(threads: set<Tid>, schedule: seq<(Tid, Call)>)
    ensures var s := Reached(threads, schedule);
            Quiescent(s) ==>
              && |s.started| == |s.nodes| && s.head == NULL && s.tail == NULL
              && s.running == 0 && s.suspend == 0
              && forall u :: u in s.th ==> s.th[u] == Idle
  {
    ReachedInv(threads, schedule);
    hide Run, Reached, Init;
    var s := Reached(threads, schedule);
    if Quiescent(s) {
      QuietOwner(s);
      Unstranded(s);
      QuietList(s);
    }
  }

  lemma QuietOwner(s: State)
    requires Inv(s) && Quiescent(s)
    ensures s.owner == NULL && s.running == 0 && s.suspend == 0 && ViewOf(s) == Nobody
  {
    hide ListInv, PushersInv, NoStrand, Fifo, Locals;
  }

  lemma QuietList(s: State)
    requires Inv(s) && Quiescent(s) && ViewOf(s) == Nobody
    requires |s.started| < |s.nodes| ==> exists t :: t in s.th && Committed(s.th[t])
    ensures |s.started| == |s.nodes| && s.head == NULL && s.tail == NULL
    ensures forall u :: u in s.th ==> s.th[u] == Idle
  {
    hide PushersInv, NoStrand, Fifo, Locals, CountInv;
  }

  /** The four loops that wait for a pusher: for the head, or for a link. */
  predicate Spinning(s: State, pc: Pc) {
    match pc
    case Hold(OneSpin(_, dc)) => NextOf(s, dc) == NULL
    case Drain(DrainHead) => s.head == NULL
    case Drain(DrainSpin(dc)) => NextOf(s, dc) == NULL
    case Drain(OutSpin(_)) => s.head == NULL
    case _ => false
  }

  /** A spinning owner waits for one other thread that is a single store away from releasing it. */
  lemma SpinsEnd(threads: set<Tid>, schedule: seq<(Tid, Call)>, t: Tid, call: Call)
    requires t in threads
    ensures var s := Reached(threads, schedule);
            && t in s.th
            && (Spinning(s, s.th[t]) ==>
                  exists u :: u in s.th && u != t && !Spinning(Step(s, u, call), s.th[t]))
  {
    ReachedInv(threads, schedule);
    hide Run, Reached, Init;
    var s := Reached(threads, schedule);
    if Spinning(s, s.th[t]) {
      var u := Releaser(s, t, call);
    }
  }

  lemma Releaser(s: State, t: Tid, call: Call) returns (u: Tid)
    requires Inv(s) && t in s.th && Spinning(s, s.th[t])
    ensures u in s.th && u != t && !Spinning(Step(s, u, call), s.th[t])
  {
    hide PushersInv, NoStrand, Fifo, SyncInv, LockInv;
    if s.th[t].Hold? {
      HoldOwner(s, t, s.th[t].h);
    } else {
      DrainOwner(s, t, s.th[t].d);
    }
    var b := |s.started| + ViewOf(s).ahead;
    if s.th[t] == Drain(DrainHead) || (s.th[t].Drain? && s.th[t].d.OutSpin?) {
      u := s.nodes[b].pusher;
    } else {
      assert Chained(s, b + 1);
      u := s.nodes[b + 1].pusher;
    }
  }

  /** A late link is never stored into a node that has been started, whose memory may be gone. */
  lemma LinksOnlyLiveNodes(threads: set<Tid>, schedule: seq<(Tid, Call)>, t: Tid)
    requires t in threads
    ensures var s := Reached(threads, schedule);
            t in s.th && (s.th[t].PushLink? ==> |s.started| <= s.th[t].prev < |s.nodes|)
  {
    ReachedInv(threads, schedule);
    hide Run, Reached, Init, ListInv, CountInv, NoStrand, Fifo, SyncInv, ViewOf, Locals;
  }

  /** The words never underflow, the width test never stops a drain, and no resume is one too many. */
  lemma WordsAreExact(threads: set<Tid>, schedule: seq<(Tid, Call)>, t: Tid)
    requires t in threads
    ensures var s := Reached(threads, schedule);
            && t in s.th && s.running <= 3
            && (s.th[t] == Hold(FastDec) ==> s.running == 1)
            && (s.th[t] == Hold(SlowSubRunning) ==> s.running == 2)
            && (s.th[t] == Hold(SlowSubSuspend) ==> s.suspend >= 2)
            && (s.th[t] == Door(InvUnlock) ==> s.suspend % 2 == 1)
            && (s.th[t].Drain? && s.th[t].d.DrainWidth? ==> s.running == 1)
            && (s.clients > 0 ==> s.suspend >= 2)
  {
    ReachedInv(threads, schedule);
    hide Run, Reached, Init;
    Words(Reached(threads, schedule), t);
  }

  lemma Words(s: State, t: Tid)
    requires Inv(s) && t in s.th
    ensures s.running <= 3
    ensures s.th[t] == Hold(FastDec) ==> s.running == 1
    ensures s.th[t] == Hold(SlowSubRunning) ==> s.running == 2
    ensures s.th[t] == Hold(SlowSubSuspend) ==> s.suspend >= 2
    ensures s.th[t] == Door(InvUnlock) ==> s.suspend % 2 == 1
    ensures s.th[t].Drain? && s.th[t].d.DrainWidth? ==> s.running == 1
    ensures s.clients > 0 ==> s.suspend >= 2
  {
    hide ListInv, PushersInv, NoStrand, Fifo, SyncInv, Locals;
    if s.th[t].Hold? {
      HoldOwner(s, t, s.th[t].h);
    } else if s.th[t].Drain? {
      DrainOwner(s, t, s.th[t].d);
    }
  }
}
