/**
  A global root queue: any number of pushers and any number of worker threads that take items one by
  one from the head through the mediator value and execute them, and the word that counts the worker
  threads asked for, interleaved one atomic access at a time.

  As in SerialQueue, node `i` is the `i`-th one to be exchanged into the tail.
*/
module RootQueue {
  type Tid = nat
  const NULL: int := -1
  /** The value that is both a lock and a signal in the head. */
  const MEDIATOR: int := -2
  const SPINS: nat := 10000

  datatype Node = Node(pusher: Tid, next: int)

  /** What an idle thread does; `Work` is a worker thread that was asked for. */
  datatype Call = Push | Work

  datatype Pc =
    | Idle
    | PushXchg
    | PushLink(node: int, prev: int)
    | PushHead(node: int)
    // _dispatch_queue_concurrent_drain_one
    | TakeHead
    | Undo
    | Contend(i: nat)
    | ReadNext(item: int)
    | ClearHead(item: int)
    | SwingTail(item: int)
    | SpinNext(item: int)
    | Restore(item: int, next: int)
    // _dispatch_queue_wakeup_global; `item` is what the thread has to execute then, or NULL
    | Wake(w: WakePc, item: int)
    // _dispatch_worker_thread4 with an item in its hands
    | Execute(item: int)

  datatype WakePc = WakeTail | WakePending

  /**
    `pending` is the number of worker threads asked for and not yet there. History: `owner` is the worker that
    holds the head item, and `returned` says which item was taken by whom.
  */
  datatype State = State(
    nodes: seq<Node>, head: int, tail: int, th: map<Tid, Pc>,
    pending: nat, owner: int, returned: seq<(Tid, int)>)

  function Init(threads: set<Tid>): State {
    State([], NULL, NULL, map t | t in threads :: Idle, 0, NULL, [])
  }

  function Go(s: State, t: Tid, pc: Pc): State {
    s.(th := s.th[t := pc])
  }

  function NextOf(s: State, k: int): int {
    if 0 <= k < |s.nodes| then s.nodes[k].next else NULL
  }

  function SetNext(s: State, k: int, next: int): State {
    if 0 <= k < |s.nodes| then s.(nodes := s.nodes[k := s.nodes[k].(next := next)]) else s
  }

  function Return(s: State, t: Tid, item: int, pc: Pc): State {
    Go(s.(owner := NULL, returned := s.returned + [(t, item)]), t, pc)
  }

  function AfterWake(item: int): Pc {
    if item == NULL then Idle else Execute(item)
  }

  function StepWake(s: State, t: Tid, w: WakePc, item: int): State {
    match w
    case WakeTail => Go(s, t, if s.tail == NULL then AfterWake(item) else Wake(WakePending, item))
    case WakePending => Go(s.(pending := if s.pending == 0 then 1 else s.pending), t, AfterWake(item))
  }

  function Begin(s: State, t: Tid, call: Call): State {
    match call
    case Push => Go(s, t, PushXchg)
    case Work => if s.pending == 0 then s else Go(s.(pending := s.pending - 1), t, TakeHead)
  }

  function StepPush(s: State, t: Tid): State {
    var n := |s.nodes|;
    Go(s.(nodes := s.nodes + [Node(t, NULL)], tail := n), t,
       if s.tail != NULL then PushLink(n, s.tail) else PushHead(n))
  }

  function StepTake(s: State, t: Tid): State {
    var s1 := s.(head := MEDIATOR);
    if s.head == NULL then Go(s1, t, Undo)
    else if s.head == MEDIATOR then Go(s1, t, Contend(SPINS))
    else Go(s1.(owner := t), t, ReadNext(s.head))
  }

  /** One atomic step of thread `t`; `call` is used only when `t` is idle. */
  function Step(s: State, t: Tid, call: Call): State
    requires t in s.th
  {
    match s.th[t]
    case Idle => Begin(s, t, call)
    case PushXchg => StepPush(s, t)
    case PushLink(node, prev) => Go(SetNext(s, prev, node), t, Idle)
    case PushHead(node) => Go(s.(head := node), t, Wake(WakeTail, NULL))
    case TakeHead => StepTake(s, t)
    case Undo => Go(s.(head := if s.head == MEDIATOR then NULL else s.head), t, Idle)
    case Contend(i) =>
      Go(s, t, if s.head != MEDIATOR then TakeHead else if i <= 1 then Wake(WakeTail, NULL) else Contend(i - 1))
    case ReadNext(item) =>
      Go(s, t, if NextOf(s, item) == NULL then ClearHead(item) else Restore(item, NextOf(s, item)))
    case ClearHead(item) => Go(s.(head := NULL), t, SwingTail(item))
    case SwingTail(item) =>
      if s.tail == item then Return(s.(tail := NULL), t, item, Execute(item)) else Go(s, t, SpinNext(item))
    case SpinNext(item) =>
      if NextOf(s, item) == NULL then s else Go(s, t, Restore(item, NextOf(s, item)))
    case Restore(item, next) => Return(s.(head := next), t, item, Wake(WakeTail, item))
    case Wake(w, item) => StepWake(s, t, w, item)
    case Execute(_) => Go(s, t, TakeHead)
  }

  function Run(s: State, schedule: seq<(Tid, Call)>): State
    decreases |schedule|
  {
    if schedule == [] then s
    else
      var (t, call) := schedule[0];
      Run(if t in s.th then Step(s, t, call) else s, schedule[1..])
  }

  // ---------------------------------------------------------------------------------------------
  // Invariant
  // ---------------------------------------------------------------------------------------------

  predicate Owns(pc: Pc) {
    pc.ReadNext? || pc.ClearHead? || pc.SwingTail? || pc.SpinNext? || pc.Restore?
  }

  predicate OwnerInv(s: State) {
    && (forall u :: u in s.th && Owns(s.th[u]) ==> s.owner == u)
    && (s.owner != NULL ==>
          && s.owner in s.th && Owns(s.th[s.owner])
          && s.th[s.owner].item == |s.returned| < |s.nodes| && s.head < 0)
  }

  /** What the locals of one thread say about the list. */
  predicate LocalOk(s: State, pc: Pc) {
    var p := |s.returned|;
    && (pc.SpinNext? ==> p + 1 < |s.nodes|)
    && (pc.Restore? ==> pc.next == p + 1 < |s.nodes| && s.nodes[p].next == p + 1)
  }

  predicate LocalsInv(s: State) {
    forall u :: u in s.th ==> LocalOk(s, s.th[u])
  }

  predicate Chained(s: State, k: int)
    requires 0 < k < |s.nodes|
  {
    s.nodes[k - 1].next == k
    || (s.nodes[k - 1].next == NULL && s.nodes[k].pusher in s.th && s.th[s.nodes[k].pusher] == PushLink(k, k - 1))
  }

  predicate ChainInv(s: State) {
    forall k {:trigger Chained(s, k)} :: |s.returned| < k < |s.nodes| ==> Chained(s, k)
  }

  /** The first item is in the head, or its pusher is about to put it there, or a worker holds it. */
  predicate ListInv(s: State) {
    var n, p := |s.nodes|, |s.returned|;
    && p <= n
    && (p == n ==> s.tail == NULL && s.head < 0)
    && (p < n ==> s.tail == n - 1 && s.nodes[n - 1].next == NULL)
    && (p < n && s.owner == NULL ==>
          s.head == p
          || (s.head < 0 && s.nodes[p].pusher in s.th && s.th[s.nodes[p].pusher] == PushHead(p)))
    && (s.head == NULL || s.head == MEDIATOR || s.head == p)
  }

  predicate PushersInv(s: State) {
    var n, p := |s.nodes|, |s.returned|;
    && (forall u :: u in s.th && s.th[u].PushLink? ==>
          var k := s.th[u].node;
          p < k < n && s.th[u].prev == k - 1 && s.nodes[k].pusher == u && s.nodes[k - 1].next == NULL)
    && (forall u :: u in s.th && s.th[u].PushHead? ==>
          p == s.th[u].node < n && s.nodes[p].pusher == u && s.head < 0 && s.owner == NULL)
  }

  predicate Fifo(s: State) {
    forall i :: 0 <= i < |s.returned| ==> s.returned[i].1 == i
  }

  /** Some thread is bound to remove a mediator left in the head. */
  predicate Cleans(pc: Pc) {
    pc.Undo? || pc.ReadNext? || pc.ClearHead? || pc.Restore?
  }

  predicate MediatorInv(s: State) {
    s.head == MEDIATOR ==> exists u :: u in s.th && Cleans(s.th[u])
  }

  predicate Inv(s: State) {
    OwnerInv(s) && LocalsInv(s) && ChainInv(s) && ListInv(s) && PushersInv(s) && Fifo(s) && MediatorInv(s)
  }

  lemma InitInv(threads: set<Tid>)
    ensures Inv(Init(threads))
  {
  }

  predicate Moved(s: State, s': State, t: Tid) {
    t in s.th && t in s'.th && s'.th == s.th[t := s'.th[t]]
  }

  lemma MediatorFrame(s: State, s': State, t: Tid)
    requires MediatorInv(s) && Moved(s, s', t)
    requires s'.head == MEDIATOR ==> Cleans(s'.th[t]) || (s.head == MEDIATOR && !Cleans(s.th[t]))
    ensures MediatorInv(s')
  {
    if s'.head == MEDIATOR && !Cleans(s'.th[t]) {
      var u :| u in s.th && Cleans(s.th[u]);
      assert u in s'.th && Cleans(s'.th[u]);
    }
  }

  // A step of `t` keeps what it does not touch.

  lemma OwnerFrame(s: State, s': State, t: Tid)
    requires OwnerInv(s) && Moved(s, s', t) && s'.owner == s.owner && s'.returned == s.returned
    requires |s.nodes| <= |s'.nodes| && (s.owner != NULL ==> s'.head < 0)
    requires Owns(s'.th[t]) <==> Owns(s.th[t])
    requires Owns(s.th[t]) ==> s'.th[t].item == s.th[t].item
    ensures OwnerInv(s')
  {
  }

  lemma LocalsFrame(s: State, s': State, t: Tid)
    requires LocalsInv(s) && Moved(s, s', t) && s'.returned == s.returned && |s.nodes| <= |s'.nodes|
    requires forall k :: 0 <= k < |s.nodes| && s.nodes[k].next != NULL ==> s'.nodes[k].next == s.nodes[k].next
    requires LocalOk(s', s'.th[t])
    ensures LocalsInv(s')
  {
    forall u | u in s'.th ensures LocalOk(s', s'.th[u]) {
      if u != t { assert LocalOk(s, s.th[u]); }
    }
  }

  lemma ChainFrame(s: State, s': State, t: Tid)
    requires ChainInv(s) && Moved(s, s', t) && s'.nodes == s.nodes && |s.returned| <= |s'.returned|
    requires !s.th[t].PushLink?
    ensures ChainInv(s')
  {
    forall k | |s'.returned| < k < |s'.nodes| ensures Chained(s', k) {
      assert Chained(s, k);
    }
  }

  lemma ListFrame(s: State, s': State, t: Tid)
    requires ListInv(s) && Moved(s, s', t) && !s.th[t].PushHead?
    requires s'.nodes == s.nodes && s'.returned == s.returned && s'.tail == s.tail && s'.owner == s.owner
    requires s'.head == s.head || (s.head < 0 && (s'.head == NULL || s'.head == MEDIATOR))
    ensures ListInv(s')
  {
  }

  lemma PushersFrame(s: State, s': State, t: Tid)
    requires PushersInv(s) && Moved(s, s', t) && !s'.th[t].PushLink? && !s'.th[t].PushHead?
    requires s'.nodes == s.nodes && s'.returned == s.returned
    requires (s'.head < 0 && s'.owner == NULL) || (forall u :: u in s.th && u != t ==> !s.th[u].PushHead?)
    ensures PushersInv(s')
  {
  }

  /** While an item is held or in the head, nobody is about to store a first item. */
  lemma NobodyStores(s: State)
    requires PushersInv(s) && (s.owner != NULL || s.head >= 0)
    ensures forall u :: u in s.th ==> !s.th[u].PushHead?
  {
  }

  lemma HeadFacts(s: State)
    requires OwnerInv(s) && ListInv(s)
    ensures s.head < 0 ==> s.head == NULL || s.head == MEDIATOR
    ensures s.owner != NULL ==> s.head < 0
  {
  }

  lemma BystanderKeeps(s: State, t: Tid, call: Call)
    requires Inv(s) && t in s.th
    requires s.th[t] == Idle || (s.th[t] == TakeHead && s.head < 0) || s.th[t] == Undo || s.th[t].Contend?
             || s.th[t].Wake? || s.th[t].Execute?
    ensures Inv(Step(s, t, call))
  {
    hide OwnerInv, LocalsInv, ChainInv, ListInv, PushersInv, Fifo, MediatorInv;
    var s' := Step(s, t, call);
    HeadFacts(s);
    if s.owner != NULL || s.head >= 0 { NobodyStores(s); }
    OwnerFrame(s, s', t);
    LocalsFrame(s, s', t);
    ChainFrame(s, s', t);
    ListFrame(s, s', t);
    PushersFrame(s, s', t);
    MediatorFrame(s, s', t);
    FifoFrame(s, s');
  }

  lemma FifoFrame(s: State, s': State)
    requires Fifo(s) && s'.returned == s.returned
    ensures Fifo(s')
  {
  }

  lemma XchgList(s: State, t: Tid, call: Call)
    requires OwnerInv(s) && ListInv(s) && t in s.th && s.th[t] == PushXchg
    ensures ListInv(Step(s, t, call))
  {
  }

  lemma XchgChain(s: State, t: Tid, call: Call)
    requires ChainInv(s) && ListInv(s) && t in s.th && s.th[t] == PushXchg
    ensures ChainInv(Step(s, t, call))
  {
    var s' := Step(s, t, call);
    forall k | |s'.returned| < k < |s'.nodes| ensures Chained(s', k) {
      if k < |s.nodes| { assert Chained(s, k); }
    }
  }

  lemma XchgPushers(s: State, t: Tid, call: Call)
    requires OwnerInv(s) && ListInv(s) && PushersInv(s) && t in s.th && s.th[t] == PushXchg
    ensures PushersInv(Step(s, t, call))
  {
  }

  lemma XchgKeeps(s: State, t: Tid, call: Call)
    requires Inv(s) && t in s.th && s.th[t] == PushXchg
    ensures Inv(Step(s, t, call))
  {
    var s' := Step(s, t, call);
    HeadFacts(s);
    hide OwnerInv, LocalsInv, ChainInv, ListInv, PushersInv, Fifo, MediatorInv;
    OwnerFrame(s, s', t);
    LocalsFrame(s, s', t);
    XchgChain(s, t, call);
    XchgList(s, t, call);
    XchgPushers(s, t, call);
    MediatorFrame(s, s', t);
    FifoFrame(s, s');
  }

  lemma LinkList(s: State, t: Tid, call: Call)
    requires ListInv(s) && PushersInv(s) && t in s.th && s.th[t].PushLink?
    ensures ListInv(Step(s, t, call))
  {
  }

  lemma LinkChain(s: State, t: Tid, call: Call)
    requires ChainInv(s) && PushersInv(s) && t in s.th && s.th[t].PushLink?
    ensures ChainInv(Step(s, t, call))
  {
    var s' := Step(s, t, call);
    forall k | |s'.returned| < k < |s'.nodes| ensures Chained(s', k) {
      assert Chained(s, k);
    }
  }

  lemma LinkPushers(s: State, t: Tid, call: Call)
    requires PushersInv(s) && t in s.th && s.th[t].PushLink?
    ensures PushersInv(Step(s, t, call))
  {
  }

  lemma LinkKeeps(s: State, t: Tid, call: Call)
    requires Inv(s) && t in s.th && s.th[t].PushLink?
    ensures Inv(Step(s, t, call))
  {
    var s' := Step(s, t, call);
    HeadFacts(s);
    assert NextOf(s, s.th[t].prev) == NULL;
    hide OwnerInv, LocalsInv, ChainInv, ListInv, PushersInv, Fifo, MediatorInv;
    OwnerFrame(s, s', t);
    LocalsFrame(s, s', t);
    LinkChain(s, t, call);
    LinkList(s, t, call);
    LinkPushers(s, t, call);
    MediatorFrame(s, s', t);
    FifoFrame(s, s');
  }

  lemma HeadList(s: State, t: Tid, call: Call)
    requires ListInv(s) && PushersInv(s) && t in s.th && s.th[t].PushHead?
    ensures ListInv(Step(s, t, call))
  {
  }

  /** Only one thread is about to store the first item. */
  lemma OneStores(s: State, t: Tid)
    requires PushersInv(s) && t in s.th && s.th[t].PushHead?
    ensures s.owner == NULL && forall u :: u in s.th && u != t ==> !s.th[u].PushHead?
  {
  }

  lemma HeadKeeps(s: State, t: Tid, call: Call)
    requires Inv(s) && t in s.th && s.th[t].PushHead?
    ensures Inv(Step(s, t, call))
  {
    var s' := Step(s, t, call);
    HeadList(s, t, call);
    OneStores(s, t);
    assert s'.head >= 0;
    hide OwnerInv, LocalsInv, ChainInv, ListInv, PushersInv, Fifo, MediatorInv;
    OwnerFrame(s, s', t);
    LocalsFrame(s, s', t);
    ChainFrame(s, s', t);
    PushersFrame(s, s', t);
    MediatorFrame(s, s', t);
    FifoFrame(s, s');
  }

  lemma TakeOwner(s: State, t: Tid, call: Call)
    requires OwnerInv(s) && ListInv(s) && t in s.th && s.th[t] == TakeHead && s.head >= 0
    ensures OwnerInv(Step(s, t, call)) && ListInv(Step(s, t, call))
  {
  }

  lemma TakeItemKeeps(s: State, t: Tid, call: Call)
    requires Inv(s) && t in s.th && s.th[t] == TakeHead && s.head >= 0
    ensures Inv(Step(s, t, call))
  {
    var s' := Step(s, t, call);
    hide OwnerInv, LocalsInv, ChainInv, ListInv, PushersInv, Fifo, MediatorInv;
    NobodyStores(s);
    TakeOwner(s, t, call);
    LocalsFrame(s, s', t);
    ChainFrame(s, s', t);
    PushersFrame(s, s', t);
    MediatorFrame(s, s', t);
    FifoFrame(s, s');
  }

  /** The owner's item, and its successor if it has one. */
  lemma OwnerFacts(s: State, t: Tid)
    requires OwnerInv(s) && ChainInv(s) && ListInv(s) && PushersInv(s) && t in s.th && Owns(s.th[t])
    ensures var p := |s.returned|;
            && s.owner == t && s.th[t].item == p < |s.nodes| && s.tail == |s.nodes| - 1
            && (s.head == NULL || s.head == MEDIATOR)
            && (s.nodes[p].next != NULL ==> s.nodes[p].next == p + 1 < |s.nodes|)
    ensures forall u :: u in s.th ==> !s.th[u].PushHead?
  {
    if |s.returned| + 1 < |s.nodes| { assert Chained(s, |s.returned| + 1); }
  }

  /** The owner looks at its item: at the link, at the head, or in vain at the tail. */
  lemma LookKeeps(s: State, t: Tid, call: Call)
    requires Inv(s) && t in s.th && Owns(s.th[t]) && !s.th[t].Restore?
    requires s.th[t].SwingTail? ==> s.tail != s.th[t].item
    ensures Inv(Step(s, t, call))
  {
    var s' := Step(s, t, call);
    OwnerFacts(s, t);
    assert LocalOk(s, s.th[t]);
    hide OwnerInv, LocalsInv, ChainInv, ListInv, PushersInv, Fifo, MediatorInv;
    OwnerFrame(s, s', t);
    LocalsFrame(s, s', t);
    ChainFrame(s, s', t);
    ListFrame(s, s', t);
    PushersFrame(s, s', t);
    MediatorFrame(s, s', t);
    FifoFrame(s, s');
  }

  lemma ReturnOwner(s: State, s': State, t: Tid)
    requires OwnerInv(s) && LocalsInv(s) && Fifo(s) && Moved(s, s', t)
    requires s.owner == t && s'.owner == NULL && (s'.th[t].Wake? || s'.th[t].Execute?)
    requires s'.returned == s.returned + [(t, s.th[t].item)]
    ensures OwnerInv(s') && LocalsInv(s') && Fifo(s')
  {
  }

  /** The last item is returned: the list is empty. */
  lemma ReturnLast(s: State, t: Tid, call: Call)
    requires OwnerInv(s) && ListInv(s) && PushersInv(s) && t in s.th && s.th[t].SwingTail? && s.tail == s.th[t].item
    ensures ListInv(Step(s, t, call)) && PushersInv(Step(s, t, call))
  {
  }

  lemma SwingKeeps(s: State, t: Tid, call: Call)
    requires Inv(s) && t in s.th && s.th[t].SwingTail? && s.tail == s.th[t].item
    ensures Inv(Step(s, t, call))
  {
    var s' := Step(s, t, call);
    OwnerFacts(s, t);
    hide OwnerInv, LocalsInv, ChainInv, ListInv, PushersInv, Fifo, MediatorInv;
    ReturnOwner(s, s', t);
    ReturnLast(s, t, call);
    ChainFrame(s, s', t);
    MediatorFrame(s, s', t);
  }

  lemma RestoreList(s: State, t: Tid, call: Call)
    requires OwnerInv(s) && LocalsInv(s) && ListInv(s) && t in s.th && s.th[t].Restore?
    ensures ListInv(Step(s, t, call))
  {
    assert LocalOk(s, s.th[t]);
  }

  lemma RestorePushers(s: State, t: Tid, call: Call)
    requires OwnerInv(s) && LocalsInv(s) && ListInv(s) && PushersInv(s) && t in s.th && s.th[t].Restore?
    ensures PushersInv(Step(s, t, call))
  {
    assert LocalOk(s, s.th[t]);
    NobodyStores(s);
  }

  lemma RestoreKeeps(s: State, t: Tid, call: Call)
    requires Inv(s) && t in s.th && s.th[t].Restore?
    ensures Inv(Step(s, t, call))
  {
    var s' := Step(s, t, call);
    OwnerFacts(s, t);
    assert LocalOk(s, s.th[t]);
    hide OwnerInv, LocalsInv, ChainInv, ListInv, PushersInv, Fifo, MediatorInv;
    ReturnOwner(s, s', t);
    RestoreList(s, t, call);
    RestorePushers(s, t, call);
    ChainFrame(s, s', t);
    MediatorFrame(s, s', t);
  }

  lemma StepKeeps(s: State, t: Tid, call: Call)
    requires Inv(s) && t in s.th
    ensures Inv(Step(s, t, call)) && Step(s, t, call).th.Keys == s.th.Keys
  {
    hide Inv;
    match s.th[t]
    case Idle => BystanderKeeps(s, t, call);
    case PushXchg => XchgKeeps(s, t, call);
    case PushLink(_, _) => LinkKeeps(s, t, call);
    case PushHead(_) => HeadKeeps(s, t, call);
    case TakeHead => if s.head >= 0 { TakeItemKeeps(s, t, call); } else { BystanderKeeps(s, t, call); }
    case Undo => BystanderKeeps(s, t, call);
    case Contend(_) => BystanderKeeps(s, t, call);
    case ReadNext(_) => LookKeeps(s, t, call);
    case ClearHead(_) => LookKeeps(s, t, call);
    case SwingTail(item) => if s.tail == item { SwingKeeps(s, t, call); } else { LookKeeps(s, t, call); }
    case SpinNext(_) => LookKeeps(s, t, call);
    case Restore(_, _) => RestoreKeeps(s, t, call);
    case Wake(_, _) => BystanderKeeps(s, t, call);
    case Execute(_) => BystanderKeeps(s, t, call);
  }

  lemma {:induction false} RunKeeps(s: State, schedule: seq<(Tid, Call)>)
    requires Inv(s)
    ensures Inv(Run(s, schedule)) && Run(s, schedule).th.Keys == s.th.Keys
    decreases |schedule|
  {
    hide Inv, Step;
    if schedule != [] {
      var (t, call) := schedule[0];
      if t in s.th {
        StepKeeps(s, t, call);
      }
      RunKeeps(if t in s.th then Step(s, t, call) else s, schedule[1..]);
    }
  }

  function Reached(threads: set<Tid>, schedule: seq<(Tid, Call)>): State {
    Run(Init(threads), schedule)
  }

  lemma ReachedInv(threads: set<Tid>, schedule: seq<(Tid, Call)>)
    ensures Inv(Reached(threads, schedule)) && Reached(threads, schedule).th.Keys == threads
  {
    hide Inv;
    InitInv(threads);
    RunKeeps(Init(threads), schedule);
  }

  /** At most one worker holds an item taken from the head, even after a late mediator removal. */
  lemma OneOwner(threads: set<Tid>, schedule: seq<(Tid, Call)>, t: Tid, u: Tid)
    requires t in threads && u in threads
    ensures var s := Reached(threads, schedule);
            t in s.th && u in s.th && (Owns(s.th[t]) && Owns(s.th[u]) ==> t == u)
  {
    ReachedInv(threads, schedule);
  }

  /** Every item is returned to exactly one worker, in the order of the tail exchanges. */
  lemma EachItemOnceInOrder(threads: set<Tid>, schedule: seq<(Tid, Call)>)
    ensures var s := Reached(threads, schedule);
            |s.returned| <= |s.nodes| && forall i :: 0 <= i < |s.returned| ==> s.returned[i].1 == i
  {
    ReachedInv(threads, schedule);
  }

  /** When all calls are over, the head is the first item not returned, or NULL if there is none. */
  lemma NothingLost(threads: set<Tid>, schedule: seq<(Tid, Call)>)
    ensures var s := Reached(threads, schedule);
            (forall u :: u in s.th ==> s.th[u] == Idle) ==>
              if |s.returned| == |s.nodes| then s.head == NULL && s.tail == NULL
              else s.head == |s.returned| && s.tail == |s.nodes| - 1
                   && forall k :: |s.returned| <= k < |s.nodes| - 1 ==> s.nodes[k].next == k + 1
  {
    ReachedInv(threads, schedule);
    var s := Reached(threads, schedule);
    if forall u :: u in s.th ==> s.th[u] == Idle {
      forall k | |s.returned| <= k < |s.nodes| - 1 ensures s.nodes[k].next == k + 1 {
        assert Chained(s, k + 1);
      }
    }
  }

  /** A late link is never stored into an item that has been returned. */
  lemma LinksOnlyLiveNodes(threads: set<Tid>, schedule: seq<(Tid, Call)>, t: Tid)
    requires t in threads
    ensures var s := Reached(threads, schedule);
            t in s.th && (s.th[t].PushLink? ==> |s.returned| <= s.th[t].prev < |s.nodes|)
  {
    ReachedInv(threads, schedule);
  }

  /** A worker waiting for a link waits for one other thread that is a single store away. */
  lemma SpinsEnd(threads: set<Tid>, schedule: seq<(Tid, Call)>, t: Tid, call: Call)
    requires t in threads
    ensures var s := Reached(threads, schedule);
            && t in s.th
            && (s.th[t].SpinNext? && NextOf(s, s.th[t].item) == NULL ==>
                  exists u :: u in s.th && u != t && NextOf(Step(s, u, call), s.th[t].item) != NULL)
  {
    ReachedInv(threads, schedule);
    var s := Reached(threads, schedule);
    hide Run, Reached, Init;
    if s.th[t].SpinNext? && NextOf(s, s.th[t].item) == NULL {
      assert Chained(s, |s.returned| + 1);
      var u := s.nodes[|s.returned| + 1].pusher;
      assert NextOf(Step(s, u, call), s.th[t].item) != NULL;
    }
  }

  // ---------------------------------------------------------------------------------------------
  // Nothing is stranded
  // ---------------------------------------------------------------------------------------------

  /** The thread will take an item, or ask for a worker if there is one left. */
  predicate Committed(pc: Pc) {
    pc.PushHead? || pc.TakeHead? || pc.Contend? || Owns(pc) || pc.Wake? || pc.Execute?
  }

  predicate Strand(s: State) {
    |s.returned| < |s.nodes| ==> s.pending > 0 || exists u :: u in s.th && Committed(s.th[u])
  }

  lemma StrandFrame(s: State, s': State, t: Tid)
    requires Strand(s) && Moved(s, s', t)
    requires |s'.returned| < |s'.nodes| && s'.pending == 0 && !Committed(s'.th[t]) ==>
               |s.returned| < |s.nodes| && s.pending == 0
               && (!Committed(s.th[t]) || exists u :: u in s.th && u != t && Committed(s.th[u]))
    ensures Strand(s')
  {
    if |s'.returned| < |s'.nodes| && s'.pending == 0 && !Committed(s'.th[t]) {
      var u :| u in s.th && u != t && Committed(s.th[u]);
      assert u in s'.th && Committed(s'.th[u]);
    }
  }

  /** An item that a worker does not find in the head is held by another, or about to be put there. */
  lemma FoundNothing(s: State, t: Tid)
    requires OwnerInv(s) && ListInv(s) && t in s.th && s.th[t] == TakeHead && s.head == NULL
    requires |s.returned| < |s.nodes|
    ensures exists u :: u in s.th && u != t && Committed(s.th[u])
  {
    var u := if s.owner != NULL then s.owner else s.nodes[|s.returned|].pusher;
    assert u in s.th && u != t && Committed(s.th[u]);
  }

  /** A step leaves its thread committed, or there was nothing to be committed to, or another one is. */
  lemma StrandMoves(s: State, t: Tid, call: Call)
    requires |s.returned| <= |s.nodes| && (s.tail == NULL <==> |s.returned| == |s.nodes|) && t in s.th && !Owns(s.th[t])
    ensures var s' := Step(s, t, call);
            && Moved(s, s', t)
            && (|s'.returned| < |s'.nodes| && s'.pending == 0 && !Committed(s'.th[t]) ==>
                  && |s.returned| < |s.nodes| && s.pending == 0
                  && (Committed(s.th[t]) ==> s.th[t] == TakeHead && s.head == NULL))
  {
  }

  lemma StrandOwner(s: State, t: Tid, call: Call)
    requires t in s.th && Owns(s.th[t])
    ensures Moved(s, Step(s, t, call), t) && Committed(Step(s, t, call).th[t])
  {
  }

  lemma StrandStep(s: State, t: Tid, call: Call)
    requires Inv(s) && Strand(s) && t in s.th
    ensures Strand(Step(s, t, call))
  {
    if s.th[t] == TakeHead && s.head == NULL && |s.returned| < |s.nodes| { FoundNothing(s, t); }
    assert |s.returned| <= |s.nodes| && (s.tail == NULL <==> |s.returned| == |s.nodes|);
    hide OwnerInv, LocalsInv, ChainInv, ListInv, PushersInv, Fifo, MediatorInv, Strand, Step, Committed;
    if Owns(s.th[t]) { StrandOwner(s, t, call); } else { StrandMoves(s, t, call); }
    StrandFrame(s, Step(s, t, call), t);
  }

  lemma {:induction false} RunStrand(s: State, schedule: seq<(Tid, Call)>)
    requires Inv(s) && Strand(s)
    ensures Strand(Run(s, schedule))
    decreases |schedule|
  {
    hide Inv, Strand, Step;
    if schedule != [] {
      var (t, call) := schedule[0];
      if t in s.th {
        StepKeeps(s, t, call);
        StrandStep(s, t, call);
      }
      RunStrand(if t in s.th then Step(s, t, call) else s, schedule[1..]);
    }
  }

  /** Whenever items are listed, a worker has been asked for or some thread is bound to take one or to ask. */
  lemma NoStrandedWork(threads: set<Tid>, schedule: seq<(Tid, Call)>)
    ensures var s := Reached(threads, schedule);
            |s.returned| < |s.nodes| ==> s.pending > 0 || exists u :: u in s.th && Committed(s.th[u])
  {
    InitInv(threads);
    assert Strand(Init(threads));
    hide Inv;
    RunStrand(Init(threads), schedule);
  }

  /** Worker threads asked for less those that came, along a schedule. */
  function Expected(s: State, schedule: seq<(Tid, Call)>): int
    decreases |schedule|
  {
    if schedule == [] then 0
    else
      var (t, call) := schedule[0];
      if t !in s.th then Expected(s, schedule[1..])
      else Asks(s, t) - Comes(s, t, call) + Expected(Step(s, t, call), schedule[1..])
  }

  /** The step asks for a worker thread: none was pending. */
  function Asks(s: State, t: Tid): nat
    requires t in s.th
  {
    if s.th[t].Wake? && s.th[t].w == WakePending && s.pending == 0 then 1 else 0
  }

  /** The step is the arrival of a worker thread. */
  function Comes(s: State, t: Tid, call: Call): nat
    requires t in s.th
  {
    if s.th[t] == Idle && Step(s, t, call).th[t] == TakeHead then 1 else 0
  }

  lemma PendingStep(s: State, t: Tid, call: Call)
    requires t in s.th
    ensures Step(s, t, call).pending == s.pending + Asks(s, t) - Comes(s, t, call)
  {
  }

  lemma {:induction false} RunPending(s: State, schedule: seq<(Tid, Call)>)
    ensures Run(s, schedule).pending == s.pending + Expected(s, schedule)
    decreases |schedule|
  {
    hide Step, Asks, Comes;
    if schedule != [] {
      var (t, call) := schedule[0];
      if t in s.th {
        PendingStep(s, t, call);
        RunPending(Step(s, t, call), schedule[1..]);
      } else {
        RunPending(s, schedule[1..]);
      }
    }
  }

  /** Every worker thread that comes was asked for, and what is pending was asked for and has not come. */
  lemma WorkersAskedFor(threads: set<Tid>, schedule: seq<(Tid, Call)>)
    ensures Reached(threads, schedule).pending == Expected(Init(threads), schedule)
  {
    RunPending(Init(threads), schedule);
  }

  // ---------------------------------------------------------------------------------------------
  // Executions
  // ---------------------------------------------------------------------------------------------

  /** The items that were executed along a schedule, and by whom. */
  function Log(s: State, schedule: seq<(Tid, Call)>): seq<(Tid, int)>
    decreases |schedule|
  {
    if schedule == [] then []
    else
      var (t, call) := schedule[0];
      if t !in s.th then Log(s, schedule[1..])
      else Ran(s, t) + Log(Step(s, t, call), schedule[1..])
  }

  /** What a step of `t` executes. */
  function Ran(s: State, t: Tid): seq<(Tid, int)>
    requires t in s.th
  {
    if s.th[t].Execute? then [(t, s.th[t].item)] else []
  }

  predicate Holds(pc: Pc) {
    pc.Execute? || (pc.Wake? && pc.item != NULL)
  }

  /** Items taken and not yet executed. */
  function Held(s: State): set<(Tid, int)> {
    set u | u in s.th && Holds(s.th[u]) :: (u, s.th[u].item)
  }

  lemma InHeld(s: State, x: (Tid, int))
    ensures x in Held(s) <==> x.0 in s.th && Holds(s.th[x.0]) && s.th[x.0].item == x.1
  {
    assert x == (x.0, x.1);
  }

  lemma HeldMore(s: State, s': State, t: Tid)
    requires Moved(s, s', t) && !Holds(s.th[t]) && Holds(s'.th[t])
    ensures multiset(Held(s')) == multiset(Held(s)) + multiset{(t, s'.th[t].item)}
  {
    var x := (t, s'.th[t].item);
    InHeld(s, x);
    forall y ensures y in Held(s') <==> y in Held(s) + {x} {
      InHeld(s, y);
      InHeld(s', y);
    }
    hide Held;
    assert Held(s') == Held(s) + {x};
  }

  lemma HeldLess(s: State, s': State, t: Tid)
    requires Moved(s, s', t) && Holds(s.th[t]) && !Holds(s'.th[t])
    ensures multiset(Held(s)) == multiset(Held(s')) + multiset{(t, s.th[t].item)}
  {
    HeldMore(s', s, t);
  }

  lemma HeldSame(s: State, s': State, t: Tid)
    requires Moved(s, s', t) && (Holds(s.th[t]) <==> Holds(s'.th[t]))
    requires Holds(s.th[t]) ==> s'.th[t].item == s.th[t].item
    ensures Held(s') == Held(s)
  {
    forall y ensures y in Held(s') <==> y in Held(s) {
      InHeld(s, y);
      InHeld(s', y);
    }
  }

  /** What `t` has in its hands changes by taking an item, and by executing it. */
  predicate Handles(s: State, t: Tid, s': State)
    requires t in s.th
  {
    && Moved(s, s', t)
    && (Holds(s.th[t]) && Holds(s'.th[t]) ==> s'.th[t].item == s.th[t].item)
    && (Holds(s.th[t]) && !Holds(s'.th[t]) <==> s.th[t].Execute?)
    && s'.returned == s.returned + if !Holds(s.th[t]) && Holds(s'.th[t]) then [(t, s'.th[t].item)] else []
  }

  lemma OwnerHandles(s: State, t: Tid, call: Call)
    requires t in s.th && Owns(s.th[t]) && s.th[t].item >= 0
    ensures Handles(s, t, Step(s, t, call))
  {
  }

  lemma OtherHandles(s: State, t: Tid, call: Call)
    requires t in s.th && !Owns(s.th[t])
    ensures Handles(s, t, Step(s, t, call))
  {
  }

  lemma HeldMoves(s: State, t: Tid, call: Call)
    requires t in s.th && (Owns(s.th[t]) ==> s.th[t].item >= 0)
    ensures Handles(s, t, Step(s, t, call))
  {
    hide Handles, Step;
    if Owns(s.th[t]) { OwnerHandles(s, t, call); } else { OtherHandles(s, t, call); }
  }

  /** Every item taken is executed or still in the hands of the one who took it. */
  lemma HeldStep(s: State, t: Tid, call: Call, log: seq<(Tid, int)>)
    requires Inv(s) && t in s.th && multiset(log) + multiset(Held(s)) == multiset(s.returned)
    ensures var s' := Step(s, t, call);
            multiset(log + Ran(s, t)) + multiset(Held(s')) == multiset(s'.returned)
  {
    OwnerItem(s, t);
    hide Inv, Step, Held;
    HeldMoves(s, t, call);
    var s' := Step(s, t, call);
    if Holds(s.th[t]) <==> Holds(s'.th[t]) {
      HeldSame(s, s', t);
      assert log + Ran(s, t) == log;
    } else if Holds(s.th[t]) {
      HeldLess(s, s', t);
    } else {
      HeldMore(s, s', t);
      assert log + Ran(s, t) == log;
    }
  }

  lemma {:induction false} RunHeld(s: State, schedule: seq<(Tid, Call)>, log: seq<(Tid, int)>)
    requires Inv(s) && multiset(log) + multiset(Held(s)) == multiset(s.returned)
    ensures var s' := Run(s, schedule);
            multiset(log + Log(s, schedule)) + multiset(Held(s')) == multiset(s'.returned)
    decreases |schedule|
  {
    hide Inv, Step, Held, Ran;
    if schedule == [] {
      assert log + [] == log;
    } else {
      var (t, call) := schedule[0];
      if t in s.th {
        StepKeeps(s, t, call);
        HeldStep(s, t, call, log);
        RunHeld(Step(s, t, call), schedule[1..], log + Ran(s, t));
        assert log + Log(s, schedule) == log + Ran(s, t) + Log(Step(s, t, call), schedule[1..]);
      } else {
        RunHeld(s, schedule[1..], log);
      }
    }
  }

  /** A sequence that is part of one without repetitions has none either. */
  lemma NoRepeats(log: seq<(Tid, int)>, all: seq<(Tid, int)>, i: nat, j: nat)
    requires multiset(log) <= multiset(all) && i < j < |log|
    requires forall k, m :: 0 <= k < m < |all| ==> all[k].1 != all[m].1
    ensures log[i].1 != log[j].1
  {
    if log[i].1 == log[j].1 {
      assert log[i] in multiset(log) && log[j] in multiset(log);
      assert log[i] in all && log[j] in all;
      Twice(log, i, j);
      Single(all, log[i]);
    }
  }

  lemma Twice(log: seq<(Tid, int)>, i: nat, j: nat)
    requires i < j < |log| && log[i] == log[j]
    ensures multiset(log)[log[i]] >= 2
  {
    assert log == log[..i] + [log[i]] + log[i + 1..j] + [log[j]] + log[j + 1..];
  }

  lemma {:induction false} Single(all: seq<(Tid, int)>, x: (Tid, int))
    requires forall k, m :: 0 <= k < m < |all| ==> all[k].1 != all[m].1
    ensures multiset(all)[x] <= 1
    decreases |all|
  {
    if all != [] {
      var n := |all| - 1;
      assert all == all[..n] + [all[n]];
      Single(all[..n], x);
      if all[n] == x { assert x !in all[..n]; }
    }
  }

  /** Item `k` has been executed. */
  predicate Executed(log: seq<(Tid, int)>, k: int) {
    exists i :: 0 <= i < |log| && log[i].1 == k
  }

  lemma HeldRun(threads: set<Tid>, schedule: seq<(Tid, Call)>)
    ensures var s, log := Reached(threads, schedule), Log(Init(threads), schedule);
            multiset(log) + multiset(Held(s)) == multiset(s.returned)
  {
    InitInv(threads);
    assert Held(Init(threads)) == {};
    hide Inv, Held, Run, Log;
    RunHeld(Init(threads), schedule, []);
    assert [] + Log(Init(threads), schedule) == Log(Init(threads), schedule);
  }

  /** Items are executed by those who took them, and none is executed twice. */
  lemma ExecutedOnce(threads: set<Tid>, schedule: seq<(Tid, Call)>)
    ensures var s, log := Reached(threads, schedule), Log(Init(threads), schedule);
            && multiset(log) + multiset(Held(s)) == multiset(s.returned)
            && forall i, j :: 0 <= i < j < |log| ==> log[i].1 != log[j].1
  {
    hide Inv, Held, Run, Log, Init;
    EachItemOnceInOrder(threads, schedule);
    HeldRun(threads, schedule);
    var s, log := Reached(threads, schedule), Log(Init(threads), schedule);
    hide Reached;
    forall i, j | 0 <= i < j < |log| ensures log[i].1 != log[j].1 {
      NoRepeats(log, s.returned, i, j);
    }
  }

  /** When no thread is under way and none is asked for, every item pushed has been executed exactly once. */
  lemma AllExecuted(threads: set<Tid>, schedule: seq<(Tid, Call)>)
    ensures var s, log := Reached(threads, schedule), Log(Init(threads), schedule);
            (forall u :: u in s.th ==> s.th[u] == Idle) && s.pending == 0 ==>
              && s.head == NULL && s.tail == NULL && |log| == |s.nodes|
              && forall k :: 0 <= k < |s.nodes| ==> Executed(log, k)
  {
    NoStrandedWork(threads, schedule);
    NothingLost(threads, schedule);
    EachItemOnceInOrder(threads, schedule);
    ExecutedOnce(threads, schedule);
    var s, log := Reached(threads, schedule), Log(Init(threads), schedule);
    if (forall u :: u in s.th ==> s.th[u] == Idle) && s.pending == 0 {
      assert Held(s) == {};
      hide Run, Log, Reached;
      assert |multiset(log)| == |multiset(s.returned)|;
      forall k | 0 <= k < |s.nodes| ensures Executed(log, k) {
        assert s.returned[k] in multiset(s.returned);
        var i :| 0 <= i < |log| && log[i] == s.returned[k];
      }
    }
  }

  // ---------------------------------------------------------------------------------------------
  // Calls, followed along a schedule
  // ---------------------------------------------------------------------------------------------

  /** The state after the first `k` steps of a schedule. */
  function At(threads: set<Tid>, schedule: seq<(Tid, Call)>, k: nat): State
    requires k <= |schedule|
  {
    Reached(threads, schedule[..k])
  }

  lemma {:induction false} RunAppend(s: State, schedule: seq<(Tid, Call)>, t: Tid, call: Call)
    ensures var r := Run(s, schedule);
            Run(s, schedule + [(t, call)]) == if t in r.th then Step(r, t, call) else r
    decreases |schedule|
  {
    hide Step;
    var more := schedule + [(t, call)];
    if schedule == [] {
      assert more[1..] == [];
    } else {
      var (u, c) := schedule[0];
      assert more[1..] == schedule[1..] + [(t, call)];
      RunAppend(if u in s.th then Step(s, u, c) else s, schedule[1..], t, call);
    }
  }

  /** One step further along a schedule. */
  lemma Next(threads: set<Tid>, schedule: seq<(Tid, Call)>, k: nat)
    requires k < |schedule|
    ensures var (t, call) := schedule[k];
            var s, s' := At(threads, schedule, k), At(threads, schedule, k + 1);
            && Inv(s) && Inv(s') && s.th.Keys == threads == s'.th.Keys
            && s' == if t in threads then Step(s, t, call) else s
  {
    hide Inv, Run, Step, Init;
    ReachedInv(threads, schedule[..k]);
    ReachedInv(threads, schedule[..k + 1]);
    var (t, call) := schedule[k];
    RunAppend(Init(threads), schedule[..k], t, call);
    assert schedule[..k + 1] == schedule[..k] + [(t, call)];
  }

  /** Between the steps `i` and `j` thread `t` makes one such call and returns from it. */
  predicate Calls(threads: set<Tid>, schedule: seq<(Tid, Call)>, i: nat, j: nat, t: Tid, call: Call)
    requires i < j <= |schedule|
  {
    && t in At(threads, schedule, i).th && At(threads, schedule, i).th[t] == Idle && schedule[i] == (t, call)
    && (forall k :: i < k < j ==> t in At(threads, schedule, k).th && At(threads, schedule, k).th[t] != Idle)
    && t in At(threads, schedule, j).th && At(threads, schedule, j).th[t] == Idle
  }

  /** The items that `t` has pushed. */
  function Own(s: State, t: Tid): set<int> {
    set k | 0 <= k < |s.nodes| && s.nodes[k].pusher == t
  }

  predicate SamePushers(s: State, s': State) {
    |s'.nodes| == |s.nodes| && forall k :: 0 <= k < |s.nodes| ==> s'.nodes[k].pusher == s.nodes[k].pusher
  }

  lemma OwnSame(s: State, s': State, t: Tid)
    requires SamePushers(s, s')
    ensures Own(s', t) == Own(s, t)
  {
  }

  lemma OwnMore(s: State, s': State, u: Tid, t: Tid)
    requires s'.nodes == s.nodes + [Node(u, NULL)]
    ensures |Own(s', t)| == |Own(s, t)| + if u == t then 1 else 0
  {
    assert Own(s', t) == Own(s, t) + if u == t then {|s.nodes|} else {};
  }

  /** With the item that `t` is about to push. */
  function Committing(s: State, t: Tid): nat
    requires t in s.th
  {
    |Own(s, t)| + if s.th[t] == PushXchg then 1 else 0
  }

  lemma StepNodes(s: State, u: Tid, call: Call)
    requires u in s.th
    ensures var s' := Step(s, u, call);
            && Moved(s, s', u)
            && (if s.th[u] == PushXchg then s'.nodes == s.nodes + [Node(u, NULL)] else SamePushers(s, s'))
            && (s'.th[u] == PushXchg <==> s.th[u] == Idle && call == Push)
  {
  }

  lemma OwnStep(s: State, u: Tid, call: Call, t: Tid)
    requires u in s.th && t in s.th
    ensures var s' := Step(s, u, call);
            && t in s'.th
            && (u != t || s.th[t] != Idle ==> Committing(s', t) == Committing(s, t))
            && (u == t && s.th[t] == Idle && call == Push ==> Committing(s', t) == |Own(s, t)| + 1)
  {
    StepNodes(s, u, call);
    hide Step, Own, SamePushers;
    var s' := Step(s, u, call);
    if s.th[u] == PushXchg {
      OwnMore(s, s', u, t);
    } else {
      OwnSame(s, s', t);
    }
  }

  lemma OwnNext(threads: set<Tid>, schedule: seq<(Tid, Call)>, k: nat, t: Tid)
    requires k < |schedule| && t in threads
    requires t in At(threads, schedule, k).th && At(threads, schedule, k).th[t] != Idle
    ensures t in At(threads, schedule, k + 1).th
    ensures Committing(At(threads, schedule, k + 1), t) == Committing(At(threads, schedule, k), t)
  {
    hide Inv, Own, Step, At, Committing;
    Next(threads, schedule, k);
    var (u, call) := schedule[k];
    if u in threads {
      OwnStep(At(threads, schedule, k), u, call, t);
    }
  }

  lemma OwnIdle(s: State, t: Tid)
    requires t in s.th && s.th[t] == Idle
    ensures Committing(s, t) == |Own(s, t)|
  {
  }

  /** A push adds exactly one item. */
  lemma PushAddsOne(threads: set<Tid>, schedule: seq<(Tid, Call)>, i: nat, j: nat, t: Tid)
    requires i < j <= |schedule| && Calls(threads, schedule, i, j, t, Push)
    ensures |Own(At(threads, schedule, j), t)| == |Own(At(threads, schedule, i), t)| + 1
  {
    hide Inv, Own, Step, At, Committing;
    Next(threads, schedule, i);
    OwnStep(At(threads, schedule, i), t, Push, t);
    var k, n := i + 1, |Own(At(threads, schedule, i), t)| + 1;
    while k < j
      invariant i < k <= j && t in threads && t in At(threads, schedule, k).th
      invariant Committing(At(threads, schedule, k), t) == n
    {
      assert At(threads, schedule, k).th[t] != Idle;
      OwnNext(threads, schedule, k, t);
      k := k + 1;
    }
    OwnIdle(At(threads, schedule, j), t);
  }

  /** At step `k` thread `t` exchanges the mediator into the head and gets `seen` for it. */
  predicate Finds(threads: set<Tid>, schedule: seq<(Tid, Call)>, k: nat, t: Tid, seen: int)
    requires k < |schedule|
  {
    var s := At(threads, schedule, k);
    schedule[k].0 == t && t in s.th && s.th[t] == TakeHead && s.head == seen
  }

  /** How often `t` looks at the head from step `k` to step `n`, and sees the mediator. */
  function Looks(threads: set<Tid>, schedule: seq<(Tid, Call)>, k: nat, n: nat, t: Tid): nat
    requires k <= n <= |schedule|
  {
    if k == n then 0
    else
      var s := At(threads, schedule, n - 1);
      Looks(threads, schedule, k, n - 1, t) +
      if schedule[n - 1].0 == t && t in s.th && s.th[t].Contend? && s.head == MEDIATOR then 1 else 0
  }

  /** Since step `k`, where it found the mediator, `t` has looked so many times and seen nothing else. */
  predicate Contends(threads: set<Tid>, schedule: seq<(Tid, Call)>, k: nat, n: nat, t: Tid, looks: nat)
    requires k < n <= |schedule|
  {
    Finds(threads, schedule, k, t, MEDIATOR) && Looks(threads, schedule, k, n, t) == looks
  }

  /** What a worker that leaves has seen. */
  ghost predicate Reason(threads: set<Tid>, schedule: seq<(Tid, Call)>, i: nat, n: nat, t: Tid, looks: nat)
    requires i < n <= |schedule|
  {
    exists k :: i < k < n && Contends(threads, schedule, k, n, t, looks)
  }

  ghost predicate Works(threads: set<Tid>, schedule: seq<(Tid, Call)>, i: nat, n: nat, t: Tid)
    requires i < n <= |schedule|
  {
    && t in At(threads, schedule, n).th
    && match At(threads, schedule, n).th[t]
       case Idle => Leaves(threads, schedule, i, n, t)
       case Undo => exists k :: i < k < n && Finds(threads, schedule, k, t, NULL)
       case Contend(c) => 1 <= c <= SPINS && Reason(threads, schedule, i, n, t, SPINS - c)
       case Wake(_, item) => item == NULL ==> Reason(threads, schedule, i, n, t, SPINS)
       case PushXchg => false
       case PushLink(_, _) => false
       case PushHead(_) => false
       case _ => true
  }

  /** The head was empty, or the mediator was there at every look. */
  ghost predicate Leaves(threads: set<Tid>, schedule: seq<(Tid, Call)>, i: nat, n: nat, t: Tid)
    requires i < n <= |schedule|
  {
    || (exists k :: i < k < n && Finds(threads, schedule, k, t, NULL))
    || Reason(threads, schedule, i, n, t, SPINS)
  }

  /** A step of another thread does not change what `t` has seen; a step of `t` adds a look if it makes one. */
  lemma ReasonNext(threads: set<Tid>, schedule: seq<(Tid, Call)>, i: nat, n: nat, t: Tid, looks: nat)
    requires i < n < |schedule| && Reason(threads, schedule, i, n, t, looks)
    ensures var s := At(threads, schedule, n);
            var more := if schedule[n].0 == t && t in s.th && s.th[t].Contend? && s.head == MEDIATOR then 1 else 0;
            Reason(threads, schedule, i, n + 1, t, looks + more)
  {
    hide At;
    var k :| i < k < n && Contends(threads, schedule, k, n, t, looks);
    var s := At(threads, schedule, n);
    var more := if schedule[n].0 == t && t in s.th && s.th[t].Contend? && s.head == MEDIATOR then 1 else 0;
    assert Contends(threads, schedule, k, n + 1, t, looks + more);
  }

  lemma Found(threads: set<Tid>, schedule: seq<(Tid, Call)>, i: nat, n: nat, t: Tid)
    requires i < n < |schedule| && Finds(threads, schedule, n, t, MEDIATOR)
    ensures Reason(threads, schedule, i, n + 1, t, 0)
  {
    hide At;
    assert Looks(threads, schedule, n, n, t) == 0;
    assert Contends(threads, schedule, n, n + 1, t, 0);
  }

  lemma WorkStep(s: State, t: Tid, call: Call)
    requires t in s.th && (Owns(s.th[t]) ==> s.th[t].item >= 0)
    requires !s.th[t].Idle? && !s.th[t].PushXchg? && !s.th[t].PushLink? && !s.th[t].PushHead?
    ensures var s' := Step(s, t, call);
            && t in s'.th
            && match s'.th[t]
               case Idle => s.th[t] == Undo || (s.th[t].Wake? && s.th[t].item == NULL)
               case Undo => s.th[t] == TakeHead && s.head == NULL
               case Contend(c) =>
                 || (s.th[t] == TakeHead && s.head == MEDIATOR && c == SPINS)
                 || (s.th[t] == Contend(c + 1) && s.head == MEDIATOR && c > 0)
               case Wake(_, item) =>
                 item == NULL ==> (s.th[t].Contend? && s.head == MEDIATOR && s.th[t].i <= 1)
                                  || (s.th[t].Wake? && s.th[t].item == NULL)
               case PushXchg => false
               case PushLink(_, _) => false
               case PushHead(_) => false
               case _ => true
  {
  }

  lemma OwnerItem(s: State, t: Tid)
    requires Inv(s) && t in s.th
    ensures Owns(s.th[t]) ==> s.th[t].item >= 0
  {
    assert OwnerInv(s);
  }

  lemma WorkMine(threads: set<Tid>, schedule: seq<(Tid, Call)>, i: nat, n: nat, t: Tid)
    requires i < n < |schedule| && t in threads && schedule[n].0 == t
    requires Works(threads, schedule, i, n, t) && At(threads, schedule, n).th[t] != Idle
    ensures Works(threads, schedule, i, n + 1, t)
  {
    hide Inv, Step, At, Reason;
    Next(threads, schedule, n);
    var s, s' := At(threads, schedule, n), At(threads, schedule, n + 1);
    OwnerItem(s, t);
    WorkStep(s, t, schedule[n].1);
    match s'.th[t] {
      case Undo => assert Finds(threads, schedule, n, t, NULL);
      case Contend(c) =>
        if s.th[t] == TakeHead {
          assert Finds(threads, schedule, n, t, MEDIATOR);
          Found(threads, schedule, i, n, t);
        } else {
          ReasonNext(threads, schedule, i, n, t, SPINS - (c + 1));
        }
      case Wake(_, item) =>
        if item == NULL {
          ReasonNext(threads, schedule, i, n, t, if s.th[t].Contend? then SPINS - s.th[t].i else SPINS);
        }
      case Idle =>
        if s.th[t].Wake? { ReasonNext(threads, schedule, i, n, t, SPINS); }
      case _ =>
    }
  }

  lemma WorkOther(threads: set<Tid>, schedule: seq<(Tid, Call)>, i: nat, n: nat, t: Tid)
    requires i < n < |schedule| && t in threads && schedule[n].0 != t && Works(threads, schedule, i, n, t)
    ensures Works(threads, schedule, i, n + 1, t)
  {
    hide Inv, Step, At, Reason;
    Next(threads, schedule, n);
    var s := At(threads, schedule, n);
    if schedule[n].0 in threads { StepNodes(s, schedule[n].0, schedule[n].1); }
    match s.th[t]
    case Contend(c) => ReasonNext(threads, schedule, i, n, t, SPINS - c);
    case Wake(_, item) => if item == NULL { ReasonNext(threads, schedule, i, n, t, SPINS); }
    case Idle =>
      if Reason(threads, schedule, i, n, t, SPINS) { ReasonNext(threads, schedule, i, n, t, SPINS); }
    case _ =>
  }

  /**
    A worker thread leaves only if it found no item in the head, or if it found the mediator there and then saw
    nothing else in all its looks.
  */
  lemma WorkEnds(threads: set<Tid>, schedule: seq<(Tid, Call)>, i: nat, j: nat, t: Tid)
    requires i < j <= |schedule| && Calls(threads, schedule, i, j, t, Work) && At(threads, schedule, i).pending > 0
    ensures Leaves(threads, schedule, i, j, t)
  {
    hide Inv, Step, At, Works, Leaves;
    Next(threads, schedule, i);
    WorkBegins(threads, schedule, i, t);
    var n := i + 1;
    while n < j
      invariant i < n <= j && t in threads && Works(threads, schedule, i, n, t)
    {
      assert At(threads, schedule, n).th[t] != Idle;
      if schedule[n].0 == t {
        WorkMine(threads, schedule, i, n, t);
      } else {
        WorkOther(threads, schedule, i, n, t);
      }
      n := n + 1;
    }
    WorkIdle(threads, schedule, i, j, t);
  }

  lemma WorkBegins(threads: set<Tid>, schedule: seq<(Tid, Call)>, i: nat, t: Tid)
    requires i < |schedule| && schedule[i] == (t, Work) && t in threads
    requires var s := At(threads, schedule, i); t in s.th && s.th[t] == Idle && s.pending > 0
    ensures Works(threads, schedule, i, i + 1, t)
  {
    Next(threads, schedule, i);
    hide Inv, At;
  }

  lemma WorkIdle(threads: set<Tid>, schedule: seq<(Tid, Call)>, i: nat, j: nat, t: Tid)
    requires i < j <= |schedule| && Works(threads, schedule, i, j, t)
    requires t in At(threads, schedule, j).th && At(threads, schedule, j).th[t] == Idle
    ensures Leaves(threads, schedule, i, j, t)
  {
  }
}
