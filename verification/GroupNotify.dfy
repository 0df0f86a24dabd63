/**
  Group notification: threads enter and leave a group, register notify blocks on an intrusive list
  and wake it. A wake takes the head and the tail of the list by two separate exchanges and then
  submits the blocks in between, while registrations go on.

  Node `i` is the `i`-th one to be exchanged into the tail.
*/
module GroupNotify {
  type Tid = nat
  const NULL: int := -1
  /** LONG_MAX, the value of an empty group. */
  const ORIG: int := 0x7fff_ffff_ffff_ffff

  datatype Node = Node(pusher: Tid, next: int)

  datatype Call = Enter | Leave | Notify | GroupWait

  datatype Pc =
    | Idle
    // dispatch_group_notify_f
    | NotifyXchg
    | NotifyLink(node: int, prev: int)
    | NotifyHead(node: int)
    | NotifyCheck
    // dispatch_group_wait and _dispatch_group_wait_slow; the waiter semaphore is left out
    | WaitFast
    | WaitSlow
    | WaitAgain
    | WaitBlocked
    // _dispatch_group_wake
    | WakeHead
    | WakeTail(h: int)
    | Submit(h: int, last: int)
    | ReadNext(h: int, last: int)
    | SpinNext(h: int, last: int)

  /**
    History: `entered` counts the enters not yet left, `owner` is the thread that has taken the head
    and not yet the tail, `takenBy[k]` is the thread whose wake took node `k`, and `submitted` lists
    the nodes whose block was submitted.
  */
  datatype State = State(
    value: int, nodes: seq<Node>, head: int, tail: int, th: map<Tid, Pc>,
    entered: nat, owner: int, takenBy: seq<Tid>, submitted: seq<int>)

  function Init(threads: set<Tid>): State {
    State(ORIG, [], NULL, NULL, map t | t in threads :: Idle, 0, NULL, [], [])
  }

  function Go(s: State, t: Tid, pc: Pc): State {
    s.(th := s.th[t := pc])
  }

  function NextOf(s: State, k: int): int {
    if 0 <= k < |s.nodes| then s.nodes[k].next else NULL
  }

  function SetNext(s: State, k: int, next: int): State {
    if 0 <= k < |s.nodes| then s.(nodes := s.nodes[k := s.nodes[k].(next := next)]) else s
  }

  function Begin(s: State, t: Tid, call: Call): State {
    match call
    case Enter => if s.value <= 0 then s else s.(value := s.value - 1, entered := s.entered + 1)
    case Leave =>
      // Clients leave only what they have entered.
      if s.entered == 0 then s
      else Go(s.(value := s.value + 1, entered := s.entered - 1), t, if s.value + 1 == ORIG then WakeHead else Idle)
    case Notify => Go(s, t, NotifyXchg)
    case GroupWait => Go(s, t, WaitFast)
  }

  function StepXchg(s: State, t: Tid): State {
    var n := |s.nodes|;
    Go(s.(nodes := s.nodes + [Node(t, NULL)], tail := n), t,
       if s.tail != NULL then NotifyLink(n, s.tail) else NotifyHead(n))
  }

  /** The thread takes everything that is on the list at its tail exchange. */
  function StepTail(s: State, t: Tid, h: int): State {
    Go(s.(tail := NULL, owner := NULL, takenBy := s.takenBy + seq(Rest(s), i => t)), t, Submit(h, s.tail))
  }

  function Rest(s: State): nat {
    if |s.takenBy| <= |s.nodes| then |s.nodes| - |s.takenBy| else 0
  }

  function StepWait(s: State, t: Tid, pc: Pc, again: bool): State {
    match pc
    case WaitFast => Go(s, t, if s.value == ORIG then Idle else WaitSlow)
    case WaitSlow => Go(s, t, if s.value == ORIG then WakeHead else WaitAgain)
    case WaitAgain => Go(s, t, if s.value == ORIG then WakeHead else WaitBlocked)
    case WaitBlocked => Go(s, t, if again then WaitSlow else Idle)
    case _ => s
  }

  function StepWalk(s: State, t: Tid, pc: Pc): State {
    match pc
    case Submit(h, last) => Go(s.(submitted := s.submitted + [h]), t, ReadNext(h, last))
    case ReadNext(h, last) =>
      var next := NextOf(s, h);
      Go(s, t, if next != NULL then Submit(next, last) else if h != last then SpinNext(h, last) else Idle)
    case SpinNext(h, last) =>
      var next := NextOf(s, h);
      if next == NULL then s else Go(s, t, Submit(next, last))
    case _ => s
  }

  /** One atomic step of thread `t`; `call` is for an idle thread, `again` for one that was blocked. */
  function Step(s: State, t: Tid, call: Call, again: bool): State
    requires t in s.th
  {
    match s.th[t]
    case Idle => Begin(s, t, call)
    case NotifyXchg => StepXchg(s, t)
    case NotifyLink(node, prev) => Go(SetNext(s, prev, node), t, Idle)
    case NotifyHead(node) => Go(s.(head := node), t, NotifyCheck)
    case NotifyCheck => Go(s, t, if s.value == ORIG then WakeHead else Idle)
    case WakeHead =>
      if s.head == NULL then Go(s, t, Idle) else Go(s.(head := NULL, owner := t), t, WakeTail(s.head))
    case WakeTail(h) => StepTail(s, t, h)
    case Submit(_, _) => StepWalk(s, t, s.th[t])
    case ReadNext(_, _) => StepWalk(s, t, s.th[t])
    case SpinNext(_, _) => StepWalk(s, t, s.th[t])
    case _ => StepWait(s, t, s.th[t], again)
  }

  function Run(s: State, schedule: seq<(Tid, Call, bool)>): State
    decreases |schedule|
  {
    if schedule == [] then s
    else
      var (t, call, again) := schedule[0];
      Run(if t in s.th then Step(s, t, call, again) else s, schedule[1..])
  }

  // ---------------------------------------------------------------------------------------------
  // Invariant
  // ---------------------------------------------------------------------------------------------

  predicate Walks(pc: Pc) {
    pc.Submit? || pc.ReadNext? || pc.SpinNext?
  }

  /** Node `k` is still to be submitted by a thread at `pc`. */
  predicate Covers(pc: Pc, k: int) {
    Walks(pc) && k <= pc.last && (if pc.Submit? then pc.h <= k else pc.h < k)
  }

  predicate Chained(s: State, k: int)
    requires 0 < k < |s.nodes|
  {
    s.nodes[k - 1].next == k
    || (s.nodes[k - 1].next == NULL && s.nodes[k].pusher in s.th && s.th[s.nodes[k].pusher] == NotifyLink(k, k - 1))
  }

  predicate ListInv(s: State) {
    var n, b := |s.nodes|, |s.takenBy|;
    && b <= n
    && (forall k {:trigger Chained(s, k)} :: b < k < n ==> Chained(s, k))
    && (b == n ==> s.tail == NULL && s.head == NULL && s.owner == NULL)
    && (b < n ==> s.tail == n - 1 && s.nodes[n - 1].next == NULL)
    && (b < n && s.owner == NULL ==>
          s.head == b
          || (s.head == NULL && s.nodes[b].pusher in s.th && s.th[s.nodes[b].pusher] == NotifyHead(b)))
    && (b < n && s.owner != NULL ==> s.head == NULL && s.owner in s.th && s.th[s.owner] == WakeTail(b))
    && (forall u :: u in s.th && s.th[u].WakeTail? ==> s.owner == u)
  }

  /** Nodes `k - 1` and `k` are both on the list, or both in the part of one wake that is still walked. */
  predicate Together(s: State, k: int)
    requires 0 < k < |s.nodes|
  {
    var b := |s.takenBy|;
    b < k || (k < b && s.takenBy[k] in s.th && Walks(s.th[s.takenBy[k]])
              && s.th[s.takenBy[k]].h <= k - 1 && k <= s.th[s.takenBy[k]].last)
  }

  predicate PushersInv(s: State) {
    var n, b := |s.nodes|, |s.takenBy|;
    && (forall u :: u in s.th && s.th[u].NotifyLink? ==>
          var k := s.th[u].node;
          && 0 < k < n && s.th[u].prev == k - 1 && s.nodes[k].pusher == u && s.nodes[k - 1].next == NULL
          && Together(s, k))
    && (forall u :: u in s.th && s.th[u].NotifyHead? ==>
          b == s.th[u].node < n && s.nodes[b].pusher == u && s.head == NULL && s.owner == NULL)
  }

  /** The part a walking thread has before it. */
  predicate WalkOk(s: State, u: Tid)
    requires u in s.th && Walks(s.th[u])
  {
    var h, last := s.th[u].h, s.th[u].last;
    && 0 <= h <= last < |s.takenBy| <= |s.nodes|
    && (forall k :: h <= k <= last ==> s.takenBy[k] == u)
    && (forall k {:trigger Chained(s, k)} :: h < k <= last ==> Chained(s, k))
    && s.nodes[last].next == NULL
    && (s.th[u].SpinNext? ==> h < last)
  }

  predicate WalksInv(s: State) {
    forall u :: u in s.th && Walks(s.th[u]) ==> WalkOk(s, u)
  }

  /** A taken node is submitted, or still before the thread that took it; never both. */
  predicate SubmitInv(s: State) {
    && (forall k :: 0 <= k < |s.takenBy| ==>
          s.takenBy[k] in s.th && (k in s.submitted <==> !Covers(s.th[s.takenBy[k]], k)))
    && (forall i :: 0 <= i < |s.submitted| ==> 0 <= s.submitted[i] < |s.takenBy|)
    && (forall i, j :: 0 <= i < j < |s.submitted| ==> s.submitted[i] != s.submitted[j])
  }

  predicate Committed(pc: Pc) {
    pc.NotifyCheck? || pc.WakeHead?
  }

  /** An empty group with a published list has a thread bound to wake it. */
  predicate NoStrand(s: State) {
    && s.value == ORIG - s.entered
    && (s.head != NULL && s.value == ORIG ==> exists u :: u in s.th && Committed(s.th[u]))
  }

  predicate Inv(s: State) {
    ListInv(s) && PushersInv(s) && WalksInv(s) && SubmitInv(s) && NoStrand(s)
  }

  lemma InitInv(threads: set<Tid>)
    ensures Inv(Init(threads))
  {
  }

  predicate Moved(s: State, s': State, t: Tid) {
    t in s.th && t in s'.th && s'.th == s.th[t := s'.th[t]]
  }

  lemma StrandFrame(s: State, s': State, t: Tid)
    requires NoStrand(s) && Moved(s, s', t) && s'.value == ORIG - s'.entered
    requires s'.head != NULL && s'.value == ORIG ==>
               Committed(s'.th[t]) || (s.head != NULL && s.value == ORIG && !Committed(s.th[t]))
    ensures NoStrand(s')
  {
    if s'.head != NULL && s'.value == ORIG && !Committed(s'.th[t]) {
      var u :| u in s.th && Committed(s.th[u]);
      assert u in s'.th && Committed(s'.th[u]);
    }
  }

  predicate Publishing(pc: Pc) {
    pc.NotifyLink? || pc.NotifyHead?
  }

  /** A link or a pending link survives every step but its own pusher's. */
  predicate KeepsChains(s: State, s': State) {
    && |s.nodes| <= |s'.nodes|
    && forall k {:trigger Chained(s', k)} :: 0 < k < |s.nodes| && Chained(s, k) ==> Chained(s', k)
  }

  lemma ChainFrame(s: State, s': State, t: Tid)
    requires Moved(s, s', t) && s'.nodes == s.nodes && !s.th[t].NotifyLink?
    ensures KeepsChains(s, s')
  {
  }

  lemma ListFrame(s: State, s': State, t: Tid)
    requires ListInv(s) && Moved(s, s', t) && KeepsChains(s, s') && |s'.nodes| == |s.nodes|
    requires forall k :: 0 <= k < |s.nodes| ==> s'.nodes[k].pusher == s.nodes[k].pusher
    requires s.nodes == [] || s'.nodes[|s.nodes| - 1].next == s.nodes[|s.nodes| - 1].next
    requires s'.head == s.head && s'.tail == s.tail && s'.owner == s.owner && s'.takenBy == s.takenBy
    requires !s.th[t].NotifyHead? && !s.th[t].WakeTail? && !s'.th[t].WakeTail?
    ensures ListInv(s')
  {
    forall k | |s.takenBy| < k < |s.nodes| ensures Chained(s', k) {
      assert Chained(s, k);
    }
  }

  lemma PushersFrame(s: State, s': State, t: Tid)
    requires PushersInv(s) && Moved(s, s', t) && s'.nodes == s.nodes
    requires s'.head == s.head && s'.owner == s.owner && s'.takenBy == s.takenBy
    requires !Publishing(s'.th[t]) && (Walks(s.th[t]) <==> Walks(s'.th[t]))
    requires Walks(s.th[t]) ==> s'.th[t].last == s.th[t].last
    requires Walks(s.th[t]) && s'.th[t].h != s.th[t].h ==>
               0 <= s.th[t].h == s'.th[t].h - 1 < |s.nodes| && s.nodes[s.th[t].h].next != NULL
    ensures PushersInv(s')
  {
    forall k | 0 < k < |s.nodes| && Together(s, k) && s.nodes[k - 1].next == NULL ensures Together(s', k) {}
  }

  lemma WalksFrame(s: State, s': State, t: Tid)
    requires WalksInv(s) && KeepsChains(s, s') && Moved(s, s', t)
    requires |s.takenBy| <= |s'.takenBy| <= |s'.nodes|
    requires forall k :: 0 <= k < |s.takenBy| ==> s'.takenBy[k] == s.takenBy[k]
    requires forall u :: u in s.th && u != t && Walks(s.th[u]) && 0 <= s.th[u].last < |s.takenBy| ==>
               s'.nodes[s.th[u].last].next == s.nodes[s.th[u].last].next
    requires Walks(s'.th[t]) ==> WalkOk(s', t)
    ensures WalksInv(s')
  {
    forall u | u in s'.th && Walks(s'.th[u]) ensures WalkOk(s', u) {
      if u != t {
        assert WalkOk(s, u);
        forall k | s.th[u].h < k <= s.th[u].last ensures Chained(s', k) {
          assert Chained(s, k);
        }
      }
    }
  }

  /** A thread that neither publishes nor wakes leaves the list and the walks alone. */
  lemma Bystander(s: State, s': State, t: Tid)
    requires ListInv(s) && PushersInv(s) && WalksInv(s) && Moved(s, s', t)
    requires s' == s.(th := s'.th, value := s'.value, entered := s'.entered)
    requires !Publishing(s.th[t]) && !Publishing(s'.th[t]) && !Walks(s.th[t]) && !Walks(s'.th[t])
    requires !s.th[t].WakeTail? && !s'.th[t].WakeTail?
    ensures ListInv(s') && PushersInv(s') && WalksInv(s')
  {
    assert |s.takenBy| <= |s.nodes|;
    hide ListInv, PushersInv, WalksInv;
    ChainFrame(s, s', t);
    ListFrame(s, s', t);
    PushersFrame(s, s', t);
    WalksFrame(s, s', t);
  }

  lemma BystanderSubmit(s: State, s': State, t: Tid)
    requires SubmitInv(s) && Moved(s, s', t) && s'.takenBy == s.takenBy && s'.submitted == s.submitted
    requires !Walks(s.th[t]) && !Walks(s'.th[t])
    ensures SubmitInv(s')
  {
  }

  lemma BystanderKeeps(s: State, t: Tid, call: Call, again: bool)
    requires Inv(s) && t in s.th
    requires s.th[t].Idle? || s.th[t].NotifyCheck? || s.th[t].WaitFast? || s.th[t].WaitSlow? || s.th[t].WaitAgain?
             || s.th[t].WaitBlocked? || (s.th[t].WakeHead? && s.head == NULL)
    ensures Inv(Step(s, t, call, again))
  {
    hide ListInv, PushersInv, WalksInv, SubmitInv;
    var s' := Step(s, t, call, again);
    assert s'.value == ORIG - s'.entered;
    hide NoStrand;
    Bystander(s, s', t);
    BystanderSubmit(s, s', t);
    StrandFrame(s, s', t);
  }

  // ---------------------------------------------------------------------------------------------
  // Registration
  // ---------------------------------------------------------------------------------------------

  lemma XchgChains(s: State, t: Tid)
    requires t in s.th && s.th[t].NotifyXchg?
    ensures KeepsChains(s, StepXchg(s, t))
  {
    var s' := StepXchg(s, t);
    forall k | 0 < k < |s.nodes| && Chained(s, k) ensures Chained(s', k) {
      assert s'.nodes[k] == s.nodes[k] && s'.nodes[k - 1] == s.nodes[k - 1];
    }
  }

  lemma XchgList(s: State, t: Tid)
    requires ListInv(s) && t in s.th && s.th[t].NotifyXchg? && KeepsChains(s, StepXchg(s, t))
    ensures ListInv(StepXchg(s, t))
  {
    var s' := StepXchg(s, t);
    forall k | |s.takenBy| < k < |s'.nodes| ensures Chained(s', k) {
      if k < |s.nodes| { assert Chained(s, k); }
    }
  }

  lemma XchgPushers(s: State, t: Tid)
    requires ListInv(s) && PushersInv(s) && t in s.th && s.th[t].NotifyXchg?
    ensures PushersInv(StepXchg(s, t))
  {
    var s' := StepXchg(s, t);
    forall k | 0 < k < |s.nodes| && Together(s, k) ensures Together(s', k) {}
  }

  lemma XchgKeeps(s: State, t: Tid)
    requires Inv(s) && t in s.th && s.th[t].NotifyXchg?
    ensures Inv(StepXchg(s, t))
  {
    assert |s.takenBy| <= |s.nodes|;
    hide ListInv, PushersInv, WalksInv, SubmitInv, NoStrand;
    var s' := StepXchg(s, t);
    XchgChains(s, t);
    XchgList(s, t);
    XchgPushers(s, t);
    WalksFrame(s, s', t);
    BystanderSubmit(s, s', t);
    StrandValue(s);
    StrandFrame(s, s', t);
  }

  lemma StrandValue(s: State)
    requires NoStrand(s)
    ensures s.value == ORIG - s.entered
  {
  }

  /** One other pusher keeps its place: its predecessor is not the one that has just been linked. */
  lemma LinkPusher(s: State, s': State, t: Tid, u: Tid)
    requires PushersInv(s) && t in s.th && s.th[t].NotifyLink? && u in s.th && u != t && s.th[u].NotifyLink?
    requires s' == Go(SetNext(s, s.th[t].prev, s.th[t].node), t, Idle)
    ensures var k := s'.th[u].node;
            && 0 < k < |s'.nodes| && s'.th[u].prev == k - 1 && s'.nodes[k].pusher == u && s'.nodes[k - 1].next == NULL
            && Together(s', k)
  {
    var k := s.th[u].node;
    assert 0 < k < |s.nodes| && Together(s, k) && s.nodes[k].pusher == u;
    assert s.nodes[s.th[t].node].pusher == t;
  }

  lemma LinkPushers(s: State, t: Tid, node: int, prev: int)
    requires PushersInv(s) && t in s.th && s.th[t] == NotifyLink(node, prev)
    ensures PushersInv(Go(SetNext(s, prev, node), t, Idle))
  {
    var s' := Go(SetNext(s, prev, node), t, Idle);
    assert 0 <= prev < |s.nodes|;
    hide Together;
    forall u | u in s'.th && s'.th[u].NotifyLink?
      ensures var k := s'.th[u].node;
              && 0 < k < |s'.nodes| && s'.th[u].prev == k - 1 && s'.nodes[k].pusher == u
              && s'.nodes[k - 1].next == NULL && Together(s', k)
    {
      LinkPusher(s, s', t, u);
    }
  }

  /** The link goes into a node that is still on the list or before its walker, and is not a last one. */
  lemma LinkIsInside(s: State, t: Tid)
    requires ListInv(s) && PushersInv(s) && WalksInv(s) && t in s.th && s.th[t].NotifyLink?
    ensures var k := s.th[t].node; 0 < k < |s.nodes| && s.th[t].prev == k - 1 && s.nodes[k].pusher == t
    ensures forall u :: u in s.th && Walks(s.th[u]) ==> s.th[u].last != s.th[t].prev
  {
    var k := s.th[t].node;
    assert Together(s, k);
    if k < |s.takenBy| {
      assert WalkOk(s, s.takenBy[k]);
      assert s.takenBy[k - 1] == s.takenBy[k];
    }
    forall u | u in s.th && Walks(s.th[u]) ensures s.th[u].last != k - 1 {
      assert WalkOk(s, u);
    }
  }

  lemma LinkChains(s: State, t: Tid, node: int, prev: int)
    requires t in s.th && s.th[t] == NotifyLink(node, prev) && 0 < node < |s.nodes| && prev == node - 1
    requires s.nodes[node].pusher == t
    ensures KeepsChains(s, Go(SetNext(s, prev, node), t, Idle))
  {
  }

  lemma LinkKeeps(s: State, t: Tid, call: Call, again: bool)
    requires Inv(s) && t in s.th && s.th[t].NotifyLink?
    ensures Inv(Step(s, t, call, again))
  {
    assert |s.takenBy| <= |s.nodes|;
    hide ListInv, PushersInv, WalksInv, SubmitInv, NoStrand;
    var s', node, prev := Step(s, t, call, again), s.th[t].node, s.th[t].prev;
    LinkIsInside(s, t);
    LinkChains(s, t, node, prev);
    LinkPushers(s, t, node, prev);
    ListFrame(s, s', t);
    WalksFrame(s, s', t);
    BystanderSubmit(s, s', t);
    StrandValue(s);
    StrandFrame(s, s', t);
  }

  lemma HeadList(s: State, t: Tid, call: Call, again: bool)
    requires ListInv(s) && PushersInv(s) && t in s.th && s.th[t].NotifyHead?
    ensures ListInv(Step(s, t, call, again)) && PushersInv(Step(s, t, call, again))
  {
    var s' := Step(s, t, call, again);
    forall k | |s.takenBy| < k < |s.nodes| ensures Chained(s', k) {
      assert Chained(s, k);
    }
    forall k | 0 < k < |s.nodes| && Together(s, k) ensures Together(s', k) {}
  }

  lemma HeadKeeps(s: State, t: Tid, call: Call, again: bool)
    requires Inv(s) && t in s.th && s.th[t].NotifyHead?
    ensures Inv(Step(s, t, call, again))
  {
    assert |s.takenBy| <= |s.nodes|;
    hide ListInv, PushersInv, WalksInv, SubmitInv, NoStrand;
    var s' := Step(s, t, call, again);
    HeadList(s, t, call, again);
    ChainFrame(s, s', t);
    WalksFrame(s, s', t);
    BystanderSubmit(s, s', t);
    StrandValue(s);
    StrandFrame(s, s', t);
  }

  // ---------------------------------------------------------------------------------------------
  // The wake
  // ---------------------------------------------------------------------------------------------

  lemma TakeHeadList(s: State, t: Tid, call: Call, again: bool)
    requires ListInv(s) && PushersInv(s) && t in s.th && s.th[t].WakeHead? && s.head != NULL
    ensures ListInv(Step(s, t, call, again)) && PushersInv(Step(s, t, call, again))
  {
    var s' := Step(s, t, call, again);
    forall k | |s.takenBy| < k < |s.nodes| ensures Chained(s', k) {
      assert Chained(s, k);
    }
    forall k | 0 < k < |s.nodes| && Together(s, k) ensures Together(s', k) {}
  }

  lemma TakeHeadKeeps(s: State, t: Tid, call: Call, again: bool)
    requires Inv(s) && t in s.th && s.th[t].WakeHead? && s.head != NULL
    ensures Inv(Step(s, t, call, again))
  {
    assert |s.takenBy| <= |s.nodes|;
    hide ListInv, PushersInv, WalksInv, SubmitInv, NoStrand;
    var s' := Step(s, t, call, again);
    TakeHeadList(s, t, call, again);
    ChainFrame(s, s', t);
    WalksFrame(s, s', t);
    BystanderSubmit(s, s', t);
    StrandValue(s);
    StrandFrame(s, s', t);
  }

  /** At the tail exchange the whole list, late registrations included, becomes the part of `t`. */
  lemma TakeTailWalk(s: State, t: Tid, h: int)
    requires ListInv(s) && t in s.th && s.th[t] == WakeTail(h)
    ensures var s' := StepTail(s, t, h);
            && h == |s.takenBy| < |s.nodes| == |s'.takenBy| && s.tail == |s.nodes| - 1
            && ListInv(s') && WalkOk(s', t)
  {
    var s' := StepTail(s, t, h);
    ChainFrame(s, s', t);
    forall k | h < k < |s.nodes| ensures Chained(s', k) {
      assert Chained(s, k);
    }
  }

  lemma TakeTailPushers(s: State, t: Tid, h: int)
    requires PushersInv(s) && t in s.th && s.th[t] == WakeTail(h) && s.owner == t
    requires h == |s.takenBy| < |s.nodes| && s.tail == |s.nodes| - 1
    ensures PushersInv(StepTail(s, t, h))
  {
    var s' := StepTail(s, t, h);
    forall k | 0 < k < |s.nodes| && Together(s, k) ensures Together(s', k) {
      if k > |s.takenBy| { assert s'.takenBy[k] == t; }
    }
  }

  lemma TakeTailSubmit(s: State, t: Tid, h: int)
    requires SubmitInv(s) && t in s.th && s.th[t] == WakeTail(h)
    requires h == |s.takenBy| < |s.nodes| && s.tail == |s.nodes| - 1
    ensures SubmitInv(StepTail(s, t, h))
  {
    var s', b := StepTail(s, t, h), |s.takenBy|;
    forall k | 0 <= k < |s'.takenBy|
      ensures s'.takenBy[k] in s'.th && (k in s'.submitted <==> !Covers(s'.th[s'.takenBy[k]], k))
    {
      if k < b {
        assert s'.takenBy[k] == s.takenBy[k];
      } else {
        assert s'.takenBy[k] == t && k !in s.submitted;
      }
    }
  }

  lemma TakeTailKeeps(s: State, t: Tid, h: int)
    requires Inv(s) && t in s.th && s.th[t] == WakeTail(h)
    ensures Inv(StepTail(s, t, h))
  {
    assert s.owner == t;
    hide ListInv, PushersInv, WalksInv, SubmitInv, NoStrand, WalkOk;
    var s' := StepTail(s, t, h);
    TakeTailWalk(s, t, h);
    TakeTailPushers(s, t, h);
    TakeTailSubmit(s, t, h);
    ChainFrame(s, s', t);
    WalksFrame(s, s', t);
    StrandValue(s);
    StrandFrame(s, s', t);
  }

  lemma SubmitStep(s: State, t: Tid)
    requires WalksInv(s) && SubmitInv(s) && t in s.th && s.th[t].Submit?
    ensures SubmitInv(StepWalk(s, t, s.th[t]))
  {
    var s', h := StepWalk(s, t, s.th[t]), s.th[t].h;
    assert WalkOk(s, t);
    assert s.takenBy[h] == t && Covers(s.th[t], h);
    forall k | 0 <= k < |s.takenBy| ensures k in s'.submitted <==> !Covers(s'.th[s.takenBy[k]], k) {
      assert k in s'.submitted <==> k in s.submitted || k == h;
    }
  }

  lemma SubmitKeeps(s: State, t: Tid)
    requires Inv(s) && t in s.th && s.th[t].Submit?
    ensures Inv(StepWalk(s, t, s.th[t]))
  {
    assert |s.takenBy| <= |s.nodes|;
    assert WalkOk(s, t);
    var s' := StepWalk(s, t, s.th[t]);
    ChainFrame(s, s', t);
    assert WalkOk(s', t) by {
      forall k | s.th[t].h < k <= s.th[t].last ensures Chained(s', k) { assert Chained(s, k); }
    }
    hide ListInv, PushersInv, WalksInv, SubmitInv, NoStrand, WalkOk;
    SubmitStep(s, t);
    ListFrame(s, s', t);
    PushersFrame(s, s', t);
    WalksFrame(s, s', t);
    StrandValue(s);
    StrandFrame(s, s', t);
  }

  /** A link read by a walker names the next node of its own part. */
  lemma NextIsSuccessor(s: State, t: Tid)
    requires WalksInv(s) && t in s.th && Walks(s.th[t])
    ensures var h, last := s.th[t].h, s.th[t].last;
            && 0 <= h <= last < |s.nodes| && WalkOk(s, t)
            && (NextOf(s, h) != NULL ==> NextOf(s, h) == h + 1 <= last)
  {
    var h, last := s.th[t].h, s.th[t].last;
    assert WalkOk(s, t);
    if h < last { assert Chained(s, h + 1); }
  }

  lemma AdvanceSubmit(s: State, s': State, t: Tid)
    requires SubmitInv(s) && Moved(s, s', t) && s'.takenBy == s.takenBy && s'.submitted == s.submitted
    requires forall k :: Covers(s'.th[t], k) <==> Covers(s.th[t], k)
    ensures SubmitInv(s')
  {
  }

  lemma ReadKeeps(s: State, t: Tid)
    requires Inv(s) && t in s.th && (s.th[t].ReadNext? || s.th[t].SpinNext?) && NextOf(s, s.th[t].h) != NULL
    ensures Inv(StepWalk(s, t, s.th[t]))
  {
    assert |s.takenBy| <= |s.nodes|;
    NextIsSuccessor(s, t);
    var s' := StepWalk(s, t, s.th[t]);
    ChainFrame(s, s', t);
    assert WalkOk(s', t) by {
      forall k | s'.th[t].h < k <= s.th[t].last ensures Chained(s', k) { assert Chained(s, k); }
    }
    hide ListInv, PushersInv, WalksInv, SubmitInv, NoStrand, WalkOk;
    AdvanceSubmit(s, s', t);
    ListFrame(s, s', t);
    PushersFrame(s, s', t);
    WalksFrame(s, s', t);
    StrandValue(s);
    StrandFrame(s, s', t);
  }

  lemma SpinKeeps(s: State, t: Tid)
    requires Inv(s) && t in s.th && s.th[t].ReadNext? && NextOf(s, s.th[t].h) == NULL && s.th[t].h != s.th[t].last
    ensures Inv(StepWalk(s, t, s.th[t]))
  {
    assert |s.takenBy| <= |s.nodes|;
    NextIsSuccessor(s, t);
    var s' := StepWalk(s, t, s.th[t]);
    ChainFrame(s, s', t);
    assert WalkOk(s', t) by {
      forall k | s'.th[t].h < k <= s.th[t].last ensures Chained(s', k) { assert Chained(s, k); }
    }
    hide ListInv, PushersInv, WalksInv, SubmitInv, NoStrand, WalkOk;
    AdvanceSubmit(s, s', t);
    ListFrame(s, s', t);
    PushersFrame(s, s', t);
    WalksFrame(s, s', t);
    StrandValue(s);
    StrandFrame(s, s', t);
  }

  /** No registration is still to be linked inside a part that has been walked to its end. */
  lemma EndPushers(s: State, s': State, t: Tid)
    requires PushersInv(s) && WalksInv(s) && Moved(s, s', t) && s' == s.(th := s'.th)
    requires Walks(s.th[t]) && s.th[t].h == s.th[t].last && s'.th[t] == Idle
    ensures PushersInv(s')
  {
    forall k | 0 < k < |s.nodes| && Together(s, k) ensures Together(s', k) {}
  }

  lemma EndKeeps(s: State, t: Tid)
    requires Inv(s) && t in s.th && s.th[t].ReadNext? && NextOf(s, s.th[t].h) == NULL && s.th[t].h == s.th[t].last
    ensures Inv(StepWalk(s, t, s.th[t]))
  {
    assert |s.takenBy| <= |s.nodes|;
    var s' := StepWalk(s, t, s.th[t]);
    hide ListInv, PushersInv, WalksInv, SubmitInv, NoStrand, WalkOk;
    ChainFrame(s, s', t);
    EndPushers(s, s', t);
    AdvanceSubmit(s, s', t);
    ListFrame(s, s', t);
    WalksFrame(s, s', t);
    StrandValue(s);
    StrandFrame(s, s', t);
  }

  // ---------------------------------------------------------------------------------------------
  // Every run
  // ---------------------------------------------------------------------------------------------

  lemma StepKeeps(s: State, t: Tid, call: Call, again: bool)
    requires Inv(s) && t in s.th
    ensures Inv(Step(s, t, call, again)) && Step(s, t, call, again).th.Keys == s.th.Keys
  {
    hide Inv;
    match s.th[t]
    case NotifyXchg => XchgKeeps(s, t);
    case NotifyLink(_, _) => LinkKeeps(s, t, call, again);
    case NotifyHead(_) => HeadKeeps(s, t, call, again);
    case WakeHead =>
      if s.head == NULL { BystanderKeeps(s, t, call, again); } else { TakeHeadKeeps(s, t, call, again); }
    case WakeTail(h) => TakeTailKeeps(s, t, h);
    case Submit(_, _) => SubmitKeeps(s, t);
    case ReadNext(h, last) =>
      if NextOf(s, h) != NULL { ReadKeeps(s, t); } else if h != last { SpinKeeps(s, t); } else { EndKeeps(s, t); }
    case SpinNext(h, _) => if NextOf(s, h) != NULL { ReadKeeps(s, t); }
    case _ => BystanderKeeps(s, t, call, again);
  }

  lemma {:induction false} RunKeeps(s: State, schedule: seq<(Tid, Call, bool)>)
    requires Inv(s)
    ensures Inv(Run(s, schedule)) && Run(s, schedule).th.Keys == s.th.Keys
    decreases |schedule|
  {
    hide Inv, Step;
    if schedule != [] {
      var (t, call, again) := schedule[0];
      if t in s.th {
        StepKeeps(s, t, call, again);
      }
      RunKeeps(if t in s.th then Step(s, t, call, again) else s, schedule[1..]);
    }
  }

  function Reached(threads: set<Tid>, schedule: seq<(Tid, Call, bool)>): State {
    Run(Init(threads), schedule)
  }

  lemma ReachedInv(threads: set<Tid>, schedule: seq<(Tid, Call, bool)>)
    ensures Inv(Reached(threads, schedule)) && Reached(threads, schedule).th.Keys == threads
  {
    hide Inv;
    InitInv(threads);
    RunKeeps(Init(threads), schedule);
  }

  /** No block is submitted twice, and only registered ones are. */
  lemma SubmittedOnce(threads: set<Tid>, schedule: seq<(Tid, Call, bool)>)
    ensures var s := Reached(threads, schedule);
            && (forall i :: 0 <= i < |s.submitted| ==> 0 <= s.submitted[i] < |s.nodes|)
            && (forall i, j :: 0 <= i < j < |s.submitted| ==> s.submitted[i] != s.submitted[j])
  {
    ReachedInv(threads, schedule);
    hide Run, Reached, Init, PushersInv, WalksInv, NoStrand;
  }

  /** When all calls are over and the group is empty, every registered block has been submitted. */
  lemma AllSubmitted(threads: set<Tid>, schedule: seq<(Tid, Call, bool)>)
    ensures var s := Reached(threads, schedule);
            (forall u :: u in s.th ==> s.th[u] == Idle || s.th[u] == WaitBlocked) && s.value == ORIG ==>
              && s.head == NULL && s.tail == NULL
              && forall k :: 0 <= k < |s.nodes| ==> k in s.submitted
  {
    ReachedInv(threads, schedule);
    hide Run, Reached, Init, PushersInv, WalksInv;
  }

  /** Blocks that a finished wake took are submitted even while others register and leave. */
  lemma TakenIsSubmitted(threads: set<Tid>, schedule: seq<(Tid, Call, bool)>, k: int)
    ensures var s := Reached(threads, schedule);
            0 <= k < |s.takenBy| ==>
              s.takenBy[k] in s.th && (k in s.submitted || Covers(s.th[s.takenBy[k]], k))
  {
    ReachedInv(threads, schedule);
    hide Run, Reached, Init, PushersInv, WalksInv, ListInv, NoStrand;
  }

  /** A late link is never stored into a node that its wake has passed and freed. */
  lemma LinksOnlyLiveNodes(threads: set<Tid>, schedule: seq<(Tid, Call, bool)>, t: Tid)
    requires t in threads
    ensures var s := Reached(threads, schedule);
            && t in s.th
            && (s.th[t].NotifyLink? ==>
                  var p := s.th[t].prev;
                  && 0 <= p < |s.nodes|
                  && (|s.takenBy| <= p
                      || (p < |s.takenBy| && s.takenBy[p] in s.th && Walks(s.th[s.takenBy[p]])
                          && s.th[s.takenBy[p]].h <= p)))
  {
    ReachedInv(threads, schedule);
    hide Run, Reached, Init;
    var s := Reached(threads, schedule);
    if s.th[t].NotifyLink? { LiveLink(s, t); }
  }

  lemma LiveLink(s: State, t: Tid)
    requires Inv(s) && t in s.th && s.th[t].NotifyLink?
    ensures var p := s.th[t].prev;
            && 0 <= p < |s.nodes|
            && (|s.takenBy| <= p
                || (p < |s.takenBy| && s.takenBy[p] in s.th && Walks(s.th[s.takenBy[p]]) && s.th[s.takenBy[p]].h <= p))
  {
    var k := s.th[t].node;
    assert Together(s, k);
    if k < |s.takenBy| { assert WalkOk(s, s.takenBy[k]); }
    hide ListInv, SubmitInv, NoStrand, WalksInv;
  }

  /** A spinning wake waits for one registration that is a single store away. */
  lemma SpinsEnd(threads: set<Tid>, schedule: seq<(Tid, Call, bool)>, t: Tid, call: Call, again: bool)
    requires t in threads
    ensures var s := Reached(threads, schedule);
            && t in s.th
            && (s.th[t].SpinNext? && NextOf(s, s.th[t].h) == NULL ==>
                  exists u :: u in s.th && u != t && NextOf(Step(s, u, call, again), s.th[t].h) != NULL)
  {
    ReachedInv(threads, schedule);
    hide Run, Reached, Init;
    var s := Reached(threads, schedule);
    if s.th[t].SpinNext? && NextOf(s, s.th[t].h) == NULL {
      var u := Releaser(s, t, call, again);
    }
  }

  lemma Releaser(s: State, t: Tid, call: Call, again: bool) returns (u: Tid)
    requires Inv(s) && t in s.th && (s.th[t].SpinNext? || (s.th[t].ReadNext? && s.th[t].h != s.th[t].last))
    requires NextOf(s, s.th[t].h) == NULL
    ensures u in s.th && u != t && NextOf(Step(s, u, call, again), s.th[t].h) != NULL && s.th[u].NotifyLink?
  {
    assert WalkOk(s, t);
    assert Chained(s, s.th[t].h + 1);
    hide ListInv, PushersInv, SubmitInv, NoStrand, WalksInv;
    u := s.nodes[s.th[t].h + 1].pusher;
  }

  // ---------------------------------------------------------------------------------------------
  // Calls, followed along a schedule
  // ---------------------------------------------------------------------------------------------

  /** The state after the first `k` steps of a schedule. */
  function At(threads: set<Tid>, schedule: seq<(Tid, Call, bool)>, k: nat): State
    requires k <= |schedule|
  {
    Reached(threads, schedule[..k])
  }

  lemma {:induction false} RunAppend(s: State, schedule: seq<(Tid, Call, bool)>, t: Tid, call: Call, again: bool)
    ensures var r := Run(s, schedule);
            Run(s, schedule + [(t, call, again)]) == if t in r.th then Step(r, t, call, again) else r
    decreases |schedule|
  {
    hide Step;
    var more := schedule + [(t, call, again)];
    if schedule == [] {
      assert more[1..] == [];
    } else {
      var (u, c, a) := schedule[0];
      assert more[1..] == schedule[1..] + [(t, call, again)];
      RunAppend(if u in s.th then Step(s, u, c, a) else s, schedule[1..], t, call, again);
    }
  }

  /** One step further along a schedule. */
  lemma Next(threads: set<Tid>, schedule: seq<(Tid, Call, bool)>, k: nat)
    requires k < |schedule|
    ensures var (t, call, again) := schedule[k];
            var s, s' := At(threads, schedule, k), At(threads, schedule, k + 1);
            && Inv(s) && Inv(s') && s.th.Keys == threads == s'.th.Keys
            && s' == if t in threads then Step(s, t, call, again) else s
  {
    hide Inv, Run, Step, Init;
    ReachedInv(threads, schedule[..k]);
    ReachedInv(threads, schedule[..k + 1]);
    var (t, call, again) := schedule[k];
    RunAppend(Init(threads), schedule[..k], t, call, again);
    assert schedule[..k + 1] == schedule[..k] + [(t, call, again)];
  }

  /** Between the steps `i` and `j` thread `t` makes one call of the given kind and returns from it. */
  predicate Calls(threads: set<Tid>, schedule: seq<(Tid, Call, bool)>, i: nat, j: nat, t: Tid, call: Call)
    requires i < j <= |schedule|
  {
    && t in At(threads, schedule, i).th && At(threads, schedule, i).th[t] == Idle
    && schedule[i].0 == t && schedule[i].1 == call
    && (forall k :: i < k < j ==> t in At(threads, schedule, k).th && At(threads, schedule, k).th[t] != Idle)
    && t in At(threads, schedule, j).th && At(threads, schedule, j).th[t] == Idle
  }

  /** The blocks that `t` has registered. */
  function Own(s: State, t: Tid): set<int> {
    set k | 0 <= k < |s.nodes| && s.nodes[k].pusher == t
  }

  /** Registrations are only ever added, each at its tail exchange. */
  lemma StepNodes(s: State, u: Tid, call: Call, again: bool)
    requires u in s.th
    ensures var s' := Step(s, u, call, again);
            && Moved(s, s', u)
            && (if s.th[u] == NotifyXchg then s'.nodes == s.nodes + [Node(u, NULL)] else SamePushers(s, s'))
            && (s.th[u] != Idle ==> s'.th[u] != NotifyXchg)
  {
  }

  predicate SamePushers(s: State, s': State) {
    |s'.nodes| == |s.nodes| && forall k :: 0 <= k < |s.nodes| ==> s'.nodes[k].pusher == s.nodes[k].pusher
  }

  lemma OwnSame(s: State, s': State, t: Tid)
    requires SamePushers(s, s')
    ensures Own(s', t) == Own(s, t)
  {
  }

  lemma OwnMore(s: State, s': State, u: Tid, t: Tid)
    requires s'.nodes == s.nodes + [Node(u, NULL)]
    ensures |Own(s', t)| == |Own(s, t)| + if u == t then 1 else 0
  {
    assert Own(s', t) == Own(s, t) + if u == t then {|s.nodes|} else {};
  }

  /** With the block that `t` is about to register. */
  function Committing(s: State, t: Tid): nat
    requires t in s.th
  {
    |Own(s, t)| + if s.th[t] == NotifyXchg then 1 else 0
  }

  lemma OwnStep(s: State, u: Tid, call: Call, again: bool, t: Tid)
    requires u in s.th && t in s.th
    ensures var s' := Step(s, u, call, again);
            && t in s'.th
            && (u != t || s.th[t] != Idle ==> Committing(s', t) == Committing(s, t))
            && (u == t && s.th[t] == Idle && call == Notify ==> Committing(s', t) == |Own(s, t)| + 1)
  {
    StepNodes(s, u, call, again);
    if u == t && s.th[t] == Idle && call == Notify { BeginsNotify(s, t, again); }
    hide Step, Own, SamePushers;
    var s' := Step(s, u, call, again);
    if s.th[u] == NotifyXchg {
      OwnMore(s, s', u, t);
    } else {
      OwnSame(s, s', t);
    }
  }

  lemma BeginsNotify(s: State, t: Tid, again: bool)
    requires t in s.th && s.th[t] == Idle
    ensures t in Step(s, t, Notify, again).th && Step(s, t, Notify, again).th[t] == NotifyXchg
  {
  }

  /** A call of dispatch_group_notify registers exactly one block. */
  lemma NotifyRegistersOne(threads: set<Tid>, schedule: seq<(Tid, Call, bool)>, i: nat, j: nat, t: Tid)
    requires i < j <= |schedule| && Calls(threads, schedule, i, j, t, Notify)
    ensures |Own(At(threads, schedule, j), t)| == |Own(At(threads, schedule, i), t)| + 1
  {
    hide Inv, Own, Step, At, Committing;
    Next(threads, schedule, i);
    OwnStep(At(threads, schedule, i), t, Notify, schedule[i].2, t);
    var k, n := i + 1, |Own(At(threads, schedule, i), t)| + 1;
    while k < j
      invariant i < k <= j && t in threads && t in At(threads, schedule, k).th
      invariant Committing(At(threads, schedule, k), t) == n
    {
      assert At(threads, schedule, k).th[t] != Idle;
      OwnNext(threads, schedule, k, t);
      k := k + 1;
    }
    OwnIdle(At(threads, schedule, j), t);
  }

  lemma OwnIdle(s: State, t: Tid)
    requires t in s.th && s.th[t] == Idle
    ensures Committing(s, t) == |Own(s, t)|
  {
  }

  lemma OwnNext(threads: set<Tid>, schedule: seq<(Tid, Call, bool)>, k: nat, t: Tid)
    requires k < |schedule| && t in threads
    requires t in At(threads, schedule, k).th && At(threads, schedule, k).th[t] != Idle
    ensures t in At(threads, schedule, k + 1).th
    ensures Committing(At(threads, schedule, k + 1), t) == Committing(At(threads, schedule, k), t)
  {
    hide Inv, Own, Step, At, Committing;
    Next(threads, schedule, k);
    var (u, call, again) := schedule[k];
    if u in threads {
      OwnStep(At(threads, schedule, k), u, call, again, t);
    }
  }

  predicate Waiting(pc: Pc) {
    pc.WaitFast? || pc.WaitSlow? || pc.WaitAgain? || pc.WaitBlocked?
  }

  /** A thread that looks at the value goes on waiting exactly if the group is not empty. */
  lemma WaitStep(s: State, u: Tid, call: Call, again: bool, t: Tid)
    requires u in s.th && t in s.th && Waiting(s.th[t])
    ensures var s' := Step(s, u, call, again);
            && t in s'.th && (u != t ==> s'.th[t] == s.th[t])
            && (u == t ==> if s.th[t] == WaitBlocked then Waiting(s'.th[t]) <==> again
                           else Waiting(s'.th[t]) <==> s.value != ORIG)
  {
    StepNodes(s, u, call, again);
  }

  lemma BeginsWait(s: State, t: Tid, again: bool)
    requires t in s.th && s.th[t] == Idle
    ensures t in Step(s, t, GroupWait, again).th && Step(s, t, GroupWait, again).th[t] == WaitFast
  {
  }

  /** At step `k` thread `t` sees the group empty, or its time is up. */
  predicate Answered(threads: set<Tid>, schedule: seq<(Tid, Call, bool)>, k: nat, t: Tid)
    requires k < |schedule|
  {
    var s := At(threads, schedule, k);
    && t in s.th && schedule[k].0 == t
    && if s.th[t] == WaitBlocked then !schedule[k].2 else s.value == ORIG
  }

  /** A call of dispatch_group_wait ends at its first look that finds the group empty, or when its time is up. */
  lemma WaitReturns(threads: set<Tid>, schedule: seq<(Tid, Call, bool)>, i: nat, j: nat, t: Tid)
    requires i < j <= |schedule| && Calls(threads, schedule, i, j, t, GroupWait)
    ensures exists k :: i < k < j && Answered(threads, schedule, k, t)
                        && forall m :: i < m < k ==> !Answered(threads, schedule, m, t)
                                                     && Waiting(At(threads, schedule, m + 1).th[t])
  {
    hide Inv, Step, At, Answered;
    Next(threads, schedule, i);
    BeginsWait(At(threads, schedule, i), t, schedule[i].2);
    assert !Waiting(At(threads, schedule, j).th[t]);
    hide Calls;
    var k := i + 1;
    while !Answered(threads, schedule, k, t)
      invariant i < k < j && t in threads && t in At(threads, schedule, k).th
      invariant Waiting(At(threads, schedule, k).th[t])
      invariant forall m :: i < m < k ==> !Answered(threads, schedule, m, t) && t in At(threads, schedule, m + 1).th
                                          && Waiting(At(threads, schedule, m + 1).th[t])
      decreases j - k
    {
      WaitNext(threads, schedule, k, t);
      k := k + 1;
    }
  }

  lemma WaitNext(threads: set<Tid>, schedule: seq<(Tid, Call, bool)>, k: nat, t: Tid)
    requires k < |schedule| && t in threads
    requires t in At(threads, schedule, k).th && Waiting(At(threads, schedule, k).th[t])
    ensures t in At(threads, schedule, k + 1).th
    ensures Waiting(At(threads, schedule, k + 1).th[t]) <==> !Answered(threads, schedule, k, t)
  {
    hide Inv, Step, At;
    Next(threads, schedule, k);
    var (u, call, again) := schedule[k];
    if u in threads {
      WaitStep(At(threads, schedule, k), u, call, again, t);
    }
  }

  // ---------------------------------------------------------------------------------------------
  // Nothing is submitted while the group is not empty
  // ---------------------------------------------------------------------------------------------

  /** The thread is bound to submit blocks: it has seen the group empty and is not through with the list. */
  predicate Waking(pc: Pc) {
    pc.WakeHead? || pc.WakeTail? || pc.Submit? || ((pc.ReadNext? || pc.SpinNext?) && pc.h != pc.last)
  }

  predicate NobodyWakes(s: State) {
    forall u :: u in s.th ==> !Waking(s.th[u])
  }

  lemma HeldOne(s: State, t: Tid, call: Call, again: bool)
    requires WalksInv(s) && t in s.th && !Waking(s.th[t]) && s.value != ORIG && Step(s, t, call, again).value != ORIG
    ensures var s' := Step(s, t, call, again);
            t in s'.th && !Waking(s'.th[t]) && s'.submitted == s.submitted
  {
    if Walks(s.th[t]) { assert WalkOk(s, t); }
    hide WalksInv;
  }

  lemma HeldStep(s: State, t: Tid, call: Call, again: bool)
    requires Inv(s) && t in s.th && NobodyWakes(s) && s.value != ORIG && Step(s, t, call, again).value != ORIG
    ensures NobodyWakes(Step(s, t, call, again)) && Step(s, t, call, again).submitted == s.submitted
  {
    hide ListInv, PushersInv, WalksInv, SubmitInv, NoStrand, Step, Waking;
    HeldOne(s, t, call, again);
    StepNodes(s, t, call, again);
  }

  /** As long as the group is not empty and no earlier wake is under way, no block is submitted. */
  lemma HeldBack(threads: set<Tid>, schedule: seq<(Tid, Call, bool)>, i: nat, j: nat)
    requires i <= j <= |schedule| && NobodyWakes(At(threads, schedule, i))
    requires forall k :: i <= k <= j ==> At(threads, schedule, k).value != ORIG
    ensures At(threads, schedule, j).submitted == At(threads, schedule, i).submitted
    ensures NobodyWakes(At(threads, schedule, j))
  {
    hide Inv, Step, At, NobodyWakes;
    var k := i;
    while k < j
      invariant i <= k <= j && NobodyWakes(At(threads, schedule, k))
      invariant At(threads, schedule, k).submitted == At(threads, schedule, i).submitted
    {
      Next(threads, schedule, k);
      var (u, call, again) := schedule[k];
      if u in threads {
        HeldStep(At(threads, schedule, k), u, call, again);
      }
      k := k + 1;
    }
  }

  /** The group stays non-empty along a schedule. */
  predicate Holding(s: State, schedule: seq<(Tid, Call, bool)>)
    decreases |schedule|
  {
    s.value != ORIG &&
    (schedule == [] || (var (t, call, again) := schedule[0];
                        Holding(if t in s.th then Step(s, t, call, again) else s, schedule[1..])))
  }

  /** Some continuation submits a block although the group stays non-empty. */
  ghost predicate CanSubmit(s: State) {
    exists schedule :: Holding(s, schedule) && |Run(s, schedule).submitted| > |s.submitted|
  }

  lemma CanBefore(s: State, t: Tid, call: Call, again: bool)
    requires t in s.th && s.value != ORIG && CanSubmit(Step(s, t, call, again))
    requires |Step(s, t, call, again).submitted| >= |s.submitted|
    ensures CanSubmit(s)
  {
    hide Step;
    var s' := Step(s, t, call, again);
    var rest :| Holding(s', rest) && |Run(s', rest).submitted| > |s'.submitted|;
    var schedule := [(t, call, again)] + rest;
    assert schedule[0] == (t, call, again) && schedule[1..] == rest;
    assert Holding(s, schedule) && Run(s, schedule) == Run(s', rest);
  }

  lemma SubmitCan(s: State, t: Tid)
    requires t in s.th && s.value != ORIG && s.th[t].Submit?
    ensures CanSubmit(s)
  {
    var s' := Step(s, t, Enter, false);
    var schedule := [(t, Enter, false)];
    assert schedule[0] == (t, Enter, false) && schedule[1..] == [];
    assert Run(s, schedule) == s' && Holding(s', []) && Holding(s, schedule);
  }

  lemma WalkCan(s: State, t: Tid)
    requires Inv(s) && t in s.th && s.value != ORIG && Walks(s.th[t]) && (s.th[t].Submit? || s.th[t].h != s.th[t].last)
    ensures CanSubmit(s)
  {
    if s.th[t].Submit? {
      SubmitCan(s, t);
    } else {
      var h := s.th[t].h;
      if NextOf(s, h) != NULL {
        hide Inv, CanSubmit;
        SubmitCan(Step(s, t, Enter, false), t);
        CanBefore(s, t, Enter, false);
      } else {
        var u := Releaser(s, t, Enter, false);
        hide Inv, CanSubmit;
        var s1 := Step(s, u, Enter, false);
        SubmitCan(Step(s1, t, Enter, false), t);
        CanBefore(s1, t, Enter, false);
        CanBefore(s, u, Enter, false);
      }
    }
  }

  lemma TailCan(s: State, t: Tid)
    requires t in s.th && s.value != ORIG && s.th[t].WakeTail?
    ensures CanSubmit(s)
  {
    hide CanSubmit;
    SubmitCan(Step(s, t, Enter, false), t);
    CanBefore(s, t, Enter, false);
  }

  lemma HeadCan(s: State, t: Tid)
    requires t in s.th && s.value != ORIG && s.th[t].WakeHead? && s.head != NULL
    ensures CanSubmit(s)
  {
    hide CanSubmit;
    TailCan(Step(s, t, Enter, false), t);
    CanBefore(s, t, Enter, false);
  }

  /** A list that is not empty is published by one more step. */
  lemma ListedCan(s: State, t: Tid)
    requires Inv(s) && t in s.th && s.value != ORIG && s.th[t].WakeHead? && |s.takenBy| < |s.nodes|
    ensures CanSubmit(s)
  {
    hide CanSubmit, PushersInv, WalksInv, SubmitInv, NoStrand;
    if s.head != NULL {
      HeadCan(s, t);
    } else if s.owner != NULL {
      TailCan(s, s.owner);
    } else {
      var u := s.nodes[|s.takenBy|].pusher;
      HeadCan(Step(s, u, Enter, false), t);
      CanBefore(s, u, Enter, false);
    }
  }

  /** How many steps a thread is away from its next registration. */
  function Rank(pc: Pc): nat {
    match pc
    case NotifyXchg => 0
    case Idle => 1
    case WaitAgain => 3
    case WaitSlow => 4
    case WaitFast => 5
    case _ => 2
  }

  /** While one thread is about to wake the list, another one can register a block. */
  lemma EmptyCan(s: State, t: Tid, w: Tid)
    requires Inv(s) && t in s.th && w in s.th && w != t && s.value != ORIG && s.th[t].WakeHead?
    ensures CanSubmit(s)
    decreases Rank(s.th[w])
  {
    if |s.takenBy| < |s.nodes| {
      ListedCan(s, t);
    } else if Walks(s.th[w]) && (s.th[w].Submit? || s.th[w].h != s.th[w].last) {
      WalkCan(s, w);
    } else if s.th[w].NotifyLink? {
      LinkCan(s, w);
    } else {
      EmptyStep(s, w);
      StepKeeps(s, w, Notify, false);
      hide Inv, CanSubmit, Step;
      var s' := Step(s, w, Notify, false);
      if s.th[w] == NotifyXchg {
        ListedCan(s', t);
      } else {
        EmptyCan(s', t, w);
      }
      CanBefore(s, w, Notify, false);
    }
  }

  /** A link that is missing in an empty list is missed by a wake. */
  lemma LinkCan(s: State, w: Tid)
    requires Inv(s) && w in s.th && s.value != ORIG && s.th[w].NotifyLink? && |s.takenBy| == |s.nodes|
    ensures CanSubmit(s)
  {
    var k := s.th[w].node;
    assert Together(s, k);
    hide CanSubmit, ListInv, WalksInv, SubmitInv, NoStrand;
    WalkCan(s, s.takenBy[k]);
  }

  lemma EmptyStep(s: State, w: Tid)
    requires Inv(s) && w in s.th && s.value != ORIG && |s.takenBy| == |s.nodes| && !s.th[w].NotifyLink?
    requires Walks(s.th[w]) ==> !s.th[w].Submit? && s.th[w].h == s.th[w].last
    ensures var s' := Step(s, w, Notify, false);
            && Moved(s, s', w) && s'.value == s.value && s'.submitted == s.submitted && s'.takenBy == s.takenBy
            && (if s.th[w] == NotifyXchg then |s'.nodes| == |s.nodes| + 1
                else s'.nodes == s.nodes && Rank(s'.th[w]) < Rank(s.th[w]))
  {
    if Walks(s.th[w]) { assert WalkOk(s, w); }
    hide WalksInv, SubmitInv, NoStrand;
  }

  /** Nothing can be submitted by the wakes under way. */
  predicate Tame(s: State) {
    || NobodyWakes(s)
    || (s.head == NULL && exists u :: u in s.th && s.th.Keys == {u} && s.th[u].WakeHead?)
  }

  lemma TameStep(s: State, t: Tid, call: Call, again: bool)
    requires Inv(s) && t in s.th && Tame(s) && s.value != ORIG && Step(s, t, call, again).value != ORIG
    ensures Tame(Step(s, t, call, again)) && Step(s, t, call, again).submitted == s.submitted
  {
    if NobodyWakes(s) {
      HeldStep(s, t, call, again);
    } else {
      hide Inv;
      assert s.th.Keys == {t};
      assert NobodyWakes(Step(s, t, call, again));
    }
  }

  lemma {:induction false} TameRun(s: State, schedule: seq<(Tid, Call, bool)>)
    requires Inv(s) && Tame(s) && Holding(s, schedule)
    ensures Run(s, schedule).submitted == s.submitted
    decreases |schedule|
  {
    hide Inv, Step, Tame;
    if schedule != [] {
      var (t, call, again) := schedule[0];
      if t in s.th {
        StepKeeps(s, t, call, again);
        TameStep(s, t, call, again);
      }
      TameRun(if t in s.th then Step(s, t, call, again) else s, schedule[1..]);
    }
  }

  /** A wake is under way that has something to submit, or will have. */
  predicate Stale(s: State, u: Tid)
    requires u in s.th
  {
    Waking(s.th[u]) && (s.th[u].WakeHead? ==> s.head != NULL || exists w :: w in s.th && w != u)
  }

  /**
    In a group that is not empty: a block can be submitted before the group becomes empty if and only if a wake
    is under way that saw the group empty earlier, and that finds a block or leaves another thread to register one.
  */
  lemma HeldExactly(threads: set<Tid>, schedule: seq<(Tid, Call, bool)>)
    ensures var s := Reached(threads, schedule);
            s.value != ORIG ==> (CanSubmit(s) <==> exists u :: u in s.th && Stale(s, u))
  {
    ReachedInv(threads, schedule);
    var s := Reached(threads, schedule);
    if s.value != ORIG {
      if u :| u in s.th && Stale(s, u) {
        StaleCan(s, u);
      } else {
        TameFrom(s);
        hide Inv, Step, Run, Reached;
        forall more | Holding(s, more) ensures |Run(s, more).submitted| == |s.submitted| {
          TameRun(s, more);
        }
      }
    }
  }

  lemma StaleCan(s: State, u: Tid)
    requires Inv(s) && u in s.th && Stale(s, u) && s.value != ORIG
    ensures CanSubmit(s)
  {
    hide Inv, CanSubmit, Step;
    if s.th[u].WakeHead? {
      if s.head != NULL {
        HeadCan(s, u);
      } else {
        var w :| w in s.th && w != u;
        EmptyCan(s, u, w);
      }
    } else if s.th[u].WakeTail? {
      TailCan(s, u);
    } else {
      WalkCan(s, u);
    }
  }

  lemma TameFrom(s: State)
    requires forall u :: u in s.th ==> !Stale(s, u)
    ensures Tame(s)
  {
    if !NobodyWakes(s) {
      var u :| u in s.th && Waking(s.th[u]);
      assert !Stale(s, u);
      assert s.th.Keys == {u};
    }
  }

  // A run in which a block is registered and submitted while the group is not empty.

  lemma {:induction false} HoldingAppend(s: State, schedule: seq<(Tid, Call, bool)>, t: Tid, call: Call, again: bool)
    requires Holding(s, schedule) && t in Run(s, schedule).th
    requires Step(Run(s, schedule), t, call, again).value != ORIG
    ensures Holding(s, schedule + [(t, call, again)])
    decreases |schedule|
  {
    hide Step;
    var more := schedule + [(t, call, again)];
    if schedule == [] {
      assert more[0] == (t, call, again) && more[1..] == [];
      assert Holding(Step(s, t, call, again), []);
    } else {
      var (u, c, a) := schedule[0];
      assert more[1..] == schedule[1..] + [(t, call, again)];
      HoldingAppend(if u in s.th then Step(s, u, c, a) else s, schedule[1..], t, call, again);
    }
  }

  /** One more step of `t`. */
  lemma Turn(s0: State, schedule: seq<(Tid, Call, bool)>, s: State, t: Tid, call: Call)
    returns (schedule': seq<(Tid, Call, bool)>, s': State)
    requires Run(s0, schedule) == s && t in s.th
    ensures s' == Step(s, t, call, false) && Run(s0, schedule') == s'
    ensures Holding(s0, schedule) && s'.value != ORIG ==> Holding(s0, schedule')
  {
    hide Step;
    RunAppend(s0, schedule, t, call, false);
    schedule', s' := schedule + [(t, call, false)], Step(s, t, call, false);
    if Holding(s0, schedule) && s'.value != ORIG { HoldingAppend(s0, schedule, t, call, false); }
  }

  /** A state of the two threads of the run. */
  function Scene(value: int, nodes: seq<Node>, head: int, tail: int, p0: Pc, p1: Pc, owner: int, takenBy: seq<Tid>,
                 submitted: seq<int>): State
  {
    State(value, nodes, head, tail, map[0 := p0, 1 := p1], if value == ORIG then 0 else 1, owner, takenBy, submitted)
  }

  /** Thread 0 registers a block with the empty group. */
  lemma Registers() returns (schedule: seq<(Tid, Call, bool)>, s: State)
    ensures Reached({0, 1}, schedule) == s
    ensures s == Scene(ORIG, [Node(0, NULL)], 0, 0, NotifyCheck, Idle, NULL, [], [])
  {
    var s0 := Init({0, 1});
    assert s0 == Scene(ORIG, [], NULL, NULL, Idle, Idle, NULL, [], []);
    RunsNowhere(s0);
    hide Run, Init;
    schedule, s := Turn(s0, [], s0, 0, Notify);
    assert s == Scene(ORIG, [], NULL, NULL, NotifyXchg, Idle, NULL, [], []);
    schedule, s := Turn(s0, schedule, s, 0, Notify);
    assert s == Scene(ORIG, [Node(0, NULL)], NULL, 0, NotifyHead(0), Idle, NULL, [], []);
    schedule, s := Turn(s0, schedule, s, 0, Notify);
  }

  /** It finds the group empty and takes the head of the list; then thread 1 enters the group. */
  lemma Enters() returns (schedule: seq<(Tid, Call, bool)>, s: State)
    ensures Reached({0, 1}, schedule) == s
    ensures s == Scene(ORIG - 1, [Node(0, NULL)], NULL, 0, WakeTail(0), Idle, 0, [], [])
  {
    var s0 := Init({0, 1});
    hide Run, Init;
    schedule, s := Registers();
    schedule, s := Turn(s0, schedule, s, 0, Notify);
    assert s == Scene(ORIG, [Node(0, NULL)], 0, 0, WakeHead, Idle, NULL, [], []);
    schedule, s := Turn(s0, schedule, s, 0, Notify);
    assert s == Scene(ORIG, [Node(0, NULL)], NULL, 0, WakeTail(0), Idle, 0, [], []);
    schedule, s := Turn(s0, schedule, s, 1, Enter);
  }

  /** Thread 1 registers a second block. */
  lemma RegistersLate(s0: State) returns (schedule: seq<(Tid, Call, bool)>, s: State)
    requires s0 == Scene(ORIG - 1, [Node(0, NULL)], NULL, 0, WakeTail(0), Idle, 0, [], [])
    ensures Run(s0, schedule) == s && Holding(s0, schedule)
    ensures s == Scene(ORIG - 1, [Node(0, 1), Node(1, NULL)], NULL, 1, WakeTail(0), Idle, 0, [], [])
  {
    RunsNowhere(s0);
    assert Holding(s0, []);
    hide Run, Holding;
    schedule, s := Turn(s0, [], s0, 1, Notify);
    assert s == Scene(ORIG - 1, [Node(0, NULL)], NULL, 0, WakeTail(0), NotifyXchg, 0, [], []);
    schedule, s := Turn(s0, schedule, s, 1, Notify);
    assert s == Scene(ORIG - 1, [Node(0, NULL), Node(1, NULL)], NULL, 1, WakeTail(0), NotifyLink(1, 0), 0, [], []);
    schedule, s := Turn(s0, schedule, s, 1, Notify);
  }

  /** Thread 0 takes the tail, and with it both blocks. */
  lemma SubmitsFirst(s0: State) returns (schedule: seq<(Tid, Call, bool)>, s: State)
    requires s0 == Scene(ORIG - 1, [Node(0, NULL)], NULL, 0, WakeTail(0), Idle, 0, [], [])
    ensures Run(s0, schedule) == s && Holding(s0, schedule)
    ensures s == Scene(ORIG - 1, [Node(0, 1), Node(1, NULL)], NULL, NULL, ReadNext(0, 1), Idle, NULL, [0, 0], [0])
  {
    hide Run, Holding;
    schedule, s := RegistersLate(s0);
    schedule, s := Turn(s0, schedule, s, 0, Notify);
    assert s == Scene(ORIG - 1, [Node(0, 1), Node(1, NULL)], NULL, NULL, Submit(0, 1), Idle, NULL, [0, 0], []);
    schedule, s := Turn(s0, schedule, s, 0, Notify);
  }

  /**
    After `before` one block is registered and the group is not empty, and it stays so along `after`; yet a second
    block is registered and submitted by then.
  */
  lemma EarlyBlock() returns (before: seq<(Tid, Call, bool)>, after: seq<(Tid, Call, bool)>)
    ensures var s := Reached({0, 1}, before);
            |s.nodes| == 1 && Holding(s, after) && 1 in Run(s, after).submitted
  {
    hide Run, Holding;
    var s0, s;
    before, s0 := Enters();
    after, s := SubmitsFirst(s0);
    after, s := Turn(s0, after, s, 0, Notify);
    assert s == Scene(ORIG - 1, [Node(0, 1), Node(1, NULL)], NULL, NULL, Submit(1, 1), Idle, NULL, [0, 0], [0]);
    after, s := Turn(s0, after, s, 0, Notify);
  }

  // ---------------------------------------------------------------------------------------------
  // The value
  // ---------------------------------------------------------------------------------------------

  /** Enters less leaves, as the clients count them. */
  function Inside(threads: set<Tid>, schedule: seq<(Tid, Call, bool)>): nat
    decreases |schedule|
  {
    if schedule == [] then 0
    else
      var before := schedule[..|schedule| - 1];
      var (t, call, _) := schedule[|schedule| - 1];
      var n, s := Inside(threads, before), Reached(threads, before);
      if t !in s.th || s.th[t] != Idle then n
      else match call
           case Enter => n + 1
           case Leave => if n == 0 then 0 else n - 1
           case _ => n
  }

  lemma ValueStep(s: State, t: Tid, call: Call, again: bool)
    requires t in s.th
    ensures var s' := Step(s, t, call, again);
            if s.th[t] != Idle || (call != Enter && call != Leave) then s'.value == s.value && s'.entered == s.entered
            else if call == Enter then s.value > 0 ==> s'.value == s.value - 1 && s'.entered == s.entered + 1
            else if s.entered == 0 then s' == s else s'.value == s.value + 1 && s'.entered == s.entered - 1
  {
  }

  lemma RunsNowhere(s: State)
    ensures Run(s, []) == s
  {
  }

  /** The value tells how many have entered and not left. */
  lemma {:induction false} ValueIsExact(threads: set<Tid>, schedule: seq<(Tid, Call, bool)>)
    requires |schedule| < ORIG
    ensures Reached(threads, schedule).value == ORIG - Inside(threads, schedule)
    ensures Inside(threads, schedule) == Reached(threads, schedule).entered <= |schedule|
    decreases |schedule|
  {
    hide Inv, Step, Run;
    if schedule == [] {
      RunsNowhere(Init(threads));
    } else {
      var n := |schedule| - 1;
      ValueIsExact(threads, schedule[..n]);
      assert schedule[..n + 1] == schedule;
      Next(threads, schedule, n);
      var (t, call, again) := schedule[n];
      hide Init, Reached;
      if t in threads { ValueStep(Reached(threads, schedule[..n]), t, call, again); }
    }
  }
}
