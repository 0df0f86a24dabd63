/**
  dispatch_once_f: any number of threads race on one predicate word; the winner runs the function,
  marks the word done and walks the stack of waiter nodes, signalling each.

  A waiter node lives in the frame of its thread's call, so a thread names its own node.
*/
module Once {
  type Tid = nat
  const NULL: int := -1
  const DONE: int := -2

  datatype Pc =
    | Idle
    | Claim
    | RunFunction
    | MarkDone
    | WalkSpin(tmp: int)
    | WalkRead(tmp: int)
    | WalkSignal(sema: int, next: int)
    | Look
    | PushNode(tmp: int)
    | LinkNode(tmp: int)
    | Wait

  /**
    `next` are the link fields of the live nodes. History: `runs` counts the calls of the function,
    `finished` is set when it returns, `owner` made the call, `pushed` and `woken` list the waiters
    in the order they were pushed and signalled.
  */
  datatype State = State(
    val: int, next: map<Tid, int>, signaled: set<Tid>, th: map<Tid, Pc>,
    runs: nat, finished: bool, owner: int, pushed: seq<Tid>, woken: seq<Tid>)

  function Init(threads: set<Tid>): State {
    State(NULL, map t | t in threads :: NULL, {}, map t | t in threads :: Idle, 0, false, NULL, [], [])
  }

  function Go(s: State, t: Tid, pc: Pc): State {
    s.(th := s.th[t := pc])
  }

  function NextOf(s: State, node: int): int {
    if node in s.next then s.next[node] else NULL
  }

  /** The walk ends at the owner's own node. */
  function Walk(t: Tid, tmp: int): Pc {
    if tmp == t then Idle else WalkSpin(tmp)
  }

  /** One atomic step of thread `t`; an idle thread calls dispatch_once_f. */
  function Step(s: State, t: Tid): State
    requires t in s.th
  {
    match s.th[t]
    case Idle => Go(s.(next := s.next[t := NULL]), t, Claim)
    case Claim =>
      if s.val == NULL then Go(s.(val := t, owner := t, runs := s.runs + 1), t, RunFunction) else Go(s, t, Look)
    case RunFunction => Go(s.(finished := true), t, MarkDone)
    case MarkDone => Go(s.(val := DONE), t, Walk(t, s.val))
    case WalkSpin(tmp) => if NextOf(s, tmp) == NULL then s else Go(s, t, WalkRead(tmp))
    case WalkRead(tmp) => Go(s, t, WalkSignal(tmp, NextOf(s, tmp)))
    case WalkSignal(sema, next) =>
      Go(s.(signaled := if sema >= 0 then s.signaled + {sema} else s.signaled,
            woken := if sema >= 0 then s.woken + [sema] else s.woken), t, Walk(t, next))
    case Look => Go(s, t, if s.val == DONE then Idle else PushNode(s.val))
    case PushNode(tmp) =>
      if s.val == tmp then Go(s.(val := t, pushed := s.pushed + [t]), t, LinkNode(tmp)) else Go(s, t, Look)
    case LinkNode(tmp) => Go(s.(next := s.next[t := tmp]), t, Wait)
    case Wait => if t in s.signaled then Go(s.(signaled := s.signaled - {t}), t, Look) else s
  }

  function Run(s: State, schedule: seq<Tid>): State
    decreases |schedule|
  {
    if schedule == [] then s
    else Run(if schedule[0] in s.th then Step(s, schedule[0]) else s, schedule[1..])
  }

  // ---------------------------------------------------------------------------------------------
  // Invariant
  // ---------------------------------------------------------------------------------------------

  /** How many waiters are pushed and not yet signalled. */
  function Left(s: State): int {
    |s.pushed| - |s.woken|
  }

  /** The node under the `k`-th waiter of the stack, counted from the bottom; the owner's is lowest. */
  function Below(s: State, k: int): int
    requires 0 <= k <= |s.pushed|
  {
    if k == 0 then s.owner else s.pushed[k - 1]
  }

  predicate Calling(pc: Pc) {
    pc.RunFunction? || pc.MarkDone? || pc.WalkSpin? || pc.WalkRead? || pc.WalkSignal?
  }

  predicate Walking(pc: Pc) {
    pc.WalkSpin? || pc.WalkRead? || pc.WalkSignal?
  }

  predicate WordInv(s: State) {
    && 0 <= Left(s) && s.signaled <= s.th.Keys
    && (s.val == NULL ==> s.owner == NULL && s.pushed == [] && s.woken == [])
    && (s.val != NULL ==> s.owner >= 0 && s.owner in s.th)
    && (s.val != NULL && s.val != DONE ==>
          s.woken == [] && s.val == Below(s, |s.pushed|) && (s.th[s.owner].RunFunction? || s.th[s.owner].MarkDone?))
    && s.runs == (if s.val == NULL then 0 else 1)
    && (s.finished <==> s.val == DONE || (s.val != NULL && s.th[s.owner].MarkDone?))
    && (s.val == DONE && Left(s) > 0 ==> Walking(s.th[s.owner]))
  }

  /** Where the caller of the function is in its walk down the stack. */
  predicate CallerOk(s: State, u: Tid, pc: Pc) {
    Calling(pc) ==>
      && s.owner == u
      && (Walking(pc) <==> s.val == DONE)
      && (pc.WalkSpin? ==> 0 < Left(s) <= |s.pushed| && pc.tmp == s.pushed[Left(s) - 1])
      && (pc.WalkRead? ==> 0 < Left(s) <= |s.pushed| && pc.tmp == s.pushed[Left(s) - 1] && NextOf(s, pc.tmp) != NULL)
      && (pc.WalkSignal? ==>
            0 < Left(s) <= |s.pushed| && pc.sema == s.pushed[Left(s) - 1] && pc.next == Below(s, Left(s) - 1)
            && NextOf(s, pc.sema) != NULL)
  }

  predicate OwnerInv(s: State) {
    forall u :: u in s.th ==> CallerOk(s, u, s.th[u])
  }

  /** The `k`-th waiter is alive, unsignalled, and linked to the node below it or about to be. */
  predicate Stacked(s: State, k: int)
    requires 0 <= k < |s.pushed|
  {
    var u := s.pushed[k];
    && u in s.th && u in s.next && u !in s.signaled && u != s.owner
    && ((s.th[u] == LinkNode(Below(s, k)) && s.next[u] == NULL) || (s.th[u] == Wait && s.next[u] == Below(s, k)))
  }

  predicate StackInv(s: State) {
    forall k {:trigger Stacked(s, k)} :: 0 <= k < Left(s) ==> Stacked(s, k)
  }

  predicate Distinct(s: State) {
    forall i, j :: 0 <= i < j < |s.pushed| ==> s.pushed[i] != s.pushed[j]
  }

  predicate OnStack(s: State, u: Tid) {
    exists k :: 0 <= k < Left(s) && s.pushed[k] == u
  }

  /** Who waits is on the stack or signalled; who is about to push has a node to push on. */
  predicate WaiterOk(s: State, u: Tid, pc: Pc) {
    && (pc.LinkNode? || (pc.Wait? && u !in s.signaled) ==> OnStack(s, u))
    && (pc.PushNode? ==> s.val != NULL && pc.tmp >= 0 && NodeFree(s, u))
    && (pc.Look? && s.val != DONE ==> s.val != NULL && NodeFree(s, u))
    && (pc.Claim? ==> NodeFree(s, u))
    && (u in s.signaled ==> s.val == DONE && pc.Wait?)
  }

  predicate NodeFree(s: State, u: Tid) {
    u in s.next && s.next[u] == NULL
  }

  predicate WaitersInv(s: State) {
    forall u :: u in s.th ==> WaiterOk(s, u, s.th[u])
  }

  /** The signals go down the stack. */
  predicate WokenInv(s: State) {
    |s.woken| <= |s.pushed| && forall i :: 0 <= i < |s.woken| ==> s.woken[i] == s.pushed[|s.pushed| - 1 - i]
  }

  predicate Inv(s: State) {
    WordInv(s) && OwnerInv(s) && StackInv(s) && Distinct(s) && WaitersInv(s) && WokenInv(s)
  }

  lemma InitInv(threads: set<Tid>)
    ensures Inv(Init(threads))
  {
  }

  predicate Moved(s: State, s': State, t: Tid) {
    t in s.th && t in s'.th && s'.th == s.th[t := s'.th[t]]
  }

  /** A thread that is not on the stack leaves it as it is. */
  lemma StackFrame(s: State, s': State, t: Tid)
    requires StackInv(s) && Moved(s, s', t)
    requires s'.pushed == s.pushed && s'.woken == s.woken && s'.owner == s.owner
    requires s'.signaled - {t} == s.signaled - {t}
    requires s'.next == s.next || s'.next == s.next[t := NULL]
    requires !s.th[t].LinkNode? && (s.th[t].Wait? ==> t in s.signaled)
    ensures StackInv(s')
    ensures Left(s) > 0 ==> Stacked(s, Left(s) - 1) && s.pushed[Left(s) - 1] != t
    ensures forall u :: OnStack(s', u) == OnStack(s, u)
  {
    forall k | 0 <= k < Left(s) ensures Stacked(s', k) {
      assert Stacked(s, k);
      assert s.pushed[k] != t;
      assert s.pushed[k] in s'.signaled <==> s.pushed[k] in s'.signaled - {t};
      assert s.pushed[k] in s.signaled <==> s.pushed[k] in s.signaled - {t};
    }
    if Left(s) > 0 { assert Stacked(s, Left(s) - 1); }
  }

  lemma WordFrame(s: State, s': State, t: Tid)
    requires WordInv(s) && Moved(s, s', t) && s'.signaled <= s.th.Keys
    requires s' == s.(th := s'.th, next := s'.next, signaled := s'.signaled)
    requires s'.th[t].RunFunction? == s.th[t].RunFunction? && s'.th[t].MarkDone? == s.th[t].MarkDone?
    requires Walking(s'.th[t]) == Walking(s.th[t])
    ensures WordInv(s')
  {
  }

  lemma OwnerFrame(s: State, s': State, t: Tid)
    requires OwnerInv(s) && Moved(s, s', t) && CallerOk(s', t, s'.th[t])
    requires s'.owner == s.owner && s'.val == s.val && s'.pushed == s.pushed && s'.woken == s.woken
    requires forall x: int :: x != t ==> NextOf(s', x) == NextOf(s, x)
    requires 0 < Left(s) <= |s.pushed| ==> s.pushed[Left(s) - 1] != t
    ensures OwnerInv(s')
  {
    forall u | u in s'.th ensures CallerOk(s', u, s'.th[u]) {
      if u != t { assert CallerOk(s, u, s.th[u]); }
    }
  }

  lemma WaitersFrame(s: State, s': State, t: Tid)
    requires WaitersInv(s) && Moved(s, s', t) && WaiterOk(s', t, s'.th[t])
    requires s'.val == s.val || (s.val != NULL && s'.val == DONE) || (s.val != NULL && s.val != DONE && s'.val >= 0)
    requires forall u :: u in s.th && u != t && OnStack(s, u) ==> OnStack(s', u)
    requires forall u :: u in s.th && u != t && NodeFree(s, u) ==> NodeFree(s', u)
    requires forall u :: u in s.th && u != t ==> (u in s'.signaled <==> u in s.signaled)
    ensures WaitersInv(s')
  {
    hide OnStack, NodeFree;
    forall u | u in s'.th ensures WaiterOk(s', u, s'.th[u]) {
      if u != t { assert WaiterOk(s, u, s.th[u]); }
    }
  }

  /** A step that leaves the word, the stack and the history alone. */
  lemma QuietKeeps(s: State, s': State, t: Tid)
    requires Inv(s) && Moved(s, s', t)
    requires s' == s.(th := s'.th, next := s'.next, signaled := s'.signaled)
    requires s'.signaled == s.signaled || s'.signaled == s.signaled - {t}
    requires s'.next == s.next || s'.next == s.next[t := NULL]
    requires !s.th[t].LinkNode? && (s.th[t].Wait? ==> t in s.signaled)
    requires s'.th[t].RunFunction? == s.th[t].RunFunction? && s'.th[t].MarkDone? == s.th[t].MarkDone?
    requires Walking(s'.th[t]) == Walking(s.th[t])
    requires CallerOk(s', t, s'.th[t]) && WaiterOk(s', t, s'.th[t])
    ensures Inv(s')
  {
    hide StackInv, OnStack, Stacked, CallerOk, WaiterOk, Walking;
    StackFrame(s, s', t);
    assert s.signaled <= s.th.Keys && Left(s) <= |s.pushed|;
    hide WordInv, OwnerInv, WaitersInv;
    WordFrame(s, s', t);
    OwnerFrame(s, s', t);
    WaitersFrame(s, s', t);
  }

  /** What the invariant says of one thread. */
  lemma Facts(s: State, t: Tid)
    requires Inv(s) && t in s.th
    ensures CallerOk(s, t, s.th[t]) && WaiterOk(s, t, s.th[t])
    ensures s.val != NULL && s.val != DONE ==> s.val >= 0
  {
  }

  /** A step into the loop of a waiter, or out of it. */
  lemma LookKeeps(s: State, t: Tid)
    requires Inv(s) && t in s.th && (s.th[t].Idle? || s.th[t].Look? || (s.th[t].Claim? && s.val != NULL)
                                     || (s.th[t].PushNode? && s.val != s.th[t].tmp)
                                     || (s.th[t].Wait? && t in s.signaled))
    ensures Inv(Step(s, t))
  {
    Facts(s, t);
    hide Inv, OnStack;
    QuietKeeps(s, Step(s, t), t);
  }

  lemma WalkKeeps(s: State, t: Tid)
    requires Inv(s) && t in s.th && (s.th[t].WalkSpin? || s.th[t].WalkRead?)
    ensures Inv(Step(s, t))
  {
    Facts(s, t);
    var s' := Step(s, t);
    var k := Left(s) - 1;
    assert Stacked(s, k);
    assert CallerOk(s', t, s'.th[t]);
    hide Inv, OnStack, CallerOk;
    if s' != s { QuietKeeps(s, s', t); }
  }

  lemma StackSame(s: State, s': State)
    requires s'.pushed == s.pushed && s'.woken == s.woken
    ensures forall u :: OnStack(s', u) == OnStack(s, u)
  {
  }

  lemma ClaimOwner(s: State, t: Tid)
    requires WordInv(s) && OwnerInv(s) && t in s.th && s.th[t].Claim? && s.val == NULL
    ensures OwnerInv(Step(s, t)) && WordInv(Step(s, t)) && StackInv(Step(s, t))
  {
    var s' := Step(s, t);
    forall u | u in s'.th ensures CallerOk(s', u, s'.th[u]) {
      if u != t { assert CallerOk(s, u, s.th[u]); }
    }
  }

  lemma ClaimWaiters(s: State, t: Tid)
    requires WordInv(s) && WaitersInv(s) && t in s.th && s.th[t].Claim? && s.val == NULL
    ensures WaitersInv(Step(s, t))
  {
    hide OnStack;
    var s' := Step(s, t);
    StackSame(s, s');
    forall u | u in s'.th ensures WaiterOk(s', u, s'.th[u]) {
      assert WaiterOk(s, u, s.th[u]);
    }
  }

  lemma ClaimKeeps(s: State, t: Tid)
    requires Inv(s) && t in s.th && s.th[t].Claim? && s.val == NULL
    ensures Inv(Step(s, t))
  {
    hide WordInv, OwnerInv, StackInv, WaitersInv;
    ClaimOwner(s, t);
    ClaimWaiters(s, t);
  }

  lemma CallWord(s: State, t: Tid)
    requires WordInv(s) && OwnerInv(s) && StackInv(s) && t in s.th && (s.th[t].RunFunction? || s.th[t].MarkDone?)
    ensures WordInv(Step(s, t)) && s.val != NULL && s.val != DONE
  {
    assert CallerOk(s, t, s.th[t]);
    if Left(s) > 0 { assert Stacked(s, Left(s) - 1); }
  }

  lemma CallOwner(s: State, t: Tid)
    requires WordInv(s) && OwnerInv(s) && t in s.th && (s.th[t].RunFunction? || s.th[t].MarkDone?)
    ensures OwnerInv(Step(s, t))
  {
    var s' := Step(s, t);
    assert CallerOk(s, t, s.th[t]);
    forall u | u in s'.th ensures CallerOk(s', u, s'.th[u]) {
      assert CallerOk(s, u, s.th[u]);
    }
  }

  lemma CallKeeps(s: State, t: Tid)
    requires Inv(s) && t in s.th && (s.th[t].RunFunction? || s.th[t].MarkDone?)
    ensures Inv(Step(s, t))
  {
    var s' := Step(s, t);
    Facts(s, t);
    CallWord(s, t);
    CallOwner(s, t);
    hide WordInv, OwnerInv, StackInv, OnStack, WaitersInv;
    StackFrame(s, s', t);
    WaitersFrame(s, s', t);
  }

  lemma SignalStack(s: State, t: Tid)
    requires WordInv(s) && OwnerInv(s) && StackInv(s) && Distinct(s) && WokenInv(s) && t in s.th && s.th[t].WalkSignal?
    ensures var s', top := Step(s, t), Left(s) - 1;
            && StackInv(s') && WokenInv(s') && top >= 0 && Left(s') == top
            && s.pushed[top] in s.th && s.th[s.pushed[top]] == Wait && s.pushed[top] != t
            && (top > 0 ==> s.pushed[top - 1] in s.next && Stacked(s, top - 1))
            && forall u :: OnStack(s, u) && u != s.pushed[top] ==> OnStack(s', u)
  {
    var s', top := Step(s, t), Left(s) - 1;
    assert CallerOk(s, t, s.th[t]);
    assert Stacked(s, top);
    if top > 0 { assert Stacked(s, top - 1); }
    forall k | 0 <= k < top ensures Stacked(s', k) {
      assert Stacked(s, k);
    }
    forall u | OnStack(s, u) && u != s.pushed[top] ensures OnStack(s', u) {
      var k :| 0 <= k < Left(s) && s.pushed[k] == u;
    }
  }

  lemma SignalWord(s: State, t: Tid)
    requires WordInv(s) && OwnerInv(s) && StackInv(s) && t in s.th && s.th[t].WalkSignal?
    requires s.pushed[Left(s) - 1] in s.th
    requires 0 < Left(s) <= |s.pushed|
    ensures WordInv(Step(s, t)) && s.val == DONE
  {
    assert CallerOk(s, t, s.th[t]);
    if Left(s) > 1 { assert Stacked(s, Left(s) - 2); }
  }

  lemma SignalOwner(s: State, t: Tid)
    requires WordInv(s) && OwnerInv(s) && t in s.th && s.th[t].WalkSignal? && 0 < Left(s) <= |s.pushed|
    ensures OwnerInv(Step(s, t))
  {
    var s' := Step(s, t);
    assert CallerOk(s, t, s.th[t]);
    forall u | u in s'.th ensures CallerOk(s', u, s'.th[u]) {
      assert CallerOk(s, u, s.th[u]);
    }
  }

  lemma SignalWaiters(s: State, t: Tid)
    requires WaitersInv(s) && t in s.th && s.th[t].WalkSignal? && s.val == DONE && s.th[t].sema >= 0
    requires s.th[t].sema != t && s.th[t].sema in s.th && s.th[s.th[t].sema] == Wait
    requires forall u :: OnStack(s, u) && u != s.th[t].sema ==> OnStack(Step(s, t), u)
    ensures WaitersInv(Step(s, t))
  {
    hide OnStack;
    var s' := Step(s, t);
    forall u | u in s'.th ensures WaiterOk(s', u, s'.th[u]) {
      assert WaiterOk(s, u, s.th[u]);
    }
  }

  lemma SignalKeeps(s: State, t: Tid)
    requires Inv(s) && t in s.th && s.th[t].WalkSignal?
    ensures Inv(Step(s, t))
  {
    Facts(s, t);
    hide WordInv, OwnerInv, StackInv, OnStack, Distinct, WaitersInv, WokenInv, Stacked;
    SignalStack(s, t);
    SignalWord(s, t);
    SignalOwner(s, t);
    SignalWaiters(s, t);
    DistinctFrame(s, Step(s, t));
  }

  lemma DistinctFrame(s: State, s': State)
    requires Distinct(s) && s'.pushed == s.pushed
    ensures Distinct(s')
  {
  }

  lemma PushStack(s: State, t: Tid)
    requires WordInv(s) && StackInv(s) && Distinct(s) && WokenInv(s) && t in s.th && s.th[t].PushNode?
    requires s.val == s.th[t].tmp >= 0 && NodeFree(s, t) && t !in s.signaled
    ensures var s' := Step(s, t);
            && StackInv(s') && Distinct(s') && WokenInv(s') && OnStack(s', t)
            && forall u :: OnStack(s, u) ==> OnStack(s', u)
  {
    var s', n := Step(s, t), |s.pushed|;
    assert s'.pushed[n] == t;
    forall k | 0 <= k < n + 1 ensures Stacked(s', k) && (k < n ==> s.pushed[k] != t) {
      if k < n { assert Stacked(s, k); }
    }
    forall u | OnStack(s, u) ensures OnStack(s', u) {
      var k :| 0 <= k < Left(s) && s.pushed[k] == u;
      assert s'.pushed[k] == u;
    }
  }

  lemma PushOwner(s: State, t: Tid)
    requires WordInv(s) && OwnerInv(s) && t in s.th && s.th[t].PushNode? && s.val == s.th[t].tmp >= 0
    ensures WordInv(Step(s, t)) && OwnerInv(Step(s, t))
  {
    var s' := Step(s, t);
    forall u | u in s'.th ensures CallerOk(s', u, s'.th[u]) {
      assert CallerOk(s, u, s.th[u]);
    }
  }

  lemma PushKeeps(s: State, t: Tid)
    requires Inv(s) && t in s.th && s.th[t].PushNode? && s.val == s.th[t].tmp
    ensures Inv(Step(s, t))
  {
    Facts(s, t);
    hide WordInv, OwnerInv, StackInv, OnStack, Distinct, WaitersInv, WokenInv;
    PushStack(s, t);
    PushOwner(s, t);
    WaitersFrame(s, Step(s, t), t);
  }

  lemma LinkStack(s: State, t: Tid)
    requires StackInv(s) && Distinct(s) && t in s.th && s.th[t].LinkNode? && OnStack(s, t)
    ensures var s' := Step(s, t);
            && StackInv(s') && t !in s.signaled
            && (forall u :: OnStack(s', u) == OnStack(s, u))
            && s.th[t].tmp == NextOf(s', t)
  {
    var s' := Step(s, t);
    var j :| 0 <= j < Left(s) && s.pushed[j] == t;
    assert Stacked(s, j);
    forall k | 0 <= k < Left(s) ensures Stacked(s', k) {
      assert Stacked(s, k);
    }
    StackSame(s, s');
  }

  /** The link may be the one the owner spins for; one it has already read is not stored again. */
  lemma LinkOwner(s: State, t: Tid)
    requires StackInv(s) && OwnerInv(s) && t in s.th && s.th[t].LinkNode? && OnStack(s, t)
    ensures OwnerInv(Step(s, t))
  {
    var s' := Step(s, t);
    var j :| 0 <= j < Left(s) && s.pushed[j] == t;
    assert Stacked(s, j);
    forall u | u in s'.th ensures CallerOk(s', u, s'.th[u]) {
      assert CallerOk(s, u, s.th[u]);
    }
  }

  lemma LinkKeeps(s: State, t: Tid)
    requires Inv(s) && t in s.th && s.th[t].LinkNode?
    ensures Inv(Step(s, t))
  {
    var s' := Step(s, t);
    Facts(s, t);
    assert s.signaled <= s.th.Keys;
    hide WordInv, OwnerInv, StackInv, OnStack, WaitersInv;
    LinkStack(s, t);
    LinkOwner(s, t);
    WordFrame(s, s', t);
    WaitersFrame(s, s', t);
  }

  lemma StepKeeps(s: State, t: Tid)
    requires Inv(s) && t in s.th
    ensures Inv(Step(s, t)) && Step(s, t).th.Keys == s.th.Keys
  {
    hide Inv;
    match s.th[t]
    case Idle => LookKeeps(s, t);
    case Claim => if s.val == NULL { ClaimKeeps(s, t); } else { LookKeeps(s, t); }
    case RunFunction => CallKeeps(s, t);
    case MarkDone => CallKeeps(s, t);
    case WalkSpin(_) => WalkKeeps(s, t);
    case WalkRead(_) => WalkKeeps(s, t);
    case WalkSignal(_, _) => SignalKeeps(s, t);
    case Look => LookKeeps(s, t);
    case PushNode(tmp) => if s.val == tmp { PushKeeps(s, t); } else { LookKeeps(s, t); }
    case LinkNode(_) => LinkKeeps(s, t);
    case Wait => if t in s.signaled { LookKeeps(s, t); }
  }

  // ---------------------------------------------------------------------------------------------
  // Every run
  // ---------------------------------------------------------------------------------------------

  lemma {:induction false} RunKeeps(s: State, schedule: seq<Tid>)
    requires Inv(s)
    ensures Inv(Run(s, schedule)) && Run(s, schedule).th.Keys == s.th.Keys
    decreases |schedule|
  {
    hide Inv, Step;
    if schedule != [] {
      if schedule[0] in s.th {
        StepKeeps(s, schedule[0]);
      }
      RunKeeps(if schedule[0] in s.th then Step(s, schedule[0]) else s, schedule[1..]);
    }
  }

  function Reached(threads: set<Tid>, schedule: seq<Tid>): State {
    Run(Init(threads), schedule)
  }

  lemma ReachedInv(threads: set<Tid>, schedule: seq<Tid>)
    ensures Inv(Reached(threads, schedule)) && Reached(threads, schedule).th.Keys == threads
  {
    hide Inv;
    InitInv(threads);
    RunKeeps(Init(threads), schedule);
  }

  /** How often the function is called along a schedule: a step from `RunFunction` is a call. */
  function Calls(s: State, schedule: seq<Tid>): nat
    decreases |schedule|
  {
    if schedule == [] then 0
    else if schedule[0] !in s.th then Calls(s, schedule[1..])
    else (if s.th[schedule[0]] == RunFunction then 1 else 0) + Calls(Step(s, schedule[0]), schedule[1..])
  }

  /** A step from `RunFunction`, and no other, finishes the function. */
  lemma FinishStep(s: State, t: Tid)
    requires Inv(s) && t in s.th
    ensures Step(s, t).finished == (s.finished || s.th[t] == RunFunction)
    ensures s.th[t] == RunFunction ==> !s.finished
  {
    assert CallerOk(s, t, s.th[t]);
    hide StackInv, WaitersInv, WokenInv, Distinct, OwnerInv;
  }

  lemma {:induction false} CallsFinish(s: State, schedule: seq<Tid>)
    requires Inv(s)
    ensures Calls(s, schedule) + (if s.finished then 1 else 0) == if Run(s, schedule).finished then 1 else 0
    decreases |schedule|
  {
    hide Inv, Step;
    if schedule != [] {
      if schedule[0] in s.th {
        StepKeeps(s, schedule[0]);
        FinishStep(s, schedule[0]);
        CallsFinish(Step(s, schedule[0]), schedule[1..]);
      } else {
        CallsFinish(s, schedule[1..]);
      }
    }
  }

  lemma CallsCounted(threads: set<Tid>, schedule: seq<Tid>)
    ensures Calls(Init(threads), schedule) == if Reached(threads, schedule).finished then 1 else 0
  {
    InitInv(threads);
    hide Inv, Run, Calls;
    CallsFinish(Init(threads), schedule);
  }

  /** The function is called at most once, and not before somebody has claimed it. */
  lemma CalledOnce(threads: set<Tid>, schedule: seq<Tid>)
    ensures var s := Reached(threads, schedule);
            Calls(Init(threads), schedule) <= s.runs <= 1
  {
    CallsCounted(threads, schedule);
    ReachedInv(threads, schedule);
    hide Run, Reached, Init, Calls, StackInv, OwnerInv, WaitersInv, WokenInv, Distinct;
  }

  /** A step that leaves a thread outside dispatch_once_f is taken only after the function was called. */
  lemma NoEarlyReturn(threads: set<Tid>, schedule: seq<Tid>, t: Tid)
    requires t in threads
    ensures var s := Reached(threads, schedule);
            t in s.th && (Step(s, t).th[t] == Idle ==> Calls(Init(threads), schedule) == 1)
  {
    CallsCounted(threads, schedule);
    ReachedInv(threads, schedule);
    hide Run, Reached, Init, Calls, StackInv, WaitersInv, WokenInv, Distinct;
  }

  /** The waiters are signalled from the last pushed to the first, each of them once. */
  lemma SignalledOnce(threads: set<Tid>, schedule: seq<Tid>)
    ensures var s := Reached(threads, schedule);
            && |s.woken| <= |s.pushed|
            && (forall i :: 0 <= i < |s.woken| ==> s.woken[i] == s.pushed[|s.pushed| - 1 - i])
            && (forall i, j :: 0 <= i < j < |s.pushed| ==> s.pushed[i] != s.pushed[j])
  {
    ReachedInv(threads, schedule);
    hide Run, Reached, Init, StackInv, WaitersInv, OwnerInv, WordInv;
  }

  /** The node the owner reads belongs to a waiter that is still blocked in its own call. */
  lemma ReadsOnlyLiveNodes(threads: set<Tid>, schedule: seq<Tid>, t: Tid)
    requires t in threads
    ensures var s := Reached(threads, schedule);
            && t in s.th
            && (s.th[t].WalkSpin? || s.th[t].WalkRead? ==>
                  var u := s.th[t].tmp;
                  u in s.th && u !in s.signaled && u !in s.woken && (s.th[u].LinkNode? || s.th[u].Wait?))
  {
    ReachedInv(threads, schedule);
    hide Run, Reached, Init;
    var s := Reached(threads, schedule);
    if s.th[t].WalkSpin? || s.th[t].WalkRead? {
      LiveTop(s, t);
    }
  }

  lemma LiveTop(s: State, t: Tid)
    requires Inv(s) && t in s.th && (s.th[t].WalkSpin? || s.th[t].WalkRead?)
    ensures var u := s.th[t].tmp;
            u in s.th && u !in s.signaled && u !in s.woken && (s.th[u].LinkNode? || s.th[u].Wait?)
  {
    assert Stacked(s, Left(s) - 1);
    hide StackInv, WaitersInv;
  }

  /** No thread inside a call can change anything by its next step. */
  predicate Stuck(s: State) {
    forall u :: u in s.th ==> s.th[u] == Idle || Step(s, u) == s
  }

  /** When nobody can move, every call has returned and every waiter was signalled. */
  lemma NobodyLeftWaiting(threads: set<Tid>, schedule: seq<Tid>)
    ensures var s := Reached(threads, schedule);
            Stuck(s) ==> |s.woken| == |s.pushed| && forall u :: u in s.th ==> s.th[u] == Idle
  {
    ReachedInv(threads, schedule);
    hide Run, Reached, Init;
    var s := Reached(threads, schedule);
    if Stuck(s) {
      forall u | u in s.th ensures s.th[u] == Idle || (s.th[u] == Wait && u !in s.signaled) {
        MovesOn(s, u);
      }
      QuietStack(s);
    }
  }

  /** Only an unsignalled waiter stays where it is, and an owner that spins for a link that is one store away. */
  lemma MovesOn(s: State, u: Tid)
    requires Inv(s) && u in s.th && Stuck(s)
    ensures s.th[u] == Idle || (s.th[u] == Wait && u !in s.signaled)
  {
    if s.th[u].WalkSpin? && NextOf(s, s.th[u].tmp) == NULL {
      Releaser(s, u);
      if s.th[s.th[u].tmp] == Idle { LinksNothing(s, s.th[u].tmp); }
    } else {
      hide Inv;
      if s.th[u] != Idle { StaysPut(s, u); }
    }
  }

  lemma LinksNothing(s: State, w: Tid)
    requires w in s.th && s.th[w] == Idle
    ensures NextOf(Step(s, w), w) == NULL
  {
  }

  lemma StaysPut(s: State, u: Tid)
    requires u in s.th && Step(s, u).th == s.th
    ensures s.th[u] == Idle || (s.th[u] == Wait && u !in s.signaled)
            || (s.th[u].WalkSpin? && NextOf(s, s.th[u].tmp) == NULL)
  {
  }

  lemma QuietStack(s: State)
    requires Inv(s) && forall u :: u in s.th ==> s.th[u] == Idle || (s.th[u] == Wait && u !in s.signaled)
    ensures |s.woken| == |s.pushed| && forall u :: u in s.th ==> s.th[u] == Idle
  {
    hide StackInv, Distinct, WokenInv, OwnerInv;
    assert Left(s) == 0;
  }

  /** A spinning owner waits for one waiter that is a single store away from releasing it. */
  lemma SpinsEnd(threads: set<Tid>, schedule: seq<Tid>, t: Tid)
    requires t in threads
    ensures var s := Reached(threads, schedule);
            && t in s.th
            && (s.th[t].WalkSpin? && NextOf(s, s.th[t].tmp) == NULL ==>
                  exists u :: u in s.th && u != t && NextOf(Step(s, u), s.th[t].tmp) != NULL)
  {
    ReachedInv(threads, schedule);
    hide Run, Reached, Init;
    var s := Reached(threads, schedule);
    if s.th[t].WalkSpin? && NextOf(s, s.th[t].tmp) == NULL {
      Releaser(s, t);
    }
  }

  lemma Releaser(s: State, t: Tid)
    requires Inv(s) && t in s.th && s.th[t].WalkSpin? && NextOf(s, s.th[t].tmp) == NULL
    ensures s.th[t].tmp in s.th && s.th[t].tmp != t && NextOf(Step(s, s.th[t].tmp), s.th[t].tmp) != NULL
  {
    assert Stacked(s, Left(s) - 1);
    hide StackInv, WaitersInv, WokenInv, Distinct;
  }
}
