/**
  What a serial queue executes, and when: every item that was pushed, each once and in the order of the pushes;
  every synchronous call its own item, once, before it returns; nothing new while the queue is suspended.

  Executions are read off the schedule: a step of a thread that stands in an `Executing` state is one.
*/
module SerialExecution {
  import opened SerialQueue

  /** An item run by a drain, one run by the waiting caller that pushed it, and one that never was on the list. */
  datatype Event = Inline(node: int) | Caller(t: Tid) | Fast(t: Tid)

  /** What a step of `t` executes. */
  function Ran(s: State, t: Tid): seq<Event>
    requires t in s.th
  {
    match s.th[t]
    case Hold(FastRun) => [Fast(t)]
    case Hold(SlowRun) => [Caller(t)]
    case Drain(DrainRun(dc, _)) => [Inline(dc)]
    case _ => []
  }

  function Log(s: State, schedule: seq<(Tid, Call)>): seq<Event>
    decreases |schedule|
  {
    if schedule == [] then []
    else
      var (t, call) := schedule[0];
      if t !in s.th then Log(s, schedule[1..])
      else Ran(s, t) + Log(Step(s, t, call), schedule[1..])
  }

  /** The executions of items that were on the list. */
  function Listed(log: seq<Event>): seq<Event> {
    if log == [] then []
    else (if log[0].Fast? then [] else [log[0]]) + Listed(log[1..])
  }

  lemma {:induction false} ListedAppend(a: seq<Event>, b: seq<Event>)
    ensures Listed(a + b) == Listed(a) + Listed(b)
  {
    if a == [] {
      assert a + b == b;
    } else {
      assert (a + b)[1..] == a[1..] + b;
      ListedAppend(a[1..], b);
    }
  }

  /** How node `k` is to be executed. */
  function Item(nodes: seq<Node>, k: nat): Event
    requires k < |nodes|
  {
    if nodes[k].sync then Caller(nodes[k].pusher) else Inline(k)
  }

  /** The first `n` nodes in the order of their tail exchanges. */
  function Items(nodes: seq<Node>, n: nat): seq<Event>
    requires n <= |nodes|
  {
    seq(n, k requires 0 <= k < n => Item(nodes, k))
  }

  function InHand(nodes: seq<Node>, hand: int): seq<Event> {
    if 0 <= hand < |nodes| then [Item(nodes, hand)] else []
  }

  /** What the owner of the list has started and not yet executed. */
  function HoldDue(nodes: seq<Node>, t: Tid, h: HoldPc): seq<Event> {
    if h == SlowRun then [Caller(t)] else InHand(nodes, HoldView(h).hand)
  }

  function DrainDue(nodes: seq<Node>, d: DrainPc): seq<Event> {
    if d.DrainRun? then [Inline(d.dc)] else InHand(nodes, DrainView(d).hand)
  }

  /** The item that is started and not yet executed. */
  function Awaited(s: State): seq<Event> {
    if s.owner !in s.th then []
    else if s.owner in s.signaled then [Caller(s.owner)]
    else match s.th[s.owner]
         case Hold(h) => HoldDue(s.nodes, s.owner, h)
         case Drain(d) => DrainDue(s.nodes, d)
         case _ => []
  }

  // ---------------------------------------------------------------------------------------------
  // One step
  // ---------------------------------------------------------------------------------------------

  /** Nodes are only ever added, and keep their kind and pusher. */
  predicate Grown(s: State, s': State) {
    && |s.nodes| <= |s'.nodes|
    && forall k :: 0 <= k < |s.nodes| ==> s'.nodes[k].pusher == s.nodes[k].pusher && s'.nodes[k].sync == s.nodes[k].sync
  }

  /** The items that a step starts. */
  function News(s: State, s': State): seq<Event> {
    if |s'.started| == |s.started| then [] else InHand(s.nodes, |s.started|)
  }

  /** What a step of `t` executes of the list. */
  function Did(s: State, t: Tid): seq<Event>
    requires t in s.th
  {
    if s.th[t] == Hold(FastRun) then [] else Ran(s, t)
  }

  lemma ListedRan(s: State, t: Tid)
    requires t in s.th
    ensures Listed(Ran(s, t)) == Did(s, t)
  {
    if Ran(s, t) != [] { assert Ran(s, t)[1..] == []; }
  }

  /** The step starts at most one item, executes what it should, and leaves the rest waiting. */
  predicate Accounted(s: State, t: Tid, s': State)
    requires t in s.th
  {
    && Moved(s, s', t) && Grown(s, s') && |s.started| <= |s'.started| <= |s.started| + 1
    && (|s'.started| > |s.started| ==> |s.started| < |s.nodes|)
    && Did(s, t) + Awaited(s') == Awaited(s) + News(s, s')
  }

  lemma HandIsSync(s: State)
    requires Inv(s)
    ensures var hand := ViewOf(s).hand;
            hand != NULL ==> && 0 <= hand < |s.nodes| && s.nodes[hand].sync && s.nodes[hand].pusher in s.th
                             && s.nodes[hand].pusher !in s.signaled
  {
    hide ListInv, PushersInv, NoStrand, Fifo, LockInv;
    if ViewOf(s).hand != NULL { assert Unserved(s, ViewOf(s).hand); }
  }

  lemma HoldsAwaited(s: State, t: Tid, h: HoldPc)
    requires t in s.th && s.th[t] == Hold(h) && s.owner == t && t !in s.signaled
    ensures Awaited(s) == HoldDue(s.nodes, t, h)
  {
  }

  lemma DrainsAwaited(s: State, t: Tid, d: DrainPc)
    requires t in s.th && s.th[t] == Drain(d) && s.owner == t && t !in s.signaled
    ensures Awaited(s) == DrainDue(s.nodes, d)
  {
  }

  /** A synchronous owner goes on, gives up the list, or hands it over. */
  lemma HoldShape(s: State, t: Tid, h: HoldPc)
    requires t in s.th && s.th[t] == Hold(h) && s.owner == t
    requires h.HandSignal? ==> 0 <= h.sema < |s.nodes|
    ensures var s' := StepHold(s, t, h);
            && Moved(s, s', t) && s'.nodes == s.nodes
            && (if Starts(s, h) then s'.started == s.started + [h.dc] else s'.started == s.started)
            && if h.FastDec? || h.SlowSubRunning? then s'.owner == NULL
               else if h.HandSignal? then s'.owner == s.nodes[h.sema].pusher && s'.owner in s'.signaled
               else s'.owner == t && s'.signaled == s.signaled && s'.th[t].Hold?
  {
  }

  /** The step takes a synchronous item off the list for good. */
  predicate Starts(s: State, h: HoldPc) {
    (h.OneStore? && h.next != NULL) || (h.OneTail? && s.tail == h.dc) || h.OneStoreNext?
  }

  lemma HoldStarts(s: State, t: Tid, h: HoldPc)
    requires t in s.th && s.th[t] == Hold(h) && HoldLocals(s, h) && Starts(s, h)
    ensures var s' := StepHold(s, t, h);
            && h.dc == |s.started| < |s.nodes| && s'.th[t].Hold? && Did(s, t) == [] == HoldDue(s.nodes, t, h)
            && HoldDue(s.nodes, t, s'.th[t].h) == InHand(s.nodes, |s.started|)
  {
  }

  lemma HoldGoesOn(s: State, t: Tid, h: HoldPc)
    requires t in s.th && s.th[t] == Hold(h) && !Starts(s, h)
    ensures var h' := StepHold(s, t, h).th[t];
            h'.Hold? ==> Did(s, t) + HoldDue(s.nodes, t, h'.h) == HoldDue(s.nodes, t, h)
  {
  }

  lemma HoldEnds(s: State, t: Tid, h: HoldPc)
    requires t in s.th && s.th[t] == Hold(h) && (h.FastDec? || h.SlowSubRunning? || h.HandSignal?)
    requires h.HandSignal? ==> 0 <= h.sema < |s.nodes| && s.nodes[h.sema].sync
    ensures Did(s, t) == []
    ensures HoldDue(s.nodes, t, h) == if h.HandSignal? then [Caller(s.nodes[h.sema].pusher)] else []
  {
  }

  lemma HoldAccounted(s: State, t: Tid, h: HoldPc)
    requires Inv(s) && t in s.th && s.th[t] == Hold(h)
    ensures Accounted(s, t, StepHold(s, t, h))
  {
    hide Inv, Awaited, HoldDue, Did, StepHold;
    HoldOwner(s, t, h);
    HandIsSync(s);
    HoldShape(s, t, h);
    HoldsAwaited(s, t, h);
    var s' := StepHold(s, t, h);
    if h.FastDec? || h.SlowSubRunning? {
      HoldEnds(s, t, h);
      NobodyAwaited(s');
    } else if h.HandSignal? {
      HoldEnds(s, t, h);
      SignalledAwaited(s');
    } else {
      HoldsAwaited(s', t, s'.th[t].h);
      if Starts(s, h) { HoldStarts(s, t, h); } else { HoldGoesOn(s, t, h); }
    }
  }

  lemma NobodyAwaited(s: State)
    requires s.owner == NULL
    ensures Awaited(s) == []
  {
  }

  lemma SignalledAwaited(s: State)
    requires s.owner in s.th && s.owner in s.signaled
    ensures Awaited(s) == [Caller(s.owner)]
  {
  }

  lemma DrainShape(s: State, t: Tid, d: DrainPc)
    requires t in s.th && s.th[t] == Drain(d) && s.owner == t
    requires d.InvSignal? ==> 0 <= d.sema < |s.nodes|
    ensures var s' := StepDrain(s, t, d);
            && Moved(s, s', t) && Grown(s, s') && (!d.OutLink? ==> s'.nodes == s.nodes)
            && (if d.DrainWidth? && s.running <= 1 then s'.started == s.started + [d.dc] else s'.started == s.started)
            && if d == InvDec(NULL) then s'.owner == NULL
               else if d.InvSignal? then s'.owner == s.nodes[d.sema].pusher && s'.owner in s'.signaled
               else s'.owner == t && s'.signaled == s.signaled && s'.th[t].Drain?
  {
  }

  lemma DrainStarts(s: State, t: Tid, dc: int, next: int)
    requires t in s.th && s.th[t] == Drain(DrainWidth(dc, next)) && s.running <= 1
    requires DrainLocals(s, DrainWidth(dc, next))
    ensures var s' := StepDrain(s, t, DrainWidth(dc, next));
            && dc == |s.started| < |s.nodes| && s'.th[t].Drain? && s'.nodes == s.nodes
            && Did(s, t) == [] == DrainDue(s.nodes, DrainWidth(dc, next))
            && DrainDue(s.nodes, s'.th[t].d) == InHand(s.nodes, |s.started|)
  {
  }

  lemma DrainGoesOn(s: State, t: Tid, d: DrainPc)
    requires t in s.th && s.th[t] == Drain(d) && !(d.DrainWidth? && s.running <= 1)
    ensures var s' := StepDrain(s, t, d);
            s'.th[t].Drain? ==> Did(s, t) + DrainDue(s'.nodes, s'.th[t].d) == DrainDue(s.nodes, d)
  {
  }

  lemma DrainEnds(s: State, t: Tid, d: DrainPc)
    requires t in s.th && s.th[t] == Drain(d) && (d == InvDec(NULL) || d.InvSignal?)
    requires d.InvSignal? ==> 0 <= d.sema < |s.nodes| && s.nodes[d.sema].sync
    ensures Did(s, t) == []
    ensures DrainDue(s.nodes, d) == if d.InvSignal? then [Caller(s.nodes[d.sema].pusher)] else []
  {
  }

  lemma DrainAccounted(s: State, t: Tid, d: DrainPc)
    requires Inv(s) && t in s.th && s.th[t] == Drain(d)
    ensures Accounted(s, t, StepDrain(s, t, d))
  {
    hide Inv, Awaited, DrainDue, Did, StepDrain, Grown;
    DrainOwner(s, t, d);
    HandIsSync(s);
    DrainShape(s, t, d);
    DrainsAwaited(s, t, d);
    var s' := StepDrain(s, t, d);
    if d == InvDec(NULL) {
      DrainEnds(s, t, d);
      NobodyAwaited(s');
    } else if d.InvSignal? {
      DrainEnds(s, t, d);
      SignalledAwaited(s');
    } else {
      DrainsAwaited(s', t, s'.th[t].d);
      if d.DrainWidth? && s.running <= 1 { DrainStarts(s, t, d.dc, d.next); } else { DrainGoesOn(s, t, d); }
    }
  }

  /** A step of a thread that does not own the list, or has been handed it and not yet noticed. */
  lemma OtherShape(s: State, t: Tid, call: Call)
    requires t in s.th && !s.th[t].Hold? && !s.th[t].Drain?
    ensures var s' := Step(s, t, call);
            && Moved(s, s', t) && Grown(s, s') && s'.started == s.started
            && (if s'.th[t].Hold? || s'.th[t].Drain? then
                  if s.th[t].Wait? then
                    t in s.signaled && s'.owner == s.owner && s'.th[t] == Hold(SlowRun) && t !in s'.signaled
                  else
                    && s.running == 0 && s'.owner == t && s'.signaled == s.signaled
                    && (s'.th[t] == Hold(FastRun) || s'.th[t] == Drain(DrainTail))
                else s'.owner == s.owner && s'.signaled == s.signaled)
  {
  }

  lemma SameAwaited(s: State, s': State, t: Tid)
    requires Moved(s, s', t) && Grown(s, s') && s'.owner == s.owner && s'.signaled == s.signaled
    requires s.owner != t || t in s.signaled
    requires s.owner in s.th && s.owner !in s.signaled ==> ViewOf(s).hand < |s.nodes|
    ensures Awaited(s') == Awaited(s)
  {
  }

  lemma FreshAwaited(s: State, t: Tid)
    requires t in s.th && s.owner == t && t !in s.signaled && (s.th[t] == Hold(FastRun) || s.th[t] == Drain(DrainTail))
    ensures Awaited(s) == []
  {
  }

  lemma OtherAccounted(s: State, t: Tid, call: Call)
    requires Inv(s) && t in s.th && !s.th[t].Hold? && !s.th[t].Drain?
    ensures Accounted(s, t, Step(s, t, call))
  {
    OtherShape(s, t, call);
    if s.running == 0 { NoOwner(s); }
    HandIsSync(s);
    assert OwnerInv(s, ViewOf(s));
    var s' := Step(s, t, call);
    assert Did(s, t) == [];
    assert t in s.signaled || s.owner == t ==> s.owner == t && t in s.signaled;
    hide Inv, Step, Grown, Did, Awaited, ViewOf;
    if s'.th[t].Hold? || s'.th[t].Drain? {
      if s.th[t].Wait? {
        SignalledAwaited(s);
        HoldsAwaited(s', t, SlowRun);
      } else {
        NobodyAwaited(s);
        FreshAwaited(s', t);
      }
    } else {
      SameAwaited(s, s', t);
    }
  }

  lemma StepAccounted(s: State, t: Tid, call: Call)
    requires Inv(s) && t in s.th
    ensures Accounted(s, t, Step(s, t, call))
  {
    hide Inv, Accounted;
    match s.th[t]
    case Hold(h) => HoldAccounted(s, t, h);
    case Drain(d) => DrainAccounted(s, t, d);
    case _ => OtherAccounted(s, t, call);
  }

  // ---------------------------------------------------------------------------------------------
  // Every run: each item once, in order
  // ---------------------------------------------------------------------------------------------

  /** What has been executed of the list, and what is still awaited, is what has been started. */
  predicate Balanced(s: State, log: seq<Event>) {
    |s.started| <= |s.nodes| && Listed(log) + Awaited(s) == Items(s.nodes, |s.started|)
  }

  lemma ItemsGrow(s: State, s': State)
    requires Grown(s, s') && |s.started| <= |s.nodes|
    requires |s.started| <= |s'.started| <= |s.started| + 1 && |s'.started| <= |s'.nodes|
    requires |s'.started| > |s.started| ==> |s.started| < |s.nodes|
    ensures Items(s'.nodes, |s'.started|) == Items(s.nodes, |s.started|) + News(s, s')
  {
  }

  lemma BalancedStep(s: State, t: Tid, call: Call, log: seq<Event>)
    requires Inv(s) && t in s.th && Balanced(s, log)
    ensures Inv(Step(s, t, call)) && Balanced(Step(s, t, call), log + Ran(s, t))
  {
    hide Inv, Step, Awaited, Did, News, Items;
    var s' := Step(s, t, call);
    StepKeeps(s, t, call);
    StepAccounted(s, t, call);
    Prefix(s');
    ItemsGrow(s, s');
    ListedAppend(log, Ran(s, t));
    ListedRan(s, t);
    hide Listed, Ran, Moved, Grown;
    assert (Listed(log) + Did(s, t)) + Awaited(s') == Listed(log) + (Did(s, t) + Awaited(s'));
    assert (Listed(log) + Awaited(s)) + News(s, s') == Listed(log) + (Awaited(s) + News(s, s'));
  }

  lemma {:induction false} RunBalanced(s: State, schedule: seq<(Tid, Call)>, log: seq<Event>)
    requires Inv(s) && Balanced(s, log)
    ensures Balanced(Run(s, schedule), log + Log(s, schedule))
    decreases |schedule|
  {
    hide Inv, Step, Balanced, Ran;
    if schedule == [] {
      assert log + [] == log;
    } else {
      var (t, call) := schedule[0];
      if t in s.th {
        BalancedStep(s, t, call, log);
        RunBalanced(Step(s, t, call), schedule[1..], log + Ran(s, t));
        assert log + Log(s, schedule) == log + Ran(s, t) + Log(Step(s, t, call), schedule[1..]);
      } else {
        RunBalanced(s, schedule[1..], log);
      }
    }
  }

  /**
    The items of the list are executed in the order of their tail exchanges, each exactly once: what has been
    executed is a prefix of that order, and at most the last item started is still awaited.
  */
  lemma ExecutionOrder(threads: set<Tid>, schedule: seq<(Tid, Call)>)
    ensures var s, log := Reached(threads, schedule), Log(Init(threads), schedule);
            && |s.started| <= |s.nodes| && |Awaited(s)| <= 1
            && Listed(log) + Awaited(s) == Items(s.nodes, |s.started|)
            && forall k :: 0 <= k < |Listed(log)| ==> k < |s.nodes| && Listed(log)[k] == Item(s.nodes, k)
  {
    InitInv(threads);
    assert Balanced(Init(threads), []);
    hide Inv, Run, Log, Listed;
    RunBalanced(Init(threads), schedule, []);
    var s, log := Reached(threads, schedule), Log(Init(threads), schedule);
    assert [] + log == log;
    forall k | 0 <= k < |Listed(log)| ensures k < |s.nodes| && Listed(log)[k] == Item(s.nodes, k) {
      assert (Listed(log) + Awaited(s))[k] == Listed(log)[k];
    }
  }

  /** When nothing can move, every item that was pushed has been executed, once and in order. */
  lemma AllExecuted(threads: set<Tid>, schedule: seq<(Tid, Call)>)
    ensures var s, log := Reached(threads, schedule), Log(Init(threads), schedule);
            Quiescent(s) ==> Listed(log) == Items(s.nodes, |s.nodes|)
  {
    hide Run, Log, Listed, Items, Reached, Awaited;
    ExecutionOrder(threads, schedule);
    NothingLost(threads, schedule);
    ReachedInv(threads, schedule);
    var s := Reached(threads, schedule);
    if Quiescent(s) {
      QuietOwner(s);
      NobodyAwaited(s);
      var log := Log(Init(threads), schedule);
      assert Listed(log) + [] == Listed(log);
    }
  }

  /** No thread inside a call can change anything by its next step. */
  predicate Stuck(s: State) {
    forall u :: u in s.th ==> s.th[u] == Idle || Step(s, u, Async) == s
  }

  lemma HoldStays(s: State, t: Tid, h: HoldPc)
    requires t in s.th && s.th[t] == Hold(h) && StepHold(s, t, h).th == s.th
    ensures Spinning(s, s.th[t])
  {
    assert StepHold(s, t, h).th[t] == Hold(h);
  }

  lemma DrainStays(s: State, t: Tid, d: DrainPc)
    requires t in s.th && s.th[t] == Drain(d) && StepDrain(s, t, d).th == s.th
    ensures Spinning(s, s.th[t])
  {
    assert StepDrain(s, t, d).th[t] == Drain(d);
  }

  /** Only an unsignalled waiter and a spinning owner stay where they are. */
  lemma StaysPut(s: State, t: Tid)
    requires t in s.th && Step(s, t, Async).th == s.th
    ensures Spinning(s, s.th[t]) || (s.th[t].Wait? && t !in s.signaled)
  {
    hide StepHold, StepDrain;
    assert Step(s, t, Async).th[t] == s.th[t];
    match s.th[t]
    case Hold(h) => HoldStays(s, t, h);
    case Drain(d) => DrainStays(s, t, d);
    case _ =>
  }

  lemma IdleReleasesNobody(s: State, u: Tid, pc: Pc)
    requires u in s.th && s.th[u] == Idle
    ensures Spinning(Step(s, u, Async), pc) <==> Spinning(s, pc)
  {
  }

  lemma StuckWaits(s: State, t: Tid)
    requires Inv(s) && Stuck(s) && t in s.th && s.th[t] != Idle
    ensures s.th[t].Wait? && t !in s.signaled
  {
    StaysPut(s, t);
    if Spinning(s, s.th[t]) {
      hide Inv;
      var u := Releaser(s, t, Async);
      if s.th[u] == Idle { IdleReleasesNobody(s, u, s.th[t]); }
    }
  }

  /**
    No deadlock: when no thread inside a call can move, and the queue is not on its target and not suspended, all
    calls have returned and every item that was pushed has been executed, once and in order.
  */
  lemma NoDeadlock(threads: set<Tid>, schedule: seq<(Tid, Call)>)
    ensures var s, log := Reached(threads, schedule), Log(Init(threads), schedule);
            Stuck(s) && s.lock == Unlocked && s.clients == 0 ==>
              Listed(log) == Items(s.nodes, |s.nodes|) && forall u :: u in s.th ==> s.th[u] == Idle
  {
    hide Inv, Run, Log, Listed, Items, Reached, Step;
    ReachedInv(threads, schedule);
    AllExecuted(threads, schedule);
    NothingLost(threads, schedule);
    var s := Reached(threads, schedule);
    if Stuck(s) && s.lock == Unlocked && s.clients == 0 {
      forall u | u in s.th && s.th[u] != Idle ensures s.th[u].Wait? && u !in s.signaled {
        StuckWaits(s, u);
      }
    }
  }

  // ---------------------------------------------------------------------------------------------
  // Calls, followed along a schedule
  // ---------------------------------------------------------------------------------------------

  /** The state after the first `k` steps of a schedule. */
  function At(threads: set<Tid>, schedule: seq<(Tid, Call)>, k: nat): State
    requires k <= |schedule|
  {
    Reached(threads, schedule[..k])
  }

  lemma {:induction false} RunAppend(s: State, schedule: seq<(Tid, Call)>, t: Tid, call: Call)
    ensures var r := Run(s, schedule);
            Run(s, schedule + [(t, call)]) == if t in r.th then Step(r, t, call) else r
    decreases |schedule|
  {
    hide Step;
    var more := schedule + [(t, call)];
    if schedule == [] {
      assert more[1..] == [];
    } else {
      var (u, c) := schedule[0];
      assert more[1..] == schedule[1..] + [(t, call)];
      RunAppend(if u in s.th then Step(s, u, c) else s, schedule[1..], t, call);
    }
  }

  /** One step further along a schedule. */
  lemma Next(threads: set<Tid>, schedule: seq<(Tid, Call)>, k: nat)
    requires k < |schedule|
    ensures var (t, call) := schedule[k];
            var s, s' := At(threads, schedule, k), At(threads, schedule, k + 1);
            && Inv(s) && Inv(s') && s.th.Keys == threads == s'.th.Keys
            && s' == if t in threads then Step(s, t, call) else s
  {
    hide Inv, Run, Step, Init;
    ReachedInv(threads, schedule[..k]);
    ReachedInv(threads, schedule[..k + 1]);
    var (t, call) := schedule[k];
    RunAppend(Init(threads), schedule[..k], t, call);
    assert schedule[..k + 1] == schedule[..k] + [(t, call)];
  }

  /** Between the steps `i` and `j` thread `t` makes one such call and returns from it. */
  predicate Calls(threads: set<Tid>, schedule: seq<(Tid, Call)>, i: nat, j: nat, t: Tid, call: Call)
    requires i < j <= |schedule|
  {
    && t in At(threads, schedule, i).th && At(threads, schedule, i).th[t] == Idle && schedule[i] == (t, call)
    && (forall k :: i < k < j ==> t in At(threads, schedule, k).th && At(threads, schedule, k).th[t] != Idle)
    && t in At(threads, schedule, j).th && At(threads, schedule, j).th[t] == Idle
  }

  /** How many items `t` executes by the steps from `i` to `n`. */
  function Runs(threads: set<Tid>, schedule: seq<(Tid, Call)>, i: nat, n: nat, t: Tid): nat
    requires i <= n <= |schedule|
  {
    if i == n then 0
    else
      var s := At(threads, schedule, n - 1);
      Runs(threads, schedule, i, n - 1, t) +
      if schedule[n - 1].0 == t && t in s.th && Executing(s.th[t]) then 1 else 0
  }

  /** Where a thread stands in a synchronous call that has executed so many items. */
  predicate InSync(pc: Pc, n: nat) {
    match pc
    case Try(_) => n == 0
    case PushXchg(sync) => sync && n == 0
    case PushLink(node, _, sync) => sync && n == 0
    case PushHead(node, sync) => sync && n == 0
    case Wake(_, node) => n == if node == NULL then 1 else 0
    case Wait(_) => n == 0
    case Hold(h) => n == if h == FastRun || h == SlowRun then 0 else 1
    case Idle => n == 1
    case _ => false
  }

  lemma PushedNode(s: State, t: Tid)
    requires Inv(s) && t in s.th
    ensures s.th[t].PushLink? || s.th[t].PushHead? ==> 0 <= s.th[t].node < |s.nodes|
  {
    hide ListInv, SyncInv, Locals, NoStrand, CountInv, ViewOf;
  }

  lemma SyncHold(s: State, t: Tid, h: HoldPc)
    requires t in s.th && s.th[t] == Hold(h)
    ensures InSync(StepHold(s, t, h).th[t], 1)
  {
  }

  lemma SyncStep(s: State, t: Tid, call: Call, n: nat)
    requires t in s.th && s.th[t] != Idle && InSync(s.th[t], n)
    requires s.th[t].PushLink? || s.th[t].PushHead? ==> 0 <= s.th[t].node < |s.nodes|
    ensures t in Step(s, t, call).th
    ensures InSync(Step(s, t, call).th[t], n + if Executing(s.th[t]) then 1 else 0)
  {
    hide StepHold, StepDrain;
    if s.th[t].Hold? { HoldThreads(s, t, s.th[t].h); SyncHold(s, t, s.th[t].h); }
  }

  lemma SyncNext(threads: set<Tid>, schedule: seq<(Tid, Call)>, i: nat, n: nat, t: Tid)
    requires i < n < |schedule| && t in threads && t in At(threads, schedule, n).th
    requires At(threads, schedule, n).th[t] != Idle
    requires InSync(At(threads, schedule, n).th[t], Runs(threads, schedule, i, n, t))
    ensures t in At(threads, schedule, n + 1).th
    ensures InSync(At(threads, schedule, n + 1).th[t], Runs(threads, schedule, i, n + 1, t))
  {
    hide Inv, Step, At, InSync, Accounted;
    Next(threads, schedule, n);
    var s := At(threads, schedule, n);
    var (u, call) := schedule[n];
    if u == t {
      PushedNode(s, t);
      SyncStep(s, t, call, Runs(threads, schedule, i, n, t));
    } else if u in threads {
      StepAccounted(s, u, call);
      OnlyMoves(s, u, Step(s, u, call));
    }
  }

  lemma OnlyMoves(s: State, t: Tid, s': State)
    requires t in s.th && Accounted(s, t, s')
    ensures Moved(s, s', t)
  {
  }

  lemma BeginsSync(s: State, t: Tid)
    requires t in s.th && s.th[t] == Idle
    ensures t in Step(s, t, Sync).th && InSync(Step(s, t, Sync).th[t], 0) && !Executing(s.th[t])
  {
  }

  /** A synchronous call executes exactly one item between its beginning and its return. */
  lemma SyncRunsOnce(threads: set<Tid>, schedule: seq<(Tid, Call)>, i: nat, j: nat, t: Tid)
    requires i < j <= |schedule| && Calls(threads, schedule, i, j, t, Sync)
    ensures Runs(threads, schedule, i, j, t) == 1
  {
    hide Inv, Step, At, InSync;
    Next(threads, schedule, i);
    BeginsSync(At(threads, schedule, i), t);
    assert Runs(threads, schedule, i, i, t) == 0;
    var n := i + 1;
    while n < j
      invariant i < n <= j && t in threads && t in At(threads, schedule, n).th
      invariant InSync(At(threads, schedule, n).th[t], Runs(threads, schedule, i, n, t))
    {
      assert At(threads, schedule, n).th[t] != Idle;
      SyncNext(threads, schedule, i, n, t);
      n := n + 1;
    }
    SyncOver(At(threads, schedule, j).th[t], Runs(threads, schedule, i, j, t));
  }

  lemma SyncOver(pc: Pc, n: nat)
    requires pc == Idle && InSync(pc, n)
    ensures n == 1
  {
  }

  // ---------------------------------------------------------------------------------------------
  // Lock transfer
  // ---------------------------------------------------------------------------------------------

  /** The first item is not a waiting synchronous one, or a client has suspended the queue. */
  predicate NothingToTransfer(s: State) {
    s.tail == NULL || s.clients > 0 || s.head == NULL || !IsSync(s, s.head)
  }

  /** At step `k` thread `t`, its item executed, hands the list over, or finds that it cannot. */
  predicate Parts(threads: set<Tid>, schedule: seq<(Tid, Call)>, k: nat, t: Tid)
    requires k < |schedule|
  {
    var s := At(threads, schedule, k);
    && schedule[k].0 == t && t in s.th && s.th[t].Hold? && !Executing(s.th[t])
    && (s.th[t].h.HandSignal? || NothingToTransfer(s))
  }

  /** On the way out of a synchronous call. */
  predicate Departs(pc: Pc) {
    match pc
    case Hold(h) => h == FastDec || h == SlowSubSuspend || h == SlowSubRunning
    case Wake(_, node) => node == NULL
    case Idle => true
    case _ => false
  }

  lemma HoldParts(s: State, t: Tid, h: HoldPc)
    requires t in s.th && s.th[t] == Hold(h) && !Departs(Hold(h)) && Departs(StepHold(s, t, h).th[t])
    requires s.clients == 0 ==> s.suspend < 2 || (HoldView(h).holds && s.suspend < 4)
    requires s.running == HoldView(h).weight
    ensures !Executing(s.th[t]) && (h.HandSignal? || NothingToTransfer(s))
  {
  }

  lemma HoldWords(s: State, t: Tid, h: HoldPc)
    requires Inv(s) && t in s.th && s.th[t] == Hold(h)
    ensures s.clients == 0 ==> s.suspend < 2 || (HoldView(h).holds && s.suspend < 4)
    ensures s.running == HoldView(h).weight
  {
    HoldOwner(s, t, h);
    hide ListInv, PushersInv, NoStrand, Fifo, SyncInv, Locals;
  }

  lemma OnlyHoldDeparts(s: State, t: Tid, call: Call, n: nat)
    requires t in s.th && s.th[t] != Idle && InSync(s.th[t], n) && !s.th[t].Hold? && !Departs(s.th[t])
    requires s.th[t].PushLink? || s.th[t].PushHead? ==> 0 <= s.th[t].node
    requires s.th[t].Wait? ==> s.th[t].node != NULL
    ensures t in Step(s, t, call).th && !Departs(Step(s, t, call).th[t])
  {
    hide StepHold, StepDrain;
  }

  lemma DepartNext(threads: set<Tid>, schedule: seq<(Tid, Call)>, i: nat, n: nat, t: Tid)
    requires i < n < |schedule| && t in threads && t in At(threads, schedule, n).th
    requires At(threads, schedule, n).th[t] != Idle && !Departs(At(threads, schedule, n).th[t])
    requires InSync(At(threads, schedule, n).th[t], Runs(threads, schedule, i, n, t))
    ensures t in At(threads, schedule, n + 1).th
    ensures Departs(At(threads, schedule, n + 1).th[t]) ==> Parts(threads, schedule, n, t)
  {
    hide Inv, Step, At, Accounted, Departs, InSync, NothingToTransfer, StepHold, Executing;
    Next(threads, schedule, n);
    var s := At(threads, schedule, n);
    var (u, call) := schedule[n];
    if u == t {
      StepThreads(s, t, call);
      if s.th[t].Hold? {
        HoldWords(s, t, s.th[t].h);
        StepsHold(s, t, call);
        if Departs(StepHold(s, t, s.th[t].h).th[t]) { HoldParts(s, t, s.th[t].h); }
      } else {
        PushedNode(s, t);
        if s.th[t].Wait? { SignalledNode(s, t); }
        OnlyHoldDeparts(s, t, call, Runs(threads, schedule, i, n, t));
      }
    } else if u in threads {
      StepAccounted(s, u, call);
      OnlyMoves(s, u, Step(s, u, call));
    }
  }

  lemma StepsHold(s: State, t: Tid, call: Call)
    requires t in s.th && s.th[t].Hold?
    ensures Step(s, t, call) == StepHold(s, t, s.th[t].h) && t in StepHold(s, t, s.th[t].h).th
  {
    HoldThreads(s, t, s.th[t].h);
    hide StepHold;
  }

  lemma BeginsInside(s: State, t: Tid)
    requires t in s.th && s.th[t] == Idle
    ensures !Departs(Step(s, t, Sync).th[t])
  {
  }

  /**
    A synchronous call, its item executed, hands the list over to the synchronous call that waits first in the list;
    it leaves without doing so only if it finds that there is none, or that a client has suspended the queue.
  */
  lemma TransfersLock(threads: set<Tid>, schedule: seq<(Tid, Call)>, i: nat, j: nat, t: Tid)
    requires i < j <= |schedule| && Calls(threads, schedule, i, j, t, Sync)
    ensures exists k :: i < k < j && Parts(threads, schedule, k, t)
  {
    hide Inv, Step, At, InSync, Departs, Parts;
    Next(threads, schedule, i);
    BeginsSync(At(threads, schedule, i), t);
    BeginsInside(At(threads, schedule, i), t);
    assert Runs(threads, schedule, i, i, t) == 0;
    var n := i + 1;
    IdleDeparts();
    while !Parts(threads, schedule, n, t)
      invariant i < n < j && t in threads && t in At(threads, schedule, n).th
      invariant InSync(At(threads, schedule, n).th[t], Runs(threads, schedule, i, n, t))
      invariant !Departs(At(threads, schedule, n).th[t])
      decreases j - n
    {
      assert At(threads, schedule, n).th[t] != Idle;
      SyncNext(threads, schedule, i, n, t);
      DepartNext(threads, schedule, i, n, t);
      n := n + 1;
    }
  }

  lemma IdleDeparts()
    ensures Departs(Idle)
  {
  }

  // ---------------------------------------------------------------------------------------------
  // Asynchronous calls
  // ---------------------------------------------------------------------------------------------

  /** The items that `t` has pushed asynchronously. */
  function Own(s: State, t: Tid): set<int> {
    set k | 0 <= k < |s.nodes| && s.nodes[k].pusher == t && !s.nodes[k].sync
  }

  /** With the one that it is about to push. */
  function Committing(s: State, t: Tid): nat
    requires t in s.th
  {
    |Own(s, t)| + if s.th[t] == PushXchg(false) then 1 else 0
  }

  lemma OwnSame(s: State, s': State, t: Tid)
    requires Grown(s, s') && |s'.nodes| == |s.nodes|
    ensures Own(s', t) == Own(s, t)
  {
  }

  lemma OwnMore(s: State, s': State, u: Tid, sync: bool, t: Tid)
    requires s'.nodes == s.nodes + [Node(u, sync, NULL)]
    ensures |Own(s', t)| == |Own(s, t)| + if u == t && !sync then 1 else 0
  {
    assert Own(s', t) == Own(s, t) + if u == t && !sync then {|s.nodes|} else {};
  }

  lemma HoldNodes(s: State, t: Tid, h: HoldPc)
    requires t in s.th && s.th[t] == Hold(h)
    ensures StepHold(s, t, h).nodes == s.nodes && !StepHold(s, t, h).th[t].PushXchg?
  {
  }

  lemma DrainNodes(s: State, t: Tid, d: DrainPc)
    requires t in s.th && s.th[t] == Drain(d)
    ensures |StepDrain(s, t, d).nodes| == |s.nodes| && !StepDrain(s, t, d).th[t].PushXchg?
  {
  }

  /** Items are added only by tail exchanges. */
  lemma StepNodes(s: State, t: Tid, call: Call)
    requires t in s.th
    ensures var s' := Step(s, t, call);
            && (if s.th[t].PushXchg? then s'.nodes == s.nodes + [Node(t, s.th[t].sync, NULL)]
                else |s'.nodes| == |s.nodes|)
            && (t in s'.th && s'.th[t] == PushXchg(false) <==> s.th[t] == Idle && call == Async)
  {
    hide StepHold, StepDrain;
    match s.th[t]
    case Hold(h) => HoldNodes(s, t, h);
    case Drain(d) => DrainNodes(s, t, d);
    case _ =>
  }

  lemma OwnStep(s: State, u: Tid, call: Call, t: Tid)
    requires Inv(s) && u in s.th && t in s.th
    ensures var s' := Step(s, u, call);
            && t in s'.th
            && (u != t || s.th[t] != Idle ==> Committing(s', t) == Committing(s, t))
            && (u == t && s.th[t] == Idle && call == Async ==> Committing(s', t) == |Own(s, t)| + 1)
  {
    hide Inv, Step, Own, Awaited, Did, News;
    StepNodes(s, u, call);
    StepAccounted(s, u, call);
    var s' := Step(s, u, call);
    if s.th[u].PushXchg? {
      OwnMore(s, s', u, s.th[u].sync, t);
    } else {
      OwnSame(s, s', t);
    }
  }

  lemma OwnNext(threads: set<Tid>, schedule: seq<(Tid, Call)>, k: nat, t: Tid)
    requires k < |schedule| && t in threads
    requires t in At(threads, schedule, k).th && At(threads, schedule, k).th[t] != Idle
    ensures t in At(threads, schedule, k + 1).th
    ensures Committing(At(threads, schedule, k + 1), t) == Committing(At(threads, schedule, k), t)
  {
    hide Inv, Own, Step, At, Committing;
    Next(threads, schedule, k);
    var (u, call) := schedule[k];
    if u in threads {
      OwnStep(At(threads, schedule, k), u, call, t);
    }
  }

  lemma OwnIdle(s: State, t: Tid)
    requires t in s.th && s.th[t] == Idle
    ensures Committing(s, t) == |Own(s, t)|
  {
  }

  /** An asynchronous call pushes exactly one item. */
  lemma AsyncPushesOne(threads: set<Tid>, schedule: seq<(Tid, Call)>, i: nat, j: nat, t: Tid)
    requires i < j <= |schedule| && Calls(threads, schedule, i, j, t, Async)
    ensures |Own(At(threads, schedule, j), t)| == |Own(At(threads, schedule, i), t)| + 1
  {
    hide Inv, Own, Step, At, Committing;
    Next(threads, schedule, i);
    OwnStep(At(threads, schedule, i), t, Async, t);
    var k, n := i + 1, |Own(At(threads, schedule, i), t)| + 1;
    while k < j
      invariant i < k <= j && t in threads && t in At(threads, schedule, k).th
      invariant Committing(At(threads, schedule, k), t) == n
    {
      assert At(threads, schedule, k).th[t] != Idle;
      OwnNext(threads, schedule, k, t);
      k := k + 1;
    }
    OwnIdle(At(threads, schedule, j), t);
  }

  // ---------------------------------------------------------------------------------------------
  // Suspension
  // ---------------------------------------------------------------------------------------------

  /** Suspensions less resumptions, as the clients count them. */
  function Outstanding(threads: set<Tid>, schedule: seq<(Tid, Call)>): nat
    decreases |schedule|
  {
    if schedule == [] then 0
    else
      var before := schedule[..|schedule| - 1];
      var (t, call) := schedule[|schedule| - 1];
      var n, s := Outstanding(threads, before), Reached(threads, before);
      if t !in s.th || s.th[t] != Idle then n
      else match call
           case Suspend => n + 1
           case Resume => if n == 0 then 0 else n - 1
           case _ => n
  }

  lemma HoldClients(s: State, t: Tid, h: HoldPc)
    requires t in s.th
    ensures StepHold(s, t, h).clients == s.clients
  {
  }

  lemma DrainClients(s: State, t: Tid, d: DrainPc)
    requires t in s.th
    ensures StepDrain(s, t, d).clients == s.clients
  {
  }

  lemma ClientsStep(s: State, t: Tid, call: Call)
    requires t in s.th && (s.clients > 0 ==> s.suspend >= 2)
    ensures Step(s, t, call).clients ==
            if s.th[t] != Idle then s.clients
            else if call == Suspend then s.clients + 1
            else if call == Resume && s.clients > 0 then s.clients - 1 else s.clients
  {
    hide StepHold, StepDrain;
    match s.th[t]
    case Hold(h) => HoldClients(s, t, h);
    case Drain(d) => DrainClients(s, t, d);
    case _ =>
  }

  lemma RunsNowhere(s: State)
    ensures Run(s, []) == s
  {
  }

  lemma {:induction false} ClientsExact(threads: set<Tid>, schedule: seq<(Tid, Call)>)
    ensures Reached(threads, schedule).clients == Outstanding(threads, schedule)
    decreases |schedule|
  {
    hide Inv, Step, Run;
    if schedule == [] {
      RunsNowhere(Init(threads));
    } else {
      var n := |schedule| - 1;
      ClientsExact(threads, schedule[..n]);
      assert schedule[..n + 1] == schedule;
      Next(threads, schedule, n);
      var (t, call) := schedule[n];
      hide Init, Reached;
      if t in threads {
        Words(Reached(threads, schedule[..n]), t);
        ClientsStep(Reached(threads, schedule[..n]), t, call);
      }
    }
  }

  /** A synchronous owner that has passed its last suspension test, or whose item was started before. */
  predicate HoldLicence(h: HoldPc) {
    match h
    case FastTailAgain => false
    case FastSuspendAgain => false
    case FastDec => false
    case SlowSuspend => false
    case SlowSubSuspend => false
    case SlowSubRunning => false
    case _ => true
  }

  predicate DrainLicence(d: DrainPc) {
    match d
    case DrainWidth(_, _) => true
    case DrainRun(_, _) => true
    case PopSuspend(_, _) => true
    case PopRunning(_, _) => true
    case OutHead(_, sema) => sema != NULL
    case InvDec(sema) => sema != NULL
    case InvSignal(_) => true
    case _ => false
  }

  /** The thread is past its suspension test: it may still execute one item, or have one executed. */
  predicate Licensed(s: State, u: Tid)
    requires u in s.th
  {
    || u in s.signaled || s.th[u] == Try(FastLock)
    || (s.th[u].Hold? && HoldLicence(s.th[u].h)) || (s.th[u].Drain? && DrainLicence(s.th[u].d))
  }

  function Allowed(s: State): set<Tid> {
    set u | u in s.th && Licensed(s, u)
  }

  predicate Shrinks(s: State, t: Tid, s': State)
    requires t in s.th && t in s'.th
  {
    && (Licensed(s', t) ==> Licensed(s, t))
    && (Executing(s.th[t]) ==> Licensed(s, t) && !Licensed(s', t))
  }

  lemma AllowedMove(s: State, s': State, t: Tid)
    requires Moved(s, s', t) && Shrinks(s, t, s') && s'.signaled - {t} == s.signaled - {t}
    ensures |Allowed(s')| + (if Executing(s.th[t]) then 1 else 0) <= |Allowed(s)|
  {
    forall u | u in s.th && u != t ensures Licensed(s', u) <==> Licensed(s, u) {
      assert u in s'.signaled - {t} <==> u in s.signaled - {t};
    }
    if Licensed(s, t) && !Licensed(s', t) {
      assert Allowed(s') == Allowed(s) - {t};
    } else {
      assert Allowed(s') == Allowed(s);
    }
  }

  lemma AllowedHand(s: State, s': State, t: Tid, w: Tid)
    requires Moved(s, s', t) && w in s.th && w != t && !Licensed(s, w) && s'.signaled == s.signaled + {w}
    requires Licensed(s, t) && !Licensed(s', t) && !Executing(s.th[t])
    ensures |Allowed(s')| + (if Executing(s.th[t]) then 1 else 0) <= |Allowed(s)|
  {
    assert Allowed(s') == Allowed(s) - {t} + {w};
  }

  lemma HoldShrinks(s: State, t: Tid, h: HoldPc)
    requires t in s.th && s.th[t] == Hold(h) && t !in s.signaled && !h.HandSignal?
    requires s.suspend >= if HoldView(h).holds then 4 else 2
    ensures var s' := StepHold(s, t, h);
            Moved(s, s', t) && Shrinks(s, t, s') && s'.signaled == s.signaled
  {
  }

  lemma DrainShrinks(s: State, t: Tid, d: DrainPc)
    requires t in s.th && s.th[t] == Drain(d) && t !in s.signaled && !d.InvSignal? && s.suspend >= 2
    ensures var s' := StepDrain(s, t, d);
            Moved(s, s', t) && Shrinks(s, t, s') && s'.signaled == s.signaled
  {
  }

  lemma OtherShrinks(s: State, t: Tid, call: Call)
    requires t in s.th && !s.th[t].Hold? && !s.th[t].Drain? && s.suspend >= 2
    ensures var s' := Step(s, t, call);
            Moved(s, s', t) && Shrinks(s, t, s') && s'.signaled - {t} == s.signaled - {t}
  {
  }

  /** The waiter that is handed the list has no licence of its own. */
  lemma Receiver(s: State, t: Tid)
    requires Inv(s) && t in s.th && (s.th[t].Hold? || s.th[t].Drain?) && ViewOf(s).hand != NULL
    ensures var w := s.nodes[ViewOf(s).hand].pusher;
            0 <= ViewOf(s).hand < |s.nodes| && w in s.th && w != t && !Licensed(s, w)
  {
    hide ListInv, PushersInv, NoStrand, Fifo, LockInv, Locals;
    assert Unserved(s, ViewOf(s).hand);
  }

  lemma SuspendWord(s: State)
    requires Inv(s) && s.clients > 0
    ensures s.suspend >= if ViewOf(s).holds then 4 else 2
  {
    hide ListInv, PushersInv, NoStrand, Fifo, OwnerInv, Locals, SyncInv;
  }

  lemma SuspendStep(s: State, t: Tid, call: Call)
    requires Inv(s) && t in s.th && s.clients > 0
    ensures |Allowed(Step(s, t, call))| + (if Executing(s.th[t]) then 1 else 0) <= |Allowed(s)|
  {
    hide Inv, Allowed, Shrinks, StepHold, StepDrain;
    SuspendWord(s);
    match s.th[t]
    case Hold(h) =>
      HoldOwner(s, t, h);
      if h.HandSignal? {
        Receiver(s, t);
        HoldHands(s, t, h.sema);
        AllowedHand(s, StepHold(s, t, h), t, s.nodes[h.sema].pusher);
      } else {
        HoldShrinks(s, t, h);
        AllowedMove(s, StepHold(s, t, h), t);
      }
    case Drain(d) =>
      DrainOwner(s, t, d);
      if d.InvSignal? {
        Receiver(s, t);
        DrainHands(s, t, d.sema);
        AllowedHand(s, StepDrain(s, t, d), t, s.nodes[d.sema].pusher);
      } else {
        DrainShrinks(s, t, d);
        AllowedMove(s, StepDrain(s, t, d), t);
      }
    case _ =>
      OtherShrinks(s, t, call);
      AllowedMove(s, Step(s, t, call), t);
  }

  lemma HoldHands(s: State, t: Tid, sema: int)
    requires t in s.th && s.th[t] == Hold(HandSignal(sema)) && 0 <= sema < |s.nodes| && t !in s.signaled
    requires s.nodes[sema].pusher != t
    ensures var s' := StepHold(s, t, HandSignal(sema));
            && Moved(s, s', t) && s'.signaled == s.signaled + {s.nodes[sema].pusher}
            && Licensed(s, t) && !Licensed(s', t)
  {
  }

  lemma DrainHands(s: State, t: Tid, sema: int)
    requires t in s.th && s.th[t] == Drain(InvSignal(sema)) && 0 <= sema < |s.nodes| && t !in s.signaled
    requires s.nodes[sema].pusher != t
    ensures var s' := StepDrain(s, t, InvSignal(sema));
            && Moved(s, s', t) && s'.signaled == s.signaled + {s.nodes[sema].pusher}
            && Licensed(s, t) && !Licensed(s', t)
  {
  }

  /** How many items are executed by the steps from `i` to `n`. */
  function Executions(threads: set<Tid>, schedule: seq<(Tid, Call)>, i: nat, n: nat): nat
    requires i <= n <= |schedule|
  {
    if i == n then 0
    else
      var (s, t) := (At(threads, schedule, n - 1), schedule[n - 1].0);
      Executions(threads, schedule, i, n - 1) + if t in s.th && Executing(s.th[t]) then 1 else 0
  }

  /**
    While the queue is suspended, no more items are executed than threads had passed their suspension test when
    that began; if none had, none is.
  */
  lemma SuspendStops(threads: set<Tid>, schedule: seq<(Tid, Call)>, i: nat, j: nat)
    requires i <= j <= |schedule| && forall k :: i <= k < j ==> Outstanding(threads, schedule[..k]) > 0
    ensures Executions(threads, schedule, i, j) + |Allowed(At(threads, schedule, j))|
            <= |Allowed(At(threads, schedule, i))|
  {
    hide Inv, Step, Allowed, At, Outstanding;
    var n := i;
    while n < j
      invariant i <= n <= j
      invariant Executions(threads, schedule, i, n) + |Allowed(At(threads, schedule, n))|
                <= |Allowed(At(threads, schedule, i))|
    {
      assert Outstanding(threads, schedule[..n]) > 0;
      SuspendNext(threads, schedule, n);
      n := n + 1;
    }
  }

  lemma SuspendNext(threads: set<Tid>, schedule: seq<(Tid, Call)>, n: nat)
    requires n < |schedule| && Outstanding(threads, schedule[..n]) > 0
    ensures var (s, t) := (At(threads, schedule, n), schedule[n].0);
            |Allowed(At(threads, schedule, n + 1))| + (if t in s.th && Executing(s.th[t]) then 1 else 0) <= |Allowed(s)|
  {
    hide Inv, Step, Allowed, Outstanding, Reached;
    Next(threads, schedule, n);
    ClientsExact(threads, schedule[..n]);
    var (t, call) := schedule[n];
    if t in threads { SuspendStep(At(threads, schedule, n), t, call); }
  }

  // ---------------------------------------------------------------------------------------------
  // Synchronous calls and earlier items
  // ---------------------------------------------------------------------------------------------

  /** The items started, with the one that a drain has taken off the list. */
  function Reach(s: State): nat {
    |s.started| + ViewOf(s).ahead
  }

  predicate PutsBack(pc: Pc) {
    pc.Drain? && (pc.d.OutTail? || pc.d.OutSpin? || pc.d.OutLink?)
  }

  /** No client has suspended the queue, and no item is being put back. */
  predicate Undisturbed(s: State) {
    s.clients == 0 && forall u :: u in s.th ==> !PutsBack(s.th[u])
  }

  /** What the drain has started and taken never becomes less, unless it puts an item back. */
  lemma DrainAheadStep(s: State, t: Tid, d: DrainPc)
    requires t in s.th && s.th[t] == Drain(d) && !PutsBack(Drain(d))
    requires d.DrainSuspend? || d.DrainWidth? ==> s.suspend <= 1 && s.running == 1
    ensures var s' := StepDrain(s, t, d);
            && !PutsBack(s'.th[t]) && (s'.th[t].Drain? <==> d != InvDec(NULL) && !d.InvSignal?)
            && (!s'.th[t].Drain? ==> DrainView(d).ahead == 0 && s'.started == s.started)
            && (s'.th[t].Drain? ==>
                  |s.started| + DrainView(d).ahead <= |s'.started| + DrainView(s'.th[t].d).ahead)
  {
  }

  lemma DrainAhead(s: State, t: Tid, d: DrainPc)
    requires Inv(s) && t in s.th && s.th[t] == Drain(d) && Undisturbed(s)
    ensures var s' := StepDrain(s, t, d);
            !PutsBack(s'.th[t]) && Reach(s') >= Reach(s)
  {
    hide Inv, ViewOf, StepDrain, DrainView, PutsBack;
    DrainOwner(s, t, d);
    HandIsSync(s);
    if d.DrainSuspend? || d.DrainWidth? { DrainCalm(s, d); }
    if d.InvSignal? { DrainHand(d); }
    DrainShape(s, t, d);
    DrainAheadStep(s, t, d);
    var s' := StepDrain(s, t, d);
    if s'.th[t].Drain? { DrainingView(s', t, s'.th[t].d); }
  }

  lemma DrainHand(d: DrainPc)
    requires d.InvSignal?
    ensures DrainView(d).hand == d.sema
  {
  }

  lemma DrainCalm(s: State, d: DrainPc)
    requires Inv(s) && s.clients == 0 && ViewOf(s) == DrainView(d) && (d.DrainSuspend? || d.DrainWidth?)
    ensures s.suspend <= 1 && s.running == 1
  {
    hide ListInv, PushersInv, NoStrand, Fifo, Locals, SyncInv;
  }

  lemma HoldAhead(s: State, t: Tid, h: HoldPc)
    requires Inv(s) && t in s.th && s.th[t] == Hold(h)
    ensures Reach(StepHold(s, t, h)) >= Reach(s) && !PutsBack(StepHold(s, t, h).th[t])
  {
    hide Inv, StepHold;
    HoldOwner(s, t, h);
    HoldAccounted(s, t, h);
    HoldPlain(s, t, h);
  }

  lemma HoldPlain(s: State, t: Tid, h: HoldPc)
    requires t in s.th && s.th[t] == Hold(h)
    ensures HoldView(h).ahead == 0 && !PutsBack(StepHold(s, t, h).th[t])
  {
  }

  lemma SameReach(s: State, s': State, t: Tid)
    requires Moved(s, s', t) && s'.owner == s.owner && s'.signaled == s.signaled && s'.started == s.started
    requires s.owner == t ==> t in s.signaled
    ensures Reach(s') == Reach(s)
  {
  }

  lemma OtherPlain(s: State, t: Tid, call: Call)
    requires t in s.th && !s.th[t].Hold? && !s.th[t].Drain?
    ensures t in Step(s, t, call).th && !PutsBack(Step(s, t, call).th[t])
  {
  }

  lemma SignalledReach(s: State)
    requires s.owner in s.th && s.owner in s.signaled
    ensures Reach(s) == |s.started|
  {
  }

  lemma OtherAhead(s: State, t: Tid, call: Call)
    requires Inv(s) && t in s.th && !s.th[t].Hold? && !s.th[t].Drain?
    ensures t in Step(s, t, call).th && Reach(Step(s, t, call)) >= Reach(s) && !PutsBack(Step(s, t, call).th[t])
  {
    OtherShape(s, t, call);
    OtherPlain(s, t, call);
    if s.running == 0 { NoOwner(s); }
    assert OwnerInv(s, ViewOf(s));
    assert t in s.signaled || s.owner == t ==> s.owner == t && t in s.signaled;
    hide Inv, Step, Grown, ViewOf, PutsBack;
    var s' := Step(s, t, call);
    if s'.th[t].Hold? || s'.th[t].Drain? {
      if s.th[t].Wait? { SignalledReach(s); }
    } else {
      SameReach(s, s', t);
    }
  }

  lemma AheadStep(s: State, t: Tid, call: Call)
    requires Inv(s) && t in s.th && Undisturbed(s) && call != Suspend
    ensures Undisturbed(Step(s, t, call)) && Reach(Step(s, t, call)) >= Reach(s)
  {
    hide Inv, Reach, PutsBack, StepHold, StepDrain;
    StepAccounted(s, t, call);
    OnlyMoves(s, t, Step(s, t, call));
    Words(s, t);
    ClientsStep(s, t, call);
    match s.th[t]
    case Hold(h) => HoldAhead(s, t, h);
    case Drain(d) => DrainAhead(s, t, d);
    case _ => OtherAhead(s, t, call);
  }

  /** Where a synchronous call stands that came after `n` items were pushed. */
  predicate Ordered(s: State, t: Tid, n: nat)
    requires t in s.th
  {
    match s.th[t]
    case Try(f) => if f == FastTail then n <= |s.nodes| else n <= Reach(s)
    case PushXchg(_) => n <= |s.nodes|
    case PushLink(node, _, _) => n <= node
    case PushHead(node, _) => n <= node
    case Wake(_, node) => node == NULL || n <= node
    case Wait(node) => n <= node
    case Hold(h) => (h == FastRun ==> n <= |s.started|) && (h == SlowRun ==> n < |s.started|)
    case _ => true
  }

  lemma OrderOther(s: State, s': State, t: Tid, n: nat)
    requires t in s.th && t in s'.th && s'.th[t] == s.th[t] && Ordered(s, t, n)
    requires |s.nodes| <= |s'.nodes| && |s.started| <= |s'.started| && Reach(s) <= Reach(s')
    ensures Ordered(s', t, n)
  {
  }

  /** A tail that is NULL means that everything is started or in the hands of a drain. */
  lemma EmptyTail(s: State)
    requires Inv(s)
    ensures Reach(s) <= |s.nodes| && (s.tail == NULL ==> Reach(s) == |s.nodes|)
  {
    hide PushersInv, NoStrand, Fifo, CountInv, SyncInv, Locals, ViewOf;
  }

  lemma SignalledNode(s: State, t: Tid)
    requires Inv(s) && t in s.th && s.th[t].Wait?
    ensures s.th[t].node != NULL && (t in s.signaled ==> s.th[t].node < |s.started|)
  {
    hide ListInv, PushersInv, NoStrand, Fifo, CountInv, Locals;
    var k := s.th[t].node;
    assert Pending(s.th[t]) == k;
  }

  lemma OrderMineStep(s: State, t: Tid, call: Call, n: nat)
    requires t in s.th && s.th[t] != Idle && !s.th[t].Hold? && !s.th[t].Drain? && Ordered(s, t, n)
    requires !s.th[t].Door? && !s.th[t].InvCheck?
    requires s.th[t].PushLink? || s.th[t].PushHead? ==> 0 <= s.th[t].node
    requires Reach(s) <= |s.nodes| && (s.tail == NULL ==> Reach(s) == |s.nodes|)
    requires s.running == 0 ==> Reach(s) == |s.started|
    requires s.th[t].Wait? && t in s.signaled ==> s.th[t].node < |s.started|
    requires Reach(s) <= Reach(Step(s, t, call))
    ensures t in Step(s, t, call).th && Ordered(Step(s, t, call), t, n)
  {
    hide Reach;
  }

  lemma OrderMine(s: State, t: Tid, call: Call, n: nat)
    requires Inv(s) && t in s.th && s.th[t] != Idle && !s.th[t].Hold? && !s.th[t].Drain? && Ordered(s, t, n)
    requires !s.th[t].Door? && !s.th[t].InvCheck?
    ensures t in Step(s, t, call).th && Ordered(Step(s, t, call), t, n)
  {
    if s.running == 0 { NoOwner(s); }
    hide Inv, Step, ViewOf, Ordered;
    OtherAhead(s, t, call);
    PushedNode(s, t);
    EmptyTail(s);
    if s.th[t].Wait? { SignalledNode(s, t); }
    OrderMineStep(s, t, call, n);
  }

  lemma OrderHold(s: State, t: Tid, h: HoldPc, n: nat)
    requires t in s.th && s.th[t] == Hold(h)
    ensures t in StepHold(s, t, h).th && Ordered(StepHold(s, t, h), t, n)
  {
    hide Reach;
  }

  lemma OrderStep(s: State, u: Tid, call: Call, t: Tid, n: nat, m: nat)
    requires Inv(s) && Undisturbed(s) && u in s.th && t in s.th && Ordered(s, t, n) && InSync(s.th[t], m)
    requires u == t ==> s.th[t] != Idle
    requires call != Suspend
    ensures t in Step(s, u, call).th && Ordered(Step(s, u, call), t, n)
  {
    if u != t {
      hide Inv, Ordered, Reach, Undisturbed, InSync, Step;
      StepAccounted(s, u, call);
      AheadStep(s, u, call);
      GrownNodes(s, u, Step(s, u, call));
      OrderOther(s, Step(s, u, call), t, n);
    } else if s.th[t].Hold? {
      OrderHold(s, t, s.th[t].h, n);
    } else {
      assert !s.th[t].Drain? && !s.th[t].Door? && !s.th[t].InvCheck?;
      hide Inv, Ordered, Reach, Undisturbed, InSync, Step;
      OrderMine(s, t, call, n);
    }
  }

  lemma GrownNodes(s: State, t: Tid, s': State)
    requires t in s.th && Accounted(s, t, s')
    ensures Moved(s, s', t) && |s.nodes| <= |s'.nodes| && |s.started| <= |s'.started|
  {
  }

  /** At the end of the schedule `t` executes the item of a synchronous call that it began at step `i`. */
  predicate Arrived(threads: set<Tid>, schedule: seq<(Tid, Call)>, i: nat, t: Tid) {
    && i < |schedule| && schedule[i] == (t, Sync)
    && t in At(threads, schedule, i).th && At(threads, schedule, i).th[t] == Idle
    && (forall k :: i < k <= |schedule| ==> t in At(threads, schedule, k).th && At(threads, schedule, k).th[t] != Idle)
    && Executing(At(threads, schedule, |schedule|).th[t])
  }

  /** Everything pushed before step `i` has been executed. */
  predicate CaughtUp(threads: set<Tid>, schedule: seq<(Tid, Call)>, i: nat)
    requires i <= |schedule|
  {
    |Listed(Log(Init(threads), schedule))| >= |At(threads, schedule, i).nodes|
  }

  predicate NeverSuspends(schedule: seq<(Tid, Call)>) {
    forall k :: 0 <= k < |schedule| ==> schedule[k].1 != Suspend
  }

  lemma AtStart(threads: set<Tid>, schedule: seq<(Tid, Call)>)
    ensures At(threads, schedule, 0) == Init(threads)
  {
    RunsNowhere(Init(threads));
  }

  lemma UndisturbedAt(threads: set<Tid>, schedule: seq<(Tid, Call)>, n: nat)
    requires n <= |schedule| && NeverSuspends(schedule)
    ensures Undisturbed(At(threads, schedule, n))
  {
    hide Inv, Step, At;
    if n == 0 {
      AtStart(threads, schedule);
    } else {
      UndisturbedAt(threads, schedule, n - 1);
      hide Undisturbed;
      Next(threads, schedule, n - 1);
      var (t, call) := schedule[n - 1];
      if t in threads { AheadStep(At(threads, schedule, n - 1), t, call); }
    }
  }

  /** What is known of the synchronous call along the way. */
  predicate OnTheWay(threads: set<Tid>, schedule: seq<(Tid, Call)>, i: nat, n: nat, t: Tid)
    requires i < n <= |schedule|
  {
    var s := At(threads, schedule, n);
    && t in s.th && Ordered(s, t, |At(threads, schedule, i).nodes|)
    && InSync(s.th[t], Runs(threads, schedule, i, n, t))
  }

  lemma OrderNext(threads: set<Tid>, schedule: seq<(Tid, Call)>, i: nat, n: nat, t: Tid)
    requires i < n < |schedule| && NeverSuspends(schedule) && OnTheWay(threads, schedule, i, n, t)
    requires t in threads && At(threads, schedule, n).th[t] != Idle
    ensures OnTheWay(threads, schedule, i, n + 1, t)
  {
    hide Inv, Step, At, InSync, Ordered, Undisturbed;
    Next(threads, schedule, n);
    SyncNext(threads, schedule, i, n, t);
    UndisturbedAt(threads, schedule, n);
    var (u, call) := schedule[n];
    if u in threads {
      var before := |At(threads, schedule, i).nodes|;
      OrderStep(At(threads, schedule, n), u, call, t, before, Runs(threads, schedule, i, n, t));
    }
  }

  lemma BeginsOrdered(s: State, t: Tid)
    requires t in s.th && s.th[t] == Idle
    ensures t in Step(s, t, Sync).th && Ordered(Step(s, t, Sync), t, |s.nodes|)
  {
  }

  lemma OrderBegins(threads: set<Tid>, schedule: seq<(Tid, Call)>, i: nat, t: Tid)
    requires i < |schedule| && schedule[i] == (t, Sync) && t in threads
    requires t in At(threads, schedule, i).th && At(threads, schedule, i).th[t] == Idle
    ensures OnTheWay(threads, schedule, i, i + 1, t)
  {
    hide Inv, Step, At, InSync, Ordered;
    Next(threads, schedule, i);
    BeginsSync(At(threads, schedule, i), t);
    BeginsOrdered(At(threads, schedule, i), t);
    assert Runs(threads, schedule, i, i, t) == 0;
  }

  /** An executing synchronous caller has everything before its own item behind it. */
  lemma ExecutingAwaits(s: State, t: Tid, n: nat, m: nat)
    requires Inv(s) && t in s.th && Executing(s.th[t]) && Ordered(s, t, n) && InSync(s.th[t], m)
    ensures n + |Awaited(s)| <= |s.started|
  {
    HoldOwner(s, t, s.th[t].h);
    HoldsAwaited(s, t, s.th[t].h);
    hide Inv, Awaited, ViewOf;
  }

  /** If the queue is never suspended, a synchronous call executes after everything that was pushed before it. */
  lemma SyncWaitsForEarlier(threads: set<Tid>, schedule: seq<(Tid, Call)>, i: nat, t: Tid)
    requires Arrived(threads, schedule, i, t) && NeverSuspends(schedule)
    ensures CaughtUp(threads, schedule, i)
  {
    hide Inv, Step, At, Awaited, Listed, Log, Items, OnTheWay;
    Next(threads, schedule, i);
    OrderBegins(threads, schedule, i, t);
    var n, end := i + 1, |schedule|;
    while n < end
      invariant i < n <= end && t in threads && OnTheWay(threads, schedule, i, n, t)
    {
      assert At(threads, schedule, n).th[t] != Idle;
      OrderNext(threads, schedule, i, n, t);
      n := n + 1;
    }
    ArrivedInTime(threads, schedule, i, t);
  }

  lemma ArrivedInTime(threads: set<Tid>, schedule: seq<(Tid, Call)>, i: nat, t: Tid)
    requires i < |schedule| && OnTheWay(threads, schedule, i, |schedule|, t)
    requires Executing(At(threads, schedule, |schedule|).th[t])
    ensures CaughtUp(threads, schedule, i)
  {
    assert schedule[..|schedule|] == schedule;
    hide Inv, Step, Awaited, Listed, Log, InSync, Ordered, Run, Executing;
    ReachedInv(threads, schedule);
    ExecutionOrder(threads, schedule);
    var s := Reached(threads, schedule);
    ExecutingAwaits(s, t, |At(threads, schedule, i).nodes|, Runs(threads, schedule, i, |schedule|, t));
    assert |Items(s.nodes, |s.started|)| == |s.started|;
  }

  // A run in which a synchronous call overtakes an item that its own thread pushed before.

  const Three: set<Tid> := {0, 1, 2}

  /** Extends a schedule by one step of `t`. */
  lemma Turn(schedule: seq<(Tid, Call)>, s: State, t: Tid, call: Call)
    returns (schedule': seq<(Tid, Call)>, s': State)
    requires Reached(Three, schedule) == s && t in s.th
    ensures s' == Step(s, t, call) && Reached(Three, schedule') == s' && schedule' == schedule + [(t, call)]
  {
    RunAppend(Init(Three), schedule, t, call);
    schedule', s' := schedule + [(t, call)], Step(s, t, call);
  }

  /** A state of the three threads of the run, with one item pushed and nothing started. */
  function Scene(head: int, tail: int, running: nat, suspend: nat, lock: Lock, clients: nat, owner: int, p0: Pc, p1: Pc)
    : State
  {
    State([Node(0, false, NULL)], head, tail, running, suspend, lock, {}, map[0 := p0, 1 := p1, 2 := Idle],
          clients, owner, [])
  }

  /** Thread 0 pushes an item. */
  lemma Pushes() returns (schedule: seq<(Tid, Call)>, s: State)
    ensures Reached(Three, schedule) == s
    ensures s == Scene(0, 0, 0, 0, Unlocked, 0, NULL, Wake(WakeSuspend, NULL), Idle)
  {
    schedule, s := [], Init(Three);
    assert s == State([], NULL, NULL, 0, 0, Unlocked, {}, map[0 := Idle, 1 := Idle, 2 := Idle], 0, NULL, []);
    RunsNowhere(s);
    hide Run, Reached, Init;
    schedule, s := Turn(schedule, s, 0, Async);
    schedule, s := Turn(schedule, s, 0, Async);
    assert s == Scene(NULL, 0, 0, 0, Unlocked, 0, NULL, PushHead(0, false), Idle);
    schedule, s := Turn(schedule, s, 0, Async);
  }

  /** The queue goes to its target, and thread 0 has returned. */
  lemma Wakes() returns (schedule: seq<(Tid, Call)>, s: State)
    ensures Reached(Three, schedule) == s
    ensures s == Scene(0, 0, 0, 1, OnTarget, 0, NULL, Idle, Idle)
  {
    hide Run, Reached, Init;
    schedule, s := Pushes();
    schedule, s := Turn(schedule, s, 0, Async);
    assert s == Scene(0, 0, 0, 0, Unlocked, 0, NULL, Wake(WakeTail, NULL), Idle);
    schedule, s := Turn(schedule, s, 0, Async);
    assert s == Scene(0, 0, 0, 0, Unlocked, 0, NULL, Wake(WakeLock, NULL), Idle);
    schedule, s := Turn(schedule, s, 0, Async);
  }

  /** Thread 1 begins to drain. */
  lemma Drains() returns (schedule: seq<(Tid, Call)>, s: State)
    ensures Reached(Three, schedule) == s
    ensures s == Scene(0, 0, 1, 1, InvokedBy(1), 0, 1, Idle, Drain(DrainHead))
  {
    hide Run, Reached, Init;
    schedule, s := Wakes();
    schedule, s := Turn(schedule, s, 1, Invoke);
    assert s == Scene(0, 0, 0, 1, InvokedBy(1), 0, NULL, Idle, Door(InvSuspend));
    schedule, s := Turn(schedule, s, 1, Invoke);
    assert s == Scene(0, 0, 0, 1, InvokedBy(1), 0, NULL, Idle, Door(InvLock));
    schedule, s := Turn(schedule, s, 1, Invoke);
    assert s == Scene(0, 0, 1, 1, InvokedBy(1), 0, 1, Idle, Drain(DrainTail));
    schedule, s := Turn(schedule, s, 1, Invoke);
  }

  /** It finds the item and no successor. */
  lemma LooksAt() returns (schedule: seq<(Tid, Call)>, s: State)
    ensures Reached(Three, schedule) == s
    ensures s == Scene(NULL, 0, 1, 1, InvokedBy(1), 0, 1, Idle, Drain(DrainNext(0)))
  {
    hide Run, Reached, Init;
    schedule, s := Drains();
    schedule, s := Turn(schedule, s, 1, Invoke);
    assert s == Scene(0, 0, 1, 1, InvokedBy(1), 0, 1, Idle, Drain(DrainClear(0)));
    schedule, s := Turn(schedule, s, 1, Invoke);
  }

  /** It takes the item off the list, which is empty now. */
  lemma TakesOff() returns (schedule: seq<(Tid, Call)>, s: State)
    ensures Reached(Three, schedule) == s
    ensures s == Scene(NULL, NULL, 1, 1, InvokedBy(1), 0, 1, Idle, Drain(DrainSuspend(0, NULL)))
  {
    hide Run, Reached, Init;
    schedule, s := LooksAt();
    schedule, s := Turn(schedule, s, 1, Invoke);
    assert s == Scene(NULL, 0, 1, 1, InvokedBy(1), 0, 1, Idle, Drain(DrainSwing(0)));
    schedule, s := Turn(schedule, s, 1, Invoke);
  }

  /** Thread 0 has begun a synchronous call at step `i` and not returned since. */
  predicate Since(schedule: seq<(Tid, Call)>, i: nat) {
    && i < |schedule| && schedule[i] == (0, Sync)
    && (var s := At(Three, schedule, i); 0 in s.th && s.th[0] == Idle && |s.nodes| == 1)
    && forall k :: i < k <= |schedule| ==> 0 in At(Three, schedule, k).th && At(Three, schedule, k).th[0] != Idle
  }

  lemma TurnSince(schedule: seq<(Tid, Call)>, s: State, i: nat, t: Tid, call: Call)
    returns (schedule': seq<(Tid, Call)>, s': State)
    requires Reached(Three, schedule) == s && t in s.th && Since(schedule, i)
    requires 0 in Step(s, t, call).th && Step(s, t, call).th[0] != Idle
    ensures s' == Step(s, t, call) && Reached(Three, schedule') == s' && Since(schedule', i)
  {
    hide Step, Reached;
    schedule', s' := Turn(schedule, s, t, call);
    assert schedule'[..|schedule'|] == schedule';
    forall k | i < k <= |schedule'| ensures 0 in At(Three, schedule', k).th && At(Three, schedule', k).th[0] != Idle {
      if k < |schedule'| {
        assert schedule'[..k] == schedule[..k];
        assert 0 in At(Three, schedule, k).th && At(Three, schedule, k).th[0] != Idle;
      }
    }
    assert schedule'[..i] == schedule[..i];
  }

  /** Thread 0 begins a synchronous call. */
  lemma BeginsLate() returns (schedule: seq<(Tid, Call)>, s: State, i: nat)
    ensures Reached(Three, schedule) == s && Since(schedule, i)
    ensures s == Scene(NULL, NULL, 1, 1, InvokedBy(1), 0, 1, Try(FastTail), Drain(DrainSuspend(0, NULL)))
  {
    hide Run, Reached, Init;
    schedule, s := TakesOff();
    i := |schedule|;
    ghost var before := schedule;
    assert before[..i] == before;
    schedule, s := Turn(schedule, s, 0, Sync);
    assert schedule[..i] == before && schedule[..i + 1] == schedule;
  }

  /** It finds no tail and no suspension, and only then the queue is suspended. */
  lemma Passes() returns (schedule: seq<(Tid, Call)>, s: State, i: nat)
    ensures Reached(Three, schedule) == s && Since(schedule, i)
    ensures s == Scene(NULL, NULL, 1, 3, InvokedBy(1), 1, 1, Try(FastLock), Drain(DrainSuspend(0, NULL)))
  {
    hide Run, Reached, Init, Since;
    schedule, s, i := BeginsLate();
    schedule, s := TurnSince(schedule, s, i, 0, Sync);
    assert s == Scene(NULL, NULL, 1, 1, InvokedBy(1), 0, 1, Try(FastSuspend), Drain(DrainSuspend(0, NULL)));
    schedule, s := TurnSince(schedule, s, i, 0, Sync);
    assert s == Scene(NULL, NULL, 1, 1, InvokedBy(1), 0, 1, Try(FastLock), Drain(DrainSuspend(0, NULL)));
    schedule, s := TurnSince(schedule, s, i, 2, Suspend);
  }

  /** The drain finds the queue suspended and puts the item back. */
  lemma FindsSuspension() returns (schedule: seq<(Tid, Call)>, s: State, i: nat)
    ensures Reached(Three, schedule) == s && Since(schedule, i)
    ensures s == Scene(NULL, 0, 1, 3, InvokedBy(1), 1, 1, Try(FastLock), Drain(OutHead(0, NULL)))
  {
    hide Run, Reached, Init, Since;
    schedule, s, i := Passes();
    schedule, s := TurnSince(schedule, s, i, 1, Invoke);
    assert s == Scene(NULL, NULL, 1, 3, InvokedBy(1), 1, 1, Try(FastLock), Drain(OutTail(0)));
    schedule, s := TurnSince(schedule, s, i, 1, Invoke);
  }

  /** It leaves. */
  lemma PutBackAgain() returns (schedule: seq<(Tid, Call)>, s: State, i: nat)
    ensures Reached(Three, schedule) == s && Since(schedule, i)
    ensures s == Scene(0, 0, 0, 3, InvokedBy(1), 1, NULL, Try(FastLock), Door(InvUnlock))
  {
    hide Run, Reached, Init, Since;
    schedule, s, i := FindsSuspension();
    schedule, s := TurnSince(schedule, s, i, 1, Invoke);
    assert s == Scene(0, 0, 1, 3, InvokedBy(1), 1, 1, Try(FastLock), Drain(InvDec(NULL)));
    schedule, s := TurnSince(schedule, s, i, 1, Invoke);
  }

  /** The synchronous call executes, and the item pushed before it has not been. */
  lemma Overtakes() returns (schedule: seq<(Tid, Call)>, i: nat)
    ensures Arrived(Three, schedule, i, 0) && !CaughtUp(Three, schedule, i)
  {
    hide Run, Reached, Init;
    var s;
    schedule, s, i := PutBackAgain();
    hide Since;
    schedule, s := TurnSince(schedule, s, i, 0, Sync);
    assert s == Scene(0, 0, 1, 3, InvokedBy(1), 1, 0, Hold(FastRun), Door(InvUnlock));
    Overtaken(schedule, s, i);
  }

  lemma Overtaken(schedule: seq<(Tid, Call)>, s: State, i: nat)
    requires Reached(Three, schedule) == s && Since(schedule, i) && 0 in s.th && s.th[0] == Hold(FastRun)
    requires s.started == []
    ensures Arrived(Three, schedule, i, 0) && !CaughtUp(Three, schedule, i)
  {
    assert schedule[..|schedule|] == schedule;
    hide Run, Log, Listed, Awaited, Reached;
    ExecutionOrder(Three, schedule);
    assert |Items(s.nodes, 0)| == 0;
  }

  /** Runs in which the queue is suspended only if `suspends`. */
  ghost predicate SyncOrdered(suspends: bool) {
    forall threads, schedule, i, t ::
      Arrived(threads, schedule, i, t) && (suspends || NeverSuspends(schedule)) ==> CaughtUp(threads, schedule, i)
  }

  /**
    A synchronous call executes after everything that was pushed before it, in every run, if and only if nobody
    suspends the queue: a drain that is stopped by a suspension puts back an item that looked as if it had left.
  */
  lemma SyncOrderExactly(suspends: bool)
    ensures SyncOrdered(suspends) <==> !suspends
  {
    if suspends {
      hide Arrived, CaughtUp, NeverSuspends;
      var schedule, i := Overtakes();
    } else {
      forall threads, schedule, i, t | Arrived(threads, schedule, i, t) && NeverSuspends(schedule)
        ensures CaughtUp(threads, schedule, i)
      {
        SyncWaitsForEarlier(threads, schedule, i, t);
      }
    }
  }
}
