/**
  The futex semaphore: one 64-bit word packs the value (low half) and the number of waiters (high
  half). Signalers and waiters interleave one atomic access or system call at a time; a sleeping
  thread may also time out or be interrupted.
*/
module Futex {
  type Tid = nat
  const BASE: nat := 0x1_0000_0000
  const WORD: nat := 0x1_0000_0000_0000_0000
  const VALUE_MAX: nat := 0x7fff_ffff
  const SPINS: nat := 100

  /** What an idle thread does: signal, or wait with or without a timeout. */
  datatype Call = Signal | Wait(timed: bool)

  /** The kernel's part of a step: whom a wake finds, and how a sleep ends without one. */
  datatype Kernel = Wakes(who: Tid) | TimesOut | Interrupts

  /** Which _dispatch_futex_trywait is running; `woken` if a wake brought the thread back to it. */
  datatype Try = First | Loop(woken: bool) | Last

  datatype Ret = Ok | WouldBlock | TimedOut | Interrupted

  datatype Pc =
    | Idle
    | Crashed
    | SigRead
    | SigSwap(orig: nat)
    | SigWake
    | TryRead(try: Try, timed: bool)
    | TrySwap(try: Try, timed: bool, orig: nat)
    | Spin(left: nat, timed: bool)
    | AddWaiter(timed: bool)
    | SysWait(timed: bool)
    | Asleep(timed: bool)
    | SubWaiter(timed: bool, ret: Ret)

  /** `posts` and `takes` are history: signals and waits that took effect on the value. */
  datatype State = State(word: nat, th: map<Tid, Pc>, posts: nat, takes: nat)

  function Init(threads: set<Tid>): State {
    State(0, map t | t in threads :: Idle, 0, 0)
  }

  function Value(s: State): nat { s.word % BASE }

  function Go(s: State, t: Tid, pc: Pc): State {
    s.(th := s.th[t := pc])
  }

  function Sleepers(s: State): set<Tid> {
    set u | u in s.th && s.th[u].Asleep?
  }

  /** A trywait that finds the value zero. */
  function TryFails(try: Try, timed: bool): Pc {
    match try
    case First => Spin(SPINS, timed)
    case Loop(_) => AddWaiter(timed)
    case Last => Idle
  }

  function AfterSub(timed: bool, ret: Ret): Pc {
    match ret
    case Ok => TryRead(Loop(true), timed)
    case WouldBlock => TryRead(if timed then Last else Loop(false), timed)
    case _ => Idle
  }

  function StepWake(s: State, t: Tid, k: Kernel): State {
    if Sleepers(s) == {} then Go(s, t, Idle)
    else if k.Wakes? && k.who in Sleepers(s) then
      Go(Go(s, k.who, SubWaiter(s.th[k.who].timed, Ok)), t, Idle)
    else s
  }

  /** One step of thread `t`. */
  function Step(s: State, t: Tid, call: Call, k: Kernel): State
    requires t in s.th
  {
    match s.th[t]
    case Idle => Go(s, t, match call case Signal => SigRead case Wait(timed) => TryRead(First, timed))
    case Crashed => s
    case SigRead => Go(s, t, if Value(s) == VALUE_MAX then Crashed else SigSwap(s.word))
    case SigSwap(orig) =>
      if s.word == orig then
        Go(s.(word := (orig + 1) % WORD, posts := s.posts + 1), t, if orig / BASE != 0 then SigWake else Idle)
      else Go(s, t, SigRead)
    case SigWake => StepWake(s, t, k)
    case TryRead(try, timed) =>
      Go(s, t, if Value(s) == 0 then TryFails(try, timed) else TrySwap(try, timed, s.word))
    case TrySwap(try, timed, orig) =>
      if s.word == orig then Go(s.(word := (orig - 1) % WORD, takes := s.takes + 1), t, Idle)
      else Go(s, t, TryRead(try, timed))
    case Spin(left, timed) =>
      Go(s, t, if left > 0 && s.word == 0 then Spin(left - 1, timed) else TryRead(Loop(false), timed))
    case AddWaiter(timed) => Go(s.(word := (s.word + BASE) % WORD), t, SysWait(timed))
    case SysWait(timed) => Go(s, t, if Value(s) == 0 then Asleep(timed) else SubWaiter(timed, WouldBlock))
    case Asleep(timed) =>
      if k == Interrupts then Go(s, t, SubWaiter(timed, Interrupted))
      else if k == TimesOut && timed then Go(s, t, SubWaiter(timed, TimedOut))
      else s
    case SubWaiter(timed, ret) => Go(s.(word := (s.word - BASE) % WORD), t, AfterSub(timed, ret))
  }

  function Run(s: State, schedule: seq<(Tid, Call, Kernel)>): State
    decreases |schedule|
  {
    if schedule == [] then s
    else
      var (t, call, k) := schedule[0];
      Run(if t in s.th then Step(s, t, call, k) else s, schedule[1..])
  }

  // ---------------------------------------------------------------------------------------------
  // Invariant
  // ---------------------------------------------------------------------------------------------

  predicate Counted(pc: Pc) {
    pc.SysWait? || pc.Asleep? || pc.SubWaiter?
  }

  /** A thread that a wake has released and that has not yet looked at the value again. */
  predicate Retrying(pc: Pc) {
    (pc.SubWaiter? && pc.ret == Ok) || (pc.TryRead? && pc.try == Loop(true)) || (pc.TrySwap? && pc.try == Loop(true))
  }

  /** A wake on its way to the kernel, or a released thread: each may still consume a unit. */
  predicate Rescues(pc: Pc) {
    pc.SigWake? || Retrying(pc)
  }

  function Waiters(s: State): set<Tid> {
    set u | u in s.th && Counted(s.th[u])
  }

  function Rescuers(s: State): set<Tid> {
    set u | u in s.th && Rescues(s.th[u])
  }

  predicate WordInv(s: State) {
    && |s.th| < BASE
    && s.takes <= s.posts <= s.takes + VALUE_MAX
    && s.word == |Waiters(s)| * BASE + (s.posts - s.takes)
  }

  predicate SwapInv(s: State) {
    forall u :: u in s.th ==>
      && (s.th[u].SigSwap? ==> s.th[u].orig < WORD && s.th[u].orig % BASE < VALUE_MAX)
      && (s.th[u].TrySwap? ==> s.th[u].orig < WORD && s.th[u].orig % BASE > 0)
  }

  predicate NoLoss(s: State) {
    Sleepers(s) != {} ==> s.posts - s.takes <= |Rescuers(s)|
  }

  predicate Inv(s: State) {
    WordInv(s) && SwapInv(s) && NoLoss(s)
  }

  lemma InitInv(threads: set<Tid>)
    requires |threads| < BASE
    ensures Inv(Init(threads))
  {
    var s := Init(threads);
    assert Waiters(s) == {} && Sleepers(s) == {} && s.th.Keys == threads;
  }

  function One(b: bool): nat {
    if b then 1 else 0
  }

  lemma Without(a: set<Tid>, t: Tid)
    ensures |a| == |a - {t}| + One(t in a)
  {
    assert a == (a - {t}) + (if t in a then {t} else {});
  }

  lemma Fits(s: State)
    ensures |Waiters(s)| <= |s.th|
  {
    assert Waiters(s) <= s.th.Keys;
    Included(Waiters(s), s.th.Keys);
    assert |s.th| == |s.th.Keys|;
  }

  lemma Included(a: set<Tid>, b: set<Tid>)
    requires a <= b
    ensures |a| <= |b|
  {
    assert b == a + (b - a);
  }

  /** The halves of the word are the number of waiters and the value. */
  lemma Halves(s: State)
    requires WordInv(s)
    ensures s.word % BASE == s.posts - s.takes == Value(s) && s.word / BASE == |Waiters(s)|
    ensures s.word < WORD
  {
    Fits(s);
  }

  predicate Moved(s: State, s': State, t: Tid) {
    t in s.th && t in s'.th && s'.th == s.th[t := s'.th[t]]
  }

  lemma WaitersMove(s: State, s': State, t: Tid)
    requires Moved(s, s', t)
    ensures |Waiters(s')| + One(Counted(s.th[t])) == |Waiters(s)| + One(Counted(s'.th[t]))
    ensures |s'.th| == |s.th|
  {
    assert Waiters(s') - {t} == Waiters(s) - {t};
    Without(Waiters(s), t);
    Without(Waiters(s'), t);
    assert s'.th.Keys == s.th.Keys;
    assert |s'.th| == |s'.th.Keys| && |s.th| == |s.th.Keys|;
  }

  lemma RescuersMove(s: State, s': State, t: Tid)
    requires Moved(s, s', t)
    ensures |Rescuers(s')| + One(Rescues(s.th[t])) == |Rescuers(s)| + One(Rescues(s'.th[t]))
  {
    assert Rescuers(s') - {t} == Rescuers(s) - {t};
    Without(Rescuers(s), t);
    Without(Rescuers(s'), t);
  }

  /** A step of `t` alone keeps the inequality if it pays for every unit it leaves behind. */
  lemma NoLossMove(s: State, s': State, t: Tid)
    requires NoLoss(s) && Moved(s, s', t)
    requires s'.th[t].Asleep? && !s.th[t].Asleep? ==> s'.posts == s'.takes
    requires s'.posts == s'.takes ||
             s'.posts - s'.takes + One(Rescues(s.th[t])) <= s.posts - s.takes + One(Rescues(s'.th[t]))
             || Sleepers(s) == {}
    ensures NoLoss(s')
  {
    RescuersMove(s, s', t);
    assert forall u :: u in Sleepers(s') ==> u in Sleepers(s) || (u == t && !s.th[t].Asleep?);
  }

  lemma SleepersWait(s: State)
    requires |Waiters(s)| == 0
    ensures Sleepers(s) == {}
  {
    assert Sleepers(s) <= Waiters(s);
  }

  /** The two exchanges: one unit more, or one unit less, in the low half. */
  lemma SwapWord(s: State, t: Tid, call: Call, k: Kernel)
    requires WordInv(s) && SwapInv(s) && t in s.th && (s.th[t].SigSwap? || s.th[t].TrySwap?)
    ensures WordInv(Step(s, t, call, k))
  {
    Halves(s);
    WaitersMove(s, Step(s, t, call, k), t);
    hide Waiters;
  }

  /** The waiter count: one waiter more, or one less, in the high half. */
  lemma CountWord(s: State, t: Tid, call: Call, k: Kernel)
    requires WordInv(s) && t in s.th && (s.th[t].AddWaiter? || s.th[t].SubWaiter?)
    ensures WordInv(Step(s, t, call, k))
  {
    var s' := Step(s, t, call, k);
    Halves(s);
    WaitersMove(s, s', t);
    Fits(s');
    hide Waiters;
  }

  lemma OtherWord(s: State, t: Tid, call: Call, k: Kernel)
    requires WordInv(s) && t in s.th && !s.th[t].SigWake?
    requires !s.th[t].SigSwap? && !s.th[t].TrySwap? && !s.th[t].AddWaiter? && !s.th[t].SubWaiter?
    ensures WordInv(Step(s, t, call, k))
  {
    WaitersMove(s, Step(s, t, call, k), t);
    hide Waiters;
  }

  lemma StepSwap(s: State, t: Tid, call: Call, k: Kernel)
    requires WordInv(s) && SwapInv(s) && t in s.th && !s.th[t].SigWake?
    ensures SwapInv(Step(s, t, call, k))
  {
    Halves(s);
    hide Waiters;
  }

  /** A signal that sees no waiter leaves no sleeper behind; one that sees a waiter owes a wake. */
  lemma SignalNoLoss(s: State, t: Tid, call: Call, k: Kernel)
    requires WordInv(s) && NoLoss(s) && t in s.th && s.th[t].SigSwap?
    ensures NoLoss(Step(s, t, call, k))
  {
    Halves(s);
    if |Waiters(s)| == 0 { SleepersWait(s); }
    var seen := s.word / BASE != 0;
    assert !seen ==> Sleepers(s) == {};
    hide WordInv, Waiters, Sleepers, Rescuers, NoLoss;
    var s' := Step(s, t, call, k);
    assert s.word == s.th[t].orig ==> s'.th[t] == if seen then SigWake else Idle;
    assert s.word == s.th[t].orig ==> s'.posts == s.posts + 1 && s'.takes == s.takes;
    assert s.word != s.th[t].orig ==> s'.posts == s.posts && s'.takes == s.takes && s'.th[t] == SigRead;
    assert Moved(s, s', t);
    hide Step;
    NoLossMove(s, s', t);
  }

  lemma OtherNoLoss(s: State, t: Tid, call: Call, k: Kernel)
    requires Value(s) == s.posts - s.takes >= 0 && NoLoss(s) && t in s.th && !s.th[t].SigWake? && !s.th[t].SigSwap?
    requires s.th[t].TrySwap? && s.word == s.th[t].orig ==> Value(s) > 0
    ensures NoLoss(Step(s, t, call, k))
  {
    hide Sleepers, Rescuers, NoLoss, Value;
    NoLossMove(s, Step(s, t, call, k), t);
  }

  lemma StepNoLoss(s: State, t: Tid, call: Call, k: Kernel)
    requires WordInv(s) && SwapInv(s) && NoLoss(s) && t in s.th && !s.th[t].SigWake?
    ensures NoLoss(Step(s, t, call, k))
  {
    Halves(s);
    hide NoLoss, Step, Waiters;
    if s.th[t].SigSwap? { SignalNoLoss(s, t, call, k); } else { OtherNoLoss(s, t, call, k); }
  }

  lemma StepKeeps(s: State, t: Tid, call: Call, k: Kernel)
    requires Inv(s) && t in s.th && !s.th[t].SigWake?
    ensures Inv(Step(s, t, call, k))
  {
    StepSwap(s, t, call, k);
    StepNoLoss(s, t, call, k);
    hide WordInv, SwapInv, NoLoss, Step;
    if s.th[t].SigSwap? || s.th[t].TrySwap? {
      SwapWord(s, t, call, k);
    } else if s.th[t].AddWaiter? || s.th[t].SubWaiter? {
      CountWord(s, t, call, k);
    } else {
      OtherWord(s, t, call, k);
    }
  }

  /** A wake that finds a sleeper turns a pending wake into a released thread. */
  lemma WakeKeeps(s: State, t: Tid, k: Kernel)
    requires Inv(s) && t in s.th && s.th[t].SigWake?
    ensures Inv(StepWake(s, t, k)) && StepWake(s, t, k).th.Keys == s.th.Keys
  {
    var s' := StepWake(s, t, k);
    if Sleepers(s) == {} {
      WaitersMove(s, s', t);
      RescuersMove(s, s', t);
      assert Sleepers(s') == {};
    } else if k.Wakes? && k.who in Sleepers(s) {
      var s1 := Go(s, k.who, SubWaiter(s.th[k.who].timed, Ok));
      WaitersMove(s, s1, k.who);
      RescuersMove(s, s1, k.who);
      WaitersMove(s1, s', t);
      RescuersMove(s1, s', t);
      hide Waiters, Rescuers;
      assert Sleepers(s) != {};
    }
  }

  // ---------------------------------------------------------------------------------------------
  // Every run
  // ---------------------------------------------------------------------------------------------

  lemma AnyStepKeeps(s: State, t: Tid, call: Call, k: Kernel)
    requires Inv(s) && t in s.th
    ensures Inv(Step(s, t, call, k)) && Step(s, t, call, k).th.Keys == s.th.Keys
  {
    hide Inv;
    if s.th[t].SigWake? { WakeKeeps(s, t, k); } else { StepKeeps(s, t, call, k); }
  }

  lemma {:induction false} RunKeeps(s: State, schedule: seq<(Tid, Call, Kernel)>)
    requires Inv(s)
    ensures Inv(Run(s, schedule)) && Run(s, schedule).th.Keys == s.th.Keys
    decreases |schedule|
  {
    hide Inv, Step;
    if schedule != [] {
      var (t, call, k) := schedule[0];
      if t in s.th {
        AnyStepKeeps(s, t, call, k);
      }
      RunKeeps(if t in s.th then Step(s, t, call, k) else s, schedule[1..]);
    }
  }

  function Reached(threads: set<Tid>, schedule: seq<(Tid, Call, Kernel)>): State {
    Run(Init(threads), schedule)
  }

  lemma ReachedInv(threads: set<Tid>, schedule: seq<(Tid, Call, Kernel)>)
    requires |threads| < BASE
    ensures Inv(Reached(threads, schedule)) && Reached(threads, schedule).th.Keys == threads
  {
    hide Inv;
    InitInv(threads);
    RunKeeps(Init(threads), schedule);
  }

  /**
    No lost wakeup: while a thread sleeps, every unit of the value is matched by a wake on its way to
    the kernel or by a released thread that has not looked again.
  */
  lemma NoLostWakeup(threads: set<Tid>, schedule: seq<(Tid, Call, Kernel)>)
    requires |threads| < BASE
    ensures var s := Reached(threads, schedule);
            Sleepers(s) != {} ==> Value(s) <= |Rescuers(s)|
  {
    ReachedInv(threads, schedule);
    Halves(Reached(threads, schedule));
  }

  /** When every thread is idle or asleep, a positive value means that nobody sleeps. */
  lemma NobodySleepsOnAUnit(threads: set<Tid>, schedule: seq<(Tid, Call, Kernel)>)
    requires |threads| < BASE
    ensures var s := Reached(threads, schedule);
            (forall u :: u in s.th ==> s.th[u].Idle? || s.th[u].Asleep?) ==> Sleepers(s) == {} || Value(s) == 0
  {
    NoLostWakeup(threads, schedule);
    var s := Reached(threads, schedule);
    hide Run, Reached, Init;
    if forall u :: u in s.th ==> s.th[u].Idle? || s.th[u].Asleep? {
      assert Rescuers(s) == {};
    }
  }

  /** The value is exactly the signals minus the waits, and never carries into the waiter count. */
  lemma HalvesStayApart(threads: set<Tid>, schedule: seq<(Tid, Call, Kernel)>)
    requires |threads| < BASE
    ensures var s := Reached(threads, schedule);
            && Value(s) == s.posts - s.takes <= VALUE_MAX
            && s.word / BASE == |Waiters(s)| && s.word < WORD
  {
    ReachedInv(threads, schedule);
    Halves(Reached(threads, schedule));
  }

  // ---------------------------------------------------------------------------------------------
  // Calls, followed along a schedule
  // ---------------------------------------------------------------------------------------------

  /** The state after the first `n` steps of a schedule. */
  function At(threads: set<Tid>, schedule: seq<(Tid, Call, Kernel)>, n: nat): State
    requires n <= |schedule|
  {
    Reached(threads, schedule[..n])
  }

  lemma {:induction false} RunAppend(s: State, schedule: seq<(Tid, Call, Kernel)>, t: Tid, call: Call, k: Kernel)
    ensures var r := Run(s, schedule);
            Run(s, schedule + [(t, call, k)]) == if t in r.th then Step(r, t, call, k) else r
    decreases |schedule|
  {
    hide Step;
    var more := schedule + [(t, call, k)];
    if schedule == [] {
      assert more[1..] == [];
    } else {
      var (u, c, a) := schedule[0];
      assert more[1..] == schedule[1..] + [(t, call, k)];
      RunAppend(if u in s.th then Step(s, u, c, a) else s, schedule[1..], t, call, k);
    }
  }

  lemma SameThreads(s: State, t: Tid, call: Call, k: Kernel)
    requires t in s.th
    ensures Step(s, t, call, k).th.Keys == s.th.Keys
  {
  }

  lemma {:induction false} RunThreads(s: State, schedule: seq<(Tid, Call, Kernel)>)
    ensures Run(s, schedule).th.Keys == s.th.Keys
    decreases |schedule|
  {
    hide Step;
    if schedule != [] {
      var (t, call, k) := schedule[0];
      if t in s.th { SameThreads(s, t, call, k); }
      RunThreads(if t in s.th then Step(s, t, call, k) else s, schedule[1..]);
    }
  }

  /** One step further along a schedule. */
  lemma Next(threads: set<Tid>, schedule: seq<(Tid, Call, Kernel)>, n: nat)
    requires n < |schedule|
    ensures var (t, call, k) := schedule[n];
            var s, s' := At(threads, schedule, n), At(threads, schedule, n + 1);
            && s.th.Keys == threads == s'.th.Keys
            && s' == if t in threads then Step(s, t, call, k) else s
  {
    RunThreads(Init(threads), schedule[..n]);
    RunThreads(Init(threads), schedule[..n + 1]);
    hide Run, Step;
    var (t, call, k) := schedule[n];
    RunAppend(Init(threads), schedule[..n], t, call, k);
    assert schedule[..n + 1] == schedule[..n] + [(t, call, k)];
  }

  /** Between the steps `i` and `j` thread `t` makes one such call and returns from it. */
  predicate Calls(threads: set<Tid>, schedule: seq<(Tid, Call, Kernel)>, i: nat, j: nat, t: Tid, call: Call)
    requires i < j <= |schedule|
  {
    && t in At(threads, schedule, i).th && At(threads, schedule, i).th[t] == Idle
    && schedule[i].0 == t && schedule[i].1 == call
    && (forall n :: i < n < j ==> t in At(threads, schedule, n).th && At(threads, schedule, n).th[t] != Idle)
    && t in At(threads, schedule, j).th && At(threads, schedule, j).th[t] == Idle
  }

  /** A step of `t` takes a unit of the value, or adds one. */
  predicate Takes(s: State, t: Tid) {
    t in s.th && s.th[t].TrySwap? && s.word == s.th[t].orig
  }

  predicate Posts(s: State, t: Tid) {
    t in s.th && s.th[t].SigSwap? && s.word == s.th[t].orig
  }

  /** How many units `t` has taken, and added, by the steps from `i` to `j`. */
  function Taken(threads: set<Tid>, schedule: seq<(Tid, Call, Kernel)>, i: nat, j: nat, t: Tid): nat
    requires i <= j <= |schedule|
  {
    if i == j then 0
    else Taken(threads, schedule, i, j - 1, t) +
         if schedule[j - 1].0 == t && Takes(At(threads, schedule, j - 1), t) then 1 else 0
  }

  function Posted(threads: set<Tid>, schedule: seq<(Tid, Call, Kernel)>, i: nat, j: nat, t: Tid): nat
    requires i <= j <= |schedule|
  {
    if i == j then 0
    else Posted(threads, schedule, i, j - 1, t) +
         if schedule[j - 1].0 == t && Posts(At(threads, schedule, j - 1), t) then 1 else 0
  }

  /** At step `n` the wait of `t` is interrupted, runs out of time, or finds nothing at its last try. */
  predicate GivesUp(threads: set<Tid>, schedule: seq<(Tid, Call, Kernel)>, n: nat, t: Tid, timed: bool)
    requires n < |schedule|
  {
    var s := At(threads, schedule, n);
    && schedule[n].0 == t && t in s.th
    && ((s.th[t].Asleep? && schedule[n].2 == Interrupts)
        || (timed && s.th[t].Asleep? && schedule[n].2 == TimesOut)
        || (timed && s.th[t].TryRead? && s.th[t].try == Last && Value(s) == 0))
  }

  /** Where a thread stands in a wait that has taken nothing; `over` if it has given up. */
  predicate Waits(pc: Pc, timed: bool, over: bool) {
    match pc
    case TryRead(try, m) => m == timed && (try == Last ==> timed) && !over
    case TrySwap(try, m, _) => m == timed && (try == Last ==> timed) && !over
    case Spin(_, m) => m == timed && !over
    case AddWaiter(m) => m == timed && !over
    case SysWait(m) => m == timed && !over
    case Asleep(m) => m == timed && !over
    case SubWaiter(m, ret) => m == timed && (over <==> ret == TimedOut || ret == Interrupted)
    case _ => false
  }

  lemma WaitStep(s: State, u: Tid, call: Call, k: Kernel, t: Tid, timed: bool, over: bool)
    requires u in s.th && t in s.th && Waits(s.th[t], timed, over)
    ensures var s' := Step(s, u, call, k);
            var quits := s.th[t].Asleep? && (k == Interrupts || (timed && k == TimesOut));
            && t in s'.th
            && (u != t ==> Waits(s'.th[t], timed, over))
            && (u == t ==> if s'.th[t] == Idle then
                             over || Takes(s, t) || (timed && s.th[t].TryRead? && s.th[t].try == Last && Value(s) == 0)
                           else !Takes(s, t) && Waits(s'.th[t], timed, over || quits))
  {
  }

  lemma WaitsAwake(pc: Pc, timed: bool, over: bool)
    requires Waits(pc, timed, over)
    ensures pc != Idle
  {
  }

  lemma BeginsCall(s: State, t: Tid, call: Call, k: Kernel)
    requires t in s.th && s.th[t] == Idle
    ensures var s' := Step(s, t, call, k);
            && t in s'.th && s'.word == s.word && s'.th[t] != Idle && !Takes(s, t) && !Posts(s, t)
            && (call.Wait? ==> Waits(s'.th[t], call.timed, false))
            && (call == Signal ==> Signals(s'.th[t], 0))
  {
  }

  /** The wait so far: nothing is taken yet, and it has given up at some step if it is over. */
  ghost predicate WaitsTill(threads: set<Tid>, schedule: seq<(Tid, Call, Kernel)>, i: nat, n: nat, t: Tid, timed: bool)
    requires i < n <= |schedule|
  {
    && t in At(threads, schedule, n).th && Taken(threads, schedule, i, n, t) == 0
    && exists over :: Waits(At(threads, schedule, n).th[t], timed, over)
                      && (over ==> exists m :: i < m < n && GivesUp(threads, schedule, m, t, timed))
  }

  lemma WaitNext(threads: set<Tid>, schedule: seq<(Tid, Call, Kernel)>, i: nat, n: nat, t: Tid, timed: bool)
    requires i < n < |schedule| && WaitsTill(threads, schedule, i, n, t, timed) && t in threads
    ensures if t in At(threads, schedule, n + 1).th && At(threads, schedule, n + 1).th[t] == Idle then
              || Taken(threads, schedule, i, n + 1, t) == 1
              || (Taken(threads, schedule, i, n + 1, t) == 0
                  && exists m :: i < m <= n && GivesUp(threads, schedule, m, t, timed))
            else WaitsTill(threads, schedule, i, n + 1, t, timed)
  {
    hide At, Step, Waits;
    Next(threads, schedule, n);
    var (u, call, k) := schedule[n];
    var s := At(threads, schedule, n);
    var over :| Waits(s.th[t], timed, over)
                && (over ==> exists m :: i < m < n && GivesUp(threads, schedule, m, t, timed));
    WaitsAwake(s.th[t], timed, over);
    if u in threads {
      WaitStep(s, u, call, k, t, timed, over);
      if u != t { WaitsAwake(At(threads, schedule, n + 1).th[t], timed, over); }
      if u == t && GivesUp(threads, schedule, n, t, timed) {
        assert exists m :: i < m < n + 1 && GivesUp(threads, schedule, m, t, timed);
      }
    }
  }

  /**
    A wait returns either with exactly one unit, or with none after it was interrupted; only a timed one also
    when its time was up or its last try found nothing.
  */
  lemma WaitEnds(threads: set<Tid>, schedule: seq<(Tid, Call, Kernel)>, i: nat, j: nat, t: Tid, timed: bool)
    requires i < j <= |schedule| && Calls(threads, schedule, i, j, t, Wait(timed))
    ensures || Taken(threads, schedule, i, j, t) == 1
            || (Taken(threads, schedule, i, j, t) == 0
                && exists m :: i < m < j && GivesUp(threads, schedule, m, t, timed))
  {
    hide At, Step, WaitsTill, Waits;
    Next(threads, schedule, i);
    WaitBegins(threads, schedule, i, j, t, timed);
    var n := i + 1;
    while n + 1 < j
      invariant i < n < j && WaitsTill(threads, schedule, i, n, t, timed)
    {
      WaitNext(threads, schedule, i, n, t, timed);
      n := n + 1;
    }
    WaitNext(threads, schedule, i, n, t, timed);
  }

  lemma WaitBegins(threads: set<Tid>, schedule: seq<(Tid, Call, Kernel)>, i: nat, j: nat, t: Tid, timed: bool)
    requires i < j <= |schedule| && Calls(threads, schedule, i, j, t, Wait(timed))
    ensures WaitsTill(threads, schedule, i, i + 1, t, timed) && i + 1 < j
  {
    hide At, Step, Waits;
    Next(threads, schedule, i);
    BeginsCall(At(threads, schedule, i), t, Wait(timed), schedule[i].2);
    assert Taken(threads, schedule, i, i, t) == 0;
  }

  /** Where a thread stands in a signal that has added so many units. */
  predicate Signals(pc: Pc, n: nat) {
    if n == 0 then pc.SigRead? || pc.SigSwap? || pc.Crashed? else n == 1 && pc.SigWake?
  }

  lemma SignalStep(s: State, u: Tid, call: Call, k: Kernel, t: Tid, n: nat)
    requires u in s.th && t in s.th && Signals(s.th[t], n)
    ensures var s' := Step(s, u, call, k);
            var more := n + if u == t && Posts(s, t) then 1 else 0;
            t in s'.th && if s'.th[t] == Idle then more == 1 else Signals(s'.th[t], more)
  {
  }

  /** A signal that returns has added exactly one unit. */
  lemma SignalEnds(threads: set<Tid>, schedule: seq<(Tid, Call, Kernel)>, i: nat, j: nat, t: Tid)
    requires i < j <= |schedule| && Calls(threads, schedule, i, j, t, Signal)
    ensures Posted(threads, schedule, i, j, t) == 1
  {
    hide At, Step, Signals, Posts;
    Next(threads, schedule, i);
    BeginsCall(At(threads, schedule, i), t, Signal, schedule[i].2);
    assert Posted(threads, schedule, i, i, t) == 0;
    var n := i + 1;
    while n < j
      invariant i < n <= j && t in threads && t in At(threads, schedule, n).th
      invariant if At(threads, schedule, n).th[t] == Idle then Posted(threads, schedule, i, n, t) == 1
                else Signals(At(threads, schedule, n).th[t], Posted(threads, schedule, i, n, t))
    {
      SignalNext(threads, schedule, i, n, t);
      n := n + 1;
    }
  }

  lemma SignalNext(threads: set<Tid>, schedule: seq<(Tid, Call, Kernel)>, i: nat, n: nat, t: Tid)
    requires i < n < |schedule| && t in threads && t in At(threads, schedule, n).th
    requires Signals(At(threads, schedule, n).th[t], Posted(threads, schedule, i, n, t))
    ensures t in At(threads, schedule, n + 1).th
    ensures if At(threads, schedule, n + 1).th[t] == Idle then Posted(threads, schedule, i, n + 1, t) == 1
            else Signals(At(threads, schedule, n + 1).th[t], Posted(threads, schedule, i, n + 1, t))
  {
    hide At, Step, Signals, Posts;
    Next(threads, schedule, n);
    var (u, call, k) := schedule[n];
    if u in threads {
      SignalStep(At(threads, schedule, n), u, call, k, t, Posted(threads, schedule, i, n, t));
    } else {
      NotIdle(At(threads, schedule, n).th[t], Posted(threads, schedule, i, n, t));
    }
  }

  lemma NotIdle(pc: Pc, n: nat)
    requires Signals(pc, n)
    ensures pc != Idle
  {
  }
}
