/**
  Timer sources: the manager keeps one list per clock, ordered by target, and a list of disarmed
  timers. Firing adds the intervals passed to a timer's pending data; latching hands that data, with
  the intervals passed since, to the event handler. Each method is one run on the manager queue, or
  one latch on the timer's own queue.
*/
module Timers {
  import Division

  type Id = nat

  const WALL: nat := 0
  const MACH: nat := 1
  const DISARM: nat := 2
  const INT_MAX: nat := 0x7fff_ffff
  const WORD: nat := 0x1_0000_0000_0000_0000
  const TIME_MAX: nat := 0x7fff_ffff_ffff_ffff
  /** About a year, in nanoseconds: the longest wait worth asking the kernel for. */
  const FOREVER: nat := 31536000000000000

  datatype Option<T> = None | Some(value: T)

  /** Not yet registered, on a list, or unregistered for good. */
  datatype Place = New | On(list: nat) | Gone

  datatype Timer = Timer(target: nat, lastFire: nat, interval: nat, missed: nat, wall: bool, ident: nat,
                         pending: nat, suspended: bool, place: Place)

  function Clock(t: Timer): nat {
    if t.wall then WALL else MACH
  }

  // ---------------------------------------------------------------------------------------------
  // Lists
  // ---------------------------------------------------------------------------------------------

  function Index(s: seq<Id>, id: Id): (i: nat)
    requires id in s
    ensures i < |s| && s[i] == id
  {
    if s[0] == id then 0 else 1 + Index(s[1..], id)
  }

  function Without(s: seq<Id>, id: Id): seq<Id> {
    if id in s then s[..Index(s, id)] + s[Index(s, id) + 1..] else s
  }

  predicate Distinct(s: seq<Id>) {
    forall i, j :: 0 <= i < j < |s| ==> s[i] != s[j]
  }

  /** Position `i` of a list from which position `p` was taken. */
  function Skip(p: nat, i: nat): nat {
    if i < p then i else i + 1
  }

  lemma WithoutAt(s: seq<Id>, id: Id, i: nat)
    requires id in s && i < |s| - 1
    ensures |Without(s, id)| == |s| - 1 && Without(s, id)[i] == s[Skip(Index(s, id), i)]
  {
  }

  /** Removing an element of a list without repeats leaves every other one. */
  lemma WithoutHas(s: seq<Id>, id: Id, x: Id)
    requires Distinct(s)
    ensures x in Without(s, id) <==> x in s && x != id
  {
    if id in s {
      var p, w := Index(s, id), Without(s, id);
      if x in w {
        var i :| 0 <= i < |w| && w[i] == x;
        WithoutAt(s, id, i);
        assert s[Skip(p, i)] != s[p];
      }
      if x in s && x != id {
        var i :| 0 <= i < |s| && s[i] == x;
        WithoutAt(s, id, if i < p then i else i - 1);
        assert w[if i < p then i else i - 1] == x;
      }
    }
  }

  lemma WithoutDistinct(s: seq<Id>, id: Id)
    requires Distinct(s)
    ensures Distinct(Without(s, id))
  {
    if id in s {
      var p, w := Index(s, id), Without(s, id);
      forall i, j | 0 <= i < j < |w| ensures w[i] != w[j] {
        WithoutAt(s, id, i);
        WithoutAt(s, id, j);
        assert s[Skip(p, i)] != s[Skip(p, j)];
      }
    }
  }

  /** `id` put in at a position. */
  function Put(s: seq<Id>, p: nat, id: Id): seq<Id>
    requires p <= |s|
  {
    s[..p] + [id] + s[p..]
  }

  lemma {:induction false} IndexIs(s: seq<Id>, id: Id, p: nat)
    requires p < |s| && s[p] == id && id !in s[..p]
    ensures Index(s, id) == p
  {
    if p > 0 {
      assert s[0] in s[..p] && s[1..][..p - 1] == s[..p][1..];
      IndexIs(s[1..], id, p - 1);
    }
  }

  lemma PutHas(s: seq<Id>, p: nat, id: Id, x: Id)
    requires p <= |s|
    ensures x in Put(s, p, id) <==> x in s || x == id
  {
    assert s == s[..p] + s[p..];
    assert x in s <==> x in s[..p] || x in s[p..];
  }

  lemma PutDistinct(s: seq<Id>, p: nat, id: Id)
    requires p <= |s| && Distinct(s) && id !in s
    ensures Distinct(Put(s, p, id))
  {
    var t := Put(s, p, id);
    forall i, j | 0 <= i < j < |t| ensures t[i] != t[j] {
      var i', j' := if i < p then i else i - 1, if j < p then j else j - 1;
      if i == p {
        assert t[j] == s[j'];
      } else if j == p {
        assert t[i] == s[i'];
      } else {
        assert t[i] == s[i'] && t[j] == s[j'] && s[i'] != s[j'];
      }
    }
  }

  lemma PutWithout(s: seq<Id>, p: nat, id: Id)
    requires p <= |s| && id !in s
    ensures Without(Put(s, p, id), id) == s
  {
    var t := Put(s, p, id);
    assert t[..p] == s[..p] && t[p] == id && t[p + 1..] == s[p..] && s[..p] + s[p..] == s;
    IndexIs(t, id, p);
  }

  lemma PutProps(s: seq<Id>, p: nat, id: Id)
    requires p <= |s| && Distinct(s) && id !in s
    ensures Distinct(Put(s, p, id)) && Without(Put(s, p, id), id) == s
    ensures forall x :: x in Put(s, p, id) <==> x in s || x == id
  {
    hide Put, Distinct, Without;
    PutDistinct(s, p, id);
    PutWithout(s, p, id);
    forall x ensures x in Put(s, p, id) <==> x in s || x == id {
      PutHas(s, p, id, x);
    }
  }

  /** Every timer of the list has a target and belongs to the clock, and targets do not decrease. */
  predicate Armed(timers: seq<Timer>, s: seq<Id>, l: nat) {
    && (forall i :: 0 <= i < |s| ==> OnClock(timers, s[i], l))
    && (forall i, j :: 0 <= i < j < |s| ==> NotAfter(timers, s[i], s[j]))
  }

  predicate OnClock(timers: seq<Timer>, id: Id, l: nat) {
    id < |timers| && timers[id].target != 0 && timers[id].ident == Clock(timers[id]) == l
  }

  predicate NotAfter(timers: seq<Timer>, a: Id, b: Id) {
    a < |timers| && b < |timers| && timers[a].target <= timers[b].target
  }

  /** The head of an armed list is the minimum of its targets. */
  lemma HeadIsLeast(timers: seq<Timer>, s: seq<Id>, l: nat, id: Id)
    requires Armed(timers, s, l) && id in s
    ensures OnClock(timers, s[0], l) && NotAfter(timers, s[0], id)
  {
    var i :| 0 <= i < |s| && s[i] == id;
    assert OnClock(timers, s[i], l);
  }

  lemma ArmedPut(timers: seq<Timer>, s: seq<Id>, l: nat, p: nat, id: Id)
    requires Armed(timers, s, l) && p <= |s| && id < |timers|
    requires OnClock(timers, id, l)
    requires forall i :: 0 <= i < p ==> NotAfter(timers, s[i], id)
    requires forall i :: p <= i < |s| ==> !NotAfter(timers, s[i], id)
    ensures Armed(timers, Put(s, p, id), l)
  {
    var t := Put(s, p, id);
    assert forall i :: 0 <= i < |t| ==> t[i] == if i < p then s[i] else if i == p then id else s[i - 1];
  }

  /** Only the fields that order a list matter to it. */
  predicate SameKeys(timers: seq<Timer>, timers': seq<Timer>) {
    |timers'| == |timers| && forall k :: 0 <= k < |timers| ==>
      timers'[k].target == timers[k].target && timers'[k].ident == timers[k].ident && timers'[k].wall == timers[k].wall
  }

  lemma ArmedFrame(timers: seq<Timer>, timers': seq<Timer>, s: seq<Id>, l: nat)
    requires Armed(timers, s, l) && SameKeys(timers, timers')
    ensures Armed(timers', s, l)
  {
    forall i | 0 <= i < |s| ensures OnClock(timers', s[i], l) { assert OnClock(timers, s[i], l); }
    forall i, j | 0 <= i < j < |s| ensures NotAfter(timers', s[i], s[j]) { assert NotAfter(timers, s[i], s[j]); }
  }

  lemma ArmedWithout(timers: seq<Timer>, s: seq<Id>, l: nat, id: Id)
    requires Armed(timers, s, l)
    ensures Armed(timers, Without(s, id), l)
  {
    hide Index, OnClock, NotAfter;
    if id in s { ArmedCut(timers, s, l, Index(s, id)); }
  }

  /** An armed list with one position cut out is armed. */
  lemma ArmedCut(timers: seq<Timer>, s: seq<Id>, l: nat, p: nat)
    requires Armed(timers, s, l) && p < |s|
    ensures Armed(timers, s[..p] + s[p + 1..], l)
  {
    hide OnClock, NotAfter;
    var w := s[..p] + s[p + 1..];
    forall i | 0 <= i < |w| ensures OnClock(timers, w[i], l) {
      assert w[i] == s[Skip(p, i)];
    }
    forall i, j | 0 <= i < j < |w| ensures NotAfter(timers, w[i], w[j]) {
      assert w[i] == s[Skip(p, i)] && w[j] == s[Skip(p, j)];
    }
  }

  /** The timers of a list know that they are on it, and are on it once. */
  predicate ListOk(timers: seq<Timer>, s: seq<Id>, l: nat) {
    Distinct(s) && forall id :: id in s ==> id < |timers| && timers[id].place == On(l)
  }

  /** A timer is where it says. */
  predicate Found(timers: seq<Timer>, lists: seq<seq<Id>>, id: Id)
    requires id < |timers| && |lists| == 3
  {
    timers[id].place.On? ==> timers[id].place.list < 3 && id in lists[timers[id].place.list]
  }

  predicate AllListsOk(timers: seq<Timer>, lists: seq<seq<Id>>) {
    && |lists| == 3
    && ListOk(timers, lists[0], 0) && ListOk(timers, lists[1], 1) && ListOk(timers, lists[2], 2)
  }

  /** Timers and lists agree on which timer is where; `but` is on no list. */
  predicate PlacedBut(timers: seq<Timer>, lists: seq<seq<Id>>, but: Id) {
    && AllListsOk(timers, lists)
    && but !in lists[0] && but !in lists[1] && but !in lists[2]
    && forall id :: 0 <= id < |timers| && id != but ==> Found(timers, lists, id)
  }

  /** Timers and lists agree on which timer is where. */
  predicate Placed(timers: seq<Timer>, lists: seq<seq<Id>>) {
    AllListsOk(timers, lists) && forall id :: 0 <= id < |timers| ==> Found(timers, lists, id)
  }

  predicate Ordered(timers: seq<Timer>, lists: seq<seq<Id>>)
    requires |lists| == 3
  {
    Armed(timers, lists[WALL], WALL) && Armed(timers, lists[MACH], MACH)
  }

  /** The lists are in order apart from one timer, whose target may have changed. */
  predicate OrderedBut(timers: seq<Timer>, lists: seq<seq<Id>>, id: Id)
    requires |lists| == 3
  {
    Armed(timers, Without(lists[WALL], id), WALL) && Armed(timers, Without(lists[MACH], id), MACH)
  }

  function Detached(timers: seq<Timer>, lists: seq<seq<Id>>, id: Id): seq<seq<Id>>
    requires Placed(timers, lists) && id < |timers| && timers[id].place.On?
  {
    assert Found(timers, lists, id);
    var l := timers[id].place.list;
    lists[l := Without(lists[l], id)]
  }

  lemma NotThere(s: seq<Id>, id: Id)
    requires id !in s
    ensures Without(s, id) == s
  {
  }

  lemma ListWithout(timers: seq<Timer>, s: seq<Id>, l: nat, id: Id)
    requires ListOk(timers, s, l)
    ensures ListOk(timers, Without(s, id), l) && id !in Without(s, id)
  {
    WithoutDistinct(s, id);
    WithoutHas(s, id, id);
    hide Without, Distinct;
    forall x | x in Without(s, id) ensures x < |timers| && timers[x].place == On(l) {
      WithoutHas(s, id, x);
    }
  }

  lemma DetachKeeps(timers: seq<Timer>, lists: seq<seq<Id>>, id: Id)
    requires Placed(timers, lists) && id < |timers| && timers[id].place.On? && OrderedBut(timers, lists, id)
    ensures PlacedBut(timers, Detached(timers, lists, id), id) && Ordered(timers, Detached(timers, lists, id))
    ensures forall l :: 0 <= l < 3 ==> Detached(timers, lists, id)[l] == Without(lists[l], id)
  {
    hide Armed, Distinct, Without;
    assert Found(timers, lists, id);
    var l, lists' := timers[id].place.list, Detached(timers, lists, id);
    forall k | 0 <= k < 3
      ensures lists'[k] == Without(lists[k], id) && ListOk(timers, lists'[k], k) && id !in lists'[k]
    {
      ListWithout(timers, lists[k], k, id);
      if k != l { NotThere(lists[k], id); }
    }
    forall x | 0 <= x < |timers| && x != id ensures Found(timers, lists', x) {
      assert Found(timers, lists, x);
      if timers[x].place == On(l) { WithoutHas(lists[l], id, x); }
    }
  }

  /** The timer put on list `l` at position `p`. */
  function At(timers: seq<Timer>, id: Id, place: Place): seq<Timer>
    requires id < |timers|
  {
    timers[id := timers[id].(place := place)]
  }

  lemma AttachKeeps(timers: seq<Timer>, lists: seq<seq<Id>>, id: Id, l: nat, p: nat)
    requires PlacedBut(timers, lists, id) && id < |timers| && l < 3 && p <= |lists[l]|
    ensures Placed(At(timers, id, On(l)), lists[l := Put(lists[l], p, id)])
    ensures forall k :: 0 <= k < 3 ==> Without(lists[l := Put(lists[l], p, id)][k], id) == lists[k]
  {
    hide Put, Distinct, Without;
    PutProps(lists[l], p, id);
    var lists', timers' := lists[l := Put(lists[l], p, id)], At(timers, id, On(l));
    forall k | 0 <= k < 3 ensures ListOk(timers', lists'[k], k) && Without(lists'[k], id) == lists[k] {
      assert ListOk(timers, lists[k], k) && id !in lists[k];
      if k != l { NotThere(lists[k], id); }
    }
    forall x | 0 <= x < |timers'| ensures Found(timers', lists', x) {
      if x != id { assert Found(timers, lists, x); }
    }
  }

  lemma AttachOrdered(timers: seq<Timer>, lists: seq<seq<Id>>, id: Id, l: nat, p: nat)
    requires PlacedBut(timers, lists, id) && id < |timers| && l < 3 && p <= |lists[l]| && Ordered(timers, lists)
    requires l != DISARM ==>
               && OnClock(timers, id, l)
               && (forall i :: 0 <= i < p ==> NotAfter(timers, lists[l][i], id))
               && (forall i :: p <= i < |lists[l]| ==> !NotAfter(timers, lists[l][i], id))
    ensures Ordered(At(timers, id, On(l)), lists[l := Put(lists[l], p, id)])
  {
    var lists' := lists[l := Put(lists[l], p, id)];
    forall k | 0 <= k < 2 ensures Armed(At(timers, id, On(l)), lists'[k], k) {
      if k == l { ArmedPut(timers, lists[l], l, p, id); }
      ArmedFrame(timers, At(timers, id, On(l)), lists'[k], k);
    }
  }

  /** A timer that is on no list leaves the lists in order. */
  lemma Elsewhere(timers: seq<Timer>, lists: seq<seq<Id>>, id: Id)
    requires Placed(timers, lists) && id < |timers| && !timers[id].place.On? && OrderedBut(timers, lists, id)
    ensures PlacedBut(timers, lists, id) && Ordered(timers, lists)
    ensures forall l :: 0 <= l < 3 ==> Without(lists[l], id) == lists[l]
  {
    hide Armed, Distinct, Without;
    forall l | 0 <= l < 3 ensures Without(lists[l], id) == lists[l] && id !in lists[l] {
      assert ListOk(timers, lists[l], l);
      NotThere(lists[l], id);
    }
  }

  /** Registration appends the timer to the wall-clock list, to be moved at once. */
  lemma RegisterKeeps(timers: seq<Timer>, lists: seq<seq<Id>>, id: Id)
    requires Placed(timers, lists) && id < |timers| && timers[id].place.New? && OrderedBut(timers, lists, id)
    ensures var lists' := lists[WALL := Put(lists[WALL], |lists[WALL]|, id)];
            var timers' := At(timers, id, On(WALL));
            && Placed(timers', lists') && OrderedBut(timers', lists', id)
            && forall l :: 0 <= l < 3 ==> Without(lists'[l], id) == Without(lists[l], id)
  {
    Elsewhere(timers, lists, id);
    AttachKeeps(timers, lists, id, WALL, |lists[WALL]|);
    hide Placed, PlacedBut, Distinct, Without, Put;
    ArmedFrame(timers, At(timers, id, On(WALL)), lists[WALL], WALL);
    ArmedFrame(timers, At(timers, id, On(WALL)), lists[MACH], MACH);
  }

  lemma OrderedHolds(timers: seq<Timer>, lists: seq<seq<Id>>, id: Id)
    requires Placed(timers, lists) && Ordered(timers, lists)
    ensures |lists| == 3 && OrderedBut(timers, lists, id)
  {
    OrderedIsBut(timers, lists, id);
  }

  lemma FreshTick(t: Timer, b: Book, now: nat)
    requires t.target > 0 && t.interval >= 1 && t.lastFire == t.missed == t.pending == 0
    requires b == Book(t.target, 0, 0, 0, true)
    ensures TickOk(t, b, now)
  {
  }

  lemma OrderedIsBut(timers: seq<Timer>, lists: seq<seq<Id>>, id: Id)
    requires |lists| == 3 && Ordered(timers, lists)
    ensures OrderedBut(timers, lists, id)
  {
    ArmedWithout(timers, lists[WALL], WALL, id);
    ArmedWithout(timers, lists[MACH], MACH, id);
  }

  /** Where an update puts a timer. */
  function Where(t: Timer): Place {
    if t.place.Gone? then Gone
    else if t.target == 0 || t.suspended || t.pending != 0 then On(DISARM)
    else On(Clock(t))
  }

  predicate TimerOk(t: Timer) {
    t.target != 0 ==> t.interval >= 1 && t.ident == Clock(t)
  }

  // ---------------------------------------------------------------------------------------------
  // Ticks
  // ---------------------------------------------------------------------------------------------

  /**
    The history of a timer since it was set: its first target, how often it fired, the intervals those
    fires counted, the data handed out, and whether no latch took off more than was pending.
  */
  datatype Book = Book(start: nat, fires: nat, fired: nat, delivered: nat, exact: bool)

  /** The intervals a fire counts: those whose boundary has passed, but never more than fits an int. */
  function Passed(t: Timer, now: nat): nat
    requires t.interval >= 1 && t.target <= now
  {
    var n := (now - t.target) / t.interval + 1;
    if n > INT_MAX then INT_MAX else n
  }

  predicate Due(t: Timer, now: nat) {
    t.target != 0 && t.target <= now && !t.suspended && t.pending == 0
  }

  function Fire(t: Timer, now: nat): Timer
    requires t.interval >= 1 && t.target <= now
  {
    var n := Passed(t, now);
    t.(target := t.target + n * t.interval, lastFire := now, pending := t.pending + n)
  }

  function FireBook(t: Timer, b: Book, now: nat): Book
    requires t.interval >= 1 && t.target <= now
  {
    b.(fires := b.fires + 1, fired := b.fired + Passed(t, now))
  }

  /** The intervals since the last fire. */
  function Since(t: Timer, now: nat): nat
    requires t.interval >= 1 && t.lastFire <= now
  {
    (now - t.lastFire) / t.interval
  }

  /** The data a latch hands out, in the unsigned arithmetic of the source. */
  function LatchData(t: Timer, now: nat): nat
    requires t.target != 0 ==> t.interval >= 1 && t.lastFire <= now
  {
    if t.target != 0 && t.pending != 0 then
      (t.pending - t.missed + Since(t, now)) % WORD
    else t.pending
  }

  function Latch(t: Timer, now: nat): Timer
    requires t.target != 0 ==> t.interval >= 1 && t.lastFire <= now
  {
    if t.target != 0 && t.pending != 0 then
      t.(pending := 0, missed := Since(t, now))
    else t.(pending := 0)
  }

  function LatchBook(t: Timer, b: Book, now: nat): Book
    requires t.target != 0 ==> t.interval >= 1 && t.lastFire <= now
  {
    b.(delivered := b.delivered + LatchData(t, now),
       exact := b.exact && (t.pending != 0 ==> t.missed <= t.pending))
  }

  /** The accounts of a timer on a clock that shows `now`. */
  ghost predicate TickOk(t: Timer, b: Book, now: nat) {
    if t.target == 0 then t.pending == 0 else
    && t.interval >= 1 && t.lastFire <= now && t.target == b.start + b.fired * t.interval
    && (b.fires == 0 ==> t.missed == 0 && t.pending == 0 && b.fired == 0)
    && (b.fires > 0 ==> t.target <= t.lastFire + t.interval)
    && (t.pending == 0 ==> t.missed * t.interval <= now - t.lastFire)
    && t.pending <= INT_MAX && (t.pending > 0 ==> t.missed <= t.pending || t.pending == INT_MAX)
    && (b.exact ==> b.delivered + t.pending == b.fired + t.missed)
  }

  lemma TickFacts(t: Timer, b: Book, now: nat)
    requires TickOk(t, b, now)
    ensures t.target != 0 ==> t.interval >= 1 && t.lastFire <= now
  {
  }

  lemma TickLater(t: Timer, b: Book, now: nat, later: nat)
    requires TickOk(t, b, now) && now <= later
    ensures TickOk(t, b, later)
  {
  }

  /** Division rounds down. */
  lemma Floor(x: nat, d: nat)
    requires d >= 1
    ensures x / d * d <= x < (x / d + 1) * d
  {
    assert x == d * (x / d) + x % d;
  }

  lemma MulMono(a: int, b: int, d: nat)
    ensures a <= b ==> a * d <= b * d
    ensures a * d < b * d ==> a < b
  {
    if a <= b { assert (b - a) * d >= 0; }
    if b <= a { assert (a - b) * d >= 0; }
  }

  /** A fire passes every boundary up to now, at most one interval beyond unless cut short. */
  lemma FireReaches(t: Timer, now: nat)
    requires t.interval >= 1 && t.target <= now
    ensures Fire(t, now).target <= now + t.interval
    ensures now < Fire(t, now).target <==> now - t.target < INT_MAX * t.interval
  {
    var x, d := now - t.target, t.interval;
    var n, k := x / d + 1, Passed(t, now);
    Floor(x, d);
    MulMono(k, n, d);
    assert n * d == x / d * d + d;
    if n <= INT_MAX {
      MulMono(n, INT_MAX, d);
    } else {
      MulMono(INT_MAX, n - 1, d);
    }
  }

  /** What an earlier latch took in advance is covered by the next fire, as far as an int reaches. */
  lemma FireCovers(t: Timer, b: Book, clock: nat, now: nat)
    requires TickOk(t, b, clock) && Due(t, now) && clock <= now
    ensures t.missed <= Passed(t, now) || Passed(t, now) == INT_MAX
  {
    if b.fires > 0 {
      var x, d := now - t.target, t.interval;
      Floor(x, d);
      assert t.missed * d <= x + d;
      assert (x / d + 1) * d == x / d * d + d;
      if t.missed > x / d + 1 {
        assert (x / d + 2) * d == (x / d + 1) * d + d;
        MulMono(x / d + 2, t.missed, d);
      }
    }
  }

  lemma FireKeeps(t: Timer, b: Book, clock: nat, now: nat)
    requires TickOk(t, b, clock) && Due(t, now) && clock <= now
    ensures TickOk(Fire(t, now), FireBook(t, b, now), now)
  {
    FireReaches(t, now);
    FireCovers(t, b, clock, now);
    var n := Passed(t, now);
    assert b.start + (b.fired + n) * t.interval == b.start + b.fired * t.interval + n * t.interval;
  }

  lemma SinceBounds(t: Timer, now: nat)
    requires t.interval >= 1 && t.lastFire <= now
    ensures Since(t, now) * t.interval <= now - t.lastFire && Since(t, now) <= now
  {
    Floor(now - t.lastFire, t.interval);
    MulMono(1, t.interval, Since(t, now));
  }

  /** A latch that takes off no more than is pending hands out the plain sum. */
  lemma LatchPlain(t: Timer, now: nat)
    requires t.target != 0 && t.interval >= 1 && t.lastFire <= now <= TIME_MAX
    requires t.missed <= t.pending <= INT_MAX && t.pending != 0
    ensures LatchData(t, now) == t.pending - t.missed + Since(t, now)
  {
    SinceBounds(t, now);
    hide Since;
    var y := t.pending - t.missed + Since(t, now);
    Division.Divide(y, WORD, 0, y);
  }

  lemma LatchKeeps(t: Timer, b: Book, clock: nat, now: nat)
    requires TickOk(t, b, clock) && clock <= now <= TIME_MAX
    ensures TickOk(Latch(t, now), LatchBook(t, b, now), now)
  {
    hide Since, LatchData;
    if t.target != 0 && t.pending != 0 {
      SinceBounds(t, now);
      if t.missed <= t.pending { LatchPlain(t, now); }
    } else {
      LatchNothing(t, now);
    }
  }

  lemma LatchNothing(t: Timer, now: nat)
    requires t.target != 0 ==> t.interval >= 1 && t.lastFire <= now
    requires t.target == 0 || t.pending == 0
    ensures LatchData(t, now) == t.pending
  {
  }

  /** In every reachable state the subtraction is safe exactly when the advance fits an int. */
  lemma UnderflowExactly(t: Timer, b: Book, now: nat)
    requires TickOk(t, b, now) && t.pending > 0
    ensures t.missed <= t.pending <==> t.missed <= INT_MAX
  {
  }

  /** How many of the boundaries start, start + interval, ... have passed. */
  function Boundaries(start: nat, interval: nat, now: nat): nat
    requires interval >= 1
  {
    if now < start then 0 else (now - start) / interval + 1
  }

  /** The boundaries passed at the last fire that it did not count, being cut at INT_MAX. */
  function Dropped(t: Timer): nat
    requires t.interval >= 1
  {
    Boundaries(t.target, t.interval, t.lastFire)
  }

  /**
    Once a latch is done, all boundaries passed have been handed out, except those the last fire dropped
    and perhaps one more; nothing is dropped exactly when that fire was not cut.
  */
  lemma NothingMissed(t: Timer, b: Book, clock: nat, now: nat)
    requires TickOk(t, b, clock) && t.pending > 0 && clock <= now <= TIME_MAX
    requires b.exact && t.missed <= INT_MAX
    ensures var d := LatchBook(t, b, now).delivered;
            d + Dropped(t) <= Boundaries(b.start, t.interval, now) <= d + Dropped(t) + 1
    ensures Dropped(t) == 0 <==> t.lastFire < t.target
  {
    var i, m := t.interval, (now - t.lastFire) / t.interval;
    assert LatchBook(t, b, now).delivered == b.fired + m by {
      LatchPlain(t, now);
    }
    DropsNothing(t);
    hide TickOk, LatchBook;
    if now < t.target {
      BeforeTarget(b.start, b.fired, i, t.lastFire, now);
    } else if t.lastFire < t.target {
      AfterTarget(b.start, b.fired, i, t.lastFire, now);
    } else {
      AfterCut(b.start, b.fired, i, t.target, t.lastFire, now);
    }
  }

  lemma DropsNothing(t: Timer)
    requires t.interval >= 1
    ensures Dropped(t) == 0 <==> t.lastFire < t.target
  {
    if t.lastFire >= t.target { Floor(t.lastFire - t.target, t.interval); }
  }

  lemma AfterCut(start: nat, n: nat, i: nat, target: nat, last: nat, now: nat)
    requires i >= 1 && target == start + n * i && target <= last <= now
    ensures var d := n + (now - last) / i + Boundaries(target, i, last); d <= Boundaries(start, i, now) <= d + 1
  {
    SplitBoundaries(start, n, i, now);
    SumFloor(now - last, last - target, i);
  }

  /** Boundaries before and from a later one on. */
  lemma SplitBoundaries(start: nat, n: nat, i: nat, now: nat)
    requires i >= 1 && start + n * i <= now
    ensures Boundaries(start, i, now) == n + (now - (start + n * i)) / i + 1
  {
    var x := now - (start + n * i);
    Floor(x, i);
    Distribute(x / i, 1, i);
    AddQuotient(x, n, i, x / i);
  }

  function Quot(x: nat, i: nat): nat
    requires i >= 1
  {
    x / i
  }

  lemma QuotBounds(x: nat, i: nat)
    requires i >= 1
    ensures Quot(x, i) * i <= x < Quot(x, i) * i + i
  {
    Floor(x, i);
    Distribute(x / i, 1, i);
  }

  lemma SumFloor(x: nat, y: nat, i: nat)
    requires i >= 1
    ensures Quot(x, i) + Quot(y, i) <= Quot(x + y, i) <= Quot(x, i) + Quot(y, i) + 1
  {
    hide Quot;
    QuotBounds(x, i);
    QuotBounds(y, i);
    SumQuotient(x, y, i, Quot(x, i), Quot(y, i));
  }

  /** Rounding down twice loses at most one. */
  lemma SumQuotient(x: nat, y: nat, i: nat, p: nat, q: nat)
    requires i >= 1 && p * i <= x < p * i + i && q * i <= y < q * i + i
    ensures p + q <= Quot(x + y, i) <= p + q + 1
  {
    Distribute(p, q, i);
    if x + y < p * i + q * i + i {
      Quotient(x + y, i, p + q);
    } else {
      Distribute(p + q, 1, i);
      Quotient(x + y, i, p + q + 1);
    }
  }

  /** The quotient is pinned down by its bounds. */
  lemma Quotient(x: nat, d: nat, q: nat)
    requires d >= 1 && q * d <= x < q * d + d
    ensures x / d == q
  {
    Division.Divide(x, d, q, x - q * d);
  }

  lemma BeforeTarget(start: nat, n: nat, i: nat, last: nat, now: nat)
    requires i >= 1 && last <= now < start + n * i <= last + i
    ensures (now - last) / i == 0 && Boundaries(start, i, now) == n
  {
    Quotient(now - last, i, 0);
    if n > 0 {
      assert n * i == (n - 1) * i + i;
      Quotient(now - start, i, n - 1);
    }
  }

  lemma Distribute(a: int, b: int, i: int)
    ensures (a + b) * i == a * i + b * i
  {
  }

  /** At most one interval more adds at most one to the quotient. */
  lemma NextQuotient(x: nat, y: nat, i: nat, q: nat)
    requires i >= 1 && q * i <= x < q * i + i && x <= y <= x + i
    ensures q <= y / i <= q + 1
  {
    if y < q * i + i {
      Quotient(y, i, q);
    } else {
      Distribute(q, 1, i);
      Quotient(y, i, q + 1);
    }
  }

  lemma AddQuotient(x: nat, n: nat, i: nat, q: nat)
    requires i >= 1 && q * i <= x < q * i + i
    ensures (n * i + x) / i == n + q
  {
    Distribute(n, q, i);
    Quotient(n * i + x, i, n + q);
  }

  lemma AfterTarget(start: nat, n: nat, i: nat, last: nat, now: nat)
    requires i >= 1 && last < start + n * i <= last + i && start + n * i <= now
    ensures n + (now - last) / i <= Boundaries(start, i, now) <= n + (now - last) / i + 1
  {
    var x := now - (start + n * i);
    SplitBoundaries(start, n, i, now);
    Floor(x, i);
    Distribute(x / i, 1, i);
    NextQuotient(x, now - last, i, x / i);
  }

  datatype Tick = FireAt(now: nat) | LatchAt(now: nat)
  datatype Account = Account(t: Timer, b: Book)

  function DoTick(a: Account, e: Tick): Account {
    match e
    case FireAt(now) =>
      if Due(a.t, now) && a.t.interval >= 1 then Account(Fire(a.t, now), FireBook(a.t, a.b, now)) else a
    case LatchAt(now) =>
      if a.t.target != 0 ==> a.t.interval >= 1 && a.t.lastFire <= now then
        Account(Latch(a.t, now), LatchBook(a.t, a.b, now))
      else a
  }

  function Ticks(a: Account, events: seq<Tick>): Account {
    if events == [] then a else DoTick(Ticks(a, events[..|events| - 1]), events[|events| - 1])
  }

  /** The clock never runs backwards and stays in the range of a signed word. */
  predicate Clocked(events: seq<Tick>) {
    && (forall i :: 0 <= i < |events| ==> events[i].now <= TIME_MAX)
    && (forall i, j :: 0 <= i < j < |events| ==> events[i].now <= events[j].now)
  }

  function Now(events: seq<Tick>): nat {
    if events == [] then 0 else events[|events| - 1].now
  }

  /** A timer just set. */
  function Fresh(target: nat, interval: nat, wall: bool): Account {
    Account(Timer(target, 0, interval, 0, wall, if wall then WALL else MACH, 0, false, New),
            Book(target, 0, 0, 0, true))
  }

  /** Each latch finds that the one before came no more than INT_MAX intervals after its fire. */
  predicate Prompt(a: Account, events: seq<Tick>) {
    events == [] ||
    var before, e := events[..|events| - 1], events[|events| - 1];
    var t := Ticks(a, before).t;
    Prompt(a, before) && (e.LatchAt? && t.pending > 0 ==> t.missed <= INT_MAX)
  }

  lemma DoTickKeeps(a: Account, e: Tick, clock: nat)
    requires TickOk(a.t, a.b, clock) && a.t.target > 0 && clock <= e.now <= TIME_MAX
    ensures var a' := DoTick(a, e);
            TickOk(a'.t, a'.b, e.now) && a'.t.target > 0 && a'.t.interval == a.t.interval && a'.b.start == a.b.start
    ensures DoTick(a, e).b.exact <==> a.b.exact && (e.LatchAt? && a.t.pending > 0 ==> a.t.missed <= INT_MAX)
  {
    TickFacts(a.t, a.b, clock);
    match e
    case FireAt(now) =>
      if Due(a.t, now) {
        FireKeeps(a.t, a.b, clock, now);
        MulMono(0, Passed(a.t, now), a.t.interval);
      } else {
        TickLater(a.t, a.b, clock, now);
      }
    case LatchAt(now) =>
      LatchKeeps(a.t, a.b, clock, now);
      if a.t.pending > 0 { UnderflowExactly(a.t, a.b, clock); }
      hide TickOk;
  }

  lemma {:induction false} TicksKeep(target: nat, interval: nat, wall: bool, events: seq<Tick>)
    requires target > 0 && interval >= 1 && Clocked(events)
    ensures var a := Ticks(Fresh(target, interval, wall), events);
            TickOk(a.t, a.b, Now(events)) && a.t.target > 0 && a.t.interval == interval && a.b.start == target
    decreases |events|
  {
    if events != [] {
      hide TickOk, DoTick;
      var before, e := events[..|events| - 1], events[|events| - 1];
      TicksKeep(target, interval, wall, before);
      assert Now(before) <= e.now;
      DoTickKeeps(Ticks(Fresh(target, interval, wall), before), e, Now(before));
    }
  }

  /**
    Over every alternation of fires and latches: no latch takes off more than is pending exactly when
    latches are prompt, and then the data handed out are the intervals fired and those counted in advance.
  */
  lemma {:induction false} TicksAccounted(target: nat, interval: nat, wall: bool, events: seq<Tick>)
    requires target > 0 && interval >= 1 && Clocked(events)
    ensures var a := Ticks(Fresh(target, interval, wall), events);
            && (a.b.exact <==> Prompt(Fresh(target, interval, wall), events))
            && (a.b.exact ==> a.b.delivered + a.t.pending == a.b.fired + a.t.missed)
    decreases |events|
  {
    hide TickOk, DoTick;
    var f := Fresh(target, interval, wall);
    TicksKeep(target, interval, wall, events);
    if Ticks(f, events).b.exact { TickBalance(Ticks(f, events).t, Ticks(f, events).b, Now(events)); }
    if events != [] {
      var before, e := events[..|events| - 1], events[|events| - 1];
      TicksAccounted(target, interval, wall, before);
      TicksKeep(target, interval, wall, before);
      assert Now(before) <= e.now;
      DoTickKeeps(Ticks(f, before), e, Now(before));
    }
  }

  lemma TickBalance(t: Timer, b: Book, now: nat)
    requires TickOk(t, b, now) && t.target > 0 && b.exact
    ensures b.delivered + t.pending == b.fired + t.missed
  {
  }

  lemma TicksSnoc(a: Account, events: seq<Tick>, e: Tick)
    ensures Ticks(a, events + [e]) == DoTick(Ticks(a, events), e)
  {
    assert (events + [e])[..|events|] == events;
  }

  /** A latch more than INT_MAX intervals late makes the next one hand out a wrapped-around number. */
  lemma LateLatchWraps()
    ensures var late := INT_MAX + 2;
            var a := Ticks(Fresh(1, 1, false), [FireAt(1), LatchAt(late), FireAt(late), LatchAt(late)]);
            a.b.fired == INT_MAX + 1 && a.b.delivered == INT_MAX + 2 + (WORD - 1)
  {
    var late := INT_MAX + 2;
    var f := Fresh(1, 1, false);
    var t := f.t;
    var a1 := Account(t.(target := 2, lastFire := 1, pending := 1), Book(1, 1, 1, 0, true));
    var a2 := Account(a1.t.(missed := INT_MAX + 1, pending := 0), Book(1, 1, 1, INT_MAX + 2, true));
    var a3 := Account(a2.t.(target := INT_MAX + 2, lastFire := late, pending := INT_MAX),
                      Book(1, 2, INT_MAX + 1, INT_MAX + 2, true));
    assert DoTick(f, FireAt(1)) == a1;
    assert DoTick(a1, LatchAt(late)) == a2;
    assert DoTick(a2, FireAt(late)) == a3;
    assert LatchData(a3.t, late) == (INT_MAX - (INT_MAX + 1)) % WORD == WORD - 1;
    assert [FireAt(1), LatchAt(late), FireAt(late), LatchAt(late)]
        == [] + [FireAt(1)] + [LatchAt(late)] + [FireAt(late)] + [LatchAt(late)];
    hide Ticks, Fire, Latch, FireBook;
    TicksSnoc(f, [], FireAt(1));
    TicksSnoc(f, [] + [FireAt(1)], LatchAt(late));
    TicksSnoc(f, [] + [FireAt(1)] + [LatchAt(late)], FireAt(late));
    TicksSnoc(f, [] + [FireAt(1)] + [LatchAt(late)] + [FireAt(late)], LatchAt(late));
    TicksNone(f);
  }

  lemma TicksNone(a: Account)
    ensures Ticks(a, []) == a
  {
  }

  // ---------------------------------------------------------------------------------------------
  // The manager
  // ---------------------------------------------------------------------------------------------

  /** How many timers have nothing pending. */
  function Idle(timers: seq<Timer>): nat {
    if timers == [] then 0 else (if timers[0].pending == 0 then 1 else 0) + Idle(timers[1..])
  }

  lemma {:induction false} IdleUpdate(timers: seq<Timer>, id: Id, t: Timer)
    requires id < |timers|
    ensures Idle(timers[id := t]) + (if timers[id].pending == 0 then 1 else 0) ==
            Idle(timers) + (if t.pending == 0 then 1 else 0)
  {
    if id > 0 {
      assert timers[id := t][1..] == timers[1..][id - 1 := t];
      IdleUpdate(timers[1..], id - 1, t);
    } else {
      assert timers[id := t][1..] == timers[1..];
    }
  }

  /** All accounts are in order on their clocks. */
  ghost predicate Accounted(timers: seq<Timer>, books: seq<Book>, clocks: seq<nat>) {
    && |books| == |timers| && |clocks| == 2
    && forall id :: 0 <= id < |timers| ==>
         TimerOk(timers[id]) && TickOk(timers[id], books[id], clocks[Clock(timers[id])])
  }

  /** The timer as one run of the list of a clock leaves it, wherever that puts it. */
  function Ran(t: Timer, l: nat, now: nat): Timer {
    if t.place == On(l) && Due(t, now) && t.interval >= 1 then Fire(t, now) else t
  }

  lemma RanNot(t: Timer, l: nat, now: nat)
    requires t.suspended || t.pending != 0
    ensures Ran(t, l, now) == t
  {
  }

  /** The same timer, perhaps on another list. */
  predicate Same(t: Timer, t': Timer) {
    t'.(place := t.place) == t
  }

  /** Only places matter to the lists, and only targets and clocks to their order. */
  lemma FieldKeeps(timers: seq<Timer>, timers': seq<Timer>, lists: seq<seq<Id>>)
    requires Placed(timers, lists) && Ordered(timers, lists) && SameKeys(timers, timers')
    requires forall id :: 0 <= id < |timers| ==> timers'[id].place == timers[id].place
    ensures Placed(timers', lists) && Ordered(timers', lists)
  {
    ArmedFrame(timers, timers', lists[WALL], WALL);
    ArmedFrame(timers, timers', lists[MACH], MACH);
    hide Armed, Distinct;
    forall l | 0 <= l < 3 ensures ListOk(timers', lists[l], l) {
      assert ListOk(timers, lists[l], l);
    }
    forall id | 0 <= id < |timers'| ensures Found(timers', lists, id) {
      assert Found(timers, lists, id);
    }
  }

  /** A timer's target may change, as long as the timer is put in its place afterwards. */
  lemma ChangeKeeps(timers: seq<Timer>, lists: seq<seq<Id>>, id: Id, t: Timer)
    requires Placed(timers, lists) && Ordered(timers, lists) && id < |timers| && t.place == timers[id].place
    ensures Placed(timers[id := t], lists) && OrderedBut(timers[id := t], lists, id)
  {
    var timers' := timers[id := t];
    forall l | 0 <= l < 3 ensures ListOk(timers', lists[l], l) {
      assert ListOk(timers, lists[l], l);
    }
    forall x | 0 <= x < |timers'| ensures Found(timers', lists, x) {
      assert Found(timers, lists, x);
    }
    ArmedChange(timers, lists[WALL], WALL, id, t);
    ArmedChange(timers, lists[MACH], MACH, id, t);
  }

  lemma ArmedChange(timers: seq<Timer>, s: seq<Id>, l: nat, id: Id, t: Timer)
    requires Armed(timers, s, l) && Distinct(s) && id < |timers|
    ensures Armed(timers[id := t], Without(s, id), l)
  {
    ArmedWithout(timers, s, l, id);
    WithoutHas(s, id, id);
    hide Without, Distinct;
    var w, timers' := Without(s, id), timers[id := t];
    forall i | 0 <= i < |w| ensures OnClock(timers', w[i], l) {
      assert w[i] in w && OnClock(timers, w[i], l);
    }
    forall i, j | 0 <= i < j < |w| ensures NotAfter(timers', w[i], w[j]) {
      assert w[i] in w && w[j] in w && NotAfter(timers, w[i], w[j]);
    }
  }

  /** One timer and its account change, as its clock moves on. */
  lemma AccountedAt(timers: seq<Timer>, books: seq<Book>, clocks: seq<nat>, id: Id, t: Timer, b: Book, now: nat)
    requires Accounted(timers, books, clocks) && id < |timers| && TimerOk(t)
    requires clocks[Clock(t)] <= now && TickOk(t, b, now)
    ensures Accounted(timers[id := t], books[id := b], clocks[Clock(t) := now])
  {
    hide TickOk;
    forall x | 0 <= x < |timers| && x != id
      ensures TickOk(timers[x], books[x], clocks[Clock(t) := now][Clock(timers[x])])
    {
      if Clock(timers[x]) == Clock(t) { TickLater(timers[x], books[x], clocks[Clock(t)], now); }
    }
  }

  lemma AccountedPlace(timers: seq<Timer>, books: seq<Book>, clocks: seq<nat>, id: Id, place: Place)
    requires Accounted(timers, books, clocks) && id < |timers|
    ensures Accounted(At(timers, id, place), books, clocks)
  {
    assert TickOk(At(timers, id, place)[id], books[id], clocks[Clock(timers[id])]);
  }

  lemma AccountedLater(timers: seq<Timer>, books: seq<Book>, clocks: seq<nat>, l: nat, now: nat)
    requires Accounted(timers, books, clocks) && l < 2 && clocks[l] <= now
    ensures |clocks| == 2 && Accounted(timers, books, clocks[l := now])
  {
    hide TickOk;
    forall x | 0 <= x < |timers| ensures TickOk(timers[x], books[x], clocks[l := now][Clock(timers[x])]) {
      if Clock(timers[x]) == l { TickLater(timers[x], books[x], clocks[l], now); }
    }
  }

  lemma GoneKeeps(timers: seq<Timer>, lists: seq<seq<Id>>, id: Id)
    requires PlacedBut(timers, lists, id) && Ordered(timers, lists) && id < |timers|
    ensures Placed(At(timers, id, Gone), lists) && Ordered(At(timers, id, Gone), lists)
  {
    var timers' := At(timers, id, Gone);
    ArmedFrame(timers, timers', lists[WALL], WALL);
    ArmedFrame(timers, timers', lists[MACH], MACH);
    hide Armed, Distinct;
    forall l | 0 <= l < 3 ensures ListOk(timers', lists[l], l) {
      assert ListOk(timers, lists[l], l);
    }
    forall x | 0 <= x < |timers'| ensures Found(timers', lists, x) {
      if x != id { assert Found(timers, lists, x); }
    }
  }

  /** What a fire does to a timer, for the run loop. */
  lemma FireRuns(t: Timer, now: nat)
    requires Due(t, now) && t.interval >= 1
    ensures var t' := Fire(t, now);
            && 0 < t'.pending <= INT_MAX && t'.target >= t.target && t'.place == t.place && t'.suspended == t.suspended
            && t'.interval == t.interval && Clock(t') == Clock(t) && t'.ident == t.ident && t'.target != 0
  {
    MulMono(0, Passed(t, now), t.interval);
    assert (now - t.target) / t.interval >= 0;
  }

  /** The head of an armed list is a timer of that list. */
  lemma HeadFacts(timers: seq<Timer>, lists: seq<seq<Id>>, l: nat)
    requires Placed(timers, lists) && Ordered(timers, lists) && l < 2 && lists[l] != []
    ensures var id := lists[l][0];
            && id in lists[l] && id < |timers| && timers[id].place == On(l)
            && timers[id].target != 0 && timers[id].ident == Clock(timers[id]) == l
  {
    assert Armed(timers, lists[l], l) && OnClock(timers, lists[l][0], l) && ListOk(timers, lists[l], l);
  }

  /** Disarming a timer shortens its list. */
  lemma ParkShrinks(timers: seq<Timer>, before: seq<seq<Id>>, lists: seq<seq<Id>>, id: Id, l: nat)
    requires Placed(timers, lists) && id < |timers| && timers[id].place == On(DISARM)
    requires |before| == 3 && l < 2 && id in before[l] && Without(lists[l], id) == Without(before[l], id)
    ensures |lists[l]| < |before[l]|
  {
    assert ListOk(timers, lists[l], l);
    NotThere(lists[l], id);
  }

  lemma TimerFacts(timers: seq<Timer>, books: seq<Book>, clocks: seq<nat>, id: Id)
    requires Accounted(timers, books, clocks) && id < |timers|
    ensures timers[id].target != 0 ==> timers[id].interval >= 1
  {
  }

  lemma FoundFacts(timers: seq<Timer>, lists: seq<seq<Id>>, id: Id)
    requires Placed(timers, lists) && id < |timers| && timers[id].place.On?
    ensures timers[id].place.list < 3 && id in lists[timers[id].place.list]
  {
    assert Found(timers, lists, id);
  }

  /** Timers leave the list of the clock only when they cannot fire. */
  predicate Stays(t: Timer, t': Timer, l: nat) {
    t'.place == t.place || (t.place == On(l) && t'.place == On(DISARM) && (t'.suspended || t'.pending != 0))
  }

  /** A timer that has not been looked at yet, or has been dealt with. */
  predicate Progress(t: Timer, t': Timer, l: nat, now: nat) {
    (t.target != 0 ==> t.interval >= 1) && (t' == t || (Same(Ran(t, l, now), t') && Stays(t, t', l)))
  }

  lemma ProgressParks(t0: Timer, t: Timer, l: nat, now: nat)
    requires Progress(t0, t, l, now) && t.place == On(l) && l != DISARM && (t.suspended || t.pending != 0)
    ensures Progress(t0, t.(place := On(DISARM)), l, now)
  {
  }

  lemma ProgressFires(t0: Timer, t: Timer, l: nat, now: nat)
    requires Progress(t0, t, l, now) && t.place == On(l) && Due(t, now) && t.interval >= 1
    ensures Fire(t, now).pending != 0 && Progress(t0, Fire(t, now), l, now)
  {
    FireRuns(t, now);
    if t != t0 && t0.place == On(l) && Due(t0, now) { FireRuns(t0, now); }
  }

  lemma ProgressEnds(t0: Timer, t: Timer, l: nat, now: nat)
    requires Progress(t0, t, l, now) && (t.place == On(l) ==> t.target > now)
    ensures Same(Ran(t0, l, now), t) && Stays(t0, t, l)
  {
  }

  lemma ProgressStarts(timers: seq<Timer>, books: seq<Book>, clocks: seq<nat>, l: nat, now: nat)
    requires Accounted(timers, books, clocks)
    ensures forall id :: 0 <= id < |timers| ==> Progress(timers[id], timers[id], l, now)
  {
  }

  /** How long until a timer is due. */
  function Wait(timers: seq<Timer>, id: Id, now: nat): nat {
    if id < |timers| && timers[id].target > now then timers[id].target - now else 0
  }

  /** No timer of a list is due before its head. */
  lemma HeadWaits(timers: seq<Timer>, lists: seq<seq<Id>>, l: nat, now: nat)
    requires Placed(timers, lists) && Ordered(timers, lists) && l < 2 && lists[l] != []
    ensures lists[l][0] < |timers| && timers[lists[l][0]].target != 0
    ensures forall id :: id in lists[l] ==> Wait(timers, lists[l][0], now) <= Wait(timers, id, now)
  {
    HeadFacts(timers, lists, l);
    forall id | id in lists[l] ensures Wait(timers, lists[l][0], now) <= Wait(timers, id, now) {
      HeadIsLeast(timers, lists[l], l, id);
    }
  }

  lemma CreateKeeps(timers: seq<Timer>, lists: seq<seq<Id>>, t: Timer)
    requires Placed(timers, lists) && Ordered(timers, lists) && t.place.New?
    ensures Placed(timers + [t], lists) && Ordered(timers + [t], lists)
  {
    hide Distinct;
    forall l | 0 <= l < 3 ensures ListOk(timers + [t], lists[l], l) {
      assert ListOk(timers, lists[l], l);
    }
    forall id | 0 <= id < |timers + [t]| ensures Found(timers + [t], lists, id) {
      if id < |timers| { assert Found(timers, lists, id); }
    }
    forall l, i | 0 <= l < 2 && 0 <= i < |lists[l]| ensures OnClock(timers + [t], lists[l][i], l) {
      assert Armed(timers, lists[l], l) && OnClock(timers, lists[l][i], l);
    }
    forall l, i, j | 0 <= l < 2 && 0 <= i < j < |lists[l]| ensures NotAfter(timers + [t], lists[l][i], lists[l][j]) {
      assert Armed(timers, lists[l], l) && NotAfter(timers, lists[l][i], lists[l][j]);
    }
  }

  class Manager {
    var timers: seq<Timer>
    var lists: seq<seq<Id>>
    ghost var books: seq<Book>
    /** The last time seen on each clock. */
    ghost var clocks: seq<nat>

    ghost predicate Valid()
      reads this
    {
      Placed(timers, lists) && Ordered(timers, lists) && Accounted(timers, books, clocks)
    }

    constructor ()
      ensures Valid() && timers == []
    {
      timers, lists, books, clocks := [], [[], [], []], [], [0, 0];
    }

    /** A timer source is created suspended and not yet registered. */
    method Create(wall: bool) returns (id: Id)
      requires Valid()
      modifies this
      ensures Valid() && id == |old(timers)|
      ensures timers == old(timers) + [Timer(0, 0, 0, 0, wall, WALL, 0, true, New)] && lists == old(lists)
    {
      id := |timers|;
      timers := timers + [Timer(0, 0, 0, 0, wall, WALL, 0, true, New)];
      books := books + [Book(0, 0, 0, 0, true)];
      CreateKeeps(old(timers), lists, timers[id]);
    }

    /** Suspension is noticed at the next update. */
    method SetSuspended(id: Id, suspended: bool)
      requires Valid() && id < |timers|
      modifies this`timers
      ensures Valid() && timers == old(timers)[id := old(timers)[id].(suspended := suspended)]
    {
      timers := timers[id := timers[id].(suspended := suspended)];
      FieldKeeps(old(timers), timers, lists);
    }

    /** Finds the first timer with a later target. */
    method Seek(s: seq<Id>, l: nat, id: Id) returns (p: nat)
      requires Armed(timers, s, l) && id < |timers|
      ensures p <= |s|
      ensures forall i :: 0 <= i < p ==> NotAfter(timers, s[i], id)
      ensures forall i :: p <= i < |s| ==> !NotAfter(timers, s[i], id)
    {
      p := 0;
      while p < |s|
        invariant 0 <= p <= |s|
        invariant forall i :: 0 <= i < p ==> NotAfter(timers, s[i], id)
      {
        assert OnClock(timers, s[p], l);
        if timers[s[p]].target == 0 || timers[id].target < timers[s[p]].target {
          break;
        }
        p := p + 1;
      }
      forall i | p <= i < |s| ensures !NotAfter(timers, s[i], id) {
        if i > p { assert NotAfter(timers, s[p], s[i]); }
      }
    }

    /** Moves a registered timer to where its settings say. */
    method Move(id: Id)
      requires id < |timers| && timers[id].place.On? && TimerOk(timers[id])
      requires Placed(timers, lists) && OrderedBut(timers, lists, id)
      modifies this`timers, this`lists
      ensures Placed(timers, lists) && Ordered(timers, lists)
      ensures timers == At(old(timers), id, Where(old(timers)[id]))
      ensures forall l :: 0 <= l < 3 ==> Without(lists[l], id) == Without(old(lists)[l], id)
    {
      hide ListOk, Found, Armed, Without, Put;
      DetachKeeps(timers, lists, id);
      lists := Detached(timers, lists, id);
      var l, p;
      if timers[id].target == 0 || timers[id].suspended || timers[id].pending != 0 {
        l := DISARM;
        p := |lists[DISARM]|;
      } else {
        l := Clock(timers[id]);
        p := Seek(lists[l], l, id);
      }
      AttachKeeps(timers, lists, id, l, p);
      AttachOrdered(timers, lists, id, l, p);
      lists, timers := lists[l := Put(lists[l], p, id)], At(timers, id, On(l));
    }

    /** Puts a timer where its settings say, registering it first when it is new. */
    method Update(id: Id)
      requires id < |timers| && TimerOk(timers[id])
      requires Placed(timers, lists) && OrderedBut(timers, lists, id)
      modifies this`timers, this`lists
      ensures Placed(timers, lists) && Ordered(timers, lists)
      ensures timers == At(old(timers), id, Where(old(timers)[id]))
      ensures forall l :: 0 <= l < 3 ==> Without(lists[l], id) == Without(old(lists)[l], id)
    {
      hide ListOk, Found, Armed, Without, Put;
      if timers[id].place.Gone? {
        Elsewhere(timers, lists, id);
        return;
      }
      if timers[id].place.New? {
        RegisterKeeps(timers, lists, id);
        lists, timers := lists[WALL := Put(lists[WALL], |lists[WALL]|, id)], At(timers, id, On(WALL));
        Move(id);
        OrderedIsBut(timers, lists, id);
      }
      Move(id);
    }

    /** Puts a timer back where it belongs, after it was resumed or its handler ran. */
    method Rearm(id: Id)
      requires Valid() && id < |timers|
      modifies this`timers, this`lists
      ensures Valid() && timers == At(old(timers), id, Where(old(timers)[id]))
      ensures forall l :: 0 <= l < 3 ==> Without(lists[l], id) == Without(old(lists)[l], id)
    {
      hide Placed, Ordered, OrderedBut, TickOk, Without;
      OrderedHolds(timers, lists, id);
      AccountedPlace(timers, books, clocks, id, Where(timers[id]));
      Update(id);
    }

    /** The new settings of a timer replace the old ones, with whatever was pending. */
    method SetTimer(id: Id, target: nat, interval: nat, wall: bool)
      requires Valid() && id < |timers| && target > 0 && interval >= 1
      modifies this`timers, this`lists, this`books
      ensures Valid()
      ensures var t := old(timers)[id];
              var t' := t.(target := target, lastFire := 0, interval := interval, missed := 0, wall := wall,
                           ident := if wall then WALL else MACH, pending := 0);
              timers == old(timers)[id := t'.(place := Where(t'))]
      ensures books == old(books)[id := Book(target, 0, 0, 0, true)]
      ensures forall l :: 0 <= l < 3 ==> Without(lists[l], id) == Without(old(lists)[l], id)
    {
      hide Placed, Ordered, OrderedBut, TickOk, Without;
      var t := timers[id].(target := target, lastFire := 0, interval := interval, missed := 0, wall := wall,
                           ident := if wall then WALL else MACH, pending := 0);
      ghost var b := Book(target, 0, 0, 0, true);
      FreshTick(t, b, clocks[Clock(t)]);
      ChangeKeeps(timers, lists, id, t);
      AccountedAt(timers, books, clocks, id, t, b, clocks[Clock(t)]);
      assert clocks[Clock(t) := clocks[Clock(t)]] == clocks;
      timers, books := timers[id := t], books[id := b];
      AccountedPlace(timers, books, clocks, id, Where(t));
      Update(id);
    }

    /** The event handler is given what is pending. */
    method LatchAndCall(id: Id, now: nat) returns (data: nat)
      requires Valid() && id < |timers| && clocks[Clock(timers[id])] <= now <= TIME_MAX
      modifies this`timers, this`books, this`clocks
      ensures Valid() && books == old(books)[id := LatchBook(old(timers)[id], old(books)[id], now)]
      ensures timers == old(timers)[id := Latch(old(timers)[id], now)] && data == LatchData(old(timers)[id], now)
    {
      hide Placed, Ordered;
      ghost var t0, b0 := timers[id], books[id];
      LatchKeeps(t0, b0, clocks[Clock(t0)], now);
      AccountedAt(timers, books, clocks, id, Latch(t0, now), LatchBook(t0, b0, now), now);
      hide TickOk;
      var t, prev := timers[id], timers[id].pending;
      if t.target != 0 && prev != 0 {
        var missed := Since(t, now);
        data := (prev - t.missed + missed) % WORD;
        timers := timers[id := t.(pending := 0, missed := missed)];
      } else {
        data := prev;
        timers := timers[id := t.(pending := 0)];
      }
      books, clocks := books[id := LatchBook(t0, b0, now)], clocks[Clock(t0) := now];
      FieldKeeps(old(timers), timers, lists);
    }

    /** Takes a cancelled timer off its list for good. */
    method Unregister(id: Id)
      requires Valid() && id < |timers| && timers[id].place.On?
      modifies this`timers, this`lists
      ensures Valid() && timers == At(old(timers), id, Gone)
      ensures forall l :: 0 <= l < 3 ==> lists[l] == Without(old(lists)[l], id)
    {
      hide TickOk, Armed, Without;
      OrderedHolds(timers, lists, id);
      DetachKeeps(timers, lists, id);
      AccountedPlace(timers, books, clocks, id, Gone);
      lists := Detached(timers, lists, id);
      GoneKeeps(timers, lists, id);
      timers := At(timers, id, Gone);
    }

    /** Fires one timer: it moves to its next target and its handler is due. */
    method FireOne(id: Id, now: nat)
      requires Valid() && id < |timers| && Due(timers[id], now) && timers[id].place == On(Clock(timers[id]))
      requires clocks[Clock(timers[id])] == now
      modifies this`timers, this`lists, this`books
      ensures Valid() && timers == old(timers)[id := Fire(old(timers)[id], now)]
      ensures books == old(books)[id := FireBook(old(timers)[id], old(books)[id], now)]
    {
      hide Placed, Ordered, OrderedBut, TickOk, Without;
      var t := timers[id];
      ghost var b := books[id];
      TickFacts(t, b, now);
      FireKeeps(t, b, now, now);
      FireRuns(t, now);
      var missed := (now - t.target) / t.interval + 1;
      if missed > INT_MAX {
        missed := INT_MAX;
      }
      var moved := t.(target := t.target + missed * t.interval);
      ChangeKeeps(timers, lists, id, moved);
      timers := timers[id := moved];
      Update(id);
      ghost var before := timers;
      timers := timers[id := timers[id].(lastFire := now, pending := missed)];
      FieldKeeps(before, timers, lists);
      AccountedAt(old(timers), books, clocks, id, Fire(t, now), FireBook(t, b, now), now);
      assert clocks[Clock(t) := now] == clocks;
      books := books[id := FireBook(t, b, now)];
    }

    /**
      Fires everything that is due on a clock. Every due timer fires once, with the intervals passed;
      nothing due is left on the list; only timers that cannot fire now are disarmed.
    */
    method RunTimers(l: nat, now: nat)
      requires Valid() && l < 2 && clocks[l] <= now <= TIME_MAX
      modifies this
      ensures Valid() && clocks == old(clocks)[l := now] && |timers| == |old(timers)|
      ensures forall id :: 0 <= id < |timers| ==> Same(Ran(old(timers)[id], l, now), timers[id])
      ensures forall id :: 0 <= id < |timers| ==> Stays(old(timers)[id], timers[id], l)
      ensures forall id :: id in lists[l] ==> timers[id].target > now
      ensures forall id :: 0 <= id < |timers| && (old(timers)[id].suspended || old(timers)[id].pending != 0) ==>
                Same(old(timers)[id], timers[id])
    {
      hide TickOk, Armed, Without, Fire, ListOk, Found, Progress, Accounted, Stays, Same, Ran;
      AccountedLater(timers, books, clocks, l, now);
      ProgressStarts(timers, books, clocks, l, now);
      clocks := clocks[l := now];
      // The head is on the list of its own clock and has a target, so those two tests of the loop never fail.
      while lists[l] != []
        invariant Valid() && clocks == old(clocks)[l := now] && |timers| == |old(timers)|
        invariant forall id :: 0 <= id < |timers| ==> Progress(old(timers)[id], timers[id], l, now)
        decreases Idle(timers), |lists[l]|
      {
        var id := lists[l][0];
        HeadFacts(timers, lists, l);
        TimerFacts(timers, books, clocks, id);
        if timers[id].target > now {
          break;
        }
        ghost var t, before := timers[id], lists;
        if timers[id].suspended || timers[id].pending != 0 {
          IdleUpdate(timers, id, timers[id].(place := On(DISARM)));
          ProgressParks(old(timers)[id], t, l, now);
          Rearm(id);
          ParkShrinks(timers, before, lists, id, l);
        } else {
          IdleUpdate(timers, id, Fire(timers[id], now));
          ProgressFires(old(timers)[id], t, l, now);
          FireOne(id, now);
        }
      }
      forall id | id in lists[l] ensures id < |timers| && timers[id].target > now {
        HeadFacts(timers, lists, l);
        HeadIsLeast(timers, lists[l], l, id);
      }
      forall id | 0 <= id < |timers|
        ensures Same(Ran(old(timers)[id], l, now), timers[id]) && Stays(old(timers)[id], timers[id], l)
        ensures old(timers)[id].suspended || old(timers)[id].pending != 0 ==> Same(old(timers)[id], timers[id])
      {
        if timers[id].place.On? { FoundFacts(timers, lists, id); }
        ProgressEnds(old(timers)[id], timers[id], l, now);
        if old(timers)[id].suspended || old(timers)[id].pending != 0 { RanNot(old(timers)[id], l, now); }
      }
    }

    /** How long to sleep: the least wait over all armed timers, found by looking at the heads only. */
    method NextFire(now: seq<nat>) returns (delta: Option<nat>)
      requires Valid() && |now| == 2
      ensures delta.None? ==> forall l, id :: 0 <= l < 2 && id in lists[l] ==> Wait(timers, id, now[l]) > FOREVER
      ensures delta.Some? ==>
                && delta.value <= FOREVER
                && (forall l, id :: 0 <= l < 2 && id in lists[l] ==> delta.value <= Wait(timers, id, now[l]))
                && (exists l :: 0 <= l < 2 && lists[l] != [] && delta.value == Wait(timers, lists[l][0], now[l]))
    {
      hide Armed, ListOk, Found, Accounted;
      var least: nat := WORD - 1;
      var l := 0;
      while l < 2
        invariant 0 <= l <= 2 && least > 0
        invariant forall k, id :: 0 <= k < l && id in lists[k] ==> least <= Wait(timers, id, now[k])
        invariant least == WORD - 1 ||
                  exists k :: 0 <= k < l && lists[k] != [] && least == Wait(timers, lists[k][0], now[k])
      {
        if lists[l] != [] {
          HeadWaits(timers, lists, l, now[l]);
          var t := timers[lists[l][0]];
          if t.target <= now[l] {
            return Some(0);
          }
          if t.target - now[l] < least {
            least := t.target - now[l];
          }
        }
        l := l + 1;
      }
      delta := if least > FOREVER then None else Some(least);
    }
  }
}
