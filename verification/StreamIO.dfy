/**
  Stream operations of dispatch I/O: a read or a write that repeats a system call and hands data to
  its handler. The environment (the descriptor, the clock, errors, cancellation) appears as
  parameters; the ghost history records every byte moved and every handler call.
*/
module StreamIO {
  import Rope

  type Byte = Rope.Byte
  const SIZE_MAX := Rope.SIZE_MAX

  datatype Option<T> = None | Some(value: T)
  datatype Errno = EAGAIN | ECANCELED | EBADF | Other(code: int)
  datatype Direction = Read | Write

  /** What one system call does: fail, see these bytes to read, or have room for this many. */
  datatype Outcome = Fails(errno: Errno) | Moves(available: seq<Byte>, room: nat)

  datatype Result = Deliver | DeliverAndComplete | Complete | CompleteResume | Resume | Err | FdErr

  datatype Flags = Flags(deliver: bool, done: bool, noEmpty: bool)
  const DEFAULT := Flags(false, false, false)

  /** The delivery does not wait for the low-water mark. */
  predicate Forced(flags: Flags) {
    flags.deliver || flags.done
  }

  datatype Call = Call(done: bool, data: Option<seq<Byte>>, err: Option<Errno>)

  /**
    Beside each handler call: how many bytes had moved, whether the delivery was unforced, how many bytes
    had moved since the delivery before, how many of a half-used buffer that one had left behind, whether the
    delivery ended the operation, and the error of the operation as it was then.
  */
  datatype Note = Note(total: nat, plain: bool, added: nat, carried: nat, last: bool, err: Option<Errno>)

  /** What can happen to an operation on its stream's queue. */
  datatype Event =
    | Handler(stop: Option<Errno>, initial: bool, again: Option<Errno>, cuts: seq<nat>, openErr: Option<Errno>,
              outcome: Outcome)
    | Timer(strict: bool)
    | Cleanup(cause: Option<Errno>)

  // ---------------------------------------------------------------------------------------------
  // Water marks
  // ---------------------------------------------------------------------------------------------

  class Channel {
    var low: nat
    var high: nat

    predicate Valid()
      reads this
    {
      low <= high && 1 <= high <= SIZE_MAX
    }

    constructor (defaultLow: nat)
      requires defaultLow <= SIZE_MAX
      ensures Valid() && low == defaultLow && high == SIZE_MAX
    {
      low, high := defaultLow, SIZE_MAX;
    }

    method SetHighWater(mark: nat)
      requires Valid() && mark <= SIZE_MAX
      modifies this
      ensures Valid() && high == (if mark == 0 then 1 else mark) && low == Min(old(low), mark)
    {
      if low > mark {
        low := mark;
      }
      high := if mark != 0 then mark else 1;
    }

    method SetLowWater(mark: nat)
      requires Valid() && mark <= SIZE_MAX
      modifies this
      ensures Valid() && low == mark && mark <= high == if mark <= old(high) then old(high) else mark
    {
      if high < mark {
        high := mark; // not zero, being above the old mark
      }
      low := mark;
    }
  }

  // ---------------------------------------------------------------------------------------------
  // History
  // ---------------------------------------------------------------------------------------------

  /** All bytes handed to the handler, in order. */
  function Delivered(calls: seq<Call>): seq<Byte> {
    if calls == [] then [] else
      Delivered(calls[..|calls| - 1]) +
      (if calls[|calls| - 1].data.Some? then calls[|calls| - 1].data.value else [])
  }

  lemma DeliveredAppend(calls: seq<Call>, c: Call)
    ensures Delivered(calls + [c]) == Delivered(calls) + if c.data.Some? then c.data.value else []
  {
    assert (calls + [c])[..|calls|] == calls;
  }

  /** Everything but the last call is unfinished; the last one is `done` exactly when the operation is. */
  predicate Closed(calls: seq<Call>, done: bool) {
    && (forall i :: 0 <= i < |calls| - 1 ==> !calls[i].done)
    && (done <==> calls != [] && calls[|calls| - 1].done)
  }

  /**
    What a call tells its handler. An unforced one carries no error, and neither does the data that comes
    ahead of the end of a failed read; every other one carries the error of the operation. The last call of a
    read has data exactly if there is no error, that of a write exactly if there is one.
  */
  predicate Tells(direction: Direction, c: Call, note: Note) {
    && c.err == (if note.plain || (note.last && !c.done) then None else note.err)
    && (c.data.Some? <==> !c.done || (c.err.None? <==> direction == Read))
  }

  /** Every call tells what it should, and the last one the error the operation ended with. */
  predicate Told(direction: Direction, calls: seq<Call>, notes: seq<Note>, done: bool, err: Option<Errno>) {
    && |notes| == |calls| && (forall i :: 0 <= i < |calls| ==> Tells(direction, calls[i], notes[i]))
    && (done ==> calls != [] && calls[|calls| - 1].done && calls[|calls| - 1].err == err)
  }

  /** The promise of each handler call of a read. */
  predicate ReadCalls(calls: seq<Call>, notes: seq<Note>, low: nat, high: nat) {
    |notes| == |calls| && forall i :: 0 <= i < |calls| && calls[i].data.Some? ==>
      |calls[i].data.value| <= high && (notes[i].plain ==> low <= |calls[i].data.value|)
  }

  /**
    The promise of each handler call of a write: what was written and what is handed back make up the
    source, and an unforced call comes after `low` bytes, counting again those carried over.
  */
  predicate WriteCalls(calls: seq<Call>, notes: seq<Note>, source: seq<Byte>, low: nat) {
    && |notes| == |calls|
    && (forall i :: 0 <= i < |calls| && calls[i].data.Some? ==>
          notes[i].total <= |source| && source[..notes[i].total] + calls[i].data.value == source)
    && (forall i :: 0 <= i < |calls| && notes[i].plain ==> low <= notes[i].added + notes[i].carried)
  }

  /** The handler calls of one delivery. */
  function Handed(direction: Direction, done: bool, piece: seq<Byte>, err: Option<Errno>): seq<Call> {
    if !done then [Call(false, Some(piece), err)]
    else if direction == Read && err.Some? then
      (if piece != [] then [Call(false, Some(piece), None)] else []) + [Call(true, None, err)]
    else if direction == Write && err.None? then [Call(true, None, err)]
    else [Call(true, Some(piece), err)]
  }

  function Notes(n: nat, note: Note): seq<Note> {
    seq(n, i => note)
  }

  lemma HandedCloses(calls: seq<Call>, direction: Direction, done: bool, piece: seq<Byte>, err: Option<Errno>)
    requires Closed(calls, false)
    ensures Closed(calls + Handed(direction, done, piece, err), done)
  {
  }

  /** The calls of one delivery pass on the error of the operation, unless the delivery is unforced. */
  lemma HandedTells(direction: Direction, calls: seq<Call>, notes: seq<Note>, piece: seq<Byte>, err: Option<Errno>,
                    note: Note)
    requires Told(direction, calls, notes, false, err) && (note.plain ==> !note.last)
    ensures var more := Handed(direction, note.last, piece, if note.plain then None else note.err);
            Told(direction, calls + more, notes + Notes(|more|, note), note.last, note.err)
  {
  }

  /** Before the end, it does not matter what the error is. */
  lemma ToldSoFar(direction: Direction, calls: seq<Call>, notes: seq<Note>, err: Option<Errno>, err': Option<Errno>)
    requires Told(direction, calls, notes, false, err)
    ensures Told(direction, calls, notes, false, err')
  {
  }

  /** A delivery of a read hands over exactly the piece. */
  lemma HandedRead(calls: seq<Call>, notes: seq<Note>, low: nat, high: nat, done: bool, piece: seq<Byte>,
                   err: Option<Errno>, note: Note)
    requires ReadCalls(calls, notes, low, high) && |piece| <= high && (note.plain ==> low <= |piece|)
    ensures var more := Handed(Read, done, piece, err);
            && Delivered(calls + more) == Delivered(calls) + piece
            && ReadCalls(calls + more, notes + Notes(|more|, note), low, high)
  {
    var more := Handed(Read, done, piece, err);
    if |more| == 1 {
      DeliveredAppend(calls, more[0]);
    } else {
      DeliveredAppend(calls, more[0]);
      DeliveredAppend(calls + [more[0]], more[1]);
      assert calls + more == calls + [more[0]] + [more[1]];
    }
  }

  /** Asking for everything after the transferred part of the rest. */
  lemma WantedRest(source: seq<Byte>, total: nat, n: nat)
    requires n <= total <= |source|
    ensures Rope.Wanted(source[total - n..], n, |source|) == source[total..]
  {
    var rest := source[total - n..];
    assert rest[n..] == source[total..] && rest[n..|rest|] == rest[n..];
  }

  /** A delivery of a write hands back what has not been written. */
  lemma HandedWrite(calls: seq<Call>, notes: seq<Note>, source: seq<Byte>, low: nat, done: bool, piece: seq<Byte>,
                    err: Option<Errno>, note: Note)
    requires WriteCalls(calls, notes, source, low) && note.total <= |source| && source[..note.total] + piece == source
    requires note.plain ==> low <= note.added + note.carried
    ensures var more := Handed(Write, done, piece, err);
            WriteCalls(calls + more, notes + Notes(|more|, note), source, low)
  {
  }

  lemma EmptyHistory(source: seq<Byte>, low: nat, high: nat)
    ensures Delivered([]) == [] && Closed([], false) && ReadCalls([], [], low, high) && WriteCalls([], [], source, low)
    ensures forall direction, err :: Told(direction, [], [], false, err)
  {
  }

  // ---------------------------------------------------------------------------------------------
  // The size of the next buffer
  // ---------------------------------------------------------------------------------------------

  function Min(a: nat, b: nat): nat {
    if a < b then a else b
  }

  function Sum(cuts: seq<nat>): nat {
    if cuts == [] then 0 else cuts[0] + Sum(cuts[1..])
  }

  /** The lengths of the regions of some data: none is empty. */
  predicate Cuts(cuts: seq<nat>, size: nat) {
    Sum(cuts) == size && forall i :: 0 <= i < |cuts| ==> cuts[i] > 0
  }

  lemma {:induction false} SumAppend(a: seq<nat>, b: seq<nat>)
    ensures Sum(a + b) == Sum(a) + Sum(b)
  {
    if a == [] {
      assert a + b == b;
    } else {
      assert (a + b)[1..] == a[1..] + b;
      SumAppend(a[1..], b);
    }
  }

  /** Any list of lengths cuts data of any size into regions; a list that fits is used as it is. */
  function Clip(cuts: seq<nat>, size: nat): (r: seq<nat>)
    ensures Cuts(r, size)
    ensures Cuts(cuts, size) ==> r == cuts
  {
    if size == 0 then []
    else if cuts == [] || cuts[0] == 0 || cuts[0] >= size then
      assert [size][1..] == [];
      assert cuts != [] ==> cuts == [cuts[0]] + cuts[1..];
      assert cuts != [] && cuts[1..] != [] ==> Sum(cuts) >= cuts[0] + cuts[1..][0];
      [size]
    else
      var rest := Clip(cuts[1..], size - cuts[0]);
      assert ([cuts[0]] + rest)[1..] == rest && cuts == [cuts[0]] + cuts[1..];
      [cuts[0]] + rest
  }

  lemma OneCut(n: nat)
    requires n > 0
    ensures Clip([n], n) == [n] && Sum([n][..1]) == n
  {
    assert [n][1..] == [] && [n][..1] == [n];
  }

  /** The first `k` regions, more than one only if they fit the limit, and no more of them would. */
  predicate Fills(cuts: seq<nat>, k: nat, limit: nat)
    requires k <= |cuts|
  {
    (k > 1 ==> Sum(cuts[..k]) <= limit) && (k < |cuts| ==> Sum(cuts[..k + 1]) > limit)
  }

  /** The first region, and then whole regions as long as they fit the chunk, up to the high-water mark. */
  method WriteSize(cuts: seq<nat>, size: nat, chunk: nat, high: nat) returns (siz: nat)
    requires Cuts(cuts, size) && size > 0 && high > 0
    ensures 0 < siz <= Min(size, high)
    ensures siz <= Min(chunk, high) || siz == Min(cuts[0], high)
    ensures exists k :: 0 < k <= |cuts| && siz == Min(Sum(cuts[..k]), high) && Fills(cuts, k, Min(chunk, high))
  {
    var limit := Min(chunk, high);
    siz := 0;
    var i := 0;
    var more := true;
    ghost var k := 0;
    while i < |cuts| && more
      invariant 0 <= i <= |cuts|
      invariant (i == 0 <==> siz == 0) && (i == 0 ==> more)
      invariant i > 0 && more ==> siz == Sum(cuts[..i]) && siz < limit
      invariant siz <= limit || (i > 0 && siz == cuts[0])
      invariant i > 0 ==> 0 < k <= i && siz == Sum(cuts[..k]) && (k > 1 ==> siz <= limit)
      invariant i > 0 ==> if more then k == i else k < |cuts| ==> Sum(cuts[..k + 1]) > limit
    {
      var next := siz + cuts[i];
      assert cuts[..i + 1] == cuts[..i] + [cuts[i]];
      SumAppend(cuts[..i], [cuts[i]]);
      if siz == 0 || next <= limit {
        siz := next;
        k := i + 1;
        if k < |cuts| {
          assert cuts[..k + 1] == cuts[..k] + [cuts[k]];
          SumAppend(cuts[..k], [cuts[k]]);
        }
      }
      more := next < limit;
      i := i + 1;
    }
    assert Fills(cuts, k, limit);
    assert cuts == cuts[..k] + cuts[k..];
    SumAppend(cuts[..k], cuts[k..]);
    if siz > high {
      siz := high;
    }
  }

  /** As large as a chunk, but never past the high-water mark or the end of the request. */
  function ReadSize(length: nat, total: nat, held: nat, chunk: nat, high: nat): (siz: nat)
    requires held < high && chunk > 0 && (length < SIZE_MAX ==> total < length)
    ensures 0 < siz && held + siz <= high && (length < SIZE_MAX ==> total + siz <= length)
  {
    var room := Min(high - held, chunk);
    if length < SIZE_MAX then Min(length - total, room) else room
  }

  /** Retrying a failed allocation never shrinks the request: the shrinking branch is unreachable. */
  lemma NeverShrinks(siz: nat, page: nat)
    requires page >= 4
    ensures siz < (if siz > page then siz else page) / 2 * 3
  {
  }

  /** The numbers of a write at one moment, for comparison with a later one. */
  datatype Snap = Snap(held: bool, bufLen: nat, bufSiz: nat, total: nat, undelivered: nat, rest: nat, done: bool,
                       notes: seq<Note>, reported: nat, carried: nat, err: Option<Errno>)

  /** A delivery that may be forced: made at the low-water mark, and noted with the bytes since the last one. */
  predicate Attempt(low: nat, forced: bool, before: Snap, after: Snap) {
    && !after.done && after.total == before.total && after.bufSiz == before.bufSiz
    && (before.bufLen < before.bufSiz ==> after.held == before.held && after.bufLen == before.bufLen)
    && before.reported <= before.total
    && if forced || before.undelivered + before.bufLen >= low then
         && after.notes ==
              before.notes +
              [Note(before.total, !forced, before.total - before.reported, before.carried, false, after.err)]
         && after.reported == before.total && after.carried == after.bufLen
       else after.notes == before.notes && after.reported == before.reported && after.carried == before.carried
  }

  lemma RestApart(low: nat, before: Snap, rest: nat, after: Snap)
    requires Attempt(low, false, before.(rest := rest), after)
    ensures Attempt(low, false, before, after)
  {
  }

  /** The kernel takes part of what the buffer offers, in one run of the handler. */
  predicate PartTaken(high: nat, event: Event, before: Snap) {
    && event.Handler? && event.stop.None? && !event.initial && event.again.None? && event.openErr.None?
    && event.outcome.Moves? && 0 < event.outcome.room
    && (before.held || event.cuts == [before.rest])
    && event.outcome.room < SizeHeld(high, before) - before.bufLen
  }

  /** The buffer at hand, or the one made for data of a single region. */
  function SizeHeld(high: nat, before: Snap): nat {
    if before.held then before.bufSiz else Min(before.rest, high)
  }

  function Taken(high: nat, before: Snap, n: nat): Snap {
    before.(held := true, bufSiz := SizeHeld(high, before), bufLen := before.bufLen + n, total := before.total + n)
  }

  // ---------------------------------------------------------------------------------------------
  // What an event does
  // ---------------------------------------------------------------------------------------------

  /** The first thing to go wrong in an attempt at the system call. */
  function Trouble(again: Option<Errno>, openErr: Option<Errno>, outcome: Outcome): Option<Errno> {
    if again.Some? then again else if openErr.Some? then openErr
    else if outcome.Fails? then Some(outcome.errno) else None
  }

  /** The error an event leaves with the operation: EAGAIN of a system call is none. */
  function Recorded(event: Event): Option<Errno> {
    match event
    case Handler(stop, _, again, _, openErr, outcome) =>
      if stop.Some? then stop
      else if Trouble(again, openErr, outcome) == Some(EAGAIN) then None
      else Trouble(again, openErr, outcome)
    case Timer(_) => None
    case Cleanup(cause) => cause
  }

  /** The bytes that an event has on offer: those to read, or as many as there is room to write. */
  function Offer(event: Event, direction: Direction): nat {
    if event.Handler? && event.stop.None? && Trouble(event.again, event.openErr, event.outcome).None? then
      if direction == Read then |event.outcome.available| else event.outcome.room
    else 0
  }

  /** The event ends the operation, however much is still to be moved. */
  predicate Fatal(event: Event, direction: Direction) {
    match event
    case Handler(stop, _, again, _, openErr, outcome) =>
      stop.Some? || (match Trouble(again, openErr, outcome)
                     case None => Offer(event, direction) == 0
                     case Some(e) => e != EAGAIN && e != EBADF)
    case Timer(_) => false
    case Cleanup(_) => true
  }

  /** There is nothing to move right now. */
  predicate Dry(event: Event) {
    event.Handler? && event.stop.None? && Trouble(event.again, event.openErr, event.outcome) == Some(EAGAIN)
  }

  /** The error after an event: the one it brings, or else cancellation if that was noticed. */
  predicate Settled(event: Event, stopped: bool, before: Option<Errno>, after: Option<Errno>, done: bool) {
    if Recorded(event).Some? then after == Recorded(event)
    else
      && (after == before || (before.None? && stopped && after == Some(ECANCELED)))
      && (done && stopped ==> after.Some?)
  }

  /** The error of the last event that brought one. */
  function LastRecorded(events: seq<Event>): Option<Errno> {
    if events == [] then None
    else if Recorded(events[|events| - 1]).Some? then Recorded(events[|events| - 1])
    else LastRecorded(events[..|events| - 1])
  }

  /** What an operation is: its direction, its length, and whether it is a convenience call. */
  datatype Order = Order(direction: Direction, length: nat, convenience: bool)

  /** How an operation stands. */
  datatype Stand = Stand(total: nat, moved: seq<Byte>, err: Option<Errno>, done: bool)

  /** The event finishes an operation that stands at `total` after it. */
  predicate Finishes(order: Order, event: Event, total: nat) {
    || Fatal(event, order.direction) || total == order.length
    || (Dry(event) && order.direction == Read && total > 0 && order.convenience)
  }

  /**
    What an event does to an operation: it moves bytes exactly if some are on offer, ends the operation exactly
    if it is fatal or nothing is left, or if a convenience read that has something runs dry, and settles the error.
  */
  predicate Happened(order: Order, event: Event, stopped: bool, before: Stand, after: Stand) {
    var offer := Offer(event, order.direction);
    && before.total <= after.total <= before.total + offer && (offer > 0 ==> before.total < after.total)
    && (order.direction == Read ==>
          after.moved == before.moved +
          if after.total == before.total then [] else event.outcome.available[..after.total - before.total])
    && (after.done <==> Finishes(order, event, after.total))
    && Settled(event, stopped, before.err, after.err, after.done)
  }

  /** An announcement before the attempt can only have noticed that the channel was stopped. */
  lemma HappenedSince(order: Order, initial: bool, again: Option<Errno>, cuts: seq<nat>, openErr: Option<Errno>,
                      outcome: Outcome, stopped: bool, before: Stand, between: Stand, after: Stand)
    requires Happened(order, Handler(None, false, again, cuts, openErr, outcome), stopped, between, after)
    requires between == before.(err := between.err)
    requires between.err == before.err || (before.err.None? && stopped && between.err == Some(ECANCELED))
    ensures Happened(order, Handler(None, initial, again, cuts, openErr, outcome), stopped, before, after)
  {
  }

  /**
    How an operation stands after the events it handled: it is over exactly after the last one if that finished it,
    its error is that of the last event that brought one, and without any it is cancelled if found stopped.
  */
  predicate Ended(order: Order, events: seq<Event>, stopped: seq<bool>, err: Option<Errno>, after: Stand)
    requires |stopped| == |events|
  {
    var n := |events|;
    && (forall i :: 0 <= i < n - 1 ==> !Fatal(events[i], order.direction))
    && (after.done <==> n > 0 && Finishes(order, events[n - 1], after.total))
    && if LastRecorded(events).Some? then after.err == LastRecorded(events)
       else
         && (after.err == err || (err.None? && after.err == Some(ECANCELED) && true in stopped))
         && (after.done && stopped[n - 1] ==> after.err.Some?)
  }

  lemma EndedStep(order: Order, events: seq<Event>, stopped: seq<bool>, k: nat, err: Option<Errno>, before: Stand,
                  after: Stand)
    requires |stopped| == |events| && k < |events| && !before.done
    requires Ended(order, events[..k], stopped[..k], err, before)
    requires Happened(order, events[k], stopped[k], before, after)
    ensures Ended(order, events[..k + 1], stopped[..k + 1], err, after)
  {
    var es, ss := events[..k + 1], stopped[..k + 1];
    assert es[..|es| - 1] == events[..k] && ss == stopped[..k] + [stopped[k]];
    assert k > 0 ==> !Fatal(events[..k][k - 1], order.direction);
  }

  /** What an event does to the numbers of a write. */
  predicate Reacted(low: nat, high: nat, event: Event, before: Snap, after: Snap) {
    && (event.Timer? ==> Attempt(low, event.strict, before, after))
    && (PartTaken(high, event, before) ==> Attempt(low, false, Taken(high, before, event.outcome.room), after))
  }

  // ---------------------------------------------------------------------------------------------
  // The operation
  // ---------------------------------------------------------------------------------------------

  class Operation {
    const direction: Direction
    const length: nat
    const low: nat
    const high: nat
    const chunk: nat
    const convenience: bool
    /** What a write was given to write. */
    ghost const source: seq<Byte>

    var buf: array?<Byte>
    var bufLen: nat
    var bufSiz: nat
    var total: nat
    var undelivered: nat
    var data: seq<Byte>
    var err: Option<Errno>
    var done: bool
    /** Every handler call submitted, in order. */
    var calls: seq<Call>

    /** Every byte the system calls moved, in order. */
    ghost var moved: seq<Byte>
    ghost var notes: seq<Note>
    /** At the last delivery: how many bytes had moved, and how many of them it left in the buffer. */
    ghost var reported: nat
    ghost var carried: nat

    ghost predicate BufferOk()
      reads this
    {
      && (buf == null ==> bufLen == 0)
      && (buf != null ==> 0 < bufSiz == buf.Length && bufLen <= bufSiz)
      && low <= high && 0 < high && 0 < chunk
    }

    /** The part of the buffer already transferred. */
    ghost function Filled(): seq<Byte>
      requires BufferOk()
      reads this, buf
    {
      if buf == null then [] else buf[..bufLen]
    }

    ghost function Room(): nat
      requires BufferOk()
      reads this
    {
      if buf == null then 0 else bufSiz - bufLen
    }

    /** Bytes read are delivered, gathered or in the buffer, in that order. */
    ghost predicate ReadOk()
      requires BufferOk()
      reads this, buf
    {
      && Delivered(calls) + data + Filled() == moved && total == |moved|
      && undelivered == |data| && (data == [] || |data| < low)
      && |data| + bufLen + Room() <= high
      && (length < SIZE_MAX ==> total + Room() <= length)
      && ReadCalls(calls, notes, low, high)
    }

    /** Bytes written are a prefix of the source; `data` is the rest with what the buffer still covers. */
    ghost predicate WriteData()
      requires BufferOk()
      reads this, buf
    {
      && length == |source| && bufLen <= total <= length <= SIZE_MAX
      && moved == source[..total] && data == source[total - bufLen..]
      && (buf != null ==> bufSiz <= |data| && buf[..] == data[..bufSiz])
      && WriteCalls(calls, notes, source, low) && reported <= total
    }

    /** The source's count of undelivered bytes: those since the last delivery, and again those it left behind. */
    ghost predicate WriteOk()
      requires BufferOk()
      reads this, buf
    {
      WriteData() && undelivered + bufLen == (total - reported) + carried
    }

    ghost predicate Sound()
      reads this, buf
    {
      && BufferOk() && Closed(calls, done) && Told(direction, calls, notes, done, err)
      && (if direction == Read then ReadOk() else WriteOk()) && reported <= total
    }

    /** Between two runs of the handler: the next system call can make progress. */
    ghost predicate Valid()
      reads this, buf
    {
      && Sound() && (buf != null ==> bufLen < bufSiz)
      && (direction == Read ==> |data| + bufLen == 0 || (!done && |data| + bufLen < low))
      && (!done ==> total != length && (length < SIZE_MAX ==> total < length))
    }

    constructor (channel: Channel, direction: Direction, length: nat, data: seq<Byte>, chunk: nat, convenience: bool)
      requires channel.Valid() && 0 < length <= SIZE_MAX && 0 < chunk
      requires if direction == Write then length == |data| else data == []
      ensures Valid() && !done && calls == [] && moved == [] && fresh(this)
      ensures this.direction == direction && this.length == length && buf == null
      ensures direction == Write ==> source == data
      ensures low == channel.low && high == channel.high && this.data == data && reported == carried == total == 0
    {
      this.direction, this.length, this.chunk, this.convenience := direction, length, chunk, convenience;
      low, high, source := channel.low, channel.high, data;
      buf, bufLen, bufSiz, total, undelivered, err, done := null, 0, 0, 0, 0, None, false;
      this.data, moved, calls, notes := data, [], [], [];
      reported, carried := 0, 0;
      new;
      hide Valid;
      Starts();
    }

    lemma Starts()
      requires low <= high && 0 < high && 0 < chunk && 0 < length <= SIZE_MAX
      requires if direction == Write then length == |data| && source == data else data == []
      requires buf == null && bufLen == total == undelivered == reported == carried == 0 && !done
      requires moved == [] && calls == [] && notes == []
      ensures Valid()
    {
      hide Delivered, ReadCalls, WriteCalls, Closed;
      EmptyHistory(source, low, high);
      assert direction == Write ==> source[..0] == [] && source[0..] == source;
    }

    /** Gives up the buffer and gathers what was read. */
    method TakeRead(deliver: bool) returns (piece: seq<Byte>)
      requires BufferOk()
      modifies this`buf, this`bufLen, this`data
      ensures BufferOk() && bufLen == 0 && (buf == null || (buf == old(buf) && old(bufLen) == 0))
      ensures piece == old(data) + old(Filled()) && data == if deliver then [] else piece
    {
      if bufLen > 0 {
        piece := data + buf[..bufLen];
        buf, bufLen := null, 0;
      } else {
        piece := data;
      }
      data := if deliver then [] else piece;
    }

    /** Cuts what was written off the head of the data, once the buffer is used up. */
    method TakeWrite(deliver: bool) returns (piece: seq<Byte>)
      requires BufferOk() && WriteData()
      modifies this`buf, this`bufLen, this`data
      ensures BufferOk() && WriteData() && (buf != null ==> bufLen < bufSiz && buf == old(buf))
      ensures deliver ==> piece == source[total..]
      ensures old(bufLen) < old(bufSiz) ==> buf == old(buf) && bufLen == old(bufLen)
      ensures old(bufLen) >= old(bufSiz) || total == length ==> bufLen == 0
    {
      hide WriteCalls, Rope.Wanted;
      WantedRest(source, total, bufLen);
      piece := [];
      if deliver {
        piece := Rope.Wanted(data, bufLen, length);
      }
      if buf != null && bufLen == bufSiz {
        data := if deliver then piece else Rope.Wanted(data, bufSiz, length);
        buf, bufLen := null, 0;
      }
    }

    /** The flags or the water marks ask for a delivery of `pending` bytes. */
    predicate Asked(flags: Flags, pending: nat)
    {
      Forced(flags) || pending >= low
    }

    /** The error a delivery passes on. */
    function Passed(flags: Flags): Option<Errno>
      reads this
    {
      if Forced(flags) then err else None
    }

    /** What a delivery would be noted as now. */
    ghost function NoteNow(flags: Flags): Note
      requires reported <= total
      reads this
    {
      Note(total, !Forced(flags), total - reported, carried, flags.done, err)
    }

    /** What a delivery would hand over now. */
    ghost function Piece(): seq<Byte>
      requires Sound()
      reads this, buf
    {
      if direction == Read then data + Filled() else source[total..]
    }

    /** Flags or water marks ask for a delivery, and it need not be suppressed for being empty. */
    ghost predicate Due(flags: Flags)
      requires Sound()
      reads this, buf
    {
      Asked(flags, undelivered + bufLen) && !(flags.noEmpty && Piece() == [])
    }

    /** Submits the handler calls of a delivery. */
    method Hand(flags: Flags, piece: seq<Byte>)
      requires Closed(calls, false) && Told(direction, calls, notes, false, err) && reported <= total
      modifies this`undelivered, this`calls, this`notes, this`done, this`reported, this`carried
      ensures calls == old(calls) + Handed(direction, flags.done, piece, Passed(flags))
      ensures Closed(calls, done) && Told(direction, calls, notes, done, err)
      ensures |calls| > |old(calls)| && notes == old(notes) + Notes(|calls| - |old(calls)|, old(NoteNow(flags)))
      ensures !flags.done ==> |calls| == |old(calls)| + 1
      ensures done == flags.done && undelivered == 0 && reported == total && carried == bufLen
    {
      hide Told, Closed;
      var more := Handed(direction, flags.done, piece, Passed(flags));
      HandedCloses(calls, direction, flags.done, piece, Passed(flags));
      HandedTells(direction, calls, notes, piece, err, NoteNow(flags));
      notes := notes + Notes(|more|, NoteNow(flags));
      undelivered, reported, carried := 0, total, bufLen;
      calls, done := calls + more, flags.done;
    }

    /** A delivery has been made and noted. */
    ghost predicate Noted(flags: Flags, before: seq<Call>, noted: seq<Note>, note: Note, piece: seq<Byte>)
      reads this
    {
      && calls == before + Handed(direction, flags.done, piece, if note.plain then None else note.err)
      && |calls| > |before| && notes == noted + Notes(|calls| - |before|, note)
      && reported == total && carried == bufLen && (!flags.done ==> |calls| == |before| + 1)
    }

    method DeliverRead(flags: Flags, deliver: bool, pending: nat)
      requires Sound() && !done && direction == Read && pending == undelivered + bufLen
      requires !(flags.done && flags.noEmpty) && deliver == Asked(flags, pending)
      modifies this`buf, this`bufLen, this`data, this`undelivered, this`calls, this`notes, this`done,
               this`reported, this`carried
      ensures Sound() && done == flags.done && bufLen == 0 && (buf == null || buf == old(buf))
      ensures data == [] || (!flags.done && |data| < low)
      ensures if old(Due(flags)) then Noted(flags, old(calls), old(notes), old(NoteNow(flags)), old(Piece()))
              else calls == old(calls) && notes == old(notes) && reported == old(reported) && carried == old(carried)
    {
      hide Delivered, ReadCalls, Closed, Told, Handed, Notes;
      ghost var before := Delivered(calls);
      assert moved == before + (data + Filled());
      var piece := TakeRead(deliver);
      assert Filled() == [] && before + piece + [] == moved;
      if !deliver || (flags.noEmpty && piece == []) {
        undelivered := pending;
        return;
      }
      HandedRead(calls, notes, low, high, flags.done, piece, Passed(flags), NoteNow(flags));
      Hand(flags, piece);
      assert Delivered(calls) + data + Filled() == moved;
    }

    method DeliverWrite(flags: Flags, deliver: bool, pending: nat)
      requires Sound() && !done && direction == Write && pending == undelivered + bufLen
      requires !(flags.done && flags.noEmpty) && deliver == Asked(flags, pending) && (deliver || bufLen >= bufSiz)
      modifies this`buf, this`bufLen, this`data, this`undelivered, this`calls, this`notes, this`done,
               this`reported, this`carried
      ensures Sound() && done == flags.done && (buf != null ==> bufLen < bufSiz && buf == old(buf))
      ensures old(bufLen) < old(bufSiz) ==> buf == old(buf) && bufLen == old(bufLen)
      ensures if old(Due(flags)) then Noted(flags, old(calls), old(notes), old(NoteNow(flags)), old(Piece()))
              else calls == old(calls) && notes == old(notes) && reported == old(reported) && carried == old(carried)
    {
      hide WriteCalls, Closed, Told, Handed, Notes;
      var piece := TakeWrite(deliver);
      if !deliver || (flags.noEmpty && piece == []) {
        assert deliver ==> |source[total..]| == 0;
        assert bufLen == 0;
        undelivered := pending;
        return;
      }
      assert piece == source[total..] && source[..total] + piece == source;
      HandedWrite(calls, notes, source, low, flags.done, piece, Passed(flags), NoteNow(flags));
      Hand(flags, piece);
    }

    /** The error of the operation once a delivery has looked whether its channel was stopped. */
    function Noticed(flags: Flags, stopped: bool): Option<Errno>
      reads this
    {
      if err.None? && stopped && Forced(flags) then Some(ECANCELED) else err
    }

    /** Hands data to the handler when flags or water marks ask for it, and gives up a used buffer. */
    method DeliverData(flags: Flags, stopped: bool)
      requires Sound() && !done && !(flags.done && flags.noEmpty)
      modifies this
      ensures Sound() && done == flags.done && (buf != null ==> bufLen < bufSiz)
      ensures total == old(total) && moved == old(moved) && (buf == null || buf == old(buf))
      ensures direction == Read ==> |data| + bufLen == 0 || (!flags.done && |data| + bufLen < low)
      ensures bufSiz == old(bufSiz) && err == old(Noticed(flags, stopped))
      ensures direction == Write && old(bufLen) < old(bufSiz) ==> buf == old(buf) && bufLen == old(bufLen)
      ensures if old(Due(flags)) then
                Noted(flags, old(calls), old(notes), old(NoteNow(flags)).(err := err), old(Piece()))
              else calls == old(calls) && notes == old(notes) && reported == old(reported) && carried == old(carried)
    {
      hide Delivered, ReadCalls, WriteCalls, Closed, Told, Notes, Handed;
      var pending := undelivered + bufLen;
      var deliver := flags.deliver || flags.done;
      if !deliver {
        if pending >= low {
          deliver := true;
        } else if bufLen < bufSiz {
          return;
        }
      } else {
        Look(stopped);
      }
      Dispatch(flags, deliver, pending);
    }

    /** The delivery of a read or of a write. */
    method Dispatch(flags: Flags, deliver: bool, pending: nat)
      requires Sound() && !done && pending == undelivered + bufLen && !(flags.done && flags.noEmpty)
      requires deliver == Asked(flags, pending) && (deliver || bufLen >= bufSiz)
      modifies this`buf, this`bufLen, this`data, this`undelivered, this`calls, this`notes, this`done,
               this`reported, this`carried
      ensures Sound() && done == flags.done && (buf != null ==> bufLen < bufSiz) && (buf == null || buf == old(buf))
      ensures direction == Read ==> |data| + bufLen == 0 || (!flags.done && |data| + bufLen < low)
      ensures direction == Write && old(bufLen) < old(bufSiz) ==> buf == old(buf) && bufLen == old(bufLen)
      ensures if old(Due(flags)) then Noted(flags, old(calls), old(notes), old(NoteNow(flags)), old(Piece()))
              else calls == old(calls) && notes == old(notes) && reported == old(reported) && carried == old(carried)
    {
      hide ReadOk, WriteOk, Closed, Told, Notes, Handed;
      if direction == Read {
        DeliverRead(flags, deliver, pending);
      } else {
        DeliverWrite(flags, deliver, pending);
      }
    }

    /** A stopped channel cancels an operation that has no error yet. */
    method Look(stopped: bool)
      requires Sound() && !done
      modifies this`err
      ensures Sound() && err == if old(err).None? && stopped then Some(ECANCELED) else old(err)
    {
      hide Delivered, ReadCalls, WriteCalls, Closed, Told;
      if err.None? && stopped {
        ToldSoFar(direction, calls, notes, err, Some(ECANCELED));
        err := Some(ECANCELED);
      }
    }

    function Answer(e: Errno, total: nat): Result {
      match e
      case EAGAIN => if direction == Read && total > 0 && convenience then CompleteResume else Resume
      case ECANCELED => Err
      case EBADF => FdErr
      case Other(_) => Complete
    }

    method HandleError(e: Errno) returns (result: Result)
      requires Valid() && !done
      modifies this`err
      ensures Valid() && result == Answer(e, total)
      ensures err == if e == EAGAIN then old(err) else Some(e)
    {
      hide Delivered, ReadCalls, WriteCalls, Closed, Told;
      if e == EAGAIN {
        if direction == Read && total > 0 && convenience {
          return CompleteResume;
        }
        return Resume;
      }
      ToldSoFar(direction, calls, notes, err, Some(e));
      err := Some(e);
      match e
      case ECANCELED => result := Err;
      case EBADF => result := FdErr;
      case _ => result := Complete;
    }

    /** Makes a buffer when there is none; `cuts` are the lengths of the regions of the data. */
    method Prepare(cuts: seq<nat>)
      requires Valid() && !done
      modifies this`buf, this`bufSiz
      ensures Valid() && buf != null
      ensures if old(buf) != null then buf == old(buf) && bufSiz == old(bufSiz) else fresh(buf)
      ensures old(buf) == null && direction == Write && cuts == [|data|] ==> bufSiz == Min(|data|, high)
    {
      hide ReadOk, WriteOk, Closed;
      if buf == null {
        if direction == Read {
          PrepareRead();
        } else {
          PrepareWrite(cuts);
        }
      }
    }

    method PrepareRead()
      requires Valid() && !done && buf == null && direction == Read
      modifies this`buf, this`bufSiz
      ensures Valid() && buf != null && fresh(buf)
    {
      hide Delivered, ReadCalls, Closed;
      assert |data| < high;
      var siz := ReadSize(length, total, |data|, chunk, high);
      bufSiz := siz;
      buf := new Byte[siz];
    }

    method PrepareWrite(cuts: seq<nat>)
      requires Valid() && !done && buf == null && direction == Write
      modifies this`buf, this`bufSiz
      ensures Valid() && buf != null && fresh(buf)
      ensures cuts == [|data|] ==> bufSiz == Min(|data|, high)
    {
      hide WriteCalls, Closed, Clip;
      if cuts == [|data|] { OneCut(|data|); }
      var siz := WriteSize(Clip(cuts, |data|), |data|, chunk, high);
      bufSiz := siz;
      buf := new Byte[siz](i requires 0 <= i < siz <= |data| reads this => data[i]);
      assert buf[..] == data[..siz];
    }

    /** The kernel fills the next part of the buffer. */
    method Receive(bytes: seq<Byte>)
      requires Sound() && direction == Read && buf != null && bufLen + |bytes| <= bufSiz
      modifies this`bufLen, this`total, this`moved, buf
      ensures Sound() && bufLen == old(bufLen) + |bytes| && total == old(total) + |bytes|
      ensures moved == old(moved) + bytes && (length < SIZE_MAX ==> total <= length)
    {
      hide Delivered, ReadCalls, Closed;
      ghost var before, filled := Delivered(calls) + data, Filled();
      forall j | 0 <= j < |bytes| {
        buf[bufLen + j] := bytes[j];
      }
      bufLen, total, moved := bufLen + |bytes|, total + |bytes|, moved + bytes;
      assert Filled() == filled + bytes;
      assert before + (filled + bytes) == (before + filled) + bytes;
    }

    /** The kernel takes the next `n` bytes of the buffer. */
    method Send(n: nat)
      requires Sound() && direction == Write && buf != null && bufLen + n <= bufSiz
      modifies this`bufLen, this`total, this`moved
      ensures Sound() && bufLen == old(bufLen) + n && total == old(total) + n
      ensures moved == old(moved) + buf[old(bufLen)..bufLen] && (length < SIZE_MAX ==> total <= length)
    {
      hide WriteCalls, Closed;
      ghost var part := buf[bufLen..bufLen + n];
      assert part == data[..bufSiz][bufLen..bufLen + n];
      assert part == data[bufLen..bufLen + n];
      assert part == source[total..total + n];
      assert source[..total + n] == source[..total] + part;
      bufLen, total, moved := bufLen + n, total + n, moved + part;
    }

    /** The buffer of a write covers no more than what is left to write. */
    lemma RoomLeft()
      requires Valid() && direction == Write && buf != null
      ensures bufSiz - bufLen <= length - total
    {
    }

    /** What a system call with enough room would transfer. */
    function Offered(outcome: Outcome): nat
      requires outcome.Moves?
    {
      if direction == Read then |outcome.available| else outcome.room
    }

    /**
      One attempt at the system call. `asked` is the length it is issued with, if it comes to that: never
      zero, so that a transfer of nothing means the end of the file.
    */
    method Perform(stop: Option<Errno>, cuts: seq<nat>, openErr: Option<Errno>, outcome: Outcome)
      returns (result: Result, asked: Option<nat>)
      requires Valid() && !done
      modifies this, buf
      ensures Sound() && !done && (result != Complete && result != Deliver ==> Valid())
      ensures result == Deliver ==> total != length && (length < SIZE_MAX ==> total < length)
      ensures calls == old(calls) && (if old(buf) != null then buf == old(buf) else buf == null || fresh(buf))
      ensures notes == old(notes) && reported == old(reported) && carried == old(carried)
      ensures undelivered == old(undelivered)
      ensures direction == Write && asked.Some? ==> asked.value <= length - old(total)
      ensures asked.None? <==> stop.Some? || openErr.Some?
      ensures asked.Some? ==> 0 < asked.value && buf != null && asked.value == bufSiz - old(bufLen)
      ensures asked.Some? && old(buf) != null ==> bufSiz == old(bufSiz)
      ensures asked.Some? && old(buf) == null && direction == Write && cuts == [|old(data)|] ==>
                bufSiz == Min(|old(data)|, high)
      ensures match Trouble(stop, openErr, outcome)
              case None => err == old(err)
              case Some(e) => err == (if e == EAGAIN then old(err) else Some(e)) && result == Answer(e, old(total))
      ensures if asked.Some? && outcome.Moves? then
                var n := Min(asked.value, Offered(outcome));
                && total == old(total) + n && bufLen == old(bufLen) + n
                && (result == DeliverAndComplete <==> Offered(outcome) == 0)
                && (n > 0 ==> result == if total == length then Complete else Deliver)
              else total == old(total) && bufLen == old(bufLen) && result != DeliverAndComplete && result != Deliver
      ensures direction == Read ==>
                moved == old(moved) + if total > old(total) then outcome.available[..total - old(total)] else []
    {
      hide Closed, ReadOk, WriteOk;
      asked := None;
      if stop.Some? {
        result := HandleError(stop.value);
        return;
      }
      Prepare(cuts);
      if openErr.Some? {
        result := HandleError(openErr.value);
        return;
      }
      var len := bufSiz - bufLen;
      asked := Some(len);
      if direction == Write { RoomLeft(); }
      if outcome.Fails? {
        result := HandleError(outcome.errno);
        return;
      }
      var processed := Min(len, Offered(outcome));
      if processed == 0 {
        result := DeliverAndComplete;
        return;
      }
      if direction == Read {
        Receive(outcome.available[..processed]);
      } else {
        Send(processed);
      }
      result := if total == length then Complete else Deliver;
    }

    /** Takes the operation off its stream and disposes of it: the last delivery. */
    method CompleteOperation(stopped: bool)
      requires Sound() && !done
      modifies this
      ensures Valid() && done && (buf == null || buf == old(buf)) && total == old(total) && moved == old(moved)
      ensures old(calls) <= calls
      ensures err == if old(err).None? && stopped then Some(ECANCELED) else old(err)
    {
      hide ReadOk, WriteOk, Handed, Notes;
      DeliverData(Flags(false, true, false), stopped);
    }

    /** The end of an operation whose channel or descriptor has failed. */
    method Stop(cause: Option<Errno>, stopped: bool)
      requires Valid() && !done
      modifies this
      ensures Valid() && done && (buf == null || buf == old(buf)) && total == old(total) && moved == old(moved)
      ensures old(calls) <= calls
      ensures err == if cause.Some? then cause else if old(err).None? && stopped then Some(ECANCELED) else old(err)
    {
      hide Delivered, ReadCalls, WriteCalls, Closed, Told;
      if cause.Some? {
        ToldSoFar(direction, calls, notes, err, cause);
        err := cause;
      }
      CompleteOperation(stopped);
    }

    predicate Completes(result: Result) {
      result.DeliverAndComplete? || result.Complete? || result.CompleteResume? || result.Err?
    }

    /** What the stream handler does about the result of an attempt. */
    method Finish(result: Result, stopped: bool)
      requires Sound() && !done && (result != Complete && result != Deliver ==> Valid())
      requires result == Deliver ==> total != length && (length < SIZE_MAX ==> total < length)
      modifies this
      ensures Valid() && (buf == null || buf == old(buf)) && total == old(total) && moved == old(moved)
      ensures done == Completes(result) && old(calls) <= calls
      ensures err == if old(err).None? && stopped && done then Some(ECANCELED) else old(err)
      ensures result == Deliver && direction == Write ==> Attempt(low, false, old(Numbers()), Numbers())
      ensures result == DeliverAndComplete && old(Piece()) != [] ==>
                old(calls) + [Call(false, Some(old(Piece())), err)] <= calls
    {
      hide ReadOk, WriteOk, Closed, Told;
      match result
      case Deliver =>
        DeliverData(DEFAULT, stopped);
      case DeliverAndComplete =>
        DeliverData(Flags(true, false, true), stopped);
        CompleteOperation(stopped);
      case Complete =>
        CompleteOperation(stopped);
      case CompleteResume =>
        CompleteOperation(stopped);
      case Err =>
        CompleteOperation(stopped);
      case Resume =>
      case FdErr =>
    }

    /** An attempt at the system call, and what follows from it. */
    method Try(again: Option<Errno>, cuts: seq<nat>, openErr: Option<Errno>, outcome: Outcome, stopped: bool)
      requires Valid() && !done
      modifies this, buf
      ensures Valid() && (buf == null || buf == old(buf) || fresh(buf)) && old(calls) <= calls
      ensures Happened(Kind(), Handler(None, false, again, cuts, openErr, outcome), stopped, old(Now()), Now())
      ensures direction == Write ==>
                var event := Handler(None, false, again, cuts, openErr, outcome);
                PartTaken(high, event, old(Numbers())) ==>
                  Attempt(low, false, Taken(high, old(Numbers()), outcome.room), Numbers())
    {
      hide ReadOk, WriteOk, Closed, Told, Attempt;
      var result, asked := Perform(again, cuts, openErr, outcome);
      ghost var after := Numbers();
      Finish(result, stopped);
      if direction == Write && PartTaken(high, Handler(None, false, again, cuts, openErr, outcome), old(Numbers())) {
        ghost var taken := Taken(high, old(Numbers()), outcome.room);
        assert after == taken.(rest := after.rest);
        RestApart(low, taken, after.rest, Numbers());
      }
    }

    /** An empty delivery to signal the start of the operation. */
    method Announce(stopped: bool)
      requires Valid() && !done
      modifies this
      ensures Valid() && !done && (buf == null || buf == old(buf)) && total == old(total) && moved == old(moved)
      ensures err == if old(err).None? && stopped then Some(ECANCELED) else old(err)
      ensures calls == old(calls) + [Call(false, Some(old(Piece())), err)]
    {
      hide ReadOk, WriteOk, Closed, Told;
      DeliverData(Flags(true, false, false), stopped);
    }

    /** One run of the stream handler with this operation picked. */
    method Handle(stop: Option<Errno>, initial: bool, again: Option<Errno>, cuts: seq<nat>, openErr: Option<Errno>,
                  outcome: Outcome, stopped: bool)
      requires Valid() && !done
      modifies this, buf
      ensures Valid() && (buf == null || buf == old(buf) || fresh(buf)) && old(calls) <= calls
      ensures var event := Handler(stop, initial, again, cuts, openErr, outcome);
              Happened(Kind(), event, stopped, old(Now()), Now())
      ensures stop.None? && initial && old(total) == 0 ==>
                var e := if stopped && old(err).None? then Some(ECANCELED) else old(err);
                old(calls) + [Call(false, Some(old(Piece())), e)] <= calls
      ensures direction == Write ==>
                var event := Handler(stop, initial, again, cuts, openErr, outcome);
                PartTaken(high, event, old(Numbers())) ==>
                  Attempt(low, false, Taken(high, old(Numbers()), outcome.room), Numbers())
    {
      hide Sound, Attempt;
      if stop.Some? {
        Stop(stop, stopped);
        return;
      }
      hide Happened;
      if total == 0 && initial {
        Announce(stopped);
      }
      ghost var between := Now();
      Try(again, cuts, openErr, outcome, stopped);
      HappenedSince(Kind(), initial, again, cuts, openErr, outcome, stopped, old(Now()), between, Now());
    }

    ghost function Kind(): Order {
      Order(direction, length, convenience)
    }

    ghost function Now(): Stand
      reads this
    {
      Stand(total, moved, err, done)
    }

    ghost function Numbers(): Snap
      reads this
    {
      Snap(buf != null, bufLen, bufSiz, total, undelivered, |data|, done, notes, reported, carried, err)
    }

    /** A timer tick. */
    method Tick(strict: bool, stopped: bool)
      requires Valid() && !done
      modifies this
      ensures Valid() && !done && (buf == null || buf == old(buf)) && old(calls) <= calls
      ensures Happened(Kind(), Timer(strict), stopped, old(Now()), Now())
      ensures direction == Write ==> Attempt(low, strict, old(Numbers()), Numbers())
      ensures strict ==> calls == old(calls) + [Call(false, Some(old(Piece())), err)]
    {
      hide ReadOk, WriteOk, Closed, Told;
      DeliverData(Flags(strict, false, false), stopped);
    }

    /** One event. */
    method React(event: Event, stopped: bool)
      requires Valid() && !done
      modifies this, buf
      ensures Valid() && (buf == null || buf == old(buf) || fresh(buf)) && old(calls) <= calls
      ensures Happened(Kind(), event, stopped, old(Now()), Now())
      ensures direction == Write ==> Reacted(low, high, event, old(Numbers()), Numbers())
      ensures event == Timer(true) ==> calls == old(calls) + [Call(false, Some(old(Piece())), err)]
    {
      match event
      case Handler(stop, initial, again, cuts, openErr, outcome) =>
        hide Valid, Attempt, Happened;
        Handle(stop, initial, again, cuts, openErr, outcome, stopped);
      case Timer(strict) =>
        hide Valid, Attempt, Happened;
        Tick(strict, stopped);
      case Cleanup(cause) =>
        hide Valid, Attempt;
        Stop(cause, stopped);
    }

    /** Any sequence of events; once the operation is over they do nothing. `handled` counts those before. */
    method Run(events: seq<Event>, stopped: seq<bool>) returns (handled: nat)
      requires Valid() && |stopped| == |events|
      modifies this, buf
      ensures Valid() && (buf == null || buf == old(buf) || fresh(buf)) && old(calls) <= calls
      ensures direction == Read ==> ReadCalls(calls, notes, low, high) && Delivered(calls) <= moved
      ensures direction == Read && done ==> Delivered(calls) == moved
      ensures direction == Read ==> |moved| - |Delivered(calls)| < if low == 0 then 1 else low
      ensures direction == Write ==> WriteCalls(calls, notes, source, low) && moved == source[..total]
      ensures direction == Write ==>
                forall i :: 0 <= i < |notes| && notes[i].plain && notes[i].carried == 0 ==> low <= notes[i].added
      ensures direction == Write && !old(done) && |events| == 1 ==>
                Reacted(low, high, events[0], old(Numbers()), Numbers())
      ensures Told(direction, calls, notes, done, err) && Closed(calls, done)
      ensures handled <= |events| && (!done ==> handled == |events|)
      ensures !old(done) ==> Ended(Kind(), events[..handled], stopped[..handled], old(err), Now())
    {
      handled := 0;
      while handled < |events| && !done
        invariant 0 <= handled <= |events| && Valid() && (buf == null || buf == old(buf) || fresh(buf))
        invariant old(calls) <= calls
        invariant handled == 0 ==> Numbers() == old(Numbers())
        invariant handled == 1 && direction == Write && !old(done) ==>
                    Reacted(low, high, events[0], old(Numbers()), Numbers())
        invariant !old(done) ==> Ended(Kind(), events[..handled], stopped[..handled], old(err), Now())
      {
        hide Valid, Reacted, Happened, Ended;
        ghost var before := Now();
        React(events[handled], stopped[handled]);
        if !old(done) { EndedStep(Kind(), events, stopped, handled, old(err), before, Now()); }
        handled := handled + 1;
      }
      Promises();
    }

    /** What validity promises of the history. */
    lemma Promises()
      requires Valid()
      ensures direction == Read ==> ReadCalls(calls, notes, low, high) && Delivered(calls) <= moved
      ensures direction == Read && done ==> Delivered(calls) == moved
      ensures direction == Read ==> |moved| - |Delivered(calls)| < if low == 0 then 1 else low
      ensures direction == Write ==> WriteCalls(calls, notes, source, low) && moved == source[..total]
      ensures direction == Write ==>
                forall i :: 0 <= i < |notes| && notes[i].plain && notes[i].carried == 0 ==> low <= notes[i].added
    {
      hide Delivered, ReadCalls, Closed;
    }
  }

  /**
    A call ahead of the last one can carry an error: a strict timer tick between the failure of the descriptor
    and the clean-up it leads to.
  */
  method EarlyError(low: nat, chunk: nat) returns (op: Operation)
    requires 0 < chunk && low <= SIZE_MAX
    ensures op.Valid() && op.done && op.direction == Read
    ensures exists i :: 0 <= i < |op.calls| - 1 && !op.calls[i].done && op.calls[i].err == Some(EBADF)
  {
    hide Operation.ReadOk, Operation.WriteData, Told;
    var channel := new Channel(low);
    op := new Operation(channel, Read, 1, [], chunk, false);
    op.React(Handler(None, false, None, [], None, Fails(EBADF)), false);
    op.React(Timer(true), false);
    ghost var i := |op.calls| - 1;
    assert !op.calls[i].done && op.calls[i].err == Some(EBADF);
    op.React(Cleanup(Some(EBADF)), false);
    assert !op.calls[i].done && op.calls[|op.calls| - 1].done;
  }

  /** A write that has delivered with some bytes left in a half-used buffer, by a strict timer tick if need be. */
  method CarryOver(low: nat, carried: nat, chunk: nat) returns (op: Operation)
    requires 0 < low && 0 < carried && 0 < chunk && low + carried + 2 <= SIZE_MAX
    ensures op.Valid() && !op.done && op.direction == Write && op.low == low && fresh(op)
    ensures op.buf != null && fresh(op.buf) && op.bufSiz == low + carried + 1
    ensures op.reported == op.carried == op.total == op.bufLen == carried && op.undelivered == 0
  {
    hide Operation.ReadOk, Operation.WriteData, Closed;
    var channel := new Channel(low);
    var n := low + carried + 1;
    op := new Operation(channel, Write, n, seq(n, i => 0), chunk, false);
    var _ := op.Run([Handler(None, false, None, [n], None, Moves([], carried))], [false]);
    if carried < low {
      var _ := op.Run([Timer(true)], [false]);
    }
  }

  /**
    For every low-water mark and every number of bytes carried over there is a run in which an unforced
    delivery of a write comes after fewer than `low` new bytes: only with nothing carried over is the
    mark kept.
  */
  method CarriedShort(low: nat, carried: nat, chunk: nat) returns (op: Operation)
    requires 0 < low && 0 < carried && 0 < chunk && low + carried + 2 <= SIZE_MAX
    ensures op.Valid() && op.direction == Write && op.low == low && op.notes != []
    ensures var note := op.notes[|op.notes| - 1];
            note.plain && note.carried == carried && note.added < low
  {
    hide Operation.ReadOk, Operation.WriteData, Closed;
    op := CarryOver(low, carried, chunk);
    if carried < low {
      var _ := op.Run([Handler(None, false, None, [], None, Moves([], low - carried))], [false]);
    } else if low > 1 {
      var _ := op.Run([Handler(None, false, None, [], None, Moves([], 1))], [false]);
    } else {
      var _ := op.Run([Timer(false)], [false]);
    }
  }
}
