/**
  Dispatch data objects: leaves that own a buffer, and composites that list slices of leaves.
  The values below give the flat meaning of an object; the class `Store` is the heap of objects with
  their reference counts, and its methods are the operations on data objects.
*/
module Rope {
  import Division

  type Byte = x: int | 0 <= x < 256
  type Id = nat

  const SIZE_MAX: nat := 0xffff_ffff_ffff_ffff
  /** The global empty object, which is never retained, released or freed. */
  const EMPTY: Id := 0

  datatype Option<T> = None | Some(value: T)

  datatype Record = Record(leaf: Id, from: nat, length: nat)

  datatype Object =
    | Freed(wasLeaf: bool)
    | Leaf(buffer: seq<Byte>)
    | Composite(size: nat, records: seq<Record>)

  // ---------------------------------------------------------------------------------------------
  // Flat meaning
  // ---------------------------------------------------------------------------------------------

  /** A record is a non-empty slice of a leaf: composites are never nested. */
  predicate RecordOk(objects: seq<Object>, r: Record) {
    && r.leaf < |objects| && objects[r.leaf].Leaf?
    && 0 < r.length && r.from + r.length <= |objects[r.leaf].buffer|
  }

  predicate RecordsOk(objects: seq<Object>, rs: seq<Record>) {
    forall i :: 0 <= i < |rs| ==> RecordOk(objects, rs[i])
  }

  function Slice(objects: seq<Object>, r: Record): seq<Byte>
    requires RecordOk(objects, r)
  {
    objects[r.leaf].buffer[r.from..r.from + r.length]
  }

  function Flatten(objects: seq<Object>, rs: seq<Record>): seq<Byte>
    requires RecordsOk(objects, rs)
  {
    if rs == [] then [] else Slice(objects, rs[0]) + Flatten(objects, rs[1..])
  }

  predicate Live(objects: seq<Object>, id: Id) {
    id < |objects| && !objects[id].Freed?
  }

  predicate CompositeOk(objects: seq<Object>, size: nat, rs: seq<Record>) {
    RecordsOk(objects, rs) && size == |Flatten(objects, rs)| <= SIZE_MAX
  }

  predicate ObjectOk(objects: seq<Object>, id: Id)
    requires id < |objects|
  {
    match objects[id]
    case Freed(_) => true
    case Leaf(buffer) => 0 < |buffer| <= SIZE_MAX
    case Composite(size, records) => CompositeOk(objects, size, records) && (records == [] <==> id == EMPTY)
  }

  /** Every object is empty, a leaf, or a list of slices of live leaves. */
  predicate Flat(objects: seq<Object>) {
    && objects != [] && objects[EMPTY] == Composite(0, [])
    && forall id :: 0 <= id < |objects| ==> ObjectOk(objects, id)
  }

  /** The bytes an object stands for. */
  function Bytes(objects: seq<Object>, id: Id): seq<Byte>
    requires Flat(objects) && Live(objects, id)
  {
    assert ObjectOk(objects, id);
    match objects[id]
    case Leaf(buffer) => buffer
    case Composite(_, records) => Flatten(objects, records)
  }

  function Size(objects: seq<Object>, id: Id): nat
    requires Live(objects, id)
  {
    match objects[id]
    case Leaf(buffer) => |buffer|
    case Composite(size, _) => size
  }

  /** The records of an object as concatenation copies them: a leaf is a slice of itself. */
  function RecordsOf(objects: seq<Object>, id: Id): seq<Record>
    requires Live(objects, id)
  {
    match objects[id]
    case Leaf(buffer) => [Record(id, 0, |buffer|)]
    case Composite(_, records) => records
  }

  lemma {:induction false} FlattenAppend(objects: seq<Object>, a: seq<Record>, b: seq<Record>)
    requires RecordsOk(objects, a) && RecordsOk(objects, b)
    ensures RecordsOk(objects, a + b) && Flatten(objects, a + b) == Flatten(objects, a) + Flatten(objects, b)
  {
    if a == [] {
      assert a + b == b;
    } else {
      assert (a + b)[0] == a[0] && (a + b)[1..] == a[1..] + b;
      FlattenAppend(objects, a[1..], b);
    }
  }

  /** Objects that a list of records does not name may change. */
  lemma {:induction false} FlattenFrame(objects: seq<Object>, objects': seq<Object>, rs: seq<Record>)
    requires RecordsOk(objects, rs)
    requires forall i :: 0 <= i < |rs| ==> rs[i].leaf < |objects'| && objects'[rs[i].leaf] == objects[rs[i].leaf]
    ensures RecordsOk(objects', rs) && Flatten(objects', rs) == Flatten(objects, rs)
  {
    if rs != [] {
      FlattenFrame(objects, objects', rs[1..]);
    }
  }

  lemma RecordsOfBytes(objects: seq<Object>, id: Id)
    requires Flat(objects) && Live(objects, id)
    ensures RecordsOk(objects, RecordsOf(objects, id))
    ensures Flatten(objects, RecordsOf(objects, id)) == Bytes(objects, id)
  {
    assert ObjectOk(objects, id);
    if objects[id].Leaf? {
      var rs := RecordsOf(objects, id);
      assert rs[1..] == [] && Slice(objects, rs[0]) == objects[id].buffer;
    }
  }

  // ---------------------------------------------------------------------------------------------
  // Counting references
  // ---------------------------------------------------------------------------------------------

  function Names(r: Record, id: Id): nat {
    if r.leaf == id then 1 else 0
  }

  /** How many records of a list name an object. */
  function Occurs(rs: seq<Record>, id: Id): nat {
    if rs == [] then 0 else Names(rs[0], id) + Occurs(rs[1..], id)
  }

  function Uses(o: Object, id: Id): nat {
    if o.Composite? then Occurs(o.records, id) else 0
  }

  /** How many records of all objects name an object. */
  function Count(objects: seq<Object>, id: Id): nat {
    if objects == [] then 0 else Uses(objects[0], id) + Count(objects[1..], id)
  }

  lemma {:induction false} OccursAppend(a: seq<Record>, b: seq<Record>, id: Id)
    ensures Occurs(a + b, id) == Occurs(a, id) + Occurs(b, id)
  {
    if a == [] {
      assert a + b == b;
    } else {
      assert (a + b)[0] == a[0] && (a + b)[1..] == a[1..] + b;
      OccursAppend(a[1..], b, id);
    }
  }

  lemma {:induction false} CountAppend(objects: seq<Object>, o: Object, id: Id)
    ensures Count(objects + [o], id) == Count(objects, id) + Uses(o, id)
  {
    if objects == [] {
      assert objects + [o] == [o] && [o][1..] == [];
    } else {
      assert (objects + [o])[1..] == objects[1..] + [o];
      CountAppend(objects[1..], o, id);
    }
  }

  lemma {:induction false} CountUpdate(objects: seq<Object>, k: nat, o: Object, id: Id)
    requires k < |objects|
    ensures Count(objects[k := o], id) + Uses(objects[k], id) == Count(objects, id) + Uses(o, id)
  {
    if k > 0 {
      assert objects[k := o][1..] == objects[1..][k - 1 := o];
      CountUpdate(objects[1..], k - 1, o, id);
    } else {
      assert objects[k := o][1..] == objects[1..];
    }
  }

  /** A named object is counted. */
  lemma {:induction false} CountPositive(objects: seq<Object>, k: nat, i: nat)
    requires k < |objects| && objects[k].Composite? && i < |objects[k].records|
    ensures Count(objects, objects[k].records[i].leaf) > 0
  {
    var id := objects[k].records[i].leaf;
    if k > 0 {
      CountPositive(objects[1..], k - 1, i);
    } else {
      OccursPositive(objects[0].records, i);
    }
  }

  lemma {:induction false} OccursPositive(rs: seq<Record>, i: nat)
    requires i < |rs|
    ensures Occurs(rs, rs[i].leaf) > 0
  {
    if i > 0 {
      OccursPositive(rs[1..], i - 1);
    }
  }

  lemma {:induction false} OccursZero(rs: seq<Record>, id: Id)
    requires forall i :: 0 <= i < |rs| ==> rs[i].leaf != id
    ensures Occurs(rs, id) == 0
  {
    if rs != [] {
      OccursZero(rs[1..], id);
    }
  }

  /** An object that no record names has count zero. */
  lemma {:induction false} CountZero(objects: seq<Object>, id: Id)
    requires forall k :: 0 <= k < |objects| && objects[k].Composite? ==>
               forall i :: 0 <= i < |objects[k].records| ==> objects[k].records[i].leaf != id
    ensures Count(objects, id) == 0
  {
    if objects != [] {
      if objects[0].Composite? { OccursZero(objects[0].records, id); }
      CountZero(objects[1..], id);
    }
  }

  /**
    The accounting: the stored count plus one is the handles plus the records naming the object.
    `extra` are records of an object under destruction, still to be released; `owed` are records of
    an object under construction, still to be retained.
  */
  ghost predicate Balanced(objects: seq<Object>, xref: seq<int>, handles: seq<nat>,
                           extra: seq<Record>, owed: seq<Record>)
  {
    && |xref| == |objects| == |handles|
    && forall id :: EMPTY < id < |objects| ==>
         && xref[id] + 1 + Occurs(owed, id) == handles[id] + Count(objects, id) + Occurs(extra, id)
         && (objects[id].Freed? <==> xref[id] == -1) && xref[id] >= -1
  }

  /** Objects are only added at the end and freed in place. */
  predicate Evolves(objects: seq<Object>, objects': seq<Object>) {
    |objects| <= |objects'|
    && forall id :: 0 <= id < |objects| ==>
         objects'[id] == objects[id] || (!objects[id].Freed? && objects'[id] == Freed(objects[id].Leaf?))
  }

  /** What an object stands for does not change while it lives. */
  lemma BytesKept(objects: seq<Object>, objects': seq<Object>, id: Id)
    requires Flat(objects) && Flat(objects') && Evolves(objects, objects') && id < |objects| && Live(objects', id)
    ensures Live(objects, id) && Bytes(objects', id) == Bytes(objects, id)
  {
    assert ObjectOk(objects, id) && ObjectOk(objects', id);
    if objects[id].Composite? {
      var rs := objects[id].records;
      forall i | 0 <= i < |rs| ensures rs[i].leaf < |objects'| && objects'[rs[i].leaf] == objects[rs[i].leaf] {
        assert RecordOk(objects, rs[i]) && RecordOk(objects', rs[i]);
      }
      FlattenFrame(objects, objects', rs);
    }
  }

  /** Adding a well-formed object keeps the store flat. */
  lemma FlatAppend(objects: seq<Object>, o: Object)
    requires Flat(objects)
    requires if o.Leaf? then 0 < |o.buffer| <= SIZE_MAX
             else o.Composite? && CompositeOk(objects, o.size, o.records) && o.records != []
    ensures Flat(objects + [o]) && Evolves(objects, objects + [o])
  {
    var objects' := objects + [o];
    forall id | 0 <= id < |objects'| ensures ObjectOk(objects', id) {
      if id < |objects| {
        assert ObjectOk(objects, id) && objects'[id] == objects[id];
        if objects[id].Composite? { RecordsGrow(objects, objects', objects[id].records); }
      } else if o.Composite? {
        RecordsGrow(objects, objects', o.records);
      }
    }
  }

  lemma RecordsGrow(objects: seq<Object>, objects': seq<Object>, rs: seq<Record>)
    requires objects <= objects' && RecordsOk(objects, rs)
    ensures RecordsOk(objects', rs) && Flatten(objects', rs) == Flatten(objects, rs)
  {
    forall i | 0 <= i < |rs| ensures rs[i].leaf < |objects'| && objects'[rs[i].leaf] == objects[rs[i].leaf] {
      assert RecordOk(objects, rs[i]);
    }
    FlattenFrame(objects, objects', rs);
  }

  function Free(objects: seq<Object>, id: Id): seq<Object>
    requires Live(objects, id)
  {
    objects[id := Freed(objects[id].Leaf?)]
  }

  /** Freeing a leaf that no record names, or any composite, keeps the store flat. */
  lemma FlatFree(objects: seq<Object>, id: Id)
    requires Flat(objects) && EMPTY < id && Live(objects, id) && (objects[id].Leaf? ==> Count(objects, id) == 0)
    ensures Flat(Free(objects, id)) && Evolves(objects, Free(objects, id))
  {
    var objects' := Free(objects, id);
    forall k | 0 <= k < |objects'| ensures ObjectOk(objects', k) {
      assert ObjectOk(objects, k);
      if k != id && objects[k].Composite? {
        var rs := objects[k].records;
        forall i | 0 <= i < |rs| ensures rs[i].leaf < |objects'| && objects'[rs[i].leaf] == objects[rs[i].leaf] {
          assert RecordOk(objects, rs[i]);
          CountPositive(objects, k, i);
        }
        FlattenFrame(objects, objects', rs);
      }
    }
  }

  /** Buffers are destroyed exactly when their leaf is freed, and never twice. */
  predicate DestroyedOk(objects: seq<Object>, destroyed: seq<Id>) {
    && (forall id :: 0 <= id < |objects| ==> (id in destroyed <==> objects[id] == Freed(true)))
    && (forall i :: 0 <= i < |destroyed| ==> destroyed[i] < |objects|)
    && (forall i, j :: 0 <= i < j < |destroyed| ==> destroyed[i] != destroyed[j])
  }

  lemma DestroyedAppend(objects: seq<Object>, destroyed: seq<Id>, o: Object)
    requires DestroyedOk(objects, destroyed) && !o.Freed?
    ensures DestroyedOk(objects + [o], destroyed)
  {
  }

  /** The handles after an operation that hands out one more, for `r`. */
  ghost predicate Gained(handles: seq<nat>, handles': seq<nat>, r: Id) {
    && |handles| <= |handles'|
    && forall k :: EMPTY < k < |handles'| ==>
         handles'[k] == (if k < |handles| then handles[k] else 0) + (if k == r then 1 else 0)
  }

  /** No record of a flat store names an object that is not there. */
  lemma Unnamed(objects: seq<Object>, id: Id)
    requires Flat(objects) && (id >= |objects| || !objects[id].Leaf?)
    ensures Count(objects, id) == 0
  {
    forall k | 0 <= k < |objects| && objects[k].Composite?
      ensures forall i :: 0 <= i < |objects[k].records| ==> objects[k].records[i].leaf != id
    {
      assert ObjectOk(objects, k);
      forall i | 0 <= i < |objects[k].records| ensures objects[k].records[i].leaf != id {
        assert RecordOk(objects, objects[k].records[i]);
      }
    }
    CountZero(objects, id);
  }

  /** A fresh object has one handle; what its records name is still to be retained. */
  lemma BalancedAppend(objects: seq<Object>, xref: seq<int>, handles: seq<nat>, o: Object)
    requires Flat(objects) && Balanced(objects, xref, handles, [], []) && !o.Freed?
    ensures Balanced(objects + [o], xref + [0], handles + [1], [], if o.Composite? then o.records else [])
  {
    var objects' := objects + [o];
    forall id | EMPTY < id < |objects'|
      ensures Count(objects', id) == Count(objects, id) + Uses(o, id)
    {
      CountAppend(objects, o, id);
    }
    Unnamed(objects, |objects|);
  }

  /** Retaining what the next record names. */
  lemma BalancedRetain(objects: seq<Object>, xref: seq<int>, handles: seq<nat>, r: Record, owed: seq<Record>)
    requires Balanced(objects, xref, handles, [], [r] + owed) && RecordOk(objects, r)
    ensures Balanced(objects, xref[r.leaf := xref[r.leaf] + 1], handles, [], owed)
  {
    assert ([r] + owed)[1..] == owed;
    forall id: Id ensures Occurs([r] + owed, id) == Names(r, id) + Occurs(owed, id) {
      assert ([r] + owed)[0] == r;
    }
  }

  /** Releasing what the next record names: the leaf goes exactly when nothing names it any more. */
  lemma BalancedRelease(objects: seq<Object>, xref: seq<int>, handles: seq<nat>, r: Record, extra: seq<Record>)
    requires Flat(objects) && Balanced(objects, xref, handles, [r] + extra, [])
    requires RecordOk(objects, r) && r.leaf != EMPTY
    ensures xref[r.leaf] >= 0
    ensures xref[r.leaf] > 0 ==> Balanced(objects, xref[r.leaf := xref[r.leaf] - 1], handles, extra, [])
    ensures xref[r.leaf] == 0 ==> Count(objects, r.leaf) == 0 && Occurs(extra, r.leaf) == 0
    ensures xref[r.leaf] == 0 ==> Balanced(Free(objects, r.leaf), xref[r.leaf := -1], handles, extra, [])
  {
    assert ([r] + extra)[1..] == extra;
    forall id: Id ensures Occurs([r] + extra, id) == Names(r, id) + Occurs(extra, id) {
      assert ([r] + extra)[0] == r;
    }
    forall id: Id ensures Count(Free(objects, r.leaf), id) == Count(objects, id) {
      CountUpdate(objects, r.leaf, Freed(true), id);
    }
  }

  /** Dropping the last reference to a composite leaves its records to be released. */
  lemma BalancedDispose(objects: seq<Object>, xref: seq<int>, handles: seq<nat>, id: Id)
    requires Flat(objects) && Balanced(objects, xref, handles, [], []) && EMPTY < id < |objects|
    requires objects[id].Composite? && xref[id] == 0 && handles[id] > 0
    ensures Balanced(Free(objects, id), xref[id := -1], handles[id := handles[id] - 1], objects[id].records, [])
  {
    Unnamed(objects, id);
    Unnamed(Free(objects, id), id) by { FlatFree(objects, id); }
    forall k: Id ensures Count(Free(objects, id), k) + Occurs(objects[id].records, k) == Count(objects, k) {
      CountUpdate(objects, id, Freed(false), k);
    }
  }

  /** At most one composite is freed, the object `id`. */
  predicate OnlyComposite(objects: seq<Object>, objects': seq<Object>, id: Id)
    requires |objects| <= |objects'|
  {
    forall k :: 0 <= k < |objects| && k != id && objects[k].Composite? ==> objects'[k] == objects[k]
  }

  /** A holder's reference to a leaf counts like a record of it. */
  lemma BalancedHandle(objects: seq<Object>, xref: seq<int>, handles: seq<nat>, r: Record)
    requires Flat(objects) && Balanced(objects, xref, handles, [], []) && RecordOk(objects, r) && handles[r.leaf] > 0
    ensures Balanced(objects, xref, handles[r.leaf := handles[r.leaf] - 1], [r] + [], [])
  {
    assert [r][1..] == [];
    forall id: Id ensures Occurs([r] + [], id) == Names(r, id) {
      assert ([r] + [])[0] == r && ([r] + [])[1..] == [];
    }
  }

  /** Freeing a composite keeps its records good and destroys no buffer. */
  lemma DisposedRecords(objects: seq<Object>, id: Id, destroyed: seq<Id>)
    requires Flat(objects) && Live(objects, id) && objects[id].Composite? && DestroyedOk(objects, destroyed)
    ensures RecordsOk(Free(objects, id), objects[id].records) && DestroyedOk(Free(objects, id), destroyed)
  {
    var rs := objects[id].records;
    assert ObjectOk(objects, id);
    forall i | 0 <= i < |rs| ensures RecordOk(Free(objects, id), rs[i]) {
      assert RecordOk(objects, rs[i]);
    }
  }

  // ---------------------------------------------------------------------------------------------
  // Which bytes a subrange takes
  // ---------------------------------------------------------------------------------------------

  /** The documented meaning: the part of the range that lies inside the object. */
  function Wanted(bytes: seq<Byte>, offset: nat, length: nat): seq<Byte> {
    if offset >= |bytes| then []
    else bytes[offset..if offset + length <= |bytes| then offset + length else |bytes|]
  }

  datatype Choice = Nothing | Whole | Part(length: nat)

  /** The choice made at the head of the source's function, whose sum wraps at 64 bits. */
  function Choose(size: nat, offset: nat, length: nat): Choice {
    if offset >= size || length == 0 then Nothing
    else if (offset + length) % (SIZE_MAX + 1) > size then Part(size - offset)
    else if length == size then Whole
    else Part(length)
  }

  /** The choice picks exactly the documented bytes. */
  predicate Picks(bytes: seq<Byte>, offset: nat, length: nat) {
    match Choose(|bytes|, offset, length)
    case Nothing => Wanted(bytes, offset, length) == []
    case Whole => Wanted(bytes, offset, length) == bytes
    case Part(n) => offset + n <= |bytes| && Wanted(bytes, offset, length) == bytes[offset..offset + n]
  }

  /** The sum of offset and length does not wrap, unless the range is plainly empty. */
  predicate InRange(size: nat, offset: nat, length: nat) {
    offset >= size || length == 0 || offset + length <= SIZE_MAX
  }

  /** The head of the function is right exactly when the sum of offset and length does not wrap. */
  lemma ChoiceExact(bytes: seq<Byte>, offset: nat, length: nat)
    requires |bytes| <= SIZE_MAX && offset <= SIZE_MAX && length <= SIZE_MAX
    ensures Picks(bytes, offset, length) <==> InRange(|bytes|, offset, length)
  {
    if InRange(|bytes|, offset, length) {
      if offset + length == SIZE_MAX + 1 { assert offset >= |bytes| || length == 0; }
    } else {
      var wrapped := offset + length - (SIZE_MAX + 1);
      assert (offset + length) % (SIZE_MAX + 1) == wrapped < offset < |bytes|;
      if length == |bytes| {
        assert |Wanted(bytes, offset, length)| == |bytes| - offset;
      }
    }
  }

  /** Asking for everything from the second byte on with the largest length goes wrong. */
  lemma WrappedRange()
    ensures Wanted([1, 2, 3], 1, SIZE_MAX) == [2, 3] && Choose(3, 1, SIZE_MAX) == Part(SIZE_MAX)
    ensures !Picks([1, 2, 3], 1, SIZE_MAX)
  {
    assert [1, 2, 3][1..3] == [2, 3];
  }

  // ---------------------------------------------------------------------------------------------
  // Objects that were there before
  // ---------------------------------------------------------------------------------------------

  /** Every live object is held by a handle or named by a record. */
  ghost predicate Held(objects: seq<Object>, handles: seq<nat>) {
    && |handles| == |objects|
    && forall id :: EMPTY < id < |objects| && Live(objects, id) ==> handles[id] + Count(objects, id) > 0
  }

  /** A counted object is named somewhere. */
  lemma {:induction false} CountWitness(objects: seq<Object>, id: Id) returns (k: nat, i: nat)
    requires Count(objects, id) > 0
    ensures k < |objects| && objects[k].Composite? && i < |objects[k].records| && objects[k].records[i].leaf == id
  {
    if Uses(objects[0], id) > 0 {
      k := 0;
      i := OccursWitness(objects[0].records, id);
    } else {
      k, i := CountWitness(objects[1..], id);
      k := k + 1;
    }
  }

  lemma {:induction false} OccursWitness(rs: seq<Record>, id: Id) returns (i: nat)
    requires Occurs(rs, id) > 0
    ensures i < |rs| && rs[i].leaf == id
  {
    if rs[0].leaf == id {
      i := 0;
    } else {
      i := OccursWitness(rs[1..], id);
      i := i + 1;
    }
  }

  /** Releasing a leaf or a newer object frees nothing of a base whose handles are still there. */
  lemma BaseKept(base: seq<Object>, baseHandles: seq<nat>, objects: seq<Object>, objects': seq<Object>,
                 xref': seq<int>, handles': seq<nat>, id: Id)
    requires Held(base, baseHandles) && base <= objects && Evolves(objects, objects')
    requires OnlyComposite(objects, objects', id) && (id < |base| ==> id == EMPTY || !base[id].Composite?)
    requires Flat(objects') && Balanced(objects', xref', handles', [], [])
    requires Covers(baseHandles, handles')
    ensures base <= objects'
  {
    forall k | 0 <= k < |base| ensures objects'[k] == base[k] {
      assert objects[k] == base[k];
      if k > EMPTY && base[k].Leaf? {
        assert handles'[k] + Count(objects', k) > 0 by {
          if baseHandles[k] == 0 {
            var c, i := CountWitness(base, k);
            assert objects[c] == base[c] && objects'[c] == objects[c];
            CountPositive(objects', c, i);
          }
        }
      }
    }
  }

  /** The state between two steps of the walk: besides the base, only `data` is held, once. */
  ghost predicate Walking(base: seq<Object>, baseHandles: seq<nat>, objects: seq<Object>, handles: seq<nat>, data: Id) {
    && Held(base, baseHandles) && base <= objects && Gained(baseHandles, handles, data)
    && (data < |base| ==> data == EMPTY || base[data].Leaf?)
  }

  /** The walk starts with nothing gathered. */
  lemma WalkStart(objects: seq<Object>, xref: seq<int>, handles: seq<nat>)
    requires Flat(objects) && Balanced(objects, xref, handles, [], [])
    ensures Walking(objects, handles, objects, handles, EMPTY)
  {
  }

  /** Nobody holds a freed object. */
  lemma HandleIsLive(objects: seq<Object>, xref: seq<int>, handles: seq<nat>, id: Id)
    requires Flat(objects) && Balanced(objects, xref, handles, [], []) && id < |objects|
    requires id == EMPTY || handles[id] > 0
    ensures Live(objects, id)
  {
  }

  lemma LeafBytes(objects: seq<Object>, id: Id)
    requires Flat(objects) && id < |objects| && objects[id].Leaf?
    ensures Bytes(objects, id) == objects[id].buffer && Size(objects, id) == |objects[id].buffer| <= SIZE_MAX
  {
    assert ObjectOk(objects, id);
  }

  lemma EmptyBytes(objects: seq<Object>)
    requires Flat(objects)
    ensures Live(objects, EMPTY) && Size(objects, EMPTY) == 0 && Bytes(objects, EMPTY) == []
  {
  }

  lemma SliceOfLeaf(objects: seq<Object>, r: Record)
    requires Flat(objects) && RecordOk(objects, r)
    ensures CompositeOk(objects, r.length, [r])
    ensures Flatten(objects, [r]) == Bytes(objects, r.leaf)[r.from..r.from + r.length]
  {
    assert ObjectOk(objects, r.leaf) && [r][1..] == [];
    assert Flatten(objects, [r]) == Slice(objects, r);
  }

  lemma SliceOfSlice(base: seq<Object>, objects: seq<Object>, r: Record, offset: nat, n: nat)
    requires base <= objects && RecordOk(base, r) && offset + n <= r.length && n > 0
    ensures RecordOk(objects, Record(r.leaf, r.from + offset, n))
    ensures objects[r.leaf].buffer[r.from + offset..r.from + offset + n] == Slice(base, r)[offset..offset + n]
  {
  }

  /** The last `left` bytes wanted start `offset` bytes into record `i`. */
  ghost predicate Remaining(objects: seq<Object>, rs: seq<Record>, i: nat, offset: nat, left: nat, wanted: seq<Byte>) {
    && i <= |rs| && RecordsOk(objects, rs[i..]) && (i < |rs| ==> offset < rs[i].length)
    && left <= |wanted| && offset + left <= |Flatten(objects, rs[i..])|
    && Flatten(objects, rs[i..])[offset..offset + left] == wanted[|wanted| - left..]
  }

  lemma RemainingFacts(objects: seq<Object>, rs: seq<Record>, i: nat, offset: nat, left: nat, wanted: seq<Byte>)
    requires Remaining(objects, rs, i, offset, left, wanted)
    ensures i <= |rs| && left <= |wanted| && (i < |rs| ==> offset < rs[i].length)
  {
  }

  lemma RemainingStep(base: seq<Object>, objects: seq<Object>, rs: seq<Record>, i: nat, offset: nat, left: nat,
                      wanted: seq<Byte>, n: nat)
    requires Remaining(base, rs, i, offset, left, wanted) && i < |rs| && base <= objects && left > 0
    requires n == if rs[i].length - offset > left then left else rs[i].length - offset
    ensures RecordOk(objects, Record(rs[i].leaf, rs[i].from + offset, n)) && rs[i].leaf < |base|
    ensures wanted[..|wanted| - left] + objects[rs[i].leaf].buffer[rs[i].from + offset..rs[i].from + offset + n]
         == wanted[..|wanted| - left + n]
    ensures n < left ==> Remaining(base, rs, i + 1, 0, left - n, wanted)
  {
    hide Flatten;
    FlattenStep(base, rs, i);
    SliceOfSlice(base, objects, rs[i], offset, n);
    WalkBytes(Slice(base, rs[i]), Flatten(base, rs[i + 1..]), offset, left, wanted, |wanted| - left, n);
    if n < left && i + 1 < |rs| { assert RecordOk(base, rs[i + 1..][0]); }
  }

  /** The walk cannot run past the last record. */
  lemma RemainingEnds(objects: seq<Object>, rs: seq<Record>, offset: nat, left: nat, wanted: seq<Byte>)
    ensures Remaining(objects, rs, |rs|, offset, left, wanted) ==> left == 0
  {
    assert rs[|rs|..] == [];
  }

  lemma FlattenStep(objects: seq<Object>, rs: seq<Record>, i: nat)
    requires i < |rs| && RecordsOk(objects, rs[i..])
    ensures RecordOk(objects, rs[i]) && RecordsOk(objects, rs[i + 1..])
    ensures Flatten(objects, rs[i..]) == Slice(objects, rs[i]) + Flatten(objects, rs[i + 1..])
  {
    assert rs[i..][0] == rs[i] && rs[i..][1..] == rs[i + 1..];
  }

  ghost function Dropped(handles: seq<nat>, id: Id): seq<nat>
    requires id == EMPTY || (id < |handles| && handles[id] > 0)
  {
    if id == EMPTY then handles else handles[id := handles[id] - 1]
  }

  /** The base keeps its handles while intermediate objects come and go. */
  ghost predicate Covers(baseHandles: seq<nat>, handles: seq<nat>) {
    |baseHandles| <= |handles| && forall k :: EMPTY < k < |baseHandles| ==> baseHandles[k] <= handles[k]
  }

  /** The handles over one step of the walk. */
  lemma WalkHandles(h: seq<nat>, h0: seq<nat>, h1: seq<nat>, h2: seq<nat>, data: Id, sub: Id, concat: Id)
    requires Gained(h, h0, data) && Gained(h0, h1, sub) && Gained(h1, h2, concat)
    requires data < |h0| && sub < |h1| && concat < |h2|
    ensures data == EMPTY || h2[data] > 0
    ensures var h3 := Dropped(h2, data);
            && Covers(h, h3) && (sub == EMPTY || h3[sub] > 0) && (concat == EMPTY || h3[concat] > 0)
            && Gained(h, Dropped(h3, sub), concat) && Covers(h, Dropped(h3, sub))
            && (concat == EMPTY || Dropped(h3, sub)[concat] > 0)
  {
  }

  /** The bytes over one step of the walk, `done` being gathered so far. */
  lemma WalkBytes(slice: seq<Byte>, rest: seq<Byte>, offset: nat, left: nat, wanted: seq<Byte>, done: nat, n: nat)
    requires offset < |slice| && offset + left <= |slice| + |rest| && done + left == |wanted|
    requires (slice + rest)[offset..offset + left] == wanted[done..]
    requires n == if |slice| - offset > left then left else |slice| - offset
    ensures wanted[..done] + slice[offset..offset + n] == wanted[..done + n]
    ensures n < left ==> left - n <= |rest| && rest[..left - n] == wanted[done + n..]
  {
    var all, w := slice + rest, wanted[done..];
    assert slice[offset..offset + n] == all[offset..offset + n] == w[..n];
    assert wanted[..done] + w[..n] == wanted[..done + n];
    if n < left {
      assert rest[..left - n] == all[|slice|..offset + left] == w[n..];
      assert w[n..] == wanted[done + n..];
    }
  }

  // ---------------------------------------------------------------------------------------------
  // Regions
  // ---------------------------------------------------------------------------------------------

  /** One call of an applier: the region's object, its place in the whole, and the bytes shown. */
  datatype Region = Region(owner: Id, offset: nat, bytes: seq<Byte>)

  function RegionsFrom(objects: seq<Object>, rs: seq<Record>, offset: nat): (regions: seq<Region>)
    requires RecordsOk(objects, rs)
    ensures |regions| == |rs|
  {
    if rs == [] then [] else
      [Region(rs[0].leaf, offset, Slice(objects, rs[0]))] + RegionsFrom(objects, rs[1..], offset + rs[0].length)
  }

  /** The contiguous parts of an object, in order. */
  function Regions(objects: seq<Object>, id: Id): seq<Region>
    requires Flat(objects) && Live(objects, id)
  {
    assert ObjectOk(objects, id);
    if Size(objects, id) == 0 then []
    else if objects[id].Composite? && |objects[id].records| > 1 then RegionsFrom(objects, objects[id].records, 0)
    else [Region(id, 0, Bytes(objects, id))]
  }

  function Joined(regions: seq<Region>): seq<Byte> {
    if regions == [] then [] else regions[0].bytes + Joined(regions[1..])
  }

  lemma {:induction false} RegionsFromAt(objects: seq<Object>, rs: seq<Record>, offset: nat, i: nat)
    requires RecordsOk(objects, rs) && i < |rs|
    ensures RegionsFrom(objects, rs, offset)[i]
         == Region(rs[i].leaf, offset + |Flatten(objects, rs[..i])|, Slice(objects, rs[i]))
  {
    var tail := rs[1..];
    if tail != [] {
      RegionsFromAt(objects, tail, offset + rs[0].length, if i > 0 then i - 1 else 0);
    }
    if i > 0 {
      assert rs[..i][0] == rs[0] && rs[..i][1..] == tail[..i - 1];
    } else {
      assert rs[..i] == [];
    }
  }

  lemma {:induction false} RegionsFromJoined(objects: seq<Object>, rs: seq<Record>, offset: nat)
    requires RecordsOk(objects, rs)
    ensures Joined(RegionsFrom(objects, rs, offset)) == Flatten(objects, rs)
  {
    if rs != [] {
      var head := Region(rs[0].leaf, offset, Slice(objects, rs[0]));
      var tail := RegionsFrom(objects, rs[1..], offset + rs[0].length);
      RegionsFromJoined(objects, rs[1..], offset + rs[0].length);
      assert ([head] + tail)[0] == head && ([head] + tail)[1..] == tail;
    }
  }

  /** Record `i` shows the bytes at its offset. */
  lemma RecordShows(objects: seq<Object>, rs: seq<Record>, i: nat)
    requires Flat(objects) && RecordsOk(objects, rs) && i < |rs|
    ensures RecordOk(objects, rs[i]) && |Flatten(objects, rs[..i + 1])| == |Flatten(objects, rs[..i])| + rs[i].length
    ensures Within(Flatten(objects, rs), |Flatten(objects, rs[..i])|, Slice(objects, rs[i]))
  {
    hide Flatten;
    assert RecordOk(objects, rs[i]) && rs[..i] + rs[i..] == rs && rs[..i] + [rs[i]] == rs[..i + 1];
    FlattenAppend(objects, rs[..i], rs[i..]);
    FlattenStep(objects, rs, i);
    FlattenAppend(objects, rs[..i], [rs[i]]);
    SliceOfLeaf(objects, rs[i]);
  }

  /** A part of a byte sequence, at an offset. */
  predicate Within(all: seq<Byte>, offset: nat, part: seq<Byte>) {
    part != [] && offset + |part| <= |all| && all[offset..offset + |part|] == part
  }

  /** The regions of an object are its bytes, cut up in order with the right offsets and none empty. */
  lemma RegionsCover(objects: seq<Object>, id: Id)
    requires Flat(objects) && Live(objects, id)
    ensures Joined(Regions(objects, id)) == Bytes(objects, id)
  {
    assert ObjectOk(objects, id);
    SizeIsLength(objects, id);
    if Size(objects, id) > 0 && objects[id].Composite? && |objects[id].records| > 1 {
      RegionsFromJoined(objects, objects[id].records, 0);
    } else if Size(objects, id) > 0 {
      assert Regions(objects, id)[1..] == [];
    }
  }

  lemma RegionPlace(objects: seq<Object>, id: Id, i: nat)
    requires Flat(objects) && Live(objects, id) && i < |Regions(objects, id)|
    ensures var r := Regions(objects, id)[i];
            && Within(Bytes(objects, id), r.offset, r.bytes)
            && r.offset == Start(Regions(objects, id), i)
  {
    hide Flatten, RegionsFrom;
    assert ObjectOk(objects, id);
    SizeIsLength(objects, id);
    if objects[id].Composite? && |objects[id].records| > 1 {
      var rs := objects[id].records;
      RegionsFromAt(objects, rs, 0, i);
      RecordShows(objects, rs, i);
      if i == 0 {
        assert rs[..0] == [];
        EmptyFlatten(objects);
      } else {
        RegionsFromAt(objects, rs, 0, i - 1);
        RecordShows(objects, rs, i - 1);
      }
    }
  }

  lemma LastRegion(objects: seq<Object>, id: Id)
    requires Flat(objects) && Live(objects, id) && Regions(objects, id) != []
    ensures var r := Regions(objects, id)[|Regions(objects, id)| - 1]; r.offset + |r.bytes| == |Bytes(objects, id)|
  {
    hide Flatten, RegionsFrom;
    assert ObjectOk(objects, id);
    if objects[id].Composite? && |objects[id].records| > 1 {
      var rs := objects[id].records;
      RegionsFromAt(objects, rs, 0, |rs| - 1);
      RecordShows(objects, rs, |rs| - 1);
      assert rs[..|rs|] == rs;
    }
  }

  /** Where the region after the first `i` starts. */
  function Start(regions: seq<Region>, i: nat): nat
    requires i <= |regions|
  {
    if i == 0 then 0 else regions[i - 1].offset + |regions[i - 1].bytes|
  }

  /** The regions lie one after the other and make up the bytes. */
  ghost predicate Tiles(regions: seq<Region>, bytes: seq<Byte>) {
    && Start(regions, |regions|) == |bytes|
    && forall i :: 0 <= i < |regions| ==>
         Within(bytes, regions[i].offset, regions[i].bytes) && regions[i].offset == Start(regions, i)
  }

  lemma TileAt(regions: seq<Region>, bytes: seq<Byte>, i: nat)
    requires Tiles(regions, bytes)
    ensures Start(regions, 0) == 0 && Start(regions, |regions|) == |bytes|
    ensures i < |regions| ==>
              && Within(bytes, regions[i].offset, regions[i].bytes) && regions[i].offset == Start(regions, i)
              && Start(regions, i + 1) == regions[i].offset + |regions[i].bytes|
  {
  }

  lemma RegionsTile(objects: seq<Object>, id: Id)
    requires Flat(objects) && Live(objects, id)
    ensures Tiles(Regions(objects, id), Bytes(objects, id))
  {
    hide Flatten, RegionsFrom, Within;
    SizeIsLength(objects, id);
    var regions, bytes := Regions(objects, id), Bytes(objects, id);
    assert regions == [] ==> bytes == [] by { if regions == [] { RegionsCover(objects, id); } }
    if regions != [] { LastRegion(objects, id); }
    forall i | 0 <= i < |regions|
      ensures Within(bytes, regions[i].offset, regions[i].bytes) && regions[i].offset == Start(regions, i)
    {
      RegionPlace(objects, id, i);
    }
  }

  /** The record covers its leaf from end to end. */
  predicate WholeLeaf(objects: seq<Object>, r: Record) {
    r.leaf < |objects| && objects[r.leaf].Leaf? && r.length == |objects[r.leaf].buffer|
  }

  /**
    The object handed to the applier stands for exactly the bytes shown if and only if the object is
    contiguous or the record covers its whole leaf: a slice of a leaf is shown with the whole leaf.
  */
  lemma RegionOwnerExact(objects: seq<Object>, id: Id, i: nat)
    requires Flat(objects) && Live(objects, id) && i < |Regions(objects, id)|
    ensures Live(objects, Regions(objects, id)[i].owner)
    ensures Bytes(objects, Regions(objects, id)[i].owner) == Regions(objects, id)[i].bytes <==>
              (objects[id].Composite? && |objects[id].records| > 1 ==>
                 i < |objects[id].records| && WholeLeaf(objects, objects[id].records[i]))
  {
    hide Flatten, RegionsFrom;
    assert ObjectOk(objects, id);
    if objects[id].Composite? && |objects[id].records| > 1 {
      var r := objects[id].records[i];
      RegionsFromAt(objects, objects[id].records, 0, i);
      assert RecordOk(objects, r);
      LeafBytes(objects, r.leaf);
      if WholeLeaf(objects, r) { assert Slice(objects, r) == objects[r.leaf].buffer; }
    }
  }

  lemma EmptyFlatten(objects: seq<Object>)
    ensures Flatten(objects, []) == []
  {
  }

  class Store {
    var objects: seq<Object>
    /** As in the source, one less than the number of references; -1 once the object is gone. */
    var xref: seq<int>
    /** The leaves whose buffer has been destroyed, in that order. */
    var destroyed: seq<Id>
    ghost var handles: seq<nat>

    ghost predicate Valid()
      reads this
    {
      Flat(objects) && Balanced(objects, xref, handles, [], []) && DestroyedOk(objects, destroyed)
      && |handles| == |objects|
    }

    constructor ()
      ensures Valid() && objects == [Composite(0, [])] && destroyed == []
    {
      objects, xref, destroyed, handles := [Composite(0, [])], [0], [], [0];
    }

    /** dispatch_retain by a holder of a reference. */
    method Retain(id: Id)
      requires Valid() && Live(objects, id)
      modifies this`xref, this`handles
      ensures Valid() && Gained(old(handles), handles, id) && |handles| == |old(handles)|
    {
      if id != EMPTY {
        xref := xref[id := xref[id] + 1];
        handles := handles[id := handles[id] + 1];
      }
    }

    /** A new composite that retains the leaf of each of its records. */
    method Compose(size: nat, rs: seq<Record>) returns (r: Id)
      requires Valid() && rs != [] && CompositeOk(objects, size, rs)
      modifies this`objects, this`xref, this`handles
      ensures Valid() && r == |old(objects)| && objects == old(objects) + [Composite(size, rs)]
      ensures Gained(old(handles), handles, r)
      ensures Bytes(objects, r) == Flatten(old(objects), rs)
    {
      hide Count, Occurs, DestroyedOk, ObjectOk;
      r := |objects|;
      FlatAppend(objects, Composite(size, rs));
      BalancedAppend(objects, xref, handles, Composite(size, rs));
      DestroyedAppend(objects, destroyed, Composite(size, rs));
      objects, xref, handles := objects + [Composite(size, rs)], xref + [0], handles + [1];
      RecordsGrow(old(objects), objects, rs);
      RetainAll(rs);
    }

    method RetainAll(rs: seq<Record>)
      requires Balanced(objects, xref, handles, [], rs) && RecordsOk(objects, rs)
      modifies this`xref
      ensures Balanced(objects, xref, handles, [], [])
    {
      hide Count, Occurs;
      var i := 0;
      assert rs[0..] == rs;
      while i < |rs|
        invariant 0 <= i <= |rs| && Balanced(objects, xref, handles, [], rs[i..])
      {
        assert RecordOk(objects, rs[i]) && rs[i..] == [rs[i]] + rs[i + 1..];
        BalancedRetain(objects, xref, handles, rs[i], rs[i + 1..]);
        xref := xref[rs[i].leaf := xref[rs[i].leaf] + 1];
        i := i + 1;
      }
      assert rs[i..] == [];
    }

    /** Drops the reference that a record of a disposed composite held. */
    method ReleaseLeaf(r: Record, ghost rest: seq<Record>)
      requires Flat(objects) && Balanced(objects, xref, handles, [r] + rest, []) && DestroyedOk(objects, destroyed)
      requires RecordOk(objects, r) && RecordsOk(objects, rest)
      modifies this`objects, this`xref, this`destroyed
      ensures Flat(objects) && Balanced(objects, xref, handles, rest, []) && DestroyedOk(objects, destroyed)
      ensures RecordsOk(objects, rest) && Evolves(old(objects), objects) && |objects| == |old(objects)|
      ensures forall k :: 0 <= k < |objects| && k != r.leaf ==> objects[k] == old(objects)[k]
    {
      hide Count, Occurs, ObjectOk;
      BalancedRelease(objects, xref, handles, r, rest);
      xref := xref[r.leaf := xref[r.leaf] - 1];
      if xref[r.leaf] < 0 {
        FlatFree(objects, r.leaf);
        forall i | 0 <= i < |rest| ensures RecordOk(Free(objects, r.leaf), rest[i]) {
          assert RecordOk(objects, rest[i]);
          OccursPositive(rest, i);
        }
        objects := Free(objects, r.leaf);
        destroyed := destroyed + [r.leaf];
      }
    }

    /** dispatch_release by a holder: the last one disposes of the object. */
    method Release(id: Id)
      requires Valid() && Live(objects, id) && (id == EMPTY || handles[id] > 0)
      modifies this
      ensures Valid() && Evolves(old(objects), objects) && |objects| == |old(objects)|
      ensures handles == Dropped(old(handles), id)
      ensures OnlyComposite(old(objects), objects, id)
    {
      hide Count, Occurs, ObjectOk, DestroyedOk;
      if id == EMPTY { return; }
      if xref[id] > 0 {
        xref, handles := xref[id := xref[id] - 1], handles[id := handles[id] - 1];
      } else {
        Dispose(id);
      }
    }

    /** Destroys the buffer of a leaf, or releases what the records of a composite name. */
    method Dispose(id: Id)
      requires Valid() && EMPTY < id && Live(objects, id) && xref[id] == 0 && handles[id] > 0
      modifies this
      ensures Valid() && Evolves(old(objects), objects) && |objects| == |old(objects)|
      ensures handles == old(handles)[id := old(handles)[id] - 1]
      ensures OnlyComposite(old(objects), objects, id)
    {
      hide Count, Occurs, ObjectOk, DestroyedOk;
      if objects[id].Leaf? {
        var r := Record(id, 0, |objects[id].buffer|);
        RecordsOfBytes(objects, id);
        assert RecordOk(objects, RecordsOf(objects, id)[0]);
        BalancedHandle(objects, xref, handles, r);
        handles := handles[id := handles[id] - 1];
        ReleaseLeaf(r, []);
      } else {
        var rs := objects[id].records;
        BalancedDispose(objects, xref, handles, id);
        FlatFree(objects, id);
        DisposedRecords(objects, id, destroyed);
        objects, xref, handles := Free(objects, id), xref[id := -1], handles[id := handles[id] - 1];
        ReleaseAll(rs);
      }
    }

    method ReleaseAll(rs: seq<Record>)
      requires Flat(objects) && Balanced(objects, xref, handles, rs, []) && DestroyedOk(objects, destroyed)
      requires RecordsOk(objects, rs)
      modifies this`objects, this`xref, this`destroyed
      ensures Valid() && Evolves(old(objects), objects) && |objects| == |old(objects)|
      ensures forall k :: 0 <= k < |objects| && !old(objects)[k].Leaf? ==> objects[k] == old(objects)[k]
    {
      hide Count, Occurs, ObjectOk, DestroyedOk;
      var i := 0;
      assert rs[0..] == rs;
      while i < |rs|
        invariant 0 <= i <= |rs| && |objects| == |old(objects)|
        invariant Flat(objects) && Balanced(objects, xref, handles, rs[i..], []) && DestroyedOk(objects, destroyed)
        invariant RecordsOk(objects, rs[i..]) && Evolves(old(objects), objects)
        invariant forall k :: 0 <= k < |objects| && !old(objects)[k].Leaf? ==> objects[k] == old(objects)[k]
      {
        var r, rest := rs[i], rs[i + 1..];
        assert rs[i..] == [r] + rest && rs[i..][0] == r;
        forall k | 0 <= k < |rest| ensures RecordOk(objects, rest[k]) {
          assert rest[k] == rs[i..][k + 1];
        }
        ReleaseLeaf(r, rest);
        i := i + 1;
      }
      assert rs[i..] == [];
    }

    /** A new leaf over a buffer, or the empty object; `copied` says a private copy was asked for. */
    method Create(buffer: seq<Byte>, copied: bool, mallocOk: bool) returns (r: Option<Id>, destroyNow: bool)
      requires Valid() && |buffer| <= SIZE_MAX
      modifies this`objects, this`xref, this`handles
      ensures Valid() && old(objects) <= objects
      ensures destroyNow <==> buffer == [] && !copied
      ensures r == None <==> buffer != [] && copied && !mallocOk
      ensures r == None ==> unchanged(this)
      ensures r.Some? ==> Live(objects, r.value) && Bytes(objects, r.value) == buffer
      ensures r.Some? && buffer != [] ==> objects[r.value].Leaf?
      ensures r.Some? ==> Gained(old(handles), handles, r.value)
    {
      hide Count, Occurs, ObjectOk;
      if buffer == [] {
        return Some(EMPTY), !copied;
      }
      if copied && !mallocOk {
        return None, false;
      }
      var o := Leaf(buffer);
      FlatAppend(objects, o);
      BalancedAppend(objects, xref, handles, o);
      r, destroyNow := Some(|objects|), false;
      objects, xref, handles := objects + [o], xref + [0], handles + [1];
    }

    method Concat(a: Id, b: Id) returns (r: Id)
      requires Valid() && Live(objects, a) && Live(objects, b)
      requires |Bytes(objects, a)| + |Bytes(objects, b)| <= SIZE_MAX
      modifies this`objects, this`xref, this`handles
      ensures Valid() && old(objects) <= objects && Live(objects, r)
      ensures Bytes(objects, r) == Bytes(old(objects), a) + Bytes(old(objects), b)
      ensures Gained(old(handles), handles, r)
      ensures r == |old(objects)|
              || (Bytes(old(objects), a) == [] && r == b) || (Bytes(old(objects), b) == [] && r == a)
      ensures Bytes(old(objects), a) != [] && Bytes(old(objects), b) != [] ==>
                && r == |old(objects)|
                && objects == old(objects) +
                     [Composite(Size(old(objects), a) + Size(old(objects), b),
                                RecordsOf(old(objects), a) + RecordsOf(old(objects), b))]
    {
      hide Count, Occurs, DestroyedOk, Balanced, Flat, Flatten, Bytes, Gained, RecordsOk;
      SizeIsLength(objects, a);
      SizeIsLength(objects, b);
      if Size(objects, a) == 0 {
        Retain(b);
        return b;
      }
      if Size(objects, b) == 0 {
        Retain(a);
        return a;
      }
      RecordsOfBytes(objects, a);
      RecordsOfBytes(objects, b);
      var rs := RecordsOf(objects, a) + RecordsOf(objects, b);
      FlattenAppend(objects, RecordsOf(objects, a), RecordsOf(objects, b));
      r := Compose((Size(objects, a) + Size(objects, b)) % (SIZE_MAX + 1), rs);
    }

    /**
      One step of the walk over the records: the subrange of a leaf is concatenated to what has been
      gathered, and both intermediate objects are released. Nothing of `base` is lost.
    */
    method Extend(data: Id, leaf: Id, from: nat, len: nat, ghost base: seq<Object>, ghost baseHandles: seq<nat>)
      returns (concat: Id)
      requires Valid() && Live(objects, data) && RecordOk(objects, Record(leaf, from, len))
      requires Walking(base, baseHandles, objects, handles, data) && leaf < |base|
      requires |Bytes(objects, data)| + len <= SIZE_MAX
      modifies this
      ensures Valid() && Live(objects, concat) && Walking(base, baseHandles, objects, handles, concat)
      ensures Bytes(objects, concat) == Bytes(old(objects), data) + old(objects)[leaf].buffer[from..from + len]
      decreases 0, 1
    {
      hide Count, Occurs, DestroyedOk, Balanced, Flat, Bytes, Held, Gained, Covers, Dropped;
      LeafBytes(objects, leaf);
      ghost var h0 := handles;
      var sub := Subrange(leaf, from, len);
      ghost var h1 := handles;
      BytesKept(old(objects), objects, data);
      concat := Concat(data, sub);
      ghost var o2, h2 := objects, handles;
      WalkHandles(baseHandles, h0, h1, h2, data, sub, concat);
      ReleaseBoth(data, sub, concat, base, baseHandles);
    }

    /** Releases both intermediate objects of a step. */
    method ReleaseBoth(data: Id, sub: Id, ghost concat: Id, ghost base: seq<Object>, ghost baseHandles: seq<nat>)
      requires Valid() && Held(base, baseHandles) && base <= objects
      requires data < |objects| && sub < |objects| && Live(objects, concat)
      requires data < |base| ==> data == EMPTY || base[data].Leaf?
      requires sub < |base| ==> sub == EMPTY || base[sub].Leaf?
      requires data == EMPTY || handles[data] > 0
      requires var h := Dropped(handles, data);
               && Covers(baseHandles, h) && (sub == EMPTY || h[sub] > 0) && (concat == EMPTY || h[concat] > 0)
               && (concat == EMPTY || Dropped(h, sub)[concat] > 0) && Covers(baseHandles, Dropped(h, sub))
      modifies this
      ensures Valid() && handles == Dropped(Dropped(old(handles), data), sub) && base <= objects
      ensures Live(objects, concat) && Bytes(objects, concat) == Bytes(old(objects), concat)
    {
      hide Count, Occurs, DestroyedOk, Balanced, Flat, Bytes, Held, Gained, Covers;
      HandleIsLive(objects, xref, handles, data);
      Release(data);
      HandleIsLive(objects, xref, handles, sub);
      HandleIsLive(objects, xref, handles, concat);
      BaseKept(base, baseHandles, old(objects), objects, xref, handles, data);
      BytesKept(old(objects), objects, concat);
      ghost var before := objects;
      Release(sub);
      HandleIsLive(objects, xref, handles, concat);
      BaseKept(base, baseHandles, before, objects, xref, handles, sub);
      BytesKept(before, objects, concat);
    }

    method Subrange(id: Id, offset: nat, length: nat) returns (r: Id)
      requires Valid() && Live(objects, id) && offset <= SIZE_MAX && length <= SIZE_MAX
      requires InRange(Size(objects, id), offset, length)
      modifies this
      ensures Valid() && old(objects) <= objects && Live(objects, r)
      ensures Bytes(objects, r) == Wanted(Bytes(old(objects), id), offset, length)
      ensures Gained(old(handles), handles, r)
      ensures r == EMPTY || r == id || r >= |old(objects)| || objects[r].Leaf?
      ensures old(objects)[id].Leaf? && Choose(Size(old(objects), id), offset, length).Part? ==>
                var n := Choose(Size(old(objects), id), offset, length).length;
                r == |old(objects)| && objects == old(objects) + [Composite(n, [Record(id, offset, n)])]
      decreases if id < |objects| && objects[id].Composite? then 1 else 0, 0
    {
      hide Count, Occurs, DestroyedOk, Balanced, Flat, Bytes, Flatten, Held;
      SizeIsLength(objects, id);
      ChoiceExact(Bytes(objects, id), offset, length);
      var size := Size(objects, id);
      match Choose(size, offset, length)
      case Nothing =>
        EmptyBytes(objects);
        r := EMPTY;
      case Whole =>
        Retain(id);
        r := id;
      case Part(n) =>
        if objects[id].Leaf? {
          SliceOfLeaf(objects, Record(id, offset, n));
          r := Compose(n, [Record(id, offset, n)]);
        } else {
          r := Gather(id, offset, n);
        }
    }

    /** Finds the record that holds byte `from`. */
    static method Seek(objects: seq<Object>, rs: seq<Record>, from: nat, length: nat, ghost wanted: seq<Byte>)
      returns (i: nat, offset: nat)
      requires RecordsOk(objects, rs) && from + length <= |Flatten(objects, rs)|
      requires wanted == Flatten(objects, rs)[from..from + length]
      ensures Remaining(objects, rs, i, offset, length, wanted)
    {
      hide Flatten;
      i, offset := 0, from;
      assert rs[0..] == rs;
      while i < |rs| && offset >= rs[i].length
        invariant 0 <= i <= |rs| && RecordsOk(objects, rs[i..])
        invariant offset + length <= |Flatten(objects, rs[i..])|
        invariant Flatten(objects, rs[i..])[offset..offset + length] == wanted
      {
        FlattenStep(objects, rs, i);
        ghost var n := |Slice(objects, rs[i])|;
        assert Flatten(objects, rs[i..])[offset..offset + length]
            == Flatten(objects, rs[i + 1..])[offset - n..offset - n + length];
        offset, i := offset - rs[i].length, i + 1;
      }
    }

    /** The walk over the records of a composite. */
    method Gather(id: Id, from: nat, length: nat) returns (data: Id)
      requires Valid() && Live(objects, id) && objects[id].Composite?
      requires 0 < length && from + length <= |Bytes(objects, id)|
      modifies this
      ensures Valid() && old(objects) <= objects && Live(objects, data)
      ensures Bytes(objects, data) == Bytes(old(objects), id)[from..from + length]
      ensures Gained(old(handles), handles, data)
      ensures data >= |old(objects)| || objects[data].Leaf?
      decreases 0, 2
    {
      hide Count, Occurs, DestroyedOk, Balanced, Flat, Bytes, Flatten, Held, Gained, Slice, Remaining, RecordsOk;
      data := EMPTY;
      var rs := objects[id].records;
      RecordsOfBytes(objects, id);
      SizeIsLength(objects, id);
      EmptyBytes(objects);
      ghost var base, baseHandles, all := objects, handles, Bytes(objects, id);
      ghost var wanted := all[from..from + length];
      WalkStart(objects, xref, handles);
      var i, offset := Seek(objects, rs, from, length, wanted);
      var left: nat := length;
      RemainingFacts(base, rs, i, offset, left, wanted);
      while i < |rs|
        invariant Remaining(base, rs, i, offset, left, wanted) && 0 < left <= length && i <= |rs|
        invariant Valid() && Live(objects, data) && Walking(base, baseHandles, objects, handles, data)
        invariant Bytes(objects, data) == wanted[..length - left]
      {
        RemainingFacts(base, rs, i, offset, left, wanted);
        var n: nat := rs[i].length - offset;
        if n > left {
          n := left;
        }
        RemainingStep(base, objects, rs, i, offset, left, wanted, n);
        data := Extend(data, rs[i].leaf, rs[i].from + offset, n, base, baseHandles);
        left := left - n;
        if left == 0 {
          EmptyBytes(objects);
          assert wanted[..length] == wanted;
          return;
        }
        offset, i := 0, i + 1;
      }
      RemainingEnds(base, rs, offset, left, wanted);
      assert false;
    }

    /** Shows the regions to an applier until it declines one. */
    method Apply(id: Id, applier: Region -> bool) returns (shown: seq<Region>, ok: bool)
      requires Valid() && Live(objects, id)
      ensures shown <= Regions(objects, id) && (ok ==> shown == Regions(objects, id))
      ensures forall i :: 0 <= i < |shown| ==> (applier(shown[i]) <==> ok || i < |shown| - 1)
      ensures !ok ==> shown != [] && !applier(shown[|shown| - 1])
    {
      hide Flatten, Count, Balanced, DestroyedOk;
      shown, ok := [], true;
      if Size(objects, id) == 0 {
        return;
      }
      ghost var all := Regions(objects, id);
      if objects[id].Leaf? || |objects[id].records| == 1 {
        assert ObjectOk(objects, id);
        var from := if objects[id].Leaf? then 0 else objects[id].records[0].from;
        var leaf := if objects[id].Leaf? then id else objects[id].records[0].leaf;
        Contiguous(objects, id);
        assert objects[id].Leaf? ==> objects[id].buffer[0..Size(objects, id)] == objects[id].buffer;
        var region := Region(id, 0, objects[leaf].buffer[from..from + Size(objects, id)]);
        shown, ok := [region], applier(region);
        return;
      }
      var rs, i, offset: nat := objects[id].records, 0, 0;
      Scattered(objects, id);
      while i < |rs| && ok
        invariant 0 <= i <= |rs| && RecordsOk(objects, rs) && offset == |Flatten(objects, rs[..i])|
        invariant |shown| == i && shown == all[..i]
        invariant forall k :: 0 <= k < |shown| ==> (applier(shown[k]) <==> ok || k < |shown| - 1)
        invariant !ok ==> shown != []
      {
        RegionsFromAt(objects, rs, 0, i);
        RecordShows(objects, rs, i);
        var region := Region(rs[i].leaf, offset, Slice(objects, rs[i]));
        shown, ok := shown + [region], applier(region);
        offset, i := offset + rs[i].length, i + 1;
      }
    }

    /** Copies the regions of an object into one buffer. */
    method Copy(id: Id) returns (buffer: array<Byte>)
      requires Valid() && Live(objects, id)
      ensures fresh(buffer) && buffer[..] == Bytes(objects, id)
    {
      hide Flatten, Flat, Count, Balanced, DestroyedOk, Regions, Bytes, Tiles;
      SizeIsLength(objects, id);
      RegionsTile(objects, id);
      buffer := new Byte[Size(objects, id)](i => 0);
      var regions, ok := Apply(id, region => true);
      Fill(buffer, regions, Bytes(objects, id));
    }

    static method Fill(buffer: array<Byte>, regions: seq<Region>, ghost bytes: seq<Byte>)
      requires Tiles(regions, bytes) && buffer.Length == |bytes|
      modifies buffer
      ensures buffer[..] == bytes
    {
      hide Tiles;
      hide Start;
      var i := 0;
      TileAt(regions, bytes, 0);
      while i < |regions|
        invariant 0 <= i <= |regions| && Start(regions, i) <= |bytes|
        invariant buffer[..Start(regions, i)] == bytes[..Start(regions, i)]
      {
        var r := regions[i];
        TileAt(regions, bytes, i);
        Write(buffer, r.offset, r.bytes);
        i := i + 1;
        assert bytes[..Start(regions, i)] == bytes[..r.offset] + r.bytes;
      }
      assert buffer[..buffer.Length] == buffer[..] && bytes[..|bytes|] == bytes;
    }

    static method Write(buffer: array<Byte>, offset: nat, bytes: seq<Byte>)
      requires offset + |bytes| <= buffer.Length
      modifies buffer
      ensures buffer[..offset + |bytes|] == old(buffer[..offset]) + bytes
    {
      forall j | 0 <= j < |bytes| {
        buffer[offset + j] := bytes[j];
      }
    }

    /** A contiguous object for the same bytes, with its buffer; `None` when memory runs out. */
    method Map(id: Id, mallocOk: bool) returns (r: Option<Id>, buffer: seq<Byte>)
      requires Valid() && Live(objects, id)
      modifies this
      ensures Valid() && old(objects) <= objects
      ensures r == None <==> !mallocOk && |Regions(old(objects), id)| > 1
      ensures r == None ==> buffer == [] && unchanged(this)
      ensures r.Some? ==> Live(objects, r.value) && Gained(old(handles), handles, r.value)
      ensures r.Some? ==> buffer == Bytes(objects, r.value) == Bytes(old(objects), id)
      ensures r.Some? ==> |Regions(objects, r.value)| <= 1
    {
      hide Count, Occurs, DestroyedOk, Balanced, Flat, Bytes, Flatten;
      SizeIsLength(objects, id);
      EmptyBytes(objects);
      if Size(objects, id) == 0 {
        return Some(EMPTY), [];
      }
      if objects[id].Leaf? || |objects[id].records| == 1 {
        Contiguous(objects, id);
        Retain(id);
        r := Some(id);
        buffer := if objects[id].Leaf? then objects[id].buffer else Slice(objects, objects[id].records[0]);
        return;
      }
      Scattered(objects, id);
      if !mallocOk {
        return None, [];
      }
      var copy := Copy(id);
      var now;
      r, now := Create(copy[..], false, true);
      buffer := copy[..];
    }

    /** The region that holds a byte, as an object of its own, and where it starts. */
    method CopyRegion(id: Id, location: nat) returns (r: Id, offset: nat)
      requires Valid() && Live(objects, id)
      modifies this`objects, this`xref, this`handles
      ensures Valid() && old(objects) <= objects && Live(objects, r) && Gained(old(handles), handles, r)
      ensures location >= |Bytes(old(objects), id)| ==> r == EMPTY && offset == 0
      ensures location < |Bytes(old(objects), id)| ==>
                && offset <= location < offset + |Bytes(objects, r)|
                && exists i :: 0 <= i < |Regions(old(objects), id)| && Regions(old(objects), id)[i].offset == offset
                               && Regions(old(objects), id)[i].bytes == Bytes(objects, r)
    {
      hide Count, Occurs, DestroyedOk, Balanced, Flat, Bytes, Flatten, RegionsFrom;
      SizeIsLength(objects, id);
      EmptyBytes(objects);
      if location >= Size(objects, id) {
        return EMPTY, 0;
      }
      if objects[id].Leaf? || |objects[id].records| == 1 {
        Contiguous(objects, id);
        assert Regions(objects, id)[0] == Region(id, 0, Bytes(objects, id));
        Retain(id);
        return id, 0;
      }
      Scattered(objects, id);
      var rs, i := objects[id].records, 0;
      RecordsOfBytes(objects, id);
      offset := 0;
      while i < |rs| && location >= offset + rs[i].length
        invariant 0 <= i <= |rs| && offset == |Flatten(objects, rs[..i])| <= location
        modifies {}
      {
        RecordShows(objects, rs, i);
        offset, i := offset + rs[i].length, i + 1;
      }
      assert rs[..|rs|] == rs;
      RecordShows(objects, rs, i);
      RegionsFromAt(objects, rs, 0, i);
      LeafBytes(objects, rs[i].leaf);
      SliceOfLeaf(objects, rs[i]);
      var leaf := rs[i].leaf;
      if rs[i].length == Size(objects, leaf) {
        assert Slice(objects, rs[i]) == objects[leaf].buffer;
        Retain(leaf);
        r := leaf;
      } else {
        r := Compose(rs[i].length, [rs[i]]);
      }
    }
  }

  lemma Contiguous(objects: seq<Object>, id: Id)
    requires Flat(objects) && Live(objects, id) && (objects[id].Leaf? || |objects[id].records| == 1)
    ensures Size(objects, id) == |Bytes(objects, id)| > 0
    ensures objects[id].Leaf? ==> Bytes(objects, id) == objects[id].buffer
    ensures objects[id].Composite? ==> var r := objects[id].records[0];
              RecordOk(objects, r) && r.length == Size(objects, id) && Bytes(objects, id) == Slice(objects, r)
  {
    assert ObjectOk(objects, id);
    if objects[id].Composite? {
      var rs := objects[id].records;
      assert rs == [rs[0]] && RecordOk(objects, rs[0]);
      SliceOfLeaf(objects, rs[0]);
    }
  }

  lemma Scattered(objects: seq<Object>, id: Id)
    requires Flat(objects) && Live(objects, id) && Size(objects, id) > 0
    requires objects[id].Composite? && |objects[id].records| != 1
    ensures |objects[id].records| > 1 && RecordsOk(objects, objects[id].records)
    ensures Regions(objects, id) == RegionsFrom(objects, objects[id].records, 0)
    ensures |Regions(objects, id)| == |objects[id].records| && Flatten(objects, []) == []
  {
    assert ObjectOk(objects, id);
  }

  lemma SizeIsLength(objects: seq<Object>, id: Id)
    requires Flat(objects) && Live(objects, id)
    ensures Size(objects, id) == |Bytes(objects, id)| <= SIZE_MAX
  {
    assert ObjectOk(objects, id);
  }

  /** Two slices of a leaf of three bytes, put together: the first is shown with the whole leaf. */
  method PartialRegion() returns (s: Store, id: Id)
    ensures s.Valid() && Live(s.objects, id) && |Regions(s.objects, id)| == 2
    ensures var region := Regions(s.objects, id)[0];
            region.bytes == [1, 2] && Live(s.objects, region.owner) && Bytes(s.objects, region.owner) == [1, 2, 3]
  {
    s := new Store();
    var leaf, now := s.Create([1, 2, 3], true, true);
    var part := s.Subrange(leaf.value, 0, 2);
    assert [1, 2, 3][0..2] == [1, 2];
    id := s.Concat(part, part);
    TwoParts(s.objects, leaf.value, id);
  }

  lemma TwoParts(objects: seq<Object>, leaf: Id, id: Id)
    requires Flat(objects) && leaf < |objects| && objects[leaf] == Leaf([1, 2, 3]) && id < |objects|
    requires objects[id] == Composite(4, [Record(leaf, 0, 2)] + [Record(leaf, 0, 2)])
    ensures |Regions(objects, id)| == 2 && Regions(objects, id)[0] == Region(leaf, 0, [1, 2])
    ensures Bytes(objects, leaf) == [1, 2, 3]
  {
    var rs := objects[id].records;
    assert ObjectOk(objects, id) && ObjectOk(objects, leaf);
    assert RecordOk(objects, rs[0]) && Slice(objects, rs[0]) == [1, 2];
    RegionsFromAt(objects, rs, 0, 0);
    assert rs[..0] == [];
    EmptyFlatten(objects);
  }

  /** The size recorded for a concatenation is its length if and only if the sum fits a word. */
  lemma ConcatSizeExactly(objects: seq<Object>, a: Id, b: Id)
    requires Flat(objects) && Live(objects, a) && Live(objects, b)
    ensures (Size(objects, a) + Size(objects, b)) % (SIZE_MAX + 1) == |Bytes(objects, a) + Bytes(objects, b)| <==>
              |Bytes(objects, a)| + |Bytes(objects, b)| <= SIZE_MAX
  {
    SizeIsLength(objects, a);
    SizeIsLength(objects, b);
    hide Bytes, Size;
    var n := Size(objects, a) + Size(objects, b);
    if n <= SIZE_MAX {
      Division.Divide(n, SIZE_MAX + 1, 0, n);
    } else {
      assert n % (SIZE_MAX + 1) <= SIZE_MAX;
    }
  }

  function Pow2(n: nat): nat {
    if n == 0 then 1 else 2 * Pow2(n - 1)
  }

  lemma {:induction false} Pow2Mono(a: nat, b: nat)
    requires a <= b
    ensures 0 < Pow2(a) <= Pow2(b)
    decreases b
  {
    if a < b {
      Pow2Mono(a, b - 1);
    } else if a > 0 {
      Pow2Mono(a - 1, b - 1);
    }
  }

  lemma {:induction false} Pow2Twice(n: nat, k: nat)
    ensures Pow2(n + k) == Pow2(n) * Pow2(k)
  {
    if k > 0 {
      Pow2Twice(n, k - 1);
      assert Pow2(n) * (2 * Pow2(k - 1)) == 2 * (Pow2(n) * Pow2(k - 1));
    }
  }

  lemma Pow2Is64()
    ensures Pow2(8) == 0x100 && Pow2(32) == 0x1_0000_0000 && Pow2(64) == 0x1_0000_0000_0000_0000
  {
    assert Pow2(0) == 1 && Pow2(1) == 2;
    Pow2Twice(1, 1);
    Pow2Twice(2, 2);
    Pow2Twice(4, 4);
    Pow2Twice(8, 8);
    Pow2Twice(16, 16);
    Pow2Twice(32, 32);
  }

  lemma Pow2Sizes()
    ensures Pow2(40) == 0x100_0000_0000 && Pow2(63) == 0x8000_0000_0000_0000
  {
    Pow2Is64();
    Pow2Twice(32, 8);
    assert Pow2(64) == 2 * Pow2(63);
  }

  /**
    A leaf of 2^40 bytes concatenated with itself 23 times over, which takes 2^23 records: the size of the
    next concatenation would be zero.
  */
  method Doubled() returns (s: Store, id: Id)
    ensures s.Valid() && Live(s.objects, id) && |Bytes(s.objects, id)| == 0x8000_0000_0000_0000
    ensures |RecordsOf(s.objects, id)| == 0x80_0000
    ensures (Size(s.objects, id) + Size(s.objects, id)) % (SIZE_MAX + 1) == 0
  {
    hide Flat, Balanced, DestroyedOk, Bytes, Pow2, Gained;
    s := new Store();
    Pow2Sizes();
    Pow2Records();
    var leaf, now := s.Create(seq(0x100_0000_0000, i => 0), false, true);
    id := leaf.value;
    var k := 0;
    while k < 23
      invariant 0 <= k <= 23 && s.Valid() && fresh(s) && Live(s.objects, id)
      invariant |Bytes(s.objects, id)| == Pow2(40 + k) && |RecordsOf(s.objects, id)| == Pow2(k)
    {
      Pow2Mono(40 + k, 40 + k);
      Pow2Mono(40 + k + 1, 63);
      Pow2Next(40 + k);
      Pow2Next(k);
      id := s.Concat(id, id);
      k := k + 1;
    }
    SizeIsLength(s.objects, id);
  }

  lemma Pow2Next(n: nat)
    ensures Pow2(n + 1) == 2 * Pow2(n)
  {
  }

  lemma Pow2Records()
    ensures Pow2(0) == 1 && Pow2(23) == 0x80_0000
  {
    assert Pow2(0) == 1 && Pow2(1) == 2;
    Pow2Twice(1, 1);
    Pow2Twice(2, 2);
    Pow2Twice(4, 4);
    Pow2Twice(8, 8);
    Pow2Twice(16, 8);
    assert Pow2(24) == 2 * Pow2(23);
  }

  /** Once nobody holds a handle, everything is gone, every buffer destroyed exactly once. */
  lemma NothingLeaks(objects: seq<Object>, xref: seq<int>, handles: seq<nat>, destroyed: seq<Id>, id: Id)
    requires Flat(objects) && Balanced(objects, xref, handles, [], []) && DestroyedOk(objects, destroyed)
    requires forall k :: EMPTY < k < |objects| ==> handles[k] == 0
    requires EMPTY < id < |objects|
    ensures objects[id].Freed? && (objects[id].wasLeaf <==> id in destroyed)
  {
    forall k | EMPTY < k < |objects| ensures !objects[k].Composite? {
      if objects[k].Composite? { Unnamed(objects, k); }
    }
    CountZero(objects, id);
  }
}
