/**
  Conversion between UTF-8 and UTF-16 on data of one region, with the growing output buffer that is
  flushed into the result whenever it is full. Masks and shifts are written as remainder and division.
*/
module Utf16 {
  import opened Division
  import opened Rope

  const MALLOC_MAX: nat := 100 * 1024 * 1024
  const BOM: Unit := 0xfeff

  type Unit = u: int | 0 <= u < 0x1_0000

  // ---------------------------------------------------------------------------------------------
  // Section 3 of RFC 3629 and section 2.1 of RFC 2781
  // ---------------------------------------------------------------------------------------------

  /** A Unicode scalar value. */
  type Scalar = c: int | 0 <= c < 0xd800 || 0xe000 <= c < 0x11_0000

  /** The UTF-8 sequence of a code point. */
  function Utf8(c: int): (r: seq<Byte>)
    requires 0 <= c < 0x20_0000
    ensures 1 <= |r| <= 4
  {
    if c < 0x80 then [c]
    else if c < 0x800 then [0xc0 + c / 64, 0x80 + c % 64]
    else if c < 0x1_0000 then [0xe0 + c / 4096, 0x80 + c / 64 % 64, 0x80 + c % 64]
    else [0xf0 + c / 262144, 0x80 + c / 4096 % 64, 0x80 + c / 64 % 64, 0x80 + c % 64]
  }

  /** The UTF-16 units of a code point. */
  function Units(c: int): (r: seq<Unit>)
    requires 0 <= c < 0x20_0000
    ensures 1 <= |r| <= 2
  {
    if c < 0x1_0000 then [c]
    else [0xd800 + (c - 0x1_0000) / 1024 % 1024, 0xdc00 + (c - 0x1_0000) % 1024]
  }

  type Code = c: int | 0 <= c < 0x20_0000

  function Utf8All(cs: seq<Code>): seq<Byte> {
    if cs == [] then [] else Utf8(cs[0]) + Utf8All(cs[1..])
  }

  function UnitsAll(cs: seq<Code>): seq<Unit> {
    if cs == [] then [] else Units(cs[0]) + UnitsAll(cs[1..])
  }

  /** A unit in memory. */
  function Serial(u: Unit, little: bool): (r: seq<Byte>)
    ensures |r| == 2
  {
    if little then [u % 256, u / 256] else [u / 256, u % 256]
  }

  function SerialAll(us: seq<Unit>, little: bool): (r: seq<Byte>)
    ensures |r| == 2 * |us|
  {
    if us == [] then [] else Serial(us[0], little) + SerialAll(us[1..], little)
  }

  // ---------------------------------------------------------------------------------------------
  // What the code reads
  // ---------------------------------------------------------------------------------------------

  /** Code points read before the rest. */
  function Before(done: seq<Code>, rest: Option<seq<Code>>): Option<seq<Code>> {
    match rest
    case None => None
    case Some(ws) => Some(done + ws)
  }

  /** The length a first byte announces; 0 for a byte that starts nothing. */
  function Length(b: Byte): nat {
    if b < 0x80 then 1
    else if 0xc0 <= b < 0xe0 then 2
    else if 0xe0 <= b < 0xf0 then 3
    else if 0xf0 <= b < 0xf8 then 4
    else 0
  }

  /** The payload of a first byte. */
  function Lead(b: Byte): nat {
    if Length(b) == 4 then b % 8
    else if Length(b) == 3 then b % 16
    else if Length(b) == 2 then b % 32
    else if Length(b) == 1 then b % 128
    else 0
  }

  /** The payload of the first `k` bytes of a sequence. */
  function Payload(b: seq<Byte>, k: nat): nat
    requires 1 <= k <= |b|
  {
    if k == 1 then Lead(b[0]) else Payload(b, k - 1) * 64 + b[k - 1] % 64
  }

  /** The loop that gathers the payload of a sequence, six bits at a time. */
  method ReadSequence(b: seq<Byte>) returns (w: nat)
    requires b != [] && 1 <= Length(b[0]) <= |b|
    ensures w == Payload(b, Length(b[0]))
  {
    var n := Length(b[0]);
    w := Lead(b[0]);
    if n > 1 {
      w := w * 64;
    }
    var i := 1;
    while i < n
      invariant 1 <= i <= n
      invariant w == Payload(b, i) * (if i < n then 64 else 1)
    {
      w := w + b[i] % 64;
      i := i + 1;
      if i < n {
        w := w * 64;
      }
    }
  }

  /** One code point as the encoder to UTF-16 accepts it: the range test stops short of 0xdfff. */
  function ReadOne(b: seq<Byte>): Option<Code>
    requires b != []
  {
    var n := Length(b[0]);
    if n == 0 || n > |b| then None
    else
      var w := Payload(b, n);
      PayloadBound(b, n);
      if 0xd800 <= w < 0xdfff then None else Some(w)
  }

  lemma PayloadBound(b: seq<Byte>, n: nat)
    requires b != [] && n == Length(b[0]) && 1 <= n <= |b|
    ensures Payload(b, n) < 0x20_0000
  {
    assert Payload(b, 1) == Lead(b[0]);
    if n >= 2 { assert Payload(b, 2) == Lead(b[0]) * 64 + b[1] % 64; }
    if n >= 3 { assert Payload(b, 3) == Payload(b, 2) * 64 + b[2] % 64; }
  }

  function ReadAll(b: seq<Byte>): Option<seq<Code>> {
    if b == [] then Some([])
    else match ReadOne(b)
         case None => None
         case Some(w) =>
           Before([w], ReadAll(b[Length(b[0])..]))
  }

  predicate High(u: Unit) {
    0xd800 <= u <= 0xdbff
  }

  predicate Low(u: Unit) {
    0xdc00 <= u <= 0xdfff
  }

  /**
    One code point as the decoder from UTF-16 accepts it. If the number of bytes is `odd`, the last unit
    has only its first byte inside the region; it is refused unless it comes after a high surrogate.
  */
  function ParseOne(us: seq<Unit>, odd: bool): Option<Code>
    requires us != []
  {
    if odd && |us| == 1 then None
    else if High(us[0]) then
      if |us| == 1 || !Low(us[1]) then None
      else
        var hi: int, lo: int := us[0] - 0xd800, us[1] % 1024;
        Some(hi * 1024 + lo + 0x1_0000)
    else if Low(us[0]) then None
    else Some(us[0])
  }

  /** The units that code point takes. */
  function Taken(us: seq<Unit>, odd: bool): nat
    requires us != [] && ParseOne(us, odd).Some?
  {
    if High(us[0]) then 2 else 1
  }

  function ParseAll(us: seq<Unit>, odd: bool): Option<seq<Code>> {
    if us == [] then Some([])
    else match ParseOne(us, odd)
         case None => None
         case Some(w) =>
           Before([w], ParseAll(us[Taken(us, odd)..], odd))
  }

  // ---------------------------------------------------------------------------------------------
  // Reading back what the standards write
  // ---------------------------------------------------------------------------------------------

  /** A code point is its base-64 digits. */
  lemma Sixes(c: nat)
    ensures c == c / 262144 * 262144 + c / 4096 % 64 * 4096 + c / 64 % 64 * 64 + c % 64
    ensures c == c / 4096 * 4096 + c / 64 % 64 * 64 + c % 64
    ensures c == c / 64 * 64 + c % 64
  {
    var a, d := c / 64, c % 64;
    var b, e := a / 64, a % 64;
    var f, g := b / 64, b % 64;
    assert c == 64 * a + d && a == 64 * b + e && b == 64 * f + g;
    Divide(c, 4096, b, 64 * e + d);
    Divide(c, 262144, f, 4096 * g + 64 * e + d);
  }

  /** A byte that continues a sequence carries six bits. */
  lemma Tail6(b: Byte, y: int)
    requires 0 <= y < 64 && b == 0x80 + y
    ensures b % 64 == y
  {
    Divide(b, 64, 2, y);
  }

  lemma ReadTwo(b: seq<Byte>, x: int, y: int)
    requires |b| >= 2 && 0 <= x < 32 && 0 <= y < 64 && b[0] == 0xc0 + x && b[1] == 0x80 + y
    ensures Length(b[0]) == 2 && Payload(b, 2) == x * 64 + y
  {
    Divide(b[0], 32, 6, x);
    Tail6(b[1], y);
    assert Payload(b, 1) == x;
  }

  lemma ReadThree(b: seq<Byte>, x: int, y: int, z: int)
    requires |b| >= 3 && 0 <= x < 16 && 0 <= y < 64 && 0 <= z < 64
    requires b[0] == 0xe0 + x && b[1] == 0x80 + y && b[2] == 0x80 + z
    ensures Length(b[0]) == 3 && Payload(b, 3) == x * 4096 + y * 64 + z
  {
    Divide(b[0], 16, 14, x);
    Tail6(b[1], y);
    Tail6(b[2], z);
    assert Payload(b, 1) == x;
    assert Payload(b, 2) == x * 64 + y;
  }

  lemma ReadFour(b: seq<Byte>, x: int, y: int, z: int, w: int)
    requires |b| >= 4 && 0 <= x < 8 && 0 <= y < 64 && 0 <= z < 64 && 0 <= w < 64
    requires b[0] == 0xf0 + x && b[1] == 0x80 + y && b[2] == 0x80 + z && b[3] == 0x80 + w
    ensures Length(b[0]) == 4 && Payload(b, 4) == x * 262144 + y * 4096 + z * 64 + w
  {
    Divide(b[0], 8, 30, x);
    Tail6(b[1], y);
    Tail6(b[2], z);
    Tail6(b[3], w);
    assert Payload(b, 1) == x;
    assert Payload(b, 2) == x * 64 + y;
    assert Payload(b, 3) == x * 4096 + y * 64 + z;
  }

  /** The payload of a UTF-8 sequence is its code point, whatever follows. */
  lemma ReadsBack(c: Code, rest: seq<Byte>)
    ensures var b := Utf8(c) + rest; Length(b[0]) == |Utf8(c)| && Payload(b, |Utf8(c)|) == c
  {
    var b := Utf8(c) + rest;
    Sixes(c);
    if c < 0x80 {
      Divide(c, 128, 0, c);
    } else if c < 0x800 {
      ReadTwo(b, c / 64, c % 64);
    } else if c < 0x1_0000 {
      ReadThree(b, c / 4096, c / 64 % 64, c % 64);
    } else {
      ReadFour(b, c / 262144, c / 4096 % 64, c / 64 % 64, c % 64);
    }
  }

  /** The first sequence of a UTF-8 string is read as its code point. */
  lemma ReadsFirst(c: Scalar, rest: seq<Byte>)
    ensures var b := Utf8(c) + rest;
            Length(b[0]) == |Utf8(c)| && ReadOne(b) == Some(c) && b[Length(b[0])..] == rest
  {
    ReadsBack(c, rest);
    hide Utf8, Payload, Length;
  }

  lemma {:induction false} ReadsAll(cs: seq<Scalar>)
    ensures ReadAll(Utf8All(cs)) == Some(cs)
  {
    if cs != [] {
      hide Utf8, ReadOne, Length;
      ReadsFirst(cs[0], Utf8All(cs[1..]));
      ReadsAll(cs[1..]);
      assert [cs[0]] + cs[1..] == cs;
    }
  }

  /** The first units of a UTF-16 string are parsed as their code point. */
  lemma ParsesFirst(c: Scalar, rest: seq<Unit>)
    ensures var us := Units(c) + rest;
            ParseOne(us, false) == Some(c) && Taken(us, false) == |Units(c)| && us[Taken(us, false)..] == rest
  {
    if c >= 0x1_0000 {
      var x := c - 0x1_0000;
      var q, r := x / 1024, x % 1024;
      assert x == 1024 * q + r;
      Divide(0xdc00 + r, 1024, 55, r);
    }
  }

  lemma {:induction false} ParsesAll(cs: seq<Scalar>)
    ensures ParseAll(UnitsAll(cs), false) == Some(cs)
  {
    if cs != [] {
      hide Units, ParseOne;
      ParsesFirst(cs[0], UnitsAll(cs[1..]));
      ParsesAll(cs[1..]);
      assert [cs[0]] + cs[1..] == cs;
    }
  }

  /** Of the surrogates, the range test lets exactly the last one through. */
  lemma SurrogatesRejected(c: int)
    requires 0xd800 <= c <= 0xdfff
    ensures ReadOne(Utf8(c)) == (if c == 0xdfff then Some(c) else None)
  {
    ReadsBack(c, []);
    assert Utf8(c) + [] == Utf8(c);
    hide Utf8, Payload, Length;
  }

  // ---------------------------------------------------------------------------------------------
  // The output buffer
  // ---------------------------------------------------------------------------------------------

  /** Multiplication that sticks at the largest size. */
  function Mul(a: nat, b: nat): nat {
    if a == 0 || SIZE_MAX / a >= b then a * b else SIZE_MAX
  }

  /** The bytes of a list of regions. */
  function Gathered(regions: seq<seq<Byte>>): seq<Byte> {
    if regions == [] then [] else Gathered(regions[..|regions| - 1]) + regions[|regions| - 1]
  }

  class Buffer {
    /** The regions that have been flushed. */
    var data: seq<seq<Byte>>
    var start: array?<Byte>
    var used: nat
    var size: nat

    predicate Valid()
      reads this
    {
      if start == null then used == 0 && size == 0 else start.Length == size && used <= size
    }

    /** What is written and not yet flushed. */
    function Filled(): seq<Byte>
      requires Valid()
      reads this, start
    {
      if start == null then [] else start[..used]
    }

    /** Everything written so far. */
    function Contents(): seq<Byte>
      requires Valid()
      reads this, start
    {
      Gathered(data) + Filled()
    }

    constructor ()
      ensures Valid() && Contents() == [] && start == null && data == []
    {
      data, start, used, size := [], null, 0, 0;
    }

    /** Makes room for `required` bytes, in a new buffer if need be; nothing required means flush. */
    method New(required: nat, extra: nat, memory: bool) returns (ok: bool)
      requires Valid()
      modifies this
      ensures Valid() && Contents() == old(Contents()) && (start == null || start == old(start) || fresh(start))
      ensures ok ==> required <= size - used
      ensures required + extra > 0 && !(0 < required <= old(size - used)) ==>
                (ok <==> memory && required + extra <= MALLOC_MAX)
      ensures required == 0 && extra == 0 ==> ok && Gathered(data) == Contents()
      ensures 0 < required <= old(size - used) ==> ok && unchanged(this)
      ensures !(0 < required <= old(size - used)) ==>
                && used == 0 && data == old(data) + (if old(used) > 0 then [old(Filled())] else [])
                && (ok ==> size == required + extra)
    {
      if required == 0 || size - used < required {
        if start != null && used > 0 {
          data := data + [start[..used]];
          assert data[..|data| - 1] == old(data);
        }
        start, used, size := null, 0, 0;
        if required + extra > 0 {
          if required + extra > MALLOC_MAX || !memory {
            return false;
          }
          start := new Byte[required + extra];
          size := required + extra;
        }
      }
      ok := true;
    }

    method Put(b: Byte)
      requires Valid() && used < size
      modifies this`used, start
      ensures Valid() && Contents() == old(Contents()) + [b] && used == old(used) + 1
    {
      start[used] := b;
      used := used + 1;
    }

    method PutUnit(u: Unit, little: bool)
      requires Valid() && 2 <= size - used
      modifies this`used, start
      ensures Valid() && Contents() == old(Contents()) + Serial(u, little) && used == old(used) + 2
    {
      if little {
        Put(u % 256);
        Put(u / 256);
      } else {
        Put(u / 256);
        Put(u % 256);
      }
    }

    /** One code point in UTF-16, with room left for `rest` more units. */
    method PutUtf16(w: Code, rest: nat, little: bool, memory: bool) returns (ok: bool)
      requires Valid()
      modifies this, start
      ensures Valid() && (start == null || start == old(start) || fresh(start))
      ensures ok ==> Contents() == old(Contents()) + SerialAll(Units(w), little)
      ensures memory && 4 + Mul(rest, 2) <= MALLOC_MAX ==> ok
      ensures 2 * |Units(w)| <= old(size - used) ==>
                && ok && start == old(start) && size == old(size) && data == old(data)
                && used == old(used) + 2 * |Units(w)|
    {
      hide Gathered, Filled;
      SerialUnits(w, little);
      if w >= 0x1_0000 {
        ok := New(4, Mul(rest, 2), memory);
        if !ok { return; }
        PutUnit(0xd800 + (w - 0x1_0000) / 1024 % 1024, little);
        PutUnit(0xdc00 + (w - 0x1_0000) % 1024, little);
      } else {
        ok := New(2, Mul(rest, 2), memory);
        if !ok { return; }
        PutUnit(w, little);
      }
    }

    method PutTwo(a: Byte, b: Byte)
      requires Valid() && 2 <= size - used
      modifies this`used, start
      ensures Valid() && Contents() == old(Contents()) + [a, b] && used == old(used) + 2
    {
      Put(a);
      Put(b);
    }

    /** One code point in UTF-8, with some room for `rest` more units. */
    method PutUtf8(w: Code, rest: nat, memory: bool) returns (ok: bool)
      requires Valid()
      modifies this, start
      ensures Valid() && (start == null || start == old(start) || fresh(start))
      ensures ok ==> Contents() == old(Contents()) + Utf8(w)
      ensures memory && |Utf8(w)| + Mul(rest, 2) <= MALLOC_MAX ==> ok
    {
      hide Contents, Mul;
      var next := Mul(rest, 2);
      ghost var before := Contents();
      if w < 0x80 {
        ok := New(1, next, memory);
        if !ok { return; }
        Put(w);
      } else if w < 0x800 {
        ok := New(2, next, memory);
        if !ok { return; }
        PutTwo(0xc0 + w / 64, 0x80 + w % 64);
      } else if w < 0x1_0000 {
        ok := New(3, next, memory);
        if !ok { return; }
        var a: Byte, b: Byte, c: Byte := 0xe0 + w / 4096, 0x80 + w / 64 % 64, 0x80 + w % 64;
        assert Utf8(w) == [a, b, c] && before + [a, b, c] == before + [a] + [b, c];
        Put(a);
        PutTwo(b, c);
      } else {
        ok := New(4, next, memory);
        if !ok { return; }
        var a: Byte, b: Byte, c: Byte, d: Byte :=
          0xf0 + w / 262144, 0x80 + w / 4096 % 64, 0x80 + w / 64 % 64, 0x80 + w % 64;
        assert Utf8(w) == [a, b, c, d] && before + [a, b, c, d] == before + [a, b] + [c, d];
        PutTwo(a, b);
        PutTwo(c, d);
      }
    }
  }

  lemma SerialUnits(w: Code, little: bool)
    ensures w < 0x1_0000 ==> SerialAll(Units(w), little) == Serial(w, little)
    ensures w >= 0x1_0000 ==>
              SerialAll(Units(w), little) == Serial(Units(w)[0], little) + Serial(Units(w)[1], little)
  {
    var us := Units(w);
    if w < 0x1_0000 {
      assert us[1..] == [];
    } else {
      assert us[1..][1..] == [];
    }
  }

  // ---------------------------------------------------------------------------------------------
  // The conversions
  // ---------------------------------------------------------------------------------------------

  lemma {:induction false} Utf8Snoc(cs: seq<Code>, c: Code)
    ensures Utf8All(cs + [c]) == Utf8All(cs) + Utf8(c)
  {
    hide Utf8;
    if cs == [] {
      assert cs + [c] == [c] && [c][1..] == [];
    } else {
      assert (cs + [c])[0] == cs[0] && (cs + [c])[1..] == cs[1..] + [c];
      Utf8Snoc(cs[1..], c);
    }
  }

  lemma {:induction false} SerialAppend(a: seq<Unit>, b: seq<Unit>, little: bool)
    ensures SerialAll(a + b, little) == SerialAll(a, little) + SerialAll(b, little)
  {
    hide Serial;
    if a == [] {
      assert a + b == b;
    } else {
      assert (a + b)[0] == a[0] && (a + b)[1..] == a[1..] + b;
      SerialAppend(a[1..], b, little);
    }
  }

  lemma {:induction false} UnitsSnoc(cs: seq<Code>, c: Code)
    ensures UnitsAll(cs + [c]) == UnitsAll(cs) + Units(c)
  {
    hide Units;
    if cs == [] {
      assert cs + [c] == [c] && [c][1..] == [];
    } else {
      assert (cs + [c])[0] == cs[0] && (cs + [c])[1..] == cs[1..] + [c];
      UnitsSnoc(cs[1..], c);
    }
  }

  /** The output of the conversion to UTF-16: a byte order mark and the code points. */
  function Output16(cs: seq<Code>, little: bool): seq<Byte> {
    Serial(BOM, little) + SerialAll(UnitsAll(cs), little)
  }

  lemma Output16Snoc(cs: seq<Code>, c: Code, little: bool)
    ensures Output16(cs + [c], little) == Output16(cs, little) + SerialAll(Units(c), little)
  {
    hide Serial, SerialAll, UnitsAll, Units;
    UnitsSnoc(cs, c);
    SerialAppend(UnitsAll(cs), Units(c), little);
  }

  /** Reading one code point of what is left. */
  lemma ReadStep(all: Option<seq<Code>>, done: seq<Code>, b: seq<Byte>)
    requires b != [] && all == Before(done, ReadAll(b))
    ensures ReadOne(b).None? ==> all.None?
    ensures ReadOne(b).Some? ==>
              0 < Length(b[0]) <= |b| && all == Before(done + [ReadOne(b).value], ReadAll(b[Length(b[0])..]))
  {
    hide ReadAll, ReadOne, Length;
    ReadUnfold(b);
    ReadLength(b);
    if ReadOne(b).Some? { BeforeMore(done, ReadOne(b).value, ReadAll(b[Length(b[0])..])); }
  }

  lemma ReadLength(b: seq<Byte>)
    requires b != []
    ensures ReadOne(b).Some? ==> 0 < Length(b[0]) <= |b|
  {
    hide Payload;
  }

  lemma ReadUnfold(b: seq<Byte>)
    requires b != []
    ensures ReadAll(b) == match ReadOne(b)
                          case None => None
                          case Some(w) => Before([w], ReadAll(b[Length(b[0])..]))
  {
  }

  lemma BeforeMore(done: seq<Code>, w: Code, rest: Option<seq<Code>>)
    ensures Before(done, Before([w], rest)) == Before(done + [w], rest)
  {
    if rest.Some? { assert done + ([w] + rest.value) == done + [w] + rest.value; }
  }

  /** A code point has no more units than its sequence has bytes. */
  lemma UnitsFit(b: seq<Byte>)
    requires b != [] && ReadOne(b).Some?
    ensures |Units(ReadOne(b).value)| <= Length(b[0])
  {
    var n := Length(b[0]);
    assert Payload(b, 1) == Lead(b[0]);
    if n >= 2 { assert Payload(b, 2) == Lead(b[0]) * 64 + b[1] % 64; }
  }

  /** The loop over the bytes of the region: the first buffer is large enough and is never replaced. */
  method Convert16(bytes: seq<Byte>, buffer: Buffer, little: bool, memory: bool) returns (ok: bool)
    requires buffer.Valid() && buffer.data == [] && buffer.used == 2 && buffer.size == 2 + 2 * |bytes|
    requires buffer.Contents() == Output16([], little)
    modifies buffer, buffer.start
    ensures buffer.Valid() && buffer.start == old(buffer.start) && buffer.data == [] && buffer.used >= 2
    ensures ok <==> ReadAll(bytes).Some?
    ensures ok ==> buffer.Contents() == Output16(ReadAll(bytes).value, little)
  {
    hide ReadAll, ReadOne, Units, SerialAll, Output16, Buffer.Contents, Mul, Length;
    ghost var done: seq<Code> := [];
    var i := 0;
    assert bytes[0..] == bytes;
    BeforeNothing(ReadAll(bytes));
    while i < |bytes|
      invariant 0 <= i <= |bytes| && buffer.Valid()
      invariant buffer.start == old(buffer.start) && buffer.data == [] && buffer.size == 2 + 2 * |bytes|
      invariant 2 <= buffer.used <= 2 + 2 * i
      invariant buffer.Contents() == Output16(done, little)
      invariant ReadAll(bytes) == Before(done, ReadAll(bytes[i..]))
    {
      ReadStep(ReadAll(bytes), done, bytes[i..]);
      ghost var rest := bytes[i..];
      var w;
      ok, w := Next(bytes[i..]);
      if !ok {
        return;
      }
      UnitsFit(bytes[i..]);
      assert rest[Length(bytes[i])..] == bytes[i + Length(bytes[i])..];
      i := i + Length(bytes[i]);
      ok := buffer.PutUtf16(w, |bytes| - i, little, memory);
      Output16Snoc(done, w, little);
      done := done + [w];
    }
    assert bytes[i..] == [] && done + [] == done;
    ReadNothing();
    ok := true;
  }

  lemma MulTwo(n: nat)
    ensures Mul(n, 2) <= 2 * n && (2 * n <= SIZE_MAX ==> Mul(n, 2) == 2 * n)
  {
    if n > 0 {
      var q := SIZE_MAX / n;
      assert SIZE_MAX == n * q + SIZE_MAX % n;
      assert q <= 1 ==> n * q <= n;
    }
  }

  /** The regions of the result: one, unless there is nothing to convert. */
  method ToUtf16(bytes: seq<Byte>, little: bool, memory: bool) returns (ok: bool, out: seq<seq<Byte>>)
    requires 2 * |bytes| + 2 <= SIZE_MAX
    ensures ok ==> ReadAll(bytes).Some?
    ensures ok ==> out == if bytes == [] then [] else [Output16(ReadAll(bytes).value, little)]
    ensures memory && 2 * |bytes| + 2 <= MALLOC_MAX ==> (ok <==> ReadAll(bytes).Some?)
  {
    hide ReadAll, Output16, Mul, Serial;
    out := [];
    if bytes == [] {
      ReadNothing();
      return true, [];
    }
    var buffer := new Buffer();
    MulTwo(|bytes|);
    ok := buffer.New(2 + Mul(|bytes|, 2), 0, memory);
    if !ok {
      return;
    }
    buffer.PutUnit(BOM, little);
    Output16None(little);
    assert [] + Serial(BOM, little) == Serial(BOM, little);
    ok := Convert16(bytes, buffer, little, memory);
    if !ok {
      return;
    }
    ghost var filled := buffer.Filled();
    assert buffer.Contents() == [] + filled == filled;
    ok := buffer.New(0, 0, memory);
    out := buffer.data;
  }

  /** One step of the loop: a code point, unless the byte starts nothing, is cut off or is a surrogate. */
  method Next(b: seq<Byte>) returns (ok: bool, w: Code)
    requires b != []
    ensures ok <==> ReadOne(b).Some?
    ensures ok ==> ReadOne(b) == Some(w)
  {
    w := 0;
    var n := Length(b[0]);
    if n == 0 || n > |b| {
      return false, 0;
    }
    PayloadBound(b, n);
    w := ReadSequence(b);
    ok := !(0xd800 <= w < 0xdfff);
  }

  lemma ReadNothing()
    ensures ReadAll([]) == Some([]) && ParseAll([], false) == ParseAll([], true) == Some([])
  {
  }

  lemma BeforeNothing(rest: Option<seq<Code>>)
    ensures Before([], rest) == rest
  {
    if rest.Some? { assert [] + rest.value == rest.value; }
  }

  lemma Output16None(little: bool)
    ensures Output16([], little) == Serial(BOM, little)
  {
  }

  /** The unit at a position, in host order. */
  function UnitAt(b: seq<Byte>, k: nat, little: bool): Unit
    requires 2 * k + 1 < |b|
  {
    var x: int, y: int := b[2 * k], b[2 * k + 1];
    if little then y * 256 + x else x * 256 + y
  }

  function UnitsOf(b: seq<Byte>, little: bool): seq<Unit> {
    seq(|b| / 2, k requires 0 <= k < |b| / 2 => UnitAt(b, k, little))
  }

  lemma UnitBack(u: Unit, little: bool)
    ensures UnitAt(Serial(u, little), 0, little) == u
  {
  }

  /** Units come back from memory as they were written. */
  lemma {:induction false} UnitsBack(us: seq<Unit>, little: bool)
    ensures UnitsOf(SerialAll(us, little), little) == us
  {
    if us != [] {
      var b, rest := SerialAll(us, little), SerialAll(us[1..], little);
      UnitBack(us[0], little);
      UnitsBack(us[1..], little);
      assert b == Serial(us[0], little) + rest;
      hide SerialAll, Serial;
      forall k | 0 <= k < |us| ensures UnitAt(b, k, little) == us[k] {
        if k > 0 {
          assert b[2 * k] == rest[2 * (k - 1)] && b[2 * k + 1] == rest[2 * (k - 1) + 1];
          assert UnitsOf(rest, little)[k - 1] == us[k];
        }
      }
    }
  }

  /** The text of a UTF-16 string: a byte order mark is skipped, a reversed one rejected. */
  function Text(us: seq<Unit>, odd: bool): Option<seq<Code>> {
    if odd && |us| == 1 then None
    else if us != [] && us[0] == 0xfffe then None
    else if us != [] && us[0] == BOM then ParseAll(us[1..], odd)
    else ParseAll(us, odd)
  }

  lemma ParseUnfold(us: seq<Unit>, odd: bool)
    requires us != []
    ensures ParseOne(us, odd).Some? ==> Taken(us, odd) <= |us|
    ensures ParseAll(us, odd) == match ParseOne(us, odd)
                                 case None => None
                                 case Some(w) => Before([w], ParseAll(us[Taken(us, odd)..], odd))
  {
  }

  /** Parsing one code point of what is left. */
  lemma ParseStep(all: Option<seq<Code>>, done: seq<Code>, us: seq<Unit>, odd: bool)
    requires us != [] && all == Before(done, ParseAll(us, odd))
    ensures ParseOne(us, odd).None? ==> all.None?
    ensures ParseOne(us, odd).Some? ==>
              && Taken(us, odd) <= |us|
              && all == Before(done + [ParseOne(us, odd).value], ParseAll(us[Taken(us, odd)..], odd))
  {
    ParseUnfold(us, odd);
    hide ParseAll, ParseOne, Taken;
    if ParseOne(us, odd).Some? { BeforeMore(done, ParseOne(us, odd).value, ParseAll(us[Taken(us, odd)..], odd)); }
  }

  /** One step of the loop: a unit or a surrogate pair, unless a surrogate is alone or a last byte odd. */
  method NextUnit(us: seq<Unit>, odd: bool, i: nat) returns (ok: bool, w: Code, last: nat)
    requires i < |us|
    ensures ok <==> ParseOne(us[i..], odd).Some?
    ensures ok ==> ParseOne(us[i..], odd) == Some(w) && last + 1 == i + Taken(us[i..], odd)
  {
    w, last := 0, i;
    if odd && i == |us| - 1 {
      return false, 0, last;
    }
    var ch: int := us[i];
    if 0xd800 <= ch <= 0xdbff {
      var hi := (ch - 0xd800) * 1024;
      last := i + 1;
      if last >= |us| {
        return false, 0, last;
      }
      ch := us[last];
      if !(0xdc00 <= ch <= 0xdfff) {
        return false, 0, last;
      }
      w := hi + ch % 1024 + 0x1_0000;
    } else if 0xdc00 <= ch <= 0xdfff {
      return false, 0, last;
    } else {
      w := ch;
    }
    ok := true;
  }

  /** The loop over the units of the region, after a byte order mark. */
  method Convert8(us: seq<Unit>, odd: bool, from: nat, buffer: Buffer, memory: bool) returns (ok: bool)
    requires from <= |us| && buffer.Valid() && buffer.Contents() == []
    modifies buffer, buffer.start
    ensures buffer.Valid() && (buffer.start == null || buffer.start == old(buffer.start) || fresh(buffer.start))
    ensures ok ==> ParseAll(us[from..], odd).Some? && buffer.Contents() == Utf8All(ParseAll(us[from..], odd).value)
    ensures memory && 2 * |us| + 4 <= MALLOC_MAX ==> (ok <==> ParseAll(us[from..], odd).Some?)
    ensures memory && ParseAll(us[from..], odd).Some?
            && 2 * |Utf8All(ParseAll(us[from..], odd).value)| + 2 <= MALLOC_MAX ==>
              ok
  {
    hide ParseAll, ParseOne, Utf8, Utf8All, Buffer.Contents, Mul;
    ghost var done: seq<Code> := [];
    Utf8None();
    var i := from;
    BeforeNothing(ParseAll(us[from..], odd));
    while i < |us|
      invariant from <= i <= |us| && buffer.Valid()
      invariant buffer.start == null || buffer.start == old(buffer.start) || fresh(buffer.start)
      invariant buffer.Contents() == Utf8All(done)
      invariant ParseAll(us[from..], odd) == Before(done, ParseAll(us[i..], odd))
    {
      ParseStep(ParseAll(us[from..], odd), done, us[i..], odd);
      ghost var j, rest := i, us[i..];
      var w;
      ok, w, i := NextUnit(us, odd, i);
      if !ok {
        return;
      }
      assert rest[i + 1 - j..] == us[i + 1..];
      if ParseAll(us[from..], odd).Some? { RequestFits(done, w, us[i + 1..], odd); }
      MulTwo(|us| - i);
      ok := buffer.PutUtf8(w, |us| - i, memory);
      if !ok {
        return;
      }
      i := i + 1;
      Utf8Snoc(done, w);
      done := done + [w];
    }
    assert us[i..] == [] && done + [] == done;
    ReadNothing();
    ok := true;
  }

  lemma {:induction false} Utf8Append(a: seq<Code>, b: seq<Code>)
    ensures Utf8All(a + b) == Utf8All(a) + Utf8All(b)
  {
    hide Utf8;
    if a == [] {
      assert a + b == b;
    } else {
      assert (a + b)[0] == a[0] && (a + b)[1..] == a[1..] + b;
      Utf8Append(a[1..], b);
    }
  }

  /** A text has no more units than bytes in UTF-8. */
  lemma {:induction false} ParseShort(us: seq<Unit>, odd: bool)
    requires ParseAll(us, odd).Some?
    ensures |us| <= |Utf8All(ParseAll(us, odd).value)|
    decreases |us|
  {
    if us != [] {
      ParseUnfold(us, odd);
      var n, w := Taken(us, odd), ParseOne(us, odd).value;
      assert n <= |Utf8(w)|;
      hide ParseAll, ParseOne, Taken, Utf8;
      ParseShort(us[n..], odd);
      Utf8Append([w], ParseAll(us[n..], odd).value);
      Utf8Snoc([], w);
      Utf8None();
      assert [] + [w] == [w];
    }
  }

  /** What is asked for before code point `w` is no more than twice the whole text and two. */
  lemma RequestFits(done: seq<Code>, w: Code, us: seq<Unit>, odd: bool)
    requires ParseAll(us, odd).Some?
    ensures var cs := Before(done + [w], ParseAll(us, odd)).value;
            |Utf8(w)| + 2 * (|us| + 1) <= 2 * |Utf8All(cs)| + 2
  {
    hide ParseAll, Utf8, Utf8All;
    var rest := ParseAll(us, odd).value;
    ParseShort(us, odd);
    Utf8Append(done + [w], rest);
    Utf8Snoc(done, w);
  }

  lemma Utf8None()
    ensures Utf8All([]) == []
  {
  }

  /** The units a region is read as; `beyond` is the byte in memory after a region of odd size. */
  function Seen(bytes: seq<Byte>, beyond: Byte, little: bool): seq<Unit> {
    UnitsOf(if |bytes| % 2 == 0 then bytes else bytes + [beyond], little)
  }

  method FromUtf16(bytes: seq<Byte>, beyond: Byte, little: bool, memory: bool) returns (ok: bool, out: seq<seq<Byte>>)
    requires 2 * |bytes| <= SIZE_MAX
    ensures var text := Text(Seen(bytes, beyond, little), |bytes| % 2 == 1);
            && (ok ==> text.Some? && Gathered(out) == Utf8All(text.value))
            && (memory && |bytes| + 5 <= MALLOC_MAX ==> (ok <==> text.Some?))
            && (memory && text.Some? && 2 * |Utf8All(text.value)| + 2 <= MALLOC_MAX ==> ok)
  {
    hide ParseAll, Utf8All, Mul, UnitAt, Gathered, Buffer.Filled;
    out := [];
    var us, odd := Seen(bytes, beyond, little), |bytes| % 2 == 1;
    if bytes == [] {
      ReadNothing();
      Utf8None();
      GatheredNone();
      return true, [];
    }
    var buffer := new Buffer();
    MulTwo(|bytes|);
    if Text(us, odd).Some? { TextShort(us, odd); }
    ok := buffer.New(Mul(|bytes|, 2) / 3, 0, memory);
    if !ok {
      return;
    }
    if odd && |us| == 1 {
      return false, [];
    }
    if us[0] == 0xfffe {
      return false, [];
    }
    assert us[0..] == us;
    ok := Convert8(us, odd, if us[0] == BOM then 1 else 0, buffer, memory);
    if !ok {
      return;
    }
    ok := buffer.New(0, 0, memory);
    out := buffer.data;
  }

  lemma TextShort(us: seq<Unit>, odd: bool)
    requires Text(us, odd).Some?
    ensures |us| <= |Utf8All(Text(us, odd).value)| + 1
  {
    ParseShort(if us != [] && us[0] == BOM then us[1..] else us, odd);
    hide ParseAll, Utf8All;
  }

  lemma GatheredNone()
    ensures Gathered([]) == []
  {
  }

  /**
    A region of an odd number of bytes is accepted if and only if its text ends in a high surrogate and
    the unit made of its last byte and the byte beyond the region happens to be a low one.
  */
  lemma {:induction false} OddAccepted(us: seq<Unit>, last: Unit)
    ensures ParseAll(us + [last], true).Some? <==>
              us != [] && ParseAll(us[..|us| - 1], false).Some? && High(us[|us| - 1]) && Low(last)
    decreases |us|
  {
    var all := us + [last];
    ParseUnfold(all, true);
    if us == [] {
      assert all == [last];
    } else if |us| == 1 {
      assert us[..0] == [] && all[0] == us[0] && all[1] == last && all[1..] == [last] && all[2..] == [];
      ParseUnfold([last], true);
    } else {
      var n, init := |us|, us[..|us| - 1];
      ParseUnfold(init, false);
      assert all[0] == us[0] == init[0] && all[1] == us[1];
      hide ParseAll;
      if ParseOne(all, true).Some? {
        var k := Taken(all, true);
        if k < n {
          assert all[k..] == us[k..] + [last] && init[k..] == us[k..][..|us[k..]| - 1];
          OddAccepted(us[k..], last);
        } else {
          assert n == 2 && k == 2 && |init| == 1 && all[k..] == [last];
          ParseUnfold([last], true);
        }
      }
    }
  }

  /** The same for the whole conversion, whatever lies beyond the region. */
  lemma OddDecided(bytes: seq<Byte>, beyond: Byte, little: bool)
    requires |bytes| % 2 == 1
    ensures var us := UnitsOf(bytes[..|bytes| - 1], little);
            var from := if us != [] && us[0] == BOM then 1 else 0;
            var last := UnitAt(bytes + [beyond], |bytes| / 2, little);
            Text(Seen(bytes, beyond, little), true).Some? <==>
              && |us| > from && us[0] != 0xfffe
              && ParseAll(us[from..|us| - 1], false).Some? && High(us[|us| - 1]) && Low(last)
  {
    hide ParseAll, UnitAt;
    var n := |bytes| / 2;
    var us, last := UnitsOf(bytes[..|bytes| - 1], little), UnitAt(bytes + [beyond], n, little);
    assert Seen(bytes, beyond, little) == us + [last] by { SeenOdd(bytes, beyond, little); }
    hide UnitsOf, Seen;
    if us != [] {
      var from := if us[0] == BOM then 1 else 0;
      OddAccepted(us[from..], last);
      assert (us + [last])[from..] == us[from..] + [last];
      assert us[from..] != [] ==> us[from..][..|us[from..]| - 1] == us[from..|us| - 1];
    }
  }

  /** Three bytes whose acceptance hangs on the byte after them. */
  lemma OddReadsBeyond()
    ensures Text(Seen([0x00, 0xd8, 0x00], 0xdc, true), true).Some?
    ensures Text(Seen([0x00, 0xd8, 0x00], 0x00, true), true).None?
  {
    var b := [0x00, 0xd8, 0x00];
    var us := UnitsOf(b[..2], true);
    assert us == [0xd800] && us[0..0] == [];
    ReadNothing();
    OddDecided(b, 0xdc, true);
    OddDecided(b, 0x00, true);
    hide ParseAll, Text, Seen;
  }

  lemma SeenOdd(bytes: seq<Byte>, beyond: Byte, little: bool)
    requires |bytes| % 2 == 1
    ensures Seen(bytes, beyond, little) ==
              UnitsOf(bytes[..|bytes| - 1], little) + [UnitAt(bytes + [beyond], |bytes| / 2, little)]
  {
    var n, all, init := |bytes| / 2, bytes + [beyond], bytes[..|bytes| - 1];
    assert |all| / 2 == n + 1 && |init| / 2 == n;
    forall k | 0 <= k < n ensures UnitAt(all, k, little) == UnitAt(init, k, little) {
      assert all[2 * k] == init[2 * k] && all[2 * k + 1] == init[2 * k + 1];
    }
  }

  /** What was converted to UTF-16 is the same text, a leading U+FEFF included. */
  lemma TextBack(cs: seq<Scalar>, little: bool)
    ensures Text(UnitsOf(Output16(cs, little), little), false) == Some(cs)
  {
    hide ParseAll, UnitsAll, Serial;
    ParsesAll(cs);
    var us := [BOM] + UnitsAll(cs);
    assert us[1..] == UnitsAll(cs);
    assert SerialAll(us, little) == Output16(cs, little);
    hide SerialAll, Output16;
    UnitsBack(us, little);
  }

  lemma {:induction false} UnitsShort(cs: seq<Code>)
    ensures |UnitsAll(cs)| <= |Utf8All(cs)|
  {
    if cs != [] { UnitsShort(cs[1..]); }
  }

  lemma NoText(cs: seq<Scalar>)
    requires Utf8All(cs) == []
    ensures cs == []
  {
  }

  lemma EmptyText(beyond: Byte, little: bool)
    ensures Text(Seen([], beyond, little), false) == Some([])
  {
  }

  /** Any well-formed text survives the way to UTF-16, in one region, and back. */
  method RoundTrip(ghost cs: seq<Scalar>, bytes: seq<Byte>, beyond: Byte, little: bool)
    returns (ok: bool, out: seq<seq<Byte>>)
    requires bytes == Utf8All(cs) && 2 * |bytes| + 2 <= MALLOC_MAX
    ensures ok && Gathered(out) == bytes
  {
    hide ReadAll, Utf8All, Text, UnitsOf, Gathered;
    ReadsAll(cs);
    TextBack(cs, little);
    UnitsShort(cs);
    var there;
    ok, there := ToUtf16(bytes, little, true);
    if bytes == [] {
      NoText(cs);
      EmptyText(beyond, little);
      ok, out := FromUtf16([], beyond, little, true);
    } else {
      ok, out := FromUtf16(there[0], beyond, little, true);
    }
  }
}
