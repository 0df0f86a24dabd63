/**
  Base64 over data objects. The encoder runs over the regions of an object with one byte of look-back;
  the decoder keeps a running 64-bit accumulator. Shifts and masks are written as division and remainder.
*/
module Base64 {
  import opened Division
  import opened Rope

  const WORD: nat := SIZE_MAX + 1
  const PAD: Byte := 61

  // ---------------------------------------------------------------------------------------------
  // The alphabet
  // ---------------------------------------------------------------------------------------------

  type Six = v: int | 0 <= v < 64

  /** The encoding table: A-Z, a-z, 0-9, plus and slash. */
  function Char(v: Six): Byte {
    if v < 26 then 65 + v
    else if v < 52 then 97 + (v - 26)
    else if v < 62 then 48 + (v - 52)
    else if v == 62 then 43
    else 47
  }

  /** The decoding table: a value, -2 for padding, -1 for anything else. */
  function Value(c: Byte): int {
    if 65 <= c <= 90 then c - 65
    else if 97 <= c <= 122 then c - 97 + 26
    else if 48 <= c <= 57 then c - 48 + 52
    else if c == 43 then 62
    else if c == 47 then 63
    else if c == PAD then -2
    else -1
  }

  // ---------------------------------------------------------------------------------------------
  // Section 4 of RFC 4648
  // ---------------------------------------------------------------------------------------------

  const UPPER := "ABCDEFGHIJKLMNOPQRSTUVWXYZ"
  const LOWER := "abcdefghijklmnopqrstuvwxyz"
  const OTHERS := "0123456789+/"
  const ALPHABET: string := UPPER + LOWER + OTHERS

  /** The encoding table is the alphabet of the standard. */
  lemma EncodesAlphabet(v: Six)
    ensures |ALPHABET| == 64 && Char(v) == ALPHABET[v] as int
  {
    assert forall i :: 0 <= i < 26 ==> UPPER[i] as int == Char(i);
    assert forall i :: 0 <= i < 26 ==> LOWER[i] as int == Char(26 + i);
    assert forall i :: 0 <= i < 12 ==> OTHERS[i] as int == Char(52 + i);
  }

  /** The decoding table gives each character of the alphabet its place, padding -2 and anything else -1. */
  lemma DecodesAlphabet(c: Byte)
    ensures |ALPHABET| == 64 && -2 <= Value(c) < 64
    ensures forall v: Six :: Value(c) == v <==> c == ALPHABET[v] as int
    ensures Value(c) == -2 <==> c == '=' as int
  {
    forall v: Six ensures Value(c) == v <==> c == ALPHABET[v] as int {
      EncodesAlphabet(v);
    }
  }

  /** The character the standard has for a value. */
  function Letter(v: Six): Byte {
    EncodesAlphabet(v);
    ALPHABET[v] as int
  }

  /** Three bytes as a 24-bit number. */
  function Bits(x: int, y: int, z: int): int {
    x * 65536 + y * 256 + z
  }

  /** The 24 bits of three bytes, as four characters. */
  function Quad(x: Byte, y: Byte, z: Byte): (r: seq<Byte>)
    ensures |r| == 4
  {
    var n := Bits(x, y, z);
    [Letter(n / 262144), Letter(n / 4096 % 64), Letter(n / 64 % 64), Letter(n % 64)]
  }

  /** The place of byte number `n` in its group. */
  function Phase(n: nat): nat {
    n % 3
  }

  /** Whole groups, then a last group filled up with zero bits and padding. */
  function Encoding(b: seq<Byte>): seq<Byte> {
    if |b| == 0 then []
    else if |b| == 1 then Quad(b[0], 0, 0)[..2] + [PAD, PAD]
    else if |b| == 2 then Quad(b[0], b[1], 0)[..3] + [PAD]
    else Quad(b[0], b[1], b[2]) + Encoding(b[3..])
  }

  /** The groups of `n` bytes, the last one perhaps short. */
  function Groups(n: nat): nat {
    (n + 2) / 3
  }

  lemma GroupsStep(n: nat)
    ensures Groups(0) == 0 && Groups(1) == 1 && Groups(2) == 1 && Groups(n + 3) == Groups(n) + 1
  {
    Divide(n + 5, 3, (n + 2) / 3 + 1, (n + 2) % 3);
  }

  lemma {:induction false} EncodingLength(b: seq<Byte>)
    ensures |Encoding(b)| == Groups(|b|) * 4
  {
    hide Groups, Quad;
    if |b| >= 3 {
      GroupsStep(|b| - 3);
      EncodingLength(b[3..]);
    } else {
      GroupsStep(0);
    }
  }

  lemma {:induction false} EncodingAppend(a: seq<Byte>, b: seq<Byte>)
    requires Phase(|a|) == 0
    ensures Encoding(a + b) == Encoding(a) + Encoding(b)
  {
    if a == [] {
      assert a + b == b;
    } else {
      assert (a + b)[3..] == a[3..] + b;
      EncodingAppend(a[3..], b);
    }
  }

  // ---------------------------------------------------------------------------------------------
  // The encoder
  // ---------------------------------------------------------------------------------------------

  /** The four six-bit pieces of three bytes, cut with shifts and masks. */
  function First(x: Byte): Six {
    x / 4
  }

  function Second(x: Byte, y: Byte): Six {
    x % 4 * 16 + y / 16
  }

  function Third(y: Byte, z: Byte): Six {
    y % 16 * 4 + z / 64
  }

  function Fourth(z: Byte): Six {
    z % 64
  }

  /** What the encoder writes for byte number `k`, looking back at the byte before. */
  function Emit(k: nat, last: Byte, curr: Byte): seq<Byte> {
    if Phase(k) == 0 then [Char(First(curr))]
    else if Phase(k) == 1 then [Char(Second(last, curr))]
    else [Char(Third(last, curr)), Char(Fourth(curr))]
  }

  /** What it has written after all bytes of `b`. */
  function Stream(b: seq<Byte>): seq<Byte> {
    if b == [] then [] else
      var k := |b| - 1;
      Stream(b[..k]) + Emit(k, if k > 0 then b[k - 1] else 0, b[k])
  }

  /** What it adds after the last byte. */
  function Finish(b: seq<Byte>): seq<Byte> {
    if Phase(|b|) == 0 then []
    else if Phase(|b|) == 1 then [Char(Second(b[|b| - 1], 0)), PAD, PAD]
    else [Char(Third(b[|b| - 1], 0)), PAD]
  }

  /** A number put together from base-64 digits comes apart into them. */
  lemma Digits(a: int, b: int, c: int, d: int, n: int)
    requires 0 <= a && 0 <= b < 64 && 0 <= c < 64 && 0 <= d < 64
    requires n == a * 262144 + b * 4096 + c * 64 + d
    ensures n / 262144 == a && n / 4096 % 64 == b && n / 64 % 64 == c && n % 64 == d
  {
    Divide(n, 64, a * 4096 + b * 64 + c, d);
    Divide(n, 4096, a * 64 + b, c * 64 + d);
    Divide(n, 262144, a, b * 4096 + c * 64 + d);
    Divide(a * 4096 + b * 64 + c, 64, a * 64 + b, c);
    Divide(a * 64 + b, 64, a, b);
  }

  /** The six bits at each place of three bytes. */
  lemma QuadDigits(x: Byte, y: Byte, z: Byte)
    ensures Bits(x, y, z) == First(x) * 262144 + Second(x, y) * 4096 + Third(y, z) * 64 + Fourth(z)
  {
    assert x == x / 4 * 4 + x % 4 && y == y / 16 * 16 + y % 16 && z == z / 64 * 64 + z % 64;
  }

  /** The same characters, byte by byte. */
  lemma QuadBytes(x: Byte, y: Byte, z: Byte)
    ensures Quad(x, y, z) == [Char(First(x)), Char(Second(x, y)), Char(Third(y, z)), Char(Fourth(z))]
  {
    QuadDigits(x, y, z);
    Digits(First(x), Second(x, y), Third(y, z), Fourth(z), Bits(x, y, z));
    EncodesAlphabet(First(x));
    EncodesAlphabet(Second(x, y));
    EncodesAlphabet(Third(y, z));
    EncodesAlphabet(Fourth(z));
    hide Char, Bits, First, Second, Third, Fourth;
  }

  lemma StreamSnoc(a: seq<Byte>, c: Byte)
    ensures Stream(a + [c]) == Stream(a) + Emit(|a|, if |a| > 0 then a[|a| - 1] else 0, c)
  {
    hide Emit;
    assert (a + [c])[..|a|] == a;
  }

  lemma StreamOne(a: seq<Byte>, x: Byte)
    requires Phase(|a|) == 0
    ensures Stream(a + [x]) == Stream(a) + [Char(First(x))]
  {
    hide Phase, Stream, Char, First, Second, Third, Fourth;
    StreamSnoc(a, x);
  }

  lemma Phases(n: nat)
    requires Phase(n) == 0
    ensures Phase(n + 1) == 1 && Phase(n + 2) == 2
  {
  }

  lemma StreamTwo(a: seq<Byte>, x: Byte, y: Byte)
    requires Phase(|a|) == 0
    ensures Stream(a + [x, y]) == Stream(a) + [Char(First(x)), Char(Second(x, y))]
  {
    hide Phase, Stream, Char, First, Second, Third, Fourth;
    Phases(|a|);
    var b := a + [x];
    assert |b| == |a| + 1 && b[|b| - 1] == x;
    assert Emit(|b|, x, y) == [Char(Second(x, y))];
    hide Emit;
    StreamOne(a, x);
    StreamSnoc(b, y);
    assert b + [y] == a + [x, y];
  }

  /** Three more bytes give the characters of their group. */
  lemma StreamGroup(a: seq<Byte>, x: Byte, y: Byte, z: Byte)
    requires Phase(|a|) == 0
    ensures Stream(a + [x, y, z]) == Stream(a) + Quad(x, y, z)
  {
    hide Phase, Stream, Quad, Char, First, Second, Third, Fourth;
    Phases(|a|);
    var b := a + [x, y];
    assert |b| == |a| + 2 && b[|b| - 1] == y;
    assert Emit(|b|, y, z) == [Char(Third(y, z)), Char(Fourth(z))];
    hide Emit;
    StreamTwo(a, x, y);
    StreamSnoc(b, z);
    assert b + [z] == a + [x, y, z];
    QuadBytes(x, y, z);
  }

  lemma {:induction false} StreamWhole(b: seq<Byte>)
    requires Phase(|b|) == 0
    ensures Stream(b) == Encoding(b)
  {
    if b != [] {
      hide Quad, Char, Stream, First, Second, Third, Fourth;
      var n := |b| - 3;
      var a, tail := b[..n], b[n..];
      assert tail == [b[n], b[n + 1], b[n + 2]] && b == a + tail;
      StreamWhole(a);
      StreamGroup(a, b[n], b[n + 1], b[n + 2]);
      assert Encoding(tail) == Quad(b[n], b[n + 1], b[n + 2]) by { assert tail[3..] == []; }
      hide Encoding;
      EncodingAppend(a, tail);
    }
  }

  /** The streamed characters and the finish are the encoding of the whole. */
  lemma StreamIsEncoding(b: seq<Byte>)
    ensures Stream(b) + Finish(b) == Encoding(b)
  {
    hide Quad, Char, Stream, First, Second, Third, Fourth;
    var r := Phase(|b|);
    var n := |b| - r;
    var a, tail := b[..n], b[n..];
    assert b == a + tail;
    StreamWhole(a);
    TailIsEncoding(a, tail);
    hide Encoding;
    EncodingAppend(a, tail);
  }

  lemma TailIsEncoding(a: seq<Byte>, tail: seq<Byte>)
    requires Phase(|a|) == 0 && |tail| < 3
    ensures Stream(a + tail) + Finish(a + tail) == Stream(a) + Encoding(tail)
  {
    if |tail| == 1 {
      assert tail == [tail[0]];
      TailOne(a, tail[0]);
    } else if |tail| == 2 {
      assert tail == [tail[0], tail[1]];
      TailTwo(a, tail[0], tail[1]);
    } else {
      assert a + tail == a;
    }
  }

  lemma Associate(a: seq<Byte>, b: seq<Byte>, c: seq<Byte>)
    ensures a + b + c == a + (b + c)
  {
  }

  lemma FinishAt(b: seq<Byte>)
    requires b != []
    ensures Phase(|b|) == 1 ==> Finish(b) == [Char(Second(b[|b| - 1], 0)), PAD, PAD]
    ensures Phase(|b|) == 2 ==> Finish(b) == [Char(Third(b[|b| - 1], 0)), PAD]
  {
  }

  lemma EncodingOne(x: Byte)
    ensures Encoding([x]) == [Char(First(x)), Char(Second(x, 0)), PAD, PAD]
  {
    QuadBytes(x, 0, 0);
    hide Quad, Char, First, Second, Third, Fourth;
  }

  lemma EncodingTwo(x: Byte, y: Byte)
    ensures Encoding([x, y]) == [Char(First(x)), Char(Second(x, y)), Char(Third(y, 0)), PAD]
  {
    QuadBytes(x, y, 0);
    hide Quad, Char, First, Second, Third, Fourth;
  }

  lemma FinishOne(a: seq<Byte>, x: Byte)
    requires Phase(|a|) == 0
    ensures Finish(a + [x]) == [Char(Second(x, 0)), PAD, PAD]
  {
    hide Phase, Finish, Char, Second, Third;
    Phases(|a|);
    FinishAt(a + [x]);
  }

  lemma TailOne(a: seq<Byte>, x: Byte)
    requires Phase(|a|) == 0
    ensures Stream(a + [x]) + Finish(a + [x]) == Stream(a) + Encoding([x])
  {
    hide Phase, Encoding, Char, Stream, First, Second, Third, Fourth, Finish;
    FinishOne(a, x);
    StreamOne(a, x);
    EncodingOne(x);
    Regroup(Stream(a), Char(First(x)), Char(Second(x, 0)), PAD, PAD);
  }

  lemma Regroup(s: seq<Byte>, a: Byte, b: Byte, c: Byte, d: Byte)
    ensures s + [a] + [b, c, d] == s + [a, b, c, d]
    ensures s + [a, b] + [c, d] == s + [a, b, c, d]
  {
    assert [a] + [b, c, d] == [a, b, c, d] == [a, b] + [c, d];
    Associate(s, [a], [b, c, d]);
    Associate(s, [a, b], [c, d]);
  }

  lemma TailTwo(a: seq<Byte>, x: Byte, y: Byte)
    requires Phase(|a|) == 0
    ensures Stream(a + [x, y]) + Finish(a + [x, y]) == Stream(a) + Encoding([x, y])
  {
    hide Phase, Encoding, Char, Stream, First, Second, Third, Fourth, Finish;
    FinishTwo(a, x, y);
    StreamTwo(a, x, y);
    EncodingTwo(x, y);
    Regroup(Stream(a), Char(First(x)), Char(Second(x, y)), Char(Third(y, 0)), PAD);
  }

  lemma FinishTwo(a: seq<Byte>, x: Byte, y: Byte)
    requires Phase(|a|) == 0
    ensures Finish(a + [x, y]) == [Char(Third(y, 0)), PAD]
  {
    hide Phase, Finish, Char, Second, Third;
    Phases(|a|);
    FinishAt(a + [x, y]);
  }

  /** How many characters `n` bytes have given. */
  function Chars(n: nat): nat {
    n + n / 3
  }

  lemma CharsStep(n: nat)
    ensures Chars(0) == 0 && Chars(n + 1) == Chars(n) + if Phase(n) == 2 then 2 else 1
    ensures Phase(n) < 3
  {
    var q, r := n / 3, n % 3;
    assert n == 3 * q + r;
    if r == 2 { Divide(n + 1, 3, q + 1, 0); } else { Divide(n + 1, 3, q, r + 1); }
  }

  lemma CharsBound(k: nat, n: nat)
    requires k <= n
    ensures Chars(k) <= Groups(n) * 4
  {
    var q, r := (n + 2) / 3, (n + 2) % 3;
    assert n + 2 == 3 * q + r && k == 3 * (k / 3) + k % 3;
  }

  lemma {:induction false} StreamLength(b: seq<Byte>)
    ensures |Stream(b)| == Chars(|b|)
  {
    if b != [] {
      hide Char, Chars, First, Second, Third, Fourth, Phase;
      CharsStep(|b| - 1);
      StreamLength(b[..|b| - 1]);
    } else {
      CharsStep(0);
    }
  }

  /** There is room in the buffer for what byte `k` adds. */
  lemma StreamFits(data: seq<Byte>, k: nat)
    requires k < |data|
    ensures var last := if k > 0 then data[k - 1] else 0;
            && Stream(data[..k + 1]) == Stream(data[..k]) + Emit(k, last, data[k])
            && |Stream(data[..k])| + |Emit(k, last, data[k])| <= |Encoding(data)|
  {
    hide Chars, Groups, Encoding, Emit, Phase;
    var b := data[..k + 1];
    assert b[..k] == data[..k] && b[k] == data[k];
    StreamLength(b);
    EncodingLength(data);
    CharsBound(k + 1, |data|);
  }

  /** What is written once the regions up to byte `k` are done. */
  function Output(data: seq<Byte>, k: nat): seq<Byte>
    requires k <= |data|
  {
    Stream(data[..k]) + if k == |data| then Finish(data) else []
  }

  lemma OutputEnds(data: seq<Byte>)
    ensures Output(data, 0) == [] && Output(data, |data|) == Encoding(data)
  {
    assert data[..|data|] == data;
    StreamIsEncoding(data);
  }

  /** The size computed for the buffer is the size of the encoding. */
  lemma SizeExact(total: nat)
    ensures var size := (total + 2) * 4 / 3; size - size % 4 == Groups(total) * 4
  {
    var q, r := (total + 2) / 3, (total + 2) % 3;
    assert total + 2 == 3 * q + r;
    Divide((total + 2) * 4, 3, 4 * q + r, r);
    Divide(4 * q + r, 4, q, r);
  }

  /** `*ptr++ = c` */
  method Push(dest: array<Byte>, ptr: nat, c: Byte) returns (p: nat)
    requires ptr < dest.Length
    modifies dest
    ensures p == ptr + 1 && dest[..p] == old(dest[..ptr]) + [c]
  {
    dest[ptr] := c;
    p := ptr + 1;
  }

  /** One region of the data, and the padding after the last one. */
  method EncodeRegion(data: seq<Byte>, region: Region, dest: array<Byte>, start: nat) returns (ptr: nat)
    requires Within(data, region.offset, region.bytes) && dest.Length == |Encoding(data)|
    requires start <= dest.Length && dest[..start] == Stream(data[..region.offset])
    modifies dest
    ensures ptr <= dest.Length && dest[..ptr] == Output(data, region.offset + |region.bytes|)
  {
    hide Encoding, Stream;
    var offset, bytes := region.offset, region.bytes;
    ptr := start;
    var i := 0;
    while i < |bytes|
      invariant 0 <= i <= |bytes| && ptr <= dest.Length && dest[..ptr] == Stream(data[..offset + i])
    {
      var count := offset + i;
      assert data[offset..offset + |bytes|][i] == data[count];
      StreamFits(data, count);
      ptr := EncodeByte(data, bytes, offset, i, dest, ptr);
      i := i + 1;
    }
    if offset + |bytes| == |data| {
      assert data[..|data|] == data;
      assert data[offset..offset + |bytes|][|bytes| - 1] == data[|data| - 1];
      StreamIsEncoding(data);
      ptr := Pad(data, bytes[|bytes| - 1], dest, ptr);
    }
  }

  /** One byte of a region, looking back into the region before when it is the first. */
  method EncodeByte(data: seq<Byte>, bytes: seq<Byte>, offset: nat, i: nat, dest: array<Byte>, start: nat)
    returns (ptr: nat)
    requires Within(data, offset, bytes) && i < |bytes| && start <= dest.Length
    requires start + |Emit(offset + i, if offset + i > 0 then data[offset + i - 1] else 0, data[offset + i])|
             <= dest.Length
    modifies dest
    ensures ptr <= dest.Length
    ensures dest[..ptr] == old(dest[..start]) +
                           Emit(offset + i, if offset + i > 0 then data[offset + i - 1] else 0, data[offset + i])
  {
    var curr: Byte, last: Byte := bytes[i], 0;
    var count := offset + i;
    assert curr == data[count];
    if Phase(count) != 0 {
      if i == 0 {
        last := data[offset - 1];
      } else {
        last := bytes[i - 1];
        assert last == data[count - 1];
      }
    }
    if Phase(count) == 0 {
      ptr := Push(dest, start, Char(First(curr)));
    } else if Phase(count) == 1 {
      ptr := Push(dest, start, Char(Second(last, curr)));
    } else {
      ptr := Push(dest, start, Char(Third(last, curr)));
      ptr := Push(dest, ptr, Char(Fourth(curr)));
    }
  }

  method Pad(data: seq<Byte>, last: Byte, dest: array<Byte>, start: nat) returns (ptr: nat)
    requires data != [] && last == data[|data| - 1] && start + |Finish(data)| <= dest.Length
    modifies dest
    ensures ptr <= dest.Length && dest[..ptr] == old(dest[..start]) + Finish(data)
  {
    ptr := start;
    if Phase(|data|) == 1 {
      ptr := Push(dest, ptr, Char(Second(last, 0)));
      ptr := Push(dest, ptr, PAD);
      ptr := Push(dest, ptr, PAD);
    } else if Phase(|data|) == 2 {
      ptr := Push(dest, ptr, Char(Third(last, 0)));
      ptr := Push(dest, ptr, PAD);
    }
  }

  /** The encoder: any way the data is cut into regions gives the same, and fills the buffer exactly. */
  method ToBase64(data: seq<Byte>, regions: seq<Region>) returns (dest: array<Byte>)
    requires Tiles(regions, data) && (|data| + 2) * 4 <= SIZE_MAX
    ensures fresh(dest) && dest[..] == Encoding(data)
  {
    hide Tiles, Start, Stream, Encoding, Finish, Output;
    hide Groups;
    EncodingLength(data);
    SizeExact(|data|);
    OutputEnds(data);
    var size := (|data| + 2) * 4 / 3;
    size := size - size % 4;
    dest := new Byte[size](i => 0);
    var ptr: nat, r := 0, 0;
    TileAt(regions, data, 0);
    while r < |regions|
      invariant 0 <= r <= |regions| && Start(regions, r) <= |data| && ptr <= dest.Length
      invariant dest[..ptr] == Output(data, Start(regions, r))
    {
      TileAt(regions, data, r);
      OutputInside(data, regions[r].offset);
      ptr := EncodeRegion(data, regions[r], dest, ptr);
      r := r + 1;
    }
    assert dest[..size] == dest[..];
  }

  lemma OutputInside(data: seq<Byte>, k: nat)
    requires k < |data|
    ensures Output(data, k) == Stream(data[..k])
  {
  }

  // ---------------------------------------------------------------------------------------------
  // The decoder
  // ---------------------------------------------------------------------------------------------

  /** The accumulator, the characters counted, the padding seen and the bytes written. */
  datatype Decoder = Decoder(x: nat, count: nat, pad: nat, bytes: seq<Byte>)
  const START := Decoder(0, 0, 0, [])

  predicate Blank(c: Byte) {
    c == 10 || c == 9 || c == 32
  }

  /** One character of value `v` is counted; every fourth one writes three bytes. */
  function Step(d: Decoder, v: Six, pads: nat): Decoder {
    var x, count := Acc(d.x, v), d.count + 1;
    Decoder(x, count, d.pad + pads, if count % 4 == 0 then d.bytes + Three(x) else d.bytes)
  }

  /** Six bits shifted into a 64-bit word. */
  function Acc(x: nat, v: Six): nat {
    (x * 64 + v) % WORD
  }

  /** The three low bytes of a word. */
  function Three(x: nat): seq<Byte> {
    [x / 65536 % 256, x / 256 % 256, x % 256]
  }

  function Feed(d: Decoder, c: Byte): Option<Decoder> {
    if Blank(c) then Some(d)
    else if Value(c) == -1 then None
    else if Value(c) == -2 then Some(Step(d, 0, 1))
    else Some(Step(d, Value(c), 0))
  }

  function FeedAll(d: Decoder, s: seq<Byte>): Option<Decoder>
    decreases |s|
  {
    if s == [] then Some(d)
    else match Feed(d, s[0])
         case None => None
         case Some(d') => FeedAll(d', s[1..])
  }

  lemma {:induction false} FeedAppend(d: Decoder, a: seq<Byte>, b: seq<Byte>)
    ensures FeedAll(d, a + b) == match FeedAll(d, a) case None => None case Some(d') => FeedAll(d', b)
    decreases |a|
  {
    hide Feed;
    if a == [] {
      assert a + b == b;
    } else {
      assert (a + b)[0] == a[0] && (a + b)[1..] == a[1..] + b;
      match Feed(d, a[0])
      case None =>
      case Some(d') => FeedAppend(d', a[1..], b);
    }
  }

  lemma FeedOne(d: Decoder, c: Byte)
    ensures FeedAll(d, [c]) == Feed(d, c)
  {
    hide Feed;
    assert [c][1..] == [];
    if Feed(d, c).Some? { assert FeedAll(Feed(d, c).value, []) == Some(Feed(d, c).value); }
  }

  /** Six more bits join the low end of the accumulator, whatever is above and falls off. */
  lemma Shift(x: nat, m: nat, c: nat, g: nat, v: Six)
    requires m > 0 && c > 0 && m * 64 * c == WORD && x % m == g
    ensures Acc(x, v) % (m * 64) == g * 64 + v
  {
    var q, y := x / m, x * 64 + v;
    var k := y / WORD;
    assert x == m * q + g && y == WORD * k + y % WORD;
    assert WORD * k == m * 64 * (c * k);
    assert y % WORD == (m * 64) * (q - c * k) + (g * 64 + v);
    Divide(y % WORD, m * 64, q - c * k, g * 64 + v);
  }

  lemma FourSteps(d: Decoder, v0: Six, v1: Six, v2: Six, v3: Six, p2: nat, p3: nat)
    requires d.count % 4 == 0
    ensures var d' := Step(Step(Step(Step(d, v0, 0), v1, 0), v2, p2), v3, p3);
            && d'.count == d.count + 4 && d'.pad == d.pad + p2 + p3
            && d'.bytes == d.bytes + Three(v0 * 262144 + v1 * 4096 + v2 * 64 + v3)
  {
    hide Acc, Three;
    Quarter(d.count);
    Accumulated(d.x, v0, v1, v2, v3);
    LowBytes(Acc(Acc(Acc(Acc(d.x, v0), v1), v2), v3), v0 * 262144 + v1 * 4096 + v2 * 64 + v3);
  }

  lemma Quarter(n: nat)
    requires n % 4 == 0
    ensures (n + 1) % 4 != 0 && (n + 2) % 4 != 0 && (n + 3) % 4 != 0 && (n + 4) % 4 == 0
  {
  }

  lemma Accumulated(x: nat, v0: Six, v1: Six, v2: Six, v3: Six)
    ensures Acc(Acc(Acc(Acc(x, v0), v1), v2), v3) % 16777216 == v0 * 262144 + v1 * 4096 + v2 * 64 + v3
  {
    Shift(x, 1, WORD / 64, 0, v0);
    hide Acc;
    Shift(Acc(x, v0), 64, WORD / 4096, v0, v1);
    Shift(Acc(Acc(x, v0), v1), 4096, WORD / 262144, v0 * 64 + v1, v2);
    Shift(Acc(Acc(Acc(x, v0), v1), v2), 262144, WORD / 16777216, v0 * 4096 + v1 * 64 + v2, v3);
  }

  /** The three low bytes of a word depend on its low 24 bits only. */
  lemma LowBytes(x: nat, n: nat)
    requires x % 16777216 == n
    ensures Three(x) == Three(n)
  {
    var q, a, s := x / 16777216, n / 65536, n % 65536;
    var b, c := s / 256, s % 256;
    assert x == 16777216 * q + n && n == 65536 * a + s && s == 256 * b + c;
    Divide(n, 256, 256 * a + b, c);
    Divide(256 * a + b, 256, a, b);
    Divide(x, 65536, 256 * q + a, 256 * b + c);
    Divide(x, 256, 65536 * q + 256 * a + b, c);
    Divide(256 * q + a, 256, q, a);
    Divide(65536 * q + 256 * a + b, 256, 256 * q + a, b);
    Divide(a, 256, 0, a);
  }

  /** Three bytes come back out of their 24 bits. */
  lemma BitsApart(x: Byte, y: Byte, z: Byte)
    ensures Three(Bits(x, y, z)) == [x, y, z]
  {
    var n := Bits(x, y, z);
    Divide(n, 256, 256 * x + y, z);
    Divide(n, 65536, x, 256 * y + z);
    Divide(256 * x + y, 256, x, y);
    Divide(x, 256, 0, x);
  }

  lemma CharValue(v: Six)
    ensures Value(Char(v)) == v && !Blank(Char(v)) && Char(v) != PAD
  {
  }

  lemma FeedChar(d: Decoder, v: Six)
    ensures Feed(d, Char(v)) == Some(Step(d, v, 0))
  {
    CharValue(v);
  }

  lemma FeedFour(d: Decoder, a: Byte, b: Byte, c: Byte, e: Byte, d0: Decoder, d1: Decoder, d2: Decoder, d3: Decoder)
    requires Feed(d, a) == Some(d0) && Feed(d0, b) == Some(d1) && Feed(d1, c) == Some(d2) && Feed(d2, e) == Some(d3)
    ensures FeedAll(d, [a, b, c, e]) == Some(d3)
  {
    hide Feed, FeedAll;
    FeedOne(d, a);
    FeedOne(d0, b);
    FeedOne(d1, c);
    FeedOne(d2, e);
    FeedAppend(d, [a], [b]);
    FeedAppend(d, [a, b], [c]);
    FeedAppend(d, [a, b, c], [e]);
    assert [a] + [b] == [a, b] && [a, b] + [c] == [a, b, c] && [a, b, c] + [e] == [a, b, c, e];
  }

  /** A group of three bytes is decoded to them. */
  lemma FeedQuad(d: Decoder, x: Byte, y: Byte, z: Byte)
    requires d.count % 4 == 0
    ensures var r := FeedAll(d, Quad(x, y, z));
            r.Some? && r.value.count == d.count + 4 && r.value.pad == d.pad && r.value.bytes == d.bytes + [x, y, z]
  {
    hide FeedAll, Feed, Char, First, Second, Third, Fourth, Quad, Three;
    QuadBytes(x, y, z);
    var v0, v1, v2, v3 := First(x), Second(x, y), Third(y, z), Fourth(z);
    FourSteps(d, v0, v1, v2, v3, 0, 0);
    hide Step;
    var d0 := Step(d, v0, 0);
    var d1 := Step(d0, v1, 0);
    var d2 := Step(d1, v2, 0);
    FeedChar(d, v0);
    FeedChar(d0, v1);
    FeedChar(d1, v2);
    FeedChar(d2, v3);
    FeedFour(d, Char(v0), Char(v1), Char(v2), Char(v3), d0, d1, d2, Step(d2, v3, 0));
    QuadDigits(x, y, z);
    BitsApart(x, y, z);
  }

  lemma FeedPad(d: Decoder)
    ensures Feed(d, PAD) == Some(Step(d, 0, 1))
  {
  }

  /** A last group of one byte: the two bytes of padding are written and taken off again. */
  lemma FeedLastOne(d: Decoder, x: Byte)
    requires d.count % 4 == 0
    ensures var r := FeedAll(d, Encoding([x]));
            r.Some? && r.value.pad == d.pad + 2 && r.value.bytes == d.bytes + [x, 0, 0]
  {
    hide FeedAll, Feed, Char, Quad, Three;
    EncodingOne(x);
    hide Encoding;
    QuadDigits(x, 0, 0);
    var v0, v1 := First(x), Second(x, 0);
    assert Third(0, 0) == 0 && Fourth(0) == 0;
    hide First, Second, Third, Fourth;
    FourSteps(d, v0, v1, 0, 0, 1, 1);
    hide Step;
    var d0 := Step(d, v0, 0);
    var d1 := Step(d0, v1, 0);
    var d2 := Step(d1, 0, 1);
    FeedChar(d, v0);
    FeedChar(d0, v1);
    FeedPad(d1);
    FeedPad(d2);
    FeedFour(d, Char(v0), Char(v1), PAD, PAD, d0, d1, d2, Step(d2, 0, 1));
    BitsApart(x, 0, 0);
  }

  lemma FeedLastTwo(d: Decoder, x: Byte, y: Byte)
    requires d.count % 4 == 0
    ensures var r := FeedAll(d, Encoding([x, y]));
            r.Some? && r.value.pad == d.pad + 1 && r.value.bytes == d.bytes + [x, y, 0]
  {
    hide FeedAll, Feed, Char, Quad, Three;
    EncodingTwo(x, y);
    hide Encoding;
    QuadDigits(x, y, 0);
    var v0, v1, v2 := First(x), Second(x, y), Third(y, 0);
    assert Fourth(0) == 0;
    hide First, Second, Third, Fourth;
    FourSteps(d, v0, v1, v2, 0, 0, 1);
    hide Step;
    var d0 := Step(d, v0, 0);
    var d1 := Step(d0, v1, 0);
    var d2 := Step(d1, v2, 0);
    FeedChar(d, v0);
    FeedChar(d0, v1);
    FeedChar(d1, v2);
    FeedPad(d2);
    FeedFour(d, Char(v0), Char(v1), Char(v2), PAD, d0, d1, d2, Step(d2, 0, 1));
    BitsApart(x, y, 0);
  }

  /** The bytes that remain when the padding is taken off. */
  function Kept(d: Decoder): seq<Byte>
    requires d.pad <= |d.bytes|
  {
    d.bytes[..|d.bytes| - d.pad]
  }

  lemma {:induction false} DecodesFrom(d: Decoder, b: seq<Byte>)
    requires d.count % 4 == 0 && d.pad == 0
    ensures var r := FeedAll(d, Encoding(b));
            r.Some? && r.value.pad <= |r.value.bytes| && Kept(r.value) == d.bytes + b
    decreases |b|
  {
    hide FeedAll, Quad;
    if |b| == 0 {
      FeedNone(d);
    } else if |b| == 1 {
      assert b == [b[0]];
      FeedLastOne(d, b[0]);
    } else if |b| == 2 {
      assert b == [b[0], b[1]];
      FeedLastTwo(d, b[0], b[1]);
    } else {
      FeedQuad(d, b[0], b[1], b[2]);
      var d' := FeedAll(d, Quad(b[0], b[1], b[2])).value;
      DecodesFrom(d', b[3..]);
      FeedAppend(d, Quad(b[0], b[1], b[2]), Encoding(b[3..]));
      assert d.bytes + [b[0], b[1], b[2]] + b[3..] == d.bytes + b;
    }
  }

  lemma FeedNone(d: Decoder)
    ensures FeedAll(d, []) == Some(d)
  {
  }

  /** Decoding the encoding of any bytes gives them back. */
  lemma RoundTrip(b: seq<Byte>)
    ensures var r := FeedAll(START, Encoding(b));
            r.Some? && r.value.pad <= |r.value.bytes| && Kept(r.value) == b
  {
    hide FeedAll, Encoding;
    DecodesFrom(START, b);
    assert [] + b == b;
  }

  /** How many bytes are written once `count` characters are counted. */
  lemma {:induction false} FeedWrites(d: Decoder, s: seq<Byte>)
    requires |d.bytes| == d.count / 4 * 3
    ensures var r := FeedAll(d, s);
            r.Some? ==> |r.value.bytes| == r.value.count / 4 * 3 && d.count <= r.value.count <= d.count + |s|
    decreases |s|
  {
    if s != [] {
      match Feed(d, s[0])
      case None =>
      case Some(d') =>
        StepWrites(d, s[0]);
        hide Feed;
        FeedWrites(d', s[1..]);
    }
  }

  lemma StepWrites(d: Decoder, c: Byte)
    requires |d.bytes| == d.count / 4 * 3 && Feed(d, c).Some?
    ensures var d' := Feed(d, c).value;
            |d'.bytes| == d'.count / 4 * 3 && d.count <= d'.count <= d.count + 1 && |d.bytes| <= |d'.bytes|
  {
    var n := d.count;
    if (n + 1) % 4 == 0 {
      assert (n + 1) / 4 == n / 4 + 1;
    } else {
      assert (n + 1) / 4 == n / 4;
    }
  }

  /** The characters that are not blank. */
  function Counted(s: seq<Byte>): nat {
    if s == [] then 0 else (if Blank(s[0]) then 0 else 1) + Counted(s[1..])
  }

  /** The padding characters. */
  function Pads(s: seq<Byte>): nat {
    if s == [] then 0 else (if s[0] == PAD then 1 else 0) + Pads(s[1..])
  }

  /** Every character is blank, padding or in the alphabet. */
  predicate Accepted(s: seq<Byte>) {
    forall i :: 0 <= i < |s| ==> Blank(s[i]) || Known(s[i])
  }

  predicate Known(c: Byte) {
    c == PAD || exists v: Six :: c == Letter(v)
  }

  lemma KnownValue(c: Byte)
    ensures Known(c) <==> Value(c) != -1
  {
    DecodesAlphabet(c);
    if 0 <= Value(c) < 64 { assert c == Letter(Value(c)); }
  }

  lemma FeedStep(d: Decoder, c: Byte)
    ensures Feed(d, c).Some? <==> Blank(c) || Known(c)
    ensures Feed(d, c).Some? ==>
              && Feed(d, c).value.count == d.count + (if Blank(c) then 0 else 1)
              && Feed(d, c).value.pad == d.pad + (if c == PAD then 1 else 0)
  {
    KnownValue(c);
  }

  /** Decoding fails exactly on a foreign character, and counts what it says it counts. */
  lemma {:induction false} FeedCounts(d: Decoder, s: seq<Byte>)
    ensures FeedAll(d, s).Some? <==> Accepted(s)
    ensures FeedAll(d, s).Some? ==>
              FeedAll(d, s).value.count == d.count + Counted(s) && FeedAll(d, s).value.pad == d.pad + Pads(s)
    decreases |s|
  {
    if s != [] {
      FeedStep(d, s[0]);
      hide Feed, Blank, Known;
      assert Accepted(s) <==> (Blank(s[0]) || Known(s[0])) && Accepted(s[1..]) by {
        assert forall i :: 0 < i < |s| ==> s[i] == s[1..][i - 1];
        assert forall i :: 0 <= i < |s[1..]| ==> s[1..][i] == s[i + 1];
      }
      match Feed(d, s[0])
      case None =>
      case Some(d') => FeedCounts(d', s[1..]);
    }
  }

  lemma {:induction false} CountsBound(s: seq<Byte>)
    ensures Pads(s) <= Counted(s) <= |s|
  {
    if s != [] { CountsBound(s[1..]); }
  }

  /** The length reported for accepted input. */
  function Reported(s: seq<Byte>): int
    requires FeedAll(START, s).Some?
  {
    (|FeedAll(START, s).value.bytes| - FeedAll(START, s).value.pad) % WORD
  }

  /**
    The length is that of the bytes kept if and only if there is no more padding than bytes written, three
    for every four characters counted; otherwise it wraps around to more than was written.
  */
  lemma LengthExactly(s: seq<Byte>)
    requires Accepted(s) && |s| * 3 <= SIZE_MAX
    ensures FeedAll(START, s).Some?
    ensures var d := FeedAll(START, s).value;
            && |d.bytes| == Counted(s) / 4 * 3 && d.pad == Pads(s)
            && (Reported(s) == |d.bytes| - d.pad <==> Pads(s) <= Counted(s) / 4 * 3)
            && (Reported(s) <= |d.bytes| <==> Pads(s) <= Counted(s) / 4 * 3)
  {
    hide Accepted, FeedAll, Counted, Pads, Reported;
    FeedCounts(START, s);
    FeedWrites(START, s);
    CountsBound(s);
    ReportedIs(s);
    Wrapped(Counted(s) / 4 * 3, Pads(s));
  }

  lemma ReportedIs(s: seq<Byte>)
    requires FeedAll(START, s).Some?
    ensures var d := FeedAll(START, s).value; Reported(s) == (|d.bytes| - d.pad) % WORD
  {
    hide FeedAll;
  }

  /** A difference of two words is right unless it is negative, and then it is larger than the first. */
  lemma Wrapped(n: nat, p: nat)
    requires n + p <= SIZE_MAX
    ensures p <= n ==> (n - p) % WORD == n - p
    ensures p > n ==> (n - p) % WORD == WORD + n - p > n
  {
    if p <= n {
      Divide(n - p, WORD, 0, n - p);
    } else {
      Divide(n - p, WORD, -1, WORD + n - p);
    }
  }

  // ---------------------------------------------------------------------------------------------
  // Any text
  // ---------------------------------------------------------------------------------------------

  /** The place of a character in the alphabet; padding and anything else counts as zero. */
  ghost function Digit(c: Byte): Six {
    if v: Six :| c == Letter(v) then v else 0
  }

  /** The six-bit values of a text, blanks left out. */
  ghost function Sextets(s: seq<Byte>): seq<Six> {
    if s == [] then [] else (if Blank(s[0]) then [] else [Digit(s[0])]) + Sextets(s[1..])
  }

  function Number(vs: seq<Six>): nat {
    if vs == [] then 0 else Number(vs[..|vs| - 1]) * 64 + vs[|vs| - 1]
  }

  function Four(a: int, b: int, c: int, d: int): int {
    a * 262144 + b * 4096 + c * 64 + d
  }

  /** Three bytes for every four values; what is left over is dropped. */
  function Octets(vs: seq<Six>): seq<Byte> {
    if |vs| < 4 then []
    else
      var n := Four(vs[0], vs[1], vs[2], vs[3]);
      [n / 65536, n / 256 % 256, n % 256] + Octets(vs[4..])
  }

  lemma FeedDigit(d: Decoder, c: Byte)
    requires !Blank(c) && Feed(d, c).Some?
    ensures Feed(d, c) == Some(Step(d, Digit(c), if c == PAD then 1 else 0))
  {
    DecodesAlphabet(c);
    if 0 <= Value(c) < 64 { assert c == Letter(Value(c)); }
    hide Step;
  }

  /** The digits of a group that is not complete are in the low bits of the accumulator. */
  predicate Gathering(d: Decoder, vs: seq<Six>) {
    |vs| < 4 && d.count % 4 == |vs| && (|vs| > 0 ==> d.x % Weight(|vs|) == Number(vs))
  }

  function Weight(n: nat): nat {
    if n == 1 then 64 else if n == 2 then 4096 else if n == 3 then 262144 else 1
  }

  lemma NumberSnoc(vs: seq<Six>, v: Six)
    ensures Number(vs + [v]) == Number(vs) * 64 + v
  {
    assert (vs + [v])[..|vs|] == vs;
  }

  lemma NumberFour(vs: seq<Six>)
    requires |vs| == 4
    ensures Number(vs) == Four(vs[0], vs[1], vs[2], vs[3])
  {
    var a, b, c := vs[..3], vs[..2], vs[..1];
    assert vs == a + [vs[3]] && a == b + [vs[2]] && b == c + [vs[1]] && c == [] + [vs[0]];
    NumberSnoc(a, vs[3]);
    NumberSnoc(b, vs[2]);
    NumberSnoc(c, vs[1]);
    NumberSnoc([], vs[0]);
  }

  lemma GatherMore(d: Decoder, vs: seq<Six>, v: Six, p: nat)
    requires Gathering(d, vs) && |vs| < 3
    ensures Gathering(Step(d, v, p), vs + [v]) && Step(d, v, p).bytes == d.bytes
  {
    NumberSnoc(vs, v);
    if |vs| == 0 {
      Shift(d.x, 1, WORD / 64, 0, v);
    } else if |vs| == 1 {
      Shift(d.x, 64, WORD / 4096, Number(vs), v);
    } else {
      Shift(d.x, 4096, WORD / 262144, Number(vs), v);
    }
    hide Acc, Number;
  }

  lemma GatherLast(d: Decoder, vs: seq<Six>, v: Six, p: nat)
    requires Gathering(d, vs) && |vs| == 3
    ensures Gathering(Step(d, v, p), []) && Step(d, v, p).bytes == d.bytes + Octets(vs + [v])
  {
    var n := Number(vs + [v]);
    hide Number, Acc, Three, Octets;
    NumberSnoc(vs, v);
    Shift(d.x, 262144, WORD / 16777216, Number(vs), v);
    LowBytes(Acc(d.x, v), n);
    OctetsFour(vs + [v]);
  }

  lemma OctetsFour(vs: seq<Six>)
    requires |vs| == 4
    ensures Octets(vs) == Three(Number(vs))
  {
    NumberFour(vs);
    var n := Number(vs);
    hide Number;
    Divide(n / 65536, 256, 0, n / 65536);
    assert vs[4..] == [];
  }

  lemma OctetsGroup(vs: seq<Six>, more: seq<Six>)
    requires |vs| == 4
    ensures Octets(vs + more) == Octets(vs) + Octets(more)
  {
    assert (vs + more)[4..] == more && vs[4..] == [];
  }

  lemma FeedHead(d: Decoder, s: seq<Byte>)
    requires s != [] && FeedAll(d, s).Some?
    ensures Feed(d, s[0]).Some? && FeedAll(d, s) == FeedAll(Feed(d, s[0]).value, s[1..])
    ensures Blank(s[0]) ==> Feed(d, s[0]).value == d
    ensures Sextets(s) == (if Blank(s[0]) then [] else [Digit(s[0])]) + Sextets(s[1..])
  {
    hide Digit;
  }

  lemma {:induction false} DecodesRest(d: Decoder, s: seq<Byte>, vs: seq<Six>)
    requires Gathering(d, vs) && FeedAll(d, s).Some?
    ensures FeedAll(d, s).value.bytes == d.bytes + Octets(vs + Sextets(s))
    decreases |s|, 1
  {
    if s == [] {
      assert vs + [] == vs;
    } else {
      FeedHead(d, s);
      if Blank(s[0]) {
        hide Gathering, Octets, FeedAll, Sextets, Feed;
        assert Sextets(s) == Sextets(s[1..]);
        DecodesRest(d, s[1..], vs);
      } else {
        hide Octets, FeedAll, Sextets, Feed, Digit;
        DecodesMore(d, s, vs, Digit(s[0]), if s[0] == PAD then 1 else 0);
      }
    }
  }

  lemma DecodesMore(d: Decoder, s: seq<Byte>, vs: seq<Six>, v: Six, p: nat)
    requires Gathering(d, vs) && FeedAll(d, s).Some? && s != [] && !Blank(s[0])
    requires v == Digit(s[0]) && p == if s[0] == PAD then 1 else 0
    ensures FeedAll(d, s).value.bytes == d.bytes + Octets(vs + Sextets(s))
    decreases |s|, 0
  {
    hide Octets, FeedAll, Sextets, Feed, Digit, Step;
    FeedHead(d, s);
    FeedDigit(d, s[0]);
    var d', rest := Step(d, v, p), Sextets(s[1..]);
    assert vs + Sextets(s) == vs + [v] + rest;
    if |vs| < 3 {
      GatherMore(d, vs, v, p);
      hide Gathering;
      DecodesRest(d', s[1..], vs + [v]);
    } else {
      GatherLast(d, vs, v, p);
      hide Gathering;
      DecodesRest(d', s[1..], []);
      OctetsGroup(vs + [v], rest);
      assert [] + rest == rest;
      assert d.bytes + Octets(vs + [v]) + Octets(rest) == d.bytes + (Octets(vs + [v]) + Octets(rest));
    }
  }

  /** Whatever the text, if it is accepted, its values are decoded four by four, with blanks anywhere in between. */
  lemma DecodesText(s: seq<Byte>)
    requires Accepted(s)
    ensures FeedAll(START, s).Some? && FeedAll(START, s).value.bytes == Octets(Sextets(s))
  {
    FeedCounts(START, s);
    hide Octets, Sextets, FeedAll;
    DecodesRest(START, s, []);
    assert [] + Sextets(s) == Sextets(s) && [] + Octets(Sextets(s)) == Octets(Sextets(s));
  }

  lemma PadsCons(s: seq<Byte>)
    ensures Counted([PAD] + s) == Counted(s) + 1 && Pads([PAD] + s) == Pads(s) + 1
  {
    assert ([PAD] + s)[1..] == s;
  }

  /** Four padding characters: three bytes are written and four taken off. */
  lemma PaddingOnly()
    ensures Accepted([PAD, PAD, PAD, PAD]) && FeedAll(START, [PAD, PAD, PAD, PAD]).Some?
    ensures |FeedAll(START, [PAD, PAD, PAD, PAD]).value.bytes| == 3 && Reported([PAD, PAD, PAD, PAD]) == SIZE_MAX
  {
    var s := [PAD, PAD, PAD, PAD];
    hide FeedAll;
    PadsCons([]);
    PadsCons([PAD]);
    PadsCons([PAD, PAD]);
    PadsCons([PAD, PAD, PAD]);
    assert [PAD] + [] == [PAD] && [PAD] + [PAD] == [PAD, PAD] && [PAD] + [PAD, PAD] == [PAD, PAD, PAD];
    assert [PAD] + [PAD, PAD, PAD] == s;
    LengthExactly(s);
    Wrapped(3, 4);
  }

  /**
    The decoder on data of one region. It fails exactly on a character that is neither blank nor in the
    table; otherwise `dest` holds the bytes of the accumulator, and `final` is the number of those that
    remain without the padding if and only if there are that many.
  */
  method FromBase64(bytes: seq<Byte>) returns (ok: bool, dest: array<Byte>, final: int)
    requires |bytes| * 3 <= SIZE_MAX
    ensures ok <==> Accepted(bytes)
    ensures ok ==> FeedAll(START, bytes).Some?
    ensures ok ==> var d := FeedAll(START, bytes).value;
                   && |d.bytes| <= dest.Length && dest[..|d.bytes|] == d.bytes == Octets(Sextets(bytes))
                   && final == Reported(bytes)
                   && (final == |d.bytes| - Pads(bytes) <==> Pads(bytes) <= Counted(bytes) / 4 * 3)
  {
    hide FeedAll, Accepted, Counted, Pads, Octets, Sextets;
    FeedCounts(START, bytes);
    var written, pad;
    ok, dest, written, pad := Decode(bytes);
    final := 0;
    if ok {
      LengthExactly(bytes);
      DecodesText(bytes);
      final := (written - pad) % WORD;
    }
  }

  /** The loop over the characters. */
  method Decode(bytes: seq<Byte>) returns (ok: bool, dest: array<Byte>, written: nat, pad: nat)
    requires |bytes| * 3 <= SIZE_MAX
    ensures ok <==> FeedAll(START, bytes).Some?
    ensures ok ==> var d := FeedAll(START, bytes).value;
                   written == |d.bytes| <= dest.Length && dest[..written] == d.bytes && pad == d.pad
  {
    hide FeedAll;
    dest := new Byte[|bytes| * 3 / 4](i => 0);
    var x: nat, count: nat, ptr: nat := 0, 0, 0;
    pad, written := 0, 0;
    ghost var d := START;
    FeedNone(START);
    var i := 0;
    while i < |bytes|
      invariant 0 <= i <= |bytes| && FeedAll(START, bytes[..i]) == Some(d)
      invariant ptr <= dest.Length && d == Decoder(x, count, pad, dest[..ptr])
      invariant ptr == count / 4 * 3 && count <= i
    {
      var c := bytes[i];
      assert bytes[..i + 1] == bytes[..i] + [c] && bytes == bytes[..i + 1] + bytes[i + 1..];
      FeedAppend(START, bytes[..i], [c]);
      FeedAppend(START, bytes[..i + 1], bytes[i + 1..]);
      FeedOne(d, c);
      i := i + 1;
      if c == 10 || c == 9 || c == 32 {
        continue;
      }
      if Value(c) == -1 {
        ok := false;
        return;
      }
      StepWrites(d, c);
      d := Feed(d, c).value;
      count := count + 1;
      var value := Value(c);
      if value == -2 {
        value, pad := 0, pad + 1;
      }
      x := Acc(x, value);
      if count % 4 == 0 {
        Room(count, |bytes|);
        ptr := PushThree(dest, ptr, x);
      }
    }
    assert bytes[..|bytes|] == bytes;
    ok, written := true, ptr;
  }

  /** Encoding data, however it is cut into regions, and decoding the result returns the data. */
  method EncodeDecode(data: seq<Byte>, regions: seq<Region>) returns (ok: bool, out: seq<Byte>)
    requires Tiles(regions, data) && (|data| + 2) * 4 <= SIZE_MAX
    ensures ok && out == data
  {
    hide Tiles, Encoding, FeedAll, Accepted, Counted, Pads, Reported;
    var text := ToBase64(data, regions);
    var encoded := text[..];
    EncodedFits(data);
    RoundTrip(data);
    FeedCounts(START, encoded);
    LengthExactly(encoded);
    var dest, final;
    ok, dest, final := FromBase64(encoded);
    out := dest[..final];
    ghost var d := FeedAll(START, encoded).value;
    assert out == dest[..|d.bytes|][..final] == Kept(d);
  }

  lemma EncodedFits(data: seq<Byte>)
    requires (|data| + 2) * 4 <= SIZE_MAX
    ensures |Encoding(data)| * 3 <= SIZE_MAX
  {
    EncodingLength(data);
    hide Encoding;
    assert |data| + 2 == (|data| + 2) / 3 * 3 + (|data| + 2) % 3;
  }

  method PushThree(dest: array<Byte>, start: nat, x: nat) returns (ptr: nat)
    requires start + 3 <= dest.Length
    modifies dest
    ensures ptr == start + 3 && dest[..ptr] == old(dest[..start]) + Three(x)
  {
    ptr := Push(dest, start, x / 65536 % 256);
    ptr := Push(dest, ptr, x / 256 % 256);
    ptr := Push(dest, ptr, x % 256);
  }

  lemma Room(count: nat, size: nat)
    requires count <= size && count % 4 == 0
    ensures count / 4 * 3 <= size * 3 / 4
  {
  }
}
