/**
 * The primitive values of the wire format: variable-length integers, bytes, flags, strings.
 * Encoders take the bytes that follow (`tail`), so that each reader's partner law reads
 * `Read(Put(value, tail)) == Got(value, tail)`: the value comes back and exactly its bytes are used.
 */
module Wire {
  import opened Types

  /** A value read and the bytes left, or a protocol error. */
  datatype Parsed<+T> = Failed | Got(value: T, rest: Bytes)
  {
    predicate IsFailure() { Failed? }
    function PropagateFailure<U>(): Parsed<U> { Failed }
    function Extract(): (T, Bytes)
      requires Got?
    {
      (value, rest)
    }
  }

  /** `d` ends in `rest`. */
  predicate IsSuffix(rest: Bytes, d: Bytes) { |rest| <= |d| && d[|d| - |rest|..] == rest }

  lemma SuffixTransitive(a: Bytes, b: Bytes, c: Bytes)
    requires IsSuffix(a, b) && IsSuffix(b, c)
    ensures IsSuffix(a, c)
  {
    assert c[|c| - |a|..] == c[|c| - |b|..][|b| - |a|..];
  }

  // ---------- Little-endian numbers ----------

  ghost function Pow256(n: nat): nat { if n == 0 then 1 else 256 * Pow256(n - 1) }

  /** `v >> (8 * n)`. */
  function Shifted(v: nat, n: nat): nat { if n == 0 then v else Shifted(v / 256, n - 1) }

  function Little(v: nat, n: nat): (s: Bytes)
    ensures |s| == n
  {
    if n == 0 then [] else [v % 256] + Little(v / 256, n - 1)
  }

  function FromLittle(s: Bytes): nat {
    if s == [] then 0 else s[0] + 256 * FromLittle(s[1..])
  }

  lemma {:induction false} LittleRoundTrip(v: nat, n: nat)
    requires v < Pow256(n)
    ensures FromLittle(Little(v, n)) == v
  {
    if n > 0 {
      LittleRoundTrip(v / 256, n - 1);
      assert Little(v, n)[1..] == Little(v / 256, n - 1);
    }
  }

  lemma {:induction false} FromLittleRoundTrip(s: Bytes)
    ensures FromLittle(s) < Pow256(|s|) && Little(FromLittle(s), |s|) == s
  {
    if s != [] {
      FromLittleRoundTrip(s[1..]);
      assert FromLittle(s) % 256 == s[0] && FromLittle(s) / 256 == FromLittle(s[1..]);
      assert s == [s[0]] + s[1..];
    }
  }

  lemma {:induction false} LittleAt(v: nat, n: nat, i: nat)
    requires i < n
    ensures Little(v, n)[i] == Shifted(v, i) % 256
  {
    if i > 0 {
      LittleAt(v / 256, n - 1, i - 1);
    }
  }

  /** One more byte on top. */
  lemma {:induction false} FromLittleMore(s: Bytes, b: byte)
    ensures FromLittle(s + [b]) == FromLittle(s) + b * Pow256(|s|)
  {
    if s == [] {
      assert s + [b] == [b] && [b][1..] == [];
    } else {
      assert (s + [b])[1..] == s[1..] + [b];
      FromLittleMore(s[1..], b);
      assert 256 * (b * Pow256(|s| - 1)) == b * Pow256(|s|);
    }
  }

  lemma LittleHeader(n: nat)
    ensures Little(n, 4) == [n % 256, n / 0x100 % 256, n / 0x1_0000 % 256, n / 0x100_0000 % 256]
  {
    var a, b, c := n / 256, n / 256 / 256, n / 256 / 256 / 256;
    assert Little(c, 1) == [c % 256] + Little(c / 256, 0);
    assert Little(b, 2) == [b % 256] + Little(c, 1);
    assert Little(a, 3) == [a % 256] + Little(b, 2);
    assert Little(n, 4) == [n % 256] + Little(a, 3);
  }

  lemma Powers()
    ensures Pow256(2) == 0x1_0000 && Pow256(4) == 0x1_0000_0000 && Pow256(8) == 0x1_0000_0000_0000_0000
  {
    assert Pow256(1) == 256;
    assert Pow256(3) == 0x100_0000;
    assert Pow256(5) == 0x100_0000_0000;
    assert Pow256(6) == 0x1_0000_0000_0000;
    assert Pow256(7) == 0x100_0000_0000_0000;
  }

  // ---------- Variable-length integers ----------

  function VarintBytes(v: u64): (s: Bytes)
    ensures |s| == if v < 251 then 1 else if v < 0x1_0000 then 3 else if v < 0x1_0000_0000 then 5 else 9
  {
    if v < 251 then [v]
    else if v < 0x1_0000 then [251] + Little(v, 2)
    else if v < 0x1_0000_0000 then [252] + Little(v, 4)
    else [253] + Little(v, 8)
  }

  function PutVarint(v: u64, tail: Bytes): Bytes { VarintBytes(v) + tail }

  /** The width a prefix byte announces; None for a byte that is no prefix. */
  function Width(b: byte): Option<nat> {
    if b == 251 then Some(2) else if b == 252 then Some(4) else if b == 253 then Some(8) else None
  }

  function ReadVarint(d: Bytes): (r: Parsed<u64>)
    ensures r.Got? ==> |r.rest| < |d| && IsSuffix(r.rest, d)
  {
    if d == [] then Failed
    else if d[0] < 251 then Got(d[0], d[1..])
    else match Width(d[0])
      case None => Failed
      case Some(n) =>
        if |d| < 1 + n then Failed
        else
          assert FromLittle(d[1..1 + n]) < 0x1_0000_0000_0000_0000 by { FitsU64(d[1..1 + n]); }
          Got(FromLittle(d[1..1 + n]), d[1 + n..])
  }

  lemma FitsU64(s: Bytes)
    requires |s| in {2, 4, 8}
    ensures FromLittle(s) < 0x1_0000_0000_0000_0000
  {
    FromLittleRoundTrip(s);
    Powers();
  }

  lemma VarintRoundTrip(v: u64, tail: Bytes)
    ensures ReadVarint(PutVarint(v, tail)) == Got(v, tail)
  {
    Powers();
    hide Pow256, FromLittle, Little;
    var d := PutVarint(v, tail);
    if v >= 251 {
      var n := if v < 0x1_0000 then 2 else if v < 0x1_0000_0000 then 4 else 8;
      LittleRoundTrip(v, n);
      assert d == [d[0]] + Little(v, n) + tail;
      assert d[1..1 + n] == Little(v, n) && d[1 + n..] == tail;
    } else {
      assert d == [v] + tail;
    }
  }

  /** No encoding is the beginning of another. */
  lemma VarintPrefixFree(a: u64, s: Bytes, b: u64, t: Bytes)
    requires VarintBytes(a) + s == VarintBytes(b) + t
    ensures a == b && s == t
  {
    VarintRoundTrip(a, s);
    VarintRoundTrip(b, t);
  }

  /** Whatever bytes read as `v`, the writer's are the shortest and the only ones of that length. */
  lemma VarintShortest(d: Bytes)
    requires ReadVarint(d).Got?
    ensures var v, used := ReadVarint(d).value, d[..|d| - |ReadVarint(d).rest|];
            && |VarintBytes(v)| <= |used|
            && (|VarintBytes(v)| == |used| <==> VarintBytes(v) == used)
  {
    var v, rest := ReadVarint(d).value, ReadVarint(d).rest;
    var used := d[..|d| - |rest|];
    if d[0] >= 251 {
      var n := Width(d[0]).value;
      FromLittleRoundTrip(d[1..1 + n]);
      Powers();
      assert used == [d[0]] + d[1..1 + n];
    }
  }

  // ---------- Bytes, flags, strings ----------

  function ReadU8(d: Bytes): (r: Parsed<byte>)
    ensures r.Got? ==> |r.rest| < |d| && IsSuffix(r.rest, d)
  {
    if d == [] then Failed else Got(d[0], d[1..])
  }

  function PutBool(b: bool, tail: Bytes): Bytes { [if b then 1 else 0] + tail }

  function ReadBool(d: Bytes): Parsed<bool> {
    var (b, rest) :- ReadU8(d);
    Got(b != 0, rest)
  }

  /** `(uint)ReadVarint()`: wider numbers lose their upper half. */
  function ReadU32(d: Bytes): Parsed<u32> {
    var (v, rest) :- ReadVarint(d);
    Got(v % 0x1_0000_0000, rest)
  }

  /** A length and that many bytes; no byte string in memory is longer than a u64 can count. */
  function PutString(s: Bytes, tail: Bytes): Bytes { PutVarint(|s| % 0x1_0000_0000_0000_0000, s + tail) }

  /** A length up to `most` and that many bytes. */
  function ReadBlock(d: Bytes, most: nat): (r: Parsed<Bytes>)
    ensures r.Got? ==> |r.rest| < |d| && IsSuffix(r.rest, d)
  {
    match ReadVarint(d)
    case Failed => Failed
    case Got(n, rest) =>
      if n > most || |rest| < n then Failed
      else
        assert IsSuffix(rest[n..], d) by { SuffixTransitive(rest[n..], rest, d); }
        Got(rest[..n], rest[n..])
  }

  const MAX_STRING: nat := 0x7FFF_FFFF

  function ReadString(d: Bytes): (r: Parsed<Bytes>)
    ensures r.Got? ==> |r.rest| < |d| && IsSuffix(r.rest, d)
  {
    ReadBlock(d, MAX_STRING)
  }

  function ReadBytes(d: Bytes): Parsed<Bytes> { ReadBlock(d, MAX_FRAME_LEN) }

  lemma BlockRoundTrip(s: Bytes, tail: Bytes, most: nat)
    requires |s| <= most && |s| < 0x1_0000_0000_0000_0000
    ensures ReadBlock(PutString(s, tail), most) == Got(s, tail)
  {
    hide ReadVarint, VarintBytes;
    VarintRoundTrip(|s|, s + tail);
    assert (s + tail)[..|s|] == s && (s + tail)[|s|..] == tail;
  }

  function PutOptString(s: Option<Bytes>, tail: Bytes): Bytes {
    match s
    case None => [0] + tail
    case Some(t) => [1] + PutString(t, tail)
  }

  /** Any tag but 0 means a string follows. */
  function ReadOptString(d: Bytes): Parsed<Option<Bytes>> {
    var (tag, rest) :- ReadU8(d);
    if tag == 0 then Got(None, rest)
    else
      var (s, rest') :- ReadString(rest);
      Got(Some(s), rest')
  }

  lemma U8RoundTrip(b: byte, tail: Bytes)
    ensures ReadU8([b] + tail) == Got(b, tail)
  {
  }

  lemma BoolRoundTrip(b: bool, tail: Bytes)
    ensures ReadBool(PutBool(b, tail)) == Got(b, tail)
  {
    U8RoundTrip(if b then 1 else 0, tail);
  }

  lemma U32RoundTrip(v: u32, tail: Bytes)
    ensures ReadU32(PutVarint(v, tail)) == Got(v, tail)
  {
    VarintRoundTrip(v, tail);
  }

  lemma StringRoundTrip(s: Bytes, tail: Bytes)
    requires |s| <= MAX_STRING
    ensures ReadString(PutString(s, tail)) == Got(s, tail)
  {
    BlockRoundTrip(s, tail, MAX_STRING);
  }

  lemma OptStringRoundTrip(s: Option<Bytes>, tail: Bytes)
    requires s.Some? ==> |s.value| <= MAX_STRING
    ensures ReadOptString(PutOptString(s, tail)) == Got(s, tail)
  {
    match s
    case None => U8RoundTrip(0, tail);
    case Some(t) =>
      U8RoundTrip(1, PutString(t, tail));
      StringRoundTrip(t, tail);
  }
}
