/** Room codes: how the server draws them, and what it makes of those clients type. */
module RoomCodes {
  import opened Types
  import Histories

  const ROOM_CODE_LEN: nat := 6
  /** No I, O, 0 or 1 among them. */
  const ROOM_CODE_LETTERS := "ABCDEFGH" + "JKLMN" + "PQRSTUVWXYZ" + "23456789"
  const ROOM_CODE_CHARS := Text(ROOM_CODE_LETTERS)
  const ROOM_CODE_GEN_RETRIES: nat := 20

  /** A code as the server draws it. */
  predicate IsGenerated(code: Bytes) {
    |code| == ROOM_CODE_LEN && forall i :: 0 <= i < |code| ==> code[i] in ROOM_CODE_CHARS
  }

  /** The code counted out after too many collisions. */
  function FallbackCode(n: u64): Bytes { Text("R" + Decimal(n)) }

  /** A code of the server's own making. */
  ghost predicate IsMade(code: Bytes) { IsGenerated(code) || exists n: u64 :: code == FallbackCode(n) }

  predicate IsAlnum(b: byte) { 0x30 <= b <= 0x39 || 0x41 <= b <= 0x5A || 0x61 <= b <= 0x7A }

  predicate IsSpace(b: byte) { 0x09 <= b <= 0x0D || b == 0x20 }

  predicate AllAlnum(s: Bytes) { forall i :: 0 <= i < |s| ==> IsAlnum(s[i]) }

  function TrimStart(s: Bytes): Bytes {
    if s != [] && IsSpace(s[0]) then TrimStart(s[1..]) else s
  }

  function TrimEnd(s: Bytes): Bytes {
    if s != [] && IsSpace(s[|s| - 1]) then TrimEnd(s[..|s| - 1]) else s
  }

  /** The ASCII letters and digits, in order. */
  function Alnum(s: Bytes): (r: Bytes)
    ensures AllAlnum(r)
  {
    if s == [] then [] else (if IsAlnum(s[0]) then [s[0]] else []) + Alnum(s[1..])
  }

  /** What deserialising a room code keeps of it. */
  function Normalise(s: Bytes): Bytes { Alnum(TrimEnd(TrimStart(s))) }

  lemma {:induction false} AlnumConcat(a: Bytes, b: Bytes)
    ensures Alnum(a + b) == Alnum(a) + Alnum(b)
  {
    if a == [] {
      assert a + b == b;
    } else {
      assert (a + b)[1..] == a[1..] + b;
      AlnumConcat(a[1..], b);
    }
  }

  lemma {:induction false} AlnumOfAlnum(s: Bytes)
    requires AllAlnum(s)
    ensures Alnum(s) == s
  {
    if s != [] {
      AlnumOfAlnum(s[1..]);
      assert s == [s[0]] + s[1..];
    }
  }

  lemma {:induction false} AlnumTrimStart(s: Bytes)
    ensures Alnum(TrimStart(s)) == Alnum(s)
  {
    if s != [] && IsSpace(s[0]) {
      AlnumTrimStart(s[1..]);
      assert [] + Alnum(s[1..]) == Alnum(s[1..]);
    }
  }

  lemma {:induction false} AlnumTrimEnd(s: Bytes)
    ensures Alnum(TrimEnd(s)) == Alnum(s)
  {
    if s != [] && IsSpace(s[|s| - 1]) {
      var front, last := s[..|s| - 1], s[|s| - 1];
      AlnumTrimEnd(front);
      AlnumConcat(front, [last]);
      assert s == front + [last];
      assert Alnum([last]) == [];
    }
  }

  /** A letter or digit of the ASCII alphabet. */
  predicate IsLetterOrDigit(b: byte) {
    'A' as int <= b <= 'Z' as int || 'a' as int <= b <= 'z' as int || '0' as int <= b <= '9' as int
  }

  lemma {:induction false} AlnumInOrder(s: Bytes)
    ensures Histories.Subsequence(Alnum(s), s)
  {
    if s != [] {
      AlnumInOrder(s[1..]);
      assert Alnum(s)[if IsAlnum(s[0]) then 1 else 0..] == Alnum(s[1..]);
    }
  }

  lemma {:induction false} AlnumCounts(s: Bytes, b: byte)
    ensures multiset(Alnum(s))[b] == if IsLetterOrDigit(b) then multiset(s)[b] else 0
  {
    if s != [] {
      AlnumCounts(s[1..], b);
      assert s == [s[0]] + s[1..];
    }
  }

  /** Normalising keeps every letter and digit, in order and as often as it stood there, and nothing else. */
  lemma NormaliseKeeps(s: Bytes, b: byte)
    ensures Histories.Subsequence(Normalise(s), s)
    ensures multiset(Normalise(s))[b] == if IsLetterOrDigit(b) then multiset(s)[b] else 0
  {
    NormaliseFilters(s);
    AlnumInOrder(s);
    AlnumCounts(s, b);
  }

  /** Trimming changes nothing the filter would not. */
  lemma NormaliseFilters(s: Bytes)
    ensures Normalise(s) == Alnum(s)
  {
    AlnumTrimEnd(TrimStart(s));
    AlnumTrimStart(s);
  }

  /** Normalising twice is normalising once, and codes of letters and digits stay as they are. */
  lemma NormaliseIdempotent(s: Bytes)
    ensures Normalise(Normalise(s)) == Normalise(s)
    ensures Normalise(s) == s <==> AllAlnum(s)
  {
    NormaliseFilters(s);
    NormaliseFilters(Normalise(s));
    AlnumOfAlnum(Normalise(s));
    if AllAlnum(s) {
      AlnumOfAlnum(s);
    }
  }

  lemma {:induction false} DecimalDigits(n: nat)
    ensures Decimal(n) != [] && forall i :: 0 <= i < |Decimal(n)| ==> '0' <= Decimal(n)[i] <= '9'
  {
    if n >= 10 {
      DecimalDigits(n / 10);
    }
  }

  /** The number a string of digits stands for. */
  function ValueOf(s: string): int {
    if s == [] then 0 else 10 * ValueOf(s[..|s| - 1]) + (s[|s| - 1] as int - '0' as int)
  }

  lemma ValueSnoc(s: string, d: nat)
    requires d < 10
    ensures ValueOf(s + ['0' + d as char]) == 10 * ValueOf(s) + d
  {
    var t := s + ['0' + d as char];
    assert t[..|t| - 1] == s && t[|t| - 1] == '0' + d as char;
  }

  /** Counted codes and error texts name the number they count. */
  lemma {:induction false} DecimalReadsBack(n: nat)
    ensures ValueOf(Decimal(n)) == n
  {
    hide ValueOf;
    var digit := ['0' + (n % 10) as char];
    if n >= 10 {
      DecimalReadsBack(n / 10);
      ValueSnoc(Decimal(n / 10), n % 10);
    } else {
      ValueSnoc([], n);
      assert [] + digit == digit;
      assert ValueOf([]) == 0 by { NoDigits(); }
    }
  }

  lemma NoDigits()
    ensures ValueOf([]) == 0
  {
  }

  /** Every code the server makes up survives the trip back unchanged. */
  lemma GeneratedCodesNormal(code: Bytes)
    requires IsMade(code)
    ensures Normalise(code) == code && code != []
  {
    var n: u64 := if IsGenerated(code) then 0 else var n: u64 :| code == FallbackCode(n); n;
    DecimalDigits(n);
    assert FallbackCode(n)[0] == 'R' as int;
    assert forall i :: 1 <= i < |FallbackCode(n)| ==> FallbackCode(n)[i] == Decimal(n)[i - 1] as int;
    CharsDistinguishable();
    assert AllAlnum(code);
    NormaliseIdempotent(code);
  }

  ghost function Pow10(k: nat): nat { if k == 0 then 1 else 10 * Pow10(k - 1) }

  lemma {:induction false} DecimalSize(n: nat, k: nat)
    requires n < Pow10(k) && k >= 1
    ensures |Decimal(n)| <= k
    decreases k
  {
    if n >= 10 {
      DecimalSize(n / 10, k - 1);
    }
  }

  lemma TwentyDigits(n: u64)
    ensures |Decimal(n)| <= 20
  {
    assert Pow10(5) == 100_000;
    assert Pow10(10) == 10_000_000_000;
    assert Pow10(15) == 1_000_000_000_000_000;
    assert Pow10(20) == 100_000_000_000_000_000_000;
    DecimalSize(n, 20);
  }

  /** Codes of the server's own making keep within the length it allows clients. */
  lemma GeneratedCodesShort(code: Bytes)
    requires IsMade(code)
    ensures |code| <= LONGEST_CODE
  {
    if !IsGenerated(code) {
      var n: u64 :| code == FallbackCode(n);
      TwentyDigits(n);
    }
  }

  const LONGEST_CODE: nat := 21

  lemma {:induction false} DecimalSizeAtLeast(n: nat, k: nat)
    requires Pow10(k) <= n
    ensures |Decimal(n)| > k
    decreases k
  {
    if k > 0 {
      DecimalSizeAtLeast(n / 10, k - 1);
    } else {
      DecimalDigits(n);
    }
  }

  /** The bound is met by the last codes the counter gives out. */
  lemma LongestCode()
    ensures IsMade(FallbackCode(0xFFFF_FFFF_FFFF_FFFF)) && |FallbackCode(0xFFFF_FFFF_FFFF_FFFF)| == LONGEST_CODE
  {
    TwentyDigits(0xFFFF_FFFF_FFFF_FFFF);
    assert Pow10(5) == 100_000;
    assert Pow10(10) == 10_000_000_000;
    assert Pow10(15) == 1_000_000_000_000_000;
    assert Pow10(19) == 10_000_000_000_000_000_000;
    DecimalSizeAtLeast(0xFFFF_FFFF_FFFF_FFFF, 19);
  }

  predicate Between(s: string, lo: char, hi: char) { forall i :: 0 <= i < |s| ==> lo <= s[i] <= hi }

  lemma Pieces()
    ensures Between("ABCDEFGH", 'A', 'H') && Between("JKLMN", 'J', 'N') && Between("PQRSTUVWXYZ", 'P', 'Z') && Between("23456789", '2', '9')
  {
  }

  lemma Clear(i: nat)
    requires i < |ROOM_CODE_LETTERS|
    ensures var c := ROOM_CODE_LETTERS[i]; 'A' <= c <= 'H' || 'J' <= c <= 'N' || 'P' <= c <= 'Z' || '2' <= c <= '9'
  {
    Pieces();
    var a, b, c, d := "ABCDEFGH", "JKLMN", "PQRSTUVWXYZ", "23456789";
    assert |a| == 8 && |b| == 5 && |c| == 11 && |d| == 8;
    assert ROOM_CODE_LETTERS == a + b + c + d;
    var s := ROOM_CODE_LETTERS;
    assert i < 8 ==> s[i] == a[i];
    assert 8 <= i < 13 ==> s[i] == b[i - 8];
    assert 13 <= i < 24 ==> s[i] == c[i - 13];
    assert 24 <= i ==> s[i] == d[i - 24];
  }

  /** The alphabet has 32 capitals and digits, none of them easily taken for another. */
  lemma CharsDistinguishable()
    ensures |ROOM_CODE_CHARS| == 32
    ensures forall b :: b in ROOM_CODE_CHARS ==>
              ('A' as int <= b <= 'Z' as int || '0' as int <= b <= '9' as int) && b !in {'I' as int, 'O' as int, '0' as int, '1' as int}
  {
    forall i | 0 <= i < |ROOM_CODE_CHARS|
      ensures var b := ROOM_CODE_CHARS[i];
              ('A' as int <= b <= 'Z' as int || '0' as int <= b <= '9' as int) && b !in {'I' as int, 'O' as int, '0' as int, '1' as int}
    {
      Clear(i);
    }
  }
}
