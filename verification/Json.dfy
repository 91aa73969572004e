/** Skipping a game-specific value: its documented grammar, and the recursive skipper. */
module Json {
  import opened Types
  import opened Wire

  // ---------- The grammar ----------

  /** Value trees of the grammar: numbers are 8 bytes, every key has a value, lengths can be written. */
  predicate IsTree(v: JsonValue) {
    match v
    case Number(bits) => |bits| == 8
    case String(text) => |text| <= MAX_STRING
    case Array(items) => |items| < 0x1_0000_0000_0000_0000 && forall i :: 0 <= i < |items| ==> IsTree(items[i])
    case Object(keys, values) =>
      && |keys| == |values| < 0x1_0000_0000_0000_0000
      && (forall i :: 0 <= i < |keys| ==> |keys[i]| <= MAX_STRING)
      && forall i :: 0 <= i < |values| ==> IsTree(values[i])
    case _ => true
  }

  function PutJson(v: JsonValue, tail: Bytes): Bytes
    decreases v, 1
  {
    match v
    case Null => PutVarint(0, tail)
    case Bool(b) => PutVarint(1, PutBool(b, tail))
    case Number(bits) => PutVarint(2, bits + tail)
    case String(text) => PutVarint(3, PutString(text, tail))
    case Array(items) => PutVarint(4, PutVarint(|items| % 0x1_0000_0000_0000_0000, PutItems(v, 0, tail)))
    case Object(keys, values) => PutVarint(5, PutVarint(|keys| % 0x1_0000_0000_0000_0000, PutMembers(v, 0, tail)))
  }

  /** The elements of an array from the `i`-th on. */
  function PutItems(v: JsonValue, i: nat, tail: Bytes): Bytes
    requires v.Array?
    decreases v, 0, |v.items| - i
  {
    if i >= |v.items| then tail else PutJson(v.items[i], PutItems(v, i + 1, tail))
  }

  /** The key-value pairs of an object from the `i`-th on. */
  function PutMembers(v: JsonValue, i: nat, tail: Bytes): Bytes
    requires v.Object?
    decreases v, 0, |v.values| - i
  {
    if i >= |v.keys| || i >= |v.values| then tail
    else PutString(v.keys[i], PutJson(v.values[i], PutMembers(v, i + 1, tail)))
  }

  // ---------- The skipper ----------

  /**
   * What is left after one value. On any bytes whatever it either fails or ends strictly further
   * on, at a suffix of the input; the measure is the bytes left, so element counts do not matter.
   */
  function Skip(d: Bytes): (r: Parsed<()>)
    ensures r.Got? ==> |r.rest| < |d| && IsSuffix(r.rest, d)
    decreases |d|, 1, 0
  {
    match ReadVarint(d)
    case Failed => Failed
    case Got(tag, rest) => Onward(SkipBody(tag, rest), rest, d)
  }

  /** What follows the variant tag. */
  function SkipBody(tag: u64, d: Bytes): (r: Parsed<()>)
    ensures r.Got? ==> IsSuffix(r.rest, d)
    decreases |d|, 0, 0
  {
    match tag
    case 0 => Got((), d)
    case 1 => (match ReadU8(d) case Failed => Failed case Got(_, rest) => Got((), rest))
    case 2 => if |d| < 8 then Failed else Got((), d[8..])
    case 3 => (match ReadString(d) case Failed => Failed case Got(_, rest) => Got((), rest))
    case 4 => (match ReadVarint(d) case Failed => Failed case Got(n, rest) => Onward(SkipItems(n, rest), rest, d))
    case 5 => (match ReadVarint(d) case Failed => Failed case Got(n, rest) => Onward(SkipMembers(n, rest), rest, d))
    case _ => Failed
  }

  /** Up to `n` values, fewer if the input ends first. */
  function SkipItems(n: u64, d: Bytes): (r: Parsed<()>)
    ensures r.Got? ==> IsSuffix(r.rest, d)
    decreases |d|, 2, n
  {
    if n == 0 || d == [] then Got((), d)
    else match Skip(d)
      case Failed => Failed
      case Got(_, rest) => Onward(SkipItems(n - 1, rest), rest, d)
  }

  /** Up to `n` keys with their values, fewer if the input ends first. */
  function SkipMembers(n: u64, d: Bytes): (r: Parsed<()>)
    ensures r.Got? ==> IsSuffix(r.rest, d)
    decreases |d|, 2, n
  {
    if n == 0 || d == [] then Got((), d)
    else match ReadString(d)
      case Failed => Failed
      case Got(_, rest) =>
        match Skip(rest)
        case Failed => Failed
        case Got(_, rest') => Onward(Onward(SkipMembers(n - 1, rest'), rest', rest), rest, d)
  }

  /** A result reached from a suffix of `d` is one reached from `d`. */
  function Onward(r: Parsed<()>, rest: Bytes, d: Bytes): (r': Parsed<()>)
    requires IsSuffix(rest, d) && (r.Got? ==> IsSuffix(r.rest, rest))
    ensures r' == r && (r.Got? ==> IsSuffix(r.rest, d))
  {
    assert r.Got? ==> IsSuffix(r.rest, d) by {
      if r.Got? {
        SuffixTransitive(r.rest, rest, d);
      }
    }
    r
  }

  // ---------- The skipper stops exactly where the value does ----------

  lemma PutJsonNonEmpty(v: JsonValue, tail: Bytes)
    ensures PutJson(v, tail) != []
  {
  }

  lemma SkipsTag(tag: u64, d: Bytes)
    ensures Skip(PutVarint(tag, d)) == SkipBody(tag, d)
  {
    VarintRoundTrip(tag, d);
  }

  lemma {:induction false} SkipExact(v: JsonValue, tail: Bytes)
    requires IsTree(v)
    ensures Skip(PutJson(v, tail)) == Got((), tail)
    decreases v, 1
  {
    hide ReadVarint, VarintBytes, PutVarint, ReadBlock, Skip, SkipItems, SkipMembers, PutItems, PutMembers;
    match v
    case Null => SkipsTag(0, tail);
    case Bool(b) =>
      SkipsTag(1, PutBool(b, tail));
      U8RoundTrip(if b then 1 else 0, tail);
    case Number(bits) =>
      SkipsTag(2, bits + tail);
      assert (bits + tail)[8..] == tail;
    case String(text) =>
      SkipsTag(3, PutString(text, tail));
      StringRoundTrip(text, tail);
    case Array(items) =>
      SkipsTag(4, PutVarint(|items|, PutItems(v, 0, tail)));
      VarintRoundTrip(|items|, PutItems(v, 0, tail));
      SkipItemsExact(v, 0, tail);
    case Object(keys, values) =>
      SkipsTag(5, PutVarint(|keys|, PutMembers(v, 0, tail)));
      VarintRoundTrip(|keys|, PutMembers(v, 0, tail));
      SkipMembersExact(v, 0, tail);
  }

  lemma SkipItemsStep(n: u64, d: Bytes)
    requires n > 0 && d != [] && Skip(d).Got?
    ensures SkipItems(n, d) == SkipItems(n - 1, Skip(d).rest)
  {
    hide Skip;
  }

  lemma SkipMembersStep(n: u64, d: Bytes)
    requires n > 0 && d != [] && ReadString(d).Got? && Skip(ReadString(d).rest).Got?
    ensures SkipMembers(n, d) == SkipMembers(n - 1, Skip(ReadString(d).rest).rest)
  {
    hide Skip, ReadString;
  }

  lemma TreeParts(v: JsonValue, i: nat)
    requires IsTree(v)
    ensures v.Array? && i < |v.items| ==> IsTree(v.items[i])
    ensures v.Object? && i < |v.keys| ==> i < |v.values| && |v.keys[i]| <= MAX_STRING && IsTree(v.values[i])
  {
  }

  lemma {:induction false} SkipItemsExact(v: JsonValue, i: nat, tail: Bytes)
    requires v.Array? && IsTree(v) && i <= |v.items| < 0x1_0000_0000_0000_0000
    ensures SkipItems(|v.items| - i, PutItems(v, i, tail)) == Got((), tail)
    decreases v, 0, |v.items| - i
  {
    hide IsTree, Skip, PutJson;
    if i < |v.items| {
      hide SkipItems;
      var rest := PutItems(v, i + 1, tail);
      TreeParts(v, i);
      SkipExact(v.items[i], rest);
      PutJsonNonEmpty(v.items[i], rest);
      SkipItemsStep(|v.items| - i, PutJson(v.items[i], rest));
      SkipItemsExact(v, i + 1, tail);
    }
  }

  lemma {:induction false} SkipMembersExact(v: JsonValue, i: nat, tail: Bytes)
    requires v.Object? && IsTree(v) && i <= |v.keys| == |v.values| < 0x1_0000_0000_0000_0000
    ensures SkipMembers(|v.keys| - i, PutMembers(v, i, tail)) == Got((), tail)
    decreases v, 0, |v.values| - i
  {
    hide IsTree, Skip, PutJson, ReadString, PutString;
    if i < |v.keys| {
      hide SkipMembers;
      var rest := PutMembers(v, i + 1, tail);
      var value := PutJson(v.values[i], rest);
      TreeParts(v, i);
      StringRoundTrip(v.keys[i], value);
      SkipExact(v.values[i], rest);
      StringNonEmpty(v.keys[i], value);
      SkipMembersStep(|v.keys| - i, PutString(v.keys[i], value));
      SkipMembersExact(v, i + 1, tail);
    }
  }

  lemma StringNonEmpty(s: Bytes, tail: Bytes)
    ensures PutString(s, tail) != []
  {
  }
}
