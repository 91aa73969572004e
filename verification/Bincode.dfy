/**
 * The client's codec as it runs: a writer that appends to a growing buffer and a reader that moves
 * a position along a payload. Each operation is proved against the value-level format.
 */
module Bincode {
  import opened Types
  import opened Wire
  import opened Json
  import Messages
  import RoomCodes
  import ServerDecoding
  import opened ClientDecoding

  lemma Regroup(a: Bytes, b: Bytes, c: Bytes)
    ensures (a + b) + c == a + (b + c)
  {
  }

  // ---------- Writing ----------

  class BincodeWriter {
    var buf: Bytes

    constructor ()
      ensures buf == []
    {
      buf := [];
    }

    method WriteU8(v: byte)
      modifies this
      ensures buf == old(buf) + [v]
      ensures forall tail :: buf + tail == old(buf) + ([v] + tail)
    {
      buf := buf + [v];
      forall tail
        ensures buf + tail == old(buf) + ([v] + tail)
      {
        Regroup(old(buf), [v], tail);
      }
    }

    method WriteVarint(v: u64)
      modifies this
      ensures buf == old(buf) + VarintBytes(v)
      ensures forall tail :: buf + tail == old(buf) + PutVarint(v, tail)
    {
      hide VarintBytes;
      ghost var s := old(buf);
      if v < 251 {
        buf := buf + [v];
        VarintShort(v);
      } else if v < 0x1_0000 {
        buf := buf + [251];
        buf := buf + [v % 256];
        buf := buf + [v / 0x100 % 256];
        VarintWord(v);
      } else if v < 0x1_0000_0000 {
        buf := buf + [252];
        buf := buf + [v % 256];
        buf := buf + [v / 0x100 % 256];
        buf := buf + [v / 0x1_0000 % 256];
        buf := buf + [v / 0x100_0000 % 256];
        VarintDouble(v);
      } else {
        buf := buf + [253];
        WriteWide(v);
        VarintWide(v);
        Regroup(s, [253], Little(v, 8));
      }
      assert buf == s + VarintBytes(v);
      forall tail
        ensures buf + tail == s + PutVarint(v, tail)
      {
        Regroup(s, VarintBytes(v), tail);
      }
    }

    method WriteWide(v: u64)
      modifies this
      ensures buf == old(buf) + Little(v, 8)
    {
      hide Little;
      var i := 0;
      while i < 8
        invariant 0 <= i <= 8 && buf == old(buf) + Little(v, 8)[..i]
      {
        LittleAt(v, 8, i);
        buf := buf + [Shifted(v, i) % 256];
        assert Little(v, 8)[..i + 1] == Little(v, 8)[..i] + [Little(v, 8)[i]];
        i := i + 1;
      }
      assert Little(v, 8)[..8] == Little(v, 8);
    }

    method WriteBool(v: bool)
      modifies this
      ensures forall tail :: buf + tail == old(buf) + PutBool(v, tail)
    {
      WriteU8(if v then 1 else 0);
    }

    /** Strings and byte arrays alike: a length, then the bytes. */
    method WriteString(s: Bytes)
      modifies this
      ensures forall tail :: buf + tail == old(buf) + PutString(s, tail)
    {
      WriteVarint(|s| % 0x1_0000_0000_0000_0000);
      ghost var counted := buf;
      buf := buf + s;
      forall tail
        ensures buf + tail == old(buf) + PutString(s, tail)
      {
        Regroup(counted, s, tail);
        assert counted + (s + tail) == old(buf) + PutVarint(|s| % 0x1_0000_0000_0000_0000, s + tail);
      }
    }

    method WriteOptString(s: Option<Bytes>)
      modifies this
      ensures forall tail :: buf + tail == old(buf) + PutOptString(s, tail)
    {
      hide PutString;
      if s == None {
        WriteU8(0);
      } else {
        WriteU8(1);
        WriteString(s.value);
      }
    }

    /** Settings as the client writes them: the game-specific value is always absent. */
    method WriteSettings(s: RoomSettings)
      modifies this
      ensures forall tail :: buf + tail == old(buf) + Messages.PutSettings(Plain(s), tail)
    {
      hide PutVarint, PutBool, PutOptString;
      WriteVarint(s.maxPlayers);
      WriteVarint(s.minPlayers);
      WriteBool(s.isPublic);
      WriteOptString(s.password);
      WriteBool(s.acceptRequired);
      WriteU8(0);
    }
  }

  lemma VarintShort(v: u64)
    requires v < 251
    ensures VarintBytes(v) == [v]
  {
  }

  lemma VarintWord(v: u64)
    requires 251 <= v < 0x1_0000
    ensures VarintBytes(v) == [251, v % 256, v / 0x100 % 256]
  {
    LittleWord(v);
  }

  lemma VarintDouble(v: u64)
    requires 0x1_0000 <= v < 0x1_0000_0000
    ensures VarintBytes(v) == [252, v % 256, v / 0x100 % 256, v / 0x1_0000 % 256, v / 0x100_0000 % 256]
  {
    LittleHeader(v);
    hide Little;
  }

  lemma VarintWide(v: u64)
    requires v >= 0x1_0000_0000
    ensures VarintBytes(v) == [253] + Little(v, 8)
  {
  }

  lemma LittleWord(v: nat)
    ensures Little(v, 2) == [v % 256, v / 0x100 % 256]
  {
    assert Little(v / 256, 1) == [v / 256 % 256] + Little(v / 256 / 256, 0);
  }

  /** A command as a client can write it. */
  function WrittenControl(c: Control): Control {
    match c
    case CreateRoom(s) => CreateRoom(Plain(s))
    case UpdateSettings(s) => UpdateSettings(Plain(s))
    case _ => c
  }

  /** A message as a client can write it. */
  function Written(m: ClientMessage): ClientMessage {
    if m.RoomControl? then RoomControl(WrittenControl(m.control)) else m
  }

  /** What the server is to understand: the message itself, its room code normalised and its settings without a game-specific value. */
  function Asked(m: ClientMessage): ClientMessage {
    match m
    case Hello(h) =>
      Hello(HelloFields(h.appKey, RoomCodes.Normalise(h.roomCode), h.clientHash, h.displayName, h.authToken, h.password))
    case RoomControl(CreateRoom(s)) =>
      RoomControl(CreateRoom(RoomSettings(s.maxPlayers, s.minPlayers, s.isPublic, s.password, s.acceptRequired, None)))
    case RoomControl(UpdateSettings(s)) =>
      RoomControl(UpdateSettings(RoomSettings(s.maxPlayers, s.minPlayers, s.isPublic, s.password, s.acceptRequired, None)))
    case RoomControl(SetPublic(b)) => RoomControl(SetPublic(b))
    case RoomControl(AcceptPeer(id)) => RoomControl(AcceptPeer(id))
    case RoomControl(DenyPeer(id)) => RoomControl(DenyPeer(id))
    case RoomControl(Kick(id)) => RoomControl(Kick(id))
    case RoomControl(Ban(id)) => RoomControl(Ban(id))
    case RoomControl(TransferHost(id)) => RoomControl(TransferHost(id))
    case RoomControl(Leave) => RoomControl(Leave)
    case Move(blob) => Move(blob)
    case Input(blob) => Input(blob)
    case RequestState => RequestState
    case Ping => Ping
    case ListRooms(appKey) => ListRooms(appKey)
  }

  /** All lengths can be counted by a u64, as those of strings in memory can. */
  predicate Countables(m: ClientMessage) { ServerDecoding.Writable(Written(m)) }

  /** What is written is read back by the server as what was asked for, to the last byte. */
  lemma WrittenIsAsked(m: ClientMessage)
    requires Countables(m)
    ensures ServerDecoding.TakeClient(Messages.PutClient(Written(m), [])) == Got(Asked(m), [])
  {
    hide ServerDecoding.TakeClient, Messages.PutClient, RoomCodes.Normalise, ServerDecoding.Writable;
    ServerDecoding.ClientRoundTrip(Written(m), []);
  }

  /** The client's encoders, one arm each. */
  method EncodeClient(m: ClientMessage) returns (payload: Bytes)
    ensures payload == Messages.PutClient(Written(m), [])
    ensures Countables(m) ==> ServerDecoding.TakeClient(payload) == Got(Asked(m), [])
  {
    if Countables(m) {
      WrittenIsAsked(m);
    }
    hide PutVarint, PutString, PutOptString, PutBool, Messages.PutSettings, Plain;
    var w := new BincodeWriter();
    match m {
      case Hello(h) =>
        w.WriteVarint(0);
        w.WriteString(h.appKey);
        w.WriteString(h.roomCode);
        w.WriteString(h.clientHash);
        w.WriteOptString(h.displayName);
        w.WriteOptString(h.authToken);
        w.WriteOptString(h.password);
      case Move(blob) =>
        w.WriteVarint(1);
        w.WriteString(blob);
      case Input(blob) =>
        w.WriteVarint(2);
        w.WriteString(blob);
      case RoomControl(c) =>
        w.WriteVarint(3);
        WriteControl(w, c);
      case RequestState =>
        w.WriteVarint(4);
      case Ping =>
        w.WriteVarint(5);
      case ListRooms(appKey) =>
        w.WriteVarint(6);
        w.WriteString(appKey);
    }
    assert w.buf == w.buf + [];
    return w.buf;
  }

  method WriteControl(w: BincodeWriter, c: Control)
    modifies w
    ensures forall tail :: w.buf + tail == old(w.buf) + Messages.PutControl(WrittenControl(c), tail)
  {
    hide PutVarint, PutBool, Messages.PutSettings, Plain;
    match c {
      case CreateRoom(s) =>
        w.WriteVarint(0);
        w.WriteSettings(s);
      case UpdateSettings(s) =>
        w.WriteVarint(1);
        w.WriteSettings(s);
      case SetPublic(b) =>
        w.WriteVarint(2);
        w.WriteBool(b);
      case AcceptPeer(id) =>
        w.WriteVarint(3);
        w.WriteVarint(id);
      case DenyPeer(id) =>
        w.WriteVarint(4);
        w.WriteVarint(id);
      case Kick(id) =>
        w.WriteVarint(5);
        w.WriteVarint(id);
      case Ban(id) =>
        w.WriteVarint(6);
        w.WriteVarint(id);
      case TransferHost(id) =>
        w.WriteVarint(7);
        w.WriteVarint(id);
      case Leave =>
        w.WriteVarint(8);
    }
  }

  // ---------- Reading ----------

  /** A read ended as the format says: an exception, or the value with `unread` left. */
  ghost predicate Agrees<T(!new)>(p: Parsed<T>, r: Option<T>, unread: Bytes) {
    match p
    case Failed => r == None
    case Got(v, rest) => r == Some(v) && unread == rest
  }

  class BincodeReader {
    const data: Bytes
    const size: nat
    var pos: nat

    ghost predicate Valid()
      reads this
    {
      pos <= size <= |data|
    }

    ghost function Unread(): Bytes
      requires Valid()
      reads this
    {
      data[pos..size]
    }

    constructor (data: Bytes, offset: nat, length: nat)
      requires offset + length <= |data|
      ensures Valid() && Unread() == data[offset..offset + length]
    {
      this.data, this.size := data, offset + length;
      pos := offset;
    }

    method ReadU8() returns (r: Option<byte>)
      requires Valid()
      modifies this
      ensures Valid() && old(pos) <= pos && (r.Some? ==> old(pos) < pos)
      ensures Agrees(Wire.ReadU8(old(Unread())), r, Unread())
    {
      if pos + 1 > size {
        return None;
      }
      pos := pos + 1;
      return Some(data[pos - 1]);
    }

    method ReadBool() returns (r: Option<bool>)
      requires Valid()
      modifies this
      ensures Valid() && old(pos) <= pos && (r.Some? ==> old(pos) < pos)
      ensures Agrees(Wire.ReadBool(old(Unread())), r, Unread())
    {
      var b :- ReadU8();
      return Some(b != 0);
    }

    method ReadVarint() returns (r: Option<u64>)
      requires Valid()
      modifies this
      ensures Valid() && old(pos) <= pos && (r.Some? ==> old(pos) < pos)
      ensures Agrees(Wire.ReadVarint(old(Unread())), r, Unread())
    {
      if pos + 1 > size {
        return None;
      }
      ghost var d := Unread();
      var b := data[pos];
      pos := pos + 1;
      if b < 251 {
        return Some(b);
      }
      var n: nat := if b == 251 then 2 else if b == 252 then 4 else if b == 253 then 8 else 0;
      if n == 0 || pos + n > size {
        return None;
      }
      var v := ReadLittle(n);
      assert d[1..][..n] == d[1..1 + n] && d[1..][n..] == d[1 + n..];
      FitsU64(d[1..1 + n]);
      return Some(v);
    }

    /** The `n` bytes of a wide number, lowest first. */
    method ReadLittle(n: nat) returns (v: nat)
      requires Valid() && pos + n <= size
      modifies this
      ensures Valid() && pos == old(pos) + n
      ensures v == FromLittle(old(Unread())[..n]) && Unread() == old(Unread())[n..]
    {
      ghost var d := Unread();
      v := 0;
      var i := 0;
      while i < n
        invariant 0 <= i <= n && pos == old(pos) && v == FromLittle(d[..i])
      {
        FromLittleMore(d[..i], d[i]);
        assert d[..i + 1] == d[..i] + [d[i]];
        v := v + LeftShifted(data[pos + i], i);
        i := i + 1;
      }
      pos := pos + n;
    }

    method ReadU32Varint() returns (r: Option<u32>)
      requires Valid()
      modifies this
      ensures Valid() && old(pos) <= pos && (r.Some? ==> old(pos) < pos)
      ensures Agrees(ReadU32(old(Unread())), r, Unread())
    {
      var v :- ReadVarint();
      return Some(v % 0x1_0000_0000);
    }

    method ReadBlock(most: nat) returns (r: Option<Bytes>)
      requires Valid()
      modifies this
      ensures Valid() && old(pos) <= pos && (r.Some? ==> old(pos) < pos)
      ensures Agrees(Wire.ReadBlock(old(Unread()), most), r, Unread())
    {
      hide Wire.ReadVarint;
      var n :- ReadVarint();
      if n > most || pos + n > size {
        return None;
      }
      ghost var rest := Unread();
      var s := data[pos..pos + n];
      assert s == rest[..n];
      pos := pos + n;
      return Some(s);
    }

    method ReadString() returns (r: Option<Bytes>)
      requires Valid()
      modifies this
      ensures Valid() && old(pos) <= pos && (r.Some? ==> old(pos) < pos)
      ensures Agrees(Wire.ReadString(old(Unread())), r, Unread())
    {
      r := ReadBlock(MAX_STRING);
    }

    method ReadBytes() returns (r: Option<Bytes>)
      requires Valid()
      modifies this
      ensures Valid() && old(pos) <= pos && (r.Some? ==> old(pos) < pos)
      ensures Agrees(Wire.ReadBytes(old(Unread())), r, Unread())
    {
      r := ReadBlock(MAX_FRAME_LEN);
    }

    method ReadOptString() returns (r: Option<Option<Bytes>>)
      requires Valid()
      modifies this
      ensures Valid() && old(pos) <= pos && (r.Some? ==> old(pos) < pos)
      ensures Agrees(Wire.ReadOptString(old(Unread())), r, Unread())
    {
      hide Wire.ReadString;
      var tag :- ReadU8();
      if tag == 0 {
        return Some(None);
      }
      var s :- ReadString();
      return Some(Some(s));
    }

    /** Skips one value; whatever the bytes, it ends, within bounds, further on or with an error. */
    method SkipBincodeJsonValue() returns (r: Option<()>)
      requires Valid()
      modifies this
      ensures Valid() && old(pos) <= pos && (r.Some? ==> old(pos) < pos)
      ensures Agrees(Skip(old(Unread())), r, Unread())
      decreases size - pos, 1
    {
      hide Wire.ReadVarint, Wire.ReadString, SkipItems, SkipMembers;
      var tag :- ReadVarint();
      match tag
      case 0 =>
        return Some(());
      case 1 =>
        var _ :- ReadU8();
        return Some(());
      case 2 =>
        if pos + 8 > size {
          return None;
        }
        pos := pos + 8;
        return Some(());
      case 3 =>
        var _ :- ReadString();
        return Some(());
      case 4 =>
        var n :- ReadVarint();
        r := SkipElements(n);
      case 5 =>
        var n :- ReadVarint();
        r := SkipPairs(n);
      case _ =>
        return None;
    }

    /** The loop over an array's elements. */
    method SkipElements(n: u64) returns (r: Option<()>)
      requires Valid()
      modifies this
      ensures Valid() && old(pos) <= pos
      ensures Agrees(SkipItems(n, old(Unread())), r, Unread())
      decreases size - pos, 2
    {
      hide Skip, SkipItems;
      var i := 0;
      while i < n && pos < size
        invariant 0 <= i <= n && Valid() && old(pos) <= pos
        invariant SkipItems(n - i, Unread()) == SkipItems(n, old(Unread()))
        decreases n - i
      {
        SkipItemsCases(n - i, Unread());
        var _ :- SkipBincodeJsonValue();
        i := i + 1;
      }
      SkipItemsCases(n - i, Unread());
      return Some(());
    }

    /** The loop over an object's keys and values. */
    method SkipPairs(n: u64) returns (r: Option<()>)
      requires Valid()
      modifies this
      ensures Valid() && old(pos) <= pos
      ensures Agrees(SkipMembers(n, old(Unread())), r, Unread())
      decreases size - pos, 2
    {
      hide Skip, Wire.ReadString, SkipMembers;
      var i := 0;
      while i < n && pos < size
        invariant 0 <= i <= n && Valid() && old(pos) <= pos
        invariant SkipMembers(n - i, Unread()) == SkipMembers(n, old(Unread()))
        decreases n - i
      {
        SkipMembersCases(n - i, Unread());
        var _ :- ReadString();
        var _ :- SkipBincodeJsonValue();
        i := i + 1;
      }
      SkipMembersCases(n - i, Unread());
      return Some(());
    }
  }

  /** One turn of the loop over an array's elements. */
  lemma SkipItemsCases(n: u64, d: Bytes)
    ensures n == 0 || d == [] ==> SkipItems(n, d) == Got((), d)
    ensures n > 0 && d != [] ==> SkipItems(n, d) == if Skip(d).Failed? then Failed else SkipItems(n - 1, Skip(d).rest)
  {
    hide Skip;
  }

  /** One turn of the loop over an object's keys and values. */
  lemma SkipMembersCases(n: u64, d: Bytes)
    ensures n == 0 || d == [] ==> SkipMembers(n, d) == Got((), d)
    ensures n > 0 && d != [] ==>
              SkipMembers(n, d) == if ReadString(d).Failed? || Skip(ReadString(d).rest).Failed? then Failed
                                   else SkipMembers(n - 1, Skip(ReadString(d).rest).rest)
  {
    hide Skip, Wire.ReadString;
  }

  /** `b << (8 * i)`. */
  function LeftShifted(b: byte, i: nat): (r: nat)
    ensures r == b * Pow256(i)
  {
    if i == 0 then b else
      var r := LeftShifted(b, i - 1);
      assert 256 * (b * Pow256(i - 1)) == b * Pow256(i);
      256 * r
  }

  // ---------- Decoding messages ----------

  method ReadSettings(r: BincodeReader) returns (s: Option<RoomSettings>)
    requires r.Valid()
    modifies r
    ensures r.Valid() && Agrees(ClientDecoding.ReadSettings(old(r.Unread())), s, r.Unread())
  {
    hide ReadU32, Wire.ReadBool, Wire.ReadOptString, Skip;
    var maxPlayers :- r.ReadU32Varint();
    var minPlayers :- r.ReadU32Varint();
    var isPublic :- r.ReadBool();
    var password :- r.ReadOptString();
    var acceptRequired :- r.ReadBool();
    var tag :- r.ReadU8();
    if tag != 0 {
      var _ :- r.SkipBincodeJsonValue();
    }
    return Some(RoomSettings(maxPlayers, minPlayers, isPublic, password, acceptRequired, None));
  }

  method ReadEntry(r: BincodeReader) returns (e: Option<RoomListEntry>)
    requires r.Valid()
    modifies r
    ensures r.Valid() && Agrees(ClientDecoding.ReadEntry(old(r.Unread())), e, r.Unread())
  {
    hide ReadU32, Wire.ReadString, ClientDecoding.ReadSettings;
    var code :- r.ReadString();
    var count :- r.ReadU32Varint();
    var settings :- ReadSettings(r);
    return Some(RoomListEntry(code, count, settings));
  }

  /** Entries already read, and those still to come. */
  ghost function Prepend(es: seq<RoomListEntry>, p: Parsed<seq<RoomListEntry>>): Parsed<seq<RoomListEntry>> {
    if p.Failed? then Failed else Got(es + p.value, p.rest)
  }

  method ReadEntries(r: BincodeReader, n: u64) returns (list: Option<seq<RoomListEntry>>)
    requires r.Valid()
    modifies r
    ensures r.Valid() && Agrees(ClientDecoding.ReadEntries(n, old(r.Unread())), list, r.Unread())
  {
    hide ClientDecoding.ReadEntry;
    var es: seq<RoomListEntry> := [];
    var i := 0;
    ghost var all := ClientDecoding.ReadEntries(n, r.Unread());
    assert all.Got? ==> [] + all.value == all.value;
    while i < n && r.pos < r.size
      invariant 0 <= i <= n && r.Valid()
      invariant Prepend(es, ClientDecoding.ReadEntries(n - i, r.Unread())) == all
      decreases n - i
    {
      assert r.Unread() != [];
      var e :- ReadEntry(r);
      ghost var rest := ClientDecoding.ReadEntries(n - i - 1, r.Unread());
      assert rest.Got? ==> es + ([e] + rest.value) == (es + [e]) + rest.value;
      es := es + [e];
      i := i + 1;
    }
    assert es + [] == es;
    return Some(es);
  }

  method ReadJoined(r: BincodeReader) returns (m: Option<ServerMessage>)
    requires r.Valid()
    modifies r
    ensures r.Valid() && Agrees(ClientDecoding.ReadJoined(old(r.Unread())), m, r.Unread())
  {
    hide ReadU32, Wire.ReadString, ClientDecoding.ReadSettings, Wire.ReadBytes;
    var code :- r.ReadString();
    var id :- r.ReadU32Varint();
    var host :- r.ReadU32Varint();
    var side :- r.ReadU8();
    var settings :- ReadSettings(r);
    var hasState :- r.ReadU8();
    if hasState != 0 {
      var blob :- r.ReadBytes();
      return Some(Joined(code, id, host, side, settings, Some(blob)));
    }
    return Some(Joined(code, id, host, side, settings, None));
  }

  method ReadPeerJoined(r: BincodeReader) returns (m: Option<ServerMessage>)
    requires r.Valid()
    modifies r
    ensures r.Valid() && Agrees(ClientDecoding.ReadPeerJoined(old(r.Unread())), m, r.Unread())
  {
    hide ReadU32, Wire.ReadString, Wire.ReadOptString;
    var id :- r.ReadU32Varint();
    var hash :- r.ReadString();
    var name :- r.ReadOptString();
    return Some(PeerJoined(id, hash, name));
  }

  method ReadPeerInput(r: BincodeReader) returns (m: Option<ServerMessage>)
    requires r.Valid()
    modifies r
    ensures r.Valid() && Agrees(ClientDecoding.ReadPeerInput(old(r.Unread())), m, r.Unread())
  {
    hide ReadU32, Wire.ReadBytes;
    var id :- r.ReadU32Varint();
    var blob :- r.ReadBytes();
    return Some(PeerInput(id, blob));
  }

  method ReadRoomList(r: BincodeReader) returns (m: Option<ServerMessage>)
    requires r.Valid()
    modifies r
    ensures r.Valid() && Agrees(ClientDecoding.ReadRoomList(old(r.Unread())), m, r.Unread())
  {
    hide Wire.ReadVarint, ClientDecoding.ReadEntries;
    var n :- r.ReadVarint();
    var rooms :- ReadEntries(r, n);
    return Some(RoomList(rooms));
  }

  /** What a handler was given, if any. */
  method Finish(r: BincodeReader, m: Option<ServerMessage>) returns (o: Outcome)
    requires r.Valid()
    ensures o == if m == None then Thrown else Delivered(m.value, r.Unread())
  {
    return if m == None then Thrown else Delivered(m.value, r.data[r.pos..r.size]);
  }

  method DispatchEvent(r: BincodeReader) returns (o: Outcome)
    requires r.Valid()
    modifies r
    ensures o == DecodeEvent(old(r.Unread()))
  {
    hide Wire.ReadVarint, ReadU32, ClientDecoding.ReadSettings;
    var ev := r.ReadVarint();
    if ev == None {
      return Thrown;
    }
    match ev.value
    case 0 =>
      var id := r.ReadU32Varint();
      o := Finish(r, if id == None then None else Some(RoomEvent(HostTransferred(id.value))));
    case 1 => o := Finish(r, Some(RoomEvent(Kicked)));
    case 2 => o := Finish(r, Some(RoomEvent(Banned)));
    case 3 =>
      var s := ReadSettings(r);
      o := Finish(r, if s == None then None else Some(RoomEvent(SettingsChanged(s.value))));
    case _ => o := Ignored;
  }

  /** Decodes one payload and hands it to its handler. */
  method DecodeAndDispatch(payload: Bytes, offset: nat, length: nat) returns (o: Outcome)
    requires offset + length <= |payload|
    ensures o == DecodeServer(payload[offset..offset + length])
  {
    hide Wire.ReadVarint, ReadU32, Wire.ReadString, Wire.ReadBytes, DecodeEvent, ClientDecoding.ReadJoined,
      ClientDecoding.ReadRoomList, ClientDecoding.ReadPeerJoined, ClientDecoding.ReadPeerInput;
    var r := new BincodeReader(payload, offset, length);
    var tag := r.ReadVarint();
    if tag == None {
      return Thrown;
    }
    var m: Option<ServerMessage> := None;
    match tag.value {
      case 0 => m := ReadJoined(r);
      case 1 => m := ReadRoomList(r);
      case 2 => m := ReadPeerJoined(r);
      case 3 =>
        var id := r.ReadU32Varint();
        m := if id == None then None else Some(PeerLeft(id.value));
      case 4 => m := ReadPeerInput(r);
      case 5 =>
        var blob := r.ReadBytes();
        m := if blob == None then None else Some(StateUpdate(blob.value));
      case 6 => m := Some(MoveAccepted);
      case 7 =>
        var text := r.ReadString();
        m := if text == None then None else Some(MoveRejected(text.value));
      case 8 =>
        o := DispatchEvent(r);
        return;
      case 9 => m := Some(Pong);
      case 10 =>
        var text := r.ReadString();
        m := if text == None then None else Some(Error(text.value));
      case _ =>
        return Ignored;
    }
    o := Finish(r, m);
  }
}
