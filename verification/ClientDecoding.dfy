/** What the client makes of a server message, and that it is what the server sent. */
module ClientDecoding {
  import opened Types
  import opened Wire
  import Json
  import opened Messages

  /** A message handed to its handler, a tag nobody handles, or a protocol error. */
  datatype Outcome = Delivered(msg: ServerMessage, rest: Bytes) | Ignored | Thrown

  /** Settings without the game-specific value, which the client skips. */
  function Plain(s: RoomSettings): RoomSettings { s.(custom := None) }

  function ReadSettings(d: Bytes): Parsed<RoomSettings> {
    var (maxPlayers, d1) :- ReadU32(d);
    var (minPlayers, d2) :- ReadU32(d1);
    var (isPublic, d3) :- ReadBool(d2);
    var (password, d4) :- ReadOptString(d3);
    var (acceptRequired, d5) :- ReadBool(d4);
    var (_, d6) :- SkipCustom(d5);
    Got(RoomSettings(maxPlayers, minPlayers, isPublic, password, acceptRequired, None), d6)
  }

  function SkipCustom(d: Bytes): Parsed<()> {
    var (tag, rest) :- ReadU8(d);
    if tag != 0 then Json.Skip(rest) else Got((), rest)
  }

  function ReadEntry(d: Bytes): Parsed<RoomListEntry> {
    var (code, d1) :- ReadString(d);
    var (count, d2) :- ReadU32(d1);
    var (settings, d3) :- ReadSettings(d2);
    Got(RoomListEntry(code, count, settings), d3)
  }

  /** Up to `n` entries, fewer if the payload ends first. */
  function ReadEntries(n: nat, d: Bytes): Parsed<seq<RoomListEntry>> {
    if n == 0 || d == [] then Got([], d)
    else
      var (e, d1) :- ReadEntry(d);
      var (es, d2) :- ReadEntries(n - 1, d1);
      Got([e] + es, d2)
  }

  function ReadOptBytes(d: Bytes): Parsed<Option<Bytes>> {
    var (tag, rest) :- ReadU8(d);
    if tag == 0 then Got(None, rest)
    else
      var (blob, rest') :- ReadBytes(rest);
      Got(Some(blob), rest')
  }

  function ReadJoined(d: Bytes): Parsed<ServerMessage> {
    var (code, d1) :- ReadString(d);
    var (id, d2) :- ReadU32(d1);
    var (host, d3) :- ReadU32(d2);
    var (side, d4) :- ReadU8(d3);
    var (settings, d5) :- ReadSettings(d4);
    var (initial, d6) :- ReadOptBytes(d5);
    Got(Joined(code, id, host, side, settings, initial), d6)
  }

  function ReadPeerJoined(d: Bytes): Parsed<ServerMessage> {
    var (id, d1) :- ReadU32(d);
    var (hash, d2) :- ReadString(d1);
    var (name, d3) :- ReadOptString(d2);
    Got(PeerJoined(id, hash, name), d3)
  }

  function ReadRoomList(d: Bytes): Parsed<ServerMessage> {
    var (n, d1) :- ReadVarint(d);
    var (rooms, d2) :- ReadEntries(n, d1);
    Got(RoomList(rooms), d2)
  }

  function ReadPeerInput(d: Bytes): Parsed<ServerMessage> {
    var (id, d1) :- ReadU32(d);
    var (blob, d2) :- ReadBytes(d1);
    Got(PeerInput(id, blob), d2)
  }

  function Deliver(r: Parsed<ServerMessage>): Outcome {
    if r.Failed? then Thrown else Delivered(r.value, r.rest)
  }

  function MapGot<T>(r: Parsed<T>, f: T -> ServerMessage): Parsed<ServerMessage> {
    if r.Failed? then Failed else Got(f(r.value), r.rest)
  }

  function DecodeEvent(d: Bytes): Outcome {
    match ReadVarint(d)
    case Failed => Thrown
    case Got(ev, rest) =>
      match ev
      case 0 => Deliver(MapGot(ReadU32(rest), id => RoomEvent(HostTransferred(id))))
      case 1 => Delivered(RoomEvent(Kicked), rest)
      case 2 => Delivered(RoomEvent(Banned), rest)
      case 3 => Deliver(MapGot(ReadSettings(rest), s => RoomEvent(SettingsChanged(s))))
      case _ => Ignored
  }

  function DecodeBody(tag: u64, d: Bytes): Outcome {
    match tag
    case 0 => Deliver(ReadJoined(d))
    case 1 => Deliver(ReadRoomList(d))
    case 2 => Deliver(ReadPeerJoined(d))
    case 3 => Deliver(MapGot(ReadU32(d), id => PeerLeft(id)))
    case 4 => Deliver(ReadPeerInput(d))
    case 5 => Deliver(MapGot(ReadBytes(d), blob => StateUpdate(blob)))
    case 6 => Delivered(MoveAccepted, d)
    case 7 => Deliver(MapGot(ReadString(d), text => MoveRejected(text)))
    case 8 => DecodeEvent(d)
    case 9 => Delivered(Pong, d)
    case 10 => Deliver(MapGot(ReadString(d), text => Error(text)))
    case _ => Ignored
  }

  /** `DecodeAndDispatch` on one payload. */
  function DecodeServer(d: Bytes): Outcome {
    match ReadVarint(d)
    case Failed => Thrown
    case Got(tag, rest) => DecodeBody(tag, rest)
  }

  // ---------- Round trips ----------

  predicate SettingsFit(s: RoomSettings) {
    (s.password.Some? ==> |s.password.value| <= MAX_STRING) && (s.custom.Some? ==> Json.IsTree(s.custom.value))
  }

  lemma SettingsRoundTrip(s: RoomSettings, tail: Bytes)
    requires SettingsFit(s)
    ensures ReadSettings(PutSettings(s, tail)) == Got(Plain(s), tail)
  {
    hide ReadU32, ReadBool, ReadOptString, ReadU8, Json.Skip, PutVarint, PutOptString, Json.PutJson, PutBool, Json.IsTree;
    var t5 := PutCustom(s.custom, tail);
    var t4 := PutBool(s.acceptRequired, t5);
    var t3 := PutOptString(s.password, t4);
    var t2 := PutBool(s.isPublic, t3);
    U32RoundTrip(s.maxPlayers, PutVarint(s.minPlayers, t2));
    U32RoundTrip(s.minPlayers, t2);
    BoolRoundTrip(s.isPublic, t3);
    OptStringRoundTrip(s.password, t4);
    BoolRoundTrip(s.acceptRequired, t5);
    match s.custom {
      case None => U8RoundTrip(0, tail);
      case Some(v) =>
        U8RoundTrip(1, Json.PutJson(v, tail));
        Json.SkipExact(v, tail);
    }
  }

  predicate EntryFits(e: RoomListEntry) { |e.roomCode| <= MAX_STRING && SettingsFit(e.settings) }

  function PlainEntry(e: RoomListEntry): RoomListEntry { e.(settings := Plain(e.settings)) }

  function PlainEntries(es: seq<RoomListEntry>): seq<RoomListEntry> {
    seq(|es|, i requires 0 <= i < |es| => PlainEntry(es[i]))
  }

  lemma EntryRoundTrip(e: RoomListEntry, tail: Bytes)
    requires EntryFits(e)
    ensures ReadEntry(PutEntry(e, tail)) == Got(PlainEntry(e), tail)
  {
    hide ReadU32, ReadString, ReadSettings, PutVarint, PutString, PutSettings, SettingsFit;
    var t2 := PutSettings(e.settings, tail);
    StringRoundTrip(e.roomCode, PutVarint(e.playerCount, t2));
    U32RoundTrip(e.playerCount, t2);
    SettingsRoundTrip(e.settings, tail);
  }

  lemma {:induction false} EntriesRoundTrip(es: seq<RoomListEntry>, tail: Bytes)
    requires forall i :: 0 <= i < |es| ==> EntryFits(es[i])
    ensures ReadEntries(|es|, PutEntries(es, tail)) == Got(PlainEntries(es), tail)
  {
    hide ReadEntry, PutEntry, EntryFits;
    if es != [] {
      var rest := PutEntries(es[1..], tail);
      EntriesRoundTrip(es[1..], tail);
      EntryRoundTrip(es[0], rest);
      EntryNonEmpty(es[0], rest);
      assert PlainEntries(es) == [PlainEntry(es[0])] + PlainEntries(es[1..]);
    }
  }

  lemma EntryNonEmpty(e: RoomListEntry, tail: Bytes)
    ensures PutEntry(e, tail) != []
  {
    PutStringSize(e.roomCode, PutVarint(e.playerCount, PutSettings(e.settings, tail)));
  }

  lemma OptBytesRoundTrip(s: Option<Bytes>, tail: Bytes)
    requires s.Some? ==> |s.value| <= MAX_FRAME_LEN
    ensures ReadOptBytes(PutOptString(s, tail)) == Got(s, tail)
  {
    match s
    case None => U8RoundTrip(0, tail);
    case Some(blob) =>
      U8RoundTrip(1, PutString(blob, tail));
      BlockRoundTrip(blob, tail, MAX_FRAME_LEN);
  }

  /** The lengths the client accepts. */
  predicate Fits(m: ServerMessage) {
    match m
    case Joined(code, _, _, _, settings, initial) =>
      |code| <= MAX_STRING && SettingsFit(settings) && (initial.Some? ==> |initial.value| <= MAX_FRAME_LEN)
    case RoomList(rooms) => |rooms| < 0x1_0000_0000_0000_0000 && forall i :: 0 <= i < |rooms| ==> EntryFits(rooms[i])
    case PeerJoined(_, hash, name) => |hash| <= MAX_STRING && (name.Some? ==> |name.value| <= MAX_STRING)
    case PeerInput(_, blob) => |blob| <= MAX_FRAME_LEN
    case StateUpdate(blob) => |blob| <= MAX_FRAME_LEN
    case MoveRejected(text) => |text| <= MAX_STRING
    case RoomEvent(SettingsChanged(s)) => SettingsFit(s)
    case Error(text) => |text| <= MAX_STRING
    case _ => true
  }

  /** A message as the client gets to see it: without game-specific values. */
  function Seen(m: ServerMessage): ServerMessage {
    match m
    case Joined(_, _, _, _, settings, _) => m.(settings := Plain(settings))
    case RoomList(rooms) => RoomList(PlainEntries(rooms))
    case RoomEvent(SettingsChanged(s)) => RoomEvent(SettingsChanged(Plain(s)))
    case _ => m
  }

  lemma JoinedRoundTrip(m: ServerMessage, tail: Bytes)
    requires m.Joined? && Fits(m)
    ensures DecodeServer(PutServer(m, tail)) == Delivered(Seen(m), tail)
  {
    hide ReadVarint, ReadU32, ReadString, ReadU8, ReadSettings, ReadOptBytes, PutVarint, PutString, PutSettings, PutOptString, SettingsFit;
    var t5 := PutOptString(m.initialState, tail);
    var t4 := PutSettings(m.settings, t5);
    var t2 := PutVarint(m.hostPeerId, [m.side] + t4);
    var t1 := PutVarint(m.peerId, t2);
    VarintRoundTrip(0, PutString(m.roomCode, t1));
    StringRoundTrip(m.roomCode, t1);
    U32RoundTrip(m.peerId, t2);
    U32RoundTrip(m.hostPeerId, [m.side] + t4);
    U8RoundTrip(m.side, t4);
    SettingsRoundTrip(m.settings, t5);
    OptBytesRoundTrip(m.initialState, tail);
  }

  lemma EventRoundTrip(e: Event, tail: Bytes)
    requires Fits(RoomEvent(e))
    ensures DecodeEvent(PutEvent(e, tail)) == Delivered(Seen(RoomEvent(e)), tail)
  {
    hide ReadVarint, ReadU32, ReadSettings, PutVarint, PutSettings, SettingsFit;
    match e
    case HostTransferred(id) =>
      VarintRoundTrip(0, PutVarint(id, tail));
      U32RoundTrip(id, tail);
    case Kicked => VarintRoundTrip(1, tail);
    case Banned => VarintRoundTrip(2, tail);
    case SettingsChanged(s) =>
      VarintRoundTrip(3, PutSettings(s, tail));
      SettingsRoundTrip(s, tail);
  }

  lemma RoomListRoundTrip(rooms: seq<RoomListEntry>, tail: Bytes)
    requires |rooms| < 0x1_0000_0000_0000_0000 && forall i :: 0 <= i < |rooms| ==> EntryFits(rooms[i])
    ensures ReadRoomList(PutVarint(|rooms|, PutEntries(rooms, tail))) == Got(RoomList(PlainEntries(rooms)), tail)
  {
    hide ReadVarint, PutVarint, ReadEntries, PutEntries, EntryFits, PlainEntries;
    VarintRoundTrip(|rooms|, PutEntries(rooms, tail));
    EntriesRoundTrip(rooms, tail);
  }

  /** The client reads back every message it can take, and reads exactly its bytes. */
  lemma ServerRoundTrip(m: ServerMessage, tail: Bytes)
    requires Fits(m)
    ensures DecodeServer(PutServer(m, tail)) == Delivered(Seen(m), tail)
  {
    hide ReadVarint, ReadU32, ReadBlock, ReadOptString, PutVarint, PutString, PutOptString, DecodeEvent, PutEvent, ReadJoined, ReadRoomList, SettingsFit, EntryFits, PlainEntries, PutEntries;
    match m
    case Joined(_, _, _, _, _, _) => JoinedRoundTrip(m, tail);
    case RoomList(rooms) =>
      VarintRoundTrip(1, PutVarint(|rooms|, PutEntries(rooms, tail)));
      RoomListRoundTrip(rooms, tail);
    case PeerJoined(id, hash, name) =>
      var t2 := PutOptString(name, tail);
      VarintRoundTrip(2, PutVarint(id, PutString(hash, t2)));
      U32RoundTrip(id, PutString(hash, t2));
      StringRoundTrip(hash, t2);
      OptStringRoundTrip(name, tail);
    case PeerLeft(id) =>
      VarintRoundTrip(3, PutVarint(id, tail));
      U32RoundTrip(id, tail);
    case PeerInput(id, blob) =>
      VarintRoundTrip(4, PutVarint(id, PutString(blob, tail)));
      U32RoundTrip(id, PutString(blob, tail));
      BlockRoundTrip(blob, tail, MAX_FRAME_LEN);
    case StateUpdate(blob) =>
      VarintRoundTrip(5, PutString(blob, tail));
      BlockRoundTrip(blob, tail, MAX_FRAME_LEN);
    case MoveAccepted => VarintRoundTrip(6, tail);
    case MoveRejected(text) =>
      VarintRoundTrip(7, PutString(text, tail));
      StringRoundTrip(text, tail);
    case RoomEvent(e) =>
      VarintRoundTrip(8, PutEvent(e, tail));
      EventRoundTrip(e, tail);
    case Pong => VarintRoundTrip(9, tail);
    case Error(text) =>
      VarintRoundTrip(10, PutString(text, tail));
      StringRoundTrip(text, tail);
  }

  // ---------- Whatever fits a frame fits the client ----------

  /** The game-specific values of a message are trees of the grammar. */
  predicate CustomsAreTrees(m: ServerMessage) {
    match m
    case Joined(_, _, _, _, settings, _) => settings.custom.Some? ==> Json.IsTree(settings.custom.value)
    case RoomList(rooms) => forall i :: 0 <= i < |rooms| && rooms[i].settings.custom.Some? ==> Json.IsTree(rooms[i].settings.custom.value)
    case RoomEvent(SettingsChanged(s)) => s.custom.Some? ==> Json.IsTree(s.custom.value)
    case _ => true
  }

  lemma EntrySize(e: RoomListEntry, tail: Bytes)
    ensures |PutEntry(e, tail)| > |tail| + |e.roomCode| + if e.settings.password.Some? then |e.settings.password.value| else 0
  {
    hide PutString, PutVarint, PutSettings, VarintBytes;
    var t2 := PutSettings(e.settings, tail);
    PutStringSize(e.roomCode, PutVarint(e.playerCount, t2));
    PutVarintSize(e.playerCount, t2);
    PutSettingsSize(e.settings, tail);
  }

  lemma {:induction false} EntriesSize(es: seq<RoomListEntry>, tail: Bytes, k: int)
    ensures |PutEntries(es, tail)| >= |es| + |tail|
    ensures 0 <= k < |es| ==> |PutEntries(es, tail)| > |es[k].roomCode| + if es[k].settings.password.Some? then |es[k].settings.password.value| else 0
  {
    hide PutEntry;
    if es != [] {
      EntriesSize(es[1..], tail, k - 1);
      EntrySize(es[0], PutEntries(es[1..], tail));
    }
  }

  lemma RoomListFits(rooms: seq<RoomListEntry>)
    requires |PutEntries(rooms, [])| <= MAX_FRAME_LEN && CustomsAreTrees(RoomList(rooms))
    ensures Fits(RoomList(rooms))
  {
    hide PutEntries, Json.IsTree;
    EntriesSize(rooms, [], 0);
    forall i | 0 <= i < |rooms|
      ensures EntryFits(rooms[i])
    {
      EntriesSize(rooms, [], i);
    }
  }

  lemma EncodedFits(m: ServerMessage)
    requires |PutServer(m, [])| <= MAX_FRAME_LEN && CustomsAreTrees(m)
    ensures Fits(m)
  {
    hide PutString, PutVarint, PutSettings, PutOptString, VarintBytes, Json.IsTree, PutEntries;
    match m
    case Joined(code, id, host, side, settings, initial) =>
      var t5 := PutOptString(initial, []);
      var t3 := [side] + PutSettings(settings, t5);
      PutOptStringSize(initial, []);
      PutSettingsSize(settings, t5);
      PutVarintSize(host, t3);
      PutVarintSize(id, PutVarint(host, t3));
      PutStringSize(code, PutVarint(id, PutVarint(host, t3)));
      PutVarintSize(0, PutString(code, PutVarint(id, PutVarint(host, t3))));
    case RoomList(rooms) =>
      var n := |rooms| % 0x1_0000_0000_0000_0000;
      PutVarintSize(n, PutEntries(rooms, []));
      PutVarintSize(1, PutVarint(n, PutEntries(rooms, [])));
      RoomListFits(rooms);
    case PeerJoined(id, hash, name) =>
      var t2 := PutOptString(name, []);
      PutOptStringSize(name, []);
      PutStringSize(hash, t2);
      PutVarintSize(id, PutString(hash, t2));
      PutVarintSize(2, PutVarint(id, PutString(hash, t2)));
    case PeerInput(id, blob) =>
      PutStringSize(blob, []);
      PutVarintSize(id, PutString(blob, []));
      PutVarintSize(4, PutVarint(id, PutString(blob, [])));
    case StateUpdate(blob) =>
      PutStringSize(blob, []);
      PutVarintSize(5, PutString(blob, []));
    case MoveRejected(text) =>
      PutStringSize(text, []);
      PutVarintSize(7, PutString(text, []));
    case RoomEvent(SettingsChanged(s)) =>
      PutSettingsSize(s, []);
      PutVarintSize(3, PutSettings(s, []));
      PutVarintSize(8, PutVarint(3, PutSettings(s, [])));
    case Error(text) =>
      PutStringSize(text, []);
      PutVarintSize(10, PutString(text, []));
    case _ =>
  }

  /** Every message the server can encode is the message the client handles, to the last byte. */
  lemma EncodedIsDelivered(m: ServerMessage)
    requires EncodeServer(m).Some? && CustomsAreTrees(m)
    ensures DecodeServer(EncodeServer(m).value) == Delivered(Seen(m), [])
  {
    EncodedFits(m);
    ServerRoundTrip(m, []);
  }

  // ---------- What the client lets pass ----------

  /** Any flag but 0 is true, any option tag but 0 announces a value, wide numbers lose their upper half. */
  lemma Lenient(b: byte, v: u64, s: Bytes, tail: Bytes)
    requires |s| <= MAX_STRING
    ensures ReadBool([b] + tail) == Got(b != 0, tail)
    ensures ReadOptString([b] + PutString(s, tail)) == if b == 0 then Got(None, PutString(s, tail)) else Got(Some(s), tail)
    ensures ReadU32(PutVarint(v, tail)) == Got(v % 0x1_0000_0000, tail)
  {
    U8RoundTrip(b, tail);
    U8RoundTrip(b, PutString(s, tail));
    StringRoundTrip(s, tail);
    VarintRoundTrip(v, tail);
    hide PutString, ReadString, PutVarint, ReadVarint, ReadU8;
  }

  /** Tags of messages, events and skipped values that do not exist. */
  lemma UnknownTags(v: u64, tail: Bytes)
    ensures v > 10 ==> DecodeServer(PutVarint(v, tail)) == Ignored
    ensures v > 3 ==> DecodeServer(PutVarint(8, PutVarint(v, tail))) == Ignored
    ensures v > 5 ==> Json.Skip(PutVarint(v, tail)) == Failed
  {
    hide PutVarint, ReadVarint;
    VarintRoundTrip(v, tail);
    VarintRoundTrip(8, PutVarint(v, tail));
  }

  /** Blocks beyond their limit, and blocks cut short, are errors. */
  lemma BlockLimits(n: u64, tail: Bytes)
    ensures n > 0x7FFF_FFFF || n > |tail| ==> ReadString(PutVarint(n, tail)) == Failed
    ensures n > 65536 || n > |tail| ==> ReadBytes(PutVarint(n, tail)) == Failed
  {
    hide PutVarint, ReadVarint;
    VarintRoundTrip(n, tail);
  }
}
