/** Messages on the wire: the variant order is the tag, fields follow in declaration order. */
module Messages {
  import opened Types
  import opened Wire
  import Json

  function PutCustom(v: Option<JsonValue>, tail: Bytes): Bytes {
    match v
    case None => [0] + tail
    case Some(tree) => [1] + Json.PutJson(tree, tail)
  }

  function PutSettings(s: RoomSettings, tail: Bytes): Bytes {
    PutVarint(s.maxPlayers, PutVarint(s.minPlayers, PutBool(s.isPublic, PutOptString(s.password,
      PutBool(s.acceptRequired, PutCustom(s.custom, tail))))))
  }

  function PutControl(c: Control, tail: Bytes): Bytes {
    match c
    case CreateRoom(s) => PutVarint(0, PutSettings(s, tail))
    case UpdateSettings(s) => PutVarint(1, PutSettings(s, tail))
    case SetPublic(b) => PutVarint(2, PutBool(b, tail))
    case AcceptPeer(id) => PutVarint(3, PutVarint(id, tail))
    case DenyPeer(id) => PutVarint(4, PutVarint(id, tail))
    case Kick(id) => PutVarint(5, PutVarint(id, tail))
    case Ban(id) => PutVarint(6, PutVarint(id, tail))
    case TransferHost(id) => PutVarint(7, PutVarint(id, tail))
    case Leave => PutVarint(8, tail)
  }

  function PutClient(m: ClientMessage, tail: Bytes): Bytes {
    match m
    case Hello(h) =>
      PutVarint(0, PutString(h.appKey, PutString(h.roomCode, PutString(h.clientHash,
        PutOptString(h.displayName, PutOptString(h.authToken, PutOptString(h.password, tail)))))))
    case Move(blob) => PutVarint(1, PutString(blob, tail))
    case Input(blob) => PutVarint(2, PutString(blob, tail))
    case RoomControl(c) => PutVarint(3, PutControl(c, tail))
    case RequestState => PutVarint(4, tail)
    case Ping => PutVarint(5, tail)
    case ListRooms(appKey) => PutVarint(6, PutString(appKey, tail))
  }

  function PutEntry(e: RoomListEntry, tail: Bytes): Bytes {
    PutString(e.roomCode, PutVarint(e.playerCount, PutSettings(e.settings, tail)))
  }

  function PutEntries(es: seq<RoomListEntry>, tail: Bytes): Bytes {
    if es == [] then tail else PutEntry(es[0], PutEntries(es[1..], tail))
  }

  function PutEvent(e: Event, tail: Bytes): Bytes {
    match e
    case HostTransferred(id) => PutVarint(0, PutVarint(id, tail))
    case Kicked => PutVarint(1, tail)
    case Banned => PutVarint(2, tail)
    case SettingsChanged(s) => PutVarint(3, PutSettings(s, tail))
  }

  function PutServer(m: ServerMessage, tail: Bytes): Bytes {
    match m
    case Joined(code, id, host, side, settings, initial) =>
      PutVarint(0, PutString(code, PutVarint(id, PutVarint(host, [side] + PutSettings(settings, PutOptString(initial, tail))))))
    case RoomList(rooms) => PutVarint(1, PutVarint(|rooms| % 0x1_0000_0000_0000_0000, PutEntries(rooms, tail)))
    case PeerJoined(id, hash, name) => PutVarint(2, PutVarint(id, PutString(hash, PutOptString(name, tail))))
    case PeerLeft(id) => PutVarint(3, PutVarint(id, tail))
    case PeerInput(id, blob) => PutVarint(4, PutVarint(id, PutString(blob, tail)))
    case StateUpdate(blob) => PutVarint(5, PutString(blob, tail))
    case MoveAccepted => PutVarint(6, tail)
    case MoveRejected(reason) => PutVarint(7, PutString(reason, tail))
    case RoomEvent(e) => PutVarint(8, PutEvent(e, tail))
    case Pong => PutVarint(9, tail)
    case Error(text) => PutVarint(10, PutString(text, tail))
  }

  /** What the server puts in a frame: nothing if the message exceeds the size limit. */
  function EncodeServer(m: ServerMessage): (r: Option<Bytes>)
    ensures r.Some? ==> |r.value| <= MAX_FRAME_LEN
  {
    var bytes := PutServer(m, []);
    if |bytes| <= MAX_FRAME_LEN then Some(bytes) else None
  }

  // ---------- Tags ----------

  /** The first bytes of a client message are its place in the declared order, and that of its command. */
  lemma ClientTags(m: ClientMessage, tail: Bytes)
    ensures [match m
             case Hello(_) => 0 case Move(_) => 1 case Input(_) => 2 case RoomControl(_) => 3
             case RequestState => 4 case Ping => 5 case ListRooms(_) => 6] <= PutClient(m, tail)
    ensures m.RoomControl? ==>
              [3, match m.control
                  case CreateRoom(_) => 0 case UpdateSettings(_) => 1 case SetPublic(_) => 2 case AcceptPeer(_) => 3 case DenyPeer(_) => 4
                  case Kick(_) => 5 case Ban(_) => 6 case TransferHost(_) => 7 case Leave => 8] <= PutClient(m, tail)
  {
    hide PutString, PutOptString, PutSettings;
  }

  /** The first bytes of a server message are its place in the declared order, and that of its event. */
  lemma ServerTags(m: ServerMessage, tail: Bytes)
    ensures [match m
             case Joined(_, _, _, _, _, _) => 0 case RoomList(_) => 1 case PeerJoined(_, _, _) => 2 case PeerLeft(_) => 3
             case PeerInput(_, _) => 4 case StateUpdate(_) => 5 case MoveAccepted => 6 case MoveRejected(_) => 7
             case RoomEvent(_) => 8 case Pong => 9 case Error(_) => 10] <= PutServer(m, tail)
    ensures m.RoomEvent? ==>
              [8, match m.event
                  case HostTransferred(_) => 0 case Kicked => 1 case Banned => 2 case SettingsChanged(_) => 3] <= PutServer(m, tail)
  {
    hide PutString, PutOptString, PutSettings, PutEntries;
  }

  /** The first byte of a skipped value is the documented variant tag. */
  lemma JsonTags(v: JsonValue, tail: Bytes)
    ensures [match v
             case Null => 0 case Bool(_) => 1 case Number(_) => 2 case String(_) => 3 case Array(_) => 4 case Object(_, _) => 5] <= Json.PutJson(v, tail)
  {
    hide PutString, Json.PutItems, Json.PutMembers;
  }

  lemma ShortVarints()
    ensures forall v: u64, tail: Bytes :: v < 251 ==> PutVarint(v, tail) == [v] + tail
  {
  }

  /** Where the fields stand, on short examples. */
  lemma ShortString(b: byte, tail: Bytes)
    ensures PutString([b], tail) == [1, b] + tail && PutOptString(Some([b]), tail) == [1, 1, b] + tail
  {
    hide VarintBytes, PutVarint;
    ShortVarints();
    assert [1] + ([b] + tail) == [1, b] + tail;
    assert [1] + ([1, b] + tail) == [1, 1, b] + tail;
  }

  lemma HelloLayout()
    ensures PutClient(Hello(HelloFields([97], [98], [99], Some([100]), Some([101]), Some([102]))), []) ==
            [0, 1, 97, 1, 98, 1, 99, 1, 1, 100, 1, 1, 101, 1, 1, 102]
  {
    ShortVarints();
    hide VarintBytes, PutVarint, PutString, PutOptString;
    var t6 := [1, 1, 102];
    ShortString(102, []);
    assert t6 + [] == t6;
    var t5 := [1, 1, 101] + t6;
    ShortString(101, t6);
    var t4 := [1, 1, 100] + t5;
    ShortString(100, t5);
    var t3 := [1, 99] + t4;
    ShortString(99, t4);
    var t2 := [1, 98] + t3;
    ShortString(98, t3);
    ShortString(97, t2);
  }

  lemma SettingsLayout()
    ensures PutSettings(RoomSettings(4, 300, true, Some([97]), false, None), []) == [4, 251, 44, 1, 1, 1, 1, 97, 0, 0]
  {
    assert Little(300, 2) == [44] + Little(1, 1);
    assert Little(1, 1) == [1] + Little(0, 0);
  }

  lemma JoinedLayout(tail: Bytes)
    ensures PutServer(Joined([97], 2, 3, 4, RoomSettings(5, 6, false, None, true, None), Some([7])), tail) ==
            [0] + ([1, 97] + ([2] + ([3] + ([4] + ([5, 6, 0, 0, 1, 0] + ([1, 1, 7] + tail))))))
  {
    ShortVarints();
    ShortString(7, tail);
    SmallSettings(5, 6, false, true, [1, 1, 7] + tail);
    hide VarintBytes, PutVarint, PutString, PutOptString, PutSettings;
    ShortString(97, [2] + ([3] + ([4] + ([5, 6, 0, 0, 1, 0] + ([1, 1, 7] + tail)))));
  }

  lemma SmallSettings(most: u32, least: u32, isPublic: bool, accept: bool, tail: Bytes)
    requires most < 251 && least < 251
    ensures PutSettings(RoomSettings(most, least, isPublic, None, accept, None), tail) ==
            [most, least, if isPublic then 1 else 0, 0, if accept then 1 else 0, 0] + tail
  {
    ShortVarints();
    hide VarintBytes, PutVarint;
  }

  lemma EntryLayout(tail: Bytes)
    ensures PutEntry(RoomListEntry([97], 2, RoomSettings(3, 4, true, None, false, None)), tail) == [1, 97] + ([2] + ([3, 4, 1, 0, 0, 0] + tail))
  {
    ShortVarints();
    SmallSettings(3, 4, true, false, tail);
    hide VarintBytes, PutVarint, PutString, PutSettings;
    ShortString(97, [2] + ([3, 4, 1, 0, 0, 0] + tail));
  }

  lemma PeerLayout()
    ensures PutServer(PeerJoined(1, [97], Some([98])), []) == [2, 1, 1, 97, 1, 1, 98]
    ensures PutServer(PeerInput(9, [97]), []) == [4, 9, 1, 97]
  {
    hide VarintBytes, PutVarint;
    ShortVarints();
  }

  // ---------- Sizes ----------

  function VarintSize(v: u64): nat { |VarintBytes(v)| }

  lemma PutVarintSize(v: u64, tail: Bytes)
    ensures |PutVarint(v, tail)| == VarintSize(v) + |tail|
    ensures 1 <= VarintSize(v) <= 9 && (v < 0x1_0000_0000 ==> VarintSize(v) <= 5)
  {
  }

  lemma PutStringSize(s: Bytes, tail: Bytes)
    ensures |PutString(s, tail)| == VarintSize(|s| % 0x1_0000_0000_0000_0000) + |s| + |tail| > |s| + |tail|
  {
  }

  lemma PutOptStringSize(s: Option<Bytes>, tail: Bytes)
    ensures s == None ==> |PutOptString(s, tail)| == 1 + |tail|
    ensures s.Some? ==> |PutOptString(s, tail)| > |s.value| + |tail|
  {
    if s.Some? {
      PutStringSize(s.value, tail);
    }
  }

  lemma {:induction false} PutJsonSize(v: JsonValue, tail: Bytes)
    ensures |Json.PutJson(v, tail)| > |tail|
    decreases v, 1
  {
    hide VarintBytes, PutVarint, PutString;
    match v
    case Null => PutVarintSize(0, tail);
    case Bool(b) => PutVarintSize(1, PutBool(b, tail));
    case Number(bits) => PutVarintSize(2, bits + tail);
    case String(text) =>
      PutVarintSize(3, PutString(text, tail));
      PutStringSize(text, tail);
    case Array(items) =>
      var n := |items| % 0x1_0000_0000_0000_0000;
      PutVarintSize(4, PutVarint(n, Json.PutItems(v, 0, tail)));
      PutVarintSize(n, Json.PutItems(v, 0, tail));
      PutItemsSize(v, 0, tail);
    case Object(keys, values) =>
      var n := |keys| % 0x1_0000_0000_0000_0000;
      PutVarintSize(5, PutVarint(n, Json.PutMembers(v, 0, tail)));
      PutVarintSize(n, Json.PutMembers(v, 0, tail));
      PutMembersSize(v, 0, tail);
  }

  lemma {:induction false} PutItemsSize(v: JsonValue, i: nat, tail: Bytes)
    requires v.Array?
    ensures |Json.PutItems(v, i, tail)| >= |tail|
    decreases v, 0, |v.items| - i
  {
    if i < |v.items| {
      PutJsonSize(v.items[i], Json.PutItems(v, i + 1, tail));
      PutItemsSize(v, i + 1, tail);
    }
  }

  lemma {:induction false} PutMembersSize(v: JsonValue, i: nat, tail: Bytes)
    requires v.Object?
    ensures |Json.PutMembers(v, i, tail)| >= |tail|
    decreases v, 0, |v.values| - i
  {
    if i < |v.keys| && i < |v.values| {
      var rest := Json.PutMembers(v, i + 1, tail);
      PutStringSize(v.keys[i], Json.PutJson(v.values[i], rest));
      PutJsonSize(v.values[i], rest);
      PutMembersSize(v, i + 1, tail);
    }
  }

  lemma PutCustomSize(v: Option<JsonValue>, tail: Bytes)
    ensures |PutCustom(v, tail)| > |tail| && (v == None ==> |PutCustom(v, tail)| == 1 + |tail|)
  {
    if v.Some? {
      PutJsonSize(v.value, tail);
    }
  }

  /** Settings take at least their password, and at most 14 bytes without one. */
  lemma PutSettingsSize(s: RoomSettings, tail: Bytes)
    ensures |PutSettings(s, tail)| > |tail| + if s.password.Some? then |s.password.value| else 0
    ensures s.password == None && s.custom == None ==> |PutSettings(s, tail)| == VarintSize(s.maxPlayers) + VarintSize(s.minPlayers) + 4 + |tail|
  {
    hide VarintBytes, PutVarint, PutString, PutOptString, PutCustom;
    var t5 := PutCustom(s.custom, tail);
    var t4 := PutBool(s.acceptRequired, t5);
    var t3 := PutOptString(s.password, t4);
    var t2 := PutBool(s.isPublic, t3);
    var t1 := PutVarint(s.minPlayers, t2);
    PutCustomSize(s.custom, tail);
    PutOptStringSize(s.password, t4);
    PutVarintSize(s.minPlayers, t2);
    PutVarintSize(s.maxPlayers, t1);
  }

  /** An accepted move goes out as a state update of the same size, so it always fits. */
  lemma MoveRelays(blob: Bytes)
    ensures |PutServer(StateUpdate(blob), [])| == |PutClient(Move(blob), [])|
    ensures |PutClient(Move(blob), [])| <= MAX_FRAME_LEN ==> EncodeServer(StateUpdate(blob)).Some?
  {
    hide VarintBytes, PutString;
    PutVarintSize(1, PutString(blob, []));
    PutVarintSize(5, PutString(blob, []));
    OneByteTags();
    hide PutVarint;
  }

  lemma OneByteTags()
    ensures forall t: u64 :: t < 251 ==> VarintSize(t) == 1
  {
  }

  /**
   * A relayed input grows by exactly the sender's id, so it fits if and only if there is room for
   * that; five bytes to spare are enough for every id.
   */
  lemma InputRelays(id: u32, blob: Bytes)
    ensures EncodeServer(PeerInput(id, blob)).Some? <==> |PutClient(Input(blob), [])| + VarintSize(id) <= MAX_FRAME_LEN
    ensures |PutClient(Input(blob), [])| <= MAX_FRAME_LEN - 5 ==> EncodeServer(PeerInput(id, blob)).Some?
  {
    hide VarintBytes, PutString;
    PutVarintSize(2, PutString(blob, []));
    PutVarintSize(4, PutVarint(id, PutString(blob, [])));
    PutVarintSize(id, PutString(blob, []));
    OneByteTags();
    hide PutVarint;
  }

  /** Five spare bytes are also needed: one less, and some sender's input cannot be relayed. */
  lemma InputRelayTight(blob: Bytes)
    requires MAX_FRAME_LEN - 5 < |PutClient(Input(blob), [])| <= MAX_FRAME_LEN
    ensures EncodeServer(PeerInput(U32_MAX, blob)) == None
  {
    InputRelays(U32_MAX, blob);
  }

  /** The state that fits a Joined beside a room code of length `code`, whatever the ids and limits. */
  function JoinedRoom(code: nat): int { 65505 - code }

  /** The size of a Joined with neither password nor custom value, state included. */
  lemma JoinedSize(code: Bytes, id: u32, host: u32, side: byte, settings: RoomSettings, state: Bytes)
    requires |code| < 251 && settings.password == None && settings.custom == None && |state| < 0x1_0000_0000_0000_0000
    ensures |PutServer(Joined(code, id, host, side, settings, Some(state)), [])| ==
            8 + |code| + VarintSize(id) + VarintSize(host) + VarintSize(settings.maxPlayers) + VarintSize(settings.minPlayers)
            + VarintSize(|state|) + |state|
  {
    hide VarintBytes, PutString, PutSettings, PutVarint;
    OneByteTags();
    var t5 := PutOptString(Some(state), []);
    var t4 := [side] + PutSettings(settings, t5);
    var t3 := PutVarint(host, t4);
    var t2 := PutVarint(id, t3);
    PutStringSize(state, []);
    PutSettingsSize(settings, t5);
    PutVarintSize(host, t4);
    PutVarintSize(id, t3);
    PutStringSize(code, t2);
    PutVarintSize(0, PutString(code, t2));
  }

  /**
   * A state of up to 65505 bytes less the room code always reaches a newcomer, whatever the room's
   * settings: 65473 bytes beside the longest code a Hello may carry.
   */
  lemma JoinedFits(code: Bytes, id: u32, host: u32, side: byte, settings: RoomSettings, state: Option<Bytes>)
    requires |code| <= 32 && settings.password == None && settings.custom == None
    requires state.Some? ==> |state.value| <= JoinedRoom(|code|)
    ensures EncodeServer(Joined(code, id, host, side, settings, state)).Some?
  {
    hide PutServer;
    assert forall v: u32 :: VarintSize(v) <= 5;
    if state.Some? {
      JoinedSize(code, id, host, side, settings, state.value);
      assert VarintSize(|state.value|) <= 3;
    } else {
      JoinedSize(code, id, host, side, settings, []);
      NoStateSmaller(code, id, host, side, settings);
      assert VarintSize(0) == 1;
    }
  }

  lemma NoStateSmaller(code: Bytes, id: u32, host: u32, side: byte, settings: RoomSettings)
    requires settings.password == None && settings.custom == None
    ensures |PutServer(Joined(code, id, host, side, settings, None), [])| < |PutServer(Joined(code, id, host, side, settings, Some([])), [])|
  {
    hide VarintBytes;
    var n, s := PutOptString(None, []), PutOptString(Some([]), []);
    PutStringSize([], []);
    PutSettingsSize(settings, n);
    PutSettingsSize(settings, s);
    hide PutSettings;
  }

  /** One byte more can be too much, for any code. */
  lemma JoinedLimitTight(code: Bytes, side: byte, state: Bytes)
    requires |code| <= 32 && |state| == JoinedRoom(|code|) + 1
    ensures EncodeServer(Joined(code, U32_MAX, U32_MAX, side, RoomSettings(U32_MAX, U32_MAX, false, None, false, None), Some(state))) == None
  {
    hide PutServer;
    JoinedSize(code, U32_MAX, U32_MAX, side, RoomSettings(U32_MAX, U32_MAX, false, None, false, None), state);
    assert VarintSize(U32_MAX) == 5 && VarintSize(|state|) == 3;
  }
}
