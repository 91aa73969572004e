/**
 * What the server makes of a client message. Its decoder follows the declared layout strictly:
 * flags and option tags are 0 or 1, 32-bit numbers fit, tags are known, at most a frame's worth of
 * bytes is read; bytes after the message are allowed.
 */
module ServerDecoding {
  import opened Types
  import opened Wire
  import Messages
  import RoomCodes

  function TakeU32(d: Bytes): Parsed<u32> {
    var (v, rest) :- ReadVarint(d);
    if v < 0x1_0000_0000 then Got(v, rest) else Failed
  }

  function TakeBool(d: Bytes): Parsed<bool> {
    var (b, rest) :- ReadU8(d);
    if b <= 1 then Got(b == 1, rest) else Failed
  }

  function TakeString(d: Bytes): Parsed<Bytes> { ReadBlock(d, 0xFFFF_FFFF_FFFF_FFFF) }

  function TakeOptString(d: Bytes): Parsed<Option<Bytes>> {
    var (tag, rest) :- ReadU8(d);
    if tag == 0 then Got(None, rest)
    else if tag == 1 then
      var (s, rest') :- TakeString(rest);
      Got(Some(s), rest')
    else Failed
  }

  /** A game-specific value cannot be decoded from a format that does not describe itself. */
  function TakeSettings(d: Bytes): Parsed<RoomSettings> {
    var (maxPlayers, d1) :- TakeU32(d);
    var (minPlayers, d2) :- TakeU32(d1);
    var (isPublic, d3) :- TakeBool(d2);
    var (password, d4) :- TakeOptString(d3);
    var (acceptRequired, d5) :- TakeBool(d4);
    var (tag, d6) :- ReadU8(d5);
    if tag == 0 then Got(RoomSettings(maxPlayers, minPlayers, isPublic, password, acceptRequired, None), d6) else Failed
  }

  function TakeControl(d: Bytes): Parsed<Control> {
    var (tag, d1) :- TakeU32(d);
    match tag
    case 0 => var (s, d2) :- TakeSettings(d1); Got(CreateRoom(s), d2)
    case 1 => var (s, d2) :- TakeSettings(d1); Got(UpdateSettings(s), d2)
    case 2 => var (b, d2) :- TakeBool(d1); Got(SetPublic(b), d2)
    case 3 => var (id, d2) :- TakeU32(d1); Got(AcceptPeer(id), d2)
    case 4 => var (id, d2) :- TakeU32(d1); Got(DenyPeer(id), d2)
    case 5 => var (id, d2) :- TakeU32(d1); Got(Kick(id), d2)
    case 6 => var (id, d2) :- TakeU32(d1); Got(Ban(id), d2)
    case 7 => var (id, d2) :- TakeU32(d1); Got(TransferHost(id), d2)
    case 8 => Got(Leave, d1)
    case _ => Failed
  }

  function TakeHello(d: Bytes): (r: Parsed<ClientMessage>)
    ensures r.Got? ==> r.value.Hello?
  {
    var (appKey, d1) :- TakeString(d);
    var (code, d2) :- TakeString(d1);
    var (hash, d3) :- TakeString(d2);
    var (name, d4) :- TakeOptString(d3);
    var (token, d5) :- TakeOptString(d4);
    var (password, d6) :- TakeOptString(d5);
    Got(Hello(HelloFields(appKey, RoomCodes.Normalise(code), hash, name, token, password)), d6)
  }

  function TakeClient(d: Bytes): Parsed<ClientMessage> {
    var (tag, d1) :- TakeU32(d);
    match tag
    case 0 => TakeHello(d1)
    case 1 => var (blob, d2) :- TakeString(d1); Got(Move(blob), d2)
    case 2 => var (blob, d2) :- TakeString(d1); Got(Input(blob), d2)
    case 3 => var (c, d2) :- TakeControl(d1); Got(RoomControl(c), d2)
    case 4 => Got(RequestState, d1)
    case 5 => Got(Ping, d1)
    case 6 => var (appKey, d2) :- TakeString(d1); Got(ListRooms(appKey), d2)
    case _ => Failed
  }

  /** `ClientMessage::decode`, with the limit on bytes read. */
  function DecodeClient(d: Bytes): Option<ClientMessage> {
    match TakeClient(d)
    case Failed => None
    case Got(m, rest) => if |d| - |rest| <= MAX_FRAME_LEN then Some(m) else None
  }

  // ---------- No game-specific value gets in ----------

  lemma TakenSettingsPlain(d: Bytes)
    requires TakeSettings(d).Got?
    ensures TakeSettings(d).value.custom == None
  {
    hide TakeU32, TakeBool, TakeOptString, ReadU8;
  }

  lemma TakenControlPlain(d: Bytes)
    requires TakeControl(d).Got?
    ensures var c := TakeControl(d).value;
            (c.UpdateSettings? ==> c.settings.custom == None) && (c.CreateRoom? ==> c.settings.custom == None)
  {
    hide TakeU32, TakeBool, TakeSettings;
    var d1 := TakeU32(d).rest;
    if TakeSettings(d1).Got? {
      TakenSettingsPlain(d1);
    }
  }

  /** Settings that reach the server never hold a game-specific value. */
  lemma DecodedPlain(d: Bytes)
    requires DecodeClient(d).Some? && DecodeClient(d).value.RoomControl?
    ensures var c := DecodeClient(d).value.control;
            (c.UpdateSettings? ==> c.settings.custom == None) && (c.CreateRoom? ==> c.settings.custom == None)
  {
    hide TakeU32, TakeString, TakeControl, TakeHello;
    assert TakeU32(d).Got?;
    TakenControlPlain(TakeU32(d).rest);
  }

  // ---------- What is refused ----------

  lemma RefusesFlags(b: byte, tail: Bytes)
    requires b > 1
    ensures TakeBool([b] + tail) == Failed && TakeOptString([b] + tail) == Failed
  {
    U8RoundTrip(b, tail);
  }

  /** Unknown tags and numbers that need more than 32 bits are refused. */
  lemma RefusesTags(v: u64, tail: Bytes)
    ensures v > U32_MAX ==> TakeU32(PutVarint(v, tail)) == Failed
    ensures v > 6 ==> TakeClient(PutVarint(v, tail)) == Failed
    ensures v > 8 ==> TakeControl(PutVarint(v, tail)) == Failed
  {
    hide PutVarint, ReadVarint;
    VarintRoundTrip(v, tail);
  }

  /** Only settings without a game-specific value can be read. */
  lemma RefusesCustom(s: RoomSettings, b: byte, tail: Bytes)
    requires b > 0 && Countable(s.password)
    ensures TakeSettings(PutVarint(s.maxPlayers, PutVarint(s.minPlayers, PutBool(s.isPublic, PutOptString(s.password,
              PutBool(s.acceptRequired, [b] + tail)))))) == Failed
  {
    hide TakeU32, TakeBool, TakeOptString, ReadU8, PutVarint, PutOptString, PutBool;
    var t5 := [b] + tail;
    var t4 := PutBool(s.acceptRequired, t5);
    var t3 := PutOptString(s.password, t4);
    var t2 := PutBool(s.isPublic, t3);
    TakesU32(s.maxPlayers, PutVarint(s.minPlayers, t2));
    TakesU32(s.minPlayers, t2);
    TakesBool(s.isPublic, t3);
    TakesOptString(s.password, t4);
    TakesBool(s.acceptRequired, t5);
    U8RoundTrip(b, tail);
  }

  // ---------- Round trips ----------

  lemma TakesU32(v: u32, tail: Bytes)
    ensures TakeU32(PutVarint(v, tail)) == Got(v, tail)
  {
    VarintRoundTrip(v, tail);
  }

  lemma TakesBool(b: bool, tail: Bytes)
    ensures TakeBool(PutBool(b, tail)) == Got(b, tail)
  {
    U8RoundTrip(if b then 1 else 0, tail);
  }

  lemma TakesString(s: Bytes, tail: Bytes)
    requires |s| < 0x1_0000_0000_0000_0000
    ensures TakeString(PutString(s, tail)) == Got(s, tail)
  {
    BlockRoundTrip(s, tail, 0xFFFF_FFFF_FFFF_FFFF);
  }

  lemma TakesOptString(s: Option<Bytes>, tail: Bytes)
    requires s.Some? ==> |s.value| < 0x1_0000_0000_0000_0000
    ensures TakeOptString(PutOptString(s, tail)) == Got(s, tail)
  {
    match s
    case None => U8RoundTrip(0, tail);
    case Some(t) =>
      U8RoundTrip(1, PutString(t, tail));
      TakesString(t, tail);
  }

  predicate Countable(s: Option<Bytes>) { s.Some? ==> |s.value| < 0x1_0000_0000_0000_0000 }

  lemma TakesSettings(s: RoomSettings, tail: Bytes)
    requires Countable(s.password) && s.custom == None
    ensures TakeSettings(Messages.PutSettings(s, tail)) == Got(s, tail)
  {
    hide TakeU32, TakeBool, TakeOptString, ReadU8, PutVarint, PutOptString, PutBool;
    var t5 := Messages.PutCustom(s.custom, tail);
    var t4 := PutBool(s.acceptRequired, t5);
    var t3 := PutOptString(s.password, t4);
    var t2 := PutBool(s.isPublic, t3);
    TakesU32(s.maxPlayers, PutVarint(s.minPlayers, t2));
    TakesU32(s.minPlayers, t2);
    TakesBool(s.isPublic, t3);
    TakesOptString(s.password, t4);
    TakesBool(s.acceptRequired, t5);
    U8RoundTrip(0, tail);
  }

  /** What a client writes: strings a u64 can count, settings without a game-specific value. */
  predicate Writable(m: ClientMessage) {
    match m
    case Hello(h) =>
      && |h.appKey| < 0x1_0000_0000_0000_0000 && |h.roomCode| < 0x1_0000_0000_0000_0000 && |h.clientHash| < 0x1_0000_0000_0000_0000
      && Countable(h.displayName) && Countable(h.authToken) && Countable(h.password)
    case Move(blob) => |blob| < 0x1_0000_0000_0000_0000
    case Input(blob) => |blob| < 0x1_0000_0000_0000_0000
    case RoomControl(CreateRoom(s)) => Countable(s.password) && s.custom == None
    case RoomControl(UpdateSettings(s)) => Countable(s.password) && s.custom == None
    case ListRooms(appKey) => |appKey| < 0x1_0000_0000_0000_0000
    case _ => true
  }

  lemma TakesControl(c: Control, tail: Bytes)
    requires Writable(RoomControl(c))
    ensures TakeControl(Messages.PutControl(c, tail)) == Got(c, tail)
  {
    hide TakeU32, TakeBool, TakeSettings, PutVarint, PutBool, Messages.PutSettings;
    match c
    case CreateRoom(s) =>
      TakesU32(0, Messages.PutSettings(s, tail));
      TakesSettings(s, tail);
    case UpdateSettings(s) =>
      TakesU32(1, Messages.PutSettings(s, tail));
      TakesSettings(s, tail);
    case SetPublic(b) =>
      TakesU32(2, PutBool(b, tail));
      TakesBool(b, tail);
    case AcceptPeer(id) =>
      TakesU32(3, PutVarint(id, tail));
      TakesU32(id, tail);
    case DenyPeer(id) =>
      TakesU32(4, PutVarint(id, tail));
      TakesU32(id, tail);
    case Kick(id) =>
      TakesU32(5, PutVarint(id, tail));
      TakesU32(id, tail);
    case Ban(id) =>
      TakesU32(6, PutVarint(id, tail));
      TakesU32(id, tail);
    case TransferHost(id) =>
      TakesU32(7, PutVarint(id, tail));
      TakesU32(id, tail);
    case Leave => TakesU32(8, tail);
  }

  lemma TakesHello(h: HelloFields, tail: Bytes)
    requires Writable(Hello(h))
    ensures TakeClient(Messages.PutClient(Hello(h), tail)) == Got(Hello(h.(roomCode := RoomCodes.Normalise(h.roomCode))), tail)
  {
    hide TakeU32, TakeString, TakeOptString, PutVarint, PutString, PutOptString, RoomCodes.Normalise;
    var t6 := PutOptString(h.password, tail);
    var t5 := PutOptString(h.authToken, t6);
    var t4 := PutOptString(h.displayName, t5);
    var t3 := PutString(h.clientHash, t4);
    var t2 := PutString(h.roomCode, t3);
    TakesU32(0, PutString(h.appKey, t2));
    TakesString(h.appKey, t2);
    TakesString(h.roomCode, t3);
    TakesString(h.clientHash, t4);
    TakesOptString(h.displayName, t5);
    TakesOptString(h.authToken, t6);
    TakesOptString(h.password, tail);
  }

  /** The message the server works with: the room code normalised, all else as written. */
  function Understood(m: ClientMessage): ClientMessage {
    if m.Hello? then Hello(m.hello.(roomCode := RoomCodes.Normalise(m.hello.roomCode))) else m
  }

  /** The server reads back every message the client's encoders write, and reads exactly its bytes. */
  lemma ClientRoundTrip(m: ClientMessage, tail: Bytes)
    requires Writable(m)
    ensures TakeClient(Messages.PutClient(m, tail)) == Got(Understood(m), tail)
  {
    hide TakeU32, TakeString, TakeControl, PutVarint, PutString, Messages.PutControl, TakeHello;
    match m
    case Hello(h) => TakesHello(h, tail);
    case Move(blob) =>
      TakesU32(1, PutString(blob, tail));
      TakesString(blob, tail);
    case Input(blob) =>
      TakesU32(2, PutString(blob, tail));
      TakesString(blob, tail);
    case RoomControl(c) =>
      TakesU32(3, Messages.PutControl(c, tail));
      TakesControl(c, tail);
    case RequestState => TakesU32(4, tail);
    case Ping => TakesU32(5, tail);
    case ListRooms(appKey) =>
      TakesU32(6, PutString(appKey, tail));
      TakesString(appKey, tail);
  }

  /** A message that fits a frame reaches the server as understood, whatever trails it. */
  lemma SentIsUnderstood(m: ClientMessage, tail: Bytes)
    requires Writable(m) && |Messages.PutClient(m, tail)| <= MAX_FRAME_LEN + |tail|
    ensures DecodeClient(Messages.PutClient(m, tail)) == Some(Understood(m))
  {
    ClientRoundTrip(m, tail);
  }

  /** Understanding is stable, and changes nothing about a Hello that names a code of the server's. */
  lemma UnderstoodStable(m: ClientMessage)
    ensures Understood(Understood(m)) == Understood(m)
    ensures m.Hello? && (m.hello.roomCode == [] || RoomCodes.IsMade(m.hello.roomCode)) ==> Understood(m) == m
  {
    if m.Hello? {
      RoomCodes.NormaliseIdempotent(m.hello.roomCode);
      if RoomCodes.IsMade(m.hello.roomCode) {
        RoomCodes.GeneratedCodesNormal(m.hello.roomCode);
      }
    }
  }
}
