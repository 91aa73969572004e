/** Values shared by the room server and the wire codec. */
module Types {

  datatype Option<+T> = None | Some(value: T)
  {
    predicate IsFailure() { None? }
    function PropagateFailure<U>(): Option<U> { None }
    function Extract(): T
      requires Some?
    {
      value
    }
  }

  type byte = x: int | 0 <= x < 0x100
  type u32 = x: int | 0 <= x < 0x1_0000_0000
  type u64 = x: int | 0 <= x < 0x1_0000_0000_0000_0000

  /** Strings travel as their UTF-8 bytes; their contents are never inspected beyond that. */
  type Bytes = seq<byte>

  const U32_MAX: u32 := 0xFFFF_FFFF
  const MAX_FRAME_LEN: nat := 64 * 1024

  /** The variants of the game-specific `custom` value, as the client's skipper documents them. */
  datatype JsonValue =
    | Null
    | Bool(b: bool)
    | Number(bits: Bytes)
    | String(text: Bytes)
    | Array(items: seq<JsonValue>)
    | Object(keys: seq<Bytes>, values: seq<JsonValue>)

  datatype RoomSettings = RoomSettings(
    maxPlayers: u32,
    minPlayers: u32,
    isPublic: bool,
    password: Option<Bytes>,
    acceptRequired: bool,
    custom: Option<JsonValue>)

  datatype HelloFields = HelloFields(
    appKey: Bytes,
    roomCode: Bytes,
    clientHash: Bytes,
    displayName: Option<Bytes>,
    authToken: Option<Bytes>,
    password: Option<Bytes>)

  datatype ClientMessage =
    | Hello(hello: HelloFields)
    | Move(blob: Bytes)
    | Input(blob: Bytes)
    | RoomControl(control: Control)
    | RequestState
    | Ping
    | ListRooms(appKey: Bytes)

  datatype Control =
    | CreateRoom(settings: RoomSettings)
    | UpdateSettings(settings: RoomSettings)
    | SetPublic(isPublic: bool)
    | AcceptPeer(peer: u32)
    | DenyPeer(peer: u32)
    | Kick(peer: u32)
    | Ban(peer: u32)
    | TransferHost(peer: u32)
    | Leave

  datatype RoomListEntry = RoomListEntry(roomCode: Bytes, playerCount: u32, settings: RoomSettings)

  datatype ServerMessage =
    | Joined(roomCode: Bytes, peerId: u32, hostPeerId: u32, side: byte,
             settings: RoomSettings, initialState: Option<Bytes>)
    | RoomList(rooms: seq<RoomListEntry>)
    | PeerJoined(peerId: u32, clientHash: Bytes, displayName: Option<Bytes>)
    | PeerLeft(peerId: u32)
    | PeerInput(peerId: u32, blob: Bytes)
    | StateUpdate(blob: Bytes)
    | MoveAccepted
    | MoveRejected(reason: Bytes)
    | RoomEvent(event: Event)
    | Pong
    | Error(message: Bytes)

  datatype Event =
    | HostTransferred(peer: u32)
    | Kicked
    | Banned
    | SettingsChanged(settings: RoomSettings)

  /** The bytes of a text the server writes itself. */
  function Text(s: string): Bytes {
    seq(|s|, i requires 0 <= i < |s| => s[i] as int % 0x100)
  }

  /** Decimal digits of a number, as `format!("{}", n)` writes them. */
  function Decimal(n: nat): string {
    var digit := ['0' + (n % 10) as char];
    if n < 10 then digit else Decimal(n / 10) + digit
  }

  lemma {:induction false} SubsetSize<T>(a: set<T>, b: set<T>)
    requires a <= b
    ensures |a| <= |b|
  {
    if a != {} {
      var x :| x in a;
      SubsetSize(a - {x}, b - {x});
    }
  }
}
