/**
 * The whole server as a state machine: the pooled rooms, one optional session per connection, the
 * channels that have closed, and everything each open channel was handed so far. A step is one
 * `dispatch` call with the enqueueing of its replies; a Hello from a connection that already has a
 * session counts as its departure followed by the admission. Channels may close at any moment.
 */
module ServerModel {
  import opened Types
  import opened RoomModel
  import RoomCodes

  /** Rooms are found by app key and case-folded room code. */
  datatype Key = Key(appKey: Bytes, code: Bytes)

  datatype Session = Session(key: Key, peer: u32)

  datatype World = World(
    rooms: map<Key, RoomState>,
    sessions: map<ConnId, Session>,
    closed: set<ConnId>,
    sent: map<ConnId, seq<ServerMessage>>)
  {
    function Log(c: ConnId): seq<ServerMessage> { if c in sent then sent[c] else [] }
  }

  const INITIAL: World := World(map[], map[], {}, map[])

  /** Registered apps with the player limits of their configuration, and the shared secret if any. */
  datatype Config = Config(apps: map<Bytes, (u32, u32)>, secret: Bytes)

  function DefaultSettings(limits: (u32, u32)): RoomSettings {
    RoomSettings(limits.1, limits.0, false, None, false, None)
  }

  function FoldByte(b: byte): byte { if 0x61 <= b <= 0x7A then b - 0x20 else b }

  function Fold(s: Bytes): Bytes { seq(|s|, i requires 0 <= i < |s| => FoldByte(s[i])) }

  // ---------- Sending ----------

  /**
   * A channel is handed `script` during a step: all of it if it is open afterwards, none of it if
   * it was closed before, and a prefix if it closed in between.
   */
  ghost predicate Offered(wasClosed: bool, isClosed: bool,
                          before: seq<ServerMessage>, after: seq<ServerMessage>, script: seq<ServerMessage>) {
    && before <= after <= before + script
    && (!isClosed ==> after == before + script)
    && (wasClosed ==> after == before)
  }

  ghost predicate Sends(w: World, w': World, out: Outbox) {
    && w.closed <= w'.closed
    && forall c: ConnId :: Offered(c in w.closed, c in w'.closed, w.Log(c), w'.Log(c), Out(out, c))
  }

  // ---------- Hello ----------

  const MAX_APP_KEY_LEN := 256
  const MAX_ROOM_CODE_LEN := 32
  const MAX_CLIENT_HASH_LEN := 256
  const MAX_DISPLAY_NAME_LEN := 64
  const MAX_AUTH_TOKEN_LEN := 256
  const MAX_PASSWORD_LEN := 128

  predicate NoLonger(s: Option<Bytes>, n: nat) { s.Some? ==> |s.value| <= n }

  function HelloError(cfg: Config, h: HelloFields): Option<Bytes> {
    if |h.appKey| == 0 then Some(Text("app_key is required"))
    else if |h.appKey| > MAX_APP_KEY_LEN then Some(Text("app_key too long"))
    else if |h.roomCode| > MAX_ROOM_CODE_LEN then Some(Text("room_code too long"))
    else if |h.clientHash| == 0 then Some(Text("client_hash is required"))
    else if |h.clientHash| > MAX_CLIENT_HASH_LEN then Some(Text("client_hash too long"))
    else if !NoLonger(h.displayName, MAX_DISPLAY_NAME_LEN) then Some(Text("display_name too long"))
    else if !NoLonger(h.authToken, MAX_AUTH_TOKEN_LEN) then Some(Text("auth_token too long"))
    else if !NoLonger(h.password, MAX_PASSWORD_LEN) then Some(Text("password too long"))
    else if cfg.secret != [] && (if h.authToken.Some? then h.authToken.value else []) != cfg.secret
    then Some(Text("authentication required"))
    else if h.appKey !in cfg.apps then Some(Text("unregistered game type"))
    else None
  }

  /** The free choices of an admission: the generated code, the allocated id, the slot. */
  datatype AdmitTrace = AdmitTrace(code: Option<Bytes>, id: Option<u32>, nextId: u32, side: byte)

  function JoinedMessage(r: RoomState, code: Bytes, id: u32, side: byte): ServerMessage {
    Joined(code, id, r.host, side, Public(r.settings), if r.state == [] then None else Some(r.state))
  }

  function CodeOf(h: HelloFields, a: AdmitTrace): Bytes {
    if h.roomCode != [] then h.roomCode else if a.code.Some? then a.code.value else []
  }

  function KeyOf(h: HelloFields, a: AdmitTrace): Key { Key(h.appKey, Fold(CodeOf(h, a))) }

  /** Why a Hello is turned away before it reaches a room, if it is. */
  function TurnedAway(w: World, cfg: Config, h: HelloFields, a: AdmitTrace): Option<Bytes> {
    if HelloError(cfg, h).Some? then HelloError(cfg, h)
    else if h.roomCode == [] then (if a.code == None then Some(Text("failed to create room")) else None)
    else if KeyOf(h, a) !in w.rooms then Some(Text("room not found"))
    else None
  }

  /** The room a Hello reaches: a fresh one under a free code, or the one it names. */
  ghost predicate Enters(w: World, cfg: Config, h: HelloFields, a: AdmitTrace, key: Key, r: RoomState) {
    && h.appKey in cfg.apps && key == KeyOf(h, a)
    && (if h.roomCode == [] then
          key !in w.rooms && RoomCodes.IsMade(CodeOf(h, a)) && r == NewRoom(h.appKey, CodeOf(h, a), DefaultSettings(cfg.apps[h.appKey]))
        else key in w.rooms && r == w.rooms[key])
  }

  /** The newcomer's record. */
  function Newcomer(h: HelloFields, k: ConnId, side: byte): ClientInfo {
    ClientInfo(h.clientHash, h.displayName, k, side)
  }

  /** What an admission says: the clients already there hear of a newcomer seated among them. */
  function AdmitOutbox(r: RoomState, h: HelloFields, k: ConnId, code: Bytes, id: u32, side: byte): Outbox {
    var r1 := Seat(r, id, Newcomer(h, k, side));
    Reply(if id in r1.clients then Broadcast(r.clients, [PeerJoined(id, h.clientHash, h.displayName)]) else map[],
          k, [JoinedMessage(r1, code, id, side)])
  }

  ghost predicate Admits(w: World, cfg: Config, k: ConnId, h: HelloFields, a: AdmitTrace, key: Key, r: RoomState, w': World) {
    && Enters(w, cfg, h, a, key, r)
    && if Refusal(r, h).Some? then
         && w'.rooms == w.rooms[key := r] && w'.sessions == w.sessions
         && Sends(w, w', map[k := [Error(Refusal(r, h).value)]])
       else
         && Allocates(r, a.id, a.nextId)
         && match a.id
            case None =>
              && w'.rooms == w.rooms[key := r.(nextId := a.nextId)] && w'.sessions == w.sessions
              && Sends(w, w', map[k := [Error(Text("room full"))]])
            case Some(id) =>
              && IsNextSide(r, a.side)
              && w'.rooms == w.rooms[key := Seat(r.(nextId := a.nextId), id, Newcomer(h, k, a.side))]
              && w'.sessions == w.sessions[k := Session(key, id)]
              && Sends(w, w', AdmitOutbox(r.(nextId := a.nextId), h, k, CodeOf(h, a), id, a.side))
  }

  // ---------- The other messages ----------

  /** Nothing changes but what `k` is told. */
  ghost predicate Answers(w: World, k: ConnId, msgs: seq<ServerMessage>, w': World) {
    w'.rooms == w.rooms && w'.sessions == w.sessions && Sends(w, w', map[k := msgs])
  }

  /** One room changes and `out` is said. */
  ghost predicate Touches(w: World, key: Key, r': RoomState, out: Outbox, w': World) {
    w'.rooms == w.rooms[key := r'] && w'.sessions == w.sessions && Sends(w, w', out)
  }

  /** `leave_room` for the session of `k`, which is dropped; an emptied room is reclaimed. */
  ghost predicate Departs(w: World, k: ConnId, lt: LeaveTrace, r': RoomState, w': World) {
    && k in w.sessions
    && var s := w.sessions[k];
       && w'.sessions == w.sessions - {k}
       && if s.key !in w.rooms then
            w'.rooms == w.rooms && Sends(w, w', map[])
          else
            var r := w.rooms[s.key];
            && Leaves(r, s.peer, w.closed, lt, r', w'.closed)
            && w'.rooms == (if r'.Empty() then w.rooms - {s.key} else w.rooms[s.key := r'])
            && Sends(w, w', Broadcast(Without(r, s.peer).clients, LeaveScript(s.peer, lt)))
  }

  /** The public rooms a listing shows, each once, in the pool's iteration order. */
  ghost predicate Lists(w: World, appKey: Bytes, keys: seq<Key>, entries: seq<RoomListEntry>) {
    && NoDup(keys)
    && |entries| == |keys|
    && (forall key :: key in keys <==> key in w.rooms && key.appKey == appKey && w.rooms[key].settings.isPublic && !IsFull(w.rooms[key]))
    && forall i :: 0 <= i < |keys| ==>
         && keys[i] in w.rooms
         && entries[i] == RoomListEntry(w.rooms[keys[i]].code, AsU32(w.rooms[keys[i]].Occupancy()), Public(w.rooms[keys[i]].settings))
  }

  predicate HasRoom(w: World, k: ConnId) { k in w.sessions && w.sessions[k].key in w.rooms }

  /** The free choices of a step. */
  datatype Trace =
    | NoTrace
    | Admission(a: AdmitTrace, entered: RoomState)
    | Pruning(t: PruneTrace, after: RoomState)
    | Listing(keys: seq<Key>, entries: seq<RoomListEntry>)

  /** The reply to a request about a room from a connection that has none. */
  function Missing(w: World, k: ConnId): seq<ServerMessage> {
    if k in w.sessions then [] else [Error(Text("not in a room"))]
  }

  /** The reply to a message that only gets one; None for a message that does more. */
  function Answer(w: World, cfg: Config, k: ConnId, msg: ClientMessage, tr: Trace): Option<seq<ServerMessage>> {
    match msg
    case Hello(h) =>
      if tr.Admission? && TurnedAway(w, cfg, h, tr.a).Some? then Some([Error(TurnedAway(w, cfg, h, tr.a).value)]) else None
    case Move(_) =>
      if !HasRoom(w, k) then Some(Missing(w, k))
      else
        var why := MoveRefusal(w.rooms[w.sessions[k].key], w.sessions[k].peer);
        if why.Some? then Some([MoveRejected(why.value)]) else None
    case Input(_) =>
      if !HasRoom(w, k) then Some(Missing(w, k)) else None
    case RoomControl(c) =>
      if k in w.sessions && c.CreateRoom? then Some([Error(Text("already in a room"))])
      else if !HasRoom(w, k) then Some(Missing(w, k))
      else
        var r := w.rooms[w.sessions[k].key];
        if r.host != w.sessions[k].peer || Command(r, c) == None then Some([Error(Text("forbidden or invalid"))]) else None
    case RequestState =>
      if !HasRoom(w, k) then Some([])
      else
        var blob := w.rooms[w.sessions[k].key].state;
        Some(if blob == [] then [] else [StateUpdate(blob)])
    case Ping => Some([Pong])
    case ListRooms(appKey) =>
      if appKey !in cfg.apps then Some([Error(Text("unregistered game type"))])
      else if tr.Listing? then Some([RoomList(tr.entries)])
      else None
  }

  /** One message from a connection, other than those that give its session up. */
  ghost predicate Says(w: World, cfg: Config, k: ConnId, msg: ClientMessage, tr: Trace, w': World) {
    && (k in w.sessions ==> !msg.Hello? && !(msg.RoomControl? && msg.control.Leave?))
    && match Answer(w, cfg, k, msg, tr)
       case Some(msgs) =>
         && (msg.ListRooms? && tr.Listing? && msg.appKey in cfg.apps ==> Lists(w, msg.appKey, tr.keys, tr.entries))
         && Answers(w, k, msgs, w')
       case None => Acts(w, cfg, k, msg, tr, w')
  }

  /** The messages that reach a room. */
  ghost predicate Acts(w: World, cfg: Config, k: ConnId, msg: ClientMessage, tr: Trace, w': World) {
    match msg
    case Hello(h) =>
      tr.Admission? && Admits(w, cfg, k, h, tr.a, KeyOf(h, tr.a), tr.entered, w')
    case Move(blob) =>
      && HasRoom(w, k) && tr.Pruning?
      && var r := w.rooms[w.sessions[k].key].(state := blob);
         && PrunesState(r, w.closed, tr.t, tr.after, w'.closed)
         && Touches(w, w.sessions[k].key, tr.after, Reply(StateOutbox(r, tr.t), k, [MoveAccepted]), w')
    case Input(blob) =>
      && HasRoom(w, k)
      && var s := w.sessions[k];
         Touches(w, s.key, w.rooms[s.key], InputOutbox(w.rooms[s.key], s.peer, blob), w')
    case RoomControl(c) =>
      && HasRoom(w, k) && tr.Pruning? && Command(w.rooms[w.sessions[k].key], c).Some?
      && var plan := Command(w.rooms[w.sessions[k].key], c).value;
         && Executes(plan, w.closed, tr.t, tr.after, w'.closed)
         && Touches(w, w.sessions[k].key, tr.after, PlanOutbox(plan, tr.t), w')
    case _ => false
  }

  datatype Step =
    | Closing(conns: set<ConnId>)
    | Departure(conn: ConnId, lt: LeaveTrace, after: RoomState)
    | Message(conn: ConnId, msg: ClientMessage, trace: Trace)

  ghost predicate Next(cfg: Config, w: World, step: Step, w': World) {
    match step
    case Closing(cs) => w' == w.(closed := w.closed + cs)
    case Departure(k, lt, after) => Departs(w, k, lt, after, w')
    case Message(k, msg, tr) => Says(w, cfg, k, msg, tr, w')
  }

  /** Channels close only between messages, never while one is being handled. */
  ghost predicate Calm(w: World, step: Step, w': World) { step.Closing? || w'.closed == w.closed }
}
