/**
 * One room as a value: its members, who leads it, and what each operation on it does.
 * The `Room` class carries these out in place; the run theorems reason about them here.
 */
module RoomModel {
  import opened Types

  /** Identity of a connection's outgoing channel. */
  type ConnId = nat

  datatype ClientInfo = ClientInfo(hash: Bytes, name: Option<Bytes>, conn: ConnId, side: byte)

  datatype RoomState = RoomState(
    appKey: Bytes,
    code: Bytes,
    host: u32,
    clients: map<u32, ClientInfo>,
    pending: map<u32, ClientInfo>,
    state: Bytes,
    settings: RoomSettings,
    banned: set<Bytes>,
    nextId: u32)
  {
    predicate Empty() { clients == map[] && pending == map[] }

    predicate InUse(id: u32) { id in clients || id in pending }

    /** Accepted and waiting peers together. */
    function Members(): map<u32, ClientInfo> { clients + pending }

    function Occupancy(): nat { |clients| + |pending| }
  }

  function NewRoom(appKey: Bytes, code: Bytes, settings: RoomSettings): RoomState {
    RoomState(appKey, code, 0, map[], map[], [], settings, {}, 1)
  }

  /** No id is both accepted and waiting, and no channel serves two members. */
  ghost predicate DistinctConns(r: RoomState) {
    && r.clients.Keys !! r.pending.Keys
    && forall p, q :: p in r.Members() && q in r.Members() && r.Members()[p].conn == r.Members()[q].conn ==> p == q
  }

  function Conns(m: map<u32, ClientInfo>): set<ConnId> { set p | p in m :: m[p].conn }

  function Sides(m: map<u32, ClientInfo>): set<byte> { set p | p in m :: m[p].side }

  // ---------- Peer ids ----------

  function SaturatingInc(id: u32): u32 { if id == U32_MAX then U32_MAX else id + 1 }

  /** `lo <= id < hi` are all taken. */
  ghost predicate Taken(r: RoomState, lo: int, hi: int) {
    forall id: u32 :: lo <= id < hi ==> r.InUse(id)
  }

  /**
   * What allocating an id may return and where it leaves the counter: the counter itself when
   * that is free, else the first free id in cyclic order after it, else nothing.
   */
  ghost predicate Allocates(r: RoomState, got: Option<u32>, nextId: u32) {
    var start := SaturatingInc(r.nextId);
    if !r.InUse(r.nextId) then
      got == Some(r.nextId) && nextId == start
    else match got
      case None => nextId == start && Taken(r, 1, U32_MAX + 1)
      case Some(id) =>
        && !r.InUse(id) && 1 <= id && nextId == SaturatingInc(id)
        && (if start <= id then Taken(r, start, id) else Taken(r, start, U32_MAX + 1) && Taken(r, 1, id))
  }

  // ---------- Side slots ----------

  function MaxSide(s: RoomSettings): byte {
    if s.maxPlayers == 0 || s.maxPlayers > 255 then 255 else s.maxPlayers
  }

  function UsedSides(r: RoomState): set<byte> { Sides(r.clients) + Sides(r.pending) }

  /** The lowest unused slot in the inclusive scan, or 0 when the scan finds none. */
  ghost predicate IsNextSide(r: RoomState, side: byte) {
    if exists s: byte :: s <= MaxSide(r.settings) && s !in UsedSides(r) then
      side <= MaxSide(r.settings) && side !in UsedSides(r) && forall s: byte :: s < side ==> s in UsedSides(r)
    else side == 0
  }

  // ---------- Admission ----------

  /** `as u32` on a count. */
  function AsU32(n: nat): u32 { n % 0x1_0000_0000 }

  predicate IsFull(r: RoomState) {
    r.settings.maxPlayers != 0 && AsU32(r.Occupancy()) >= r.settings.maxPlayers
  }

  /** The refusal a Hello meets at the room's door, if any: ban, capacity, password. */
  function Refusal(r: RoomState, h: HelloFields): Option<Bytes> {
    if h.clientHash in r.banned then Some(Text("banned from this room"))
    else if IsFull(r) then Some(Text("room full"))
    else if r.settings.password.Some? &&
            (if h.password.Some? then h.password.value else []) != r.settings.password.value
    then Some(Text("invalid or missing room password"))
    else None
  }

  /** Seats a newcomer: as host of an empty room, in the waiting list, or among the clients. */
  function Seat(r: RoomState, id: u32, info: ClientInfo): RoomState {
    if r.Empty() then r.(host := id, clients := r.clients[id := info])
    else if r.settings.acceptRequired then r.(pending := r.pending[id := info])
    else r.(clients := r.clients[id := info])
  }

  function Public(s: RoomSettings): RoomSettings { s.(password := None) }

  // ---------- Broadcast and prune ----------

  type Outbox = map<ConnId, seq<ServerMessage>>

  function Broadcast(m: map<u32, ClientInfo>, script: seq<ServerMessage>): Outbox {
    map c | c in Conns(m) :: script
  }

  function Out(out: Outbox, c: ConnId): seq<ServerMessage> { if c in out then out[c] else [] }

  /** The same outbox with more said to one connection, last. */
  function Reply(out: Outbox, c: ConnId, msgs: seq<ServerMessage>): Outbox { out[c := Out(out, c) + msgs] }

  /**
   * What one broadcast-and-prune met: the dead peers it announced, in order, those found dead only
   * by the closing HostTransferred broadcast, and the leader that broadcast named.
   */
  datatype PruneTrace = PruneTrace(announced: seq<u32>, silent: set<u32>, transferred: Option<u32>)
  {
    ghost function Gone(): set<u32> { Ids(announced) + silent }
  }

  function Farewells(ids: seq<u32>): seq<ServerMessage> {
    seq(|ids|, i requires 0 <= i < |ids| => PeerLeft(ids[i]))
  }

  function Succession(t: Option<u32>): seq<ServerMessage> {
    if t.Some? then [RoomEvent(HostTransferred(t.value))] else []
  }

  /** Everything a client that stays hears from one broadcast-and-prune of `msg`. */
  function PruneScript(msg: ServerMessage, t: PruneTrace): seq<ServerMessage> {
    [msg] + Farewells(t.announced) + Succession(t.transferred)
  }

  ghost function Ids(s: seq<u32>): set<u32> { set p | p in s }

  ghost predicate NoDup<T>(s: seq<T>) { forall i, j :: 0 <= i < j < |s| ==> s[i] != s[j] }

  /** Who leads afterwards, and what was announced about it. `r` is the room before, `r'` after. */
  ghost predicate Succeeds(r: RoomState, t: PruneTrace, r': RoomState) {
    if r.host !in t.announced then
      r'.host == r.host && t.transferred == None && t.silent == {}
    else if r'.clients == map[] then
      r'.host == 0
    else
      && r'.host in r'.clients
      && t.transferred.Some?
      && (t.transferred.value !in t.silent ==> t.transferred.value == r'.host)
  }

  /**
   * `broadcast_and_prune`, whatever closes meanwhile: only closed clients go, those closed from the
   * start all go and are announced, and the lead passes on as `Succeeds` says.
   */
  ghost predicate Prunes(r: RoomState, closed: set<ConnId>, t: PruneTrace, r': RoomState, closed': set<ConnId>) {
    && closed <= closed'
    && NoDup(t.announced)
    && (forall p :: p in t.silent ==> p !in t.announced)
    && t.Gone() <= r.clients.Keys
    && r' == r.(clients := r.clients - t.Gone(), host := r'.host)
    && (forall p :: p in t.Gone() ==> r.clients[p].conn in closed')
    && (forall p :: p in r.clients && r.clients[p].conn in closed ==> p in t.announced)
    && Succeeds(r, t, r')
  }

  /** `broadcast_state_update_and_prune`: waiting peers hear the state too, and may be found dead. */
  ghost predicate PrunesState(r: RoomState, closed: set<ConnId>, t: PruneTrace, r': RoomState, closed': set<ConnId>) {
    && closed <= closed'
    && NoDup(t.announced)
    && (forall p :: p in t.silent ==> p !in t.announced)
    && t.Gone() <= r.Members().Keys
    && t.silent <= r.clients.Keys
    && r' == r.(clients := r.clients - t.Gone(), pending := r.pending - t.Gone(), host := r'.host)
    && (forall p :: p in t.Gone() ==> r.Members()[p].conn in closed')
    && (forall p :: p in r.Members() && r.Members()[p].conn in closed ==> p in t.announced)
    && Succeeds(r, t, r')
  }

  /** What everyone hears from an accepted move: waiting peers get the state and nothing else. */
  function StateOutbox(r: RoomState, t: PruneTrace): Outbox {
    map c | c in Conns(r.clients) + Conns(r.pending) ::
      if c in Conns(r.clients) then PruneScript(StateUpdate(r.state), t) else [StateUpdate(r.state)]
  }

  // ---------- Leaving ----------

  function Without(r: RoomState, id: u32): RoomState {
    r.(clients := r.clients - {id}, pending := r.pending - {id})
  }

  /** The two prunes of `leave_room`, the room between them, and the leader elected there. */
  datatype LeaveTrace = LeaveTrace(
    first: PruneTrace, mid: RoomState, midClosed: set<ConnId>, elected: Option<u32>, second: PruneTrace)

  function LeaveScript(id: u32, lt: LeaveTrace): seq<ServerMessage> {
    PruneScript(PeerLeft(id), lt.first) +
    (if lt.elected.Some? then PruneScript(RoomEvent(HostTransferred(lt.elected.value)), lt.second) else [])
  }

  ghost predicate Leaves(r: RoomState, id: u32, closed: set<ConnId>, lt: LeaveTrace, r': RoomState, closed': set<ConnId>) {
    && Prunes(Without(r, id), closed, lt.first, lt.mid, lt.midClosed)
    && (if lt.mid.host == id && lt.mid.clients != map[] then
          && lt.elected.Some? && lt.elected.value in lt.mid.clients
          && Prunes(lt.mid.(host := lt.elected.value), lt.midClosed, lt.second, r', closed')
        else
          lt.elected == None && r' == lt.mid && closed' == lt.midClosed)
  }

  // ---------- Host commands ----------

  /** What a host command does before pruning: the new room, private notices, the broadcast. */
  datatype Plan = Plan(room: RoomState, notices: Outbox, say: Option<ServerMessage>)

  function Expel(r: RoomState, id: u32, notice: Event, banned: set<Bytes>): Plan {
    Plan(r.(clients := r.clients - {id}, banned := banned),
         if id in r.clients then map[r.clients[id].conn := [RoomEvent(notice)]] else map[],
         Some(PeerLeft(id)))
  }

  /** The effect of a control message sent by the host; None for those a host may not send here. */
  function Command(r: RoomState, c: Control): Option<Plan> {
    match c
    case UpdateSettings(s) =>
      Some(Plan(r.(settings := s), map[], Some(RoomEvent(SettingsChanged(Public(s))))))
    case SetPublic(b) =>
      Some(Plan(r.(settings := r.settings.(isPublic := b)), map[], None))
    case AcceptPeer(id) =>
      if id in r.pending then
        var info := r.pending[id];
        Some(Plan(r.(pending := r.pending - {id}, clients := r.clients[id := info]), map[],
                  Some(PeerJoined(id, info.hash, info.name))))
      else Some(Plan(r, map[], None))
    case DenyPeer(id) =>
      if id in r.pending then
        Some(Plan(r.(pending := r.pending - {id}), map[r.pending[id].conn := [RoomEvent(Kicked)]], None))
      else Some(Plan(r, map[], None))
    case Kick(id) => Some(Expel(r, id, Kicked, r.banned))
    case Ban(id) => Some(Expel(r, id, Banned, if id in r.clients then r.banned + {r.clients[id].hash} else r.banned))
    case TransferHost(id) =>
      if id in r.clients then Some(Plan(r.(host := id), map[], Some(RoomEvent(HostTransferred(id)))))
      else Some(Plan(r, map[], None))
    case _ => None
  }

  /** Carries a plan out: with something to say it is broadcast and dead peers are pruned. */
  ghost predicate Executes(p: Plan, closed: set<ConnId>, t: PruneTrace, r': RoomState, closed': set<ConnId>) {
    if p.say.Some? then Prunes(p.room, closed, t, r', closed') else r' == p.room && closed <= closed'
  }

  function PlanOutbox(p: Plan, t: PruneTrace): Outbox {
    if p.say.Some? then p.notices + Broadcast(p.room.clients, PruneScript(p.say.value, t)) else p.notices
  }

  // ---------- Moves and inputs ----------

  /** Why a move is refused, if it is: wrong sender, or too few accepted players. */
  function MoveRefusal(r: RoomState, id: u32): Option<Bytes> {
    if r.host != id then Some(Text("only host can send moves"))
    else if r.settings.minPlayers > 0 && AsU32(|r.clients|) < r.settings.minPlayers then
      Some(Text("minimum " + Decimal(r.settings.minPlayers) + " players required to start"))
    else None
  }

  function InputOutbox(r: RoomState, id: u32, blob: Bytes): Outbox {
    if r.host != id && r.host in r.clients then map[r.clients[r.host].conn := [PeerInput(id, blob)]] else map[]
  }
}
