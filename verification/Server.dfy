/**
 * The room server, changed in place by its message handlers. Every handler is proved to take the
 * server from one world of a run to the next, so whatever holds of all runs holds of this object.
 */
module ServerObjects {
  import opened Types
  import opened RoomModel
  import opened ServerModel
  import opened Ownership
  import opened Runs
  import opened Networking
  import Pruning
  import opened RoomObjects
  import opened Delivery
  import opened RoomCodes

  /** No two keys lead to the same room object. */
  ghost predicate Separate(rooms: map<Key, Room>) {
    forall a, b :: a in rooms && b in rooms && rooms[a] == rooms[b] ==> a == b
  }

  // ---------- Host commands, on one room ----------

  lemma RemovedUnheard(r: RoomState, id: u32)
    requires DistinctConns(r) && id in r.clients
    ensures r.clients[id].conn !in Conns(r.clients - {id})
  {
    assert forall p :: p in r.clients ==> r.Members()[p] == r.clients[p];
  }

  lemma ExpelSends(r: RoomState, id: u32, notice: Event, banned: set<Bytes>, n: NetState, n1: NetState, t: PruneTrace, r': RoomState, n2: NetState)
    requires DistinctConns(r) && id in r.clients
    requires Exchanged(n, n1, map[r.clients[id].conn := [RoomEvent(notice)]])
    requires Pruning.Finished(Expel(r, id, notice, banned).room, n1, PeerLeft(id), false, t, r', n2)
    ensures Exchanged(n, n2, PlanOutbox(Expel(r, id, notice, banned), t))
    ensures Executes(Expel(r, id, notice, banned), n.closed, t, r', n2.closed)
  {
    hide Pruning.Spoken, PruneScript, Conns, DistinctConns, Prunes, Offered;
    var plan := Expel(r, id, notice, banned);
    var out2 := Broadcast(plan.room.clients, PruneScript(PeerLeft(id), t));
    PruneExchange(plan.room, n1, PeerLeft(id), t, r', n2);
    PrunesFromEarlier(plan.room, n.closed, n1.closed, t, r', n2.closed);
    RemovedUnheard(r, id);
    hide Exchanged;
    ThenSaid(n, n1, n2, plan.notices, out2, PlanOutbox(plan, t));
  }

  lemma SaySends(plan: Plan, n: NetState, t: PruneTrace, r': RoomState, n': NetState)
    requires plan.notices == map[] && plan.say.Some? && Pruning.Finished(plan.room, n, plan.say.value, false, t, r', n')
    ensures Exchanged(n, n', PlanOutbox(plan, t)) && Executes(plan, n.closed, t, r', n'.closed)
  {
    PruneExchange(plan.room, n, plan.say.value, t, r', n');
    assert map[] + Broadcast(plan.room.clients, PruneScript(plan.say.value, t)) == Broadcast(plan.room.clients, PruneScript(plan.say.value, t));
  }

  const NO_PRUNE := PruneTrace([], {}, None)

  /** A control message from the host: false when it is not one a host may send here. */
  method Perform(room: Room, net: Network, c: Control) returns (ok: bool, ghost t: PruneTrace)
    requires NetOk(net.View()) && DistinctConns(room.View())
    modifies room, net
    ensures NetOk(net.View())
    ensures ok <==> Command(old(room.View()), c).Some?
    ensures ok ==> var plan := Command(old(room.View()), c).value;
                   && Executes(plan, old(net.closed), t, room.View(), net.closed)
                   && Exchanged(old(net.View()), net.View(), PlanOutbox(plan, t))
    ensures !ok ==> room.View() == old(room.View()) && net.View() == old(net.View())
  {
    hide NetOk, Exchanged, Executes, DistinctConns, Pruning.Finished;
    t := NO_PRUNE;
    match c
    case UpdateSettings(s) =>
      CommandDistinct(room.View(), c);
      room.settings := s;
      t := room.BroadcastAndPrune(net, RoomEvent(SettingsChanged(Public(s))));
      SaySends(Command(old(room.View()), c).value, old(net.View()), t, room.View(), net.View());
      return true, t;
    case SetPublic(b) =>
      room.settings := room.settings.(isPublic := b);
      Quiet(Command(old(room.View()), c).value, t, net.View());
      return true, t;
    case AcceptPeer(id) =>
      if id in room.pending {
        CommandDistinct(room.View(), c);
        var info := room.pending[id];
        room.pending := room.pending - {id};
        room.clients := room.clients[id := info];
        t := room.BroadcastAndPrune(net, PeerJoined(id, info.hash, info.name));
        SaySends(Command(old(room.View()), c).value, old(net.View()), t, room.View(), net.View());
      } else {
        Quiet(Command(old(room.View()), c).value, t, net.View());
      }
      return true, t;
    case DenyPeer(id) =>
      if id in room.pending {
        var info := room.pending[id];
        room.pending := room.pending - {id};
        var _ := net.TrySend(info.conn, RoomEvent(Kicked));
        OneSend(old(net.View()), info.conn, RoomEvent(Kicked), net.View());
        NoSay(Command(old(room.View()), c).value, old(net.closed), t, net.closed);
      } else {
        Quiet(Command(old(room.View()), c).value, t, net.View());
      }
      return true, t;
    case Kick(id) =>
      t := Remove(room, net, id, false);
      return true, t;
    case Ban(id) =>
      t := Remove(room, net, id, true);
      return true, t;
    case TransferHost(id) =>
      if id in room.clients {
        CommandDistinct(room.View(), c);
        room.hostPeerId := id;
        t := room.BroadcastAndPrune(net, RoomEvent(HostTransferred(id)));
        SaySends(Command(old(room.View()), c).value, old(net.View()), t, room.View(), net.View());
      } else {
        Quiet(Command(old(room.View()), c).value, t, net.View());
      }
      return true, t;
    case _ =>
      return false, t;
  }

  lemma NoSay(plan: Plan, closed: set<ConnId>, t: PruneTrace, closed': set<ConnId>)
    requires plan.say == None && closed <= closed'
    ensures Executes(plan, closed, t, plan.room, closed') && PlanOutbox(plan, t) == plan.notices
  {
  }

  lemma Quiet(plan: Plan, t: PruneTrace, n: NetState)
    requires plan.say == None && plan.notices == map[]
    ensures Executes(plan, n.closed, t, plan.room, n.closed) && Exchanged(n, n, PlanOutbox(plan, t))
  {
    NoSay(plan, n.closed, t, n.closed);
    NothingSaid(n, map[]);
  }

  /** Kick, or ban: the client is told, remembered if banned, and its leaving announced. */
  method Remove(room: Room, net: Network, id: u32, ban: bool) returns (ghost t: PruneTrace)
    requires NetOk(net.View()) && DistinctConns(room.View())
    modifies room, net
    ensures NetOk(net.View())
    ensures var plan := Command(old(room.View()), if ban then Ban(id) else Kick(id)).value;
            && Executes(plan, old(net.closed), t, room.View(), net.closed)
            && Exchanged(old(net.View()), net.View(), PlanOutbox(plan, t))
  {
    hide NetOk, Exchanged, Executes, DistinctConns, Pruning.Finished;
    ghost var c := if ban then Ban(id) else Kick(id);
    ghost var plan := Command(room.View(), c).value;
    CommandDistinct(room.View(), c);
    if id in room.clients {
      var info := room.clients[id];
      room.clients := room.clients - {id};
      if ban {
        room.banned := room.banned + {info.hash};
      }
      var notice := if ban then Banned else Kicked;
      var _ := net.TrySend(info.conn, RoomEvent(notice));
      OneSend(old(net.View()), info.conn, RoomEvent(notice), net.View());
      ghost var told := net.View();
      assert room.View() == plan.room;
      t := room.BroadcastAndPrune(net, PeerLeft(id));
      ExpelSends(old(room.View()), id, notice, plan.room.banned, old(net.View()), told, t, room.View(), net.View());
    } else {
      assert room.View() == plan.room;
      t := room.BroadcastAndPrune(net, PeerLeft(id));
      SaySends(plan, old(net.View()), t, room.View(), net.View());
    }
  }

  // ---------- The server ----------

  /** The channels of a world. */
  ghost predicate On(w: World, n: NetState) { w.closed == n.closed && w.sent == n.sent }

  lemma SaidOn(w: World, n: NetState, out: Outbox, w': World, n': NetState)
    requires On(w, n) && On(w', n') && Exchanged(n, n', out)
    ensures Sends(w, w', out)
  {
    hide Offered;
    assert forall c: ConnId :: w.Log(c) == n.Log(c) && w'.Log(c) == n'.Log(c);
  }

  lemma Departed(w: World, k: ConnId, lt: LeaveTrace, after: RoomState, n: NetState, n': NetState, w': World)
    requires HasRoom(w, k) && On(w, n) && On(w', n') && w'.sessions == w.sessions - {k}
    requires var s := w.sessions[k];
             && Leaves(w.rooms[s.key], s.peer, n.closed, lt, after, n'.closed)
             && w'.rooms == (if after.Empty() then w.rooms - {s.key} else w.rooms[s.key := after])
             && Exchanged(n, n', Broadcast(Without(w.rooms[s.key], s.peer).clients, LeaveScript(s.peer, lt)))
    ensures Departs(w, k, lt, after, w')
  {
    hide Exchanged, Leaves, LeaveScript, Broadcast, Without, Sends;
    SaidOn(w, n, Broadcast(Without(w.rooms[w.sessions[k].key], w.sessions[k].peer).clients, LeaveScript(w.sessions[k].peer, lt)), w', n');
  }

  lemma DepartedUnseated(w: World, k: ConnId, lt: LeaveTrace, after: RoomState, n: NetState, w': World)
    requires k in w.sessions && w.sessions[k].key !in w.rooms && On(w, n) && On(w', n)
    requires w'.sessions == w.sessions - {k} && w'.rooms == w.rooms
    ensures Departs(w, k, lt, after, w')
  {
    NothingSaid(n, map[]);
    SaidOn(w, n, map[], w', n);
  }

  class Server {
    const cfg: Config
    const net: Network
    var rooms: map<Key, Room>
    var sessions: map<ConnId, Session>
    var fallback: u64
    /** The run so far; the present world is its last. */
    ghost var run: seq<Sys>
    ghost var steps: seq<Step>

    ghost function Rooms(): map<Key, RoomState>
      reads this`rooms, rooms.Values
    {
      map key | key in rooms :: rooms[key].View()
    }

    ghost function View(): World
      reads this, net, rooms.Values
    {
      World(Rooms(), sessions, net.closed, net.sent)
    }

    ghost predicate Wellformed()
      reads this`rooms, net
    {
      NetOk(net.View()) && Separate(rooms)
    }

    ghost predicate Ready()
      reads this, net, rooms.Values
    {
      Wellformed() && Owned(View())
    }

    /** The server is somewhere along a run. */
    ghost predicate Valid()
      reads this, net, rooms.Values
    {
      Wellformed() && IsRun(cfg, run, steps) && run[|steps|].w == View()
    }

    constructor (cfg: Config)
      ensures Valid() && View() == INITIAL && this.cfg == cfg
    {
      this.cfg := cfg;
      net := new Network();
      rooms, sessions, fallback := map[], map[], 0;
      run, steps := [START], [];
      new;
      assert Rooms() == map[];
    }

    lemma ValidReady()
      requires Valid()
      ensures Ready()
    {
      RunOwned(cfg, run, steps, |steps|);
    }

    /** A connection holds one seat at most, the one its session names, and no room outlives the sessions. */
    lemma Standing()
      requires Valid()
      ensures forall key, p :: key in View().rooms && p in View().rooms[key].Members() ==>
                var c := View().rooms[key].Members()[p].conn; c in sessions && sessions[c] == Session(key, p)
      ensures sessions == map[] ==> rooms == map[]
    {
      ValidReady();
      assert sessions == map[] ==> View().rooms == map[];
    }

    /** One room is new or changed, the others are as they were. */
    lemma Placed(before: map<Key, RoomState>, was: map<Key, Room>, key: Key, room: Room)
      requires rooms == was[key := room] && before.Keys == was.Keys
      requires forall k :: k in was && k != key ==> was[k].View() == before[k]
      ensures Rooms() == before[key := room.View()]
    {
    }

    /** Hands replies to the connection that asked. */
    method Enqueue(k: ConnId, msgs: seq<ServerMessage>)
      requires NetOk(net.View())
      modifies net
      ensures NetOk(net.View()) && Exchanged(old(net.View()), net.View(), map[k := msgs])
    {
      hide NetOk, Exchanged;
      NothingSaid(net.View(), map[k := msgs[..0]]);
      var i := 0;
      while i < |msgs|
        invariant 0 <= i <= |msgs|
        invariant NetOk(net.View()) && Exchanged(old(net.View()), net.View(), map[k := msgs[..i]])
      {
        ghost var before := net.View();
        var _ := net.TrySend(k, msgs[i]);
        OneSend(before, k, msgs[i], net.View());
        assert msgs[..i + 1] == msgs[..i] + [msgs[i]];
        ThenSaid(old(net.View()), before, net.View(), map[k := msgs[..i]], map[k := [msgs[i]]], map[k := msgs[..i + 1]]);
        i := i + 1;
      }
      assert msgs[..i] == msgs;
    }

    // ---------- The pool ----------

    /** Draws a code at random. */
    static method DrawCode() returns (code: Bytes)
      ensures IsGenerated(code)
    {
      code := [];
      while |code| < ROOM_CODE_LEN
        invariant |code| <= ROOM_CODE_LEN && forall i :: 0 <= i < |code| ==> code[i] in ROOM_CODE_CHARS
      {
        var i: nat :| i < |ROOM_CODE_CHARS|;
        code := code + [ROOM_CODE_CHARS[i]];
      }
    }

    /** Pools a new room, unless one is already pooled under that code in any case. */
    method TryInsertNewRoom(appKey: Bytes, code: Bytes, settings: RoomSettings) returns (inserted: bool)
      requires Wellformed()
      modifies this`rooms
      ensures Wellformed()
      ensures var key := Key(appKey, Fold(code));
              && inserted == (key !in old(rooms))
              && (!inserted ==> rooms == old(rooms))
              && (inserted ==> key in rooms && fresh(rooms[key]) && rooms == old(rooms)[key := rooms[key]])
              && (inserted ==> rooms[key].View() == NewRoom(appKey, code, settings))
    {
      var key := Key(appKey, Fold(code));
      if key in rooms {
        return false;
      }
      var room := new Room(appKey, code, settings);
      rooms := rooms[key := room];
      return true;
    }

    /**
     * Pools a new room under the code asked for, or under a drawn one, or after too many collisions
     * under a counted one. Nothing is replaced: a code in use makes the attempt fail.
     */
    method CreateRoom(appKey: Bytes, settings: RoomSettings, requested: Bytes) returns (made: Option<Bytes>)
      requires Wellformed()
      modifies this`rooms, this`fallback
      ensures Wellformed()
      ensures match made
              case None =>
                && rooms == old(rooms)
                && Key(appKey, Fold(if requested != [] then requested else FallbackCode(old(fallback)))) in rooms
              case Some(code) =>
                && (if requested != [] then code == requested else IsGenerated(code) || code == FallbackCode(old(fallback)))
                && var key := Key(appKey, Fold(code));
                   && key !in old(rooms) && key in rooms && fresh(rooms[key]) && rooms == old(rooms)[key := rooms[key]]
                   && rooms[key].View() == NewRoom(appKey, code, settings)
    {
      hide IsGenerated, Separate, NetOk;
      if requested != [] {
        var inserted := TryInsertNewRoom(appKey, requested, settings);
        return if inserted then Some(requested) else None;
      }
      for i := 0 to ROOM_CODE_GEN_RETRIES
        invariant Wellformed() && rooms == old(rooms) && fallback == old(fallback)
      {
        var code := DrawCode();
        var inserted := TryInsertNewRoom(appKey, code, settings);
        if inserted {
          return Some(code);
        }
      }
      var n := fallback;
      fallback := (fallback + 1) % 0x1_0000_0000_0000_0000;
      var code := FallbackCode(n);
      var inserted := TryInsertNewRoom(appKey, code, settings);
      return if inserted then Some(code) else None;
    }

    /** Public rooms of an app with a free place, in the pool's own order. */
    method ListPublicRooms(appKey: Bytes) returns (entries: seq<RoomListEntry>)
      ensures exists keys :: Lists(View(), appKey, keys, entries)
    {
      entries := [];
      ghost var keys: seq<Key> := [];
      var todo := rooms.Keys;
      while todo != {}
        invariant todo <= rooms.Keys && NoDup(keys) && |entries| == |keys|
        invariant forall key :: key in keys <==> key in rooms && key !in todo && key.appKey == appKey && Listed(View(), key)
        invariant forall i :: 0 <= i < |keys| ==> keys[i] in rooms && entries[i] == EntryOf(View().rooms[keys[i]])
        decreases todo
      {
        var key :| key in todo;
        todo := todo - {key};
        var room := rooms[key];
        if key.appKey == appKey && room.settings.isPublic && !room.Full() {
          var count := AsU32(|room.clients| + |room.pending|);
          entries := entries + [RoomListEntry(room.code, count, Public(room.settings))];
          keys := keys + [key];
        }
      }
      assert Lists(View(), appKey, keys, entries);
    }

    // ---------- Leaving ----------

    /**
     * Gives up the session of `k` and its seat; the others are told, a lost host is replaced, and
     * an emptied room is reclaimed.
     */
    method LeaveRoom(k: ConnId) returns (ghost lt: LeaveTrace, ghost after: RoomState)
      requires Ready() && k in sessions
      modifies this`rooms, this`sessions, net, rooms.Values
      ensures Wellformed() && rooms.Values <= old(rooms.Values)
      ensures Departs(old(View()), k, lt, after, View())
    {
      hide NetOk, Exchanged, DistinctConns, Leaves, Owned, Broadcast, Without, LeaveScript, Departs, Separate;
      var s := sessions[k];
      ghost var w := View();
      assert w.rooms.Keys == rooms.Keys;
      hide Server.Rooms;
      sessions := sessions - {k};
      assert Rooms() == w.rooms;
      lt, after := LeaveTrace(NO_PRUNE, START_ROOM, {}, None, NO_PRUNE), START_ROOM;
      if s.key in rooms {
        OwnedDistinct(w, s.key);
        lt, after := LeaveSeat(s);
        Departed(w, k, lt, after, old(net.View()), net.View(), View());
      } else {
        DepartedUnseated(w, k, lt, after, net.View(), View());
      }
    }

    method LeaveSeat(s: Session) returns (ghost lt: LeaveTrace, ghost after: RoomState)
      requires Wellformed() && s.key in rooms && DistinctConns(Rooms()[s.key])
      modifies this`rooms, net, rooms.Values
      ensures Wellformed() && rooms.Values <= old(rooms.Values)
      ensures Rooms() == if after.Empty() then old(Rooms()) - {s.key} else old(Rooms())[s.key := after]
      ensures Leaves(old(Rooms())[s.key], s.peer, old(net.closed), lt, after, net.closed)
      ensures Exchanged(old(net.View()), net.View(), Broadcast(Without(old(Rooms())[s.key], s.peer).clients, LeaveScript(s.peer, lt)))
    {
      hide NetOk, Exchanged, DistinctConns, Leaves, Broadcast, Without, LeaveScript, Separate, Server.Rooms;
      ghost var was := Rooms();
      var empty;
      empty, lt, after := VacateSeat(s);
      if empty {
        var _ := RemoveIfEmpty(s.key);
        assert Rooms() == was - {s.key};
      }
    }

    method VacateSeat(s: Session) returns (empty: bool, ghost lt: LeaveTrace, ghost after: RoomState)
      requires Wellformed() && s.key in rooms && DistinctConns(Rooms()[s.key])
      modifies net, rooms[s.key]
      ensures Wellformed() && empty == after.Empty()
      ensures Rooms() == old(Rooms())[s.key := after]
      ensures Leaves(old(Rooms())[s.key], s.peer, old(net.closed), lt, after, net.closed)
      ensures Exchanged(old(net.View()), net.View(), Broadcast(Without(old(Rooms())[s.key], s.peer).clients, LeaveScript(s.peer, lt)))
    {
      hide NetOk, Exchanged, DistinctConns, Leaves, Owned, Broadcast, Without, LeaveScript;
      var room := rooms[s.key];
      assert forall j :: j in rooms && j != s.key ==> rooms[j] != room;
      ghost var was := Rooms();
      lt := Vacate(room, net, s.peer);
      empty, after := room.clients == map[] && room.pending == map[], room.View();
      Placed(was, rooms, s.key, room);
    }

    method RemoveIfEmpty(key: Key) returns (removed: bool)
      requires Wellformed()
      modifies this`rooms
      ensures Wellformed()
      ensures removed == (key in old(rooms) && old(Rooms())[key].Empty())
      ensures rooms == (if removed then old(rooms) - {key} else old(rooms)) && rooms.Values <= old(rooms.Values)
      ensures Rooms() == if removed then old(Rooms()) - {key} else old(Rooms())
    {
      removed := key in rooms && rooms[key].clients == map[] && rooms[key].pending == map[];
      if removed {
        rooms := rooms - {key};
      }
    }

    // ---------- Dispatch ----------

    /** The world moves on by one step of the run. */
    ghost method Record(step: Step)
      requires Wellformed() && IsRun(cfg, run, steps) && Next(cfg, run[|steps|].w, step, View())
      modifies this`run, this`steps
      ensures Valid()
      ensures run == old(run) + [Sys(View(), HistNext(old(run)[|old(steps)|].w, old(run)[|old(steps)|].h, step, View()))]
      ensures steps == old(steps) + [step]
    {
      hide Next, HistNext, NetOk, Separate;
      var last := run[|steps|];
      var next := Sys(View(), HistNext(last.w, last.h, step, View()));
      RunExtends(cfg, run, steps, step, next);
      run, steps := run + [next], steps + [step];
    }

    /** Handles one message from a connection and enqueues the replies: one more step of the run. */
    method Handle(k: ConnId, msg: ClientMessage)
      requires Valid() && KeepsSession(View(), k, msg)
      modifies this`rooms, this`sessions, this`fallback, this`run, this`steps, net, rooms.Values
      ensures Valid() && |run| == |old(run)| + 1 && old(run) <= run
      ensures exists tr :: steps == old(steps) + [Message(k, msg, tr)]
    {
      hide IsRun, NetOk, Separate, Owned, Says;
      ghost var tr := NoTrace;
      ghost var w := View();
      ValidReady();
      match msg {
        case Hello(h) => tr := Hello(k, h);
        case Move(blob) => tr := Move(k, blob);
        case Input(blob) => tr := Input(k, blob);
        case RoomControl(c) => tr := Control(k, c);
        case RequestState => tr := RequestState(k);
        case Ping => Respond(k, msg, [Pong], tr);
        case ListRooms(appKey) => tr := ListRooms(k, appKey);
      }
      Record(Message(k, msg, tr));
    }

    /** Gives up the session of a connection, if it has one. */
    method Depart(k: ConnId)
      requires Valid()
      modifies this`rooms, this`sessions, this`run, this`steps, net, rooms.Values
      ensures Valid() && k !in sessions && old(run) <= run
      ensures rooms.Values <= old(rooms.Values)
      ensures if k in old(sessions) then exists lt, after :: steps == old(steps) + [Departure(k, lt, after)] else steps == old(steps)
    {
      hide IsRun, NetOk, Separate, Owned;
      ValidReady();
      if k in sessions {
        ghost var lt, after := LeaveRoom(k);
        hide Leaves;
        assert k !in sessions;
        Record(Departure(k, lt, after));
      }
    }

    /** `dispatch`: a Hello or a Leave first gives up the session the connection had. */
    method Dispatch(k: ConnId, msg: ClientMessage)
      requires Valid()
      modifies this`rooms, this`sessions, this`fallback, this`run, this`steps, net, rooms.Values
      ensures Valid() && old(run) <= run
      ensures Dispatched(k in old(sessions), k, msg, old(steps), steps)
    {
      hide IsRun, NetOk, Separate;
      if k in sessions && msg.RoomControl? && msg.control.Leave? {
        Depart(k);
      } else {
        if msg.Hello? {
          Depart(k);
        }
        Handle(k, msg);
      }
    }

    /** Other tasks run between two messages: channels close and queues drain. */
    method Idle()
      requires Valid()
      modifies this`run, this`steps, net
      ensures Valid() && old(run) <= run && View() == old(View()).(closed := net.closed)
    {
      hide IsRun, NetOk, Separate;
      ghost var w := View();
      net.Interfere();
      assert Rooms() == w.rooms;
      assert View() == w.(closed := w.closed + net.closed);
      Record(Closing(net.closed));
    }

    // ---------- Hello ----------

    /** A connection without a session asks for a room: a new one, or the one it names. */
    method Hello(k: ConnId, h: HelloFields) returns (ghost tr: Trace)
      requires Ready() && k !in sessions
      modifies this`rooms, this`sessions, this`fallback, net, rooms.Values
      ensures Wellformed() && Says(old(View()), cfg, k, ClientMessage.Hello(h), tr, View())
    {
      hide NetOk, Exchanged, Owned, Says, Separate, HelloError, Admits, Enters;
      var msg := ClientMessage.Hello(h);
      tr := Admission(AdmitTrace(None, None, 0, 0), START_ROOM);
      var problem := HelloError(cfg, h);
      if problem.Some? {
        Respond(k, msg, [Error(problem.value)], tr);
      } else if h.roomCode == [] {
        tr := HelloNew(k, h);
      } else {
        var key := Key(h.appKey, Fold(h.roomCode));
        if key !in rooms {
          Respond(k, msg, [Error(Text("room not found"))], tr);
        } else {
          ghost var w, r := View(), rooms[key].View();
          Registered(cfg, h);
          OwnedDistinct(w, key);
          OwnedOk(w, key);
          EntersExisting(w, cfg, h, key);
          ghost var a := Admit(k, h, key, h.roomCode, w, None);
          tr := Admission(a, r);
          AdmittedSays(w, cfg, k, h, a, key, r, View());
        }
      }
    }

    method HelloNew(k: ConnId, h: HelloFields) returns (ghost tr: Trace)
      requires Wellformed() && k !in sessions && HelloError(cfg, h) == None && h.roomCode == []
      modifies this`rooms, this`sessions, this`fallback, net
      ensures Wellformed() && Says(old(View()), cfg, k, ClientMessage.Hello(h), tr, View())
    {
      hide NetOk, Exchanged, Says, Separate, HelloError, Admits, Enters, IsGenerated, FallbackCode, Allocates, Decimal;
      ghost var w := View();
      Registered(cfg, h);
      var settings := DefaultSettings(cfg.apps[h.appKey]);
      var made := CreateRoom(h.appKey, settings, []);
      if made == None {
        assert View() == w;
        tr := Admission(AdmitTrace(None, None, 0, 0), START_ROOM);
        Respond(k, ClientMessage.Hello(h), [Error(Text("failed to create room"))], tr);
      } else {
        var key := Key(h.appKey, Fold(made.value));
        ghost var r := rooms[key].View();
        Placed(w.rooms, old(rooms), key, rooms[key]);
        NewRoomReady(h.appKey, made.value, settings);
        EntersNew(w, cfg, h, made.value, key, r);
        ghost var a := Admit(k, h, key, made.value, w, made);
        tr := Admission(a, r);
        AdmittedSays(w, cfg, k, h, a, key, r, View());
      }
    }

    /** The door of a room, and a seat past it. `w` is the world the Hello arrived in. */
    method Admit(k: ConnId, h: HelloFields, key: Key, code: Bytes, ghost w: World, ghost drawn: Option<Bytes>) returns (ghost a: AdmitTrace)
      requires Wellformed() && key in rooms && DistinctConns(Rooms()[key]) && Rooms()[key].nextId >= 1
      requires Enters(w, cfg, h, AdmitTrace(drawn, None, 0, 0), key, Rooms()[key])
      requires code == CodeOf(h, AdmitTrace(drawn, None, 0, 0))
      requires View() == w.(rooms := w.rooms[key := Rooms()[key]])
      modifies this`sessions, net, rooms[key]
      ensures Wellformed() && a.code == drawn
      ensures Admits(w, cfg, k, h, a, key, old(Rooms())[key], View())
    {
      hide NetOk, Exchanged, Enters, DistinctConns, Admits, Received, Separate, CodeOf, Server.Rooms;
      ghost var n, r, after := net.View(), Rooms()[key], Rooms()[key];
      var got, reply;
      got, reply, a, after := ReceiveIn(key, k, h, code, drawn);
      if got.Some? {
        sessions := sessions[k := Session(key, got.value)];
      }
      assert Rooms() == w.rooms[key := after];
      ghost var n1 := net.View();
      Enqueue(k, [reply]);
      assert CodeOf(h, a) == code by { SameCode(h, a, drawn); }
      Admitted(w, cfg, k, h, a, key, r, got, reply, after, n, n1, net.View(), View());
    }

    method ReceiveIn(key: Key, k: ConnId, h: HelloFields, code: Bytes, ghost drawn: Option<Bytes>)
      returns (got: Option<u32>, reply: ServerMessage, ghost a: AdmitTrace, ghost after: RoomState)
      requires Wellformed() && key in rooms && DistinctConns(Rooms()[key]) && Rooms()[key].nextId >= 1
      modifies net, rooms[key]
      ensures Wellformed() && Rooms() == old(Rooms())[key := after] && a.code == drawn
      ensures Received(old(Rooms())[key], k, h, code, a, got, reply, after, old(net.View()), net.View())
    {
      hide NetOk, DistinctConns, Received;
      ghost var was := Rooms();
      var room := rooms[key];
      assert forall j :: j in rooms && j != key ==> rooms[j] != room;
      got, reply, a := Receive(room, net, k, h, code, drawn);
      after := room.View();
      Placed(was, rooms, key, room);
    }

    // ---------- The other messages ----------

    /** A message that only gets a reply. */
    method Respond(k: ConnId, msg: ClientMessage, msgs: seq<ServerMessage>, ghost tr: Trace)
      requires Wellformed() && KeepsSession(View(), k, msg)
      requires msg.ListRooms? && tr.Listing? ==> Lists(View(), msg.appKey, tr.keys, tr.entries)
      requires Answer(View(), cfg, k, msg, tr) == Some(msgs)
      modifies net
      ensures Wellformed() && Says(old(View()), cfg, k, msg, tr, View())
    {
      hide NetOk, Separate, Exchanged, Answer, Lists, Says;
      Enqueue(k, msgs);
      assert Rooms() == old(Rooms());
      Answered(old(View()), cfg, k, msg, tr, old(net.View()), net.View(), View());
    }

    /** The host's move becomes the room's state and goes out to all; anyone else's is refused. */
    method Move(k: ConnId, blob: Bytes) returns (ghost tr: Trace)
      requires Ready()
      modifies net, rooms.Values
      ensures Wellformed() && Says(old(View()), cfg, k, ClientMessage.Move(blob), tr, View())
    {
      hide NetOk, Exchanged, DistinctConns, Owned, Says, Pruning.Finished, IsFull, Separate;
      tr := NoTrace;
      ghost var w := View();
      if k !in sessions {
        Respond(k, ClientMessage.Move(blob), [Error(Text("not in a room"))], tr);
      } else if sessions[k].key !in rooms {
        Respond(k, ClientMessage.Move(blob), [], tr);
      } else {
        var s := sessions[k];
        var room := rooms[s.key];
        assert w.rooms[s.key] == room.View();
        if room.hostPeerId != s.peer {
          Respond(k, ClientMessage.Move(blob), [MoveRejected(Text("only host can send moves"))], tr);
        } else {
          var minPlayers, accepted := room.settings.minPlayers, AsU32(|room.clients|);
          if minPlayers > 0 && accepted < minPlayers {
            Respond(k, ClientMessage.Move(blob),
                    [MoveRejected(Text("minimum " + Decimal(minPlayers) + " players required to start"))], tr);
          } else {
            OwnedDistinct(w, s.key);
            tr := AcceptMove(k, blob);
          }
        }
      }
    }

    method AcceptMove(k: ConnId, blob: Bytes) returns (ghost tr: Trace)
      requires Wellformed() && HasRoom(View(), k) && DistinctConns(Rooms()[sessions[k].key])
      requires MoveRefusal(Rooms()[sessions[k].key], sessions[k].peer) == None
      modifies net, rooms[sessions[k].key]
      ensures Wellformed() && Says(old(View()), cfg, k, ClientMessage.Move(blob), tr, View())
    {
      hide NetOk, Exchanged, DistinctConns, Says, Pruning.Finished, MoveRefusal;
      ghost var w, n := View(), net.View();
      var key := sessions[k].key;
      var room := rooms[key];
      assert forall j :: j in rooms && j != key ==> rooms[j] != room;
      StateDistinct(room.View(), blob);
      room.state := blob;
      ghost var r := room.View();
      assert r == w.rooms[key].(state := blob);
      ghost var t := room.BroadcastStateUpdateAndPrune(net);
      ghost var n1 := net.View();
      Placed(w.rooms, rooms, key, room);
      Enqueue(k, [MoveAccepted]);
      Moved(w, cfg, k, blob, t, room.View(), n, n1, net.View(), View());
      tr := Pruning(t, room.View());
    }

    /** A player's input goes to the host alone. */
    method Input(k: ConnId, blob: Bytes) returns (ghost tr: Trace)
      requires Ready()
      modifies net
      ensures Wellformed() && Says(old(View()), cfg, k, ClientMessage.Input(blob), tr, View())
    {
      hide NetOk, Exchanged, Owned, Says, Separate;
      tr := NoTrace;
      if k !in sessions {
        Respond(k, ClientMessage.Input(blob), [Error(Text("not in a room"))], tr);
      } else if sessions[k].key !in rooms {
        Respond(k, ClientMessage.Input(blob), [], tr);
      } else {
        var s := sessions[k];
        var room := rooms[s.key];
        ghost var w, n := View(), net.View();
        if room.hostPeerId != s.peer && room.hostPeerId in room.clients {
          var c := room.clients[room.hostPeerId].conn;
          var _ := net.TrySend(c, PeerInput(s.peer, blob));
          OneSend(n, c, PeerInput(s.peer, blob), net.View());
        } else {
          NothingSaid(n, map[]);
        }
        assert Rooms() == w.rooms;
        Relayed(w, cfg, k, blob, n, net.View(), View());
      }
    }

    /** Host commands; `Leave` is handled apart because it gives the session up. */
    method Control(k: ConnId, c: Control) returns (ghost tr: Trace)
      requires Ready() && (k in sessions ==> !c.Leave?)
      modifies net, rooms.Values
      ensures Wellformed() && Says(old(View()), cfg, k, ClientMessage.RoomControl(c), tr, View())
    {
      hide NetOk, Exchanged, DistinctConns, Owned, Says, Executes, Command, PlanOutbox, Separate;
      tr := NoTrace;
      var msg := ClientMessage.RoomControl(c);
      if k !in sessions {
        Respond(k, msg, [Error(Text("not in a room"))], tr);
      } else if c.CreateRoom? {
        Respond(k, msg, [Error(Text("already in a room"))], tr);
      } else if sessions[k].key !in rooms {
        Respond(k, msg, [], tr);
      } else {
        OwnedDistinct(View(), sessions[k].key);
        if rooms[sessions[k].key].hostPeerId != sessions[k].peer {
          Respond(k, msg, [Error(Text("forbidden or invalid"))], tr);
        } else {
          tr := HostControl(k, c);
        }
      }
    }

    method HostControl(k: ConnId, c: Control) returns (ghost tr: Trace)
      requires Wellformed() && HasRoom(View(), k) && DistinctConns(Rooms()[sessions[k].key])
      requires Rooms()[sessions[k].key].host == sessions[k].peer && !c.Leave? && !c.CreateRoom?
      modifies net, rooms[sessions[k].key]
      ensures Wellformed() && Says(old(View()), cfg, k, ClientMessage.RoomControl(c), tr, View())
    {
      hide NetOk, Exchanged, DistinctConns, Says, Executes, Command, PlanOutbox, Separate;
      ghost var w, n := View(), net.View();
      var ok;
      ghost var t, after;
      ok, t, after := PerformIn(sessions[k].key, c);
      if ok {
        Commanded(w, cfg, k, c, t, after, n, net.View(), View());
        tr := Pruning(t, after);
      } else {
        tr := NoTrace;
        assert View() == w;
        Respond(k, ClientMessage.RoomControl(c), [Error(Text("forbidden or invalid"))], tr);
      }
    }

    method PerformIn(key: Key, c: Control) returns (ok: bool, ghost t: PruneTrace, ghost after: RoomState)
      requires Wellformed() && key in rooms && DistinctConns(Rooms()[key])
      modifies net, rooms[key]
      ensures Wellformed() && Rooms() == old(Rooms())[key := after]
      ensures ok <==> Command(old(Rooms())[key], c).Some?
      ensures ok ==> var plan := Command(old(Rooms())[key], c).value;
                     && Executes(plan, old(net.closed), t, after, net.closed)
                     && Exchanged(old(net.View()), net.View(), PlanOutbox(plan, t))
      ensures !ok ==> after == old(Rooms())[key] && net.View() == old(net.View())
    {
      hide NetOk, Exchanged, DistinctConns, Executes, Command, PlanOutbox;
      ghost var was := Rooms();
      var room := rooms[key];
      assert forall j :: j in rooms && j != key ==> rooms[j] != room;
      ok, t := Perform(room, net, c);
      after := room.View();
      Placed(was, rooms, key, room);
    }

    method RequestState(k: ConnId) returns (ghost tr: Trace)
      requires Ready()
      modifies net
      ensures Wellformed() && Says(old(View()), cfg, k, ClientMessage.RequestState, tr, View())
    {
      hide NetOk, Owned, Says, Separate;
      tr := NoTrace;
      var msgs := [];
      if k in sessions && sessions[k].key in rooms && rooms[sessions[k].key].state != [] {
        msgs := [StateUpdate(rooms[sessions[k].key].state)];
      }
      Respond(k, ClientMessage.RequestState, msgs, tr);
    }

    method ListRooms(k: ConnId, appKey: Bytes) returns (ghost tr: Trace)
      requires Ready()
      modifies net
      ensures Wellformed() && Says(old(View()), cfg, k, ClientMessage.ListRooms(appKey), tr, View())
    {
      hide NetOk, Owned, Says, Separate, Lists;
      if appKey !in cfg.apps {
        tr := NoTrace;
        Respond(k, ClientMessage.ListRooms(appKey), [Error(Text("unregistered game type"))], tr);
      } else {
        var entries := ListPublicRooms(appKey);
        ghost var keys :| Lists(View(), appKey, keys, entries);
        tr := Listing(keys, entries);
        Respond(k, ClientMessage.ListRooms(appKey), [RoomList(entries)], tr);
      }
    }
  }

  /** A message that may give a session up is handled apart. */
  predicate KeepsSession(w: World, k: ConnId, msg: ClientMessage) {
    k in w.sessions ==> !msg.Hello? && !(msg.RoomControl? && msg.control.Leave?)
  }

  lemma Answered(w: World, cfg: Config, k: ConnId, msg: ClientMessage, tr: Trace, n: NetState, n': NetState, w': World)
    requires KeepsSession(w, k, msg) && Answer(w, cfg, k, msg, tr).Some?
    requires msg.ListRooms? && tr.Listing? ==> Lists(w, msg.appKey, tr.keys, tr.entries)
    requires On(w, n) && On(w', n') && w'.rooms == w.rooms && w'.sessions == w.sessions
    requires Exchanged(n, n', map[k := Answer(w, cfg, k, msg, tr).value])
    ensures Says(w, cfg, k, msg, tr, w')
  {
    hide Exchanged, Answer, Lists, Sends;
    SaidOn(w, n, map[k := Answer(w, cfg, k, msg, tr).value], w', n');
  }

  lemma Moved(w: World, cfg: Config, k: ConnId, blob: Bytes, t: PruneTrace, after: RoomState, n: NetState, n1: NetState, n2: NetState, w': World)
    requires HasRoom(w, k) && MoveRefusal(w.rooms[w.sessions[k].key], w.sessions[k].peer) == None
    requires On(w, n) && On(w', n2) && w'.rooms == w.rooms[w.sessions[k].key := after] && w'.sessions == w.sessions
    requires var r := w.rooms[w.sessions[k].key].(state := blob);
             DistinctConns(r) && Pruning.Finished(r, n, StateUpdate(blob), true, t, after, n1)
    requires Exchanged(n1, n2, map[k := [MoveAccepted]])
    ensures Says(w, cfg, k, ClientMessage.Move(blob), Pruning(t, after), w')
  {
    hide DistinctConns, Exchanged, Sends, MoveRefusal, StateOutbox, Pruning.Spoken, PrunesState;
    var r := w.rooms[w.sessions[k].key].(state := blob);
    StateExchange(r, n, t, after, n1);
    var out := Reply(StateOutbox(r, t), k, [MoveAccepted]);
    ThenSaid(n, n1, n2, StateOutbox(r, t), map[k := [MoveAccepted]], out);
    SaidOn(w, n, out, w', n2);
    LaterClosed(r, n.closed, t, after, n1.closed, n2.closed) by { assert n1.closed <= n2.closed by { ClosedGrows(n1, n2, map[k := [MoveAccepted]]); } }
  }

  lemma ClosedGrows(n: NetState, n': NetState, out: Outbox)
    requires Exchanged(n, n', out)
    ensures n.closed <= n'.closed
  {
  }

  lemma LaterClosed(r: RoomState, closed: set<ConnId>, t: PruneTrace, r': RoomState, closed1: set<ConnId>, closed2: set<ConnId>)
    requires PrunesState(r, closed, t, r', closed1) && closed1 <= closed2
    ensures PrunesState(r, closed, t, r', closed2)
  {
  }

  lemma Relayed(w: World, cfg: Config, k: ConnId, blob: Bytes, n: NetState, n': NetState, w': World)
    requires HasRoom(w, k) && On(w, n) && On(w', n') && w'.rooms == w.rooms && w'.sessions == w.sessions
    requires Exchanged(n, n', InputOutbox(w.rooms[w.sessions[k].key], w.sessions[k].peer, blob))
    ensures Says(w, cfg, k, ClientMessage.Input(blob), NoTrace, w')
  {
    hide Exchanged, Sends;
    SaidOn(w, n, InputOutbox(w.rooms[w.sessions[k].key], w.sessions[k].peer, blob), w', n');
  }

  lemma Commanded(w: World, cfg: Config, k: ConnId, c: Control, t: PruneTrace, after: RoomState, n: NetState, n': NetState, w': World)
    requires HasRoom(w, k) && !c.Leave? && !c.CreateRoom?
    requires var r := w.rooms[w.sessions[k].key];
             && r.host == w.sessions[k].peer && Command(r, c).Some?
             && Executes(Command(r, c).value, n.closed, t, after, n'.closed)
             && Exchanged(n, n', PlanOutbox(Command(r, c).value, t))
    requires On(w, n) && On(w', n') && w'.rooms == w.rooms[w.sessions[k].key := after] && w'.sessions == w.sessions
    ensures Says(w, cfg, k, ClientMessage.RoomControl(c), Pruning(t, after), w')
  {
    hide Exchanged, Sends, PlanOutbox, Executes, Command;
    SaidOn(w, n, PlanOutbox(Command(w.rooms[w.sessions[k].key], c).value, t), w', n');
  }

  const START_ROOM := NewRoom([], [], DefaultSettings((0, 0)))

  ghost predicate Listed(w: World, key: Key) { key in w.rooms && w.rooms[key].settings.isPublic && !IsFull(w.rooms[key]) }

  function EntryOf(r: RoomState): RoomListEntry { RoomListEntry(r.code, AsU32(r.Occupancy()), Public(r.settings)) }

  lemma WithoutDistinct(r: RoomState, id: u32)
    requires DistinctConns(r)
    ensures DistinctConns(Without(r, id))
  {
    var r' := Without(r, id);
    assert forall p :: p in r'.Members() ==> p in r.Members() && r'.Members()[p] == r.Members()[p];
  }

  lemma StateDistinct(r: RoomState, blob: Bytes)
    requires DistinctConns(r)
    ensures DistinctConns(r.(state := blob))
  {
    assert r.(state := blob).Members() == r.Members();
  }

  lemma LeadDistinct(r: RoomState, id: u32)
    requires DistinctConns(r)
    ensures DistinctConns(r.(host := id))
  {
    assert r.(host := id).Members() == r.Members();
  }

  /** The room's part of a departure. */
  method Vacate(room: Room, net: Network, id: u32) returns (ghost lt: LeaveTrace)
    requires NetOk(net.View()) && DistinctConns(room.View())
    modifies room, net
    ensures NetOk(net.View())
    ensures Leaves(old(room.View()), id, old(net.closed), lt, room.View(), net.closed)
    ensures Exchanged(old(net.View()), net.View(), Broadcast(Without(old(room.View()), id).clients, LeaveScript(id, lt)))
  {
    hide NetOk, Exchanged, DistinctConns, Pruning.Spoken, Prunes, PruneScript;
    WithoutDistinct(room.View(), id);
    room.clients := room.clients - {id};
    room.pending := room.pending - {id};
    ghost var r := room.View();
    ghost var first := room.BroadcastAndPrune(net, PeerLeft(id));
    ghost var mid, between := room.View(), net.View();
    if room.hostPeerId == id && room.clients != map[] {
      var next :| next in room.clients;
      LeadDistinct(room.View(), next);
      room.hostPeerId := next;
      ghost var second := room.BroadcastAndPrune(net, RoomEvent(HostTransferred(next)));
      lt := LeaveTrace(first, mid, between.closed, Some(next), second);
      LeaveExchange(old(room.View()), id, lt, old(net.View()), between, room.View(), net.View());
    } else {
      lt := LeaveTrace(first, mid, between.closed, None, NO_PRUNE);
      PruneExchange(r, old(net.View()), PeerLeft(id), first, mid, between);
      assert LeaveScript(id, lt) == PruneScript(PeerLeft(id), first);
    }
  }

  /** The steps one `dispatch` call adds to a run. */
  ghost predicate Dispatched(seated: bool, k: ConnId, msg: ClientMessage, before: seq<Step>, after: seq<Step>) {
    if seated && msg.RoomControl? && msg.control.Leave? then
      exists lt, r :: after == before + [Departure(k, lt, r)]
    else if seated && msg.Hello? then
      exists lt, r, tr :: after == before + [Departure(k, lt, r), Message(k, msg, tr)]
    else
      exists tr :: after == before + [Message(k, msg, tr)]
  }

  // ---------- Admission, step by step ----------

  lemma Registered(cfg: Config, h: HelloFields)
    requires HelloError(cfg, h) == None
    ensures h.appKey in cfg.apps
  {
  }

  lemma EntersExisting(w: World, cfg: Config, h: HelloFields, key: Key)
    requires h.appKey in cfg.apps && h.roomCode != [] && key == Key(h.appKey, Fold(h.roomCode)) && key in w.rooms
    ensures Enters(w, cfg, h, AdmitTrace(None, None, 0, 0), key, w.rooms[key])
    ensures w.rooms[key := w.rooms[key]] == w.rooms
  {
  }

  lemma EntersNew(w: World, cfg: Config, h: HelloFields, code: Bytes, key: Key, r: RoomState)
    requires h.appKey in cfg.apps && h.roomCode == [] && key == Key(h.appKey, Fold(code)) && key !in w.rooms && IsMade(code)
    requires r == NewRoom(h.appKey, code, DefaultSettings(cfg.apps[h.appKey]))
    ensures Enters(w, cfg, h, AdmitTrace(Some(code), None, 0, 0), key, r)
  {
  }

  lemma NewRoomReady(appKey: Bytes, code: Bytes, settings: RoomSettings)
    ensures DistinctConns(NewRoom(appKey, code, settings)) && RoomOk(NewRoom(appKey, code, settings))
  {
  }

  lemma AdmittedSays(w: World, cfg: Config, k: ConnId, h: HelloFields, a: AdmitTrace, key: Key, r: RoomState, w': World)
    requires k !in w.sessions && HelloError(cfg, h) == None && Admits(w, cfg, k, h, a, key, r, w')
    requires h.roomCode == [] ==> a.code.Some?
    ensures Says(w, cfg, k, ClientMessage.Hello(h), Admission(a, r), w')
  {
    hide Sends, Allocates, Refusal;
  }

  lemma SideUnmoved(r: RoomState, nextId: u32, side: byte)
    requires IsNextSide(r.(nextId := nextId), side)
    ensures IsNextSide(r, side)
  {
    var r1 := r.(nextId := nextId);
    assert UsedSides(r1) == UsedSides(r) && MaxSide(r1.settings) == MaxSide(r.settings);
    hide UsedSides, MaxSide;
    if s: byte :| s <= MaxSide(r.settings) && s !in UsedSides(r) {
      assert s <= MaxSide(r1.settings) && s !in UsedSides(r1);
    } else {
      assert forall s: byte :: s <= MaxSide(r1.settings) ==> s in UsedSides(r1);
    }
  }

  lemma SameCode(h: HelloFields, a: AdmitTrace, drawn: Option<Bytes>)
    requires a.code == drawn
    ensures CodeOf(h, a) == CodeOf(h, AdmitTrace(drawn, None, 0, 0))
  {
  }

  /** Entering depends on the drawn code only, not on what is allocated later. */
  lemma SameDoor(w: World, cfg: Config, h: HelloFields, a: AdmitTrace, key: Key, r: RoomState)
    requires Enters(w, cfg, h, AdmitTrace(a.code, None, 0, 0), key, r)
    ensures Enters(w, cfg, h, a, key, r)
  {
  }

  /** What a room does with a Hello: the id it gives if it does, the reply, and the others greeted. */
  ghost predicate Received(r: RoomState, k: ConnId, h: HelloFields, code: Bytes, a: AdmitTrace, got: Option<u32>, reply: ServerMessage,
                           r': RoomState, n: NetState, n': NetState) {
    if Refusal(r, h).Some? then
      got == None && reply == Error(Refusal(r, h).value) && r' == r && n' == n
    else
      && Allocates(r, a.id, a.nextId) && got == a.id
      && match got
         case None => reply == Error(Text("room full")) && r' == r.(nextId := a.nextId) && n' == n
         case Some(id) =>
           && IsNextSide(r, a.side)
           && r' == Seat(r.(nextId := a.nextId), id, Newcomer(h, k, a.side))
           && reply == JoinedMessage(r', code, id, a.side)
           && Exchanged(n, n', Greeting(r, r', id, h))
  }

  lemma Admitted(w: World, cfg: Config, k: ConnId, h: HelloFields, a: AdmitTrace, key: Key, r: RoomState, got: Option<u32>, reply: ServerMessage,
                 r': RoomState, n: NetState, n1: NetState, n2: NetState, w': World)
    requires Enters(w, cfg, h, AdmitTrace(a.code, None, 0, 0), key, r) && On(w, n) && On(w', n2)
    requires Received(r, k, h, CodeOf(h, a), a, got, reply, r', n, n1) && Exchanged(n1, n2, map[k := [reply]])
    requires w'.rooms == w.rooms[key := r'] && w'.sessions == if got.Some? then w.sessions[k := Session(key, got.value)] else w.sessions
    ensures Admits(w, cfg, k, h, a, key, r, w')
  {
    hide Exchanged, Sends, Refusal, Enters, Allocates, IsNextSide, JoinedMessage, Broadcast;
    SameDoor(w, cfg, h, a, key, r);
    if got.Some? {
      var out := AdmitOutbox(r.(nextId := a.nextId), h, k, CodeOf(h, a), got.value, a.side);
      ThenSaid(n, n1, n2, Greeting(r, r', got.value, h), map[k := [reply]], out);
      SaidOn(w, n, out, w', n2);
    } else {
      SaidOn(w, n, map[k := [reply]], w', n2);
    }
  }

  lemma AllocatedFree(r: RoomState, id: u32, nextId: u32)
    requires Allocates(r, Some(id), nextId)
    ensures !r.InUse(id)
  {
  }

  lemma CounterDistinct(r: RoomState, nextId: u32)
    requires DistinctConns(r)
    ensures DistinctConns(r.(nextId := nextId))
  {
    assert r.(nextId := nextId).Members() == r.Members();
  }

  method Receive(room: Room, net: Network, k: ConnId, h: HelloFields, code: Bytes, ghost drawn: Option<Bytes>)
    returns (got: Option<u32>, reply: ServerMessage, ghost a: AdmitTrace)
    requires NetOk(net.View()) && DistinctConns(room.View()) && room.nextPeerId >= 1
    modifies room, net
    ensures NetOk(net.View()) && a.code == drawn
    ensures Received(old(room.View()), k, h, code, a, got, reply, room.View(), old(net.View()), net.View())
  {
    hide NetOk, Exchanged, Refusal, Allocates, IsNextSide, DistinctConns, Seat, JoinedMessage, Greeting;
    a := AdmitTrace(drawn, None, 0, 0);
    ghost var r := room.View();
    var why := room.Door(h);
    if why.Some? {
      return None, Error(why.value), a;
    }
    var id := room.NextPeerId();
    a := AdmitTrace(drawn, id, room.nextPeerId, 0);
    if id == None {
      return None, Error(Text("room full")), a;
    }
    var side := room.NextAvailableSide();
    SideUnmoved(r, room.nextPeerId, side);
    AllocatedFree(r, id.value, room.nextPeerId);
    CounterDistinct(r, room.nextPeerId);
    a := AdmitTrace(drawn, id, room.nextPeerId, side);
    reply := SeatIn(room, net, k, h, code, id.value, side, r.(nextId := a.nextId));
    GreetingUnmoved(r, a.nextId, room.View(), id.value, h);
    return id, reply, a;
  }

  lemma GreetingUnmoved(r: RoomState, nextId: u32, r1: RoomState, id: u32, h: HelloFields)
    ensures Greeting(r.(nextId := nextId), r1, id, h) == Greeting(r, r1, id, h)
  {
  }

  /** What the clients already there hear of a newcomer seated among them. */
  function Greeting(r: RoomState, r1: RoomState, id: u32, h: HelloFields): Outbox {
    if id in r1.clients then Broadcast(r.clients, [PeerJoined(id, h.clientHash, h.displayName)]) else map[]
  }

  /** Seats the newcomer, greets the others, and writes the answer. */
  method SeatIn(room: Room, net: Network, k: ConnId, h: HelloFields, code: Bytes, id: u32, side: byte, ghost r: RoomState)
    returns (joined: ServerMessage)
    requires NetOk(net.View()) && room.View() == r && DistinctConns(r) && !r.InUse(id)
    modifies room, net
    ensures NetOk(net.View()) && room.View() == Seat(r, id, Newcomer(h, k, side))
    ensures joined == JoinedMessage(room.View(), code, id, side)
    ensures Exchanged(old(net.View()), net.View(), Greeting(r, room.View(), id, h))
  {
    hide NetOk, Exchanged, Swept, Broadcast, ApartIn;
    ApartMembers(r);
    hide DistinctConns;
    var info := ClientInfo(h.clientHash, h.displayName, k, side);
    var host;
    if room.clients == map[] && room.pending == map[] {
      room.hostPeerId := id;
      room.clients := room.clients[id := info];
      host := id;
    } else if room.settings.acceptRequired {
      room.pending := room.pending[id := info];
      host := room.hostPeerId;
    } else {
      room.clients := room.clients[id := info];
      host := room.hostPeerId;
    }
    var initial := if room.state == [] then None else Some(room.state);
    joined := Joined(code, id, host, side, room.settings.(password := None), initial);
    if !room.settings.acceptRequired || id in room.clients {
      assert room.clients - {id} == r.clients;
      var msg := PeerJoined(id, h.clientHash, h.displayName);
      var dead := Room.Sweep(net, room.clients - {id}, msg);
      SweptExchange(old(net.View()), r.clients, msg, dead, net.View());
    } else {
      NothingSaid(net.View(), map[]);
    }
  }
}
