/**
 * Who owns a seat, over every run: a member entry is always the one named by its connection's
 * session, every pooled room is named by a live session, and no room outlives the last session.
 */
module Ownership {
  import opened Types
  import opened RoomModel
  import opened ServerModel

  ghost predicate RoomOk(r: RoomState) {
    r.clients.Keys !! r.pending.Keys && 0 !in r.Members() && r.nextId >= 1
  }

  ghost predicate SeatsOwned(w: World) {
    forall key, p :: key in w.rooms && p in w.rooms[key].Members() ==>
      var c := w.rooms[key].Members()[p].conn;
      c in w.sessions && w.sessions[c] == Session(key, p)
  }

  ghost predicate RoomsNamed(w: World) {
    forall key :: key in w.rooms ==> exists c :: c in w.sessions && w.sessions[c].key == key
  }

  ghost predicate Owned(w: World) {
    && (forall key :: key in w.rooms ==> RoomOk(w.rooms[key]))
    && SeatsOwned(w)
    && RoomsNamed(w)
  }

  /** Entries of `m` are entries of `n`. */
  ghost predicate Within(m: map<u32, ClientInfo>, n: map<u32, ClientInfo>) {
    forall p :: p in m ==> p in n && m[p] == n[p]
  }

  lemma OwnedOk(w: World, key: Key)
    requires Owned(w) && key in w.rooms
    ensures RoomOk(w.rooms[key])
  {
  }

  lemma OwnedDistinct(w: World, key: Key)
    requires Owned(w) && key in w.rooms
    ensures DistinctConns(w.rooms[key])
  {
    assert RoomOk(w.rooms[key]);
  }

  // ---------- Room operations only ever shrink the membership ----------

  lemma PrunesShrinks(r: RoomState, closed: set<ConnId>, t: PruneTrace, r': RoomState, closed': set<ConnId>)
    requires Prunes(r, closed, t, r', closed') || PrunesState(r, closed, t, r', closed')
    requires RoomOk(r)
    ensures RoomOk(r') && Within(r'.Members(), r.Members())
    ensures Within(r'.clients, r.clients) && Within(r'.pending, r.pending)
  {
  }

  lemma CommandShrinks(r: RoomState, c: Control)
    requires RoomOk(r) && Command(r, c).Some?
    ensures RoomOk(Command(r, c).value.room) && Within(Command(r, c).value.room.Members(), r.Members())
  {
    var plan := Command(r, c).value.room;
    assert forall p :: p in plan.Members() ==> p in plan.clients || p in plan.pending;
  }

  lemma WithinDistinct(r: RoomState, r': RoomState)
    requires DistinctConns(r) && r'.clients.Keys !! r'.pending.Keys && Within(r'.Members(), r.Members())
    ensures DistinctConns(r')
  {
  }

  lemma CommandDistinct(r: RoomState, c: Control)
    requires DistinctConns(r) && Command(r, c).Some?
    ensures DistinctConns(Command(r, c).value.room)
  {
    var r' := Command(r, c).value.room;
    if c.AcceptPeer? && c.peer in r.pending {
      assert r'.Members() == r.Members();
    } else {
      PartsDistinct(r, r') by { hide DistinctConns; }
    }
  }

  lemma PartsDistinct(r: RoomState, r': RoomState)
    requires DistinctConns(r) && Within(r'.clients, r.clients) && Within(r'.pending, r.pending)
    ensures DistinctConns(r')
  {
    assert Within(r'.Members(), r.Members());
    WithinDistinct(r, r');
  }

  lemma LeavesShrinks(r: RoomState, id: u32, closed: set<ConnId>, lt: LeaveTrace, r': RoomState, closed': set<ConnId>)
    requires RoomOk(r) && Leaves(r, id, closed, lt, r', closed')
    ensures RoomOk(r') && Within(r'.Members(), r.Members()) && id !in r'.Members()
  {
    PrunesShrinks(Without(r, id), closed, lt.first, lt.mid, lt.midClosed);
    if lt.elected.Some? {
      PrunesShrinks(lt.mid.(host := lt.elected.value), lt.midClosed, lt.second, r', closed');
    }
  }

  // ---------- One step ----------

  lemma TouchOwned(w: World, key: Key, r': RoomState, w': World)
    requires Owned(w) && key in w.rooms
    requires w'.rooms == w.rooms[key := r'] && w'.sessions == w.sessions
    requires RoomOk(r') && Within(r'.Members(), w.rooms[key].Members())
    ensures Owned(w')
  {
  }

  lemma StillNamed(w: World, k: ConnId, key: Key, w': World)
    requires RoomsNamed(w) && key in w.rooms && k in w.sessions && w.sessions[k].key != key
    requires w'.sessions == w.sessions - {k}
    ensures exists c :: c in w'.sessions && w'.sessions[c].key == key
  {
    var c :| c in w.sessions && w.sessions[c].key == key;
    assert c in w'.sessions;
  }

  /** Giving a session up after its seat is cleared, and the room with it if that was the last. */
  lemma VacateOwned(w: World, k: ConnId, r': RoomState, w': World)
    requires Owned(w) && HasRoom(w, k)
    requires w'.sessions == w.sessions - {k}
    requires w'.rooms == if r'.Empty() then w.rooms - {w.sessions[k].key} else w.rooms[w.sessions[k].key := r']
    requires RoomOk(r') && Within(r'.Members(), w.rooms[w.sessions[k].key].Members())
    requires w.sessions[k].peer !in r'.Members()
    ensures Owned(w')
  {
    VacatedSeats(w, k, r', w');
    forall key | key in w'.rooms
      ensures exists c :: c in w'.sessions && w'.sessions[c].key == key
    {
      VacatedNamed(w, k, r', w', key);
    }
    assert forall key :: key in w'.rooms ==> RoomOk(w'.rooms[key]);
    hide RoomOk, SeatsOwned;
  }

  lemma VacatedNamed(w: World, k: ConnId, r': RoomState, w': World, key: Key)
    requires Owned(w) && HasRoom(w, k) && SeatsOwned(w') && key in w'.rooms
    requires w'.sessions == w.sessions - {k}
    requires w'.rooms == if r'.Empty() then w.rooms - {w.sessions[k].key} else w.rooms[w.sessions[k].key := r']
    ensures exists c :: c in w'.sessions && w'.sessions[c].key == key
  {
    if key != w.sessions[k].key {
      StillNamed(w, k, key, w');
    } else {
      SomeoneNames(w', key);
    }
  }

  lemma SomeoneNames(w: World, key: Key)
    requires SeatsOwned(w) && key in w.rooms && !w.rooms[key].Empty()
    ensures exists c :: c in w.sessions && w.sessions[c].key == key
  {
    var r := w.rooms[key];
    var p :| p in r.clients || p in r.pending;
    assert w.sessions[r.Members()[p].conn].key == key;
  }

  lemma VacatedSeats(w: World, k: ConnId, r': RoomState, w': World)
    requires SeatsOwned(w) && HasRoom(w, k)
    requires w'.sessions == w.sessions - {k}
    requires forall key :: key in w'.rooms ==> key in w.rooms && w'.rooms[key] == if key == w.sessions[k].key then r' else w.rooms[key]
    requires Within(r'.Members(), w.rooms[w.sessions[k].key].Members())
    requires w.sessions[k].peer !in r'.Members()
    ensures SeatsOwned(w')
  {
    forall key, p | key in w'.rooms && p in w'.rooms[key].Members()
      ensures w'.rooms[key].Members()[p].conn in w'.sessions
      ensures w'.sessions[w'.rooms[key].Members()[p].conn] == Session(key, p)
    {
      assert p in w.rooms[key].Members();
    }
  }

  lemma DepartsOwned(w: World, k: ConnId, lt: LeaveTrace, r': RoomState, w': World)
    requires Owned(w) && Departs(w, k, lt, r', w')
    ensures Owned(w')
  {
    var s := w.sessions[k];
    if s.key in w.rooms {
      LeavesShrinks(w.rooms[s.key], s.peer, w.closed, lt, r', w'.closed);
      VacateOwned(w, k, r', w');
    } else {
      forall key | key in w'.rooms
        ensures exists c :: c in w'.sessions && w'.sessions[c].key == key
      {
        StillNamed(w, k, key, w');
      }
    }
  }

  /** A room just created takes its creator in. */
  lemma FreshRoomAdmits(r: RoomState, h: HelloFields, got: Option<u32>, nextId: u32)
    requires exists app, code, limits :: r == NewRoom(app, code, DefaultSettings(limits))
    ensures Refusal(r, h) == None
    ensures Allocates(r, got, nextId) ==> got == Some(1)
  {
  }

  lemma SeatMembers(r: RoomState, id: u32, info: ClientInfo)
    requires RoomOk(r) && !r.InUse(id)
    ensures Seat(r, id, info).Members() == r.Members()[id := info]
    ensures id != 0 ==> RoomOk(Seat(r, id, info))
  {
  }

  /** Taking a seat under a fresh id with a connection that had no session. */
  lemma SeatOwned(w: World, k: ConnId, key: Key, r: RoomState, id: u32, info: ClientInfo, w': World)
    requires Owned(w) && k !in w.sessions
    requires if key in w.rooms then r.Members() == w.rooms[key].Members() else r.Members() == map[]
    requires RoomOk(r) && !r.InUse(id) && id != 0 && info.conn == k
    requires w'.rooms == w.rooms[key := Seat(r, id, info)]
    requires w'.sessions == w.sessions[k := Session(key, id)]
    ensures Owned(w')
  {
    SeatMembers(r, id, info);
    assert w'.sessions[k].key == key;
    forall key' | key' in w'.rooms && key' != key
      ensures exists c :: c in w'.sessions && w'.sessions[c].key == key'
    {
      var c :| c in w.sessions && w.sessions[c].key == key';
      assert c in w'.sessions && w'.sessions[c].key == key';
    }
  }

  lemma AdmitsOwned(w: World, cfg: Config, k: ConnId, h: HelloFields, a: AdmitTrace, key: Key, r: RoomState, w': World)
    requires Owned(w) && k !in w.sessions && Admits(w, cfg, k, h, a, key, r, w')
    ensures Owned(w')
  {
    if h.roomCode == [] {
      FreshRoomAdmits(r, h, a.id, a.nextId);
    }
    if Refusal(r, h) == None && a.id.Some? {
      SeatOwned(w, k, key, r.(nextId := a.nextId), a.id.value, Newcomer(h, k, a.side), w');
    } else {
      TouchOwned(w, key, w'.rooms[key], w');
    }
  }

  lemma CommandOwned(w: World, key: Key, c: Control, t: PruneTrace, r': RoomState, w': World)
    requires Owned(w) && key in w.rooms && Command(w.rooms[key], c).Some?
    requires Executes(Command(w.rooms[key], c).value, w.closed, t, r', w'.closed)
    requires w'.rooms == w.rooms[key := r'] && w'.sessions == w.sessions
    ensures Owned(w')
  {
    var plan := Command(w.rooms[key], c).value;
    CommandShrinks(w.rooms[key], c);
    if plan.say.Some? {
      PrunesShrinks(plan.room, w.closed, t, r', w'.closed);
    }
    TouchOwned(w, key, r', w');
  }

  lemma SaysOwned(w: World, cfg: Config, k: ConnId, msg: ClientMessage, tr: Trace, w': World)
    requires Owned(w) && Says(w, cfg, k, msg, tr, w')
    ensures Owned(w')
  {
    if Answer(w, cfg, k, msg, tr) == None {
      match msg
      case Hello(h) => AdmitsOwned(w, cfg, k, h, tr.a, KeyOf(h, tr.a), tr.entered, w');
      case Move(blob) =>
        var key := w.sessions[k].key;
        PrunesShrinks(w.rooms[key].(state := blob), w.closed, tr.t, tr.after, w'.closed);
        TouchOwned(w, key, tr.after, w');
      case Input(blob) => TouchOwned(w, w.sessions[k].key, w.rooms[w.sessions[k].key], w');
      case RoomControl(c) => CommandOwned(w, w.sessions[k].key, c, tr.t, tr.after, w');
    }
  }

  lemma NextOwned(cfg: Config, w: World, step: Step, w': World)
    requires Owned(w) && Next(cfg, w, step, w')
    ensures Owned(w')
  {
    match step
    case Closing(_) =>
    case Departure(k, lt, after) => DepartsOwned(w, k, lt, after, w');
    case Message(k, msg, tr) => SaysOwned(w, cfg, k, msg, tr, w');
  }
}
