/** What each host command leaves of the room, and who is told what of it, whatever closes meanwhile. */
module Commands {
  import opened Types
  import opened RoomModel
  import opened ServerModel
  import opened Ownership
  import opened Gates
  import Steps

  /** The host of room `key` gives command `c`. */
  predicate Orders(w: World, k: ConnId, key: Key) {
    HasRoom(w, k) && w.sessions[k].key == key && w.sessions[k].peer == w.rooms[key].host
  }

  /** One room changed; no session did. */
  ghost predicate Changed(w: World, key: Key, w': World) {
    w'.sessions == w.sessions && key in w'.rooms && w'.rooms == w.rooms[key := w'.rooms[key]]
  }

  /** Nothing changed and nobody heard anything. */
  ghost predicate Idle(w: World, w': World) {
    w'.rooms == w.rooms && w'.sessions == w.sessions && forall c: ConnId :: w'.Log(c) == w.Log(c)
  }

  /** A client of the command's room that is open afterwards is still a client. */
  ghost predicate KeepsOpen(w': World, m: map<u32, ClientInfo>, r': RoomState) {
    forall p :: p in m && m[p].conn !in w'.closed ==> p in r'.clients && r'.clients[p] == m[p]
  }

  lemma OrderRuns(cfg: Config, w: World, k: ConnId, c: Control, tr: Trace, w': World, key: Key)
    requires Orders(w, k, key) && Command(w.rooms[key], c).Some? && !c.CreateRoom? && Next(cfg, w, Message(k, ClientMessage.RoomControl(c), tr), w')
    ensures tr.Pruning? && Changed(w, key, w') && w'.rooms[key] == tr.after
    ensures var plan := Command(w.rooms[key], c).value;
            Executes(plan, w.closed, tr.t, tr.after, w'.closed) && Sends(w, w', PlanOutbox(plan, tr.t))
  {
    hide Executes, PlanOutbox, Sends, Command;
  }

  /** A broadcast and what it prunes: only closed clients go, everyone else hears `msg` first. */
  lemma Broadcasts(w: World, w': World, plan: Plan, t: PruneTrace, r': RoomState)
    requires plan.say.Some? && Executes(plan, w.closed, t, r', w'.closed) && Sends(w, w', PlanOutbox(plan, t))
    ensures KeepsOpen(w', plan.room.clients, r')
    ensures r'.clients.Keys <= plan.room.clients.Keys && r'.pending == plan.room.pending
    ensures Steps.SameFixtures(plan.room, r')
    ensures plan.room.host in plan.room.clients && plan.room.clients[plan.room.host].conn !in w'.closed ==> r'.host == plan.room.host
    ensures forall p :: p in plan.room.clients ==> HeardFirst(w, w', plan.room.clients[p].conn, plan.say.value)
  {
    Prunings(plan.room, w.closed, t, r', w'.closed);
    hide Executes, Sends;
    forall p | p in plan.room.clients
      ensures HeardFirst(w, w', plan.room.clients[p].conn, plan.say.value)
    {
      ScriptFirst(plan, t, p);
      SentFirst(w, w', PlanOutbox(plan, t), plan.room.clients[p].conn, plan.say.value);
    }
  }

  lemma Prunings(r: RoomState, closed: set<ConnId>, t: PruneTrace, r': RoomState, closed': set<ConnId>)
    requires Prunes(r, closed, t, r', closed')
    ensures r'.clients.Keys <= r.clients.Keys && r'.pending == r.pending && Steps.SameFixtures(r, r')
    ensures forall p :: p in r.clients && r.clients[p].conn !in closed' ==> p in r'.clients && r'.clients[p] == r.clients[p]
    ensures r.host in r.clients && r.clients[r.host].conn !in closed' ==> r'.host == r.host
  {
    hide NoDup;
    assert r.host in t.announced ==> r.host in t.Gone();
  }

  lemma ScriptFirst(plan: Plan, t: PruneTrace, p: u32)
    requires plan.say.Some? && p in plan.room.clients
    ensures [plan.say.value] <= Out(PlanOutbox(plan, t), plan.room.clients[p].conn)
  {
    assert plan.room.clients[p].conn in Conns(plan.room.clients);
    assert [plan.say.value] <= PruneScript(plan.say.value, t);
  }

  /** A private notice to a connection that is none of the clients addressed. */
  lemma Notices(w: World, w': World, plan: Plan, t: PruneTrace, c: ConnId)
    requires Sends(w, w', PlanOutbox(plan, t)) && c in plan.notices && c !in Conns(plan.room.clients)
    ensures Heard(w, w', c, plan.notices[c])
  {
    SentHeard(w, w', PlanOutbox(plan, t), c);
  }

  // ---------- Settings ----------

  /** New settings are taken over whole, and announced to the clients without the password. */
  lemma UpdateSettingsDoes(cfg: Config, w: World, k: ConnId, s: RoomSettings, tr: Trace, w': World, key: Key)
    requires Orders(w, k, key) && Next(cfg, w, Message(k, ClientMessage.RoomControl(UpdateSettings(s)), tr), w')
    ensures Changed(w, key, w')
    ensures w'.rooms[key].settings == s && w'.rooms[key].banned == w.rooms[key].banned
    ensures KeepsOpen(w', w.rooms[key].clients, w'.rooms[key]) && w'.rooms[key].pending == w.rooms[key].pending
    ensures forall p :: p in w.rooms[key].clients ==>
              HeardFirst(w, w', w.rooms[key].clients[p].conn, RoomEvent(SettingsChanged(
                RoomSettings(s.maxPlayers, s.minPlayers, s.isPublic, None, s.acceptRequired, s.custom))))
  {
    hide Next, Executes, PlanOutbox, Sends;
    OrderRuns(cfg, w, k, UpdateSettings(s), tr, w', key);
    Broadcasts(w, w', Command(w.rooms[key], UpdateSettings(s)).value, tr.t, tr.after);
  }

  /** Visibility becomes what was asked for, silently. */
  lemma SetPublicDoes(cfg: Config, w: World, k: ConnId, b: bool, tr: Trace, w': World, key: Key)
    requires Orders(w, k, key) && Next(cfg, w, Message(k, ClientMessage.RoomControl(SetPublic(b)), tr), w')
    ensures Changed(w, key, w')
    ensures var r, s := w.rooms[key], w.rooms[key].settings;
            w'.rooms[key] == r.(settings := RoomSettings(s.maxPlayers, s.minPlayers, b, s.password, s.acceptRequired, s.custom))
    ensures forall c: ConnId :: w'.Log(c) == w.Log(c)
  {
    hide Next, Sends;
    OrderRuns(cfg, w, k, SetPublic(b), tr, w', key);
    NothingSent(w, w');
  }

  // ---------- The waiting list ----------

  /** An accepted peer becomes a client with the seat it waited with, and all clients are told of it, itself included. */
  lemma AcceptDoes(cfg: Config, w: World, k: ConnId, id: u32, tr: Trace, w': World, key: Key)
    requires Owned(w) && Orders(w, k, key) && id in w.rooms[key].pending
    requires Next(cfg, w, Message(k, ClientMessage.RoomControl(AcceptPeer(id)), tr), w')
    ensures Changed(w, key, w')
    ensures var r := w.rooms[key];
            var joined := r.clients[id := r.pending[id]];
            && w'.rooms[key].pending == r.pending - {id} && w'.rooms[key].settings == r.settings
            && KeepsOpen(w', joined, w'.rooms[key])
            && forall p :: p in joined ==> HeardFirst(w, w', joined[p].conn, PeerJoined(id, r.pending[id].hash, r.pending[id].name))
  {
    hide Next, Executes, PlanOutbox, Sends, Owned;
    OrderRuns(cfg, w, k, AcceptPeer(id), tr, w', key);
    Broadcasts(w, w', Command(w.rooms[key], AcceptPeer(id)).value, tr.t, tr.after);
  }

  /** A denied peer stops waiting and is told; nobody else hears of it. */
  lemma DenyDoes(cfg: Config, w: World, k: ConnId, id: u32, tr: Trace, w': World, key: Key)
    requires Orders(w, k, key) && id in w.rooms[key].pending
    requires Next(cfg, w, Message(k, ClientMessage.RoomControl(DenyPeer(id)), tr), w')
    ensures Changed(w, key, w')
    ensures var r := w.rooms[key];
            && w'.rooms[key] == r.(pending := r.pending - {id})
            && OnlyHeard(w, w', r.pending[id].conn, [RoomEvent(Kicked)])
  {
    hide Next, Sends;
    OrderRuns(cfg, w, k, DenyPeer(id), tr, w', key);
    SentOnly(w, w', w.rooms[key].pending[id].conn, [RoomEvent(Kicked)]);
  }

  /** Accepting or denying somebody who does not wait, or leading over to somebody who is no client, does nothing. */
  lemma VainDoes(cfg: Config, w: World, k: ConnId, c: Control, tr: Trace, w': World, key: Key)
    requires Orders(w, k, key) && Next(cfg, w, Message(k, ClientMessage.RoomControl(c), tr), w')
    requires ((c.AcceptPeer? || c.DenyPeer?) && c.peer !in w.rooms[key].pending) || (c.TransferHost? && c.peer !in w.rooms[key].clients)
    ensures Idle(w, w')
  {
    hide Next, Sends;
    OrderRuns(cfg, w, k, c, tr, w', key);
    NothingSent(w, w');
  }

  // ---------- Expulsion and the lead ----------

  /**
   * A client kicked or banned is gone and told so, and nothing else; the other clients hear that it
   * left; a ban, and only a ban, records its hash.
   */
  lemma ExpelDoes(cfg: Config, w: World, k: ConnId, id: u32, ban: bool, tr: Trace, w': World, key: Key)
    requires Owned(w) && Orders(w, k, key) && id in w.rooms[key].clients
    requires Next(cfg, w, Message(k, ClientMessage.RoomControl(if ban then Ban(id) else Kick(id)), tr), w')
    ensures Changed(w, key, w')
    ensures var r, r' := w.rooms[key], w'.rooms[key];
            && id !in r'.clients && r'.pending == r.pending && r'.settings == r.settings
            && r'.banned == (if ban then r.banned + {r.clients[id].hash} else r.banned)
            && KeepsOpen(w', r.clients - {id}, r')
    ensures var r := w.rooms[key];
            && Heard(w, w', r.clients[id].conn, [RoomEvent(if ban then Banned else Kicked)])
            && forall p :: p in r.clients && p != id ==> HeardFirst(w, w', r.clients[p].conn, PeerLeft(id))
  {
    hide Next, Executes, PlanOutbox, Sends, Owned;
    var c := if ban then Ban(id) else Kick(id);
    OrderRuns(cfg, w, k, c, tr, w', key);
    var plan := Command(w.rooms[key], c).value;
    Broadcasts(w, w', plan, tr.t, tr.after);
    OwnedDistinct(w, key);
    RemovedApart(w.rooms[key], id);
    Notices(w, w', plan, tr.t, w.rooms[key].clients[id].conn);
  }

  lemma RemovedApart(r: RoomState, id: u32)
    requires DistinctConns(r) && id in r.clients
    ensures r.clients[id].conn !in Conns(r.clients - {id})
  {
    assert forall p :: p in r.clients ==> r.Members()[p] == r.clients[p];
  }

  /** Kicking or banning somebody who is no client records nothing, but the clients hear that it left. */
  lemma ExpelNobodyDoes(cfg: Config, w: World, k: ConnId, id: u32, ban: bool, tr: Trace, w': World, key: Key)
    requires Orders(w, k, key) && id !in w.rooms[key].clients
    requires Next(cfg, w, Message(k, ClientMessage.RoomControl(if ban then Ban(id) else Kick(id)), tr), w')
    ensures Changed(w, key, w')
    ensures var r, r' := w.rooms[key], w'.rooms[key];
            && r'.banned == r.banned && r'.pending == r.pending && KeepsOpen(w', r.clients, r')
            && forall p :: p in r.clients ==> HeardFirst(w, w', r.clients[p].conn, PeerLeft(id))
  {
    hide Next, Executes, PlanOutbox, Sends;
    var c := if ban then Ban(id) else Kick(id);
    OrderRuns(cfg, w, k, c, tr, w', key);
    assert w.rooms[key].clients - {id} == w.rooms[key].clients;
    Broadcasts(w, w', Command(w.rooms[key], c).value, tr.t, tr.after);
  }

  /** The lead goes to the client named, if it is open, and every client hears of it. */
  lemma TransferDoes(cfg: Config, w: World, k: ConnId, id: u32, tr: Trace, w': World, key: Key)
    requires Orders(w, k, key) && id in w.rooms[key].clients
    requires Next(cfg, w, Message(k, ClientMessage.RoomControl(TransferHost(id)), tr), w')
    ensures Changed(w, key, w')
    ensures var r, r' := w.rooms[key], w'.rooms[key];
            && KeepsOpen(w', r.clients, r') && r'.pending == r.pending
            && (r.clients[id].conn !in w'.closed ==> r'.host == id)
            && forall p :: p in r.clients ==> HeardFirst(w, w', r.clients[p].conn, RoomEvent(HostTransferred(id)))
  {
    hide Next, Executes, PlanOutbox, Sends;
    OrderRuns(cfg, w, k, TransferHost(id), tr, w', key);
    Broadcasts(w, w', Command(w.rooms[key], TransferHost(id)).value, tr.t, tr.after);
  }

  /** Anybody else's command changes nothing and gets an error. */
  lemma StrangersCommand(cfg: Config, w: World, k: ConnId, c: Control, tr: Trace, w': World)
    requires HasRoom(w, k) && w.rooms[w.sessions[k].key].host != w.sessions[k].peer
    requires Next(cfg, w, Message(k, ClientMessage.RoomControl(c), tr), w')
    ensures w'.rooms == w.rooms && w'.sessions == w.sessions
    ensures OnlyHeard(w, w', k, [Error(Text(if c.CreateRoom? then "already in a room" else "forbidden or invalid"))])
  {
    hide Sends, Command;
    SentOnly(w, w', k, Answer(w, cfg, k, ClientMessage.RoomControl(c), tr).value);
  }
}
