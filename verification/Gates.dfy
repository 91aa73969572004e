/**
 * What each gate of the server lets through and what follows from it, in the words of the messages
 * and rooms themselves: who is admitted, whose move counts, where an input goes, who is told what.
 */
module Gates {
  import opened Types
  import opened RoomModel
  import opened ServerModel
  import opened Ownership
  import opened Runs
  import Steps
  import Ids
  import Seating

  // ---------- Logs ----------

  /** An open channel's log grew by exactly `msgs`; a channel that closed got a part of it. */
  ghost predicate Heard(w: World, w': World, c: ConnId, msgs: seq<ServerMessage>) {
    && (c !in w'.closed ==> w'.Log(c) == w.Log(c) + msgs)
    && w.Log(c) <= w'.Log(c) <= w.Log(c) + msgs
  }

  /** An open channel was handed `msg`, and perhaps more after it. */
  ghost predicate HeardFirst(w: World, w': World, c: ConnId, msg: ServerMessage) {
    c !in w'.closed ==> w.Log(c) + [msg] <= w'.Log(c)
  }

  lemma SentHeard(w: World, w': World, out: Outbox, c: ConnId)
    requires Sends(w, w', out)
    ensures Heard(w, w', c, Out(out, c)) && w.closed <= w'.closed
  {
    assert Offered(c in w.closed, c in w'.closed, w.Log(c), w'.Log(c), Out(out, c));
  }

  lemma SentFirst(w: World, w': World, out: Outbox, c: ConnId, msg: ServerMessage)
    requires Sends(w, w', out) && [msg] <= Out(out, c)
    ensures HeardFirst(w, w', c, msg)
  {
    SentHeard(w, w', out, c);
  }

  /** Nobody but `k` is told anything. */
  ghost predicate OnlyHeard(w: World, w': World, k: ConnId, msgs: seq<ServerMessage>) {
    Heard(w, w', k, msgs) && forall c: ConnId :: c != k ==> w'.Log(c) == w.Log(c)
  }

  lemma SentOnly(w: World, w': World, k: ConnId, msgs: seq<ServerMessage>)
    requires Sends(w, w', map[k := msgs])
    ensures OnlyHeard(w, w', k, msgs)
  {
    SentHeard(w, w', map[k := msgs], k);
    forall c: ConnId | c != k
      ensures w'.Log(c) == w.Log(c)
    {
      SentHeard(w, w', map[k := msgs], c);
    }
  }

  // ---------- Admission ----------

  /** A Hello the server takes at all. */
  predicate ValidHello(cfg: Config, h: HelloFields) {
    && 1 <= |h.appKey| <= 256 && |h.roomCode| <= 32 && 1 <= |h.clientHash| <= 256
    && (h.displayName.Some? ==> |h.displayName.value| <= 64)
    && (h.authToken.Some? ==> |h.authToken.value| <= 256)
    && (h.password.Some? ==> |h.password.value| <= 128)
    && (cfg.secret == [] || h.authToken == Some(cfg.secret))
    && h.appKey in cfg.apps
  }

  /** The password fits: there is none, it is given, or it is empty and left out. */
  predicate Unlocks(password: Option<Bytes>, given: Option<Bytes>) {
    password == None || given == password || (password == Some([]) && given == None)
  }

  predicate HasPlace(r: RoomState) { r.settings.maxPlayers == 0 || r.Occupancy() < r.settings.maxPlayers }

  /** A room lets a caller in. */
  ghost predicate LetsIn(r: RoomState, h: HelloFields) {
    && h.clientHash !in r.banned && HasPlace(r) && Unlocks(r.settings.password, h.password)
    && exists id: u32 :: 1 <= id && !r.InUse(id)
  }

  /** Why a room turns a caller away: the ban first, then the capacity, then the password, then the ids. */
  function DoorReason(r: RoomState, h: HelloFields): Bytes {
    if h.clientHash in r.banned then Text("banned from this room")
    else if !HasPlace(r) then Text("room full")
    else if !Unlocks(r.settings.password, h.password) then Text("invalid or missing room password")
    else Text("room full")
  }

  lemma RefusedIff(r: RoomState, h: HelloFields)
    requires RoomOk(r)
    ensures Refusal(r, h) == None <==> h.clientHash !in r.banned && HasPlace(r) && Unlocks(r.settings.password, h.password)
    ensures h.clientHash in r.banned ==> Refusal(r, h) == Some(Text("banned from this room"))
    ensures h.clientHash !in r.banned && !HasPlace(r) ==> Refusal(r, h) == Some(Text("room full"))
    ensures h.clientHash !in r.banned && HasPlace(r) && !Unlocks(r.settings.password, h.password) ==>
              Refusal(r, h) == Some(Text("invalid or missing room password"))
  {
    Seating.CountsFit(r);
  }

  lemma ValidIff(cfg: Config, h: HelloFields)
    ensures ValidHello(cfg, h) <==> HelloError(cfg, h) == None
  {
  }

  lemma AllocatedIff(r: RoomState, got: Option<u32>, nextId: u32)
    requires RoomOk(r) && Allocates(r, got, nextId)
    ensures got.Some? <==> exists id: u32 :: 1 <= id && !r.InUse(id)
  {
    Ids.AllocatorSound(r, got, nextId);
  }

  /** The room a Hello names. */
  function Named(h: HelloFields): Key { Key(h.appKey, Fold(h.roomCode)) }

  /**
   * A Hello opens a session if and only if it is valid and either asks for a new room, and a free
   * code was found, or names a pooled room that lets the caller in.
   */
  lemma HelloOpensIff(cfg: Config, w: World, k: ConnId, h: HelloFields, tr: Trace, w': World)
    requires Owned(w) && k !in w.sessions && Next(cfg, w, Message(k, Hello(h), tr), w')
    ensures tr.Admission?
    ensures k in w'.sessions <==>
            ValidHello(cfg, h) && (if h.roomCode == [] then tr.a.code.Some? else Named(h) in w.rooms && LetsIn(w.rooms[Named(h)], h))
  {
    hide Sends, HelloError, Refusal, Allocates, IsNextSide, Owned, LetsIn, ValidHello;
    ValidIff(cfg, h);
    if TurnedAway(w, cfg, h, tr.a) == None {
      var r := tr.entered;
      EnteredSound(w, cfg, h, tr.a, KeyOf(h, tr.a), r);
      LetInIff(r, h, tr.a);
    }
  }

  lemma EnteredSound(w: World, cfg: Config, h: HelloFields, a: AdmitTrace, key: Key, r: RoomState)
    requires Owned(w) && Enters(w, cfg, h, a, key, r)
    ensures RoomOk(r)
    ensures h.roomCode == [] ==> LetsIn(r, h)
  {
    if h.roomCode == [] {
      assert !r.InUse(1);
    }
  }

  lemma LetInIff(r: RoomState, h: HelloFields, a: AdmitTrace)
    requires RoomOk(r)
    ensures Refusal(r, h).Some? ==> !LetsIn(r, h)
    ensures Refusal(r, h) == None && Allocates(r, a.id, a.nextId) ==> (LetsIn(r, h) <==> a.id.Some?)
  {
    RefusedIff(r, h);
    if Allocates(r, a.id, a.nextId) {
      AllocatedIff(r, a.id, a.nextId);
    }
  }

  /** A step opens a session on the room under `key`. */
  predicate Opens(w: World, step: Step, w': World, key: Key) {
    && step.Message? && step.msg.Hello? && step.conn !in w.sessions
    && step.conn in w'.sessions && w'.sessions[step.conn].key == key
  }

  lemma OpenedNamed(cfg: Config, w: World, step: Step, w': World, key: Key)
    requires Owned(w) && Next(cfg, w, step, w') && Opens(w, step, w', key) && key in w.rooms
    ensures step.msg.hello.roomCode != [] && Named(step.msg.hello) == key && LetsIn(w.rooms[key], step.msg.hello)
  {
    HelloOpensIff(cfg, w, step.conn, step.msg.hello, step.trace, w');
    hide Sends, HelloError, Refusal, Allocates, IsNextSide, Owned, LetsIn, ValidHello;
  }

  /** Whoever enters a pooled room gave its password, if it has one. */
  lemma PasswordNeeded(cfg: Config, run: seq<Sys>, steps: seq<Step>, i: nat, key: Key)
    requires IsRun(cfg, run, steps) && i < |steps| && Opens(run[i].w, steps[i], run[i + 1].w, key) && key in run[i].w.rooms
    ensures Unlocks(run[i].w.rooms[key].settings.password, steps[i].msg.hello.password)
  {
    hide Next, HistNext, Owned, Unlocks;
    RunOwned(cfg, run, steps, i);
    assert SysNext(cfg, run[i], steps[i], run[i + 1]);
    OpenedNamed(cfg, run[i].w, steps[i], run[i + 1].w, key);
  }

  // ---------- Bans ----------

  /** The host of room `key` bans a client of hash `x`. */
  predicate Bans(w: World, step: Step, key: Key, x: Bytes) {
    && step.Message? && step.msg.RoomControl? && step.msg.control.Ban? && HasRoom(w, step.conn)
    && w.sessions[step.conn].key == key && w.sessions[step.conn].peer == w.rooms[key].host
    && step.msg.control.peer in w.rooms[key].clients && w.rooms[key].clients[step.msg.control.peer].hash == x
  }

  lemma CommandBans(r: RoomState, c: Control, closed: set<ConnId>, t: PruneTrace, r': RoomState, closed': set<ConnId>)
    requires Command(r, c).Some? && Executes(Command(r, c).value, closed, t, r', closed')
    ensures r.banned <= r'.banned
    ensures c.Ban? && c.peer in r.clients ==> r.clients[c.peer].hash in r'.banned
  {
    hide Prunes;
    var plan := Command(r, c).value;
    assert r.banned <= plan.room.banned;
    assert c.Ban? && c.peer in r.clients ==> r.clients[c.peer].hash in plan.room.banned;
    hide Command;
    if plan.say.Some? {
      Steps.PrunesFixtures(plan.room, closed, t, r', closed');
    }
  }

  /** Bans are only ever added, and a ban adds the hash. */
  lemma StepBans(cfg: Config, w: World, step: Step, w': World, key: Key)
    requires Next(cfg, w, step, w') && key in w.rooms && key in w'.rooms
    ensures w.rooms[key].banned <= w'.rooms[key].banned
    ensures forall x :: Bans(w, step, key, x) ==> x in w'.rooms[key].banned
  {
    hide Sends, Leaves, Acts, Answer;
    match step
    case Closing(_) =>
    case Departure(k, lt, after) =>
      if HasRoom(w, k) && w.sessions[k].key == key {
        Steps.LeavesFixtures(w.rooms[key], w.sessions[k].peer, w.closed, lt, after, w'.closed);
      }
    case Message(k, msg, tr) =>
      BanActs(w, cfg, k, msg, tr);
      if Answer(w, cfg, k, msg, tr) == None {
        ActBans(w, cfg, k, msg, tr, w', key);
      }
  }

  lemma BanActs(w: World, cfg: Config, k: ConnId, msg: ClientMessage, tr: Trace)
    ensures forall key, x :: Bans(w, Message(k, msg, tr), key, x) ==> Answer(w, cfg, k, msg, tr) == None
  {
  }

  lemma ActBans(w: World, cfg: Config, k: ConnId, msg: ClientMessage, tr: Trace, w': World, key: Key)
    requires Acts(w, cfg, k, msg, tr, w') && key in w.rooms && key in w'.rooms
    ensures w.rooms[key].banned <= w'.rooms[key].banned
    ensures forall x :: Bans(w, Message(k, msg, tr), key, x) ==> x in w'.rooms[key].banned
  {
    hide Sends, PrunesState, Executes, Command, Refusal, Allocates, IsNextSide;
    match msg
    case Hello(h) =>
    case Move(blob) => Steps.PrunesFixtures(w.rooms[w.sessions[k].key].(state := blob), w.closed, tr.t, tr.after, w'.closed);
    case Input(_) =>
    case RoomControl(c) => CommandBans(w.rooms[w.sessions[k].key], c, w.closed, tr.t, tr.after, w'.closed);
  }

  lemma {:induction false} BanStays(cfg: Config, run: seq<Sys>, steps: seq<Step>, j: nat, i: nat, key: Key, x: Bytes)
    requires IsRun(cfg, run, steps) && j < i < |run| && Bans(run[j].w, steps[j], key, x)
    requires forall m :: j < m <= i ==> key in run[m].w.rooms
    ensures x in run[i].w.rooms[key].banned
  {
    hide Next, HistNext, Bans;
    assert SysNext(cfg, run[i - 1], steps[i - 1], run[i]);
    if i == j + 1 {
      assert key in run[j].w.rooms by { BanPooled(run[j].w, steps[j], key, x); }
      StepBans(cfg, run[j].w, steps[j], run[i].w, key);
    } else {
      BanStays(cfg, run, steps, j, i - 1, key, x);
      StepBans(cfg, run[i - 1].w, steps[i - 1], run[i].w, key);
    }
  }

  lemma BanPooled(w: World, step: Step, key: Key, x: Bytes)
    requires Bans(w, step, key, x)
    ensures key in w.rooms
  {
  }

  /** A player once banned opens no session on the room as long as it stays pooled. */
  lemma BannedStayOut(cfg: Config, run: seq<Sys>, steps: seq<Step>, j: nat, i: nat, key: Key, x: Bytes)
    requires IsRun(cfg, run, steps) && j < i < |steps| && Bans(run[j].w, steps[j], key, x)
    requires forall m :: j < m <= i ==> key in run[m].w.rooms
    requires Opens(run[i].w, steps[i], run[i + 1].w, key)
    ensures steps[i].msg.hello.clientHash != x
  {
    hide Next, HistNext, Owned, Bans;
    BanStays(cfg, run, steps, j, i, key, x);
    RunOwned(cfg, run, steps, i);
    assert SysNext(cfg, run[i], steps[i], run[i + 1]);
    OpenedNamed(cfg, run[i].w, steps[i], run[i + 1].w, key);
  }

  // ---------- What an admission does ----------

  /** The room an admission finds: the one named, or a fresh one with the app's limits. */
  ghost predicate Found(cfg: Config, w: World, h: HelloFields, key: Key, r: RoomState) {
    if key in w.rooms then r == w.rooms[key]
    else
      && key.appKey == h.appKey == r.appKey && h.appKey in cfg.apps && Fold(r.code) == key.code
      && r.clients == map[] && r.pending == map[] && r.host == 0 && r.state == [] && r.banned == {}
      && r.settings == RoomSettings(cfg.apps[h.appKey].1, cfg.apps[h.appKey].0, false, None, false, None)
  }

  /** The newcomer is the host of an empty room, waits, or is a client at once; the room keeps all else. */
  predicate Placed(r: RoomState, id: u32, i: ClientInfo, r': RoomState) {
    && r'.settings == r.settings && r'.banned == r.banned && r'.state == r.state
    && if r.clients == map[] && r.pending == map[] then r'.host == id && r'.clients == map[id := i] && r'.pending == map[]
       else if r.settings.acceptRequired then r'.host == r.host && r'.clients == r.clients && r'.pending == r.pending[id := i]
       else r'.host == r.host && r'.clients == r.clients[id := i] && r'.pending == r.pending
  }

  /**
   * An admission seats the caller as it introduced itself, tells it its place, the host, the settings
   * without the password and the state, and tells the clients of it exactly if it is one of them.
   */
  lemma AdmissionEffect(cfg: Config, w: World, k: ConnId, h: HelloFields, tr: Trace, w': World)
    requires Owned(w) && k !in w.sessions && Next(cfg, w, Message(k, Hello(h), tr), w') && k in w'.sessions
    ensures var s := w'.sessions[k];
            && tr.Admission? && s.key in w'.rooms && Found(cfg, w, h, s.key, tr.entered)
            && w'.rooms == w.rooms[s.key := w'.rooms[s.key]] && w'.sessions == w.sessions[k := s]
            && Placed(tr.entered, s.peer, ClientInfo(h.clientHash, h.displayName, k, tr.a.side), w'.rooms[s.key])
    ensures var s := w'.sessions[k];
            var r, r' := tr.entered, w'.rooms[s.key];
            exists code :: Fold(code) == s.key.code && (h.roomCode != [] ==> code == h.roomCode) &&
              Heard(w, w', k, [Joined(code, s.peer, r'.host, tr.a.side, r.settings.(password := None), if r.state == [] then None else Some(r.state))])
    ensures var s := w'.sessions[k];
            var r, r' := tr.entered, w'.rooms[s.key];
            forall p :: p in r.clients ==>
              Heard(w, w', r.clients[p].conn, if s.peer in r'.clients then [PeerJoined(s.peer, h.clientHash, h.displayName)] else [])
  {
    hide Sends, HelloError, Refusal, Allocates, IsNextSide, Owned, AdmitOutbox, Seat, Enters;
    var s, r, a := w'.sessions[k], tr.entered, tr.a;
    assert Admits(w, cfg, k, h, a, KeyOf(h, a), r, w');
    EnteredFound(w, cfg, h, a, s.key, r);
    EnteredSound(w, cfg, h, a, s.key, r);
    var r1, code := r.(nextId := a.nextId), CodeOf(h, a);
    SeatPlaced(r1, s.peer, Newcomer(h, k, a.side));
    var out := AdmitOutbox(r1, h, k, code, s.peer, a.side);
    StrangersApart(w, cfg, h, a, s.key, r, k);
    Greeted(r1, h, k, code, s.peer, a.side);
    SentHeard(w, w', out, k);
    forall p | p in r.clients
      ensures Heard(w, w', r.clients[p].conn, if s.peer in w'.rooms[s.key].clients then [PeerJoined(s.peer, h.clientHash, h.displayName)] else [])
    {
      SentHeard(w, w', out, r.clients[p].conn);
    }
  }

  lemma EnteredFound(w: World, cfg: Config, h: HelloFields, a: AdmitTrace, key: Key, r: RoomState)
    requires Enters(w, cfg, h, a, key, r)
    ensures Found(cfg, w, h, key, r) && Fold(CodeOf(h, a)) == key.code
  {
  }

  lemma SeatPlaced(r: RoomState, id: u32, i: ClientInfo)
    ensures Placed(r, id, i, Seat(r, id, i))
  {
  }

  lemma StrangersApart(w: World, cfg: Config, h: HelloFields, a: AdmitTrace, key: Key, r: RoomState, k: ConnId)
    requires Owned(w) && k !in w.sessions && Enters(w, cfg, h, a, key, r)
    ensures k !in Conns(r.clients)
  {
    assert RoomOk(r);
    forall p | p in r.clients
      ensures r.clients[p].conn in w.sessions
    {
      assert r.Members()[p] == r.clients[p];
    }
  }

  lemma Greeted(r: RoomState, h: HelloFields, k: ConnId, code: Bytes, id: u32, side: byte)
    requires k !in Conns(r.clients)
    ensures var out, r' := AdmitOutbox(r, h, k, code, id, side), Seat(r, id, Newcomer(h, k, side));
            && Out(out, k) == [JoinedMessage(r', code, id, side)]
            && forall p :: p in r.clients ==>
                 Out(out, r.clients[p].conn) == if id in r'.clients then [PeerJoined(id, h.clientHash, h.displayName)] else []
  {
    hide Seat;
    assert forall p :: p in r.clients ==> r.clients[p].conn in Conns(r.clients);
  }

  /** A caller at the door of a pooled room that is turned away is told why: the ban first, then the capacity, then the password. */
  lemma RefusalTold(cfg: Config, w: World, k: ConnId, h: HelloFields, tr: Trace, w': World)
    requires Owned(w) && k !in w.sessions && Next(cfg, w, Message(k, Hello(h), tr), w') && k !in w'.sessions
    requires ValidHello(cfg, h) && h.roomCode != [] && Named(h) in w.rooms
    ensures w'.sessions == w.sessions && Named(h) in w'.rooms && w'.rooms == w.rooms[Named(h) := w'.rooms[Named(h)]]
    ensures w'.rooms[Named(h)] == w.rooms[Named(h)].(nextId := w'.rooms[Named(h)].nextId)
    ensures OnlyHeard(w, w', k, [Error(DoorReason(w.rooms[Named(h)], h))])
  {
    ValidIff(cfg, h);
    OwnedOk(w, Named(h));
    RefusedIff(w.rooms[Named(h)], h);
    hide Sends, HelloError, Refusal, Allocates, IsNextSide, Owned, ValidHello, Unlocks, HasPlace;
    assert KeyOf(h, tr.a) == Named(h);
    assert Admits(w, cfg, k, h, tr.a, Named(h), w.rooms[Named(h)], w');
    if Refusal(w.rooms[Named(h)], h).Some? {
      SentOnly(w, w', k, [Error(Refusal(w.rooms[Named(h)], h).value)]);
    } else {
      SentOnly(w, w', k, [Error(Text("room full"))]);
    }
  }

  /** A Hello that is not valid, or names no pooled room, changes nothing and gets one error. */
  lemma HelloTurnedAway(cfg: Config, w: World, k: ConnId, h: HelloFields, tr: Trace, w': World)
    requires Owned(w) && k !in w.sessions && Next(cfg, w, Message(k, Hello(h), tr), w')
    requires !ValidHello(cfg, h) || (h.roomCode != [] && Named(h) !in w.rooms)
    ensures w'.rooms == w.rooms && w'.sessions == w.sessions
    ensures exists why :: OnlyHeard(w, w', k, [Error(why)]) && (ValidHello(cfg, h) ==> why == Text("room not found"))
  {
    ValidIff(cfg, h);
    hide Sends, HelloError, Owned, ValidHello;
    SentOnly(w, w', k, [Error(TurnedAway(w, cfg, h, tr.a).value)]);
  }

  // ---------- Codes in any case ----------

  /** The same byte, or the same ASCII letter in the other case. */
  predicate SameLetter(a: byte, b: byte) {
    a == b || ('a' as int <= a <= 'z' as int && b == a - 32) || ('a' as int <= b <= 'z' as int && a == b - 32)
  }

  /** Two codes lead to one room exactly when they differ in case only. */
  lemma CaseFolds(appKey: Bytes, a: Bytes, b: Bytes)
    ensures Key(appKey, Fold(a)) == Key(appKey, Fold(b)) <==> |a| == |b| && forall i :: 0 <= i < |a| ==> SameLetter(a[i], b[i])
  {
    if |a| == |b| {
      forall i | 0 <= i < |a|
        ensures Fold(a)[i] == Fold(b)[i] <==> SameLetter(a[i], b[i])
      {
      }
      if forall i :: 0 <= i < |a| ==> SameLetter(a[i], b[i]) {
        assert Fold(a) == Fold(b);
      }
    } else {
      assert |Fold(a)| != |Fold(b)|;
    }
  }

  // ---------- Moves ----------

  /** A move counts exactly from the host's session and with at least the minimum of accepted players. */
  predicate MayMove(w: World, k: ConnId) {
    && HasRoom(w, k)
    && var r := w.rooms[w.sessions[k].key];
       r.host == w.sessions[k].peer && |r.clients| >= r.settings.minPlayers
  }

  lemma MayMoveIff(w: World, k: ConnId)
    requires Owned(w) && HasRoom(w, k)
    ensures var r := w.rooms[w.sessions[k].key];
            MoveRefusal(r, w.sessions[k].peer) ==
            if r.host != w.sessions[k].peer then Some(Text("only host can send moves"))
            else if |r.clients| < r.settings.minPlayers then Some(Text("minimum " + Decimal(r.settings.minPlayers) + " players required to start"))
            else None
  {
    OwnedOk(w, w.sessions[k].key);
    Seating.CountsFit(w.rooms[w.sessions[k].key]);
  }

  lemma MoveActs(cfg: Config, w: World, k: ConnId, blob: Bytes, tr: Trace, w': World)
    requires HasRoom(w, k) && Next(cfg, w, Message(k, ClientMessage.Move(blob), tr), w')
    ensures var key := w.sessions[k].key;
            var r, why := w.rooms[key].(state := blob), MoveRefusal(w.rooms[key], w.sessions[k].peer);
            if why.Some? then w'.rooms == w.rooms && w'.sessions == w.sessions && Sends(w, w', map[k := [MoveRejected(why.value)]])
            else
              && tr.Pruning? && PrunesState(r, w.closed, tr.t, tr.after, w'.closed)
              && w'.rooms == w.rooms[key := tr.after] && w'.sessions == w.sessions
              && Sends(w, w', Reply(StateOutbox(r, tr.t), k, [MoveAccepted]))
  {
    hide PrunesState, Sends, MoveRefusal, StateOutbox;
  }

  /** A move that counts becomes the room's state, reaches every member first of all, and is acknowledged. */
  lemma MoveTaken(cfg: Config, w: World, k: ConnId, blob: Bytes, tr: Trace, w': World)
    requires Owned(w) && MayMove(w, k) && Next(cfg, w, Message(k, ClientMessage.Move(blob), tr), w')
    ensures var key := w.sessions[k].key;
            && w'.sessions == w.sessions && key in w'.rooms && w'.rooms == w.rooms[key := w'.rooms[key]]
            && w'.rooms[key].state == blob && w'.rooms[key].settings == w.rooms[key].settings
            && (forall p :: p in w.rooms[key].Members() ==> HeardFirst(w, w', w.rooms[key].Members()[p].conn, StateUpdate(blob)))
    ensures k !in w'.closed ==> w'.Log(k) != [] && w'.Log(k)[|w'.Log(k)| - 1] == MoveAccepted
  {
    hide Next, Owned, MoveRefusal, PrunesState, Sends, StateOutbox, RoomOk;
    var key := w.sessions[k].key;
    var r := w.rooms[key].(state := blob);
    MayMoveIff(w, k);
    OwnedOk(w, key);
    MoveActs(cfg, w, k, blob, tr, w');
    var out := Reply(StateOutbox(r, tr.t), k, [MoveAccepted]);
    Steps.PrunesFixtures(r, w.closed, tr.t, tr.after, w'.closed);
    StateKeepsOk(w.rooms[key], blob);
    forall p | p in r.Members()
      ensures HeardFirst(w, w', r.Members()[p].conn, StateUpdate(blob))
    {
      StateFirst(r, tr.t, k, p);
      SentFirst(w, w', out, r.Members()[p].conn, StateUpdate(blob));
    }
    SentHeard(w, w', out, k);
  }

  lemma StateKeepsOk(r: RoomState, blob: Bytes)
    requires RoomOk(r)
    ensures RoomOk(r.(state := blob)) && r.(state := blob).Members() == r.Members()
  {
  }

  lemma StateFirst(r: RoomState, t: PruneTrace, k: ConnId, p: u32)
    requires RoomOk(r) && p in r.Members()
    ensures [StateUpdate(r.state)] <= Out(Reply(StateOutbox(r, t), k, [MoveAccepted]), r.Members()[p].conn)
  {
    assert r.Members()[p] == if p in r.clients then r.clients[p] else r.pending[p];
    assert r.Members()[p].conn in Conns(r.clients) + Conns(r.pending);
    assert [StateUpdate(r.state)] <= PruneScript(StateUpdate(r.state), t);
    hide PruneScript;
  }

  /** Any other move changes nothing, and only its sender hears, why. */
  lemma MoveRefused(cfg: Config, w: World, k: ConnId, blob: Bytes, tr: Trace, w': World)
    requires Owned(w) && HasRoom(w, k) && !MayMove(w, k) && Next(cfg, w, Message(k, ClientMessage.Move(blob), tr), w')
    ensures w'.rooms == w.rooms && w'.sessions == w.sessions
    ensures var r := w.rooms[w.sessions[k].key];
            OnlyHeard(w, w', k, [MoveRejected(
              if r.host != w.sessions[k].peer then Text("only host can send moves")
              else Text("minimum " + Decimal(r.settings.minPlayers) + " players required to start"))])
  {
    hide Next, Owned, MoveRefusal, Sends, Decimal;
    MayMoveIff(w, k);
    MoveActs(cfg, w, k, blob, tr, w');
    var why := MoveRefusal(w.rooms[w.sessions[k].key], w.sessions[k].peer);
    SentOnly(w, w', k, [MoveRejected(why.value)]);
  }

  // ---------- Inputs ----------

  /** An input goes under its sender's id to the host's channel and nowhere else, and to nobody if the host sent it or is no client. */
  lemma InputRelayed(cfg: Config, w: World, k: ConnId, blob: Bytes, tr: Trace, w': World)
    requires HasRoom(w, k) && Next(cfg, w, Message(k, ClientMessage.Input(blob), tr), w')
    ensures w'.rooms == w.rooms && w'.sessions == w.sessions
    ensures var s := w.sessions[k];
            var r := w.rooms[s.key];
            if r.host in r.clients && r.host != s.peer then OnlyHeard(w, w', r.clients[r.host].conn, [PeerInput(s.peer, blob)])
            else forall c: ConnId :: w'.Log(c) == w.Log(c)
  {
    hide Sends;
    var r := w.rooms[w.sessions[k].key];
    if r.host in r.clients && r.host != w.sessions[k].peer {
      SentOnly(w, w', r.clients[r.host].conn, [PeerInput(w.sessions[k].peer, blob)]);
    } else {
      NothingSent(w, w');
    }
  }

  lemma NothingSent(w: World, w': World)
    requires Sends(w, w', map[])
    ensures forall c: ConnId :: w'.Log(c) == w.Log(c)
  {
    forall c: ConnId
      ensures w'.Log(c) == w.Log(c)
    {
      SentHeard(w, w', map[], c);
    }
  }

  // ---------- Requests ----------

  /** Who asks for the state is sent it, if it is in a room that has one, and nobody else hears anything. */
  lemma StateRequested(cfg: Config, w: World, k: ConnId, tr: Trace, w': World)
    requires Next(cfg, w, Message(k, RequestState, tr), w')
    ensures w'.rooms == w.rooms && w'.sessions == w.sessions
    ensures var state := if HasRoom(w, k) then w.rooms[w.sessions[k].key].state else [];
            OnlyHeard(w, w', k, if state != [] then [StateUpdate(state)] else [])
  {
    hide Sends;
    SentOnly(w, w', k, Answer(w, cfg, k, RequestState, tr).value);
  }

  /** A room is listed exactly if it is the app's, public, and has a place left. */
  lemma ListedIff(w: World, appKey: Bytes, keys: seq<Key>, entries: seq<RoomListEntry>, key: Key)
    requires Owned(w) && Lists(w, appKey, keys, entries)
    ensures key in keys <==> key in w.rooms && key.appKey == appKey && w.rooms[key].settings.isPublic && HasPlace(w.rooms[key])
  {
    if key in w.rooms {
      OwnedOk(w, key);
      Seating.CountsFit(w.rooms[key]);
    }
  }

  /** A listing is answered with the app's listed rooms, or an error for an app that is not registered; nothing changes. */
  lemma ListAnswered(cfg: Config, w: World, k: ConnId, appKey: Bytes, tr: Trace, w': World)
    requires Next(cfg, w, Message(k, ListRooms(appKey), tr), w')
    ensures w'.rooms == w.rooms && w'.sessions == w.sessions
    ensures appKey !in cfg.apps ==> OnlyHeard(w, w', k, [Error(Text("unregistered game type"))])
    ensures appKey in cfg.apps ==> tr.Listing? && Lists(w, appKey, tr.keys, tr.entries) && OnlyHeard(w, w', k, [RoomList(tr.entries)])
  {
    hide Sends, Lists;
    SentOnly(w, w', k, Answer(w, cfg, k, ListRooms(appKey), tr).value);
  }

  /** What a connection without a room is told; nothing changes. */
  lemma RoomlessTold(cfg: Config, w: World, k: ConnId, msg: ClientMessage, tr: Trace, w': World)
    requires Next(cfg, w, Message(k, msg, tr), w') && !HasRoom(w, k)
    requires msg.Move? || msg.Input? || msg.RoomControl?
    ensures w'.rooms == w.rooms && w'.sessions == w.sessions
    ensures OnlyHeard(w, w', k,
              if k !in w.sessions then [Error(Text("not in a room"))]
              else if msg.RoomControl? && msg.control.CreateRoom? then [Error(Text("already in a room"))]
              else [])
  {
    hide Sends;
    SentOnly(w, w', k, Answer(w, cfg, k, msg, tr).value);
  }

  lemma PingAnswered(cfg: Config, w: World, k: ConnId, tr: Trace, w': World)
    requires Next(cfg, w, Message(k, Ping, tr), w')
    ensures w'.rooms == w.rooms && w'.sessions == w.sessions && OnlyHeard(w, w', k, [Pong])
  {
    hide Sends;
    SentOnly(w, w', k, [Pong]);
  }
}
