/**
 * Runs from the start of the server in which something one might expect does not hold. No channel
 * closes in them, so every message offered is received and nobody is pruned.
 */
module Witnesses {
  import opened Types
  import opened RoomModel
  import opened ServerModel
  import Ownership
  import opened Runs
  import RoomCodes
  import Views
  import Agreement
  import Hosts
  import Waiting
  import Steps
  import Ids
  import Seating

  // ---------- Steps in which nothing closes ----------

  const QUIET := PruneTrace([], {}, None)

  /** The world after `out` was offered. */
  function Delivered(w: World, rooms: map<Key, RoomState>, sessions: map<ConnId, Session>, out: Outbox): World {
    World(rooms, sessions, w.closed, map c | c in w.sent.Keys + out.Keys :: w.Log(c) + Out(out, c))
  }

  lemma DeliveredSends(w: World, rooms: map<Key, RoomState>, sessions: map<ConnId, Session>, out: Outbox)
    requires w.closed == {}
    ensures Sends(w, Delivered(w, rooms, sessions, out), out)
  {
  }

  lemma NobodyPruned(r: RoomState)
    ensures Prunes(r, {}, QUIET, r, {})
  {
    assert r.clients - {} == r.clients;
  }

  /** A run that goes as far as world `w`. */
  ghost predicate GetsTo(cfg: Config, run: seq<Sys>, steps: seq<Step>, w: World) {
    IsRun(cfg, run, steps) && Agreement.CalmRun(run, steps) && run[|steps|].w == w && w.closed == {}
  }

  lemma Begin(cfg: Config)
    ensures GetsTo(cfg, [START], [], INITIAL)
  {
  }

  lemma GoOn(cfg: Config, run: seq<Sys>, steps: seq<Step>, w: World, step: Step, w': World) returns (run': seq<Sys>, steps': seq<Step>)
    requires GetsTo(cfg, run, steps, w) && Next(cfg, w, step, w') && w'.closed == {}
    ensures GetsTo(cfg, run', steps', w') && run <= run' && steps' == steps + [step]
  {
    hide Next, HistNext;
    var next := Sys(w', HistNext(w, run[|steps|].h, step, w'));
    RunExtends(cfg, run, steps, step, next);
    run', steps' := run + [next], steps + [step];
    forall i | 0 <= i < |steps'|
      ensures Calm(run'[i].w, steps'[i], run'[i + 1].w)
    {
    }
  }

  // ---------- The cast ----------

  const APP: Bytes := [0x70]
  const CODE: Bytes := [0x41, 0x41, 0x41, 0x41, 0x41, 0x41]
  const ROOM := Key(APP, CODE)
  const OPEN := RoomSettings(0, 0, false, None, false, None)
  const GATED := RoomSettings(0, 0, false, None, true, None)
  const CFG := Config(map[APP := (0, 0)], [])

  function Greeting(code: Bytes): HelloFields { HelloFields(APP, code, [0x68], None, None, None) }

  function Player(k: ConnId, side: byte): ClientInfo { ClientInfo([0x68], None, k, side) }

  function Room(host: u32, clients: map<u32, ClientInfo>, pending: map<u32, ClientInfo>, settings: RoomSettings, nextId: u32): RoomState {
    RoomState(APP, CODE, host, clients, pending, [], settings, {}, nextId)
  }

  lemma CodeFits()
    ensures RoomCodes.IsMade(CODE) && Fold(CODE) == CODE && |CODE| == 6
  {
    assert RoomCodes.ROOM_CODE_CHARS[0] == 0x41;
    assert RoomCodes.IsGenerated(CODE);
  }

  /** Connection `k` creates the room, or joins it, under the next id. */
  lemma HelloStep(w: World, k: ConnId, r: RoomState, id: u32, side: byte) returns (step: Step, w': World)
    requires w.closed == {} && k !in w.sessions && id < U32_MAX
    requires if ROOM in w.rooms then r == w.rooms[ROOM] else r == NewRoom(APP, CODE, OPEN)
    requires r.settings.maxPlayers == 0 && r.settings.password == None && r.banned == {}
    requires r.nextId == id && !r.InUse(id) && IsNextSide(r, side)
    ensures Next(CFG, w, step, w') && w'.closed == {} && step.Message? && step.msg.Hello?
    ensures w'.rooms == w.rooms[ROOM := Seat(r.(nextId := id + 1), id, Player(k, side))]
    ensures w'.sessions == w.sessions[k := Session(ROOM, id)]
  {
    hide IsNextSide, Sends, Enters, Refusal, Allocates, HelloError, Seat, AdmitOutbox;
    var code := if ROOM in w.rooms then CODE else [];
    var h, a := Greeting(code), AdmitTrace(Some(CODE), Some(id), id + 1, side);
    GreetingEnters(w, code, a, r);
    GreetingSeated(r, code, a, id);
    var out := AdmitOutbox(r.(nextId := id + 1), h, k, CODE, id, side);
    w' := Delivered(w, w.rooms[ROOM := Seat(r.(nextId := id + 1), id, Newcomer(h, k, side))], w.sessions[k := Session(ROOM, id)], out);
    DeliveredSends(w, w'.rooms, w'.sessions, out);
    step := Message(k, Hello(h), Admission(a, r));
    assert Admits(w, CFG, k, h, a, ROOM, r, w');
  }

  lemma GreetingEnters(w: World, code: Bytes, a: AdmitTrace, r: RoomState)
    requires a.code == Some(CODE) && code == (if ROOM in w.rooms then CODE else [])
    requires if ROOM in w.rooms then r == w.rooms[ROOM] else r == NewRoom(APP, CODE, OPEN)
    ensures HelloError(CFG, Greeting(code)) == None && CodeOf(Greeting(code), a) == CODE && KeyOf(Greeting(code), a) == ROOM
    ensures Enters(w, CFG, Greeting(code), a, ROOM, r)
  {
    hide RoomCodes.IsMade;
    CodeFits();
    assert DefaultSettings((0, 0)) == OPEN;
  }

  lemma GreetingSeated(r: RoomState, code: Bytes, a: AdmitTrace, id: u32)
    requires r.settings.maxPlayers == 0 && r.settings.password == None && r.banned == {}
    requires r.nextId == id < U32_MAX && !r.InUse(id) && a.id == Some(id) && a.nextId == id + 1
    ensures Refusal(r, Greeting(code)) == None && Allocates(r, a.id, a.nextId)
  {
  }

  /** The host of the room, by its session, gives a command. */
  lemma CommandStep(w: World, k: ConnId, c: Control, r': RoomState) returns (step: Step, w': World)
    requires w.closed == {} && k in w.sessions && w.sessions[k].key == ROOM && ROOM in w.rooms && !c.Leave? && !c.CreateRoom?
    requires w.rooms[ROOM].host == w.sessions[k].peer && Command(w.rooms[ROOM], c).Some? && Command(w.rooms[ROOM], c).value.room == r'
    ensures Next(CFG, w, step, w') && w'.closed == {}
    ensures w'.rooms == w.rooms[ROOM := r'] && w'.sessions == w.sessions
    ensures step.Message? && step.conn == k && step.msg == ClientMessage.RoomControl(c)
  {
    hide Sends, PlanOutbox, Command;
    var plan := Command(w.rooms[ROOM], c).value;
    NobodyPruned(r');
    hide Prunes;
    var out := PlanOutbox(plan, QUIET);
    w' := Delivered(w, w.rooms[ROOM := r'], w.sessions, out);
    DeliveredSends(w, w'.rooms, w'.sessions, out);
    step := Message(k, ClientMessage.RoomControl(c), Pruning(QUIET, r'));
  }

  /** A connection goes that leaves no client behind, or is not the host. */
  lemma DepartStep(w: World, k: ConnId, r': RoomState) returns (step: Step, w': World)
    requires w.closed == {} && k in w.sessions && w.sessions[k].key == ROOM && ROOM in w.rooms
    requires r' == Without(w.rooms[ROOM], w.sessions[k].peer) && (r'.host != w.sessions[k].peer || r'.clients == map[])
    ensures Next(CFG, w, step, w') && w'.closed == {}
    ensures w'.rooms == (if r'.Empty() then w.rooms - {ROOM} else w.rooms[ROOM := r']) && w'.sessions == w.sessions - {k}
  {
    hide Sends, LeaveScript;
    var lt := LeaveTrace(QUIET, r', {}, None, QUIET);
    NobodyPruned(r');
    hide Prunes;
    var out := Broadcast(r'.clients, LeaveScript(w.sessions[k].peer, lt));
    w' := Delivered(w, if r'.Empty() then w.rooms - {ROOM} else w.rooms[ROOM := r'], w.sessions - {k}, out);
    DeliveredSends(w, w'.rooms, w'.sessions, out);
    step := Departure(k, lt, r');
  }

  // ---------- Runs made of such steps ----------

  lemma Comes(run: seq<Sys>, steps: seq<Step>, w: World, k: ConnId, r: RoomState, id: u32, side: byte, r': RoomState)
    returns (run': seq<Sys>, steps': seq<Step>, w': World)
    requires GetsTo(CFG, run, steps, w) && k !in w.sessions && id < U32_MAX
    requires if ROOM in w.rooms then r == w.rooms[ROOM] else r == NewRoom(APP, CODE, OPEN)
    requires r.settings.maxPlayers == 0 && r.settings.password == None && r.banned == {}
    requires r.nextId == id && !r.InUse(id) && IsNextSide(r, side)
    requires r' == Seat(r.(nextId := id + 1), id, Player(k, side))
    ensures GetsTo(CFG, run', steps', w') && run <= run' && |steps'| == |steps| + 1
    ensures w'.rooms == w.rooms[ROOM := r'] && w'.sessions == w.sessions[k := Session(ROOM, id)]
  {
    hide Next, IsNextSide, IsRun;
    var step;
    step, w' := HelloStep(w, k, r, id, side);
    run', steps' := GoOn(CFG, run, steps, w, step, w');
  }

  lemma Orders(run: seq<Sys>, steps: seq<Step>, w: World, k: ConnId, c: Control, r': RoomState)
    returns (run': seq<Sys>, steps': seq<Step>, w': World)
    requires GetsTo(CFG, run, steps, w)
    requires k in w.sessions && w.sessions[k].key == ROOM && ROOM in w.rooms && !c.Leave? && !c.CreateRoom?
    requires w.rooms[ROOM].host == w.sessions[k].peer && Command(w.rooms[ROOM], c).Some? && Command(w.rooms[ROOM], c).value.room == r'
    ensures GetsTo(CFG, run', steps', w') && run <= run' && |steps'| == |steps| + 1
    ensures w'.rooms == w.rooms[ROOM := r'] && w'.sessions == w.sessions
    ensures steps'[|steps|].Message? && steps'[|steps|].msg == ClientMessage.RoomControl(c)
  {
    hide Next, IsRun, Command;
    var step;
    step, w' := CommandStep(w, k, c, r');
    run', steps' := GoOn(CFG, run, steps, w, step, w');
  }

  lemma Goes(run: seq<Sys>, steps: seq<Step>, w: World, k: ConnId, r': RoomState)
    returns (run': seq<Sys>, steps': seq<Step>, w': World)
    requires GetsTo(CFG, run, steps, w)
    requires k in w.sessions && w.sessions[k].key == ROOM && ROOM in w.rooms
    requires r' == Without(w.rooms[ROOM], w.sessions[k].peer) && (r'.host != w.sessions[k].peer || r'.clients == map[])
    ensures GetsTo(CFG, run', steps', w') && run <= run' && |steps'| == |steps| + 1
    ensures w'.rooms == (if r'.Empty() then w.rooms - {ROOM} else w.rooms[ROOM := r']) && w'.sessions == w.sessions - {k}
  {
    hide Next, IsRun;
    var step;
    step, w' := DepartStep(w, k, r');
    run', steps' := GoOn(CFG, run, steps, w, step, w');
  }

  lemma NextSideIs(r: RoomState, side: byte)
    requires r.settings.maxPlayers == 0 && forall s: byte :: s in UsedSides(r) <==> s < side
    ensures IsNextSide(r, side)
  {
    assert side <= MaxSide(r.settings) && side !in UsedSides(r);
  }

  /** Two players in an open room. */
  lemma TwoPlayers() returns (run: seq<Sys>, steps: seq<Step>, w: World)
    ensures GetsTo(CFG, run, steps, w) && |steps| == 2
    ensures w.rooms == map[ROOM := Room(1, map[1 := Player(1, 0), 2 := Player(2, 1)], map[], OPEN, 3)]
    ensures w.sessions == map[1 := Session(ROOM, 1), 2 := Session(ROOM, 2)]
  {
    hide GetsTo, IsNextSide;
    Begin(CFG);
    run, steps, w := [START], [], INITIAL;
    var r0 := NewRoom(APP, CODE, OPEN);
    NextSideIs(r0, 0);
    var r1 := Room(1, map[1 := Player(1, 0)], map[], OPEN, 2);
    run, steps, w := Comes(run, steps, w, 1, r0, 1, 0, r1);
    assert 1 in r1.clients;
    NextSideIs(r1, 1);
    run, steps, w := Comes(run, steps, w, 2, r1, 2, 1, Room(1, map[1 := Player(1, 0), 2 := Player(2, 1)], map[], OPEN, 3));
  }

  /** A host kicks itself, and the client left behind is led by nobody. */
  lemma HostKicksItself() returns (run: seq<Sys>, steps: seq<Step>, w: World)
    ensures GetsTo(CFG, run, steps, w) && ROOM in w.rooms && w.rooms[ROOM].clients != map[] && w.rooms[ROOM].host !in w.rooms[ROOM].clients
    ensures w.rooms == map[ROOM := Room(1, map[2 := Player(2, 1)], map[], OPEN, 3)]
    ensures w.sessions == map[1 := Session(ROOM, 1), 2 := Session(ROOM, 2)]
  {
    hide GetsTo;
    run, steps, w := TwoPlayers();
    var r' := Room(1, map[2 := Player(2, 1)], map[], OPEN, 3);
    assert w.rooms[ROOM].clients - {1} == r'.clients;
    run, steps, w := Orders(run, steps, w, 1, Kick(1), r');
    assert 2 in r'.clients;
  }

  /** A room with its host and one peer that waits. */
  lemma HostAndWaiter(run0: seq<Sys>, steps0: seq<Step>, w0: World, host: ConnId, waiter: ConnId)
    returns (run: seq<Sys>, steps: seq<Step>, w: World)
    requires GetsTo(CFG, run0, steps0, w0) && ROOM !in w0.rooms && host !in w0.sessions && waiter !in w0.sessions && host != waiter
    ensures GetsTo(CFG, run, steps, w)
    ensures w.rooms == w0.rooms[ROOM := Room(1, map[1 := Player(host, 0)], map[2 := Player(waiter, 1)], GATED, 3)]
    ensures w.sessions == w0.sessions[host := Session(ROOM, 1)][waiter := Session(ROOM, 2)]
  {
    hide GetsTo, IsNextSide;
    run, steps, w := run0, steps0, w0;
    var r0 := NewRoom(APP, CODE, OPEN);
    NextSideIs(r0, 0);
    var r1 := Room(1, map[1 := Player(host, 0)], map[], OPEN, 2);
    run, steps, w := Comes(run, steps, w, host, r0, 1, 0, r1);
    var r2 := r1.(settings := GATED);
    run, steps, w := Orders(run, steps, w, host, UpdateSettings(GATED), r2);
    assert 1 in r2.clients;
    NextSideIs(r2, 1);
    run, steps, w := Comes(run, steps, w, waiter, r2, 2, 1, Room(1, map[1 := Player(host, 0)], map[2 := Player(waiter, 1)], GATED, 3));
  }

  /** The host of a room with one waiting peer leaves; whether others must wait is up to `settings`. */
  lemma OneWaits(run0: seq<Sys>, steps0: seq<Step>, w0: World, host: ConnId, waiter: ConnId, settings: RoomSettings)
    returns (run: seq<Sys>, steps: seq<Step>, w: World)
    requires GetsTo(CFG, run0, steps0, w0) && ROOM !in w0.rooms && host !in w0.sessions && waiter !in w0.sessions && host != waiter
    ensures GetsTo(CFG, run, steps, w)
    ensures w.rooms == w0.rooms[ROOM := Room(1, map[], map[2 := Player(waiter, 1)], settings, 3)]
    ensures w.sessions == w0.sessions[waiter := Session(ROOM, 2)]
  {
    hide GetsTo;
    run, steps, w := HostAndWaiter(run0, steps0, w0, host, waiter);
    var r4 := Room(1, map[1 := Player(host, 0)], map[2 := Player(waiter, 1)], settings, 3);
    run, steps, w := Orders(run, steps, w, host, UpdateSettings(settings), r4);
    var r5 := Room(1, map[], map[2 := Player(waiter, 1)], settings, 3);
    assert r4.clients - {1} == map[] && r4.pending - {1} == r5.pending;
    assert 2 in r5.pending;
    run, steps, w := Goes(run, steps, w, host, r5);
    assert w.sessions == w0.sessions[waiter := Session(ROOM, 2)];
  }

  /** A newcomer enters a room where everyone waits, and is led by nobody. */
  lemma NewcomerAmongWaiters() returns (run: seq<Sys>, steps: seq<Step>, w: World)
    ensures GetsTo(CFG, run, steps, w) && ROOM in w.rooms && w.rooms[ROOM].clients != map[] && w.rooms[ROOM].host !in w.rooms[ROOM].clients
  {
    hide GetsTo, IsNextSide;
    Begin(CFG);
    run, steps, w := OneWaits([START], [], INITIAL, 1, 2, OPEN);
    var r := w.rooms[ROOM];
    assert 2 in r.pending;
    var side := Seating.NextSideExists(r);
    var r' := Room(1, map[3 := Player(3, side)], map[2 := Player(2, 1)], OPEN, 4);
    run, steps, w := Comes(run, steps, w, 3, r, 3, side, r');
    assert 3 in r'.clients;
  }

  /**
   * A session left over from a reclaimed room bears the id of the absent host of a new room under
   * the same code. It accepts a waiting peer there, who is then led by nobody.
   */
  lemma LeftOverSessionAccepts() returns (run: seq<Sys>, steps: seq<Step>, w: World)
    ensures GetsTo(CFG, run, steps, w) && ROOM in w.rooms && w.rooms[ROOM].clients != map[] && w.rooms[ROOM].host !in w.rooms[ROOM].clients
  {
    hide GetsTo;
    run, steps, w := HostKicksItself();
    var r := w.rooms[ROOM];
    var empty := Room(1, map[], map[], OPEN, 3);
    assert r.clients - {2} == map[] && r.pending - {2} == map[];
    run, steps, w := Goes(run, steps, w, 2, empty);
    assert w.rooms == map[];
    run, steps, w := OneWaits(run, steps, w, 3, 4, GATED);
    var waiting := Room(1, map[], map[2 := Player(4, 1)], GATED, 3);
    var r' := Room(1, map[2 := Player(4, 1)], map[], GATED, 3);
    assert waiting.pending - {2} == map[] && waiting.clients[2 := Player(4, 1)] == r'.clients;
    run, steps, w := Orders(run, steps, w, 1, AcceptPeer(2), r');
    assert 2 in r'.clients;
  }

  function Both(): map<u32, ClientInfo> { map[1 := Player(1, 0), 2 := Player(2, 1)] }

  lemma StillAt(run: seq<Sys>, run': seq<Sys>, m: nat, key: Key)
    requires run <= run' && m < |run|
    ensures Waiting.At(run', m, key) == Waiting.At(run, m, key)
  {
  }

  lemma NowAt(run: seq<Sys>, steps: seq<Step>, w: World, r: RoomState)
    requires GetsTo(CFG, run, steps, w) && w.rooms == map[ROOM := r]
    ensures |run| == |steps| + 1 && Waiting.At(run, |steps|, ROOM) == Some(r)
  {
  }

  /** A third player comes to a room of two that others must wait for. */
  lemma ThirdWaits() returns (run: seq<Sys>, steps: seq<Step>, w: World)
    ensures GetsTo(CFG, run, steps, w) && |steps| == 4 && |run| == 5
    ensures Waiting.At(run, 3, ROOM) == Some(Room(1, Both(), map[], GATED, 3))
    ensures Waiting.At(run, 4, ROOM) == Some(Room(1, Both(), map[3 := Player(3, 2)], GATED, 4))
    ensures w.rooms == map[ROOM := Room(1, Both(), map[3 := Player(3, 2)], GATED, 4)]
    ensures w.sessions == map[1 := Session(ROOM, 1), 2 := Session(ROOM, 2), 3 := Session(ROOM, 3)]
  {
    hide GetsTo, IsNextSide, Waiting.At;
    run, steps, w := TwoPlayers();
    var r3 := Room(1, Both(), map[], GATED, 3);
    run, steps, w := Orders(run, steps, w, 1, UpdateSettings(GATED), r3);
    NowAt(run, steps, w, r3);
    var run3 := run;
    assert 1 in r3.clients && 2 in r3.clients;
    NextSideIs(r3, 2);
    var r4 := Room(1, Both(), map[3 := Player(3, 2)], GATED, 4);
    run, steps, w := Comes(run, steps, w, 3, r3, 3, 2, r4);
    NowAt(run, steps, w, r4);
    StillAt(run3, run, 3, ROOM);
  }

  /** The lead passes to the second player, who accepts the third. */
  lemma ThirdAccepted() returns (run: seq<Sys>, steps: seq<Step>, w: World)
    ensures GetsTo(CFG, run, steps, w) && |steps| == 6 && |run| == 7
    ensures Waiting.At(run, 3, ROOM) == Some(Room(1, Both(), map[], GATED, 3))
    ensures Waiting.At(run, 4, ROOM) == Some(Room(1, Both(), map[3 := Player(3, 2)], GATED, 4))
    ensures Waiting.At(run, 5, ROOM) == Some(Room(2, Both(), map[3 := Player(3, 2)], GATED, 4))
    ensures Waiting.At(run, 6, ROOM) == Some(Room(2, Both()[3 := Player(3, 2)], map[], GATED, 4))
    ensures steps[5].Message? && steps[5].msg == ClientMessage.RoomControl(AcceptPeer(3))
  {
    hide GetsTo, Waiting.At;
    run, steps, w := ThirdWaits();
    var run4 := run;
    var r5 := Room(2, Both(), map[3 := Player(3, 2)], GATED, 4);
    assert 2 in Both();
    run, steps, w := Orders(run, steps, w, 1, TransferHost(2), r5);
    NowAt(run, steps, w, r5);
    var run5 := run;
    var r6 := Room(2, Both()[3 := Player(3, 2)], map[], GATED, 4);
    assert 3 in r5.pending && r5.pending - {3} == map[];
    run, steps, w := Orders(run, steps, w, 2, AcceptPeer(3), r6);
    NowAt(run, steps, w, r6);
    StillAt(run4, run5, 3, ROOM);
    StillAt(run4, run5, 4, ROOM);
    StillAt(run5, run, 3, ROOM);
    StillAt(run5, run, 4, ROOM);
    StillAt(run5, run, 5, ROOM);
  }

  lemma RunAt(run: seq<Sys>, steps: seq<Step>, w: World)
    requires GetsTo(CFG, run, steps, w)
    ensures |run| == |steps| + 1 && run[|steps|].w == w && w.closed == {}
    ensures IsRun(CFG, run, steps) && Agreement.CalmRun(run, steps)
  {
  }

  lemma ThirdStays(run: seq<Sys>)
    requires |run| == 7
    requires Waiting.At(run, 3, ROOM) == Some(Room(1, Both(), map[], GATED, 3))
    requires Waiting.At(run, 4, ROOM) == Some(Room(1, Both(), map[3 := Player(3, 2)], GATED, 4))
    requires Waiting.At(run, 5, ROOM) == Some(Room(2, Both(), map[3 := Player(3, 2)], GATED, 4))
    requires Waiting.At(run, 6, ROOM) == Some(Room(2, Both()[3 := Player(3, 2)], map[], GATED, 4))
    ensures Waiting.Stays(run, 4, 6, 6, ROOM, 3)
  {
    hide Waiting.At;
    assert 3 in map[3 := Player(3, 2)] && 3 in Both()[3 := Player(3, 2)] && 3 !in Both();
    assert Waiting.Waiter(run, 4, ROOM, 3) && Waiting.Waiter(run, 5, ROOM, 3) && Waiting.Client(run, 6, ROOM, 3);
  }

  lemma AcceptanceSilent(run: seq<Sys>, steps: seq<Step>)
    requires |run| == 7 && |steps| == 6 && steps[5].Message? && steps[5].msg == ClientMessage.RoomControl(AcceptPeer(3))
    requires Waiting.At(run, 5, ROOM).Some? && Waiting.At(run, 6, ROOM).Some?
    requires Waiting.At(run, 5, ROOM).value.host == Waiting.At(run, 6, ROOM).value.host
    ensures !Waiting.Announced(run, steps, 5, 6, ROOM)
  {
    assert !Waiting.Announces(run[5].w, steps[5], run[6].w, ROOM);
  }

  /** A peer waits through a transfer of the lead, is accepted, and takes the former host for the host. */
  lemma AcceptedButMisled() returns (run: seq<Sys>, steps: seq<Step>)
    ensures IsRun(CFG, run, steps) && Agreement.CalmRun(run, steps) && |steps| == 6
    ensures Waiting.Client(run, 6, ROOM, 3) && Waiting.OpenAt(run, 6, ROOM, 3)
    ensures Waiting.HostAt(run, 6, ROOM) == 2 && Waiting.Names(run, 6, ROOM, 3) == 1
  {
    hide IsRun, Agreement.CalmRun, Waiting.Names, Waiting.Announced, Waiting.Stays, Waiting.Announces, GetsTo;
    var w;
    run, steps, w := ThirdAccepted();
    RunAt(run, steps, w);
    ThirdStays(run);
    AcceptanceSilent(run, steps);
    assert 3 in Both()[3 := Player(3, 2)];
    Waiting.ClientNames(CFG, run, steps, 4, 6, 6, ROOM, 3);
  }

  // ---------- A crowd ----------

  /** A room that `n` players joined one after the other, the limit being off. */
  ghost predicate Crowd(r: RoomState, n: nat) {
    && r.settings == OPEN && r.banned == {} && r.nextId == n + 1 && r.pending == map[]
    && forall p: u32 :: p in r.clients <==> 1 <= p <= n
  }

  lemma {:induction false} CrowdJoins(n: nat) returns (run: seq<Sys>, steps: seq<Step>, w: World)
    requires 0 < n < U32_MAX
    ensures GetsTo(CFG, run, steps, w) && ROOM in w.rooms && Crowd(w.rooms[ROOM], n)
    ensures forall k :: k in w.sessions ==> k < n
    decreases n
  {
    hide GetsTo, IsNextSide;
    var r;
    if n == 1 {
      Begin(CFG);
      run, steps, w, r := [START], [], INITIAL, NewRoom(APP, CODE, OPEN);
    } else {
      run, steps, w := CrowdJoins(n - 1);
      r := w.rooms[ROOM];
    }
    var side := Seating.NextSideExists(r);
    var r' := Seat(r.(nextId := n + 1), n, Player(n - 1, side));
    assert n !in r.clients;
    run, steps, w := Comes(run, steps, w, n - 1, r, n, side, r');
    CrowdGrows(r, n, Player(n - 1, side));
  }

  lemma CrowdGrows(r: RoomState, n: nat, info: ClientInfo)
    requires 0 < n < U32_MAX && (if n == 1 then r == NewRoom(APP, CODE, OPEN) else Crowd(r, n - 1))
    ensures Crowd(Seat(r.(nextId := n + 1), n, info), n)
  {
    var r' := Seat(r.(nextId := n + 1), n, info);
    if n > 1 {
      assert (n - 1) as u32 in r.clients;
    }
    assert r'.clients == r.clients[n := info];
  }

  lemma {:induction false} CountUpTo(s: set<u32>, n: nat)
    requires n <= U32_MAX && forall p: u32 :: p in s <==> 1 <= p <= n
    ensures |s| == n
  {
    if n == 0 {
      assert s == {};
    } else {
      CountUpTo(s - {n}, n - 1);
    }
  }

  /** The 257th player of an unlimited room shares a slot with another. */
  lemma CrowdSharesSlot() returns (run: seq<Sys>, steps: seq<Step>, w: World)
    ensures GetsTo(CFG, run, steps, w) && ROOM in w.rooms && w.rooms[ROOM].Occupancy() == 257
    ensures !Seating.SidesDistinct(w.rooms[ROOM])
  {
    hide GetsTo, Seating.SidesDistinct;
    run, steps, w := CrowdJoins(257);
    var r := w.rooms[ROOM];
    CountUpTo(r.clients.Keys, 257);
    assert Ownership.RoomOk(r);
    if Seating.SidesDistinct(r) {
      Seating.DistinctSidesFew(r);
    }
  }

  // ---------- A move ----------

  /** The host moves. */
  lemma MoveStep(w: World, k: ConnId, blob: Bytes) returns (step: Step, w': World)
    requires w.closed == {} && k in w.sessions && w.sessions[k].key == ROOM && ROOM in w.rooms
    requires MoveRefusal(w.rooms[ROOM], w.sessions[k].peer) == None
    ensures Next(CFG, w, step, w') && w'.closed == {} && step.Message? && step.msg == ClientMessage.Move(blob)
    ensures w'.rooms == w.rooms[ROOM := w.rooms[ROOM].(state := blob)] && w'.sessions == w.sessions
    ensures w'.Log(k) != [] && w'.Log(k)[|w'.Log(k)| - 1] == MoveAccepted
  {
    hide Sends, StateOutbox, MoveRefusal;
    var r := w.rooms[ROOM].(state := blob);
    StateUnpruned(r);
    hide PrunesState;
    var out := Reply(StateOutbox(r, QUIET), k, [MoveAccepted]);
    w' := Delivered(w, w.rooms[ROOM := r], w.sessions, out);
    DeliveredSends(w, w'.rooms, w'.sessions, out);
    step := Message(k, ClientMessage.Move(blob), Pruning(QUIET, r));
  }

  lemma StateUnpruned(r: RoomState)
    ensures PrunesState(r, {}, QUIET, r, {})
  {
    assert r.clients - {} == r.clients && r.pending - {} == r.pending;
  }

  /** A run in which the host moves with exactly the minimum of players, and the move becomes the state. */
  lemma HostMoves(blob: Bytes) returns (run: seq<Sys>, steps: seq<Step>, w: World)
    ensures GetsTo(CFG, run, steps, w) && ROOM in w.rooms && w.rooms[ROOM].state == blob
    ensures |w.rooms[ROOM].clients| == w.rooms[ROOM].settings.minPlayers == 2
    ensures w.Log(1) != [] && w.Log(1)[|w.Log(1)| - 1] == MoveAccepted
  {
    hide GetsTo, Next, IsRun;
    run, steps, w := TwoPlayers();
    var s := RoomSettings(0, 2, false, None, false, None);
    var r := Room(1, Both(), map[], s, 3);
    run, steps, w := Orders(run, steps, w, 1, UpdateSettings(s), r);
    assert Both().Keys == {1, 2};
    assert |Both()| == |Both().Keys| == 2;
    assert w.closed == {} by { RunAt(run, steps, w); }
    var step, w' := MoveStep(w, 1, blob);
    run, steps := GoOn(CFG, run, steps, w, step, w');
    w := w';
  }
}
