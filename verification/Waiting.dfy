/**
 * What the waiting list does to agreement about the lead. A waiting peer is told nothing of it, and
 * an accepted one learns of it only from the next announcement; these are the exact conditions, for
 * every client of every calm run.
 */
module Waiting {
  import opened Types
  import opened RoomModel
  import opened ServerModel
  import opened Ownership
  import opened Runs
  import opened Views
  import opened Agreement
  import Hosts
  import Leadership

  // ---------- What a client hears of the lead in one step ----------

  /** The host of room `key` transfers the lead to one of its clients. */
  predicate Transfers(w: World, step: Step, key: Key) {
    && Hosts.Commanding(w, step, key)
    && step.msg.control.TransferHost? && step.msg.control.peer in w.rooms[key].clients
  }

  /** A step tells the clients of room `key` who leads: the lead moves, or a transfer names its holder. */
  predicate Announces(w: World, step: Step, w': World, key: Key) {
    key in w.rooms && key in w'.rooms && (w'.rooms[key].host != w.rooms[key].host || Transfers(w, step, key))
  }

  /** A member that is a client afterwards names the new host if it was told, and whom it named before if not. */
  ghost predicate Heeds(w: World, r: RoomState, w': World, r': RoomState, p: u32, told: bool) {
    p in r.Members() && p in r'.clients ==>
      && r'.clients[p] == r.Members()[p]
      && (Open(w', r'.clients[p]) ==>
            Sees(w', r'.clients[p]).host == if r'.host != r.host || told then r'.host else Sees(w, r'.clients[p]).host)
  }

  lemma PruneHost(v: View, msg: ServerMessage, r: RoomState, closed: set<ConnId>, t: PruneTrace, r': RoomState)
    requires Prunes(r, closed, t, r', closed) || PrunesState(r, closed, t, r', closed)
    requires RoomOk(r) && r'.clients != map[]
    ensures HearAll(v, PruneScript(msg, t)).host == if r'.host != r.host then r'.host else Hear(v, msg).host
    ensures r'.host == r.host || r'.host in r'.clients
  {
    HearPrune(v, msg, t);
    assert forall p :: p in r.clients ==> r.Members()[p] == r.clients[p];
    assert forall p :: p in t.silent ==> p in t.Gone() && p in r.clients;
    assert t.silent == {};
    assert r.host in t.announced ==> r.host in t.Gone();
  }

  lemma CommandHost(r: RoomState, c: Control, closed: set<ConnId>, t: PruneTrace, r': RoomState, v: View)
    requires RoomOk(r) && Command(r, c).Some? && Executes(Command(r, c).value, closed, t, r', closed) && r'.clients != map[]
    ensures var plan := Command(r, c).value;
            var told := c.TransferHost? && c.peer in r.clients;
            HearAll(v, if plan.say.Some? then PruneScript(plan.say.value, t) else []).host ==
            if r'.host != r.host || told then r'.host else v.host
  {
    hide Prunes, PruneScript;
    var plan := Command(r, c).value;
    CommandShrinks(r, c);
    if plan.say.Some? {
      PruneHost(v, plan.say.value, plan.room, closed, t, r');
    }
  }

  lemma LeaveParts(r: RoomState, id: u32, closed: set<ConnId>, lt: LeaveTrace, r': RoomState)
    requires RoomOk(r) && Leaves(r, id, closed, lt, r', closed)
    ensures Prunes(Without(r, id), closed, lt.first, lt.mid, closed) && id !in lt.mid.clients && id !in r'.clients
    ensures lt.elected.Some? <==> lt.mid.host == id && lt.mid.clients != map[]
    ensures if lt.elected.Some? then lt.elected.value in lt.mid.clients && Prunes(lt.mid.(host := lt.elected.value), closed, lt.second, r', closed)
            else r' == lt.mid
    ensures RoomOk(lt.mid)
  {
    LeavesWithin(r, id, closed, lt, r', closed);
    hide RoomOk;
    assert lt.midClosed == closed;
  }

  lemma LeaveHost(r: RoomState, id: u32, closed: set<ConnId>, lt: LeaveTrace, r': RoomState, v: View)
    requires RoomOk(r) && Leaves(r, id, closed, lt, r', closed) && r'.clients != map[]
    ensures HearAll(v, LeaveScript(id, lt)).host == if r'.host != r.host then r'.host else v.host
  {
    hide Leaves, Prunes, PruneScript, RoomOk;
    LeaveParts(r, id, closed, lt, r');
    WithoutOk(r, id);
    var first := PruneScript(PeerLeft(id), lt.first);
    if lt.elected.Some? {
      var msg := RoomEvent(HostTransferred(lt.elected.value));
      LedOk(lt.mid, lt.elected.value);
      HearConcat(v, first, PruneScript(msg, lt.second));
      PruneHost(v, PeerLeft(id), Without(r, id), closed, lt.first, lt.mid);
      PruneHost(HearAll(v, first), msg, lt.mid.(host := lt.elected.value), closed, lt.second, r');
    } else {
      assert LeaveScript(id, lt) == first;
      PruneHost(v, PeerLeft(id), Without(r, id), closed, lt.first, lt.mid);
    }
  }

  lemma WithoutOk(r: RoomState, id: u32)
    requires RoomOk(r)
    ensures RoomOk(Without(r, id))
  {
  }

  lemma StateOk(r: RoomState, blob: Bytes)
    requires RoomOk(r)
    ensures RoomOk(r.(state := blob))
  {
  }

  lemma LedOk(r: RoomState, id: u32)
    requires RoomOk(r)
    ensures RoomOk(r.(host := id))
  {
  }

  // ---------- Each kind of step ----------

  lemma QuietHeeds(w: World, w': World, out: Outbox, r: RoomState, r': RoomState, p: u32)
    requires RoomOk(r) && Sends(w, w', out) && r'.clients == r.clients && r'.host == r.host
    requires p in r.Members() ==> AllChatter(Out(out, r.Members()[p].conn))
    ensures Heeds(w, r, w', r', p, false)
  {
    if p in r'.clients && Open(w', r'.clients[p]) {
      assert r.Members()[p] == r.clients[p];
      OpenHears(w, w', out, r.clients[p].conn);
    }
  }

  /** Members of other rooms than `key` hear nothing about their lead. */
  lemma ElsewhereHeeds(w: World, w': World, out: Outbox, key: Key, other: Key, p: u32)
    requires Owned(w) && Sends(w, w', out) && Directed(w, out, key) && other in w.rooms && other != key
    ensures Heeds(w, w.rooms[other], w', w.rooms[other], p, false)
  {
    OwnedOk(w, other);
    if p in w.rooms[other].Members() {
      MemberConn(w, other, p);
    }
    QuietHeeds(w, w', out, w.rooms[other], w.rooms[other], p);
  }

  lemma DepartHeeds(w: World, k: ConnId, lt: LeaveTrace, r': RoomState, w': World, key: Key, p: u32)
    requires Owned(w) && Departs(w, k, lt, r', w') && w'.closed == w.closed && key in w.rooms && key in w'.rooms
    ensures Heeds(w, w.rooms[key], w', w'.rooms[key], p, false)
  {
    hide Sends, Leaves, Heeds;
    var s := w.sessions[k];
    if s.key !in w.rooms {
      OwnedOk(w, key);
      QuietHeeds(w, w', map[], w.rooms[key], w.rooms[key], p);
    } else {
      var r := w.rooms[s.key];
      OwnedOk(w, s.key);
      if s.key == key {
        LeaverHeeds(w, r, s.peer, lt, r', w', p);
      } else {
        var out := Broadcast(Without(r, s.peer).clients, LeaveScript(s.peer, lt));
        MembersDirected(w, s.key, Without(r, s.peer).clients, out);
        ElsewhereHeeds(w, w', out, s.key, key, p);
      }
    }
  }

  lemma LeaverHeeds(w: World, r: RoomState, id: u32, lt: LeaveTrace, r': RoomState, w': World, p: u32)
    requires RoomOk(r) && Leaves(r, id, w.closed, lt, r', w.closed)
    requires Sends(w, w', Broadcast(Without(r, id).clients, LeaveScript(id, lt)))
    ensures Heeds(w, r, w', r', p, false)
  {
    LeavesWithin(r, id, w.closed, lt, r', w.closed);
    hide Leaves, Sends, LeaveScript;
    if p in r.Members() && p in r'.clients {
      assert r.Members()[p] == r.clients[p];
      if Open(w', r'.clients[p]) {
        BroadcastHeard(w, w', Without(r, id).clients, LeaveScript(id, lt), p);
        LeaveHost(r, id, w.closed, lt, r', Sees(w, r.clients[p]));
      }
    }
  }

  lemma MoveHost(r: RoomState, closed: set<ConnId>, t: PruneTrace, r': RoomState, v: View, thanks: seq<ServerMessage>)
    requires RoomOk(r) && PrunesState(r, closed, t, r', closed) && r'.clients != map[] && AllChatter(thanks)
    ensures HearAll(v, PruneScript(StateUpdate(r.state), t) + thanks).host == if r'.host != r.host then r'.host else v.host
  {
    hide PrunesState, PruneScript, RoomOk;
    var script := PruneScript(StateUpdate(r.state), t);
    HearConcat(v, script, thanks);
    HearChatter(HearAll(v, script), thanks);
    PruneHost(v, StateUpdate(r.state), r, closed, t, r');
  }

  lemma MoveHeeds(w: World, r: RoomState, k: ConnId, t: PruneTrace, r': RoomState, w': World, p: u32)
    requires RoomOk(r) && w'.closed == w.closed && PrunesState(r, w.closed, t, r', w.closed)
    requires Sends(w, w', Reply(StateOutbox(r, t), k, [MoveAccepted]))
    ensures Heeds(w, r, w', r', p, false)
  {
    hide RoomOk, Sends, PruneScript, StateOutbox, PrunesState;
    PrunesShrinks(r, w.closed, t, r', w.closed);
    if p in r.Members() && p in r'.clients {
      ClientMember(r, p);
      if Open(w', r'.clients[p]) {
        MoveHeard(w, r, k, t, w', p);
        MoveHost(r, w.closed, t, r', Sees(w, r.clients[p]), if r.clients[p].conn == k then [MoveAccepted] else []);
      }
    }
  }

  /** The blob itself has no part in it. */
  lemma StateHeeds(w: World, r: RoomState, blob: Bytes, w': World, r': RoomState, p: u32)
    requires Heeds(w, r.(state := blob), w', r', p, false)
    ensures Heeds(w, r, w', r', p, false)
  {
  }

  lemma CommandHeeds(w: World, key: Key, c: Control, t: PruneTrace, r': RoomState, w': World, p: u32)
    requires Owned(w) && key in w.rooms && Command(w.rooms[key], c).Some? && w'.closed == w.closed
    requires Executes(Command(w.rooms[key], c).value, w.closed, t, r', w.closed)
    requires Sends(w, w', PlanOutbox(Command(w.rooms[key], c).value, t))
    ensures Heeds(w, w.rooms[key], w', r', p, c.TransferHost? && c.peer in w.rooms[key].clients)
  {
    var r := w.rooms[key];
    OwnedOk(w, key);
    CommandGrows(r, c, w.closed, t, r', w.closed);
    assert RoomOk(r');
    hide Owned, Sends, PlanOutbox, Executes, Command, RoomOk;
    if p in r.Members() && p in r'.clients {
      ClientMember(r', p);
      assert r'.Members()[p] == r.Members()[p];
      if Open(w', r'.clients[p]) {
        CommandHeard(w, key, c, t, r', w', p);
        CommandHost(r, c, w.closed, t, r', Sees(w, r'.clients[p]));
      }
    }
  }

  lemma ClientMember(r: RoomState, p: u32)
    requires RoomOk(r) && p in r.clients
    ensures p in r.Members() && r.Members()[p] == r.clients[p]
  {
  }

  lemma SeatHeeds(w: World, r: RoomState, h: HelloFields, k: ConnId, code: Bytes, id: u32, side: byte, w': World, p: u32)
    requires RoomOk(r) && DistinctConns(r) && !r.InUse(id) && id != 0 && k !in Conns(r.Members())
    requires Sends(w, w', AdmitOutbox(r, h, k, code, id, side))
    ensures Heeds(w, r, w', Seat(r, id, Newcomer(h, k, side)), p, false)
  {
    var r' := Seat(r, id, Newcomer(h, k, side));
    SeatMembers(r, id, Newcomer(h, k, side));
    SeatClients(r, id, Newcomer(h, k, side), p);
    hide Sends, AdmitOutbox, DistinctConns, Conns, RoomOk, Seat;
    if p in r.Members() && p in r'.clients {
      ClientMember(r', p);
      if Open(w', r'.clients[p]) {
        AdmitHeard(w, r, h, k, code, id, side, w', p);
        var v, news := Sees(w, r'.clients[p]), [PeerJoined(id, h.clientHash, h.displayName)];
        assert HearAll(v, news) == HearAll(Hear(v, news[0]), news[1..]);
      }
    }
  }

  lemma SeatClients(r: RoomState, id: u32, info: ClientInfo, p: u32)
    requires RoomOk(r) && !r.InUse(id)
    ensures p in r.Members() && p in Seat(r, id, info).clients ==> p in r.clients && p != id && Seat(r, id, info).host == r.host
  {
  }

  lemma AdmitHeeds(w: World, cfg: Config, k: ConnId, h: HelloFields, a: AdmitTrace, key: Key, r: RoomState, w': World, other: Key, p: u32)
    requires Owned(w) && k !in w.sessions && Admits(w, cfg, k, h, a, key, r, w') && other in w.rooms && other in w'.rooms
    ensures Heeds(w, w.rooms[other], w', w'.rooms[other], p, false)
  {
    hide Owned, Enters, Sends, Allocates, Refusal, RoomOk, Seat, AdmitOutbox, IsNextSide, Heeds, Directed, DistinctConns;
    EnteredOk(w, cfg, h, a, key, r);
    OwnedOk(w, other);
    if Refusal(r, h) == None && a.id.Some? {
      var r1 := r.(nextId := a.nextId);
      AllocatedOk(r, a.id.value, a.nextId);
      AdmissionApart(w, key, r1, k);
      if other == key {
        SeatHeeds(w, r1, h, k, CodeOf(h, a), a.id.value, a.side, w', p);
        CounterHeeds(w, r1, w.rooms[key], w', w'.rooms[key], p);
      } else {
        AdmitDirected(w, key, r1, h, k, CodeOf(h, a), a.id.value, a.side);
        ElsewhereHeeds(w, w', AdmitOutbox(r1, h, k, CodeOf(h, a), a.id.value, a.side), key, other, p);
      }
    } else {
      var why := if Refusal(r, h).Some? then Refusal(r, h).value else Text("room full");
      QuietHeeds(w, w', map[k := [Error(why)]], w.rooms[other], w'.rooms[other], p);
    }
  }

  lemma CounterHeeds(w: World, r: RoomState, r1: RoomState, w': World, r': RoomState, p: u32)
    requires Heeds(w, r, w', r', p, false) && r1.clients == r.clients && r1.pending == r.pending && r1.host == r.host
    ensures Heeds(w, r1, w', r', p, false)
  {
  }

  lemma ActHeeds(w: World, cfg: Config, k: ConnId, msg: ClientMessage, tr: Trace, w': World, key: Key, p: u32)
    requires Owned(w) && Acts(w, cfg, k, msg, tr, w') && Answer(w, cfg, k, msg, tr) == None
    requires w'.closed == w.closed && (msg.Hello? ==> k !in w.sessions) && key in w.rooms && key in w'.rooms
    ensures Heeds(w, w.rooms[key], w', w'.rooms[key], p, Transfers(w, Message(k, msg, tr), key))
  {
    hide Owned, Sends, PrunesState, Heeds, Directed, Executes, Admits, Command, PlanOutbox, StateOutbox, RoomOk;
    match msg
    case Hello(h) => AdmitHeeds(w, cfg, k, h, tr.a, KeyOf(h, tr.a), tr.entered, w', key, p);
    case Move(blob) =>
      var at := w.sessions[k].key;
      if at == key {
        OwnedOk(w, key);
        StateOk(w.rooms[key], blob);
        MoveHeeds(w, w.rooms[key].(state := blob), k, tr.t, tr.after, w', p);
        StateHeeds(w, w.rooms[key], blob, w', tr.after, p);
      } else {
        var r1 := w.rooms[at].(state := blob);
        MoveDirected(w, at, k, blob, tr.t);
        ElsewhereHeeds(w, w', Reply(StateOutbox(r1, tr.t), k, [MoveAccepted]), at, key, p);
      }
    case Input(blob) =>
      OwnedOk(w, key);
      QuietHeeds(w, w', InputOutbox(w.rooms[w.sessions[k].key], w.sessions[k].peer, blob), w.rooms[key], w.rooms[key], p);
    case RoomControl(c) =>
      var at := w.sessions[k].key;
      if at == key {
        CommandHeeds(w, key, c, tr.t, tr.after, w', p);
      } else {
        CommandDirected(w, at, c, tr.t);
        ElsewhereHeeds(w, w', PlanOutbox(Command(w.rooms[at], c).value, tr.t), at, key, p);
      }
  }

  lemma MoveDirected(w: World, key: Key, k: ConnId, blob: Bytes, t: PruneTrace)
    requires Owned(w) && key in w.rooms
    ensures Directed(w, Reply(StateOutbox(w.rooms[key].(state := blob), t), k, [MoveAccepted]), key)
  {
    var r := w.rooms[key];
    StateOutboxChatter(r.(state := blob), t, k);
    assert RoomOk(r);
    MembersDirected(w, key, r.clients, Reply(StateOutbox(r.(state := blob), t), k, [MoveAccepted]));
  }

  /** Every client names the host after an announcement, and whom it named before otherwise. */
  lemma StepHeeds(cfg: Config, w: World, step: Step, w': World, key: Key, p: u32)
    requires Owned(w) && Next(cfg, w, step, w') && Calm(w, step, w') && key in w.rooms && key in w'.rooms
    ensures Heeds(w, w.rooms[key], w', w'.rooms[key], p, Transfers(w, step, key))
  {
    hide Owned, Sends, Heeds, Departs, Acts, Answer;
    match step
    case Closing(_) =>
      OwnedOk(w, key);
      ClosingHeeds(w, w', key, p);
    case Departure(k, lt, after) => DepartHeeds(w, k, lt, after, w', key, p);
    case Message(k, msg, tr) =>
      if Answer(w, cfg, k, msg, tr).Some? {
        var msgs := Answer(w, cfg, k, msg, tr).value;
        AnswersAreChatter(w, cfg, k, msg, tr);
        OwnedOk(w, key);
        AnswerUntold(w, cfg, k, msg, tr, key);
        QuietHeeds(w, w', map[k := msgs], w.rooms[key], w.rooms[key], p);
      } else {
        ActHeeds(w, cfg, k, msg, tr, w', key, p);
      }
  }

  lemma ClosingHeeds(w: World, w': World, key: Key, p: u32)
    requires key in w.rooms && RoomOk(w.rooms[key]) && w' == w.(closed := w'.closed)
    ensures Heeds(w, w.rooms[key], w', w'.rooms[key], p, false)
  {
  }

  lemma AnswerUntold(w: World, cfg: Config, k: ConnId, msg: ClientMessage, tr: Trace, key: Key)
    requires Answer(w, cfg, k, msg, tr).Some?
    ensures !Transfers(w, Message(k, msg, tr), key)
  {
  }

  // ---------- Over whole runs ----------

  function At(run: seq<Sys>, m: nat, key: Key): Option<RoomState> {
    if m < |run| && key in run[m].w.rooms then Some(run[m].w.rooms[key]) else None
  }

  predicate Member(run: seq<Sys>, m: nat, key: Key, p: u32) { At(run, m, key).Some? && p in At(run, m, key).value.Members() }

  predicate Waiter(run: seq<Sys>, m: nat, key: Key, p: u32) { At(run, m, key).Some? && p in At(run, m, key).value.pending }

  predicate Client(run: seq<Sys>, m: nat, key: Key, p: u32) { At(run, m, key).Some? && p in At(run, m, key).value.clients }

  /** The peer entered room `key` by the step that leads to `run[j]`. */
  predicate Joins(run: seq<Sys>, j: nat, key: Key, p: u32) { j > 0 && Member(run, j, key, p) && !Member(run, j - 1, key, p) }

  /** It waited from `j` until it was accepted by the step to `run[a]`, and is a client from there to `run[i]`. */
  ghost predicate Stays(run: seq<Sys>, j: nat, a: nat, i: nat, key: Key, p: u32) {
    && j <= a <= i < |run| && Joins(run, j, key, p)
    && (forall m :: j <= m < a ==> Waiter(run, m, key, p) && !Client(run, m, key, p))
    && (forall m :: a <= m <= i ==> Client(run, m, key, p))
  }

  /** Between `run[m]` and `run[i]` the clients of room `key` were told who leads. */
  ghost predicate Announced(run: seq<Sys>, steps: seq<Step>, m: nat, i: nat, key: Key)
    requires |run| == |steps| + 1 && i < |run|
  {
    exists n: nat :: m <= n < i && Announces(run[n].w, steps[n], run[n + 1].w, key)
  }

  lemma OpenBefore(cfg: Config, w: World, step: Step, w': World)
    requires Next(cfg, w, step, w') && Calm(w, step, w')
    ensures w.closed <= w'.closed
  {
    hide Departs, Says;
  }

  /** On joining, a peer is told the host there is. */
  lemma JoinView(cfg: Config, run: seq<Sys>, steps: seq<Step>, j: nat, key: Key, p: u32)
    requires IsRun(cfg, run, steps) && CalmRun(run, steps) && Joins(run, j, key, p) && j < |run|
    requires var r := run[j].w.rooms[key]; Open(run[j].w, r.Members()[p])
    ensures var r := run[j].w.rooms[key]; Sees(run[j].w, r.Members()[p]).host == r.host
  {
    hide SysNext, Next, Calm, Owned, Sees, RoomOk;
    assert SysNext(cfg, run[j - 1], steps[j - 1], run[j]) && Calm(run[j - 1].w, steps[j - 1], run[j].w);
    assert Next(cfg, run[j - 1].w, steps[j - 1], run[j].w) by { NextOf(cfg, run[j - 1], steps[j - 1], run[j]); }
    RunOwned(cfg, run, steps, j - 1);
    RunOwned(cfg, run, steps, j);
    OwnedOk(run[j].w, key);
    Leadership.StepTells(cfg, run[j - 1].w, steps[j - 1], run[j].w);
    if key in run[j - 1].w.rooms {
      OwnedOk(run[j - 1].w, key);
      NewcomerTold(run[j - 1].w, run[j - 1].w.rooms[key], run[j].w, run[j].w.rooms[key], p);
    } else {
      var r :| RoomOk(r) && r.Empty() && Told(run[j - 1].w, r, run[j].w, run[j].w.rooms[key]);
      NewcomerTold(run[j - 1].w, r, run[j].w, run[j].w.rooms[key], p);
    }
  }

  lemma NextOf(cfg: Config, s: Sys, step: Step, s': Sys)
    requires SysNext(cfg, s, step, s')
    ensures Next(cfg, s.w, step, s'.w)
  {
  }

  lemma NewcomerTold(w: World, r: RoomState, w': World, r': RoomState, p: u32)
    requires Told(w, r, w', r') && RoomOk(r') && p in r'.Members() && p !in r.Members() && Open(w', r'.Members()[p])
    ensures Sees(w', r'.Members()[p]).host == r'.host
  {
    assert r'.Members()[p] == if p in r'.clients then r'.clients[p] else r'.pending[p];
  }

  /** Who leads room `key` at `run[m]`. */
  function HostAt(run: seq<Sys>, m: nat, key: Key): u32 { if At(run, m, key).Some? then At(run, m, key).value.host else 0 }

  predicate OpenAt(run: seq<Sys>, m: nat, key: Key, p: u32) {
    Member(run, m, key, p) && At(run, m, key).value.Members()[p].conn !in run[m].w.closed
  }

  /** Whom member `p` of room `key` takes for the host at `run[m]`, by what it was sent. */
  ghost function Names(run: seq<Sys>, m: nat, key: Key, p: u32): u32 {
    if Member(run, m, key, p) then Sees(run[m].w, At(run, m, key).value.Members()[p]).host else 0
  }

  lemma JoinNames(cfg: Config, run: seq<Sys>, steps: seq<Step>, j: nat, key: Key, p: u32)
    requires IsRun(cfg, run, steps) && CalmRun(run, steps) && Joins(run, j, key, p) && OpenAt(run, j, key, p)
    ensures Names(run, j, key, p) == HostAt(run, j, key)
  {
    hide IsRun, CalmRun, Sees;
    JoinView(cfg, run, steps, j, key, p);
  }

  /** One step of a calm run, as far as member `p` is concerned. */
  lemma StepNames(cfg: Config, run: seq<Sys>, steps: seq<Step>, i: nat, key: Key, p: u32)
    requires IsRun(cfg, run, steps) && CalmRun(run, steps) && 0 < i < |run|
    requires Member(run, i - 1, key, p) && OpenAt(run, i, key, p)
    requires Client(run, i, key, p) || (Waiter(run, i, key, p) && Waiter(run, i - 1, key, p))
    ensures OpenAt(run, i - 1, key, p)
    ensures Names(run, i, key, p) ==
            if Client(run, i, key, p) && Announces(run[i - 1].w, steps[i - 1], run[i].w, key) then HostAt(run, i, key) else Names(run, i - 1, key, p)
  {
    hide SysNext, Next, Calm, Owned, Sees, RoomOk, Transfers;
    var s, s', step := run[i - 1], run[i], steps[i - 1];
    assert SysNext(cfg, s, step, s') && Calm(s.w, step, s'.w);
    NextOf(cfg, s, step, s');
    OpenBefore(cfg, s.w, step, s'.w);
    RunOwned(cfg, run, steps, i - 1);
    RunOwned(cfg, run, steps, i);
    hide IsRun, CalmRun;
    OwnedOk(s.w, key);
    OwnedOk(s'.w, key);
    MemberEntry(s.w.rooms[key], p);
    MemberEntry(s'.w.rooms[key], p);
    if Client(run, i, key, p) {
      StepHeeds(cfg, s.w, step, s'.w, key, p);
    } else {
      NotBoth(s'.w.rooms[key], p);
      NotBoth(s.w.rooms[key], p);
      Leadership.WaitingMissesTransfers(cfg, s.w, step, s'.w, key, p);
    }
  }

  lemma NotBoth(r: RoomState, p: u32)
    requires RoomOk(r) && p in r.pending
    ensures p !in r.clients
  {
  }

  /** A waiting peer goes on naming the host it found, whoever leads meanwhile. */
  lemma {:induction false} WaitingNames(cfg: Config, run: seq<Sys>, steps: seq<Step>, j: nat, i: nat, key: Key, p: u32)
    requires IsRun(cfg, run, steps) && CalmRun(run, steps) && j <= i < |run| && Joins(run, j, key, p)
    requires forall m :: j <= m <= i ==> Waiter(run, m, key, p) && !Client(run, m, key, p)
    requires OpenAt(run, i, key, p)
    ensures Names(run, i, key, p) == HostAt(run, j, key)
  {
    hide IsRun, CalmRun, Names, HostAt, OpenAt, Joins, Announces;
    if i == j {
      JoinNames(cfg, run, steps, j, key, p);
    } else {
      assert Waiter(run, i - 1, key, p) && Waiter(run, i, key, p);
      WaiterMember(run, i - 1, key, p);
      RunLength(cfg, run, steps);
      JoinLater(run, j, key, p);
      StepNames(cfg, run, steps, i, key, p);
      WaitingNames(cfg, run, steps, j, i - 1, key, p);
    }
  }

  lemma WaiterMember(run: seq<Sys>, m: nat, key: Key, p: u32)
    requires Waiter(run, m, key, p) || Client(run, m, key, p)
    ensures Member(run, m, key, p)
  {
  }

  lemma RunLength(cfg: Config, run: seq<Sys>, steps: seq<Step>)
    requires IsRun(cfg, run, steps)
    ensures |run| == |steps| + 1
  {
  }

  lemma JoinLater(run: seq<Sys>, j: nat, key: Key, p: u32)
    requires Joins(run, j, key, p)
    ensures j > 0
  {
  }

  /**
   * The host a client names: the present one if there was an announcement since it became a client
   * (the step that accepted it included), and otherwise the one that led when it joined.
   */
  lemma {:induction false} ClientNames(cfg: Config, run: seq<Sys>, steps: seq<Step>, j: nat, a: nat, i: nat, key: Key, p: u32)
    requires IsRun(cfg, run, steps) && CalmRun(run, steps) && Stays(run, j, a, i, key, p) && OpenAt(run, i, key, p)
    ensures Names(run, i, key, p) == if Announced(run, steps, Since(j, a), i, key) then HostAt(run, i, key) else HostAt(run, j, key)
    decreases i
  {
    hide IsRun, CalmRun, Names, HostAt, OpenAt, Joins, Announces, Announced, Waiter, Client, Stays;
    RunLength(cfg, run, steps);
    StaysParts(run, j, a, i, key, p);
    if i == j {
      JoinNames(cfg, run, steps, j, key, p);
      NothingYet(run, steps, j, key);
    } else {
      StepNames(cfg, run, steps, i, key, p);
      AnnouncedMore(run, steps, Since(j, a), i, key);
      if i == a {
        WaitingNames(cfg, run, steps, j, i - 1, key, p);
        NothingYet(run, steps, i - 1, key);
      } else {
        ClientNames(cfg, run, steps, j, a, i - 1, key, p);
        UnannouncedSame(run, steps, i, key);
      }
    }
  }

  lemma StaysParts(run: seq<Sys>, j: nat, a: nat, i: nat, key: Key, p: u32)
    requires Stays(run, j, a, i, key, p)
    ensures 0 < j <= a <= i < |run| && Joins(run, j, key, p) && Client(run, i, key, p) && At(run, i, key).Some?
    ensures i > j ==> Member(run, i - 1, key, p) && At(run, i - 1, key).Some?
    ensures i == a ==> forall m :: j <= m <= i - 1 ==> Waiter(run, m, key, p) && !Client(run, m, key, p)
    ensures i > a ==> Stays(run, j, a, i - 1, key, p)
  {
    assert Client(run, i, key, p);
    if i > j {
      assert Waiter(run, i - 1, key, p) || Client(run, i - 1, key, p);
      WaiterMember(run, i - 1, key, p);
    }
  }

  /** From when on announcements reach it: the step that accepted it, or its joining. */
  function Since(j: nat, a: nat): nat { if a > j then a - 1 else j }

  lemma NothingYet(run: seq<Sys>, steps: seq<Step>, m: nat, key: Key)
    requires |run| == |steps| + 1 && m < |run|
    ensures !Announced(run, steps, m, m, key)
  {
  }

  lemma UnannouncedSame(run: seq<Sys>, steps: seq<Step>, i: nat, key: Key)
    requires |run| == |steps| + 1 && 0 < i < |run| && At(run, i - 1, key).Some? && At(run, i, key).Some?
    ensures !Announces(run[i - 1].w, steps[i - 1], run[i].w, key) ==> HostAt(run, i, key) == HostAt(run, i - 1, key)
  {
  }

  lemma MemberEntry(r: RoomState, p: u32)
    requires RoomOk(r) && (p in r.clients || p in r.pending)
    ensures p in r.Members() && r.Members()[p] == if p in r.clients then r.clients[p] else r.pending[p]
  {
  }

  lemma AnnouncedMore(run: seq<Sys>, steps: seq<Step>, m: nat, i: nat, key: Key)
    requires |run| == |steps| + 1 && m < i < |run|
    ensures Announced(run, steps, m, i, key) <==>
            Announced(run, steps, m, i - 1, key) || Announces(run[i - 1].w, steps[i - 1], run[i].w, key)
  {
    hide Announces;
    if Announced(run, steps, m, i, key) {
      var n: nat :| m <= n < i && Announces(run[n].w, steps[n], run[n + 1].w, key);
      if n < i - 1 {
        assert Announced(run, steps, m, i - 1, key);
      }
    }
  }

  /**
   * Leader agreement with a waiting list: an open client names its host if and only if that host
   * already led when the client joined, or clients were told who leads since it became one. So a
   * peer that waited through a change of lead is wrong from its acceptance to the next announcement.
   */
  lemma AcceptedAgreesIff(cfg: Config, run: seq<Sys>, steps: seq<Step>, j: nat, a: nat, i: nat, key: Key, p: u32)
    requires IsRun(cfg, run, steps) && CalmRun(run, steps) && Stays(run, j, a, i, key, p) && OpenAt(run, i, key, p)
    ensures Names(run, i, key, p) == HostAt(run, i, key) <==>
            HostAt(run, j, key) == HostAt(run, i, key) || Announced(run, steps, Since(j, a), i, key)
  {
    hide IsRun, CalmRun, Names, HostAt, OpenAt, Announced, Stays;
    ClientNames(cfg, run, steps, j, a, i, key, p);
  }
}
