/**
 * When a room with clients is led by one of them. Three kinds of step can unseat the host, and no
 * other: a host expelling itself, an admission straight into a room that holds only waiting peers,
 * and an absent host accepting a peer into an empty room. The last needs a session from an earlier
 * room under the same code, or an id handed out twice.
 */
module Hosts {
  import opened Types
  import opened RoomModel
  import opened ServerModel
  import opened Ownership
  import opened Runs
  import opened Steps
  import opened Ids

  ghost predicate HostSeated(r: RoomState) { r.clients != map[] ==> r.host in r.clients }

  predicate SelfExpulsion(r: RoomState, c: Control) { (c.Kick? || c.Ban?) && c.peer == r.host && c.peer in r.clients }

  predicate AbsentAcceptance(r: RoomState, c: Control) { c.AcceptPeer? && c.peer in r.pending && r.clients == map[] && c.peer != r.host }

  predicate OpenedLate(r: RoomState) { r.clients == map[] && r.pending != map[] && !r.settings.acceptRequired }

  // ---------- One room ----------

  lemma PrunesSeated(r: RoomState, closed: set<ConnId>, t: PruneTrace, r': RoomState, closed': set<ConnId>)
    requires HostSeated(r) && (Prunes(r, closed, t, r', closed') || PrunesState(r, closed, t, r', closed'))
    ensures HostSeated(r')
  {
    if r'.clients != map[] && r.host !in t.announced {
      var p :| p in r'.clients;
      assert p in r.clients;
      assert r.host !in t.Gone();
    }
  }

  lemma CommandSeated(r: RoomState, c: Control, closed: set<ConnId>, t: PruneTrace, r': RoomState, closed': set<ConnId>)
    requires HostSeated(r) && Command(r, c).Some? && Executes(Command(r, c).value, closed, t, r', closed')
    requires !SelfExpulsion(r, c) && !AbsentAcceptance(r, c)
    ensures HostSeated(r')
  {
    hide Prunes, PrunesState;
    var plan := Command(r, c).value;
    assert HostSeated(plan.room);
    if plan.say.Some? {
      PrunesSeated(plan.room, closed, t, r', closed');
    }
  }

  lemma LeavesSeated(r: RoomState, id: u32, closed: set<ConnId>, lt: LeaveTrace, r': RoomState, closed': set<ConnId>)
    requires HostSeated(r) && Leaves(r, id, closed, lt, r', closed')
    ensures HostSeated(r')
  {
    var r0 := Without(r, id);
    if r.host != id {
      assert HostSeated(r0);
      PrunesSeated(r0, closed, lt.first, lt.mid, lt.midClosed);
    } else {
      assert r0.host !in r0.clients;
      assert lt.mid.host == id;
    }
    if lt.elected.Some? {
      PrunesSeated(lt.mid.(host := lt.elected.value), lt.midClosed, lt.second, r', closed');
    }
  }

  lemma WelcomesSeated(r: RoomState, h: HelloFields, k: ConnId, a: AdmitTrace, r': RoomState)
    requires HostSeated(r) && Welcomes(r, h, k, a, r') && !OpenedLate(r)
    ensures HostSeated(r')
  {
    hide Allocates;
  }

  /** Exactly what a host command does to the lead, when nothing closes meanwhile. */
  lemma CommandUnseatsIff(r: RoomState, c: Control, closed: set<ConnId>, t: PruneTrace, r': RoomState)
    requires HostSeated(r) && Command(r, c).Some? && Executes(Command(r, c).value, closed, t, r', closed)
    ensures HostSeated(r') <==>
            && !(SelfExpulsion(r, c) && exists p :: p in r.clients && p != c.peer && r.clients[p].conn !in closed)
            && !(AbsentAcceptance(r, c) && r.pending[c.peer].conn !in closed)
  {
    if SelfExpulsion(r, c) {
      var plan := Command(r, c).value.room;
      assert r'.host == r.host && r.host !in r'.clients;
      forall p | p in r.clients && p != c.peer
        ensures p in r'.clients <==> r.clients[p].conn !in closed
      {
        assert plan.clients[p] == r.clients[p];
        assert p in t.Gone() ==> r.clients[p].conn in closed;
      }
    } else if AbsentAcceptance(r, c) {
      var plan := Command(r, c).value.room;
      assert r'.host == r.host;
      assert c.peer in r'.clients <==> r.pending[c.peer].conn !in closed by {
        assert plan.clients[c.peer] == r.pending[c.peer];
        assert c.peer in t.Gone() ==> plan.clients[c.peer].conn in closed;
      }
    } else {
      CommandSeated(r, c, closed, t, r', closed);
    }
  }

  /** Exactly what an admission does to the lead. */
  lemma WelcomeUnseatsIff(r: RoomState, h: HelloFields, k: ConnId, a: AdmitTrace, r': RoomState)
    requires HostSeated(r) && Welcomes(r, h, k, a, r')
    ensures HostSeated(r') <==> !(OpenedLate(r) && a.id.value != r.host)
  {
    hide Allocates;
    assert OpenedLate(r) ==> a.id.value in r'.clients;
  }

  // ---------- Every run ----------

  ghost predicate SeatedAt(w: World, key: Key) { key in w.rooms ==> HostSeated(w.rooms[key]) }

  /** The host of room `key` gives a command. */
  predicate Commanding(w: World, step: Step, key: Key) {
    && step.Message? && step.msg.RoomControl? && HasRoom(w, step.conn) && w.sessions[step.conn].key == key
    && w.rooms[key].host == w.sessions[step.conn].peer
  }

  predicate ExpelsItself(w: World, step: Step, key: Key) {
    Commanding(w, step, key) && SelfExpulsion(w.rooms[key], step.msg.control)
  }

  predicate AcceptsAbsent(w: World, step: Step, key: Key) {
    Commanding(w, step, key) && AbsentAcceptance(w.rooms[key], step.msg.control)
  }

  predicate EntersLate(w: World, step: Step, key: Key) {
    && step.Message? && step.msg.Hello? && step.trace.Admission?
    && KeyOf(step.msg.hello, step.trace.a) == key && key in w.rooms && OpenedLate(w.rooms[key])
  }

  lemma ActsSeated(w: World, cfg: Config, k: ConnId, msg: ClientMessage, tr: Trace, w': World, key: Key)
    requires Owned(w) && SeatedAt(w, key) && Acts(w, cfg, k, msg, tr, w') && !msg.Hello?
    requires var step := Message(k, msg, tr); !ExpelsItself(w, step, key) && !AcceptsAbsent(w, step, key)
    requires Answer(w, cfg, k, msg, tr) == None
    ensures SeatedAt(w', key)
  {
    hide Sends, Prunes, PrunesState, Owned, HostSeated;
    if w.sessions[k].key == key {
      match msg
      case Move(blob) =>
        SameSeat(w.rooms[key], w.rooms[key].(state := blob));
        PrunesSeated(w.rooms[key].(state := blob), w.closed, tr.t, tr.after, w'.closed);
      case Input(_) =>
      case RoomControl(c) => CommandSeated(w.rooms[key], c, w.closed, tr.t, tr.after, w'.closed);
    }
  }

  lemma SameSeat(r: RoomState, r1: RoomState)
    requires r1.clients == r.clients && r1.host == r.host
    ensures HostSeated(r1) <==> HostSeated(r)
  {
  }

  lemma HelloSeated(w: World, cfg: Config, k: ConnId, h: HelloFields, tr: Trace, w': World, key: Key)
    requires Owned(w) && SeatedAt(w, key) && k !in w.sessions && Acts(w, cfg, k, Hello(h), tr, w')
    requires !EntersLate(w, Message(k, Hello(h), tr), key)
    ensures SeatedAt(w', key)
  {
    hide Sends, Owned, Welcomes, Evolves, HostSeated, Refusal, Allocates;
    var at := KeyOf(h, tr.a);
    AdmitsEvolves(w, cfg, k, h, tr.a, at, tr.entered, w');
    if at == key {
      if k in w'.sessions {
        if key !in w.rooms { EmptySeated(tr.entered); }
        WelcomesSeated(tr.entered, h, k, tr.a, w'.rooms[key]);
      } else {
        SameSeat(w.rooms[key], w'.rooms[key]);
      }
    }
  }

  lemma EmptySeated(r: RoomState)
    requires r.clients == map[]
    ensures HostSeated(r)
  {
  }

  lemma NextSeated(cfg: Config, w: World, step: Step, w': World, key: Key)
    requires Owned(w) && SeatedAt(w, key) && Next(cfg, w, step, w')
    requires !ExpelsItself(w, step, key) && !AcceptsAbsent(w, step, key) && !EntersLate(w, step, key)
    ensures SeatedAt(w', key)
  {
    hide Sends, Owned, HostSeated, Leaves, Acts, ExpelsItself, AcceptsAbsent, EntersLate;
    match step
    case Closing(_) =>
    case Departure(k, lt, after) =>
      if HasRoom(w, k) && w.sessions[k].key == key {
        LeavesSeated(w.rooms[key], w.sessions[k].peer, w.closed, lt, after, w'.closed);
      }
    case Message(k, msg, tr) =>
      if Answer(w, cfg, k, msg, tr) == None {
        if msg.Hello? {
          HelloSeated(w, cfg, k, msg.hello, tr, w', key);
        } else {
          ActsSeated(w, cfg, k, msg, tr, w', key);
        }
      }
  }

  /**
   * Without the three unseating steps in a room, that room, when it has clients, is led by one of
   * them, whatever closes and when, and whatever happens in other rooms.
   */
  lemma {:induction false} HostsStaySeated(cfg: Config, run: seq<Sys>, steps: seq<Step>, i: nat, key: Key)
    requires IsRun(cfg, run, steps) && i < |run|
    requires forall j :: 0 <= j < i ==>
               !ExpelsItself(run[j].w, steps[j], key) && !AcceptsAbsent(run[j].w, steps[j], key) && !EntersLate(run[j].w, steps[j], key)
    ensures SeatedAt(run[i].w, key)
  {
    hide Next, HistNext, Owned, SeatedAt, ExpelsItself, AcceptsAbsent, EntersLate;
    if i == 0 {
      StartSeated(key);
    } else {
      HostsStaySeated(cfg, run, steps, i - 1, key);
      RunOwned(cfg, run, steps, i - 1);
      assert SysNext(cfg, run[i - 1], steps[i - 1], run[i]);
      NextSeated(cfg, run[i - 1].w, steps[i - 1], run[i].w, key);
    }
  }

  lemma StartSeated(key: Key)
    ensures SeatedAt(INITIAL, key)
  {
  }

  // ---------- The absent host ----------

  /** Of the lead: it is taken by a present client, given up, or stays where it was. */
  ghost predicate LeadKept(r: RoomState, r': RoomState, leaver: u32) {
    || r'.host in r'.clients
    || r'.host == 0
    || (r'.host == r.host && (r.host in r.clients && r.host != leaver ==> r.host in r'.clients))
  }

  lemma PrunesLead(r: RoomState, closed: set<ConnId>, t: PruneTrace, r': RoomState, closed': set<ConnId>)
    requires Prunes(r, closed, t, r', closed') || PrunesState(r, closed, t, r', closed')
    ensures LeadKept(r, r', 0)
  {
    assert r.host !in t.announced ==> r.host !in t.Gone();
  }

  lemma CommandLead(r: RoomState, c: Control, closed: set<ConnId>, t: PruneTrace, r': RoomState, closed': set<ConnId>)
    requires RoomOk(r) && Command(r, c).Some? && Executes(Command(r, c).value, closed, t, r', closed') && !SelfExpulsion(r, c)
    ensures LeadKept(r, r', 0)
  {
    hide Prunes, PrunesState;
    var plan := Command(r, c).value;
    if plan.say.Some? {
      PrunesLead(plan.room, closed, t, r', closed');
    }
  }

  lemma LeavesLead(r: RoomState, id: u32, closed: set<ConnId>, lt: LeaveTrace, r': RoomState, closed': set<ConnId>)
    requires Leaves(r, id, closed, lt, r', closed')
    ensures LeadKept(r, r', id)
    ensures r'.host == id && id !in r'.clients && id != 0 ==> r.host == id
  {
    hide Prunes, PrunesState;
    PrunesLead(Without(r, id), closed, lt.first, lt.mid, lt.midClosed);
    if lt.elected.Some? {
      PrunesLead(lt.mid.(host := lt.elected.value), lt.midClosed, lt.second, r', closed');
    }
  }

  /** A session opened on the pooled room that bears the host's id belongs to a present client. */
  ghost predicate HostPresent(s: Sys, key: Key) {
    key in s.w.rooms ==>
      && (forall c :: AttachedTo(s, c, key) ==> s.w.sessions[c].peer != 0)
      && (forall c :: AttachedTo(s, c, key) && s.w.sessions[c].peer == s.w.rooms[key].host ==> s.w.rooms[key].host in s.w.rooms[key].clients)
  }

  /** A session left over from an earlier room under the same code acts on the room pooled now. */
  predicate ActsFromOutside(s: Sys, step: Step, key: Key) {
    (step.Message? || step.Departure?) && HasRoom(s.w, step.conn) && s.w.sessions[step.conn].key == key && step.conn !in s.h.attached
  }

  ghost predicate Unsaturated(s: Sys, key: Key) { key in s.h.rooms ==> s.h.rooms[key].joins <= U32_MAX }

  ghost predicate Led(s: Sys, key: Key) { SeatedAt(s.w, key) && HostPresent(s, key) }

  lemma NoAbsentAcceptance(s: Sys, step: Step, key: Key)
    requires Led(s, key) && !ActsFromOutside(s, step, key)
    ensures !AcceptsAbsent(s.w, step, key)
  {
    if AcceptsAbsent(s.w, step, key) {
      assert AttachedTo(s, step.conn, key);
      assert false;
    }
  }

  /** The lead of the touched room, by what the step did to it. */
  lemma StepLead(cfg: Config, w: World, step: Step, w': World, e: Effect)
    requires Owned(w) && Next(cfg, w, step, w') && e == EffectOf(w, cfg, step, w')
    ensures e.Changed? && e.key in w.rooms && e.key in w'.rooms && !ExpelsItself(w, step, e.key) ==> LeadKept(w.rooms[e.key], w'.rooms[e.key], 0)
    ensures e.Vacated? ==> LeadKept(w.rooms[e.key], e.after, w.sessions[step.conn].peer)
  {
    hide Sends, Owned, LeadKept, Leaves, Prunes, PrunesState, ExpelsItself;
    match step
    case Closing(_) =>
    case Departure(k, lt, after) =>
      if HasRoom(w, k) {
        LeavesLead(w.rooms[w.sessions[k].key], w.sessions[k].peer, w.closed, lt, after, w'.closed);
      }
    case Message(k, msg, tr) =>
      if Answer(w, cfg, k, msg, tr) == None {
        MessageLead(w, cfg, k, msg, tr, w', e);
      }
  }

  lemma SameLead(r: RoomState, r': RoomState)
    requires r'.clients == r.clients && r'.host == r.host
    ensures LeadKept(r, r', 0)
  {
  }

  lemma StateLead(r: RoomState, blob: Bytes, r': RoomState)
    requires LeadKept(r.(state := blob), r', 0)
    ensures LeadKept(r, r', 0)
  {
  }

  lemma MessageLead(w: World, cfg: Config, k: ConnId, msg: ClientMessage, tr: Trace, w': World, e: Effect)
    requires Owned(w) && Acts(w, cfg, k, msg, tr, w') && Answer(w, cfg, k, msg, tr) == None
    requires e == EffectOf(w, cfg, Message(k, msg, tr), w')
    ensures e.Changed? && e.key in w.rooms && e.key in w'.rooms && !ExpelsItself(w, Message(k, msg, tr), e.key) ==>
              LeadKept(w.rooms[e.key], w'.rooms[e.key], 0)
  {
    hide Sends, LeadKept, Prunes, PrunesState, Refusal, Allocates;
    if e.Changed? && e.key in w.rooms && e.key in w'.rooms && !ExpelsItself(w, Message(k, msg, tr), e.key) {
      var r := w.rooms[e.key];
      match msg
      case Hello(h) => SameLead(r, w'.rooms[e.key]);
      case Move(blob) =>
        PrunesLead(r.(state := blob), w.closed, tr.t, tr.after, w'.closed);
        StateLead(r, blob, tr.after);
      case Input(_) => SameLead(r, r);
      case RoomControl(c) => CommandLead(r, c, w.closed, tr.t, tr.after, w'.closed);
    }
  }

  lemma LeadPresent(s: Sys, s': Sys, key: Key, leaver: u32)
    requires key in s.w.rooms && key in s'.w.rooms && HostPresent(s, key)
    requires LeadKept(s.w.rooms[key], s'.w.rooms[key], leaver)
    requires forall c :: AttachedTo(s', c, key) ==> AttachedTo(s, c, key) && s'.w.sessions[c] == s.w.sessions[c] && s.w.sessions[c].peer != leaver
    ensures HostPresent(s', key)
  {
  }

  lemma SeatLead(r: RoomState, h: HelloFields, k: ConnId, a: AdmitTrace, r': RoomState, joins: nat)
    requires Welcomes(r, h, k, a, r') && Counted(r, joins) && joins < U32_MAX
    ensures a.id.value == joins + 1
    ensures if r.Empty() then r'.host == joins + 1 && joins + 1 in r'.clients
            else r'.host == r.host <= joins && (r.host in r.clients ==> r.host in r'.clients)
  {
    WelcomesCounted(r, h, k, a, r', joins);
    hide Allocates, Refusal, IsNextSide;
  }

  lemma JoinerPresent(s: Sys, step: Step, e: Effect, s': Sys)
    requires IdsOk(s) && e.Filled? && Takes(s.w, step, e, s'.w) && s'.h == HistNext(s.w, s.h, step, s'.w)
    requires HostPresent(s, e.key) && Unsaturated(s', e.key)
    ensures HostPresent(s', e.key)
  {
    hide HistNext, Welcomes, Evolves, Counted;
    var key, c := e.key, step.conn;
    JoinsCount(s, step, e, s', key);
    var joins := HistOf(s.h, key).joins;
    assert RoomCounted(s, key);
    if key !in s.w.rooms { FreshCounted(e.r); }
    SeatLead(e.r, e.hello, c, e.a, s'.w.rooms[key], joins);
    assert forall d :: AttachedTo(s', d, key) && d != c ==> AttachedTo(s, d, key) && key in s.w.rooms && s'.w.sessions[d] == s.w.sessions[d];
  }

  lemma FreshCounted(r: RoomState)
    requires r.Empty() && r.host == 0 && r.nextId == 1
    ensures Counted(r, 0)
  {
  }

  lemma NextLed(cfg: Config, s: Sys, step: Step, s': Sys, key: Key)
    requires IdsOk(s) && Owned(s.w) && Led(s, key) && SysNext(cfg, s, step, s') && Unsaturated(s, key) && Unsaturated(s', key)
    requires !ExpelsItself(s.w, step, key) && !EntersLate(s.w, step, key) && !ActsFromOutside(s, step, key)
    ensures Led(s', key)
  {
    hide Next, Owned, Evolves, Welcomes, HostPresent, LeadKept, HistNext, SeatedAt, Unsaturated, ExpelsItself, EntersLate, AcceptsAbsent;
    NoAbsentAcceptance(s, step, key);
    NextSeated(cfg, s.w, step, s'.w, key);
    StepEffect(cfg, s.w, step, s'.w);
    var e := EffectOf(s.w, cfg, step, s'.w);
    StepLead(cfg, s.w, step, s'.w, e);
    if key !in s'.w.rooms {
      NoRoom(s', key);
    } else if e.Filled? && e.key == key {
      JoinerPresent(s, step, e, s');
    } else {
      OtherPresent(s, step, e, s', key);
    }
  }

  lemma NoRoom(s: Sys, key: Key)
    requires key !in s.w.rooms
    ensures HostPresent(s, key)
  {
  }

  lemma OtherPresent(s: Sys, step: Step, e: Effect, s': Sys, key: Key)
    requires IdsOk(s) && Takes(s.w, step, e, s'.w) && s'.h == HistNext(s.w, s.h, step, s'.w) && Unsaturated(s, key)
    requires HostPresent(s, key) && key in s'.w.rooms && !(e.Filled? && e.key == key) && !ActsFromOutside(s, step, key)
    requires e.Changed? && e.key == key && e.key in s.w.rooms && e.key in s'.w.rooms ==> LeadKept(s.w.rooms[e.key], s'.w.rooms[e.key], 0)
    requires e.Vacated? ==> LeadKept(s.w.rooms[e.key], e.after, s.w.sessions[step.conn].peer)
    ensures HostPresent(s', key)
  {
    hide HistNext, Evolves, Welcomes, LeadKept, HostPresent;
    JoinsCount(s, step, e, s', key);
    assert forall c :: AttachedTo(s', c, key) ==> AttachedTo(s, c, key) && s'.w.sessions[c] == s.w.sessions[c];
    var leaver := if e.Vacated? && e.key == key then s.w.sessions[step.conn].peer else 0;
    assert RoomCounted(s, key);
    if s'.w.rooms[key] == s.w.rooms[key] && leaver == 0 {
      SameLead(s.w.rooms[key], s'.w.rooms[key]);
    }
    NonZeroPeers(s, key);
    LeadPresent(s, s', key, leaver);
  }

  lemma NonZeroPeers(s: Sys, key: Key)
    requires HostPresent(s, key) && key in s.w.rooms
    ensures forall c :: AttachedTo(s, c, key) ==> s.w.sessions[c].peer != 0
  {
  }

  lemma StartLed(key: Key)
    ensures Led(START, key)
  {
  }

  lemma {:induction false} RunLed(cfg: Config, run: seq<Sys>, steps: seq<Step>, i: nat, key: Key)
    requires IsRun(cfg, run, steps) && i < |run|
    requires forall j :: 0 <= j < i ==>
               !ExpelsItself(run[j].w, steps[j], key) && !EntersLate(run[j].w, steps[j], key) && !ActsFromOutside(run[j], steps[j], key)
    requires forall j :: 0 <= j <= i ==> Unsaturated(run[j], key)
    ensures Led(run[i], key)
  {
    hide SysNext, Owned, Led, IdsOk, Unsaturated, ExpelsItself, EntersLate, ActsFromOutside;
    if i == 0 {
      StartLed(key);
    } else {
      RunLed(cfg, run, steps, i - 1, key);
      RunOwned(cfg, run, steps, i - 1);
      RunIds(cfg, run, steps, i - 1);
      assert SysNext(cfg, run[i - 1], steps[i - 1], run[i]);
      NextLed(cfg, run[i - 1], steps[i - 1], run[i], key);
    }
  }

  /**
   * Host membership, room by room: if no host of the room expels itself, nobody is admitted straight
   * into it while it holds only waiting peers, sessions from an earlier room under its code leave it
   * alone, and it sees no more than 2^32 - 1 joins, then whenever it has clients one of them leads.
   */
  lemma HostMembership(cfg: Config, run: seq<Sys>, steps: seq<Step>, i: nat, key: Key)
    requires IsRun(cfg, run, steps) && i < |run|
    requires forall j :: 0 <= j < i ==>
               !ExpelsItself(run[j].w, steps[j], key) && !EntersLate(run[j].w, steps[j], key) && !ActsFromOutside(run[j], steps[j], key)
    requires forall j :: 0 <= j <= i ==> Unsaturated(run[j], key)
    requires key in run[i].w.rooms && run[i].w.rooms[key].clients != map[]
    ensures run[i].w.rooms[key].host in run[i].w.rooms[key].clients
  {
    RunLed(cfg, run, steps, i, key);
    assert HostSeated(run[i].w.rooms[key]);
  }
}
