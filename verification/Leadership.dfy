/**
 * Leader agreement without the waiting list: while no host turns `accept_required` on, nobody ever
 * waits, so every open client names the server's host and exactly the host takes itself for it.
 * Peers that wait are told nothing of the lead; what that does to agreement is in `Waiting`.
 */
module Leadership {
  import opened Types
  import opened RoomModel
  import opened ServerModel
  import Ownership
  import opened Runs
  import Views
  import opened Agreement

  /** A host turns the waiting list on. */
  predicate Gates(step: Step) {
    step.Message? && step.msg.RoomControl? && step.msg.control.UpdateSettings? && step.msg.control.settings.acceptRequired
  }

  ghost predicate Ungated(r: RoomState) { r.pending == map[] && !r.settings.acceptRequired }

  ghost predicate AllUngated(s: Sys) {
    && (forall key :: key in s.w.rooms ==> Ungated(s.w.rooms[key]))
    && (forall key :: key in s.h.rooms ==> s.h.rooms[key].waited == {})
  }

  lemma PrunesUngated(r: RoomState, closed: set<ConnId>, t: PruneTrace, r': RoomState, closed': set<ConnId>)
    requires Ungated(r) && (Prunes(r, closed, t, r', closed') || PrunesState(r, closed, t, r', closed'))
    ensures Ungated(r')
  {
  }

  lemma CommandUngated(r: RoomState, c: Control, closed: set<ConnId>, t: PruneTrace, r': RoomState, closed': set<ConnId>)
    requires Ungated(r) && Command(r, c).Some? && Executes(Command(r, c).value, closed, t, r', closed')
    requires !(c.UpdateSettings? && c.settings.acceptRequired)
    ensures Ungated(r')
  {
    hide Prunes, PrunesState;
    var plan := Command(r, c).value;
    assert Ungated(plan.room);
    if plan.say.Some? {
      PrunesUngated(plan.room, closed, t, r', closed');
    }
  }

  lemma LeavesUngated(r: RoomState, id: u32, closed: set<ConnId>, lt: LeaveTrace, r': RoomState, closed': set<ConnId>)
    requires Ungated(r) && Leaves(r, id, closed, lt, r', closed')
    ensures Ungated(r')
  {
    hide Prunes, PrunesState;
    PrunesUngated(Without(r, id), closed, lt.first, lt.mid, lt.midClosed);
    if lt.elected.Some? {
      PrunesUngated(lt.mid.(host := lt.elected.value), lt.midClosed, lt.second, r', closed');
    }
  }

  lemma ActsUngated(cfg: Config, w: World, k: ConnId, msg: ClientMessage, tr: Trace, w': World, key: Key)
    requires Acts(w, cfg, k, msg, tr, w') && !Gates(Message(k, msg, tr)) && key in w'.rooms
    requires forall other :: other in w.rooms ==> Ungated(w.rooms[other])
    ensures Ungated(w'.rooms[key])
  {
    hide Sends, Prunes, PrunesState, Executes, Refusal, Allocates, IsNextSide, Ungated;
    match msg
    case Hello(h) => SeatUngated(w, cfg, k, h, tr, w', key);
    case Move(blob) =>
      StateUngated(w.rooms[w.sessions[k].key], blob);
      PrunesUngated(w.rooms[w.sessions[k].key].(state := blob), w.closed, tr.t, tr.after, w'.closed);
    case Input(_) =>
    case RoomControl(c) => CommandUngated(w.rooms[w.sessions[k].key], c, w.closed, tr.t, tr.after, w'.closed);
  }

  lemma StateUngated(r: RoomState, blob: Bytes)
    requires Ungated(r)
    ensures Ungated(r.(state := blob))
  {
  }

  lemma SeatUngated(w: World, cfg: Config, k: ConnId, h: HelloFields, tr: Trace, w': World, key: Key)
    requires Acts(w, cfg, k, Hello(h), tr, w') && key in w'.rooms
    requires forall other :: other in w.rooms ==> Ungated(w.rooms[other])
    ensures Ungated(w'.rooms[key])
  {
    hide Sends, Refusal, Allocates, IsNextSide;
  }

  lemma NextUngated(cfg: Config, s: Sys, step: Step, s': Sys)
    requires AllUngated(s) && SysNext(cfg, s, step, s') && !Gates(step) && Tracked(s)
    ensures AllUngated(s')
  {
    hide Sends, Answer, Leaves, Acts, Ungated, Gates;
    forall key | key in s'.w.rooms
      ensures Ungated(s'.w.rooms[key])
    {
      match step
      case Closing(_) =>
      case Departure(k, lt, after) =>
        if HasRoom(s.w, k) {
          LeavesUngated(s.w.rooms[s.w.sessions[k].key], s.w.sessions[k].peer, s.w.closed, lt, after, s'.w.closed);
        }
      case Message(k, msg, tr) =>
        if Answer(s.w, cfg, k, msg, tr) == None {
          ActsUngated(cfg, s.w, k, msg, tr, s'.w, key);
        }
    }
    forall key | key in s'.h.rooms
      ensures s'.h.rooms[key].waited == {}
    {
      NobodyWaits(s'.w.rooms[key]);
    }
  }

  lemma NobodyWaits(r: RoomState)
    requires Ungated(r)
    ensures r.pending.Keys == {}
  {
  }

  lemma StartUngated()
    ensures AllUngated(START)
  {
  }

  lemma {:induction false} RunUngated(cfg: Config, run: seq<Sys>, steps: seq<Step>, i: nat)
    requires IsRun(cfg, run, steps) && i < |run| && forall j :: 0 <= j < i ==> !Gates(steps[j])
    ensures AllUngated(run[i])
  {
    hide SysNext, Ownership.Owned, AllUngated, Gates;
    if i == 0 {
      StartUngated();
    } else {
      RunUngated(cfg, run, steps, i - 1);
      RunOwned(cfg, run, steps, i - 1);
      assert SysNext(cfg, run[i - 1], steps[i - 1], run[i]);
      NextUngated(cfg, run[i - 1], steps[i - 1], run[i]);
    }
  }

  /** Every open client of every room names the server's host; the host, and nobody else, takes itself for it. */
  lemma OneLeader(cfg: Config, run: seq<Sys>, steps: seq<Step>, i: nat, key: Key, p: u32)
    requires IsRun(cfg, run, steps) && CalmRun(run, steps) && i < |run|
    requires forall j :: 0 <= j < i ==> !Gates(steps[j])
    requires key in run[i].w.rooms && p in run[i].w.rooms[key].clients && Open(run[i].w, run[i].w.rooms[key].clients[p])
    ensures var r := run[i].w.rooms[key];
            var v := Sees(run[i].w, r.clients[p]);
            v.peer == p && v.host == r.host && (Views.IsHost(v) <==> p == r.host)
  {
    RunUngated(cfg, run, steps, i);
    RunOwned(cfg, run, steps, i);
    LeaderAgreement(cfg, run, steps, i, key, p);
  }

  /** The open clients of a room that take themselves for its host. */
  ghost function Leaders(w: World, r: RoomState): set<u32> {
    set p | p in r.clients && Open(w, r.clients[p]) && Views.IsHost(Sees(w, r.clients[p]))
  }

  /** At most one open client leads, and exactly one does whenever the host is a client and open. */
  lemma ExactlyOneLeader(cfg: Config, run: seq<Sys>, steps: seq<Step>, i: nat, key: Key)
    requires IsRun(cfg, run, steps) && CalmRun(run, steps) && i < |run|
    requires forall j :: 0 <= j < i ==> !Gates(steps[j])
    requires key in run[i].w.rooms
    ensures var r := run[i].w.rooms[key];
            Leaders(run[i].w, r) == if r.host in r.clients && Open(run[i].w, r.clients[r.host]) then {r.host} else {}
  {
    hide IsRun, CalmRun, Gates, Sees, Views.IsHost;
    var r := run[i].w.rooms[key];
    forall p | p in r.clients && Open(run[i].w, r.clients[p])
      ensures Views.IsHost(Sees(run[i].w, r.clients[p])) <==> p == r.host
    {
      OneLeader(cfg, run, steps, i, key, p);
    }
  }

  // ---------- Where the waiting list breaks it ----------

  /** While a peer waits, its view stands still, whoever comes to lead. */
  lemma WaitingMissesTransfers(cfg: Config, w: World, step: Step, w': World, key: Key, p: u32)
    requires Ownership.Owned(w) && Next(cfg, w, step, w') && Calm(w, step, w')
    requires key in w.rooms && key in w'.rooms && p in w.rooms[key].pending
    requires p in w'.rooms[key].pending && Open(w', w'.rooms[key].pending[p])
    ensures w'.rooms[key].pending[p] == w.rooms[key].pending[p]
    ensures Sees(w', w.rooms[key].pending[p]) == Sees(w, w.rooms[key].pending[p])
  {
    hide Next, Ownership.Owned, Sees, ClientTold;
    StepTells(cfg, w, step, w');
    assert Told(w, w.rooms[key], w', w'.rooms[key]);
    assert WaiterTold(w, w.rooms[key], w', w'.rooms[key], p);
  }

  /** One transfer is enough to leave every waiting peer with a leader that does not lead. */
  lemma TransferMisleadsWaiters(w: World, key: Key, p: u32, q: u32, t: PruneTrace, r': RoomState, w': World)
    requires Ownership.Owned(w) && key in w.rooms && p in w.rooms[key].pending && q in w.rooms[key].clients && q != w.rooms[key].host
    requires w.rooms[key].clients[q].conn !in w.closed && Open(w', w.rooms[key].pending[p])
    requires Executes(Command(w.rooms[key], TransferHost(q)).value, w.closed, t, r', w.closed)
    requires Sends(w, w', PlanOutbox(Command(w.rooms[key], TransferHost(q)).value, t))
    requires Sees(w, w.rooms[key].pending[p]).host == w.rooms[key].host
    ensures p in r'.pending && r'.pending[p] == w.rooms[key].pending[p]
    ensures Sees(w', r'.pending[p]).host != r'.host
  {
    hide Ownership.Owned, PlanOutbox, PruneScript, Views.HearAll;
    var r := w.rooms[key];
    Ownership.OwnedOk(w, key);
    CommandOutbox(w, key, TransferHost(q), t, p);
    var c := r.pending[p].conn;
    assert r.Members()[p] == r.pending[p];
    assert Offered(c in w.closed, c in w'.closed, w.Log(c), w'.Log(c), []);
    assert w.Log(c) + [] == w.Log(c);
    assert q !in t.Gone();
  }

  lemma StepTells(cfg: Config, w: World, step: Step, w': World)
    requires Ownership.Owned(w) && Next(cfg, w, step, w') && Calm(w, step, w')
    ensures EveryoneTold(w, w')
  {
    hide EveryoneTold, Ownership.Owned, Says, Departs;
    match step
    case Closing(cs) => ClosingEveryone(w, w');
    case Departure(k, lt, after) => DepartEveryone(w, k, lt, after, w');
    case Message(k, msg, tr) => SaysEveryone(w, cfg, k, msg, tr, w');
  }
}
