/** Runs of the server, with the history the theorems speak about. */
module Runs {
  import opened Types
  import RoomModel
  import opened ServerModel
  import Ownership

  /**
   * What happened to a pooled room since its creation: the moves accepted, its present clients in
   * the order they were admitted, the present members that ever had to wait, and the joins so far.
   */
  datatype RoomHist = RoomHist(moves: seq<Bytes>, order: seq<u32>, waited: set<u32>, joins: nat)

  /** `attached`: connections whose session was opened by joining the room now pooled under its key. */
  datatype Hist = Hist(rooms: map<Key, RoomHist>, attached: set<RoomModel.ConnId>)

  datatype Sys = Sys(w: World, h: Hist)

  const START: Sys := Sys(INITIAL, Hist(map[], {}))

  function Keep(s: seq<u32>, ids: set<u32>): seq<u32> {
    if s == [] then [] else (if s[0] in ids then [s[0]] else []) + Keep(s[1..], ids)
  }

  ghost function AnyOf(ids: set<u32>): seq<u32> {
    if ids == {} then [] else var p :| p in ids; [p]
  }

  predicate IsAcceptedMove(w: World, step: Step, key: Key) {
    && step.Message? && step.msg.Move? && HasRoom(w, step.conn)
    && w.sessions[step.conn].key == key
    && RoomModel.MoveRefusal(w.rooms[key], w.sessions[step.conn].peer) == None
  }

  /** The blob of the move a step gets accepted in a room, if any. */
  function AcceptedMove(w: World, step: Step, key: Key): seq<Bytes> {
    if IsAcceptedMove(w, step, key) then [step.msg.blob] else []
  }

  function Newly(w: World, w': World): set<RoomModel.ConnId> { w'.sessions.Keys - w.sessions.Keys }

  predicate IsJoin(w: World, w': World, key: Key) {
    exists c :: c in Newly(w, w') && w'.sessions[c].key == key
  }

  ghost function RoomHistNext(w: World, rh: RoomHist, step: Step, w': World, key: Key): RoomHist
    requires key in w'.rooms
  {
    var r' := w'.rooms[key];
    var before := if key in w.rooms then w.rooms[key].clients.Keys else {};
    RoomHist(
      rh.moves + AcceptedMove(w, step, key),
      Keep(rh.order, r'.clients.Keys) + AnyOf(r'.clients.Keys - before),
      (rh.waited * r'.Members().Keys) + r'.pending.Keys,
      if IsJoin(w, w', key) then rh.joins + 1 else rh.joins)
  }

  ghost function HistOf(h: Hist, key: Key): RoomHist {
    if key in h.rooms then h.rooms[key] else RoomHist([], [], {}, 0)
  }

  ghost function HistNext(w: World, h: Hist, step: Step, w': World): Hist {
    Hist(map key | key in w'.rooms :: RoomHistNext(w, HistOf(h, key), step, w', key),
         (set c | c in h.attached && c in w'.sessions && w'.sessions[c].key in w'.rooms) + Newly(w, w'))
  }

  ghost predicate SysNext(cfg: Config, s: Sys, step: Step, s': Sys) {
    Next(cfg, s.w, step, s'.w) && s'.h == HistNext(s.w, s.h, step, s'.w)
  }

  ghost predicate IsRun(cfg: Config, run: seq<Sys>, steps: seq<Step>) {
    && |run| == |steps| + 1
    && run[0] == START
    && forall i :: 0 <= i < |steps| ==> SysNext(cfg, run[i], steps[i], run[i + 1])
  }

  lemma RunExtends(cfg: Config, run: seq<Sys>, steps: seq<Step>, step: Step, next: Sys)
    requires IsRun(cfg, run, steps) && SysNext(cfg, run[|steps|], step, next)
    ensures IsRun(cfg, run + [next], steps + [step])
  {
    hide Next, HistNext;
    var run', steps' := run + [next], steps + [step];
    forall i | 0 <= i < |steps'|
      ensures SysNext(cfg, run'[i], steps'[i], run'[i + 1])
    {
    }
  }

  /** Histories are kept for exactly the pooled rooms. */
  ghost predicate Tracked(s: Sys) { s.h.rooms.Keys == s.w.rooms.Keys }

  lemma {:induction false} RunOwned(cfg: Config, run: seq<Sys>, steps: seq<Step>, i: nat)
    requires IsRun(cfg, run, steps) && i < |run|
    ensures Ownership.Owned(run[i].w) && Tracked(run[i])
  {
    if i > 0 {
      RunOwned(cfg, run, steps, i - 1);
      assert SysNext(cfg, run[i - 1], steps[i - 1], run[i]);
      Ownership.NextOwned(cfg, run[i - 1].w, steps[i - 1], run[i].w);
    }
  }

  /** A connection holds at most one seat in the whole server, the one its session names. */
  lemma OneSeatPerConnection(cfg: Config, run: seq<Sys>, steps: seq<Step>, i: nat, k1: Key, p1: u32, k2: Key, p2: u32)
    requires IsRun(cfg, run, steps) && i < |run|
    requires k1 in run[i].w.rooms && p1 in run[i].w.rooms[k1].Members()
    requires k2 in run[i].w.rooms && p2 in run[i].w.rooms[k2].Members()
    requires run[i].w.rooms[k1].Members()[p1].conn == run[i].w.rooms[k2].Members()[p2].conn
    ensures k1 == k2 && p1 == p2
    ensures run[i].w.rooms[k1].Members()[p1].conn in run[i].w.sessions
    ensures run[i].w.sessions[run[i].w.rooms[k1].Members()[p1].conn] == Session(k1, p1)
  {
    RunOwned(cfg, run, steps, i);
  }

  /** Once every session has ended, no room is left. */
  lemma RoomsReclaimed(cfg: Config, run: seq<Sys>, steps: seq<Step>, i: nat)
    requires IsRun(cfg, run, steps) && i < |run|
    ensures forall key :: key in run[i].w.rooms ==> exists c :: c in run[i].w.sessions && run[i].w.sessions[c].key == key
    ensures run[i].w.sessions == map[] ==> run[i].w.rooms == map[]
  {
    RunOwned(cfg, run, steps, i);
  }
}
