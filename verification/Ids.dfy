/**
 * Peer ids over every run: the k-th join of a room gets id k, for every k up to 2^32 - 1, so no id
 * is handed out twice before the counter saturates. Member counts therefore fit in 32 bits.
 */
module Ids {
  import opened Types
  import opened RoomModel
  import opened ServerModel
  import opened Ownership
  import opened Runs
  import opened Steps

  /** The counter and the ids in use, after `joins` joins. */
  ghost predicate Counted(r: RoomState, joins: nat) {
    joins <= U32_MAX ==>
      && r.nextId == (if joins < U32_MAX then joins + 1 else U32_MAX)
      && r.host <= joins
      && forall p :: p in r.Members() ==> p <= joins
  }

  ghost predicate AttachedTo(s: Sys, c: ConnId, key: Key) {
    c in s.h.attached && c in s.w.sessions && s.w.sessions[c].key == key
  }

  /** The sessions opened on the room now under `key` bear distinct ids among those handed out. */
  ghost predicate Distinguished(s: Sys, key: Key, joins: nat) {
    joins <= U32_MAX ==>
      && (forall c :: AttachedTo(s, c, key) ==> s.w.sessions[c].peer <= joins)
      && (forall c, d :: AttachedTo(s, c, key) && AttachedTo(s, d, key) && s.w.sessions[c].peer == s.w.sessions[d].peer ==> c == d)
  }

  ghost predicate RoomCounted(s: Sys, key: Key) {
    key in s.w.rooms && key in s.h.rooms ==>
      Counted(s.w.rooms[key], s.h.rooms[key].joins) && Distinguished(s, key, s.h.rooms[key].joins)
  }

  ghost predicate IdsOk(s: Sys) {
    && Tracked(s)
    && (forall key :: RoomCounted(s, key))
    && (forall c :: c in s.h.attached ==> HasRoom(s.w, c))
    && (forall key, p :: key in s.w.rooms && p in s.w.rooms[key].Members() ==> s.w.rooms[key].Members()[p].conn in s.h.attached)
  }

  // ---------- The allocator ----------

  /** Never 0, never an id in use, and nothing exactly when every id from 1 is in use. */
  lemma AllocatorSound(r: RoomState, got: Option<u32>, nextId: u32)
    requires RoomOk(r) && Allocates(r, got, nextId)
    ensures got.Some? ==> got.value != 0 && !r.InUse(got.value) && nextId >= 1
    ensures got == None <==> Taken(r, 1, U32_MAX + 1)
  {
    if got.Some? {
      assert !r.InUse(got.value);
    }
  }

  lemma AllocatorCounts(r: RoomState, joins: nat, got: Option<u32>, nextId: u32)
    requires RoomOk(r) && Allocates(r, got, nextId) && Counted(r, joins) && joins < U32_MAX
    ensures got == Some(joins + 1) && nextId == (if joins + 1 < U32_MAX then joins + 2 else U32_MAX)
  {
    assert !r.InUse(r.nextId);
  }

  // ---------- One step ----------

  lemma EvolvesCounted(r: RoomState, r': RoomState, joins: nat)
    requires RoomOk(r) && Evolves(r, r') && Counted(r, joins)
    ensures Counted(r', joins)
  {
    if joins < U32_MAX {
      assert !r.InUse(r.nextId);
    }
  }

  lemma WelcomesCounted(r: RoomState, h: HelloFields, k: ConnId, a: AdmitTrace, r': RoomState, joins: nat)
    requires Welcomes(r, h, k, a, r') && Counted(r, joins)
    ensures Counted(r', joins + 1)
    ensures joins < U32_MAX ==> a.id.value == joins + 1
    ensures r'.Members() == r.Members()[a.id.value := Newcomer(h, k, a.side)]
  {
    var r1 := r.(nextId := a.nextId);
    AllocatorSound(r, a.id, a.nextId);
    assert r1.Members() == r.Members();
    SeatMembers(r1, a.id.value, Newcomer(h, k, a.side));
    if joins < U32_MAX {
      AllocatorCounts(r, joins, a.id, a.nextId);
    }
  }

  lemma JoinsCount(s: Sys, step: Step, e: Effect, s': Sys, key: Key)
    requires Takes(s.w, step, e, s'.w) && s'.h == HistNext(s.w, s.h, step, s'.w) && key in s'.w.rooms
    ensures key in s'.h.rooms
    ensures s'.h.rooms[key].joins == HistOf(s.h, key).joins + if e.Filled? && e.key == key then 1 else 0
    ensures s'.h.attached == (set c | c in s.h.attached && c in s'.w.sessions && s'.w.sessions[c].key in s'.w.rooms) +
              if e.Filled? then {step.conn} else {}
  {
    hide Evolves, Welcomes;
    assert Newly(s.w, s'.w) == if e.Filled? then {step.conn} else {};
    assert IsJoin(s.w, s'.w, key) <==> e.Filled? && e.key == key by {
      if e.Filled? && e.key == key {
        assert step.conn in Newly(s.w, s'.w);
      }
    }
  }

  /** A room nobody joined keeps its count, and its sessions their ids. */
  lemma StillCounted(s: Sys, step: Step, e: Effect, s': Sys, key: Key)
    requires IdsOk(s) && Owned(s.w) && Takes(s.w, step, e, s'.w) && s'.h == HistNext(s.w, s.h, step, s'.w)
    requires key in s'.w.rooms && !(e.Filled? && e.key == key)
    ensures RoomCounted(s', key)
  {
    hide Evolves, Welcomes, Counted, HistNext, Owned;
    JoinsCount(s, step, e, s', key);
    var joins := s'.h.rooms[key].joins;
    assert key in s.w.rooms;
    assert RoomCounted(s, key);
    if s'.w.rooms[key] != s.w.rooms[key] {
      OwnedOk(s.w, key);
      EvolvesCounted(s.w.rooms[key], s'.w.rooms[key], joins);
    }
    assert forall c :: AttachedTo(s', c, key) ==> AttachedTo(s, c, key) && s'.w.sessions[c] == s.w.sessions[c];
  }

  lemma NowCounted(s: Sys, step: Step, e: Effect, s': Sys)
    requires IdsOk(s) && Owned(s.w) && Takes(s.w, step, e, s'.w) && s'.h == HistNext(s.w, s.h, step, s'.w)
    requires e.Filled?
    ensures RoomCounted(s', e.key)
    ensures s'.h.rooms[e.key].joins <= U32_MAX ==> s'.w.sessions[step.conn].peer == s'.h.rooms[e.key].joins
  {
    hide HistNext, Owned, Welcomes;
    var key := e.key;
    JoinsCount(s, step, e, s', key);
    var joins := HistOf(s.h, key).joins;
    assert RoomCounted(s, key);
    assert Counted(e.r, joins);
    WelcomesCounted(e.r, e.hello, step.conn, e.a, s'.w.rooms[key], joins);
    assert forall c :: AttachedTo(s', c, key) && c != step.conn ==> AttachedTo(s, c, key) && s'.w.sessions[c] == s.w.sessions[c];
    assert key !in s.w.rooms ==> forall c :: AttachedTo(s', c, key) ==> c == step.conn;
  }

  lemma SeatsAttached(s: Sys, step: Step, e: Effect, s': Sys, key: Key, p: u32)
    requires IdsOk(s) && Takes(s.w, step, e, s'.w) && Owned(s'.w)
    requires key in s'.w.rooms && p in s'.w.rooms[key].Members()
    requires s'.h.attached == (set c | c in s.h.attached && c in s'.w.sessions && s'.w.sessions[c].key in s'.w.rooms) +
              if e.Filled? then {step.conn} else {}
    requires e.Filled? ==> s'.w.rooms[e.key].Members() == e.r.Members()[e.a.id.value := Newcomer(e.hello, step.conn, e.a.side)]
    ensures s'.w.rooms[key].Members()[p].conn in s'.h.attached
  {
    hide Welcomes, Evolves, RoomCounted;
    var c := s'.w.rooms[key].Members()[p].conn;
    assert c in s'.w.sessions && s'.w.sessions[c] == Session(key, p);
    if !(e.Filled? && e.key == key) {
      StepSeats(s.w, step, e, s'.w, key);
    }
  }

  lemma NextIds(cfg: Config, s: Sys, step: Step, s': Sys)
    requires IdsOk(s) && Owned(s.w) && SysNext(cfg, s, step, s')
    ensures IdsOk(s')
  {
    hide Next, Owned, Evolves, Welcomes, HistNext, RoomCounted, Takes;
    NextOwned(cfg, s.w, step, s'.w);
    StepEffect(cfg, s.w, step, s'.w);
    var e := EffectOf(s.w, cfg, step, s'.w);
    NextTracked(s, step, s');
    forall key | key in s'.w.rooms
      ensures RoomCounted(s', key)
    {
      if e.Filled? && e.key == key { NowCounted(s, step, e, s'); } else { StillCounted(s, step, e, s', key); }
    }
    forall key
      ensures RoomCounted(s', key)
    {
      if key !in s'.w.rooms { Unpooled(s', key); }
    }
    NextAttached(s, step, e, s');
  }

  lemma Unpooled(s: Sys, key: Key)
    requires key !in s.w.rooms
    ensures RoomCounted(s, key)
  {
  }

  lemma NextTracked(s: Sys, step: Step, s': Sys)
    requires s'.h == HistNext(s.w, s.h, step, s'.w)
    ensures Tracked(s')
  {
  }

  lemma NextAttached(s: Sys, step: Step, e: Effect, s': Sys)
    requires IdsOk(s) && Owned(s.w) && Owned(s'.w) && Takes(s.w, step, e, s'.w) && s'.h == HistNext(s.w, s.h, step, s'.w)
    ensures forall c :: c in s'.h.attached ==> HasRoom(s'.w, c)
    ensures forall key, p :: key in s'.w.rooms && p in s'.w.rooms[key].Members() ==> s'.w.rooms[key].Members()[p].conn in s'.h.attached
  {
    hide Evolves, Welcomes, Owned, RoomCounted;
    assert Newly(s.w, s'.w) == if e.Filled? then {step.conn} else {};
    if e.Filled? {
      WelcomedMembers(e.r, e.hello, step.conn, e.a, s'.w.rooms[e.key]);
    }
    forall key, p | key in s'.w.rooms && p in s'.w.rooms[key].Members()
      ensures s'.w.rooms[key].Members()[p].conn in s'.h.attached
    {
      SeatsAttached(s, step, e, s', key, p);
    }
  }

  lemma WelcomedMembers(r: RoomState, h: HelloFields, k: ConnId, a: AdmitTrace, r': RoomState)
    requires Welcomes(r, h, k, a, r')
    ensures r'.Members() == r.Members()[a.id.value := Newcomer(h, k, a.side)]
    ensures !r.InUse(a.id.value) && a.id.value != 0
  {
    AllocatorSound(r, a.id, a.nextId);
    assert r.(nextId := a.nextId).Members() == r.Members();
    SeatMembers(r.(nextId := a.nextId), a.id.value, Newcomer(h, k, a.side));
  }

  // ---------- The theorems ----------

  lemma StartIds()
    ensures IdsOk(START)
  {
  }

  lemma {:induction false} RunIds(cfg: Config, run: seq<Sys>, steps: seq<Step>, i: nat)
    requires IsRun(cfg, run, steps) && i < |run|
    ensures IdsOk(run[i])
  {
    hide SysNext, IdsOk, Owned;
    if i == 0 {
      StartIds();
    } else {
      RunIds(cfg, run, steps, i - 1);
      RunOwned(cfg, run, steps, i - 1);
      NextIds(cfg, run[i - 1], steps[i - 1], run[i]);
    }
  }

  /** The session a step opens bears, as its id, the number of joins of that room so far. */
  lemma KthJoinGetsK(cfg: Config, run: seq<Sys>, steps: seq<Step>, i: nat, c: ConnId)
    requires IsRun(cfg, run, steps) && i < |steps|
    requires c !in run[i].w.sessions && c in run[i + 1].w.sessions
    ensures var s := run[i + 1].w.sessions[c];
            && s.key in run[i + 1].h.rooms && s.key in run[i + 1].w.rooms
            && run[i + 1].h.rooms[s.key].joins == HistOf(run[i].h, s.key).joins + 1
            && (run[i + 1].h.rooms[s.key].joins <= U32_MAX ==> s.peer == run[i + 1].h.rooms[s.key].joins)
  {
    RunIds(cfg, run, steps, i);
    RunOwned(cfg, run, steps, i);
    var s, s', step := run[i], run[i + 1], steps[i];
    hide Next, Owned, Evolves, Welcomes, HistNext, RoomCounted, IdsOk;
    assert SysNext(cfg, s, step, s');
    StepEffect(cfg, s.w, step, s'.w);
    var e := EffectOf(s.w, cfg, step, s'.w);
    assert e.Filled? && step.conn == c;
    NowCounted(s, step, e, s');
    JoinsCount(s, step, e, s', e.key);
  }
}
