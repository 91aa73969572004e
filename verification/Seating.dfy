/**
 * Capacity, side slots and the public listing. The counts cast to 32 bits never truncate, a join
 * never overfills a room, slots stay distinct while a room holds at most 256 peers, and the
 * listing shows exactly the public rooms whose capacity gate a Hello would pass.
 */
module Seating {
  import opened Types
  import opened RoomModel
  import opened ServerModel
  import opened Ownership
  import Runs
  import Steps
  import Ids

  // ---------- Counting ----------

  lemma {:induction false} AtMost(s: set<u32>, n: u32)
    requires forall x :: x in s ==> 1 <= x <= n
    ensures |s| <= n
  {
    if n > 0 {
      AtMost(s - {n}, n - 1);
    } else {
      assert forall x :: x !in s;
    }
  }

  lemma {:induction false} AtLeast(s: set<int>, lo: int, n: nat)
    requires forall x :: lo <= x < lo + n ==> x in s
    ensures n <= |s|
  {
    if n > 0 {
      AtLeast(s - {lo + n - 1}, lo, n - 1);
    }
  }

  lemma OccupancyIsMembers(r: RoomState)
    requires RoomOk(r)
    ensures r.Occupancy() == |r.Members()| == |r.Members().Keys|
  {
    assert r.Members().Keys == r.clients.Keys + r.pending.Keys;
    assert |r.clients.Keys| == |r.clients| && |r.pending.Keys| == |r.pending|;
  }

  /** Ids are distinct and non-zero, so member counts survive the cast to 32 bits. */
  lemma CountsFit(r: RoomState)
    requires RoomOk(r)
    ensures r.Occupancy() <= U32_MAX
    ensures AsU32(r.Occupancy()) == r.Occupancy() && AsU32(|r.clients|) == |r.clients|
    ensures IsFull(r) <==> r.settings.maxPlayers != 0 && r.Occupancy() >= r.settings.maxPlayers
  {
    hide AsU32;
    OccupancyFits(r);
    CastExact(r.Occupancy());
    CastExact(|r.clients|);
  }

  lemma NonZeroIdsFit(ids: set<u32>)
    requires 0 !in ids
    ensures |ids| <= U32_MAX
  {
    AtMost(ids, U32_MAX);
  }

  lemma OccupancyFits(r: RoomState)
    requires RoomOk(r)
    ensures r.Occupancy() <= U32_MAX
  {
    NonZeroIdsFit(r.Members().Keys);
    OccupancyIsMembers(r);
  }

  lemma CastExact(n: nat)
    requires n <= U32_MAX
    ensures AsU32(n) == n
  {
  }

  /** Below a limit there is always an id left to hand out. */
  lemma RoomLeftMeansIdLeft(r: RoomState, got: Option<u32>, nextId: u32)
    requires RoomOk(r) && Allocates(r, got, nextId)
    requires r.settings.maxPlayers != 0 && !IsFull(r)
    ensures got.Some?
  {
    CountsFit(r);
    OccupancyIsMembers(r);
    if got == None {
      Ids.AllocatorSound(r, got, nextId);
      var ids: set<int> := set p | p in r.Members();
      assert ids == r.Members().Keys;
      forall x | 1 <= x < 1 + U32_MAX
        ensures x in ids
      {
        var id: u32 := x;
        assert r.InUse(id);
      }
      AtLeast(ids, 1, U32_MAX);
    }
  }

  // ---------- Sides ----------

  ghost predicate SidesDistinct(r: RoomState) {
    forall p, q :: p in r.Members() && q in r.Members() && r.Members()[p].side == r.Members()[q].side ==> p == q
  }

  lemma {:induction false} SidesFew(m: map<u32, ClientInfo>)
    ensures |Sides(m)| <= |m|
    decreases |m|
  {
    if m == map[] {
      assert Sides(m) == {};
    } else {
      var p :| p in m;
      var rest := m - {p};
      SidesFew(rest);
      assert m.Keys == rest.Keys + {p};
      assert Sides(m) <= Sides(rest) + {m[p].side};
      AddOne(Sides(m), Sides(rest), m[p].side);
    }
  }

  lemma AddOne(a: set<byte>, b: set<byte>, x: byte)
    requires a <= b + {x}
    ensures |a| <= |b| + 1
  {
    SubsetSize(a, b + {x});
  }

  lemma UsedSidesFew(r: RoomState)
    ensures |UsedSides(r)| <= r.Occupancy()
  {
    SidesFew(r.clients);
    SidesFew(r.pending);
    assert |UsedSides(r)| == |Sides(r.clients)| + |Sides(r.pending)| - |Sides(r.clients) * Sides(r.pending)|;
  }

  /** Fewer members than slots leave a slot below `n` unused. */
  lemma SlotLeft(r: RoomState, n: nat) returns (s: byte)
    requires r.Occupancy() < n <= 256
    ensures s < n && s !in UsedSides(r)
  {
    UsedSidesFew(r);
    var used: set<int> := set x | x in UsedSides(r);
    assert used == UsedSides(r);
    if forall x :: 0 <= x < n ==> x in used {
      AtLeast(used, 0, n);
      assert false;
    }
    s :| 0 <= s < n && s !in used;
  }

  lemma SideFresh(r: RoomState, side: byte)
    requires RoomOk(r) && IsNextSide(r, side) && !IsFull(r) && r.Occupancy() < 256
    ensures side !in UsedSides(r) && forall s: byte :: s < side ==> s in UsedSides(r)
    ensures r.settings.maxPlayers != 0 ==> side < r.settings.maxPlayers
  {
    CountsFit(r);
    var n := if r.settings.maxPlayers == 0 || r.settings.maxPlayers > 256 then 256 else r.settings.maxPlayers;
    var s := SlotLeft(r, n);
    assert s <= MaxSide(r.settings);
    assert side <= s || s in UsedSides(r);
  }

  lemma SeatApart(r: RoomState, id: u32, info: ClientInfo, r': RoomState)
    requires SidesDistinct(r) && info.side !in UsedSides(r) && r'.Members() == r.Members()[id := info]
    ensures SidesDistinct(r')
  {
    assert forall p :: p in r.Members() ==> r.Members()[p].side in UsedSides(r);
  }

  /** A join adds one member, never past the limit, and with a limit its slot is below it. */
  lemma Welcomed(r: RoomState, h: HelloFields, k: ConnId, a: AdmitTrace, r': RoomState)
    requires Steps.Welcomes(r, h, k, a, r')
    ensures RoomOk(r) && RoomOk(r') && r'.settings == r.settings && !IsFull(r)
    ensures r'.Occupancy() == r.Occupancy() + 1
    ensures r.settings.maxPlayers != 0 ==> r'.Occupancy() <= r.settings.maxPlayers
    ensures r.settings.maxPlayers != 0 ==> a.side < r.settings.maxPlayers
  {
    hide Allocates, IsFull, IsNextSide;
    Ids.AllocatorSound(r, a.id, a.nextId);
    var id, info := a.id.value, Newcomer(h, k, a.side);
    SeatMembers(r.(nextId := a.nextId), id, info);
    OneMore(r, id, info, r');
    CountsFit(r);
    NotFull(r, h);
    if r.settings.maxPlayers != 0 && r.Occupancy() < 256 {
      SideFresh(r, a.side);
    }
  }

  lemma OneMore(r: RoomState, id: u32, info: ClientInfo, r': RoomState)
    requires RoomOk(r) && RoomOk(r') && !r.InUse(id) && r'.Members() == r.Members()[id := info]
    ensures r'.Occupancy() == r.Occupancy() + 1
  {
    OccupancyIsMembers(r);
    OccupancyIsMembers(r');
    assert r'.Members().Keys == r.Members().Keys + {id};
  }

  lemma NotFull(r: RoomState, h: HelloFields)
    requires Refusal(r, h) == None
    ensures !IsFull(r)
  {
  }

  /** There is always a next slot. */
  lemma {:induction false} LowestUnused(r: RoomState, s: byte) returns (side: byte)
    requires s !in UsedSides(r)
    ensures side <= s && side !in UsedSides(r) && forall b: byte :: b < side ==> b in UsedSides(r)
    decreases s
  {
    if lower: byte :| lower < s && lower !in UsedSides(r) {
      side := LowestUnused(r, lower);
    } else {
      side := s;
    }
  }

  lemma NextSideExists(r: RoomState) returns (side: byte)
    ensures IsNextSide(r, side)
  {
    if s: byte :| s <= MaxSide(r.settings) && s !in UsedSides(r) {
      side := LowestUnused(r, s);
    } else {
      side := 0;
    }
  }

  // ---------- When sides stay distinct ----------

  lemma {:induction false} AllSidesCount(m: map<u32, ClientInfo>)
    requires forall p, q :: p in m && q in m && m[p].side == m[q].side ==> p == q
    ensures |Sides(m)| == |m|
    decreases |m|
  {
    if m != map[] {
      var p :| p in m;
      var rest := m - {p};
      AllSidesCount(rest);
      assert m.Keys == rest.Keys + {p};
      assert Sides(m) == Sides(rest) + {m[p].side} && m[p].side !in Sides(rest);
    } else {
      assert Sides(m) == {};
    }
  }

  lemma {:induction false} BytesBelow(s: set<byte>, n: nat)
    requires forall b :: b in s ==> b < n
    ensures |s| <= n
  {
    if n > 0 {
      var rest := set b | b in s && b != n - 1;
      BytesBelow(rest, n - 1);
      if n - 1 < 256 {
        AddOne(s, rest, n - 1);
      } else {
        assert s == rest;
      }
    }
  }

  /** There are 256 slots, so no more members than that can have distinct ones. */
  lemma DistinctSidesFew(r: RoomState)
    requires RoomOk(r) && SidesDistinct(r)
    ensures r.Occupancy() <= 256
  {
    AllSidesCount(r.Members());
    BytesBelow(Sides(r.Members()), 256);
    OccupancyIsMembers(r);
  }

  /** A join into a room of distinct sides keeps them distinct if and only if the room had fewer than 256 members. */
  lemma WelcomedSidesIff(r: RoomState, h: HelloFields, k: ConnId, a: AdmitTrace, r': RoomState)
    requires Steps.Welcomes(r, h, k, a, r') && SidesDistinct(r)
    ensures SidesDistinct(r') <==> r.Occupancy() < 256
  {
    hide IsNextSide, Allocates, Refusal;
    Welcomed(r, h, k, a, r');
    Ids.WelcomedMembers(r, h, k, a, r');
    if r.Occupancy() < 256 {
      SideFresh(r, a.side);
      SeatApart(r, a.id.value, Newcomer(h, k, a.side), r');
    }
    if SidesDistinct(r') {
      DistinctSidesFew(r');
    }
  }

  lemma NextSides(cfg: Config, w: World, step: Step, w': World, key: Key)
    requires Owned(w) && Next(cfg, w, step, w') && key in w'.rooms && w'.rooms[key].Occupancy() <= 256
    requires key in w.rooms ==> SidesDistinct(w.rooms[key])
    ensures SidesDistinct(w'.rooms[key])
  {
    hide Next, Steps.Evolves, Steps.Welcomes, Owned, SidesDistinct;
    Steps.StepEffect(cfg, w, step, w');
    var e := Steps.EffectOf(w, cfg, step, w');
    if e.Filled? && e.key == key {
      if key !in w.rooms { NobodySits(e.r); }
      Welcomed(e.r, e.hello, step.conn, e.a, w'.rooms[key]);
      WelcomedSidesIff(e.r, e.hello, step.conn, e.a, w'.rooms[key]);
    } else {
      Steps.StepSeats(w, step, e, w', key);
      FewerSides(w.rooms[key], w'.rooms[key]);
    }
  }

  lemma NobodySits(r: RoomState)
    requires r.Empty()
    ensures SidesDistinct(r)
  {
  }

  lemma FewerSides(r: RoomState, r': RoomState)
    requires SidesDistinct(r) && Within(r'.Members(), r.Members())
    ensures SidesDistinct(r')
  {
  }

  /** While a room holds at most 256 peers, no two of them share a slot, whatever other rooms do. */
  lemma {:induction false} SidesStayDistinct(cfg: Config, run: seq<Runs.Sys>, steps: seq<Step>, i: nat, key: Key)
    requires Runs.IsRun(cfg, run, steps) && i < |run| && key in run[i].w.rooms
    requires forall j :: 0 <= j <= i && key in run[j].w.rooms ==> run[j].w.rooms[key].Occupancy() <= 256
    ensures SidesDistinct(run[i].w.rooms[key])
  {
    hide Next, Runs.HistNext, Owned, SidesDistinct;
    if i > 0 {
      if key in run[i - 1].w.rooms {
        SidesStayDistinct(cfg, run, steps, i - 1, key);
      }
      Runs.RunOwned(cfg, run, steps, i - 1);
      assert Runs.SysNext(cfg, run[i - 1], steps[i - 1], run[i]);
      NextSides(cfg, run[i - 1].w, steps[i - 1], run[i].w, key);
    }
  }

  // ---------- Listing ----------

  ghost predicate Qualified(r: RoomState, h: HelloFields) {
    && h.clientHash !in r.banned
    && (r.settings.password.Some? ==> h.password == r.settings.password)
  }

  /** An entry with the true player count and no password. */
  ghost predicate Shows(entry: RoomListEntry, r: RoomState) {
    entry.roomCode == r.code && entry.playerCount == r.Occupancy() && entry.settings == Public(r.settings)
  }

  /**
   * A listed room takes any caller that is not banned and knows the password, with an id to spare
   * when it has a limit, and shows its true player count; an unlisted public room refuses everyone.
   */
  lemma ListingAgreesWithAdmission(w: World, appKey: Bytes, keys: seq<Key>, entries: seq<RoomListEntry>, key: Key, h: HelloFields)
    requires Owned(w) && Lists(w, appKey, keys, entries)
    requires key in w.rooms && key.appKey == appKey && w.rooms[key].settings.isPublic
    ensures key in keys ==> exists i :: 0 <= i < |entries| && keys[i] == key && Shows(entries[i], w.rooms[key])
    ensures key in keys && Qualified(w.rooms[key], h) ==> Refusal(w.rooms[key], h) == None
    ensures key in keys && w.rooms[key].settings.maxPlayers != 0 ==>
              forall got, next :: Allocates(w.rooms[key], got, next) ==> got.Some?
    ensures key !in keys ==> Refusal(w.rooms[key], h).Some?
  {
    var r := w.rooms[key];
    OwnedOk(w, key);
    hide Owned, Allocates;
    CountsFit(r);
    if key in keys {
      var i :| 0 <= i < |keys| && keys[i] == key;
      assert Shows(entries[i], r);
      forall got, next | r.settings.maxPlayers != 0 && Allocates(r, got, next)
        ensures got.Some?
      {
        RoomLeftMeansIdLeft(r, got, next);
      }
    }
  }
}
