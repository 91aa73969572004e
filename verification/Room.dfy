/** A room, changed in place the way its handlers change it. */
module RoomObjects {
  import opened Types
  import opened RoomModel
  import opened Networking
  import opened Pruning

  ghost predicate ApartIn(m: map<u32, ClientInfo>) {
    forall p, q :: p in m && q in m && m[p].conn == m[q].conn ==> p == q
  }

  /** A broadcast half done: of the listeners not in `todo`, the dead are listed and the others were reached. */
  ghost predicate Swept(n: NetState, m: map<u32, ClientInfo>, msg: ServerMessage, todo: set<u32>, dead: seq<u32>, n': NetState) {
    && todo <= m.Keys && NoDup(dead) && Ids(dead) <= m.Keys - todo
    && Reaches(n, Conns(m - todo - Ids(dead)), msg, n')
    && (forall p :: p in Ids(dead) ==> m[p].conn in n'.closed)
    && (forall p :: p in m && p !in todo && m[p].conn in n.closed ==> p in dead)
  }

  lemma SweepsDead(n: NetState, m: map<u32, ClientInfo>, msg: ServerMessage, todo: set<u32>, dead: seq<u32>, n1: NetState, p: u32, n2: NetState)
    requires Swept(n, m, msg, todo, dead, n1) && p in todo && ApartIn(m)
    requires n1.closed <= n2.closed && m[p].conn in n2.closed && n2.sent == n1.sent && n2.taken == n1.taken
    requires forall d: ConnId :: |n2.Queue(d)| <= |n1.Queue(d)|
    ensures Swept(n, m, msg, todo - {p}, dead + [p], n2)
  {
    assert Conns(m - todo - Ids(dead)) == Conns(m - (todo - {p}) - Ids(dead + [p])) by {
      assert Ids(dead + [p]) == Ids(dead) + {p};
      assert m - (todo - {p}) - Ids(dead + [p]) == m - todo - Ids(dead);
    }
    hide Conns, ApartIn;
    ReachesLater(n, Conns(m - todo - Ids(dead)), msg, n1, n2);
    hide Reaches;
    assert Ids(dead + [p]) == Ids(dead) + {p};
    assert p !in Ids(dead);
    assert p !in dead;
    NoDupAppend(dead, [p]);
  }

  /** Closing and draining take back nothing that was sent. */
  lemma ReachesLater(n: NetState, who: set<ConnId>, msg: ServerMessage, n1: NetState, n2: NetState)
    requires Reaches(n, who, msg, n1) && n1.closed <= n2.closed && n2.sent == n1.sent && n2.taken == n1.taken
    requires forall d: ConnId :: |n2.Queue(d)| <= |n1.Queue(d)|
    ensures Reaches(n, who, msg, n2)
  {
    forall c: ConnId | c in who
      ensures ToldAll(n, n2, c, [msg])
    {
      assert ToldAll(n, n1, c, [msg]);
    }
    assert forall c: ConnId :: n2.Log(c) == n1.Log(c) && n2.Taken(c) == n1.Taken(c);
  }

  lemma SweepsReached(n: NetState, m: map<u32, ClientInfo>, msg: ServerMessage, todo: set<u32>, dead: seq<u32>, n1: NetState, p: u32, taken: bool, n2: NetState)
    requires Swept(n, m, msg, todo, dead, n1) && p in todo && ApartIn(m)
    requires n1.closed <= n2.closed && m[p].conn !in n2.closed
    requires n2.sent == n1.sent[m[p].conn := n1.Log(m[p].conn) + [msg]]
    requires n2.taken == if taken then n1.taken[m[p].conn := n1.Taken(m[p].conn) + [msg]] else n1.taken
    requires !taken ==> |n1.Queue(m[p].conn)| == CHANNEL_CAPACITY
    requires forall d: ConnId :: |n2.Queue(d)| <= |n1.Queue(d)| + if d == m[p].conn && taken then 1 else 0
    ensures Swept(n, m, msg, todo - {p}, dead, n2)
  {
    var c := m[p].conn;
    var who, who' := Conns(m - todo - Ids(dead)), Conns(m - (todo - {p}) - Ids(dead));
    assert p !in Ids(dead);
    assert c !in who && who' == who + {c} by {
      assert forall q :: q in m - todo - Ids(dead) ==> q != p;
      assert (m - (todo - {p}) - Ids(dead))[p] == m[p];
      assert forall q :: q in m - (todo - {p}) - Ids(dead) ==> q == p || q in m - todo - Ids(dead);
      assert forall q :: q in m - todo - Ids(dead) ==> q in m - (todo - {p}) - Ids(dead);
    }
    hide Conns, NoDup, ApartIn;
    ReachesOneMore(n, who, msg, n1, c, taken, n2);
  }

  lemma ReachesOneMore(n: NetState, who: set<ConnId>, msg: ServerMessage, n1: NetState, c: ConnId, taken: bool, n2: NetState)
    requires Reaches(n, who, msg, n1) && c !in who && n1.closed <= n2.closed && c !in n2.closed
    requires n2.sent == n1.sent[c := n1.Log(c) + [msg]]
    requires n2.taken == if taken then n1.taken[c := n1.Taken(c) + [msg]] else n1.taken
    requires !taken ==> |n1.Queue(c)| == CHANNEL_CAPACITY
    requires forall d: ConnId :: |n2.Queue(d)| <= |n1.Queue(d)| + if d == c && taken then 1 else 0
    ensures Reaches(n, who + {c}, msg, n2)
  {
    assert ToldAll(n, n2, c, [msg]);
    forall d: ConnId | d in who
      ensures ToldAll(n, n2, d, [msg])
    {
      assert ToldAll(n, n1, d, [msg]);
    }
  }

  class Room {
    const appKey: Bytes
    const code: Bytes
    var hostPeerId: u32
    var clients: map<u32, ClientInfo>
    var pending: map<u32, ClientInfo>
    var state: Bytes
    var settings: RoomSettings
    var banned: set<Bytes>
    var nextPeerId: u32

    ghost function View(): RoomState
      reads this
    {
      RoomState(appKey, code, hostPeerId, clients, pending, state, settings, banned, nextPeerId)
    }

    constructor (appKey: Bytes, code: Bytes, settings: RoomSettings)
      ensures View() == NewRoom(appKey, code, settings)
    {
      this.appKey, this.code, this.settings := appKey, code, settings;
      hostPeerId, clients, pending := 0, map[], map[];
      state, banned, nextPeerId := [], {}, 1;
    }

    predicate InUse(id: u32)
      reads this
    {
      id in clients || id in pending
    }

    predicate Full()
      reads this
      ensures Full() == IsFull(View())
    {
      settings.maxPlayers != 0 && AsU32(|clients| + |pending|) >= settings.maxPlayers
    }

    /** Why a newcomer is refused, if it is: banned, no place left, or not the password. */
    method Door(h: HelloFields) returns (why: Option<Bytes>)
      ensures why == Refusal(View(), h)
    {
      if h.clientHash in banned {
        return Some(Text("banned from this room"));
      }
      if Full() {
        return Some(Text("room full"));
      }
      if settings.password.Some? {
        var provided := if h.password.Some? then h.password.value else [];
        if provided != settings.password.value {
          return Some(Text("invalid or missing room password"));
        }
      }
      return None;
    }

    /** Allocates the next peer id, or finds every id taken. */
    method NextPeerId() returns (got: Option<u32>)
      requires nextPeerId >= 1
      modifies this`nextPeerId
      ensures Allocates(old(View()), got, nextPeerId)
      ensures View() == old(View()).(nextId := nextPeerId)
    {
      var id := nextPeerId;
      nextPeerId := SaturatingInc(nextPeerId);
      if !InUse(id) {
        return Some(id);
      }
      var start := nextPeerId;
      var candidate: int := start;
      while candidate <= U32_MAX
        invariant start <= candidate <= U32_MAX + 1
        invariant Taken(old(View()), start, candidate)
        invariant nextPeerId == start && View() == old(View()).(nextId := nextPeerId)
      {
        if !InUse(candidate) {
          nextPeerId := SaturatingInc(candidate);
          return Some(candidate);
        }
        candidate := candidate + 1;
      }
      candidate := 1;
      while candidate < start
        invariant 1 <= candidate <= start
        invariant Taken(old(View()), 1, candidate)
        invariant nextPeerId == start && View() == old(View()).(nextId := nextPeerId)
      {
        if !InUse(candidate) {
          nextPeerId := SaturatingInc(candidate);
          return Some(candidate);
        }
        candidate := candidate + 1;
      }
      return None;
    }

    /** The first slot of the inclusive scan that nobody holds, or 0. */
    method NextAvailableSide() returns (side: byte)
      ensures IsNextSide(View(), side)
    {
      var used := UsedSides(RoomState(appKey, code, hostPeerId, clients, pending, state, settings, banned, nextPeerId));
      var last: int := MaxSide(settings);
      var s: int := 0;
      while s <= last
        invariant 0 <= s <= last + 1
        invariant forall x: byte :: x < s ==> x in used
      {
        if s !in used {
          return s;
        }
        s := s + 1;
      }
      return 0;
    }

    /** Offers `msg` to every listener in some order and lists those whose channel is closed. */
    static method Sweep(net: Network, m: map<u32, ClientInfo>, msg: ServerMessage) returns (dead: seq<u32>)
      requires NetOk(net.View()) && ApartIn(m)
      modifies net
      ensures NetOk(net.View())
      ensures Swept(old(net.View()), m, msg, {}, dead, net.View())
    {
      hide NetOk, Swept, ApartIn;
      dead := [];
      var todo := m.Keys;
      SweepStarts(net.View(), m, msg);
      while todo != {}
        invariant NetOk(net.View()) && todo <= m.Keys
        invariant Swept(old(net.View()), m, msg, todo, dead, net.View())
        decreases todo
      {
        var pid :| pid in todo;
        ghost var before := net.View();
        var r := net.TrySend(m[pid].conn, msg);
        if r == Closed {
          SweepsDead(old(net.View()), m, msg, todo, dead, before, pid, net.View());
          dead := dead + [pid];
        } else {
          SweepsReached(old(net.View()), m, msg, todo, dead, before, pid, r == Sent, net.View());
        }
        todo := todo - {pid};
      }
    }

    /** Drops the dead one by one; whenever the host goes, some client left takes over. */
    method DropDead(dead: seq<u32>, all: bool) returns (newHost: Option<u32>)
      requires NoDup(dead) && (!all ==> Ids(dead) !! pending.Keys)
      modifies this`clients, this`pending, this`hostPeerId
      ensures View() == old(View()).(clients := old(clients) - Ids(dead), pending := old(pending) - Ids(dead), host := hostPeerId)
      ensures Elects(old(View()), Ids(dead), newHost, View()) && (clients == map[] ==> newHost == None)
    {
      newHost := None;
      var i := 0;
      while i < |dead|
        invariant 0 <= i <= |dead|
        invariant clients == old(clients) - Ids(dead[..i])
        invariant pending == if all then old(pending) - Ids(dead[..i]) else old(pending)
        invariant View() == old(View()).(clients := clients, pending := pending, host := hostPeerId)
        invariant Elects(old(View()), Ids(dead[..i]), newHost, View()) && (clients == map[] ==> newHost == None)
      {
        hide Elects;
        var pid := dead[i];
        ghost var before, elected := View(), newHost;
        assert Ids(dead[..i + 1]) == Ids(dead[..i]) + {pid};
        clients := clients - {pid};
        if all {
          pending := pending - {pid};
        }
        if hostPeerId == pid {
          if clients == map[] {
            newHost := None;
            hostPeerId := 0;
          } else {
            var next :| next in clients;
            newHost := Some(next);
            hostPeerId := next;
          }
        }
        ElectsOnDrop(old(View()), Ids(dead[..i]), elected, before, pid, newHost, View());
        i := i + 1;
      }
      assert dead[..|dead|] == dead;
    }

    /** Broadcasts to the accepted clients, drops those whose channel is closed, replaces a dropped host. */
    method BroadcastRetainConnected(net: Network, msg: ServerMessage) returns (dead: seq<u32>, newHost: Option<u32>)
      requires NetOk(net.View()) && DistinctConns(View())
      modifies this`clients, this`pending, this`hostPeerId, net
      ensures NetOk(net.View()) && DistinctConns(View())
      ensures BroadcastOnce(old(View()), old(net.View()), msg, false, dead, newHost, View(), net.View())
    {
      ApartMembers(View());
      dead := Sweep(net, clients, msg);
      newHost := DropDead(dead, false);
      SweptDrops(old(View()), old(net.View()), msg, false, dead, newHost, View(), net.View());
    }

    /** Broadcasts the state to clients and waiting peers alike, and drops the dead among both. */
    method BroadcastStateUpdateRetainConnected(net: Network) returns (dead: seq<u32>, newHost: Option<u32>)
      requires NetOk(net.View()) && DistinctConns(View())
      modifies this`clients, this`pending, this`hostPeerId, net
      ensures NetOk(net.View()) && DistinctConns(View())
      ensures BroadcastOnce(old(View()), old(net.View()), StateUpdate(old(state)), true, dead, newHost, View(), net.View())
    {
      ApartMembers(View());
      var msg := StateUpdate(state);
      dead := Sweep(net, clients, msg);
      ghost var between := net.View();
      var waitingDead := Sweep(net, pending, msg);
      SweptBoth(View(), old(net.View()), msg, dead, between, waitingDead, net.View());
      dead := dead + waitingDead;
      newHost := DropDead(dead, true);
      SweptDrops(old(View()), old(net.View()), msg, true, dead, newHost, View(), net.View());
    }

    /**
     * Announces the dead, round after round, until a round finds no more, then the new host if there
     * is one. Each round either drops a client or is the last, whatever closes meanwhile.
     */
    method AnnounceDead(net: Network, dead0: seq<u32>, newHost0: Option<u32>,
                        ghost r: RoomState, ghost n: NetState, ghost msg: ServerMessage, ghost all: bool)
      returns (ghost t: PruneTrace)
      requires NetOk(net.View()) && DistinctConns(r) && DistinctConns(View())
      requires Underway(r, n, msg, all, [], dead0, newHost0, View(), net.View())
      modifies this`clients, this`pending, this`hostPeerId, net
      ensures NetOk(net.View()) && DistinctConns(View())
      ensures Finished(r, n, msg, all, t, View(), net.View())
    {
      hide Underway, BroadcastOnce, DistinctConns, NetOk, Finished;
      var dead, newHost := dead0, newHost0;
      ghost var announced: seq<u32> := [];
      while dead != []
        invariant NetOk(net.View()) && DistinctConns(View())
        invariant Underway(r, n, msg, all, announced, dead, newHost, View(), net.View())
        decreases |clients|, |dead|
      {
        var nextDead: seq<u32> := [];
        var i := 0;
        ghost var size := |clients|;
        assert dead[0..] + [] == dead;
        while i < |dead|
          invariant 0 <= i <= |dead|
          invariant NetOk(net.View()) && DistinctConns(View())
          invariant Underway(r, n, msg, all, announced, dead[i..] + nextDead, newHost, View(), net.View())
          invariant |clients| + |nextDead| <= size
        {
          ghost var room, channels, rest := View(), net.View(), dead[i + 1..] + nextDead;
          assert dead[i..] + nextDead == [dead[i]] + rest;
          var d, h := BroadcastRetainConnected(net, PeerLeft(dead[i]));
          PruneContinues(r, n, msg, all, announced, dead[i], rest, newHost, room, channels, d, h, View(), net.View());
          Shrinks(room, channels, PeerLeft(dead[i]), d, h, View(), net.View());
          assert rest + d == dead[i + 1..] + (nextDead + d);
          announced := announced + [dead[i]];
          nextDead := nextDead + d;
          if h.Some? {
            newHost := h;
          }
          i := i + 1;
        }
        assert dead[i..] + nextDead == nextDead;
        dead := nextDead;
      }
      if newHost.Some? {
        ghost var room, channels := View(), net.View();
        var d, h := BroadcastRetainConnected(net, RoomEvent(HostTransferred(newHost.value)));
        PruneEndsWithTransfer(r, n, msg, all, announced, newHost.value, room, channels, d, h, View(), net.View());
        t := PruneTrace(announced, Ids(d), newHost);
      } else {
        PruneEnds(r, n, msg, all, announced, View(), net.View());
        t := PruneTrace(announced, {}, None);
      }
    }

    /** Broadcast to the clients, prune the dead, and tell the survivors who left and who leads. */
    method BroadcastAndPrune(net: Network, msg: ServerMessage) returns (ghost t: PruneTrace)
      requires NetOk(net.View()) && DistinctConns(View())
      modifies this`clients, this`pending, this`hostPeerId, net
      ensures NetOk(net.View()) && DistinctConns(View())
      ensures Finished(old(View()), old(net.View()), msg, false, t, View(), net.View())
    {
      hide Underway, BroadcastOnce, DistinctConns, NetOk, Finished;
      var dead, newHost := BroadcastRetainConnected(net, msg);
      PruneStarts(old(View()), old(net.View()), msg, false, dead, newHost, View(), net.View());
      t := AnnounceDead(net, dead, newHost, old(View()), old(net.View()), msg, false);
    }

    /** The same for the state, which waiting peers hear too. */
    method BroadcastStateUpdateAndPrune(net: Network) returns (ghost t: PruneTrace)
      requires NetOk(net.View()) && DistinctConns(View())
      modifies this`clients, this`pending, this`hostPeerId, net
      ensures NetOk(net.View()) && DistinctConns(View())
      ensures Finished(old(View()), old(net.View()), StateUpdate(old(state)), true, t, View(), net.View())
    {
      hide Underway, BroadcastOnce, DistinctConns, NetOk, Finished;
      var dead, newHost := BroadcastStateUpdateRetainConnected(net);
      PruneStarts(old(View()), old(net.View()), StateUpdate(old(state)), true, dead, newHost, View(), net.View());
      t := AnnounceDead(net, dead, newHost, old(View()), old(net.View()), StateUpdate(old(state)), true);
    }
  }

  lemma ApartMembers(r: RoomState)
    requires DistinctConns(r)
    ensures ApartIn(r.clients) && ApartIn(r.pending)
  {
    assert forall q :: q in r.clients ==> r.Members()[q] == r.clients[q];
    assert forall q :: q in r.pending ==> r.Members()[q] == r.pending[q];
  }

  lemma SweptDrops(r: RoomState, n: NetState, msg: ServerMessage, all: bool, dead: seq<u32>, newHost: Option<u32>, r': RoomState, n': NetState)
    requires DistinctConns(r) && Swept(n, Listeners(r, all), msg, {}, dead, n')
    requires r' == r.(clients := r.clients - Ids(dead), pending := r.pending - Ids(dead), host := r'.host)
    requires Elects(r, Ids(dead), newHost, r') && (r'.clients == map[] ==> newHost == None)
    ensures DistinctConns(r') && BroadcastOnce(r, n, msg, all, dead, newHost, r', n')
  {
    FewerDistinct(r, Ids(dead), r');
    hide DistinctConns;
    assert n.closed <= n'.closed;
    hide Reaches, Conns, NoDup, Elects;
    FewerListeners(r, all, Ids(dead), r');
    assert Listeners(r, all) - {} - Ids(dead) == Listeners(r', all);
    hide Listeners;
  }

  lemma FewerListeners(r: RoomState, all: bool, gone: set<u32>, r': RoomState)
    requires r'.clients == r.clients - gone && r'.pending == r.pending - gone
    ensures Listeners(r', all) == Listeners(r, all) - {} - gone
  {
  }

  lemma ConnsOfUnion(m: map<u32, ClientInfo>, left: map<u32, ClientInfo>, right: map<u32, ClientInfo>)
    requires m.Keys == left.Keys + right.Keys
    requires forall q :: q in left ==> m[q] == left[q]
    requires forall q :: q in right ==> m[q] == right[q]
    ensures Conns(m) == Conns(left) + Conns(right)
  {
  }

  lemma BothConns(r: RoomState, a: set<u32>, b: set<u32>)
    requires DistinctConns(r) && a <= r.clients.Keys && b <= r.pending.Keys
    ensures Conns(r.Members() - {} - (a + b)) == Conns(r.clients - {} - a) + Conns(r.pending - {} - b)
    ensures Conns(r.clients - {} - a) !! Conns(r.pending - {} - b)
  {
    ConnsOfUnion(r.Members() - {} - (a + b), r.clients - {} - a, r.pending - {} - b);
    assert forall q :: q in r.clients ==> r.Members()[q] == r.clients[q];
    assert forall q :: q in r.pending ==> r.Members()[q] == r.pending[q];
  }

  lemma SweptBoth(r: RoomState, n: NetState, msg: ServerMessage, dead: seq<u32>, n1: NetState, waitingDead: seq<u32>, n2: NetState)
    requires DistinctConns(r) && Swept(n, r.clients, msg, {}, dead, n1) && Swept(n1, r.pending, msg, {}, waitingDead, n2)
    ensures Swept(n, r.Members(), msg, {}, dead + waitingDead, n2)
  {
    BothConns(r, Ids(dead), Ids(waitingDead));
    hide Conns;
    assert Ids(dead + waitingDead) == Ids(dead) + Ids(waitingDead);
    ReachesBoth(n, Conns(r.clients - {} - Ids(dead)), msg, n1, Conns(r.pending - {} - Ids(waitingDead)), n2);
    assert n.closed <= n1.closed <= n2.closed;
    hide Reaches;
    assert Ids(dead) !! Ids(waitingDead);
    assert forall p :: p in waitingDead ==> p in Ids(waitingDead);
    assert forall p :: p in dead ==> p in Ids(dead);
    NoDupAppend(dead, waitingDead);
    hide NoDup, DistinctConns;
    DeadAmongBoth(r, dead, waitingDead, n.closed, n1.closed, n2.closed);
  }

  lemma DeadAmongBoth(r: RoomState, dead: seq<u32>, waitingDead: seq<u32>, closed: set<ConnId>, closed1: set<ConnId>, closed2: set<ConnId>)
    requires r.clients.Keys !! r.pending.Keys && closed <= closed1 <= closed2
    requires Ids(dead) <= r.clients.Keys && Ids(waitingDead) <= r.pending.Keys
    requires forall p :: p in Ids(dead) ==> r.clients[p].conn in closed1
    requires forall p :: p in Ids(waitingDead) ==> r.pending[p].conn in closed2
    requires forall p :: p in r.clients && r.clients[p].conn in closed ==> p in dead
    requires forall p :: p in r.pending && r.pending[p].conn in closed1 ==> p in waitingDead
    ensures Ids(dead) + Ids(waitingDead) <= r.Members().Keys
    ensures forall p :: p in Ids(dead) + Ids(waitingDead) ==> r.Members()[p].conn in closed2
    ensures forall p :: p in r.Members() && r.Members()[p].conn in closed ==> p in dead + waitingDead
  {
  }

  lemma ReachesBoth(n: NetState, who1: set<ConnId>, msg: ServerMessage, n1: NetState, who2: set<ConnId>, n2: NetState)
    requires Reaches(n, who1, msg, n1) && Reaches(n1, who2, msg, n2) && who1 !! who2
    ensures Reaches(n, who1 + who2, msg, n2)
  {
    forall c: ConnId | c in who1 + who2
      ensures ToldAll(n, n2, c, [msg])
    {
      assert c in who1 ==> ToldAll(n, n1, c, [msg]);
      assert c in who2 ==> ToldAll(n1, n2, c, [msg]);
    }
  }

  /** Every death a broadcast finds costs the room a client. */
  lemma Shrinks(r: RoomState, n: NetState, msg: ServerMessage, dead: seq<u32>, newHost: Option<u32>, r': RoomState, n': NetState)
    requires BroadcastOnce(r, n, msg, false, dead, newHost, r', n')
    ensures |r'.clients| + |dead| <= |r.clients|
  {
    IdsCount(dead);
    assert r.clients.Keys == r'.clients.Keys + Ids(dead) && r'.clients.Keys !! Ids(dead);
    assert |r.clients.Keys| == |r.clients| && |r'.clients.Keys| == |r'.clients|;
  }

  lemma {:induction false} IdsCount(s: seq<u32>)
    requires NoDup(s)
    ensures |Ids(s)| == |s|
  {
    if s != [] {
      var front, last := s[..|s| - 1], s[|s| - 1];
      IdsCount(front);
      assert Ids(s) == Ids(front) + {last};
      assert last !in front;
    }
  }

  lemma ElectsOnDrop(r: RoomState, gone: set<u32>, newHost: Option<u32>, r1: RoomState, pid: u32, newHost2: Option<u32>, r2: RoomState)
    requires Elects(r, gone, newHost, r1) && (r1.clients == map[] ==> newHost == None) && r2.clients == r1.clients - {pid}
    requires if r1.host != pid then r2.host == r1.host && newHost2 == newHost
             else if r2.clients == map[] then r2.host == 0 && newHost2 == None
             else r2.host in r2.clients && newHost2 == Some(r2.host)
    ensures Elects(r, gone + {pid}, newHost2, r2) && (r2.clients == map[] ==> newHost2 == None)
  {
    assert r1.host in r1.clients && r1.host != pid ==> r1.host in r2.clients;
  }

  lemma SweepStarts(n: NetState, m: map<u32, ClientInfo>, msg: ServerMessage)
    ensures Swept(n, m, msg, m.Keys, [], n)
  {
    assert m - m.Keys - Ids([]) == map[];
  }
}
