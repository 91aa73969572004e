/**
 * The rounds of broadcast-and-prune, one broadcast at a time. Each broadcast may find clients dead,
 * each death is announced by a further broadcast, and a lost host is replaced; these lemmas carry
 * the account of a prune under way from one broadcast to the next, and to its end.
 */
module Pruning {
  import opened Types
  import opened RoomModel
  import opened Networking

  /** Who hears a broadcast: the clients, and the waiting peers too when it carries the state. */
  function Listeners(r: RoomState, all: bool): map<u32, ClientInfo> { if all then r.Members() else r.clients }

  /** Who leads after some are dropped; `newHost` is a leader still to be announced. */
  ghost predicate Elects(r: RoomState, gone: set<u32>, newHost: Option<u32>, r': RoomState) {
    if r.host !in gone then r'.host == r.host && newHost == None
    else if r'.clients == map[] then r'.host == 0
    else r'.host in r'.clients && newHost == Some(r'.host)
  }

  /** Exactly the dead listeners in `gone` are dropped: all that were closed before, none that is open after. */
  ghost predicate Drops(r: RoomState, closed: set<ConnId>, all: bool, gone: seq<u32>, newHost: Option<u32>, r': RoomState, closed': set<ConnId>) {
    && closed <= closed'
    && NoDup(gone) && Ids(gone) <= Listeners(r, all).Keys
    && r' == r.(clients := r.clients - Ids(gone), pending := r.pending - Ids(gone), host := r'.host)
    && (forall p :: p in gone ==> Listeners(r, all)[p].conn in closed')
    && (forall p :: p in Listeners(r, all) && Listeners(r, all)[p].conn in closed ==> p in gone)
    && Elects(r, Ids(gone), newHost, r')
  }

  /** One connection was offered `script` in full, and took all of it in if its queue had the room. */
  ghost predicate ToldAll(n: NetState, n': NetState, c: ConnId, script: seq<ServerMessage>) {
    && n'.Log(c) == n.Log(c) + script
    && |n'.Queue(c)| <= |n.Queue(c)| + |script|
    && (|n.Queue(c)| + |script| <= CHANNEL_CAPACITY ==> n'.Taken(c) == n.Taken(c) + script)
  }

  /** A message reached exactly `who`. */
  ghost predicate Reaches(n: NetState, who: set<ConnId>, msg: ServerMessage, n': NetState) {
    && n.closed <= n'.closed && who !! n.closed
    && (forall c: ConnId :: c in who ==> ToldAll(n, n', c, [msg]))
    && (forall c: ConnId :: c !in who ==>
          n'.Log(c) == n.Log(c) && n'.Taken(c) == n.Taken(c) && |n'.Queue(c)| <= |n.Queue(c)|)
  }

  /** One broadcast of `msg`: those it reaches stay, the others are dropped. */
  ghost predicate BroadcastOnce(r: RoomState, n: NetState, msg: ServerMessage, all: bool,
                                dead: seq<u32>, newHost: Option<u32>, r': RoomState, n': NetState) {
    && Drops(r, n.closed, all, dead, newHost, r', n'.closed)
    && (r'.clients == map[] ==> newHost == None)
    && Reaches(n, Conns(Listeners(r', all)), msg, n')
  }

  /**
   * What was said while pruning: the clients still there (`now`) heard all of `script`, those that
   * were there (`before`) a prefix, waiting peers in `aside` its first message, and nobody else anything.
   */
  ghost predicate Spoken(n: NetState, before: set<ConnId>, now: set<ConnId>, aside: set<ConnId>, script: seq<ServerMessage>, n': NetState) {
    && n.closed <= n'.closed && script != []
    && (forall c: ConnId :: c in now ==> ToldAll(n, n', c, script))
    && (forall c: ConnId :: c in before ==> n.Log(c) <= n'.Log(c) <= n.Log(c) + script)
    && (forall c: ConnId :: c in n.closed ==> n'.Log(c) == n.Log(c))
    && (forall c: ConnId :: c !in before ==> n'.Log(c) == n.Log(c) + if c in aside then script[..1] else [])
  }

  function Aside(r: RoomState, all: bool): set<ConnId> { if all then Conns(r.pending) else {} }

  /**
   * A prune under way: `announced` have been broadcast, `rest` are dropped but not yet announced,
   * and every client still there was told everything so far.
   */
  ghost predicate Underway(r: RoomState, n: NetState, msg: ServerMessage, all: bool,
                           announced: seq<u32>, rest: seq<u32>, newHost: Option<u32>, r': RoomState, n': NetState) {
    && Drops(r, n.closed, all, announced + rest, newHost, r', n'.closed)
    && Spoken(n, Conns(r.clients), Conns(r'.clients), Aside(r', all), [msg] + Farewells(announced), n')
  }

  // ---------- The first broadcast ----------

  lemma ListenerConns(r: RoomState, all: bool)
    requires DistinctConns(r)
    ensures Conns(Listeners(r, all)) == Conns(r.clients) + Aside(r, all)
  {
    assert forall q :: q in r.clients ==> r.Members()[q] == r.clients[q];
    assert forall q :: q in r.pending ==> r.Members()[q] == r.pending[q];
  }

  lemma FewerDistinct(r: RoomState, gone: set<u32>, r': RoomState)
    requires DistinctConns(r) && r'.clients == r.clients - gone && r'.pending == r.pending - gone
    ensures DistinctConns(r') && Conns(r'.clients) <= Conns(r.clients)
    ensures Conns(r'.pending) !! Conns(r.clients)
  {
    assert forall p :: p in r'.Members() ==> p in r.Members() && r'.Members()[p] == r.Members()[p];
    assert forall q :: q in r.clients ==> r.Members()[q] == r.clients[q];
    assert forall q :: q in r.pending ==> r.Members()[q] == r.pending[q];
  }

  lemma DroppedDistinct(r: RoomState, closed: set<ConnId>, all: bool, gone: seq<u32>, newHost: Option<u32>, r': RoomState, closed': set<ConnId>)
    requires DistinctConns(r) && Drops(r, closed, all, gone, newHost, r', closed')
    ensures DistinctConns(r') && Conns(r'.clients) <= Conns(r.clients)
  {
    FewerDistinct(r, Ids(gone), r');
  }

  lemma PruneStarts(r: RoomState, n: NetState, msg: ServerMessage, all: bool, dead: seq<u32>, newHost: Option<u32>, r': RoomState, n': NetState)
    requires DistinctConns(r) && BroadcastOnce(r, n, msg, all, dead, newHost, r', n')
    ensures Underway(r, n, msg, all, [], dead, newHost, r', n')
  {
    assert [] + dead == dead;
    assert [msg] + Farewells([]) == [msg];
    FewerDistinct(r, Ids(dead), r');
    ListenerConns(r', all);
    hide Drops, Conns, ToldAll;
  }

  // ---------- A further broadcast ----------

  lemma ToldMore(n: NetState, n1: NetState, n2: NetState, c: ConnId, script: seq<ServerMessage>, msg: ServerMessage)
    requires ToldAll(n, n1, c, script) && ToldAll(n1, n2, c, [msg])
    ensures ToldAll(n, n2, c, script + [msg])
  {
    assert n.Log(c) + script + [msg] == n.Log(c) + (script + [msg]);
    assert n.Taken(c) + script + [msg] == n.Taken(c) + (script + [msg]);
  }

  lemma SpokenMore(n: NetState, before: set<ConnId>, now: set<ConnId>, aside: set<ConnId>, script: seq<ServerMessage>, n1: NetState,
                   now': set<ConnId>, msg: ServerMessage, n2: NetState)
    requires Spoken(n, before, now, aside, script, n1) && Reaches(n1, now', msg, n2) && now' <= now <= before
    ensures Spoken(n, before, now', aside, script + [msg], n2)
  {
    forall c: ConnId | c in now'
      ensures ToldAll(n, n2, c, script + [msg])
    {
      ToldMore(n, n1, n2, c, script, msg);
    }
    assert (script + [msg])[..1] == script[..1];
    forall c: ConnId | c in before
      ensures n.Log(c) <= n2.Log(c) <= n.Log(c) + (script + [msg])
    {
      assert c in now' ==> ToldAll(n, n2, c, script + [msg]);
      assert n.Log(c) + (script + [msg]) == (n.Log(c) + script) + [msg];
    }
  }

  lemma ElectsAgain(r: RoomState, gone: set<u32>, newHost: Option<u32>, r1: RoomState, dead: set<u32>, newHost2: Option<u32>, r2: RoomState)
    requires Elects(r, gone, newHost, r1) && Elects(r1, dead, newHost2, r2) && (r2.clients == map[] ==> newHost2 == None)
    requires r2.clients == r1.clients - dead && dead <= r1.clients.Keys
    ensures Elects(r, gone + dead, if newHost2.Some? then newHost2 else newHost, r2)
  {
    assert r1.host in r1.clients && r1.host !in dead ==> r1.host in r2.clients;
    assert r1.clients == map[] ==> dead == {};
  }

  lemma NoDupAppend(a: seq<u32>, b: seq<u32>)
    requires NoDup(a) && NoDup(b) && forall p :: p in b ==> p !in a
    ensures NoDup(a + b)
  {
    forall i, j | 0 <= i < j < |a + b|
      ensures (a + b)[i] != (a + b)[j]
    {
      assert j >= |a| ==> (a + b)[j] in b;
    }
  }

  lemma DropsMore(r: RoomState, closed: set<ConnId>, all: bool, gone: seq<u32>, newHost: Option<u32>, r1: RoomState, closed1: set<ConnId>,
                  dead: seq<u32>, newHost2: Option<u32>, r2: RoomState, closed2: set<ConnId>)
    requires DistinctConns(r) && Drops(r, closed, all, gone, newHost, r1, closed1)
    requires Drops(r1, closed1, false, dead, newHost2, r2, closed2) && (r2.clients == map[] ==> newHost2 == None)
    ensures Drops(r, closed, all, gone + dead, if newHost2.Some? then newHost2 else newHost, r2, closed2)
    ensures r2.pending == r1.pending
  {
    assert Ids(gone + dead) == Ids(gone) + Ids(dead);
    ElectsAgain(r, Ids(gone), newHost, r1, Ids(dead), newHost2, r2);
    forall p | p in dead
      ensures p in Listeners(r, all) && Listeners(r, all)[p].conn in closed2 && p !in gone
    {
      assert p in Ids(dead) && p in r1.clients && r.Members()[p] == r.clients[p];
      assert p in gone ==> p in Ids(gone);
    }
    NoDupAppend(gone, dead);
  }

  lemma PruneContinues(r: RoomState, n: NetState, msg: ServerMessage, all: bool,
                       announced: seq<u32>, d: u32, rest: seq<u32>, newHost: Option<u32>, r1: RoomState, n1: NetState,
                       dead: seq<u32>, newHost2: Option<u32>, r2: RoomState, n2: NetState)
    requires DistinctConns(r) && Underway(r, n, msg, all, announced, [d] + rest, newHost, r1, n1)
    requires BroadcastOnce(r1, n1, PeerLeft(d), false, dead, newHost2, r2, n2)
    ensures Underway(r, n, msg, all, announced + [d], rest + dead, if newHost2.Some? then newHost2 else newHost, r2, n2)
  {
    hide Drops, Conns, Spoken, Reaches, DistinctConns;
    var script := [msg] + Farewells(announced);
    assert announced + ([d] + rest) + dead == (announced + [d]) + (rest + dead);
    assert [msg] + Farewells(announced + [d]) == script + [PeerLeft(d)];
    hide Farewells;
    DroppedDistinct(r, n.closed, all, announced + ([d] + rest), newHost, r1, n1.closed);
    DroppedDistinct(r1, n1.closed, false, dead, newHost2, r2, n2.closed);
    DropsMore(r, n.closed, all, announced + ([d] + rest), newHost, r1, n1.closed, dead, newHost2, r2, n2.closed);
    SpokenMore(n, Conns(r.clients), Conns(r1.clients), Aside(r1, all), script, n1, Conns(r2.clients), PeerLeft(d), n2);
  }

  // ---------- The end ----------

  /** What a finished prune leaves behind, in the words of the room model. */
  ghost predicate Finished(r: RoomState, n: NetState, msg: ServerMessage, all: bool, t: PruneTrace, r': RoomState, n': NetState) {
    && (if all then PrunesState(r, n.closed, t, r', n'.closed) else Prunes(r, n.closed, t, r', n'.closed))
    && Spoken(n, Conns(r.clients), Conns(r'.clients), Aside(r', all), PruneScript(msg, t), n')
  }

  lemma PruneEnds(r: RoomState, n: NetState, msg: ServerMessage, all: bool, announced: seq<u32>, r1: RoomState, n1: NetState)
    requires DistinctConns(r) && Underway(r, n, msg, all, announced, [], None, r1, n1)
    ensures Finished(r, n, msg, all, PruneTrace(announced, {}, None), r1, n1)
  {
    hide Spoken, Conns;
    var t := PruneTrace(announced, {}, None);
    assert announced + [] == announced;
    assert PruneScript(msg, t) == [msg] + Farewells(announced);
    assert t.Gone() == Ids(announced);
    assert !all ==> r.pending - Ids(announced) == r.pending;
  }

  lemma PruneEndsWithTransfer(r: RoomState, n: NetState, msg: ServerMessage, all: bool, announced: seq<u32>, host: u32, r1: RoomState, n1: NetState,
                              dead: seq<u32>, newHost2: Option<u32>, r2: RoomState, n2: NetState)
    requires DistinctConns(r) && Underway(r, n, msg, all, announced, [], Some(host), r1, n1)
    requires BroadcastOnce(r1, n1, RoomEvent(HostTransferred(host)), false, dead, newHost2, r2, n2)
    ensures Finished(r, n, msg, all, PruneTrace(announced, Ids(dead), Some(host)), r2, n2)
  {
    var t, last := PruneTrace(announced, Ids(dead), Some(host)), RoomEvent(HostTransferred(host));
    assert announced + [] == announced;
    assert PruneScript(msg, t) == ([msg] + Farewells(announced)) + [last];
    FewerDistinct(r, Ids(announced), r1);
    FewerDistinct(r1, Ids(dead), r2);
    hide Conns, Spoken, Reaches;
    SpokenMore(n, Conns(r.clients), Conns(r1.clients), Aside(r1, all), [msg] + Farewells(announced), n1, Conns(r2.clients), last, n2);
    TransferEnds(r, n.closed, all, announced, host, r1, n1.closed, dead, newHost2, r2, n2.closed);
  }

  lemma TransferEnds(r: RoomState, closed: set<ConnId>, all: bool, announced: seq<u32>, host: u32, r1: RoomState, closed1: set<ConnId>,
                     dead: seq<u32>, newHost2: Option<u32>, r2: RoomState, closed2: set<ConnId>)
    requires DistinctConns(r) && Drops(r, closed, all, announced, Some(host), r1, closed1)
    requires Drops(r1, closed1, false, dead, newHost2, r2, closed2) && (r2.clients == map[] ==> newHost2 == None)
    ensures var t := PruneTrace(announced, Ids(dead), Some(host));
            && (if all then PrunesState(r, closed, t, r2, closed2) else Prunes(r, closed, t, r2, closed2))
            && r2.pending == r1.pending
  {
    var t := PruneTrace(announced, Ids(dead), Some(host));
    DropsMore(r, closed, all, announced, Some(host), r1, closed1, dead, newHost2, r2, closed2);
    assert Ids(announced + dead) == Ids(announced) + Ids(dead) == t.Gone();
    assert !all ==> r.pending - t.Gone() == r.pending;
  }

  // ---------- The contract of broadcast-and-prune ----------

  /** After its first message, `script` says `m` exactly once. */
  ghost predicate SaysOnce(script: seq<ServerMessage>, m: ServerMessage) {
    exists i :: 1 <= i < |script| && script[i] == m && forall j :: 1 <= j < |script| && script[j] == m ==> j == i
  }

  /** After its first message, `script` never says `m`. */
  ghost predicate SaysNever(script: seq<ServerMessage>, m: ServerMessage) {
    forall j :: 1 <= j < |script| ==> script[j] != m
  }

  lemma ScriptAt(msg: ServerMessage, t: PruneTrace, j: nat, p: u32)
    requires 1 <= j < |PruneScript(msg, t)|
    ensures PruneScript(msg, t)[j] == PeerLeft(p) <==> j <= |t.announced| && t.announced[j - 1] == p
  {
    assert |[msg] + Farewells(t.announced)| == 1 + |t.announced|;
  }

  lemma FarewellOnce(msg: ServerMessage, t: PruneTrace, p: u32)
    requires NoDup(t.announced)
    ensures p in t.announced ==> SaysOnce(PruneScript(msg, t), PeerLeft(p))
    ensures p !in t.announced ==> SaysNever(PruneScript(msg, t), PeerLeft(p))
  {
    var script := PruneScript(msg, t);
    assert |script| >= 1 + |t.announced|;
    hide PruneScript;
    if p in t.announced {
      var i :| 0 <= i < |t.announced| && t.announced[i] == p;
      ScriptAt(msg, t, i + 1, p);
      forall j | 1 <= j < |script| && script[j] == PeerLeft(p)
        ensures j == i + 1
      {
        ScriptAt(msg, t, j, p);
      }
    } else {
      forall j | 1 <= j < |script|
        ensures script[j] != PeerLeft(p)
      {
        ScriptAt(msg, t, j, p);
      }
    }
  }

  /** Who is gone, and who could not stay. */
  lemma PrunedAre(r: RoomState, n: NetState, msg: ServerMessage, all: bool, t: PruneTrace, r': RoomState, n': NetState)
    requires DistinctConns(r) && Finished(r, n, msg, all, t, r', n')
    ensures NoDup(t.announced) && r'.clients.Keys <= r.clients.Keys && r'.pending.Keys <= r.pending.Keys && (!all ==> r'.pending == r.pending)
    ensures forall p :: p in r.Members() && p !in r'.Members() ==> p in t.Gone() && r.Members()[p].conn in n'.closed
    ensures forall p :: p in Listeners(r, all) && Listeners(r, all)[p].conn in n.closed ==> p !in r'.Members()
    ensures forall p :: p in t.announced ==> p in r.Members() && p !in r'.Members()
  {
    hide Spoken, PruneScript, Succeeds;
    assert forall q :: q in r.clients ==> q !in r.pending && r.Members()[q] == r.clients[q];
    assert forall p :: p in t.announced ==> p in t.Gone();
  }

  lemma WaitersToldOnce(r: RoomState, n: NetState, msg: ServerMessage, t: PruneTrace, r': RoomState, n': NetState, p: u32)
    requires DistinctConns(r) && Finished(r, n, msg, true, t, r', n') && p in r'.pending
    ensures n'.Log(r'.pending[p].conn) == n.Log(r'.pending[p].conn) + [msg]
  {
    assert forall q :: q in r.clients ==> r.Members()[q] == r.clients[q];
    assert p in r.pending && r.Members()[p] == r.pending[p] == r'.pending[p];
    assert PruneScript(msg, t)[..1] == [msg];
    hide PruneScript, Succeeds, NoDup;
  }

  /**
   * Whatever closes meanwhile, only closed peers go, and a listener closed from the start does not
   * stay. Every client left is offered the whole script and, if its queue has the room, takes it all
   * in; a full queue costs messages, never the seat. If the closing broadcast found nobody else
   * dead, the script says exactly one PeerLeft for each peer that went, client or waiting, and for no
   * other, and names the leader at the end whenever the host went. Waiting peers are offered the
   * first message, when it is for them too, and nothing else.
   */
  lemma PruneContract(r: RoomState, n: NetState, msg: ServerMessage, all: bool, t: PruneTrace, r': RoomState, n': NetState)
    requires DistinctConns(r) && Finished(r, n, msg, all, t, r', n')
    ensures r'.clients.Keys <= r.clients.Keys && r'.pending.Keys <= r.pending.Keys && (!all ==> r'.pending == r.pending)
    ensures forall p :: p in r.Members() && p !in r'.Members() ==> r.Members()[p].conn in n'.closed
    ensures forall p :: p in Listeners(r, all) && Listeners(r, all)[p].conn in n.closed ==> p !in r'.Members()
    ensures forall p :: p in r'.clients ==> ToldAll(n, n', r'.clients[p].conn, PruneScript(msg, t))
    ensures all ==> forall p :: p in r'.pending ==> n'.Log(r'.pending[p].conn) == n.Log(r'.pending[p].conn) + [msg]
    ensures t.silent == {} ==> forall p :: p in r.Members() && p !in r'.Members() ==> SaysOnce(PruneScript(msg, t), PeerLeft(p))
    ensures forall p :: p in r'.Members() || p !in r.Members() ==> SaysNever(PruneScript(msg, t), PeerLeft(p))
    ensures t.silent == {} && r.host in r.clients && r.host !in r'.clients && r'.clients != map[] ==>
              r'.host in r'.clients && PruneScript(msg, t)[|PruneScript(msg, t)| - 1] == RoomEvent(HostTransferred(r'.host))
  {
    hide SaysOnce, SaysNever, ToldAll, NoDup, DistinctConns;
    PrunedAre(r, n, msg, all, t, r', n');
    if all {
      forall p | p in r'.pending
        ensures n'.Log(r'.pending[p].conn) == n.Log(r'.pending[p].conn) + [msg]
      {
        WaitersToldOnce(r, n, msg, t, r', n', p);
      }
    }
    var script := PruneScript(msg, t);
    assert t.transferred.Some? ==> script[|script| - 1] == RoomEvent(HostTransferred(t.transferred.value));
    hide PruneScript;
    forall p | t.silent == {} && p in r.Members() && p !in r'.Members()
      ensures SaysOnce(script, PeerLeft(p))
    {
      FarewellOnce(msg, t, p);
    }
    forall p | p in r'.Members() || p !in r.Members()
      ensures SaysNever(script, PeerLeft(p))
    {
      FarewellOnce(msg, t, p);
    }
  }
}
