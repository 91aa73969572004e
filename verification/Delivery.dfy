/** What the channels were handed, as outboxes: how single sends, broadcasts and prunes add up. */
module Delivery {
  import opened Types
  import opened RoomModel
  import ServerModel
  import opened Networking
  import Pruning
  import RoomObjects

  /** Everything in `out` was offered, to whoever was open. */
  ghost predicate Exchanged(n: NetState, n': NetState, out: Outbox) {
    && n.closed <= n'.closed
    && forall c: ConnId :: ServerModel.Offered(c in n.closed, c in n'.closed, n.Log(c), n'.Log(c), Out(out, c))
  }

  lemma NothingSaid(n: NetState, out: Outbox)
    requires forall c :: c in out ==> out[c] == []
    ensures Exchanged(n, n, out)
  {
    assert forall c: ConnId :: Out(out, c) == [];
  }

  lemma OneSend(n: NetState, c: ConnId, m: ServerMessage, n': NetState)
    requires n.closed <= n'.closed
    requires n'.sent == if c in n'.closed then n.sent else n.sent[c := n.Log(c) + [m]]
    ensures Exchanged(n, n', map[c := [m]])
  {
  }

  lemma OfferedTwice(c0: bool, c1: bool, c2: bool, l0: seq<ServerMessage>, l1: seq<ServerMessage>, l2: seq<ServerMessage>,
                     s1: seq<ServerMessage>, s2: seq<ServerMessage>, s: seq<ServerMessage>)
    requires c0 ==> c1
    requires c1 ==> c2
    requires ServerModel.Offered(c0, c1, l0, l1, s1) && ServerModel.Offered(c1, c2, l1, l2, s2)
    requires s == s1 + s2 || (c1 && s1 <= s)
    ensures ServerModel.Offered(c0, c2, l0, l2, s)
  {
    assert l0 + (s1 + s2) == (l0 + s1) + s2;
    assert l0 + s1 <= l0 + s;
  }

  /** Outboxes follow one another; a channel closed after the first may be owed anything by the second. */
  lemma ThenSaid(n: NetState, n1: NetState, n2: NetState, out1: Outbox, out2: Outbox, out: Outbox)
    requires Exchanged(n, n1, out1) && Exchanged(n1, n2, out2)
    requires forall c: ConnId :: Out(out, c) == Out(out1, c) + Out(out2, c) || (c in n1.closed && Out(out1, c) <= Out(out, c))
    ensures Exchanged(n, n2, out)
  {
    hide ServerModel.Offered;
    forall c: ConnId
      ensures ServerModel.Offered(c in n.closed, c in n2.closed, n.Log(c), n2.Log(c), Out(out, c))
    {
      OfferedTwice(c in n.closed, c in n1.closed, c in n2.closed, n.Log(c), n1.Log(c), n2.Log(c), Out(out1, c), Out(out2, c), Out(out, c));
    }
  }

  /** A sweep that ignores the dead is a plain broadcast. */
  lemma SweptExchange(n: NetState, m: map<u32, ClientInfo>, msg: ServerMessage, dead: seq<u32>, n': NetState)
    requires RoomObjects.Swept(n, m, msg, {}, dead, n')
    ensures Exchanged(n, n', Broadcast(m, [msg]))
  {
    var who := Conns(m - {} - Ids(dead));
    assert forall p :: p in m && p !in Ids(dead) ==> p in m - {} - Ids(dead) && (m - {} - Ids(dead))[p] == m[p];
    assert forall p :: p in m - {} - Ids(dead) ==> p in m && (m - {} - Ids(dead))[p] == m[p];
    forall c: ConnId
      ensures ServerModel.Offered(c in n.closed, c in n'.closed, n.Log(c), n'.Log(c), Out(Broadcast(m, [msg]), c))
    {
      if c in who {
        assert Pruning.ToldAll(n, n', c, [msg]);
      }
    }
  }

  /** Only closed clients are gone, so whoever is open still is a client. */
  lemma OpenStay(m: map<u32, ClientInfo>, gone: set<u32>, closed: set<ConnId>, c: ConnId)
    requires forall p :: p in gone && p in m ==> m[p].conn in closed
    requires c in Conns(m) && c !in closed
    ensures c in Conns(m - gone)
  {
    var p :| p in m && m[p].conn == c;
    assert p in m - gone && (m - gone)[p] == m[p];
  }

  lemma PruneExchange(r: RoomState, n: NetState, msg: ServerMessage, t: PruneTrace, r': RoomState, n': NetState)
    requires Pruning.Finished(r, n, msg, false, t, r', n')
    ensures Exchanged(n, n', Broadcast(r.clients, PruneScript(msg, t)))
  {
    hide NoDup, Succeeds, PruneScript;
    var out := Broadcast(r.clients, PruneScript(msg, t));
    forall c: ConnId
      ensures ServerModel.Offered(c in n.closed, c in n'.closed, n.Log(c), n'.Log(c), Out(out, c))
    {
      if c in Conns(r.clients) && c !in n'.closed {
        OpenStay(r.clients, t.Gone(), n'.closed, c);
        assert Pruning.ToldAll(n, n', c, PruneScript(msg, t));
      }
    }
  }

  lemma StateExchange(r: RoomState, n: NetState, t: PruneTrace, r': RoomState, n': NetState)
    requires DistinctConns(r) && Pruning.Finished(r, n, StateUpdate(r.state), true, t, r', n')
    ensures Exchanged(n, n', StateOutbox(r, t))
  {
    var script := PruneScript(StateUpdate(r.state), t);
    assert script[..1] == [StateUpdate(r.state)];
    hide PruneScript, ServerModel.Offered, Pruning.Spoken;
    forall c: ConnId
      ensures ServerModel.Offered(c in n.closed, c in n'.closed, n.Log(c), n'.Log(c), Out(StateOutbox(r, t), c))
    {
      StateOffered(r, n, t, r', n', script, c);
    }
    assert n.closed <= n'.closed;
  }

  lemma StateOffered(r: RoomState, n: NetState, t: PruneTrace, r': RoomState, n': NetState, script: seq<ServerMessage>, c: ConnId)
    requires DistinctConns(r) && PrunesState(r, n.closed, t, r', n'.closed)
    requires Pruning.Spoken(n, Conns(r.clients), Conns(r'.clients), Pruning.Aside(r', true), script, n')
    ensures var heard := if c in Conns(r.clients) then script else if c in Conns(r.pending) then script[..1] else [];
            ServerModel.Offered(c in n.closed, c in n'.closed, n.Log(c), n'.Log(c), heard)
  {
    hide NoDup, Succeeds;
    assert forall p :: p in r.clients ==> r.Members()[p] == r.clients[p];
    assert forall p :: p in r.pending ==> r.Members()[p] == r.pending[p];
    hide DistinctConns;
    assert Conns(r'.pending) <= Conns(r.pending);
    if c in Conns(r.clients) {
      if c !in n'.closed {
        OpenStay(r.clients, t.Gone(), n'.closed, c);
        assert Pruning.ToldAll(n, n', c, script);
      }
    } else if c in Conns(r.pending) && c !in n'.closed {
      OpenStay(r.pending, t.Gone(), n'.closed, c);
    }
  }

  /** A prune that starts later, when more is closed, does all that was due before. */
  lemma PrunesFromEarlier(r: RoomState, before: set<ConnId>, closed: set<ConnId>, t: PruneTrace, r': RoomState, closed': set<ConnId>)
    requires Prunes(r, closed, t, r', closed') && before <= closed
    ensures Prunes(r, before, t, r', closed')
  {
  }

  /** The two prunes of a departure, as one script for the clients that were there. */
  lemma LeaveExchange(r: RoomState, id: u32, lt: LeaveTrace, n: NetState, n1: NetState, r': RoomState, n2: NetState)
    requires Pruning.Finished(Without(r, id), n, PeerLeft(id), false, lt.first, lt.mid, n1) && lt.elected.Some?
    requires Pruning.Finished(lt.mid.(host := lt.elected.value), n1, RoomEvent(HostTransferred(lt.elected.value)), false, lt.second, r', n2)
    ensures Exchanged(n, n2, Broadcast(Without(r, id).clients, LeaveScript(id, lt)))
  {
    var msg := RoomEvent(HostTransferred(lt.elected.value));
    var clients := Without(r, id).clients;
    PruneExchange(Without(r, id), n, PeerLeft(id), lt.first, lt.mid, n1);
    PruneExchange(lt.mid.(host := lt.elected.value), n1, msg, lt.second, r', n2);
    var out1, out2 := Broadcast(clients, PruneScript(PeerLeft(id), lt.first)), Broadcast(lt.mid.clients, PruneScript(msg, lt.second));
    var out := Broadcast(clients, LeaveScript(id, lt));
    assert LeaveScript(id, lt) == PruneScript(PeerLeft(id), lt.first) + PruneScript(msg, lt.second);
    assert Prunes(Without(r, id), n.closed, lt.first, lt.mid, n1.closed);
    assert lt.mid.clients == clients - lt.first.Gone();
    hide Pruning.Spoken, PruneScript, LeaveScript, Succeeds, NoDup, Exchanged;
    forall c: ConnId
      ensures Out(out, c) == Out(out1, c) + Out(out2, c) || (c in n1.closed && Out(out1, c) <= Out(out, c))
    {
      if c in Conns(clients) && c !in n1.closed {
        OpenStay(clients, lt.first.Gone(), n1.closed, c);
      }
      assert Conns(lt.mid.clients) <= Conns(clients);
    }
    ThenSaid(n, n1, n2, out1, out2, out);
  }
}
