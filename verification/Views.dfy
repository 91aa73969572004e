/** What a client believes after the messages it was sent: who it is, who leads, who came after it. */
module Views {
  import opened Types
  import RoomModel

  datatype View = View(peer: u32, host: u32, roster: set<u32>)

  const NOTHING: View := View(0, 0, {})

  /** A client's session fields after one message; the roster counts the peers announced to it. */
  function Hear(v: View, m: ServerMessage): View {
    match m
    case Joined(_, peer, host, _, _, _) => View(peer, host, {})
    case RoomEvent(HostTransferred(peer)) => v.(host := peer)
    case PeerJoined(peer, _, _) => if peer == v.peer then v else v.(roster := v.roster + {peer})
    case PeerLeft(peer) => v.(roster := v.roster - {peer})
    case _ => v
  }

  function HearAll(v: View, msgs: seq<ServerMessage>): View
    decreases |msgs|
  {
    if msgs == [] then v else HearAll(Hear(v, msgs[0]), msgs[1..])
  }

  function ViewOf(log: seq<ServerMessage>): View { HearAll(NOTHING, log) }

  predicate IsHost(v: View) { v.peer != 0 && v.peer == v.host }

  /** Messages that say nothing about membership or the lead. */
  predicate Chatter(m: ServerMessage) {
    !m.Joined? && !m.PeerJoined? && !m.PeerLeft? && !(m.RoomEvent? && m.event.HostTransferred?)
  }

  ghost predicate AllChatter(msgs: seq<ServerMessage>) { forall i :: 0 <= i < |msgs| ==> Chatter(msgs[i]) }

  lemma {:induction false} HearConcat(v: View, a: seq<ServerMessage>, b: seq<ServerMessage>)
    ensures HearAll(v, a + b) == HearAll(HearAll(v, a), b)
    decreases |a|
  {
    if a == [] {
      assert a + b == b;
    } else {
      assert (a + b)[1..] == a[1..] + b;
      HearConcat(Hear(v, a[0]), a[1..], b);
    }
  }

  lemma {:induction false} HearChatter(v: View, msgs: seq<ServerMessage>)
    requires AllChatter(msgs)
    ensures HearAll(v, msgs) == v
  {
    if msgs != [] {
      HearChatter(v, msgs[1..]);
    }
  }

  lemma {:induction false} HearFarewells(v: View, ids: seq<u32>)
    ensures HearAll(v, RoomModel.Farewells(ids)) == v.(roster := v.roster - set p | p in ids)
    decreases |ids|
  {
    if ids != [] {
      assert RoomModel.Farewells(ids)[1..] == RoomModel.Farewells(ids[1..]);
      HearFarewells(Hear(v, PeerLeft(ids[0])), ids[1..]);
      assert (set p | p in ids) == {ids[0]} + set p | p in ids[1..];
    }
  }

  /** The net effect of hearing a whole broadcast-and-prune. */
  lemma HearPrune(v: View, msg: ServerMessage, t: RoomModel.PruneTrace)
    ensures HearAll(v, RoomModel.PruneScript(msg, t)) ==
            View(Hear(v, msg).peer,
                 if t.transferred.Some? then t.transferred.value else Hear(v, msg).host,
                 Hear(v, msg).roster - set p | p in t.announced)
  {
    var v1 := Hear(v, msg);
    assert HearAll(v, [msg]) == HearAll(v1, [msg][1..]) == v1;
    HearConcat(v, [msg] + RoomModel.Farewells(t.announced), RoomModel.Succession(t.transferred));
    HearConcat(v, [msg], RoomModel.Farewells(t.announced));
    HearFarewells(v1, t.announced);
    var v2 := v1.(roster := v1.roster - set p | p in t.announced);
    if t.transferred.Some? {
      var s := RoomModel.Succession(t.transferred);
      assert HearAll(v2, s) == HearAll(Hear(v2, s[0]), s[1..]);
    }
  }
}
