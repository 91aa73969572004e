/**
 * From the server's log to a client's belief: messages encoded, framed, cut up anyhow by the
 * network, deframed and decoded leave the client with the view the run theorems speak about.
 */
module EndToEnd {
  import opened Types
  import opened Views
  import Messages
  import ClientDecoding
  import Framing
  import Bincode

  /** What one payload does to a client's view. */
  function HearPayload(v: View, payload: Bytes): View {
    match ClientDecoding.DecodeServer(payload)
    case Delivered(m, _) => Hear(v, m)
    case _ => v
  }

  function HearPayloads(v: View, payloads: seq<Bytes>): View
    decreases |payloads|
  {
    if payloads == [] then v else HearPayloads(HearPayload(v, payloads[0]), payloads[1..])
  }

  /** Messages the server can encode, with game-specific values from the grammar. */
  predicate Sendable(msgs: seq<ServerMessage>) {
    forall i :: 0 <= i < |msgs| ==> Messages.EncodeServer(msgs[i]).Some? && ClientDecoding.CustomsAreTrees(msgs[i])
  }

  function Payloads(msgs: seq<ServerMessage>): seq<Bytes> {
    seq(|msgs|, i requires 0 <= i < |msgs| => Messages.PutServer(msgs[i], []))
  }

  /** Skipping game-specific values costs the client nothing it goes by. */
  lemma HearSeen(v: View, m: ServerMessage)
    ensures Hear(v, ClientDecoding.Seen(m)) == Hear(v, m)
  {
  }

  lemma {:induction false} HearEncoded(v: View, msgs: seq<ServerMessage>)
    requires Sendable(msgs)
    ensures HearPayloads(v, Payloads(msgs)) == HearAll(v, msgs)
    decreases |msgs|
  {
    hide Messages.PutServer, ClientDecoding.CustomsAreTrees, ClientDecoding.DecodeServer, ClientDecoding.Seen, Hear;
    if msgs != [] {
      ClientDecoding.EncodedIsDelivered(msgs[0]);
      HearSeen(v, msgs[0]);
      assert Sendable(msgs[1..]);
      assert Payloads(msgs)[1..] == Payloads(msgs[1..]);
      HearEncoded(Hear(v, msgs[0]), msgs[1..]);
    }
  }

  /** However the stream of a log is cut, the client ends with exactly the view of that log. */
  lemma LogReachesView(msgs: seq<ServerMessage>, chunks: seq<Bytes>)
    requires Sendable(msgs) && Framing.Stream(chunks) == Framing.Frames(Payloads(msgs))
    ensures Framing.PollAll(Framing.FRESH, chunks) == (Framing.FRESH, Payloads(msgs))
    ensures HearPayloads(NOTHING, Framing.PollAll(Framing.FRESH, chunks).1) == ViewOf(msgs)
  {
    hide Framing.PollAll, Framing.Frames, Framing.Stream, HearPayloads;
    Framing.FramesArrive(Payloads(msgs), chunks);
    HearEncoded(NOTHING, msgs);
  }

  /** The session fields a client keeps, as its handlers set them. */
  class ClientSession {
    var peerId: u32
    var hostPeerId: u32

    ghost predicate Holds(v: View)
      reads this
    {
      peerId == v.peer && hostPeerId == v.host
    }

    constructor ()
      ensures Holds(NOTHING)
    {
      peerId, hostPeerId := 0, 0;
    }

    /** Decodes one payload and runs its handler. */
    method Receive(payload: Bytes, ghost v: View)
      requires Holds(v)
      modifies this
      ensures Holds(HearPayload(v, payload))
    {
      hide ClientDecoding.DecodeServer;
      var o := Bincode.DecodeAndDispatch(payload, 0, |payload|);
      assert payload[0..0 + |payload|] == payload;
      if o.Delivered? {
        match o.msg {
          case Joined(_, peer, host, _, _, _) =>
            peerId := peer;
            hostPeerId := host;
          case RoomEvent(HostTransferred(peer)) =>
            hostPeerId := peer;
          case _ =>
        }
      }
    }

    method ReceiveAll(payloads: seq<Bytes>, ghost v: View)
      requires Holds(v)
      modifies this
      ensures Holds(HearPayloads(v, payloads))
    {
      hide HearPayload;
      ghost var now := v;
      var i := 0;
      assert payloads[0..] == payloads;
      while i < |payloads|
        invariant 0 <= i <= |payloads| && Holds(now)
        invariant HearPayloads(now, payloads[i..]) == HearPayloads(v, payloads)
      {
        Receive(payloads[i], now);
        assert payloads[i..][1..] == payloads[i + 1..];
        now := HearPayload(now, payloads[i]);
        i := i + 1;
      }
    }

    method IsHost(ghost v: View) returns (b: bool)
      requires Holds(v)
      ensures b == Views.IsHost(v)
    {
      return peerId != 0 && peerId == hostPeerId;
    }
  }
}
