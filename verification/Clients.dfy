/**
 * What a client ends up with, after the queue, the encoding, the framing and the network: the run
 * theorems carried all the way to the receiving side.
 */
module Clients {
  import opened Types
  import opened RoomModel
  import opened ServerModel
  import opened Runs
  import opened Networking
  import Histories
  import Views
  import Agreement
  import Leadership
  import Authority
  import Traffic
  import Messages
  import ClientDecoding
  import Framing
  import EndToEnd

  /** The whole log of a channel reached its client, cut into `chunks` somehow. */
  ghost predicate Arrived(n: NetState, c: ConnId, chunks: seq<Bytes>) {
    && |n.Taken(c)| == |n.Log(c)|
    && (forall i :: 0 <= i < |n.Taken(c)| ==> Messages.EncodeServer(n.Taken(c)[i]).Some?)
    && Framing.Stream(chunks) == Framing.Frames(EndToEnd.Payloads(n.Taken(c)))
  }

  /** The view a client has after decoding a stream. */
  function Believes(chunks: seq<Bytes>): Views.View {
    EndToEnd.HearPayloads(Views.NOTHING, Framing.PollAll(Framing.FRESH, chunks).1)
  }

  /** What arrives is what was sent: the client believes what its log says. */
  lemma ArrivedIsSent(cfg: Config, run: seq<Sys>, steps: seq<Step>, i: nat, n: NetState, c: ConnId, chunks: seq<Bytes>)
    requires IsRun(cfg, run, steps) && Traffic.AllDecodable(steps) && i < |run|
    requires NetOk(n) && n.sent == run[i].w.sent && Arrived(n, c, chunks)
    ensures Believes(chunks) == Views.ViewOf(run[i].w.Log(c))
  {
    Traffic.RunCustomless(cfg, run, steps, i);
    hide IsRun, Traffic.AllDecodable, NetOk, EndToEnd.HearPayloads, Framing.PollAll, Messages.EncodeServer, Traffic.Customless, ClientDecoding.CustomsAreTrees;
    NothingDropped(n, c);
    var log := n.Taken(c);
    assert log == run[i].w.Log(c);
    assert Traffic.AllCustomless(log);
    forall j | 0 <= j < |log|
      ensures ClientDecoding.CustomsAreTrees(log[j])
    {
      Traffic.CustomlessTrees(log[j]);
    }
    EndToEnd.LogReachesView(log, chunks);
  }

  /** Whatever a run of decodable messages sends and can encode, the client handles as it was sent, to the last byte. */
  lemma SentIsDelivered(cfg: Config, run: seq<Sys>, steps: seq<Step>, i: nat, c: ConnId, m: ServerMessage)
    requires IsRun(cfg, run, steps) && Traffic.AllDecodable(steps) && i < |run|
    requires m in run[i].w.Log(c) && Messages.EncodeServer(m).Some?
    ensures ClientDecoding.DecodeServer(Messages.EncodeServer(m).value) == ClientDecoding.Delivered(m, [])
  {
    hide IsRun, Traffic.AllDecodable, Messages.EncodeServer, ClientDecoding.DecodeServer, ClientDecoding.CustomsAreTrees;
    Traffic.RunCustomless(cfg, run, steps, i);
    assert Traffic.AllCustomless(run[i].w.Log(c));
    Traffic.CustomlessTrees(m);
    ClientDecoding.EncodedIsDelivered(m);
    Traffic.CustomlessSeen(m);
  }

  /**
   * On a calm run in which nobody has to wait, an open client that received its whole log knows its
   * id and its host, takes itself for the host exactly if it is, and lists exactly the clients that
   * came after it.
   */
  lemma ClientKnowsItsRoom(cfg: Config, run: seq<Sys>, steps: seq<Step>, i: nat, key: Key, p: u32, n: NetState, chunks: seq<Bytes>)
    requires IsRun(cfg, run, steps) && Agreement.CalmRun(run, steps) && Traffic.AllDecodable(steps) && i < |run|
    requires forall j :: 0 <= j < i ==> !Leadership.Gates(steps[j])
    requires key in run[i].w.rooms && p in run[i].w.rooms[key].clients && key in run[i].h.rooms
    requires Agreement.Open(run[i].w, run[i].w.rooms[key].clients[p])
    requires NetOk(n) && n.sent == run[i].w.sent && Arrived(n, run[i].w.rooms[key].clients[p].conn, chunks)
    ensures var r, v := run[i].w.rooms[key], Believes(chunks);
            && v.peer == p && v.host == r.host && (Views.IsHost(v) <==> p == r.host)
            && v.roster == Agreement.After(run[i].h.rooms[key].order, p)
  {
    hide IsRun, Agreement.CalmRun, Traffic.AllDecodable, Leadership.Gates, NetOk, Arrived, Believes, Views.IsHost;
    ArrivedIsSent(cfg, run, steps, i, n, run[i].w.rooms[key].clients[p].conn, chunks);
    Leadership.OneLeader(cfg, run, steps, i, key, p);
    Agreement.RosterAgreement(cfg, run, steps, i, key, p);
  }

  /**
   * Full queues may drop messages: what a session's queue took in since it joined still shows the
   * accepted moves in order, never an earlier one after a later.
   */
  lemma TakenReads(cfg: Config, run: seq<Sys>, steps: seq<Step>, i: nat, c: ConnId, n: NetState) returns (k: nat)
    requires IsRun(cfg, run, steps) && i < |run| && c in run[i].h.attached && c !in run[i].w.closed
    requires NetOk(n) && n.sent == run[i].w.sent
    ensures k <= |n.Taken(c)| && Histories.Subsequence(n.Taken(c)[k..], Histories.SinceJoined(n.Log(c)))
    ensures HasRoom(run[i].w, c) && run[i].w.sessions[c].key in run[i].h.rooms
    ensures Histories.Forward(Histories.States(n.Taken(c)[k..]), run[i].h.rooms[run[i].w.sessions[c].key].moves)
  {
    hide IsRun, NetOk, Histories.Subsequence, Histories.Forward, Histories.States, Histories.SinceJoined, Authority.StateLatest;
    k := TakenSinceJoined(n, c);
    var got := n.Taken(c)[k..];
    assert n.Log(c) == run[i].w.Log(c);
    Authority.MonotoneReads(cfg, run, steps, i, c, got);
  }

  /** Where in what was taken in the last Joined falls. */
  lemma TakenSinceJoined(n: NetState, c: ConnId) returns (k: nat)
    requires NetOk(n)
    ensures k <= |n.Taken(c)| && Histories.Subsequence(n.Taken(c)[k..], Histories.SinceJoined(n.Log(c)))
  {
    hide NetOk, Histories.Subsequence, Histories.SinceJoined;
    TakenFromSent(n, c);
    var taken, log := n.Taken(c), n.Log(c);
    var before := Histories.SinceIsSuffix(log);
    k := Histories.SubsequenceSplit(taken, before, Histories.SinceJoined(log));
  }

  lemma TakenFromSent(n: NetState, c: ConnId)
    requires NetOk(n)
    ensures Histories.Subsequence(n.Taken(c), n.Log(c))
  {
    assert ChannelOk(n.Queue(c), n.Log(c), n.Taken(c));
  }
}
