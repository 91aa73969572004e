/**
 * Outgoing channels: one bounded queue per connection, filled without blocking. A full queue drops
 * the message and keeps the connection; only a closed channel is reported dead. Between any two
 * sends other tasks run, so channels may close and writers may drain their queues.
 */
module Networking {
  import opened Types
  import opened RoomModel
  import Histories

  const CHANNEL_CAPACITY: nat := 256

  datatype SendResult = Sent | Full | Closed

  /** The channels as a value: closed ones, waiting messages, what was offered and what was taken in. */
  datatype NetState = NetState(
    closed: set<ConnId>,
    queue: map<ConnId, seq<ServerMessage>>,
    sent: map<ConnId, seq<ServerMessage>>,
    taken: map<ConnId, seq<ServerMessage>>)
  {
    function Queue(c: ConnId): seq<ServerMessage> { if c in queue then queue[c] else [] }
    function Log(c: ConnId): seq<ServerMessage> { if c in sent then sent[c] else [] }
    function Taken(c: ConnId): seq<ServerMessage> { if c in taken then taken[c] else [] }
  }

  ghost predicate Ends(q: seq<ServerMessage>, t: seq<ServerMessage>) {
    |q| <= |t| && t[|t| - |q|..] == q
  }

  /**
   * A queue keeps to its capacity and holds the last messages taken in, and what was taken in is
   * what was offered minus what found the queue full.
   */
  ghost predicate ChannelOk(q: seq<ServerMessage>, sent: seq<ServerMessage>, taken: seq<ServerMessage>) {
    |q| <= CHANNEL_CAPACITY && Ends(q, taken) && Histories.Subsequence(taken, sent)
  }

  ghost predicate NetOk(n: NetState) {
    forall c: ConnId :: ChannelOk(n.Queue(c), n.Log(c), n.Taken(c))
  }

  /** `n'` after other tasks ran: more may be closed and less may be waiting. */
  ghost predicate Meanwhile(n: NetState, n': NetState) {
    && n.closed <= n'.closed && n'.sent == n.sent && n'.taken == n.taken
    && forall c: ConnId :: Ends(n'.Queue(c), n.Queue(c))
  }

  lemma {:induction false} SubsequenceSnoc(a: seq<ServerMessage>, b: seq<ServerMessage>, m: ServerMessage)
    requires Histories.Subsequence(a, b)
    ensures Histories.Subsequence(a, b + [m]) && Histories.Subsequence(a + [m], b + [m])
    decreases |b|
  {
    if b == [] {
      assert a + [m] == [m] && b + [m] == [m];
      assert [m][1..] == [];
    } else {
      assert (b + [m])[1..] == b[1..] + [m];
      if a == [] {
        SubsequenceSnoc(a, b[1..], m);
      } else {
        assert (a + [m])[1..] == a[1..] + [m];
        if a[0] == b[0] && Histories.Subsequence(a[1..], b[1..]) {
          SubsequenceSnoc(a[1..], b[1..], m);
        } else {
          SubsequenceSnoc(a, b[1..], m);
        }
      }
    }
  }

  lemma EndsTransitive(q': seq<ServerMessage>, q: seq<ServerMessage>, t: seq<ServerMessage>)
    requires Ends(q', q) && Ends(q, t)
    ensures Ends(q', t)
  {
    assert t[|t| - |q'|..] == t[|t| - |q|..][|q| - |q'|..];
  }

  lemma EndsAppend(q: seq<ServerMessage>, t: seq<ServerMessage>, m: ServerMessage)
    requires Ends(q, t)
    ensures Ends(q + [m], t + [m])
  {
    assert (t + [m])[|t| - |q|..] == t[|t| - |q|..] + [m];
  }

  lemma LaterOk(q': seq<ServerMessage>, q: seq<ServerMessage>, sent: seq<ServerMessage>, taken: seq<ServerMessage>)
    requires ChannelOk(q, sent, taken) && Ends(q', q)
    ensures ChannelOk(q', sent, taken)
  {
    hide Histories.Subsequence;
    EndsTransitive(q', q, taken);
  }

  lemma MeanwhileOk(n: NetState, n': NetState)
    requires NetOk(n) && Meanwhile(n, n')
    ensures NetOk(n')
  {
    hide ChannelOk, Ends;
    forall c: ConnId
      ensures ChannelOk(n'.Queue(c), n'.Log(c), n'.Taken(c))
    {
      assert n'.Log(c) == n.Log(c) && n'.Taken(c) == n.Taken(c);
      LaterOk(n'.Queue(c), n.Queue(c), n.Log(c), n.Taken(c));
    }
  }

  /** An open channel with room takes the message in; a full one drops it. */
  lemma OfferOk(n: NetState, c: ConnId, m: ServerMessage, n': NetState)
    requires NetOk(n)
    requires n'.sent == n.sent[c := n.Log(c) + [m]]
    requires if |n.Queue(c)| < CHANNEL_CAPACITY
             then n'.queue == n.queue[c := n.Queue(c) + [m]] && n'.taken == n.taken[c := n.Taken(c) + [m]]
             else n'.queue == n.queue && n'.taken == n.taken
    ensures NetOk(n')
  {
    forall d: ConnId
      ensures ChannelOk(n'.Queue(d), n'.Log(d), n'.Taken(d))
    {
      assert ChannelOk(n.Queue(d), n.Log(d), n.Taken(d));
      if d == c {
        SubsequenceSnoc(n.Taken(c), n.Log(c), m);
        EndsAppend(n.Queue(c), n.Taken(c), m);
      }
    }
  }

  lemma {:induction false} SubsequenceShorter(a: seq<ServerMessage>, b: seq<ServerMessage>)
    requires Histories.Subsequence(a, b)
    ensures |a| <= |b| && (|a| == |b| ==> a == b)
    decreases |b|
  {
    if a != [] {
      if a[0] == b[0] && Histories.Subsequence(a[1..], b[1..]) {
        SubsequenceShorter(a[1..], b[1..]);
        assert a == [a[0]] + a[1..] && b == [b[0]] + b[1..];
      } else {
        SubsequenceShorter(a, b[1..]);
      }
    }
  }

  /** A channel that dropped nothing took in exactly what it was offered, and once drained the client has it all. */
  lemma NothingDropped(n: NetState, c: ConnId)
    requires NetOk(n)
    ensures |n.Taken(c)| <= |n.Log(c)|
    ensures |n.Taken(c)| == |n.Log(c)| <==> n.Taken(c) == n.Log(c)
  {
    assert ChannelOk(n.Queue(c), n.Log(c), n.Taken(c));
    SubsequenceShorter(n.Taken(c), n.Log(c));
  }

  class Network {
    var closed: set<ConnId>
    var queue: map<ConnId, seq<ServerMessage>>
    ghost var sent: map<ConnId, seq<ServerMessage>>
    ghost var taken: map<ConnId, seq<ServerMessage>>

    ghost function View(): NetState
      reads this
    {
      NetState(closed, queue, sent, taken)
    }

    constructor ()
      ensures View() == NetState({}, map[], map[], map[]) && NetOk(View())
    {
      closed, queue := {}, map[];
      sent, taken := map[], map[];
    }

    /** Other tasks run: some channels close, some queues drain. */
    method Interfere()
      requires NetOk(View())
      modifies this
      ensures NetOk(View()) && Meanwhile(old(View()), View())
    {
      hide NetOk, Meanwhile;
      var closing: set<ConnId> := *;
      var drained: map<ConnId, nat> := *;
      ghost var before := View();
      closed := closed + closing;
      queue := Drained(queue, drained);
      DrainedEnds(before, drained, View());
      MeanwhileOk(before, View());
    }

    /** `try_send`: never blocks, drops the message when the queue is full, fails when the channel is closed. */
    method TrySend(c: ConnId, m: ServerMessage) returns (r: SendResult)
      requires NetOk(View())
      modifies this
      ensures NetOk(View()) && old(closed) <= closed
      ensures r == Closed <==> c in closed
      ensures r == Full ==> |old(View()).Queue(c)| == CHANNEL_CAPACITY
      ensures sent == if r == Closed then old(sent) else old(sent)[c := old(View()).Log(c) + [m]]
      ensures taken == if r == Sent then old(taken)[c := old(View()).Taken(c) + [m]] else old(taken)
      ensures forall d: ConnId :: |View().Queue(d)| <= |old(View()).Queue(d)| + if d == c && r == Sent then 1 else 0
    {
      hide NetOk, ChannelOk;
      Interfere();
      assert forall d: ConnId :: |View().Queue(d)| <= |old(View()).Queue(d)|;
      if c in closed {
        return Closed;
      }
      ghost var before := View();
      var waiting := if c in queue then queue[c] else [];
      sent := sent[c := before.Log(c) + [m]];
      if |waiting| >= CHANNEL_CAPACITY {
        OfferOk(before, c, m, View());
        Bounded(old(View()), c);
        return Full;
      }
      queue := queue[c := waiting + [m]];
      taken := taken[c := before.Taken(c) + [m]];
      OfferOk(before, c, m, View());
      return Sent;
    }
  }

  lemma Bounded(n: NetState, c: ConnId)
    requires NetOk(n)
    ensures |n.Queue(c)| <= CHANNEL_CAPACITY
  {
    assert ChannelOk(n.Queue(c), n.Log(c), n.Taken(c));
  }

  /** The rest of a queue after `n` messages were written out, or all of it if it was shorter. */
  function Drop(q: seq<ServerMessage>, n: nat): (rest: seq<ServerMessage>)
    ensures Ends(rest, q)
  {
    if n <= |q| then q[n..] else q
  }

  function Drained(queue: map<ConnId, seq<ServerMessage>>, drained: map<ConnId, nat>): map<ConnId, seq<ServerMessage>> {
    map c | c in queue :: Drop(queue[c], if c in drained then drained[c] else 0)
  }

  lemma DrainedEnds(n: NetState, drained: map<ConnId, nat>, n': NetState)
    requires n.closed <= n'.closed && n'.queue == Drained(n.queue, drained) && n'.sent == n.sent && n'.taken == n.taken
    ensures Meanwhile(n, n')
  {
    forall c: ConnId
      ensures Ends(n'.Queue(c), n.Queue(c))
    {
    }
  }
}
