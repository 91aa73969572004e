/**
 * Frames on a byte stream: a 4-byte little-endian length, then the payload. The C# client removes
 * each frame from its buffer at once; the GML client moves a read offset and compacts now and then.
 */
module Framing {
  import opened Types
  import opened Wire

  // ---------- One frame ----------

  function FrameOf(payload: Bytes): Bytes { Little(|payload|, 4) + payload }

  datatype Peek = Incomplete | TooLarge | Frame(payload: Bytes, rest: Bytes)

  /** What stands at the head of a buffer. */
  function Head(buf: Bytes): (p: Peek)
    ensures p.Frame? ==> |p.rest| < |buf|
  {
    if |buf| < 4 then Incomplete
    else
      var len := FromLittle(buf[..4]);
      if len > MAX_FRAME_LEN then TooLarge
      else if |buf| < 4 + len then Incomplete
      else Frame(buf[4..4 + len], buf[4 + len..])
  }

  lemma HeadOfFrame(payload: Bytes, rest: Bytes)
    requires |payload| <= MAX_FRAME_LEN
    ensures Head(FrameOf(payload) + rest) == Frame(payload, rest)
  {
    Powers();
    LittleRoundTrip(|payload|, 4);
    hide Little, FromLittle, Pow256;
    var buf := FrameOf(payload) + rest;
    assert buf[..4] == Little(|payload|, 4);
    assert buf[4..4 + |payload|] == payload && buf[4 + |payload|..] == rest;
  }

  /** More bytes behind a decided head change nothing about it. */
  lemma HeadStable(buf: Bytes, more: Bytes)
    ensures Head(buf).TooLarge? ==> Head(buf + more).TooLarge?
    ensures Head(buf).Frame? ==> Head(buf + more) == Frame(Head(buf).payload, Head(buf).rest + more)
  {
    if |buf| >= 4 {
      assert (buf + more)[..4] == buf[..4];
    }
    hide FromLittle;
  }

  // ---------- All frames of a buffer ----------

  /** The payloads taken from a buffer, what is left of it, and whether the connection is given up. */
  datatype Drain = Drain(payloads: seq<Bytes>, rest: Bytes, closed: bool)

  function Deframe(buf: Bytes): Drain
    decreases |buf|
  {
    match Head(buf)
    case Incomplete => Drain([], buf, false)
    case TooLarge => Drain([], [], true)
    case Frame(p, rest) =>
      var d := Deframe(rest);
      d.(payloads := [p] + d.payloads)
  }

  lemma DeframeUnfolds(buf: Bytes)
    ensures match Head(buf)
            case Incomplete => Deframe(buf) == Drain([], buf, false)
            case TooLarge => Deframe(buf) == Drain([], [], true)
            case Frame(p, rest) => |rest| < |buf| && Deframe(buf) == Deframe(rest).(payloads := [p] + Deframe(rest).payloads)
  {
    assert Head(buf).Frame? ==> |Head(buf).rest| < |buf|;
    hide Head;
  }

  /** Draining early and again later is draining once. */
  lemma {:induction false} DeframeSplit(buf: Bytes, more: Bytes)
    ensures var first := Deframe(buf);
            Deframe(buf + more) ==
            if first.closed then first
            else var then' := Deframe(first.rest + more); then'.(payloads := first.payloads + then'.payloads)
    decreases |buf|
  {
    hide Head, Deframe;
    HeadStable(buf, more);
    DeframeUnfolds(buf);
    DeframeUnfolds(buf + more);
    match Head(buf) {
      case Incomplete =>
        var d := Deframe(buf + more);
        assert [] + d.payloads == d.payloads;
      case TooLarge =>
      case Frame(p, rest) =>
        DeframeSplit(rest, more);
        var first := Deframe(rest);
        if !first.closed {
          var d := Deframe(first.rest + more);
          assert [p] + (first.payloads + d.payloads) == ([p] + first.payloads) + d.payloads;
        }
    }
  }

  // ---------- A connection polled after every chunk ----------

  datatype Receiver = Receiver(buf: Bytes, connected: bool)

  /** Takes a chunk in and drains; nothing more once the connection is given up. */
  function Poll(r: Receiver, chunk: Bytes): (Receiver, seq<Bytes>) {
    if !r.connected then (r, [])
    else
      var d := Deframe(r.buf + chunk);
      (Receiver(d.rest, !d.closed), d.payloads)
  }

  function PollAll(r: Receiver, chunks: seq<Bytes>): (Receiver, seq<Bytes>)
    decreases |chunks|
  {
    if chunks == [] then (r, [])
    else
      var (r1, first) := Poll(r, chunks[0]);
      var (r2, later) := PollAll(r1, chunks[1..]);
      (r2, first + later)
  }

  function Stream(chunks: seq<Bytes>): Bytes {
    if chunks == [] then [] else chunks[0] + Stream(chunks[1..])
  }

  lemma {:induction false} PollClosed(r: Receiver, chunks: seq<Bytes>)
    requires !r.connected
    ensures PollAll(r, chunks) == (r, [])
  {
    if chunks != [] {
      PollClosed(r, chunks[1..]);
      var none: seq<Bytes> := [];
      assert none + none == none;
    }
  }

  /**
   * However a stream is cut into chunks, the same payloads come out and the same buffer is left as
   * when it arrives at once. (The buffer is drained: a poll left nothing complete in it.)
   */
  lemma {:induction false} ChunkingIrrelevant(r: Receiver, chunks: seq<Bytes>)
    requires Head(r.buf).Incomplete?
    ensures PollAll(r, chunks) == Poll(r, Stream(chunks))
    decreases |chunks|
  {
    if !r.connected {
      PollClosed(r, chunks);
    } else if chunks == [] {
      assert r.buf + [] == r.buf;
    } else {
      var (r1, first) := Poll(r, chunks[0]);
      var rest := Stream(chunks[1..]);
      DeframeSplit(r.buf + chunks[0], rest);
      assert (r.buf + chunks[0]) + rest == r.buf + Stream(chunks);
      if r1.connected {
        DrainedHead(r.buf + chunks[0]);
        ChunkingIrrelevant(r1, chunks[1..]);
      } else {
        PollClosed(r1, chunks[1..]);
        assert first + [] == first;
      }
    }
  }

  lemma {:induction false} DrainedHead(buf: Bytes)
    ensures Head(Deframe(buf).rest).Incomplete?
    decreases |buf|
  {
    if Head(buf).Frame? {
      DrainedHead(Head(buf).rest);
    }
  }

  function Frames(payloads: seq<Bytes>): Bytes {
    if payloads == [] then [] else FrameOf(payloads[0]) + Frames(payloads[1..])
  }

  lemma {:induction false} DeframeFrames(payloads: seq<Bytes>)
    requires forall i :: 0 <= i < |payloads| ==> |payloads[i]| <= MAX_FRAME_LEN
    ensures Deframe(Frames(payloads)) == Drain(payloads, [], false)
  {
    if payloads != [] {
      hide Head, FrameOf, Deframe;
      DeframeFirst(payloads[0], Frames(payloads[1..]));
      DeframeFrames(payloads[1..]);
      assert [payloads[0]] + payloads[1..] == payloads;
    } else {
      assert Head([]) == Incomplete;
    }
  }

  lemma DeframeFirst(payload: Bytes, rest: Bytes)
    requires |payload| <= MAX_FRAME_LEN
    ensures Deframe(FrameOf(payload) + rest) == Deframe(rest).(payloads := [payload] + Deframe(rest).payloads)
  {
    hide Head, FrameOf;
    HeadOfFrame(payload, rest);
  }

  const FRESH := Receiver([], true)

  /** Frames sent one after another arrive as exactly those payloads, however the stream is cut. */
  lemma FramesArrive(payloads: seq<Bytes>, chunks: seq<Bytes>)
    requires forall i :: 0 <= i < |payloads| ==> |payloads[i]| <= MAX_FRAME_LEN
    requires Stream(chunks) == Frames(payloads)
    ensures PollAll(FRESH, chunks) == (FRESH, payloads)
  {
    ChunkingIrrelevant(FRESH, chunks);
    DeframeFrames(payloads);
    assert [] + Stream(chunks) == Stream(chunks);
  }

  // ---------- The C# client ----------

  /** The frame `SendPayload` writes, or None for a payload that is too large. */
  method BuildFrame(payload: Bytes) returns (frame: Option<Bytes>)
    ensures frame == if |payload| > MAX_FRAME_LEN then None else Some(FrameOf(payload))
  {
    if |payload| > MAX_FRAME_LEN {
      return None;
    }
    var len := |payload|;
    var header := [len % 256, len / 0x100 % 256, len / 0x1_0000 % 256, len / 0x100_0000 % 256];
    LittleHeader(len);
    return Some(header + payload);
  }

  /** Four bytes as a number, lowest first. */
  function Header(a: nat, b: nat, c: nat, d: nat): nat { a + 0x100 * b + 0x1_0000 * c + 0x100_0000 * d }

  lemma HeaderValue(s: Bytes)
    requires |s| == 4
    ensures FromLittle(s) == Header(s[0], s[1], s[2], s[3])
  {
    assert FromLittle(s) == s[0] + 256 * FromLittle(s[1..]);
    assert FromLittle(s[1..]) == s[1] + 256 * FromLittle(s[1..][1..]);
    assert s[1..][1..] == s[2..] && s[2..][1..] == s[3..] && s[3..][1..] == [];
    assert FromLittle(s[2..]) == s[2] + 256 * FromLittle(s[3..]);
    assert FromLittle(s[3..]) == s[3] + 256 * FromLittle([]);
  }

  class RoomieClient {
    var recvBuf: Bytes
    var connected: bool
    /** Payloads handed to the decoder so far. */
    var dispatched: seq<Bytes>

    ghost function View(): Receiver
      reads this
    {
      Receiver(recvBuf, connected)
    }

    constructor ()
      ensures View() == FRESH && dispatched == []
    {
      recvBuf, connected, dispatched := [], true, [];
    }

    /** Takes one frame off the buffer if a whole one is there. */
    method TryProcessFrame() returns (more: bool)
      modifies this
      ensures more <==> Head(old(recvBuf)).Frame?
      ensures match Head(old(recvBuf))
              case Incomplete => View() == old(View()) && dispatched == old(dispatched)
              case TooLarge => View() == Receiver([], false) && dispatched == old(dispatched)
              case Frame(p, rest) => View() == old(View()).(buf := rest) && dispatched == old(dispatched) + [p]
    {
      hide FromLittle;
      if |recvBuf| < 4 {
        return false;
      }
      HeaderValue(recvBuf[..4]);
      var len := Header(recvBuf[0], recvBuf[1], recvBuf[2], recvBuf[3]);
      if len > MAX_FRAME_LEN {
        connected, recvBuf := false, [];
        return false;
      }
      if |recvBuf| < 4 + len {
        return false;
      }
      var payload := recvBuf[4..4 + len];
      recvBuf := recvBuf[4 + len..];
      dispatched := dispatched + [payload];
      return true;
    }

    /** Takes in what has arrived and processes every complete frame. */
    method PollChunk(chunk: Bytes)
      modifies this
      ensures View() == Poll(old(View()), chunk).0
      ensures dispatched == old(dispatched) + Poll(old(View()), chunk).1
    {
      hide Head, Deframe;
      if !connected {
        return;
      }
      recvBuf := recvBuf + chunk;
      ghost var whole, before := Deframe(recvBuf), dispatched;
      ghost var done: seq<Bytes> := [];
      assert done + whole.payloads == whole.payloads;
      var more := true;
      while more
        invariant dispatched == before + done
        invariant more ==> connected && Later(done, Deframe(recvBuf)) == whole
        invariant !more ==> whole == Drain(done, recvBuf, !connected)
        decreases |recvBuf|, more
      {
        ghost var now := Head(recvBuf);
        DeframeCases(done, recvBuf);
        more := TryProcessFrame();
        if more {
          done := done + [now.payload];
        }
      }
    }
  }

  /** One turn of the draining loop. */
  lemma DeframeCases(done: seq<Bytes>, buf: Bytes)
    ensures Head(buf).Incomplete? ==> Later(done, Deframe(buf)) == Drain(done, buf, false)
    ensures Head(buf).TooLarge? ==> Later(done, Deframe(buf)) == Drain(done, [], true)
    ensures Head(buf).Frame? ==>
              |Head(buf).rest| < |buf| && Later(done, Deframe(buf)) == Later(done + [Head(buf).payload], Deframe(Head(buf).rest))
  {
    hide Head;
    assert done + [] == done;
    if Head(buf).Frame? {
      var p, later := Head(buf).payload, Deframe(Head(buf).rest).payloads;
      assert done + ([p] + later) == (done + [p]) + later;
      HeadShorter(buf);
    }
  }

  lemma HeadShorter(buf: Bytes)
    requires Head(buf).Frame?
    ensures |Head(buf).rest| < |buf|
  {
  }

  ghost function Later(done: seq<Bytes>, d: Drain): Drain { d.(payloads := done + d.payloads) }

  // ---------- The GML client ----------

  const COMPACT_AT: nat := 2048

  class GmlClient {
    var recvBuf: Bytes
    var readPos: nat
    var dispatched: seq<Bytes>
    var errors: nat

    ghost predicate Valid()
      reads this
    {
      readPos <= |recvBuf|
    }

    /** What has arrived and not been consumed. */
    ghost function Unread(): Bytes
      requires Valid()
      reads this
    {
      recvBuf[readPos..]
    }

    constructor ()
      ensures Valid() && Unread() == [] && dispatched == [] && errors == 0
    {
      recvBuf, readPos, dispatched, errors := [], 0, [], 0;
    }

    method Append(chunk: Bytes)
      requires Valid()
      modifies this`recvBuf
      ensures Valid() && Unread() == old(Unread()) + chunk
    {
      recvBuf := recvBuf + chunk;
    }

    /** Drops the consumed bytes once there are enough of them; what is unread stays. */
    method Compact()
      requires Valid()
      modifies this`recvBuf, this`readPos
      ensures Valid() && Unread() == old(Unread())
      ensures readPos < COMPACT_AT && |recvBuf| <= old(|recvBuf|)
    {
      if readPos >= COMPACT_AT {
        recvBuf := recvBuf[readPos..];
        readPos := 0;
      }
    }

    /**
     * The buffer with a read offset behaves like one that loses each frame at once: the same
     * payloads, the same bytes unread. Only a frame that is too large is met differently: the rest
     * is discarded here too, but the connection stays.
     */
    method PollFrames()
      requires Valid()
      modifies this
      ensures Valid()
      ensures var d := Deframe(old(Unread()));
              && dispatched == old(dispatched) + d.payloads
              && Unread() == d.rest
              && errors == old(errors) + if d.closed then 1 else 0
      decreases |recvBuf| - readPos
    {
      hide Head;
      var total := |recvBuf|;
      var size := total - readPos;
      ghost var d := Unread();
      HeadIs(d);
      if size < 4 {
        assert dispatched == dispatched + [];
        return;
      }
      HeaderValue(d[..4]);
      var len := Header(recvBuf[readPos], recvBuf[readPos + 1], recvBuf[readPos + 2], recvBuf[readPos + 3]);
      assert len == FromLittle(d[..4]);
      if len > MAX_FRAME_LEN {
        readPos := total;
        errors := errors + 1;
        return;
      }
      if size < 4 + len {
        return;
      }
      var payload := recvBuf[readPos + 4..readPos + 4 + len];
      assert payload == d[4..4 + len];
      readPos := readPos + 4 + len;
      dispatched := dispatched + [payload];
      ghost var rest := Unread();
      assert rest == d[4 + len..];
      Compact();
      PollFrames();
      assert old(dispatched) + ([payload] + Deframe(rest).payloads) == old(dispatched) + [payload] + Deframe(rest).payloads;
    }
  }

  lemma HeadIs(d: Bytes)
    ensures |d| < 4 ==> Head(d) == Incomplete
    ensures |d| >= 4 ==> var len := FromLittle(d[..4]);
              Head(d) == if len > MAX_FRAME_LEN then TooLarge else if |d| < 4 + len then Incomplete else Frame(d[4..4 + len], d[4 + len..])
  {
  }

  /**
   * Both clients, fed the same stream of frames in the same chunks, hand on exactly those frames'
   * payloads and are left with nothing unread.
   */
  method FeedBoth(cs: RoomieClient, gml: GmlClient, chunks: seq<Bytes>, ghost payloads: seq<Bytes>)
    requires forall i :: 0 <= i < |payloads| ==> |payloads[i]| <= MAX_FRAME_LEN
    requires Stream(chunks) == Frames(payloads)
    requires gml.Valid() && cs.View() == FRESH && gml.Unread() == [] && cs.dispatched == gml.dispatched == []
    modifies cs, gml
    ensures gml.Valid() && cs.View() == FRESH && gml.Unread() == []
    ensures cs.dispatched == gml.dispatched == payloads && gml.errors == old(gml.errors)
  {
    hide Deframe, Frames, Head, Stream, PollAll;
    FramesArrive(payloads, chunks);
    var i := 0;
    assert chunks[0..] == chunks && [] + payloads == payloads;
    while i < |chunks|
      invariant 0 <= i <= |chunks| && gml.Valid() && cs.recvBuf == gml.Unread()
      invariant cs.dispatched == gml.dispatched && gml.errors == old(gml.errors)
      invariant Delivers(cs.View(), chunks[i..], cs.dispatched, payloads)
    {
      DeliversNext(cs.View(), chunks[i..], cs.dispatched, payloads);
      assert chunks[i..][1..] == chunks[i + 1..];
      cs.PollChunk(chunks[i]);
      gml.Append(chunks[i]);
      gml.PollFrames();
      i := i + 1;
    }
    DeliversAll(cs.View(), chunks[i..], cs.dispatched, payloads);
  }

  /** What is dispatched and what the remaining chunks will bring is all of `payloads`, and nothing is left then. */
  ghost predicate Delivers(r: Receiver, chunks: seq<Bytes>, done: seq<Bytes>, payloads: seq<Bytes>) {
    PollAll(r, chunks).0 == FRESH && done + PollAll(r, chunks).1 == payloads
  }

  lemma DeliversNext(r: Receiver, chunks: seq<Bytes>, done: seq<Bytes>, payloads: seq<Bytes>)
    requires chunks != [] && Delivers(r, chunks, done, payloads)
    ensures r.connected && Poll(r, chunks[0]).0.connected
    ensures Delivers(Poll(r, chunks[0]).0, chunks[1..], done + Poll(r, chunks[0]).1, payloads)
  {
    var (r1, news) := Poll(r, chunks[0]);
    StaysConnected(r, chunks);
    StaysConnected(r1, chunks[1..]);
    hide Poll;
    var later := PollAll(r1, chunks[1..]).1;
    assert done + (news + later) == (done + news) + later;
  }

  lemma DeliversAll(r: Receiver, chunks: seq<Bytes>, done: seq<Bytes>, payloads: seq<Bytes>)
    requires chunks == [] && Delivers(r, chunks, done, payloads)
    ensures r == FRESH && done == payloads
  {
    assert done + [] == done;
  }

  lemma StaysConnected(r: Receiver, chunks: seq<Bytes>)
    requires PollAll(r, chunks).0 == FRESH
    ensures r.connected
  {
    if !r.connected {
      PollClosed(r, chunks);
    }
  }
}
