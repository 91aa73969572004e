/**
 * Which messages may reach whom, and what they mean when they do: no message carries a password, an
 * input reported to a host was sent by the player named, and a Joined tells its receiver its own seat.
 */
module Vocabulary {
  import opened Types
  import opened RoomModel
  import opened ServerModel
  import opened Ownership
  import opened Runs
  import Steps
  import Ids

  // ---------- One step ----------

  /** The step is an input from the session with id `q`, whose room's host listens on `c`. */
  predicate Relays(w: World, step: Step, c: ConnId, q: u32, blob: Bytes) {
    && step.Message? && step.msg == ClientMessage.Input(blob) && HasRoom(w, step.conn) && w.sessions[step.conn].peer == q
    && var r := w.rooms[w.sessions[step.conn].key];
       r.host in r.clients && r.host != q && r.clients[r.host].conn == c
  }

  /** The step admits `c` under this id and side, by a code of the room's. */
  predicate Seats(step: Step, c: ConnId, code: Bytes, id: u32, side: byte) {
    && step.Message? && step.msg.Hello? && step.trace.Admission? && step.conn == c
    && step.trace.a.id == Some(id) && step.trace.a.side == side && Fold(code) == KeyOf(step.msg.hello, step.trace.a).code
  }

  predicate Passwordless(m: ServerMessage) {
    match m
    case Joined(_, _, _, _, s, _) => s.password == None
    case RoomList(rooms) => forall i :: 0 <= i < |rooms| ==> rooms[i].settings.password == None
    case RoomEvent(SettingsChanged(s)) => s.password == None
    case _ => true
  }

  /** What a message said to `c` in a step stands for. */
  predicate Meant(w: World, step: Step, c: ConnId, m: ServerMessage) {
    && Passwordless(m)
    && (m.PeerInput? ==> Relays(w, step, c, m.peerId, m.blob))
    && (m.Joined? ==> Seats(step, c, m.roomCode, m.peerId, m.side))
  }

  ghost predicate AllMeant(w: World, step: Step, c: ConnId, msgs: seq<ServerMessage>) {
    forall i :: 0 <= i < |msgs| ==> Meant(w, step, c, msgs[i])
  }

  lemma PruneMeant(w: World, step: Step, c: ConnId, msg: ServerMessage, t: PruneTrace)
    requires Meant(w, step, c, msg)
    ensures AllMeant(w, step, c, PruneScript(msg, t))
  {
    hide Relays, Seats;
  }

  lemma LeaveMeant(w: World, step: Step, c: ConnId, id: u32, lt: LeaveTrace)
    ensures AllMeant(w, step, c, LeaveScript(id, lt))
  {
    hide PruneScript;
    PruneMeant(w, step, c, PeerLeft(id), lt.first);
    if lt.elected.Some? {
      PruneMeant(w, step, c, RoomEvent(HostTransferred(lt.elected.value)), lt.second);
    }
  }

  lemma CommandMeant(w: World, step: Step, c: ConnId, r: RoomState, ctl: Control, t: PruneTrace)
    requires Command(r, ctl).Some?
    ensures AllMeant(w, step, c, Out(PlanOutbox(Command(r, ctl).value, t), c))
  {
    hide PruneScript, Relays, Seats;
    var plan := Command(r, ctl).value;
    if plan.say.Some? {
      PruneMeant(w, step, c, plan.say.value, t);
    }
  }

  lemma GreetingMeant(w: World, step: Step, c: ConnId, r: RoomState, h: HelloFields, code: Bytes, id: u32, side: byte)
    requires step.Message? && Seats(step, step.conn, code, id, side)
    ensures AllMeant(w, step, c, Out(AdmitOutbox(r, h, step.conn, code, id, side), c))
  {
    hide Seats, Relays, Seat;
  }

  lemma HelloMeant(cfg: Config, w: World, k: ConnId, h: HelloFields, tr: Trace, w': World, c: ConnId)
    requires tr.Admission? && Admits(w, cfg, k, h, tr.a, KeyOf(h, tr.a), tr.entered, w')
    ensures AllMeant(w, Message(k, Hello(h), tr), c, Out(Steps.HelloOutbox(k, h, tr.a, tr.entered), c))
  {
    hide Sends, Refusal, Allocates, IsNextSide, Enters, Relays, AdmitOutbox;
    if Refusal(tr.entered, h) == None && tr.a.id.Some? {
      GreetingMeant(w, Message(k, Hello(h), tr), c, tr.entered.(nextId := tr.a.nextId), h, CodeOf(h, tr.a), tr.a.id.value, tr.a.side);
    }
  }

  lemma ActMeant(cfg: Config, w: World, k: ConnId, msg: ClientMessage, tr: Trace, w': World, c: ConnId)
    requires Acts(w, cfg, k, msg, tr, w')
    ensures AllMeant(w, Message(k, msg, tr), c, Out(Steps.ActOutbox(w, k, msg, tr), c))
  {
    hide Sends, PrunesState, Executes, Admits, PlanOutbox, Command, PruneScript;
    match msg
    case Hello(h) => HelloMeant(cfg, w, k, h, tr, w', c);
    case Move(blob) => PruneMeant(w, Message(k, msg, tr), c, StateUpdate(blob), tr.t);
    case Input(_) =>
    case RoomControl(ctl) => CommandMeant(w, Message(k, msg, tr), c, w.rooms[w.sessions[k].key], ctl, tr.t);
  }

  lemma AnswerMeant(cfg: Config, w: World, k: ConnId, msg: ClientMessage, tr: Trace, w': World, c: ConnId)
    requires Says(w, cfg, k, msg, tr, w') && Answer(w, cfg, k, msg, tr).Some?
    ensures AllMeant(w, Message(k, msg, tr), c, Answer(w, cfg, k, msg, tr).value)
  {
    hide Sends, Relays, Seats;
  }

  lemma StepMeant(cfg: Config, w: World, step: Step, w': World, c: ConnId)
    requires Next(cfg, w, step, w')
    ensures AllMeant(w, step, c, Out(Steps.OutboxOf(w, cfg, step), c))
  {
    hide Sends, Leaves, Acts, Answer, LeaveScript, Steps.ActOutbox, Meant;
    match step
    case Closing(_) =>
    case Departure(k, lt, _) =>
      if HasRoom(w, k) {
        LeaveMeant(w, step, c, w.sessions[k].peer, lt);
      }
    case Message(k, msg, tr) =>
      if Answer(w, cfg, k, msg, tr).Some? {
        AnswerMeant(cfg, w, k, msg, tr, w', c);
      } else {
        ActMeant(cfg, w, k, msg, tr, w', c);
      }
  }

  /** Whatever is new in a log was meant by the step. */
  lemma NewsMeant(cfg: Config, w: World, step: Step, w': World, c: ConnId, n: nat)
    requires Next(cfg, w, step, w') && n < |w'.Log(c)|
    ensures n < |w.Log(c)| ==> w'.Log(c)[n] == w.Log(c)[n]
    ensures n >= |w.Log(c)| ==> Meant(w, step, c, w'.Log(c)[n])
  {
    hide Next, Meant, Steps.OutboxOf;
    Steps.StepSends(cfg, w, step, w');
    StepMeant(cfg, w, step, w', c);
    var script := Out(Steps.OutboxOf(w, cfg, step), c);
    assert Offered(c in w.closed, c in w'.closed, w.Log(c), w'.Log(c), script);
    assert w'.Log(c)[n] == (w.Log(c) + script)[n];
  }

  // ---------- Whole runs ----------

  /** The step of the run by which the `n`-th message of a log was sent, and that it was meant. */
  lemma {:induction false} SentBy(cfg: Config, run: seq<Sys>, steps: seq<Step>, i: nat, c: ConnId, n: nat) returns (j: nat)
    requires IsRun(cfg, run, steps) && i < |run| && n < |run[i].w.Log(c)|
    ensures j < i && |run[j].w.Log(c)| <= n && Meant(run[j].w, steps[j], c, run[i].w.Log(c)[n])
  {
    hide Next, HistNext, Meant;
    assert i > 0;
    assert SysNext(cfg, run[i - 1], steps[i - 1], run[i]);
    NewsMeant(cfg, run[i - 1].w, steps[i - 1], run[i].w, c, n);
    if n < |run[i - 1].w.Log(c)| {
      j := SentBy(cfg, run, steps, i - 1, c, n);
    } else {
      j := i - 1;
    }
  }

  /** Over every run no message ever sent carries a password. */
  lemma RunPasswordless(cfg: Config, run: seq<Sys>, steps: seq<Step>, i: nat, c: ConnId, n: nat)
    requires IsRun(cfg, run, steps) && i < |run| && n < |run[i].w.Log(c)|
    ensures Passwordless(run[i].w.Log(c)[n])
  {
    hide IsRun;
    var j := SentBy(cfg, run, steps, i, c, n);
  }

  /** Over every run an input a host is told of was sent by the player named, in the host's room. */
  lemma InputsAnswered(cfg: Config, run: seq<Sys>, steps: seq<Step>, i: nat, c: ConnId, n: nat) returns (j: nat)
    requires IsRun(cfg, run, steps) && i < |run| && n < |run[i].w.Log(c)| && run[i].w.Log(c)[n].PeerInput?
    ensures j < i && Relays(run[j].w, steps[j], c, run[i].w.Log(c)[n].peerId, run[i].w.Log(c)[n].blob)
  {
    hide IsRun;
    j := SentBy(cfg, run, steps, i, c, n);
  }

  // ---------- A member knows its seat ----------

  function LastJoined(log: seq<ServerMessage>): Option<ServerMessage> {
    if log == [] then None
    else if log[|log| - 1].Joined? then Some(log[|log| - 1])
    else LastJoined(log[..|log| - 1])
  }

  /** The last Joined in a log names this id and side, and the room. */
  ghost predicate KnowsSeat(log: seq<ServerMessage>, key: Key, id: u32, side: byte) {
    var j := LastJoined(log);
    j.Some? && j.value.Joined? && j.value.peerId == id && j.value.side == side && Fold(j.value.roomCode) == key.code
  }

  lemma {:induction false} JoinedKept(log: seq<ServerMessage>, more: seq<ServerMessage>)
    requires forall i :: 0 <= i < |more| ==> !more[i].Joined?
    ensures LastJoined(log + more) == LastJoined(log)
    decreases |more|
  {
    if more == [] {
      assert log + more == log;
    } else {
      var front := more[..|more| - 1];
      assert (log + more)[..|log + more| - 1] == log + front;
      JoinedKept(log, front);
    }
  }

  ghost predicate SeatsKnown(w: World) {
    forall key, p :: key in w.rooms && p in w.rooms[key].Members() && w.rooms[key].Members()[p].conn !in w.closed ==>
      KnowsSeat(w.Log(w.rooms[key].Members()[p].conn), key, p, w.rooms[key].Members()[p].side)
  }

  /** A member that stays is told of no other seat. */
  lemma StaysSeated(cfg: Config, w: World, step: Step, w': World, c: ConnId, key: Key, id: u32, side: byte)
    requires Next(cfg, w, step, w') && c in w.sessions && c !in w'.closed && KnowsSeat(w.Log(c), key, id, side)
    ensures KnowsSeat(w'.Log(c), key, id, side)
  {
    SeatedHello(cfg, w, step, w');
    hide Next, Steps.OutboxOf;
    Steps.StepSends(cfg, w, step, w');
    StepMeant(cfg, w, step, w', c);
    var script := Out(Steps.OutboxOf(w, cfg, step), c);
    assert Offered(c in w.closed, c in w'.closed, w.Log(c), w'.Log(c), script);
    forall i | 0 <= i < |script|
      ensures !script[i].Joined?
    {
      assert Meant(w, step, c, script[i]);
    }
    JoinedKept(w.Log(c), script);
  }

  lemma SeatedHello(cfg: Config, w: World, step: Step, w': World)
    requires Next(cfg, w, step, w')
    ensures step.Message? && step.msg.Hello? ==> step.conn !in w.sessions
  {
    hide Answer, Acts, Departs;
  }

  lemma NewcomerKnows(cfg: Config, w: World, step: Step, w': World, e: Steps.Effect)
    requires Next(cfg, w, step, w') && e == Steps.EffectOf(w, cfg, step, w') && e.Filled? && step.conn !in w'.closed
    requires Steps.Takes(w, step, e, w')
    ensures KnowsSeat(w'.Log(step.conn), e.key, e.a.id.value, e.a.side)
  {
    hide Next, Steps.Evolves, Steps.Welcomes, Allocates, Sends;
    Steps.StepSends(cfg, w, step, w');
    assert Offered(step.conn in w.closed, step.conn in w'.closed, w.Log(step.conn), w'.Log(step.conn), Out(Steps.OutboxOf(w, cfg, step), step.conn)) by {
      OfferedTo(w, w', Steps.OutboxOf(w, cfg, step), step.conn);
    }
    NewcomerScript(cfg, w, step, w', e);
    var script := Out(Steps.OutboxOf(w, cfg, step), step.conn);
    var log := w.Log(step.conn) + script;
    assert log[|log| - 1] == script[|script| - 1];
  }

  lemma OfferedTo(w: World, w': World, out: Outbox, c: ConnId)
    requires Sends(w, w', out)
    ensures Offered(c in w.closed, c in w'.closed, w.Log(c), w'.Log(c), Out(out, c))
  {
  }

  lemma NewcomerScript(cfg: Config, w: World, step: Step, w': World, e: Steps.Effect)
    requires Next(cfg, w, step, w') && e == Steps.EffectOf(w, cfg, step, w') && e.Filled? && Steps.Takes(w, step, e, w')
    ensures var script := Out(Steps.OutboxOf(w, cfg, step), step.conn);
            script != [] && var j := script[|script| - 1];
            j.Joined? && j.peerId == e.a.id.value && j.side == e.a.side && Fold(j.roomCode) == e.key.code
  {
    hide Sends, Steps.Evolves, Allocates, IsNextSide, Enters;
  }

  lemma NextSeatsKnown(cfg: Config, w: World, step: Step, w': World)
    requires Owned(w) && Next(cfg, w, step, w') && SeatsKnown(w)
    ensures SeatsKnown(w')
  {
    hide Next, Owned, Steps.Evolves, Steps.Welcomes, KnowsSeat;
    Steps.StepEffect(cfg, w, step, w');
    NextOwned(cfg, w, step, w');
    Steps.StepSends(cfg, w, step, w');
    var e := Steps.EffectOf(w, cfg, step, w');
    forall key, p | key in w'.rooms && p in w'.rooms[key].Members() && w'.rooms[key].Members()[p].conn !in w'.closed
      ensures KnowsSeat(w'.Log(w'.rooms[key].Members()[p].conn), key, p, w'.rooms[key].Members()[p].side)
    {
      MemberKnows(cfg, w, step, w', e, key, p);
    }
  }

  lemma MemberKnows(cfg: Config, w: World, step: Step, w': World, e: Steps.Effect, key: Key, p: u32)
    requires Owned(w) && Next(cfg, w, step, w') && SeatsKnown(w) && e == Steps.EffectOf(w, cfg, step, w') && Steps.Takes(w, step, e, w')
    requires key in w'.rooms && p in w'.rooms[key].Members() && w'.rooms[key].Members()[p].conn !in w'.closed
    ensures KnowsSeat(w'.Log(w'.rooms[key].Members()[p].conn), key, p, w'.rooms[key].Members()[p].side)
  {
    hide Next, Owned, Steps.Evolves, Steps.Welcomes, KnowsSeat, Sends, Steps.OutboxOf, Steps.EffectOf;
    Steps.StepSends(cfg, w, step, w');
    ClosedGrows(w, w', Steps.OutboxOf(w, cfg, step));
    var i := w'.rooms[key].Members()[p];
    if e.Filled? && e.key == key {
      Filled(w, step, e, w', p);
      if p == e.a.id.value {
        NewcomerKnows(cfg, w, step, w', e);
      } else {
        OldMember(w, e.key, p);
        StaysSeated(cfg, w, step, w', i.conn, key, p, i.side);
      }
    } else {
      Steps.StepSeats(w, step, e, w', key);
      OldMember(w, key, p);
      StaysSeated(cfg, w, step, w', i.conn, key, p, i.side);
    }
  }

  lemma ClosedGrows(w: World, w': World, out: Outbox)
    requires Sends(w, w', out)
    ensures w.closed <= w'.closed
  {
  }

  lemma OldMember(w: World, key: Key, p: u32)
    requires Owned(w) && key in w.rooms && p in w.rooms[key].Members()
    ensures w.rooms[key].Members()[p].conn in w.sessions
  {
  }

  lemma Filled(w: World, step: Step, e: Steps.Effect, w': World, p: u32)
    requires e.Filled? && Steps.Takes(w, step, e, w') && p in w'.rooms[e.key].Members()
    ensures if p == e.a.id.value then w'.rooms[e.key].Members()[p] == Newcomer(e.hello, step.conn, e.a.side)
            else e.key in w.rooms && p in w.rooms[e.key].Members() && w'.rooms[e.key].Members()[p] == w.rooms[e.key].Members()[p]
  {
    hide Steps.Welcomes, Steps.Evolves;
    Ids.WelcomedMembers(e.r, e.hello, step.conn, e.a, w'.rooms[e.key]);
  }

  /** Over every run the last Joined an open member was sent names its own id and side, and its room. */
  lemma {:induction false} MembersKnowSeats(cfg: Config, run: seq<Sys>, steps: seq<Step>, i: nat)
    requires IsRun(cfg, run, steps) && i < |run|
    ensures SeatsKnown(run[i].w)
  {
    hide Next, HistNext, Owned, SeatsKnown;
    if i == 0 {
      NoSeats();
    } else {
      MembersKnowSeats(cfg, run, steps, i - 1);
      RunOwned(cfg, run, steps, i - 1);
      assert SysNext(cfg, run[i - 1], steps[i - 1], run[i]);
      NextSeatsKnown(cfg, run[i - 1].w, steps[i - 1], run[i].w);
    }
  }

  lemma NoSeats()
    ensures SeatsKnown(INITIAL)
  {
  }
}
