/**
 * What is on the wire over whole runs. The server can decode no game-specific value, so none is ever
 * in a room or in a message it sends; and every pooled code is one it made up, so it is short.
 */
module Traffic {
  import opened Types
  import opened RoomModel
  import opened ServerModel
  import opened Runs
  import Steps
  import RoomCodes
  import Messages
  import ClientDecoding
  import ServerDecoding

  // ---------- Game-specific values ----------

  predicate Settled(s: RoomSettings) { s.custom == None }

  /** No settings in the message carry a game-specific value. */
  predicate Customless(m: ServerMessage) {
    match m
    case Joined(_, _, _, _, settings, _) => Settled(settings)
    case RoomList(rooms) => forall i :: 0 <= i < |rooms| ==> Settled(rooms[i].settings)
    case RoomEvent(SettingsChanged(s)) => Settled(s)
    case _ => true
  }

  ghost predicate AllCustomless(msgs: seq<ServerMessage>) { forall i :: 0 <= i < |msgs| ==> Customless(msgs[i]) }

  /** A message the server's decoder can return. */
  ghost predicate Decodable(msg: ClientMessage) { exists d :: ServerDecoding.DecodeClient(d) == Some(msg) }

  predicate AsksNothingCustom(msg: ClientMessage) {
    msg.RoomControl? && msg.control.UpdateSettings? ==> Settled(msg.control.settings)
  }

  lemma DecodableSettled(msg: ClientMessage)
    requires Decodable(msg)
    ensures AsksNothingCustom(msg)
  {
    hide ServerDecoding.DecodeClient;
    var d :| ServerDecoding.DecodeClient(d) == Some(msg);
    if msg.RoomControl? {
      ServerDecoding.DecodedPlain(d);
    }
  }

  lemma CustomlessTrees(m: ServerMessage)
    requires Customless(m)
    ensures ClientDecoding.CustomsAreTrees(m)
  {
  }

  /** The client's skipping loses nothing of such a message. */
  lemma CustomlessSeen(m: ServerMessage)
    requires Customless(m)
    ensures ClientDecoding.Seen(m) == m
  {
    if m.RoomList? {
      assert forall i :: 0 <= i < |m.rooms| ==> ClientDecoding.PlainEntry(m.rooms[i]) == m.rooms[i];
      assert ClientDecoding.PlainEntries(m.rooms) == m.rooms;
    }
  }

  // ---------- Rooms ----------

  ghost predicate RoomsSettled(w: World) { forall key :: key in w.rooms ==> Settled(w.rooms[key].settings) }

  lemma CommandSettled(r: RoomState, c: Control, closed: set<ConnId>, t: PruneTrace, r': RoomState, closed': set<ConnId>)
    requires Settled(r.settings) && Command(r, c).Some? && Executes(Command(r, c).value, closed, t, r', closed')
    requires c.UpdateSettings? ==> Settled(c.settings)
    ensures Settled(r'.settings)
  {
    Steps.CommandFixtures(r, c, closed, t, r', closed');
    hide Executes;
  }

  lemma ActSettled(w: World, cfg: Config, k: ConnId, msg: ClientMessage, tr: Trace, w': World)
    requires RoomsSettled(w) && Acts(w, cfg, k, msg, tr, w') && AsksNothingCustom(msg)
    ensures RoomsSettled(w')
  {
    hide Sends, PrunesState, Executes, Refusal, Allocates, IsNextSide;
    match msg
    case Hello(h) =>
    case Move(blob) => Steps.PrunesFixtures(w.rooms[w.sessions[k].key].(state := blob), w.closed, tr.t, tr.after, w'.closed);
    case Input(_) =>
    case RoomControl(c) => CommandSettled(w.rooms[w.sessions[k].key], c, w.closed, tr.t, tr.after, w'.closed);
  }

  lemma NextSettled(cfg: Config, w: World, step: Step, w': World)
    requires RoomsSettled(w) && Next(cfg, w, step, w') && (step.Message? ==> AsksNothingCustom(step.msg))
    ensures RoomsSettled(w')
  {
    hide Sends, Leaves, Acts, Answer;
    match step
    case Closing(_) =>
    case Departure(k, lt, after) =>
      if HasRoom(w, k) {
        Steps.LeavesFixtures(w.rooms[w.sessions[k].key], w.sessions[k].peer, w.closed, lt, after, w'.closed);
      }
    case Message(k, msg, tr) =>
      if Answer(w, cfg, k, msg, tr) == None {
        ActSettled(w, cfg, k, msg, tr, w');
      }
  }

  // ---------- Messages ----------

  lemma PruneScriptCustomless(msg: ServerMessage, t: PruneTrace)
    requires Customless(msg)
    ensures AllCustomless(PruneScript(msg, t))
  {
  }

  lemma LeaveScriptCustomless(id: u32, lt: LeaveTrace)
    ensures AllCustomless(LeaveScript(id, lt))
  {
    hide PruneScript;
    PruneScriptCustomless(PeerLeft(id), lt.first);
    if lt.elected.Some? {
      PruneScriptCustomless(RoomEvent(HostTransferred(lt.elected.value)), lt.second);
    }
  }

  lemma CommandCustomless(r: RoomState, c: Control, t: PruneTrace, k: ConnId)
    requires Command(r, c).Some? && (c.UpdateSettings? ==> Settled(c.settings))
    ensures AllCustomless(Out(PlanOutbox(Command(r, c).value, t), k))
  {
    hide PruneScript;
    var plan := Command(r, c).value;
    if plan.say.Some? {
      PruneScriptCustomless(plan.say.value, t);
    }
  }

  lemma HelloCustomless(cfg: Config, w: World, k: ConnId, h: HelloFields, tr: Trace, w': World, c: ConnId)
    requires RoomsSettled(w) && tr.Admission? && Admits(w, cfg, k, h, tr.a, KeyOf(h, tr.a), tr.entered, w')
    ensures AllCustomless(Out(Steps.HelloOutbox(k, h, tr.a, tr.entered), c))
  {
    hide Sends, Refusal, Allocates, IsNextSide;
  }

  lemma ActCustomless(cfg: Config, w: World, k: ConnId, msg: ClientMessage, tr: Trace, w': World, c: ConnId)
    requires RoomsSettled(w) && Acts(w, cfg, k, msg, tr, w') && AsksNothingCustom(msg)
    ensures AllCustomless(Out(Steps.ActOutbox(w, k, msg, tr), c))
  {
    hide Sends, PrunesState, Executes, Admits, PlanOutbox, Command, PruneScript;
    match msg
    case Hello(h) => HelloCustomless(cfg, w, k, h, tr, w', c);
    case Move(blob) => PruneScriptCustomless(StateUpdate(blob), tr.t);
    case Input(_) =>
    case RoomControl(ctl) => CommandCustomless(w.rooms[w.sessions[k].key], ctl, tr.t, c);
  }

  lemma AnswerCustomless(cfg: Config, w: World, k: ConnId, msg: ClientMessage, tr: Trace, w': World)
    requires RoomsSettled(w) && Says(w, cfg, k, msg, tr, w') && Answer(w, cfg, k, msg, tr).Some?
    ensures AllCustomless(Answer(w, cfg, k, msg, tr).value)
  {
    hide Sends;
  }

  lemma StepCustomless(cfg: Config, w: World, step: Step, w': World, c: ConnId)
    requires RoomsSettled(w) && Next(cfg, w, step, w') && (step.Message? ==> AsksNothingCustom(step.msg))
    ensures AllCustomless(Out(Steps.OutboxOf(w, cfg, step), c))
  {
    hide Sends, Leaves, Acts, Answer, LeaveScript, Steps.ActOutbox, RoomsSettled;
    match step
    case Closing(_) =>
    case Departure(k, lt, _) =>
      if HasRoom(w, k) {
        LeaveScriptCustomless(w.sessions[k].peer, lt);
      }
    case Message(k, msg, tr) =>
      if Answer(w, cfg, k, msg, tr).Some? {
        AnswerCustomless(cfg, w, k, msg, tr, w');
      } else {
        ActCustomless(cfg, w, k, msg, tr, w', c);
      }
  }

  ghost predicate LogsCustomless(w: World) { forall c: ConnId :: AllCustomless(w.Log(c)) }

  lemma NextLogs(cfg: Config, w: World, step: Step, w': World)
    requires RoomsSettled(w) && LogsCustomless(w) && Next(cfg, w, step, w') && (step.Message? ==> AsksNothingCustom(step.msg))
    ensures LogsCustomless(w')
  {
    hide Next, RoomsSettled, Customless, AsksNothingCustom, Steps.OutboxOf;
    Steps.StepSends(cfg, w, step, w');
    forall c: ConnId
      ensures AllCustomless(w'.Log(c))
    {
      StepCustomless(cfg, w, step, w', c);
      var script := Out(Steps.OutboxOf(w, cfg, step), c);
      assert Offered(c in w.closed, c in w'.closed, w.Log(c), w'.Log(c), script);
      assert AllCustomless(w.Log(c) + script);
    }
  }

  /** Every message handled is one the decoder can return. */
  ghost predicate AllDecodable(steps: seq<Step>) { forall i :: 0 <= i < |steps| && steps[i].Message? ==> Decodable(steps[i].msg) }

  /** Over every run of messages that can be decoded, no room and no message ever holds a game-specific value. */
  lemma {:induction false} RunCustomless(cfg: Config, run: seq<Sys>, steps: seq<Step>, i: nat)
    requires IsRun(cfg, run, steps) && AllDecodable(steps) && i < |run|
    ensures RoomsSettled(run[i].w) && LogsCustomless(run[i].w)
  {
    hide Next, HistNext, RoomsSettled, LogsCustomless, Decodable, AsksNothingCustom;
    if i == 0 {
      StartCustomless();
    } else {
      RunCustomless(cfg, run, steps, i - 1);
      assert SysNext(cfg, run[i - 1], steps[i - 1], run[i]);
      if steps[i - 1].Message? {
        DecodableSettled(steps[i - 1].msg);
      }
      NextSettled(cfg, run[i - 1].w, steps[i - 1], run[i].w);
      NextLogs(cfg, run[i - 1].w, steps[i - 1], run[i].w);
    }
  }

  lemma StartCustomless()
    ensures RoomsSettled(INITIAL) && LogsCustomless(INITIAL)
  {
  }

  // ---------- Codes ----------

  ghost predicate CodesShort(w: World) { forall key :: key in w.rooms ==> |key.code| <= RoomCodes.LONGEST_CODE }

  lemma NextCodes(cfg: Config, w: World, step: Step, w': World)
    requires CodesShort(w) && Next(cfg, w, step, w')
    ensures CodesShort(w')
  {
    hide Sends, Leaves, Answer, PrunesState, Executes, Refusal, Allocates, IsNextSide, RoomCodes.IsMade;
    if step.Message? && Answer(w, cfg, step.conn, step.msg, step.trace) == None && step.msg.Hello? {
      var h, a := step.msg.hello, step.trace.a;
      if h.roomCode == [] {
        RoomCodes.GeneratedCodesShort(CodeOf(h, a));
      }
    }
  }

  /** Over every run the codes of pooled rooms have at most 21 bytes. */
  lemma {:induction false} RunCodes(cfg: Config, run: seq<Sys>, steps: seq<Step>, i: nat)
    requires IsRun(cfg, run, steps) && i < |run|
    ensures CodesShort(run[i].w)
  {
    hide Next, HistNext, CodesShort;
    if i == 0 {
      assert CodesShort(INITIAL) by { NoCodes(); }
    } else {
      RunCodes(cfg, run, steps, i - 1);
      assert SysNext(cfg, run[i - 1], steps[i - 1], run[i]);
      NextCodes(cfg, run[i - 1].w, steps[i - 1], run[i].w);
    }
  }

  lemma NoCodes()
    ensures CodesShort(INITIAL)
  {
  }

  // ---------- What follows for the wire ----------

  /** The Joined reply of an admission, as the room then stands. */
  function JoinedReply(w': World, k: ConnId, h: HelloFields, a: AdmitTrace): ServerMessage
    requires HasRoom(w', k)
  {
    JoinedMessage(w'.rooms[w'.sessions[k].key], CodeOf(h, a), w'.sessions[k].peer, a.side)
  }

  lemma AdmittedTo(cfg: Config, w: World, k: ConnId, h: HelloFields, tr: Trace, w': World)
    requires Next(cfg, w, Message(k, Hello(h), tr), w') && k !in w.sessions && k in w'.sessions
    ensures HasRoom(w', k) && tr.Admission? && w'.sessions[k].key.code == Fold(CodeOf(h, tr.a))
  {
    hide Sends, Refusal, Allocates, IsNextSide;
  }

  /**
   * Whoever is admitted can be told so: over every run of decodable messages the Joined reply fits a
   * frame as long as the room's state has at most 65484 bytes, whatever password it has.
   */
  lemma JoinedReplyFits(cfg: Config, run: seq<Sys>, steps: seq<Step>, i: nat, k: ConnId, h: HelloFields, tr: Trace)
    requires IsRun(cfg, run, steps) && AllDecodable(steps) && i < |steps| && steps[i] == Message(k, Hello(h), tr)
    requires k !in run[i].w.sessions && k in run[i + 1].w.sessions
    ensures HasRoom(run[i + 1].w, k) && tr.Admission?
    ensures |run[i + 1].w.rooms[run[i + 1].w.sessions[k].key].state| <= Messages.JoinedRoom(RoomCodes.LONGEST_CODE) ==>
              Messages.EncodeServer(JoinedReply(run[i + 1].w, k, h, tr.a)).Some?
  {
    hide Next, HistNext, AllDecodable, Messages.EncodeServer, RoomsSettled, LogsCustomless, CodesShort;
    assert SysNext(cfg, run[i], steps[i], run[i + 1]);
    var w' := run[i + 1].w;
    AdmittedTo(cfg, run[i].w, k, h, tr, w');
    RunCustomless(cfg, run, steps, i + 1);
    RunCodes(cfg, run, steps, i + 1);
    hide IsRun;
    var s := w'.sessions[k];
    var r := w'.rooms[s.key];
    RoomFacts(w', s.key);
    var state := if r.state == [] then None else Some(r.state);
    if |r.state| <= Messages.JoinedRoom(RoomCodes.LONGEST_CODE) {
      Messages.JoinedFits(CodeOf(h, tr.a), s.peer, r.host, tr.a.side, Public(r.settings), state);
    }
  }

  lemma RoomFacts(w: World, key: Key)
    requires key in w.rooms && RoomsSettled(w) && CodesShort(w)
    ensures w.rooms[key].settings.custom == None && |key.code| <= RoomCodes.LONGEST_CODE
  {
  }
}
