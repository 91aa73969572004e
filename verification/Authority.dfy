/**
 * The authoritative state over every run: a room's state is the blob of its last accepted move, and
 * what a session is shown of it never goes back to an earlier move, whichever messages full queues
 * drop; shown everything, an open member's latest state is the room's.
 */
module Authority {
  import opened Types
  import opened RoomModel
  import opened ServerModel
  import opened Ownership
  import opened Runs
  import opened Steps
  import opened Ids
  import Seating
  import opened Histories

  // ---------- Who may change the state, and when ----------

  ghost predicate StateLatest(r: RoomState, moves: seq<Bytes>) {
    r.state == if moves == [] then [] else moves[|moves| - 1]
  }

  /** An accepted move comes from the session that bears the host's id, in a room with players enough. */
  lemma MoveAuthority(w: World, step: Step, key: Key)
    requires Owned(w) && key in w.rooms && IsAcceptedMove(w, step, key)
    ensures w.sessions[step.conn] == Session(key, w.rooms[key].host)
    ensures |w.rooms[key].clients| >= w.rooms[key].settings.minPlayers
  {
    OwnedOk(w, key);
    hide Owned, Decimal, Text;
    Seating.CountsFit(w.rooms[key]);
  }

  /** Nothing but an accepted move changes a room's state, and it becomes the move's blob. */
  lemma StateStep(cfg: Config, w: World, step: Step, w': World, key: Key)
    requires Next(cfg, w, step, w') && key in w.rooms && key in w'.rooms
    ensures w'.rooms[key].state == if IsAcceptedMove(w, step, key) then step.msg.blob else w.rooms[key].state
  {
    hide Sends, Answer, MoveRefusal, Leaves, Prunes, PrunesState, Executes;
    match step
    case Closing(_) =>
    case Departure(k, lt, after) =>
      if HasRoom(w, k) {
        LeavesFixtures(w.rooms[w.sessions[k].key], w.sessions[k].peer, w.closed, lt, after, w'.closed);
      }
    case Message(k, msg, tr) =>
      if Answer(w, cfg, k, msg, tr).Some? {
        NoMoveAnswered(w, cfg, k, msg, tr);
      } else if !msg.Hello? {
        ActStateStep(cfg, w, k, msg, tr, w', key);
      } else {
        hide Refusal, Allocates, IsNextSide;
      }
  }

  lemma ActStateStep(cfg: Config, w: World, k: ConnId, msg: ClientMessage, tr: Trace, w': World, key: Key)
    requires Acts(w, cfg, k, msg, tr, w') && Answer(w, cfg, k, msg, tr) == None && !msg.Hello? && key in w.rooms && key in w'.rooms
    ensures w'.rooms[key].state == if IsAcceptedMove(w, Message(k, msg, tr), key) then msg.blob else w.rooms[key].state
  {
    hide Sends, Answer, MoveRefusal, Prunes, PrunesState, Executes;
    var r := w.rooms[w.sessions[k].key];
    match msg
    case Move(blob) =>
      PrunesFixtures(r.(state := blob), w.closed, tr.t, tr.after, w'.closed);
      MoveTaken(w, cfg, k, blob, tr);
    case Input(_) =>
    case RoomControl(c) => CommandFixtures(r, c, w.closed, tr.t, tr.after, w'.closed);
  }

  // ---------- What a step shows ----------

  /** Nothing that starts a new session, and no state but `blob`. */
  ghost predicate ShowsOnly(msgs: seq<ServerMessage>, blob: Bytes) {
    forall i :: 0 <= i < |msgs| ==> !msgs[i].Joined? && (msgs[i].StateUpdate? ==> msgs[i].blob == blob)
  }

  ghost predicate ShowsNothing(msgs: seq<ServerMessage>) {
    forall i :: 0 <= i < |msgs| ==> !msgs[i].Joined? && !msgs[i].StateUpdate?
  }

  lemma PruneShows(msg: ServerMessage, t: PruneTrace)
    ensures !msg.Joined? && !msg.StateUpdate? ==> ShowsNothing(PruneScript(msg, t))
    ensures msg.StateUpdate? ==> ShowsOnly(PruneScript(msg, t), msg.blob) && |PruneScript(msg, t)| > 0 && PruneScript(msg, t)[0] == msg
  {
  }

  lemma LeaveShows(id: u32, lt: LeaveTrace)
    ensures ShowsNothing(LeaveScript(id, lt))
  {
    PruneShows(PeerLeft(id), lt.first);
    if lt.elected.Some? {
      PruneShows(RoomEvent(HostTransferred(lt.elected.value)), lt.second);
    }
  }

  lemma CommandShows(r: RoomState, c: Control, t: PruneTrace, x: ConnId)
    requires Command(r, c).Some?
    ensures ShowsNothing(Out(PlanOutbox(Command(r, c).value, t), x))
  {
    var plan := Command(r, c).value;
    if plan.say.Some? {
      PruneShows(plan.say.value, t);
    }
  }

  lemma MoveOut(r: RoomState, t: PruneTrace, k: ConnId, x: ConnId)
    ensures Out(Reply(StateOutbox(r, t), k, [MoveAccepted]), x) ==
            (if x in Conns(r.clients) then PruneScript(StateUpdate(r.state), t)
             else if x in Conns(r.pending) then [StateUpdate(r.state)] else []) +
            (if x == k then [MoveAccepted] else [])
  {
    hide PruneScript;
  }

  /** An accepted move shows its blob, to all members, and to nobody outside the room. */
  lemma MoveShows(w: World, key: Key, k: ConnId, blob: Bytes, t: PruneTrace, x: ConnId)
    requires Owned(w) && key in w.rooms && k in w.sessions && w.sessions[k].key == key && x in w.sessions
    ensures var msgs := Out(Reply(StateOutbox(w.rooms[key].(state := blob), t), k, [MoveAccepted]), x);
            && ShowsOnly(msgs, blob)
            && (w.sessions[x].key != key ==> msgs == [])
            && (x in Conns(w.rooms[key].Members()) ==> |msgs| > 0 && msgs[0] == StateUpdate(blob))
  {
    hide Owned, PruneScript, StateOutbox, Reply, Conns;
    var r := w.rooms[key];
    PruneShows(StateUpdate(blob), t);
    OwnedOk(w, key);
    MemberSessions(w, key);
    MemberConns(r);
    MoveOut(r.(state := blob), t, k, x);
  }

  lemma MemberSessions(w: World, key: Key)
    requires Owned(w) && key in w.rooms
    ensures forall c :: c in Conns(w.rooms[key].Members()) ==> c in w.sessions && w.sessions[c].key == key
  {
  }

  lemma MemberConns(r: RoomState)
    requires RoomOk(r)
    ensures Conns(r.Members()) == Conns(r.clients) + Conns(r.pending)
  {
    assert forall p :: p in r.clients ==> r.Members()[p] == r.clients[p];
    assert forall p :: p in r.pending ==> r.Members()[p] == r.pending[p];
  }

  lemma HelloShows(w: World, k: ConnId, h: HelloFields, a: AdmitTrace, r: RoomState, x: ConnId)
    requires x != k
    ensures ShowsNothing(Out(HelloOutbox(k, h, a, r), x))
  {
    hide Refusal;
  }

  lemma AnswerShows(w: World, cfg: Config, k: ConnId, msg: ClientMessage, tr: Trace)
    requires Answer(w, cfg, k, msg, tr).Some?
    ensures var msgs := Answer(w, cfg, k, msg, tr).value;
            if HasRoom(w, k) && w.rooms[w.sessions[k].key].state != [] then ShowsOnly(msgs, w.rooms[w.sessions[k].key].state)
            else ShowsNothing(msgs)
  {
    hide Text, Decimal;
  }

  /** A session other than the one a step opens is shown nothing but the latest state of its room. */
  lemma StepShows(cfg: Config, w: World, step: Step, w': World, x: ConnId, blob: Bytes)
    requires Owned(w) && Next(cfg, w, step, w') && HasRoom(w, x)
    requires blob == if IsAcceptedMove(w, step, w.sessions[x].key) then step.msg.blob else w.rooms[w.sessions[x].key].state
    ensures ShowsOnly(Out(OutboxOf(w, cfg, step), x), blob)
    ensures blob == [] && !IsAcceptedMove(w, step, w.sessions[x].key) ==> ShowsNothing(Out(OutboxOf(w, cfg, step), x))
    ensures IsAcceptedMove(w, step, w.sessions[x].key) && x in Conns(w.rooms[w.sessions[x].key].Members()) ==>
              |Out(OutboxOf(w, cfg, step), x)| > 0 && Out(OutboxOf(w, cfg, step), x)[0] == StateUpdate(blob)
  {
    hide Sends, Owned, Answer, MoveRefusal, StateOutbox, PlanOutbox, HelloOutbox, InputOutbox, Prunes, PrunesState, Leaves;
    match step
    case Closing(_) =>
    case Departure(k, lt, _) =>
      if HasRoom(w, k) { LeaveShows(w.sessions[k].peer, lt); }
    case Message(k, msg, tr) =>
      if Answer(w, cfg, k, msg, tr).Some? {
        AnswerShows(w, cfg, k, msg, tr);
        NoMoveAnswered(w, cfg, k, msg, tr);
      } else {
        match msg
        case Hello(h) => HelloShows(w, k, h, tr.a, tr.entered, x);
        case Move(b) =>
          MoveShows(w, w.sessions[k].key, k, b, tr.t, x);
          MoveTaken(w, cfg, k, b, tr);
        case Input(b) => InputShows(w.rooms[w.sessions[k].key], w.sessions[k].peer, b, x);
        case RoomControl(c) => CommandShows(w.rooms[w.sessions[k].key], c, tr.t, x);
      }
  }

  lemma InputShows(r: RoomState, id: u32, blob: Bytes, x: ConnId)
    ensures ShowsNothing(Out(InputOutbox(r, id, blob), x))
  {
  }

  lemma NoMoveAnswered(w: World, cfg: Config, k: ConnId, msg: ClientMessage, tr: Trace)
    requires Answer(w, cfg, k, msg, tr).Some?
    ensures forall key :: !IsAcceptedMove(w, Message(k, msg, tr), key)
  {
    hide MoveRefusal;
  }

  lemma MoveTaken(w: World, cfg: Config, k: ConnId, b: Bytes, tr: Trace)
    requires HasRoom(w, k) && Answer(w, cfg, k, Move(b), tr) == None
    ensures IsAcceptedMove(w, Message(k, Move(b), tr), w.sessions[k].key)
  {
    hide MoveRefusal;
  }

  // ---------- Every run ----------

  /** What the open sessions of one room have been shown of its moves. */
  ghost predicate Reads(s: Sys, key: Key) {
    key in s.w.rooms && key in s.h.rooms ==>
      var r, moves := s.w.rooms[key], s.h.rooms[key].moves;
      && StateLatest(r, moves)
      && (forall c :: AttachedTo(s, c, key) && c !in s.w.closed ==> HasJoined(s.w.Log(c)) && Forward(Shown(s.w.Log(c)), moves))
      && (forall c :: c in Conns(r.Members()) && c !in s.w.closed && r.state != [] ==> UpToDate(s.w.Log(c), r.state))
  }

  ghost predicate UpToDate(log: seq<ServerMessage>, state: Bytes) {
    var seen := Shown(log);
    seen != [] && seen[|seen| - 1] == state
  }

  ghost predicate AllRead(s: Sys) { forall key :: Reads(s, key) }

  /** Showing the latest state any number of times keeps the reading forward and ends up to date. */
  lemma {:induction false} ForwardShown(seen: seq<Bytes>, moves: seq<Bytes>, msgs: seq<ServerMessage>, blob: Bytes)
    requires Forward(seen, moves) && ShowsOnly(msgs, blob)
    requires ShowsNothing(msgs) || (moves != [] && moves[|moves| - 1] == blob)
    ensures Forward(seen + States(msgs), moves)
    ensures States(msgs) != [] ==> States(msgs)[|States(msgs)| - 1] == blob
    ensures |msgs| > 0 && msgs[0].StateUpdate? ==> States(msgs) != []
    decreases |msgs|
  {
    hide Forward;
    if msgs == [] {
      assert seen + [] == seen;
    } else {
      var rest := States(msgs[1..]);
      assert ShowsOnly(msgs[1..], blob) && (ShowsNothing(msgs) ==> ShowsNothing(msgs[1..])) by {
        assert forall i :: 0 <= i < |msgs[1..]| ==> msgs[1..][i] == msgs[i + 1];
      }
      if msgs[0].StateUpdate? {
        ForwardAgain(seen, moves, blob);
        ForwardShown(seen + [blob], moves, msgs[1..], blob);
        assert seen + ([blob] + rest) == (seen + [blob]) + rest;
      } else {
        ForwardShown(seen, moves, msgs[1..], blob);
        assert [] + rest == rest;
      }
    }
  }

  lemma ShownMore(log: seq<ServerMessage>, msgs: seq<ServerMessage>, blob: Bytes)
    requires HasJoined(log) && ShowsOnly(msgs, blob)
    ensures HasJoined(log + msgs) && Shown(log + msgs) == Shown(log) + States(msgs)
  {
    assert !HasJoined(msgs);
    SinceConcat(log, msgs);
    JoinedConcat(log, msgs);
    StatesConcat(SinceJoined(log), msgs);
  }

  lemma JoinedAnew(log: seq<ServerMessage>, base: seq<ServerMessage>, r: RoomState, code: Bytes, id: u32, side: byte, moves: seq<Bytes>)
    requires StateLatest(r, moves)
    ensures var log' := log + (base + [JoinedMessage(r, code, id, side)]);
            HasJoined(log') && Forward(Shown(log'), moves) && (r.state != [] ==> UpToDate(log', r.state))
  {
    var j := JoinedMessage(r, code, id, side);
    assert log + (base + [j]) == (log + base) + [j];
    SinceFresh(log + base, j);
    assert ((log + base) + [j])[|log + base|].Joined?;
    assert States([j]) == StatesIn(j) + States([j][1..]) == StatesIn(j);
    if r.state != [] {
      ForwardAgain([], moves, r.state);
      assert [] + [r.state] == [r.state];
    }
  }

  /** The history of a room's moves after a step. */
  lemma MovesStep(s: Sys, step: Step, s': Sys, key: Key)
    requires s'.h == HistNext(s.w, s.h, step, s'.w) && key in s'.w.rooms
    ensures key in s'.h.rooms
    ensures s'.h.rooms[key].moves == HistOf(s.h, key).moves + AcceptedMove(s.w, step, key)
  {
  }

  lemma StayLatest(cfg: Config, s: Sys, step: Step, s': Sys, key: Key)
    requires Tracked(s) && SysNext(cfg, s, step, s') && key in s.w.rooms && key in s'.w.rooms
    requires StateLatest(s.w.rooms[key], s.h.rooms[key].moves)
    ensures key in s'.h.rooms && StateLatest(s'.w.rooms[key], s'.h.rooms[key].moves)
  {
    hide Next, HistNext, IsAcceptedMove;
    MovesStep(s, step, s', key);
    StateStep(cfg, s.w, step, s'.w, key);
  }

  /** A log continued with nothing but the latest state. */
  lemma ReadOn(log: seq<ServerMessage>, moves: seq<Bytes>, state: Bytes, msgs: seq<ServerMessage>, news: seq<Bytes>, blob: Bytes)
    requires HasJoined(log) && Forward(Shown(log), moves)
    requires ShowsOnly(msgs, blob) && (blob == [] && news == [] ==> ShowsNothing(msgs))
    requires |news| <= 1 && (if news == [] then blob == state else blob == news[0])
    requires state == if moves == [] then [] else moves[|moves| - 1]
    ensures HasJoined(log + msgs) && Forward(Shown(log + msgs), moves + news)
    ensures news == [] && blob != [] && UpToDate(log, state) ==> UpToDate(log + msgs, blob)
    ensures |msgs| > 0 && msgs[0].StateUpdate? ==> UpToDate(log + msgs, blob)
  {
    hide Forward, HasJoined, SinceJoined, States, ShowsOnly, ShowsNothing;
    ShownMore(log, msgs, blob);
    ForwardGrows(Shown(log), moves, news);
    ForwardShown(Shown(log), moves + news, msgs, blob);
  }

  /** A session that was there before and after is shown nothing older than it saw. */
  lemma SessionReads(cfg: Config, s: Sys, step: Step, s': Sys, key: Key, c: ConnId)
    requires Tracked(s) && Owned(s.w) && SysNext(cfg, s, step, s') && key in s'.w.rooms && Reads(s, key)
    requires AttachedTo(s, c, key) && key in s.w.rooms && c !in s'.w.closed
    ensures HasJoined(s'.w.Log(c)) && key in s'.h.rooms && Forward(Shown(s'.w.Log(c)), s'.h.rooms[key].moves)
    ensures c in Conns(s.w.rooms[key].Members()) && s'.w.rooms[key].state != [] ==> UpToDate(s'.w.Log(c), s'.w.rooms[key].state)
  {
    hide Next, HistNext, IsAcceptedMove, OutboxOf, Owned, UpToDate, Forward, Shown, HasJoined, ShowsOnly, ShowsNothing;
    MovesStep(s, step, s', key);
    StateStep(cfg, s.w, step, s'.w, key);
    StepSends(cfg, s.w, step, s'.w);
    var msgs := Out(OutboxOf(s.w, cfg, step), c);
    assert Offered(c in s.w.closed, c in s'.w.closed, s.w.Log(c), s'.w.Log(c), msgs);
    hide Sends;
    var blob, news := s'.w.rooms[key].state, AcceptedMove(s.w, step, key);
    StepShows(cfg, s.w, step, s'.w, c, blob);
    ReadOn(s.w.Log(c), s.h.rooms[key].moves, s.w.rooms[key].state, msgs, news, blob);
  }

  lemma AdmitOutSelf(r: RoomState, h: HelloFields, k: ConnId, code: Bytes, id: u32, side: byte) returns (base: seq<ServerMessage>)
    ensures Out(AdmitOutbox(r, h, k, code, id, side), k) == base + [JoinedMessage(Seat(r, id, Newcomer(h, k, side)), code, id, side)]
  {
    base := Out(if id in Seat(r, id, Newcomer(h, k, side)).clients then Broadcast(r.clients, [PeerJoined(id, h.clientHash, h.displayName)]) else map[], k);
  }

  lemma FilledOutbox(cfg: Config, w: World, step: Step, w': World, e: Effect)
    requires Next(cfg, w, step, w') && e == EffectOf(w, cfg, step, w') && e.Filled? && step.conn !in w.sessions
    ensures e.key in w'.rooms && e.a.id.Some? && e.key == KeyOf(e.hello, e.a)
    ensures Sends(w, w', AdmitOutbox(e.r.(nextId := e.a.nextId), e.hello, step.conn, CodeOf(e.hello, e.a), e.a.id.value, e.a.side))
    ensures w'.rooms[e.key] == Seat(e.r.(nextId := e.a.nextId), e.a.id.value, Newcomer(e.hello, step.conn, e.a.side))
    ensures if e.key in w.rooms then e.r == w.rooms[e.key] else e.r.state == []
    ensures forall key :: !IsAcceptedMove(w, step, key)
  {
    hide Sends, Allocates, Refusal, IsNextSide, AdmitOutbox;
  }

  /** The session a step opens starts at the room's state. */
  lemma NewcomerReads(cfg: Config, s: Sys, step: Step, s': Sys, e: Effect)
    requires Tracked(s) && SysNext(cfg, s, step, s') && e == EffectOf(s.w, cfg, step, s'.w) && e.Filled?
    requires step.Message? && step.conn !in s.w.sessions
    requires Reads(s, e.key)
    ensures e.key in s'.w.rooms && e.key in s'.h.rooms && StateLatest(s'.w.rooms[e.key], s'.h.rooms[e.key].moves)
    ensures step.conn !in s'.w.closed ==>
              && HasJoined(s'.w.Log(step.conn)) && Forward(Shown(s'.w.Log(step.conn)), s'.h.rooms[e.key].moves)
              && (s'.w.rooms[e.key].state != [] ==> UpToDate(s'.w.Log(step.conn), s'.w.rooms[e.key].state))
  {
    hide Next, EffectOf, HistNext, UpToDate, Forward, Shown, HasJoined, IsAcceptedMove, AdmitOutbox;
    FilledOutbox(cfg, s.w, step, s'.w, e);
    MovesStep(s, step, s', e.key);
    var c, r1, code, id := step.conn, e.r.(nextId := e.a.nextId), CodeOf(e.hello, e.a), e.a.id.value;
    assert StateLatest(s'.w.rooms[e.key], s'.h.rooms[e.key].moves);
    var out := AdmitOutbox(r1, e.hello, c, code, id, e.a.side);
    assert Offered(c in s.w.closed, c in s'.w.closed, s.w.Log(c), s'.w.Log(c), Out(out, c));
    hide Sends, StateLatest;
    var base := AdmitOutSelf(r1, e.hello, c, code, id, e.a.side);
    JoinedAnew(s.w.Log(c), base, s'.w.rooms[e.key], code, id, e.a.side, s'.h.rooms[e.key].moves);
  }

  lemma NextReads(cfg: Config, s: Sys, step: Step, s': Sys, key: Key)
    requires IdsOk(s) && Owned(s.w) && Owned(s'.w) && IdsOk(s') && SysNext(cfg, s, step, s') && AllRead(s)
    ensures Reads(s', key)
  {
    hide Next, HistNext, Owned, Evolves, Welcomes, UpToDate, Forward, Shown, HasJoined, RoomCounted, EffectOf;
    if key in s'.w.rooms && key in s'.h.rooms {
      var e := EffectOf(s.w, cfg, step, s'.w);
      StepEffect(cfg, s.w, step, s'.w);
      assert Reads(s, key);
      JoinsCount(s, step, e, s', key);
      var joins := e.Filled? && e.key == key;
      if joins {
        NewcomerReads(cfg, s, step, s', e);
      } else {
        StepSeats(s.w, step, e, s'.w, key);
        StayLatest(cfg, s, step, s', key);
      }
      forall c | AttachedTo(s', c, key) && c !in s'.w.closed && !(joins && c == step.conn)
        ensures HasJoined(s'.w.Log(c)) && Forward(Shown(s'.w.Log(c)), s'.h.rooms[key].moves)
        ensures c in Conns(s.w.rooms[key].Members()) && s'.w.rooms[key].state != [] ==> UpToDate(s'.w.Log(c), s'.w.rooms[key].state)
      {
        SessionReads(cfg, s, step, s', key, c);
      }
      forall c | c in Conns(s'.w.rooms[key].Members())
        ensures AttachedTo(s', c, key) && ((joins && c == step.conn) || (key in s.w.rooms && c in Conns(s.w.rooms[key].Members())))
      {
        MemberAttached(s, step, e, s', key, c);
      }
    }
  }

  lemma MemberAttached(s: Sys, step: Step, e: Effect, s': Sys, key: Key, c: ConnId)
    requires IdsOk(s) && IdsOk(s') && Owned(s'.w) && Takes(s.w, step, e, s'.w)
    requires key in s'.w.rooms && c in Conns(s'.w.rooms[key].Members())
    ensures AttachedTo(s', c, key)
    ensures (e.Filled? && e.key == key && c == step.conn) || (key in s.w.rooms && c in Conns(s.w.rooms[key].Members()))
  {
    hide Evolves, Welcomes, RoomCounted, Takes;
    var p :| p in s'.w.rooms[key].Members() && s'.w.rooms[key].Members()[p].conn == c;
    assert s'.w.sessions[c] == Session(key, p);
    hide Owned, IdsOk;
    MemberBefore(s.w, step, e, s'.w, key, p);
  }

  lemma MemberBefore(w: World, step: Step, e: Effect, w': World, key: Key, p: u32)
    requires Takes(w, step, e, w') && key in w'.rooms && p in w'.rooms[key].Members()
    ensures var c := w'.rooms[key].Members()[p].conn;
            (e.Filled? && e.key == key && c == step.conn) || (key in w.rooms && c in Conns(w.rooms[key].Members()))
  {
    hide Evolves, Welcomes;
    if e.Filled? && e.key == key {
      WelcomedMembers(e.r, e.hello, step.conn, e.a, w'.rooms[key]);
    } else {
      StepSeats(w, step, e, w', key);
    }
  }

  lemma StartReads()
    ensures AllRead(START)
  {
  }

  lemma {:induction false} RunReads(cfg: Config, run: seq<Sys>, steps: seq<Step>, i: nat)
    requires IsRun(cfg, run, steps) && i < |run|
    ensures AllRead(run[i])
  {
    hide SysNext, Owned, IdsOk, Reads;
    if i == 0 {
      StartReads();
    } else {
      RunReads(cfg, run, steps, i - 1);
      RunOwned(cfg, run, steps, i - 1);
      RunIds(cfg, run, steps, i - 1);
      RunOwned(cfg, run, steps, i);
      RunIds(cfg, run, steps, i);
      assert SysNext(cfg, run[i - 1], steps[i - 1], run[i]);
      forall key
        ensures Reads(run[i], key)
      {
        NextReads(cfg, run[i - 1], steps[i - 1], run[i], key);
      }
    }
  }

  /**
   * Monotone reads: a room's state is its last accepted move, and whatever part of what an open
   * session was sent since it joined reaches it, the states in it read forward through the moves.
   */
  lemma MonotoneReads(cfg: Config, run: seq<Sys>, steps: seq<Step>, i: nat, c: ConnId, got: seq<ServerMessage>)
    requires IsRun(cfg, run, steps) && i < |run|
    requires c in run[i].h.attached && c !in run[i].w.closed
    requires Subsequence(got, SinceJoined(run[i].w.Log(c)))
    ensures HasRoom(run[i].w, c) && run[i].w.sessions[c].key in run[i].h.rooms
    ensures var key := run[i].w.sessions[c].key;
            StateLatest(run[i].w.rooms[key], run[i].h.rooms[key].moves) && Forward(States(got), run[i].h.rooms[key].moves)
  {
    RunReads(cfg, run, steps, i);
    RunIds(cfg, run, steps, i);
    RunOwned(cfg, run, steps, i);
    var key := run[i].w.sessions[c].key;
    assert Reads(run[i], key) && AttachedTo(run[i], c, key);
    SubStates(got, SinceJoined(run[i].w.Log(c)));
    ForwardSub(States(got), Shown(run[i].w.Log(c)), run[i].h.rooms[key].moves);
  }

  /** Up to date: the latest state sent to an open member since it joined is the room's, unless that is empty. */
  lemma MembersUpToDate(cfg: Config, run: seq<Sys>, steps: seq<Step>, i: nat, key: Key, p: u32)
    requires IsRun(cfg, run, steps) && i < |run|
    requires key in run[i].w.rooms && p in run[i].w.rooms[key].Members()
    requires run[i].w.rooms[key].Members()[p].conn !in run[i].w.closed && run[i].w.rooms[key].state != []
    ensures UpToDate(run[i].w.Log(run[i].w.rooms[key].Members()[p].conn), run[i].w.rooms[key].state)
  {
    RunReads(cfg, run, steps, i);
    RunOwned(cfg, run, steps, i);
    assert Reads(run[i], key);
    assert run[i].w.rooms[key].Members()[p].conn in Conns(run[i].w.rooms[key].Members());
  }
}
