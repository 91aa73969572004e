/** What a step can do to one room, in the terms the identity and seating theorems need. */
module Steps {
  import opened Types
  import opened RoomModel
  import opened ServerModel
  import opened Ownership

  /** A room changed without anyone joining: members may go, none arrives or changes seat. */
  ghost predicate Evolves(r: RoomState, r': RoomState) {
    && RoomOk(r')
    && Within(r'.Members(), r.Members())
    && (r'.host == r.host || r'.host == 0 || r'.host in r.Members())
    && (r'.nextId == r.nextId || (r'.nextId == SaturatingInc(r.nextId) && Taken(r, 1, U32_MAX + 1) && r.InUse(r.nextId)))
  }

  /** A room took a newcomer in, under the id allocated and in the slot found. */
  ghost predicate Welcomes(r: RoomState, h: HelloFields, k: ConnId, a: AdmitTrace, r': RoomState) {
    && RoomOk(r) && Refusal(r, h) == None
    && a.id.Some? && Allocates(r, a.id, a.nextId)
    && IsNextSide(r, a.side)
    && r' == Seat(r.(nextId := a.nextId), a.id.value, Newcomer(h, k, a.side))
  }

  lemma PrunesEvolves(r: RoomState, closed: set<ConnId>, t: PruneTrace, r': RoomState, closed': set<ConnId>)
    requires RoomOk(r) && (Prunes(r, closed, t, r', closed') || PrunesState(r, closed, t, r', closed'))
    ensures Evolves(r, r') && r'.nextId == r.nextId
  {
    PrunesShrinks(r, closed, t, r', closed');
  }

  lemma CommandEvolves(r: RoomState, c: Control, closed: set<ConnId>, t: PruneTrace, r': RoomState, closed': set<ConnId>)
    requires RoomOk(r) && Command(r, c).Some? && Executes(Command(r, c).value, closed, t, r', closed')
    ensures Evolves(r, r')
  {
    CommandShrinks(r, c);
    var plan := Command(r, c).value;
    assert plan.room.nextId == r.nextId && (plan.room.host == r.host || plan.room.host in r.Members());
    if plan.say.Some? {
      PrunesEvolves(plan.room, closed, t, r', closed');
    }
  }

  lemma LeavesEvolves(r: RoomState, id: u32, closed: set<ConnId>, lt: LeaveTrace, r': RoomState, closed': set<ConnId>)
    requires RoomOk(r) && Leaves(r, id, closed, lt, r', closed')
    ensures Evolves(r, r')
  {
    hide Prunes, PrunesState, Taken;
    PrunesEvolves(Without(r, id), closed, lt.first, lt.mid, lt.midClosed);
    if lt.elected.Some? {
      PrunesEvolves(lt.mid.(host := lt.elected.value), lt.midClosed, lt.second, r', closed');
    }
  }

  lemma AdmitsEvolves(w: World, cfg: Config, k: ConnId, h: HelloFields, a: AdmitTrace, key: Key, r: RoomState, w': World)
    requires Owned(w) && k !in w.sessions && Admits(w, cfg, k, h, a, key, r, w')
    ensures if k in w'.sessions then
              && w'.sessions == w.sessions[k := Session(key, a.id.value)]
              && w'.rooms == w.rooms[key := w'.rooms[key]] && Welcomes(r, h, k, a, w'.rooms[key])
            else
              && w'.sessions == w.sessions && key in w.rooms
              && w'.rooms == w.rooms[key := w'.rooms[key]] && Evolves(r, w'.rooms[key])
  {
    if h.roomCode == [] {
      FreshRoomAdmits(r, h, a.id, a.nextId);
    }
    assert RoomOk(r);
  }

  /** Everything a step can do: nothing to the rooms, one room evolves, one is left, or one is joined. */
  datatype Effect =
    | Nothing
    | Changed(key: Key)
    | Vacated(key: Key, after: RoomState)
    | Filled(key: Key, r: RoomState, hello: HelloFields, a: AdmitTrace)

  ghost predicate Takes(w: World, step: Step, e: Effect, w': World) {
    match e
    case Nothing =>
      w'.rooms == w.rooms && (w'.sessions == w.sessions || (step.Departure? && w'.sessions == w.sessions - {step.conn} && step.conn in w.sessions))
    case Changed(key) =>
      && key in w.rooms && key in w'.rooms && step.Message? && w'.sessions == w.sessions
      && w'.rooms == w.rooms[key := w'.rooms[key]] && Evolves(w.rooms[key], w'.rooms[key])
    case Vacated(key, r') =>
      && key in w.rooms && step.Departure? && step.conn in w.sessions && w.sessions[step.conn].key == key
      && w'.sessions == w.sessions - {step.conn}
      && Evolves(w.rooms[key], r') && w.sessions[step.conn].peer !in r'.Members()
      && w'.rooms == (if r'.Empty() then w.rooms - {key} else w.rooms[key := r'])
    case Filled(key, r, h, a) =>
      && step.Message? && step.conn !in w.sessions && key in w'.rooms && a.id.Some?
      && (if key in w.rooms then r == w.rooms[key] else r.Empty() && r.host == 0 && r.nextId == 1 && r.state == [] && r.settings.password == None)
      && Welcomes(r, h, step.conn, a, w'.rooms[key])
      && w'.rooms == w.rooms[key := w'.rooms[key]]
      && w'.sessions == w.sessions[step.conn := Session(key, a.id.value)]
  }

  ghost function EffectOf(w: World, cfg: Config, step: Step, w': World): Effect {
    match step
    case Closing(_) => Nothing
    case Departure(k, _, after) => if HasRoom(w, k) then Vacated(w.sessions[k].key, after) else Nothing
    case Message(k, msg, tr) =>
      if Answer(w, cfg, k, msg, tr).Some? then Nothing
      else if msg.Hello? && tr.Admission? then
        var key := KeyOf(msg.hello, tr.a);
        if k in w'.sessions then Filled(key, tr.entered, msg.hello, tr.a) else Changed(key)
      else if k in w.sessions then Changed(w.sessions[k].key)
      else Nothing
  }

  lemma DepartEffect(w: World, k: ConnId, lt: LeaveTrace, r': RoomState, w': World)
    requires Owned(w) && Departs(w, k, lt, r', w') && HasRoom(w, k)
    ensures Evolves(w.rooms[w.sessions[k].key], r') && w.sessions[k].peer !in r'.Members()
  {
    hide Sends;
    var s := w.sessions[k];
    LeavesEvolves(w.rooms[s.key], s.peer, w.closed, lt, r', w'.closed);
    LeavesShrinks(w.rooms[s.key], s.peer, w.closed, lt, r', w'.closed);
  }

  lemma ActEffect(w: World, cfg: Config, k: ConnId, msg: ClientMessage, tr: Trace, w': World)
    requires Owned(w) && Acts(w, cfg, k, msg, tr, w') && !msg.Hello?
    ensures HasRoom(w, k) && w'.sessions == w.sessions
    ensures var key := w.sessions[k].key;
            key in w'.rooms && w'.rooms == w.rooms[key := w'.rooms[key]] && Evolves(w.rooms[key], w'.rooms[key])
  {
    hide Sends;
    var key := w.sessions[k].key;
    assert RoomOk(w.rooms[key]);
    match msg
    case Move(blob) => PrunesEvolves(w.rooms[key].(state := blob), w.closed, tr.t, tr.after, w'.closed);
    case Input(_) =>
    case RoomControl(c) => CommandEvolves(w.rooms[key], c, w.closed, tr.t, tr.after, w'.closed);
  }

  lemma StepEffect(cfg: Config, w: World, step: Step, w': World)
    requires Owned(w) && Next(cfg, w, step, w')
    ensures Takes(w, step, EffectOf(w, cfg, step, w'), w')
  {
    hide Sends, Owned, Evolves, Welcomes, Leaves, Acts;
    match step
    case Closing(_) =>
    case Departure(k, lt, after) =>
      if HasRoom(w, k) {
        DepartEffect(w, k, lt, after, w');
      }
    case Message(k, msg, tr) =>
      if Answer(w, cfg, k, msg, tr) == None {
        if msg.Hello? {
          HelloEffect(w, cfg, k, msg.hello, tr, w');
        } else {
          ActEffect(w, cfg, k, msg, tr, w');
        }
      }
  }

  /** Whoever sits in a room after a step sat there before, or is the newcomer. */
  lemma StepSeats(w: World, step: Step, e: Effect, w': World, key: Key)
    requires Takes(w, step, e, w') && key in w'.rooms && !(e.Filled? && e.key == key)
    ensures key in w.rooms && Within(w'.rooms[key].Members(), w.rooms[key].Members())
  {
  }

  lemma HelloEffect(w: World, cfg: Config, k: ConnId, h: HelloFields, tr: Trace, w': World)
    requires Owned(w) && Acts(w, cfg, k, Hello(h), tr, w') && k !in w.sessions
    ensures tr.Admission?
    ensures Takes(w, Message(k, Hello(h), tr),
                  if k in w'.sessions then Filled(KeyOf(h, tr.a), tr.entered, h, tr.a) else Changed(KeyOf(h, tr.a)), w')
  {
    hide Sends, Owned, Evolves;
    AdmitsEvolves(w, cfg, k, h, tr.a, KeyOf(h, tr.a), tr.entered, w');
  }

  /** Everything a step says, and to whom. */
  ghost function OutboxOf(w: World, cfg: Config, step: Step): Outbox {
    match step
    case Closing(_) => map[]
    case Departure(k, lt, _) =>
      if HasRoom(w, k) then
        var s := w.sessions[k];
        Broadcast(Without(w.rooms[s.key], s.peer).clients, LeaveScript(s.peer, lt))
      else map[]
    case Message(k, msg, tr) =>
      var answer := Answer(w, cfg, k, msg, tr);
      if answer.Some? then map[k := answer.value] else ActOutbox(w, k, msg, tr)
  }

  ghost function HelloOutbox(k: ConnId, h: HelloFields, a: AdmitTrace, r: RoomState): Outbox {
    if Refusal(r, h).Some? then map[k := [Error(Refusal(r, h).value)]]
    else if a.id == None then map[k := [Error(Text("room full"))]]
    else AdmitOutbox(r.(nextId := a.nextId), h, k, CodeOf(h, a), a.id.value, a.side)
  }

  ghost function ActOutbox(w: World, k: ConnId, msg: ClientMessage, tr: Trace): Outbox {
    if msg.Hello? then
      if tr.Admission? then HelloOutbox(k, msg.hello, tr.a, tr.entered) else map[]
    else if !HasRoom(w, k) then map[]
    else
      var s := w.sessions[k];
      var r := w.rooms[s.key];
      match msg
      case Move(blob) => if tr.Pruning? then Reply(StateOutbox(r.(state := blob), tr.t), k, [MoveAccepted]) else map[]
      case Input(blob) => InputOutbox(r, s.peer, blob)
      case RoomControl(c) => if Command(r, c).Some? && tr.Pruning? then PlanOutbox(Command(r, c).value, tr.t) else map[]
      case _ => map[]
  }

  lemma StepSends(cfg: Config, w: World, step: Step, w': World)
    requires Next(cfg, w, step, w')
    ensures Sends(w, w', OutboxOf(w, cfg, step))
  {
    if step.Message? && Answer(w, cfg, step.conn, step.msg, step.trace) == None {
      hide Sends, Answer, Executes, PrunesState, Refusal, Allocates;
    } else {
      hide Answer, Leaves;
    }
  }

  // ---------- What pruning leaves alone ----------

  /** Only the membership and the lead differ. */
  ghost predicate SameFixtures(r: RoomState, r': RoomState) { r'.state == r.state && r'.settings == r.settings && r'.banned == r.banned }

  lemma PrunesFixtures(r: RoomState, closed: set<ConnId>, t: PruneTrace, r': RoomState, closed': set<ConnId>)
    requires Prunes(r, closed, t, r', closed') || PrunesState(r, closed, t, r', closed')
    ensures SameFixtures(r, r')
  {
  }

  lemma LeavesFixtures(r: RoomState, id: u32, closed: set<ConnId>, lt: LeaveTrace, r': RoomState, closed': set<ConnId>)
    requires Leaves(r, id, closed, lt, r', closed')
    ensures SameFixtures(r, r')
  {
    hide Prunes, PrunesState;
    PrunesFixtures(Without(r, id), closed, lt.first, lt.mid, lt.midClosed);
    if lt.elected.Some? {
      PrunesFixtures(lt.mid.(host := lt.elected.value), lt.midClosed, lt.second, r', closed');
    }
  }

  lemma CommandFixtures(r: RoomState, c: Control, closed: set<ConnId>, t: PruneTrace, r': RoomState, closed': set<ConnId>)
    requires Command(r, c).Some? && Executes(Command(r, c).value, closed, t, r', closed')
    ensures SameFixtures(Command(r, c).value.room, r') && r'.state == r.state
    ensures !c.UpdateSettings? ==> r'.settings.acceptRequired == r.settings.acceptRequired
    ensures c.UpdateSettings? ==> r'.settings == c.settings
  {
    hide Prunes, PrunesState;
    var plan := Command(r, c).value;
    if plan.say.Some? {
      PrunesFixtures(plan.room, closed, t, r', closed');
    }
  }
}
