/**
 * What clients believe against what the server holds. While channels close only between messages,
 * every open client of a room knows its own id, names the server's leader (unless it ever had to
 * wait for acceptance), and lists exactly the clients admitted after it.
 */
module Agreement {
  import opened Types
  import opened RoomModel
  import opened ServerModel
  import opened Ownership
  import opened Runs
  import opened Views

  // ---------- Admission order ----------

  /** Those listed after `p`. */
  ghost function After(s: seq<u32>, p: u32): set<u32> {
    if s == [] then {} else if s[0] == p then Ids(s[1..]) else After(s[1..], p)
  }

  lemma {:induction false} KeepElems(s: seq<u32>, ids: set<u32>)
    ensures Ids(Keep(s, ids)) == Ids(s) * ids
    ensures NoDup(s) ==> NoDup(Keep(s, ids))
  {
    if s != [] {
      KeepElems(s[1..], ids);
      var rest := Keep(s[1..], ids);
      assert Ids(s) == {s[0]} + Ids(s[1..]);
      assert Ids([s[0]] + rest) == {s[0]} + Ids(rest);
      assert [] + rest == rest;
      if NoDup(s) {
        assert s[0] !in s[1..];
        assert s[0] !in Ids(rest);
        assert NoDup(s[1..]);
        ConsNoDup(s[0], rest);
      }
    }
  }

  lemma ConsNoDup(p: u32, s: seq<u32>)
    requires NoDup(s) && p !in s
    ensures NoDup([p] + s)
  {
  }

  lemma {:induction false} AfterKeep(s: seq<u32>, ids: set<u32>, p: u32)
    requires p in ids
    ensures After(Keep(s, ids), p) == After(s, p) * ids
  {
    if s != [] {
      var rest := Keep(s[1..], ids);
      AfterKeep(s[1..], ids, p);
      KeepElems(s[1..], ids);
      assert ([s[0]] + rest)[1..] == rest;
      assert [] + rest == rest;
    }
  }

  lemma {:induction false} AfterAppend(s: seq<u32>, t: seq<u32>, p: u32)
    ensures After(s + t, p) == if p in s then After(s, p) + Ids(t) else After(t, p)
  {
    if s == [] {
      assert s + t == t;
    } else {
      assert (s + t)[1..] == s[1..] + t;
      AfterAppend(s[1..], t, p);
      assert Ids(s[1..] + t) == Ids(s[1..]) + Ids(t);
    }
  }

  // ---------- What the members of one room know ----------

  ghost predicate Open(w: World, i: ClientInfo) { i.conn !in w.closed }

  ghost function Sees(w: World, i: ClientInfo): View { ViewOf(w.Log(i.conn)) }

  ghost predicate Informed(w: World, r: RoomState, rh: RoomHist) {
    && NoDup(rh.order) && Ids(rh.order) == r.clients.Keys
    && r.pending.Keys <= rh.waited
    && (forall p :: p in r.clients && Open(w, r.clients[p]) ==>
          && Sees(w, r.clients[p]).peer == p
          && Sees(w, r.clients[p]).roster == After(rh.order, p)
          && (p !in rh.waited ==> Sees(w, r.clients[p]).host == r.host))
    && (forall p :: p in r.pending && Open(w, r.pending[p]) ==>
          Sees(w, r.pending[p]).peer == p && Sees(w, r.pending[p]).roster == {})
  }

  /** How the view of a client must move from `v` to `v'` when its room goes from `r` to `r'`. */
  ghost predicate Follows(r: RoomState, r': RoomState, p: u32, v: View, v': View) {
    if p in r.clients then
      v.peer == p && v.roster <= r.clients.Keys ==>
        && v'.peer == p
        && v'.roster == (v.roster * r'.clients.Keys) + (r'.clients.Keys - r.clients.Keys)
        && (v.host == r.host ==> v'.host == r'.host)
    else if p in r.pending then
      v.peer == p && v.roster == {} ==> v'.peer == p && v'.roster == {}
    else v' == View(p, r'.host, {})
  }

  ghost predicate ClientTold(w: World, r: RoomState, w': World, r': RoomState, p: u32)
    requires p in r'.clients
  {
    var i := r'.clients[p];
    && (p in r.clients ==> i == r.clients[p] && Open(w, i))
    && (p !in r.clients && p in r.pending ==> i == r.pending[p] && Open(w, i))
    && Follows(r, r', p, Sees(w, i), Sees(w', i))
  }

  ghost predicate WaiterTold(w: World, r: RoomState, w': World, r': RoomState, p: u32)
    requires p in r'.pending
  {
    var i := r'.pending[p];
    if p in r.pending then i == r.pending[p] && Open(w, i) && Sees(w', i) == Sees(w, i)
    else Sees(w', i) == View(p, r'.host, {})
  }

  /** The membership grew by at most one client, and no client went back to waiting. */
  ghost predicate Grows(r: RoomState, r': RoomState) {
    && (forall p, q :: p in r'.clients && q in r'.clients && p !in r.clients && q !in r.clients ==> p == q)
    && r.clients.Keys !! r'.pending.Keys
  }

  ghost predicate Told(w: World, r: RoomState, w': World, r': RoomState) {
    && (forall p :: p in r'.clients && Open(w', r'.clients[p]) ==> ClientTold(w, r, w', r', p))
    && (forall p :: p in r'.pending && Open(w', r'.pending[p]) ==> WaiterTold(w, r, w', r', p))
    && Grows(r, r')
  }

  lemma {:induction false} AfterWithin(s: seq<u32>, p: u32)
    ensures After(s, p) <= Ids(s)
  {
    if s != [] {
      AfterWithin(s[1..], p);
      assert Ids(s) == {s[0]} + Ids(s[1..]);
    }
  }

  /** The admission order after the clients went from `before` to `after` with at most one newcomer. */
  lemma OrderNext(order: seq<u32>, before: set<u32>, after: set<u32>, order': seq<u32>, p: u32)
    requires NoDup(order) && Ids(order) == before
    requires forall q, q' :: q in after - before && q' in after - before ==> q == q'
    requires order' == Keep(order, after) + AnyOf(after - before)
    requires p in after
    ensures NoDup(order') && Ids(order') == after
    ensures After(order', p) == if p in before then (After(order, p) * after) + (after - before) else {}
    ensures After(order, p) <= before
  {
    var kept, last := Keep(order, after), AnyOf(after - before);
    KeepElems(order, after);
    assert Ids(last) == after - before;
    assert Ids(kept + last) == Ids(kept) + Ids(last);
    AfterAppend(kept, last, p);
    AfterKeep(order, after, p);
    AfterWithin(order, p);
    assert p in kept <==> p in Ids(kept);
  }

  lemma OrderShape(order: seq<u32>, before: set<u32>, after: set<u32>, order': seq<u32>)
    requires NoDup(order) && Ids(order) == before
    requires forall q, q' :: q in after - before && q' in after - before ==> q == q'
    requires order' == Keep(order, after) + AnyOf(after - before)
    ensures NoDup(order') && Ids(order') == after
  {
    KeepElems(order, after);
    assert Ids(AnyOf(after - before)) == after - before;
    assert Ids(order') == Ids(Keep(order, after)) + Ids(AnyOf(after - before));
  }

  lemma ToldInforms(w: World, r: RoomState, rh: RoomHist, w': World, r': RoomState, rh': RoomHist)
    requires RoomOk(r) && RoomOk(r')
    requires Informed(w, r, rh) && Told(w, r, w', r')
    requires rh'.order == Keep(rh.order, r'.clients.Keys) + AnyOf(r'.clients.Keys - r.clients.Keys)
    requires rh'.waited == (rh.waited * r'.Members().Keys) + r'.pending.Keys
    ensures Informed(w', r', rh')
  {
    OrderShape(rh.order, r.clients.Keys, r'.clients.Keys, rh'.order);
    forall p | p in r'.clients && Open(w', r'.clients[p])
      ensures Sees(w', r'.clients[p]).peer == p
      ensures Sees(w', r'.clients[p]).roster == After(rh'.order, p)
      ensures p !in rh'.waited ==> Sees(w', r'.clients[p]).host == r'.host
    {
      OrderNext(rh.order, r.clients.Keys, r'.clients.Keys, rh'.order, p);
    }
  }

  // ---------- Each kind of step tells the members what they need ----------

  lemma OpenHears(w: World, w': World, out: Outbox, c: ConnId)
    requires Sends(w, w', out) && c !in w'.closed
    ensures ViewOf(w'.Log(c)) == HearAll(ViewOf(w.Log(c)), Out(out, c))
    ensures AllChatter(Out(out, c)) ==> ViewOf(w'.Log(c)) == ViewOf(w.Log(c))
  {
    assert Offered(c in w.closed, c in w'.closed, w.Log(c), w'.Log(c), Out(out, c));
    HearConcat(NOTHING, w.Log(c), Out(out, c));
    if AllChatter(Out(out, c)) {
      HearChatter(ViewOf(w.Log(c)), Out(out, c));
    }
  }

  lemma UntouchedTold(w: World, w': World, out: Outbox, r: RoomState, r': RoomState)
    requires Sends(w, w', out) && RoomOk(r)
    requires r'.clients == r.clients && r'.pending == r.pending && r'.host == r.host
    requires forall p :: p in r.Members() ==> AllChatter(Out(out, r.Members()[p].conn))
    ensures Told(w, r, w', r')
  {
    forall p | p in r.Members() && Open(w', r.Members()[p])
      ensures Open(w, r.Members()[p])
      ensures Sees(w', r.Members()[p]) == Sees(w, r.Members()[p])
    {
      OpenHears(w, w', out, r.Members()[p].conn);
    }
    assert forall p :: p in r.clients ==> r.Members()[p] == r.clients[p];
    assert forall p :: p in r.pending ==> r.Members()[p] == r.pending[p];
  }

  /** How hearing `msg` turns a view of the clients `before` into one of the clients `now`. */
  ghost predicate Carries(v: View, msg: ServerMessage, before: set<u32>, now: set<u32>) {
    Hear(v, msg).peer == v.peer && Hear(v, msg).roster == (v.roster * now) + (now - before)
  }

  lemma PruneCarries(v: View, msg: ServerMessage, before: set<u32>, r: RoomState, closed: set<ConnId>, t: PruneTrace, r': RoomState)
    requires Prunes(r, closed, t, r', closed) || PrunesState(r, closed, t, r', closed)
    requires RoomOk(r) && Carries(v, msg, before, r.clients.Keys) && r'.clients != map[]
    ensures var v' := HearAll(v, PruneScript(msg, t));
            && v'.peer == v.peer
            && v'.roster == (v.roster * r'.clients.Keys) + (r'.clients.Keys - before)
            && (Hear(v, msg).host == r.host ==> v'.host == r'.host)
  {
    HearPrune(v, msg, t);
    forall p | p in t.Gone()
      ensures p in t.announced
    {
      assert p in r.Members() && (p in r.clients ==> r.Members()[p] == r.clients[p]);
    }
    assert r'.clients.Keys == r.clients.Keys - set p | p in t.announced;
  }

  lemma CommandCarries(r: RoomState, c: Control, v: View)
    requires RoomOk(r) && Command(r, c).Some? && Command(r, c).value.say.Some?
    requires v.roster <= r.clients.Keys
    requires v.peer in r.clients || (v.peer in r.pending && v.roster == {})
    ensures var plan := Command(r, c).value;
            && (v.peer in r.clients && v.peer in plan.room.clients ==>
                  && Carries(v, plan.say.value, r.clients.Keys, plan.room.clients.Keys)
                  && (v.host == r.host ==> Hear(v, plan.say.value).host == plan.room.host))
            && (v.peer !in r.clients && v.peer in plan.room.clients ==>
                  Carries(v, plan.say.value, plan.room.clients.Keys, plan.room.clients.Keys))
  {
  }

  /** A member's channel belongs to a session of that room, and to no other member. */
  lemma MemberConn(w: World, key: Key, p: u32)
    requires Owned(w) && key in w.rooms && p in w.rooms[key].Members()
    ensures var c := w.rooms[key].Members()[p].conn; c in w.sessions && w.sessions[c] == Session(key, p)
    ensures var r := w.rooms[key]; r.Members()[p] == if p in r.clients then r.clients[p] else r.pending[p]
  {
    assert RoomOk(w.rooms[key]);
  }

  lemma CommandOutbox(w: World, key: Key, c: Control, t: PruneTrace, p: u32)
    requires Owned(w) && key in w.rooms && Command(w.rooms[key], c).Some?
    requires p in Command(w.rooms[key], c).value.room.Members()
    ensures var plan := Command(w.rooms[key], c).value;
            p in w.rooms[key].Members() &&
            Out(PlanOutbox(plan, t), w.rooms[key].Members()[p].conn) ==
            if plan.say.Some? && p in plan.room.clients then PruneScript(plan.say.value, t) else []
  {
    var r, plan := w.rooms[key], Command(w.rooms[key], c).value;
    OwnedDistinct(w, key);
    OwnedOk(w, key);
    hide Owned, PruneScript, Command;
    CommandShrinks(r, c);
    CommandDistinct(r, c);
    NoticesElsewhere(r, c, p);
    ClientByConn(plan.room, p);
    hide Conns, RoomOk, DistinctConns;
  }

  /** Private notices go to whoever was removed. */
  lemma NoticesElsewhere(r: RoomState, c: Control, p: u32)
    requires DistinctConns(r) && Command(r, c).Some? && p in r.Members() && p in Command(r, c).value.room.Members()
    ensures r.Members()[p].conn !in Command(r, c).value.notices
  {
    assert forall q :: q in r.clients ==> r.Members()[q] == r.clients[q];
    assert forall q :: q in r.pending ==> r.Members()[q] == r.pending[q];
  }

  lemma ClientByConn(r: RoomState, p: u32)
    requires DistinctConns(r) && p in r.Members()
    ensures r.Members()[p].conn in Conns(r.clients) <==> p in r.clients
  {
    assert forall q :: q in r.clients ==> r.Members()[q] == r.clients[q];
  }

  lemma CommandGrows(r: RoomState, c: Control, closed: set<ConnId>, t: PruneTrace, r': RoomState, closed': set<ConnId>)
    requires RoomOk(r) && Command(r, c).Some? && Executes(Command(r, c).value, closed, t, r', closed')
    ensures RoomOk(r') && Grows(r, r') && Within(r'.Members(), r.Members())
    ensures var plan := Command(r, c).value;
            && Within(r'.clients, plan.room.clients) && Within(r'.pending, plan.room.pending)
            && Within(r'.Members(), plan.room.Members()) && plan.room.clients.Keys !! plan.room.pending.Keys
  {
    CommandShrinks(r, c);
    var plan := Command(r, c).value;
    CommandOrder(r, c);
    hide Command;
    if plan.say.Some? {
      PrunesShrinks(plan.room, closed, t, r', closed');
    }
  }

  lemma CommandOrder(r: RoomState, c: Control)
    requires RoomOk(r) && Command(r, c).Some?
    ensures Grows(r, Command(r, c).value.room)
  {
  }

  lemma CommandClientTold(w: World, r: RoomState, c: Control, t: PruneTrace, r': RoomState, w': World, p: u32)
    requires RoomOk(r) && Command(r, c).Some? && Executes(Command(r, c).value, w.closed, t, r', w.closed)
    requires p in r'.clients && Open(w, r'.clients[p])
    requires Sees(w', r'.clients[p]) ==
             HearAll(Sees(w, r'.clients[p]), if Command(r, c).value.say.Some? then PruneScript(Command(r, c).value.say.value, t) else [])
    ensures ClientTold(w, r, w', r', p)
  {
    CommandGrows(r, c, w.closed, t, r', w.closed);
    CommandFollows(r, c, w.closed, t, r', Sees(w, r'.clients[p]), p);
  }

  lemma CommandHeard(w: World, key: Key, c: Control, t: PruneTrace, r': RoomState, w': World, p: u32)
    requires Owned(w) && key in w.rooms && Command(w.rooms[key], c).Some? && w'.closed == w.closed
    requires Sends(w, w', PlanOutbox(Command(w.rooms[key], c).value, t))
    requires p in r'.Members() && Within(r'.Members(), Command(w.rooms[key], c).value.room.Members()) && Open(w', r'.Members()[p])
    ensures var plan := Command(w.rooms[key], c).value;
            Sees(w', r'.Members()[p]) == HearAll(Sees(w, r'.Members()[p]),
              if plan.say.Some? && p in plan.room.clients then PruneScript(plan.say.value, t) else [])
  {
    CommandOutbox(w, key, c, t, p);
    CommandShrinks(w.rooms[key], c);
    OpenHears(w, w', PlanOutbox(Command(w.rooms[key], c).value, t), r'.Members()[p].conn);
  }

  lemma CommandTold(w: World, key: Key, c: Control, t: PruneTrace, r': RoomState, w': World)
    requires Owned(w) && key in w.rooms && Command(w.rooms[key], c).Some? && w'.closed == w.closed
    requires Executes(Command(w.rooms[key], c).value, w.closed, t, r', w.closed)
    requires Sends(w, w', PlanOutbox(Command(w.rooms[key], c).value, t))
    ensures Told(w, w.rooms[key], w', r')
  {
    CommandGrows(w.rooms[key], c, w.closed, t, r', w'.closed);
    forall p | p in r'.clients && Open(w', r'.clients[p])
      ensures ClientTold(w, w.rooms[key], w', r', p)
    {
      CommandHeard(w, key, c, t, r', w', p);
      CommandClientTold(w, w.rooms[key], c, t, r', w', p);
    }
    forall p | p in r'.pending && Open(w', r'.pending[p])
      ensures WaiterTold(w, w.rooms[key], w', r', p)
    {
      CommandHeard(w, key, c, t, r', w', p);
      MemberConn(w, key, p);
    }
  }

  /** A client that stays through a host command hears what it needs. */
  lemma CommandFollows(r: RoomState, c: Control, closed: set<ConnId>, t: PruneTrace, r': RoomState, v: View, p: u32)
    requires RoomOk(r) && Command(r, c).Some? && Executes(Command(r, c).value, closed, t, r', closed)
    requires p in r'.clients
    ensures var plan := Command(r, c).value;
            Follows(r, r', p, v, if plan.say.Some? then HearAll(v, PruneScript(plan.say.value, t)) else v)
  {
    var plan := Command(r, c).value;
    CommandGrows(r, c, closed, t, r', closed);
    if plan.say.Some? && v.peer == p {
      CommandShrinks(r, c);
      if p in r.clients && v.roster <= r.clients.Keys {
        CommandCarries(r, c, v);
        PruneCarries(v, plan.say.value, r.clients.Keys, plan.room, closed, t, r');
      } else if p !in r.clients && v.roster == {} {
        CommandCarries(r, c, v);
        PruneCarries(v, plan.say.value, plan.room.clients.Keys, plan.room, closed, t, r');
      }
    }
  }

  lemma MoveFollows(r: RoomState, blob: Bytes, closed: set<ConnId>, t: PruneTrace, r': RoomState, v: View, p: u32, thanks: seq<ServerMessage>)
    requires RoomOk(r) && PrunesState(r.(state := blob), closed, t, r', closed)
    requires p in r'.clients && AllChatter(thanks)
    ensures p in r.clients && Follows(r, r', p, v, HearAll(v, PruneScript(StateUpdate(blob), t) + thanks))
  {
    var r1, script := r.(state := blob), PruneScript(StateUpdate(blob), t);
    PrunesShrinks(r1, closed, t, r', closed);
    HearConcat(v, script, thanks);
    HearChatter(HearAll(v, script), thanks);
    if v.peer == p && v.roster <= r.clients.Keys {
      assert Carries(v, StateUpdate(blob), r.clients.Keys, r1.clients.Keys);
      PruneCarries(v, StateUpdate(blob), r.clients.Keys, r1, closed, t, r');
    }
  }

  lemma MoveHeard(w: World, r: RoomState, k: ConnId, t: PruneTrace, w': World, p: u32)
    requires Sends(w, w', Reply(StateOutbox(r, t), k, [MoveAccepted]))
    requires p in r.clients && Open(w', r.clients[p])
    ensures Sees(w', r.clients[p]) == HearAll(Sees(w, r.clients[p]),
              PruneScript(StateUpdate(r.state), t) + if r.clients[p].conn == k then [MoveAccepted] else [])
  {
    var out, c := StateOutbox(r, t), r.clients[p].conn;
    assert c in Conns(r.clients);
    OpenHears(w, w', Reply(out, k, [MoveAccepted]), c);
    assert PruneScript(StateUpdate(r.state), t) + [] == PruneScript(StateUpdate(r.state), t);
  }

  /** A waiting peer learns nothing of a broadcast to the clients but what is said to it apart. */
  lemma WaiterHeard(w: World, key: Key, out: Outbox, r': RoomState, w': World, p: u32)
    requires Owned(w) && key in w.rooms && Sends(w, w', out)
    requires p in r'.pending && Within(r'.pending, w.rooms[key].pending) && Open(w', r'.pending[p])
    requires forall c :: c in out && c !in Conns(w.rooms[key].clients) ==> AllChatter(out[c])
    ensures WaiterTold(w, w.rooms[key], w', r', p)
  {
    var r := w.rooms[key];
    OwnedDistinct(w, key);
    assert r.Members()[p] == r.pending[p];
    assert r.pending[p].conn !in Conns(r.clients) by {
      assert forall q :: q in r.clients ==> r.Members()[q] == r.clients[q];
    }
    OpenHears(w, w', out, r.pending[p].conn);
  }

  lemma MoveClientTold(w: World, r: RoomState, k: ConnId, blob: Bytes, t: PruneTrace, r': RoomState, w': World, p: u32)
    requires RoomOk(r) && PrunesState(r.(state := blob), w.closed, t, r', w.closed)
    requires p in r'.clients && Open(w, r'.clients[p])
    requires p in r.clients ==> Sees(w', r.clients[p]) == HearAll(Sees(w, r.clients[p]),
               PruneScript(StateUpdate(blob), t) + if r.clients[p].conn == k then [MoveAccepted] else [])
    ensures ClientTold(w, r, w', r', p)
  {
    PrunesShrinks(r.(state := blob), w.closed, t, r', w.closed);
    MoveFollows(r, blob, w.closed, t, r', Sees(w, r.clients[p]), p, if r.clients[p].conn == k then [MoveAccepted] else []);
  }

  lemma StateOutboxChatter(r: RoomState, t: PruneTrace, k: ConnId)
    ensures var out := Reply(StateOutbox(r, t), k, [MoveAccepted]);
            forall c :: c in out && c !in Conns(r.clients) ==> AllChatter(out[c])
  {
  }

  lemma MoveTold(w: World, key: Key, k: ConnId, blob: Bytes, t: PruneTrace, r': RoomState, w': World)
    requires Owned(w) && key in w.rooms && w'.closed == w.closed
    requires PrunesState(w.rooms[key].(state := blob), w.closed, t, r', w.closed)
    requires Sends(w, w', Reply(StateOutbox(w.rooms[key].(state := blob), t), k, [MoveAccepted]))
    ensures Told(w, w.rooms[key], w', r')
  {
    var r := w.rooms[key];
    PrunesShrinks(r.(state := blob), w.closed, t, r', w.closed);
    forall p | p in r'.clients && Open(w', r'.clients[p])
      ensures ClientTold(w, r, w', r', p)
    {
      MoveHeard(w, r.(state := blob), k, t, w', p);
      MoveClientTold(w, r, k, blob, t, r', w', p);
    }
    StateOutboxChatter(r.(state := blob), t, k);
    forall p | p in r'.pending && Open(w', r'.pending[p])
      ensures WaiterTold(w, r, w', r', p)
    {
      WaiterHeard(w, key, Reply(StateOutbox(r.(state := blob), t), k, [MoveAccepted]), r', w', p);
    }
  }

  /** Hearing of an election and whatever the broadcast of it prunes. */
  lemma ElectionCarries(mid: RoomState, e: u32, closed: set<ConnId>, t: PruneTrace, r': RoomState, v: View)
    requires RoomOk(mid) && Prunes(mid.(host := e), closed, t, r', closed)
    requires v.roster <= mid.clients.Keys && r'.clients != map[]
    ensures var v' := HearAll(v, PruneScript(RoomEvent(HostTransferred(e)), t));
            v'.peer == v.peer && v'.roster == v.roster * r'.clients.Keys && v'.host == r'.host
  {
    PrunesShrinks(mid.(host := e), closed, t, r', closed);
    assert Carries(v, RoomEvent(HostTransferred(e)), mid.clients.Keys, mid.clients.Keys);
    PruneCarries(v, RoomEvent(HostTransferred(e)), mid.clients.Keys, mid.(host := e), closed, t, r');
  }

  /** Hearing of a departure and whatever the broadcast of it prunes. */
  lemma DepartureCarries(r: RoomState, id: u32, closed: set<ConnId>, t: PruneTrace, mid: RoomState, v: View)
    requires RoomOk(r) && Prunes(Without(r, id), closed, t, mid, closed)
    requires v.roster <= r.clients.Keys && mid.clients != map[]
    ensures var v' := HearAll(v, PruneScript(PeerLeft(id), t));
            && v'.peer == v.peer && v'.roster == v.roster * mid.clients.Keys
            && (v.host == r.host ==> v'.host == mid.host)
  {
    var r0 := Without(r, id);
    PrunesShrinks(r0, closed, t, mid, closed);
    assert Carries(v, PeerLeft(id), r.clients.Keys, r0.clients.Keys);
    PruneCarries(v, PeerLeft(id), r.clients.Keys, r0, closed, t, mid);
  }

  lemma LeaveFollows(r: RoomState, id: u32, closed: set<ConnId>, lt: LeaveTrace, r': RoomState, v: View, p: u32)
    requires RoomOk(r) && Leaves(r, id, closed, lt, r', closed)
    requires p in r'.clients
    ensures p in r.clients && Follows(r, r', p, v, HearAll(v, LeaveScript(id, lt)))
  {
    LeavesWithin(r, id, closed, lt, r', closed);
    assert r'.clients.Keys <= r.clients.Keys;
    var first := PruneScript(PeerLeft(id), lt.first);
    if v.roster <= r.clients.Keys {
      DepartureCarries(r, id, closed, lt.first, lt.mid, v);
      if lt.elected.Some? {
        var second := PruneScript(RoomEvent(HostTransferred(lt.elected.value)), lt.second);
        HearConcat(v, first, second);
        ElectionCarries(lt.mid, lt.elected.value, closed, lt.second, r', HearAll(v, first));
      } else {
        assert LeaveScript(id, lt) == first;
      }
    }
  }

  lemma BroadcastHeard(w: World, w': World, m: map<u32, ClientInfo>, script: seq<ServerMessage>, p: u32)
    requires Sends(w, w', Broadcast(m, script)) && p in m && Open(w', m[p])
    ensures Sees(w', m[p]) == HearAll(Sees(w, m[p]), script)
  {
    OpenHears(w, w', Broadcast(m, script), m[p].conn);
  }

  lemma DepartClientTold(w: World, r: RoomState, id: u32, lt: LeaveTrace, r': RoomState, w': World, p: u32)
    requires RoomOk(r) && Leaves(r, id, w.closed, lt, r', w.closed)
    requires Sends(w, w', Broadcast(Without(r, id).clients, LeaveScript(id, lt)))
    requires p in r'.clients && Open(w', r'.clients[p])
    ensures ClientTold(w, r, w', r', p)
  {
    LeavesWithin(r, id, w.closed, lt, r', w.closed);
    BroadcastHeard(w, w', Without(r, id).clients, LeaveScript(id, lt), p);
    LeaveFollows(r, id, w.closed, lt, r', Sees(w, r.clients[p]), p);
  }

  lemma DepartTold(w: World, k: ConnId, lt: LeaveTrace, r': RoomState, w': World)
    requires Owned(w) && Departs(w, k, lt, r', w') && HasRoom(w, k) && w'.closed == w.closed
    ensures Told(w, w.rooms[w.sessions[k].key], w', r')
  {
    var s := w.sessions[k];
    var r := w.rooms[s.key];
    LeavesWithin(r, s.peer, w.closed, lt, r', w.closed);
    forall p | p in r'.clients && Open(w', r'.clients[p])
      ensures ClientTold(w, r, w', r', p)
    {
      DepartClientTold(w, r, s.peer, lt, r', w', p);
    }
    var out := Broadcast(Without(r, s.peer).clients, LeaveScript(s.peer, lt));
    forall p | p in r'.pending && Open(w', r'.pending[p])
      ensures WaiterTold(w, r, w', r', p)
    {
      WaiterHeard(w, s.key, out, r', w', p);
    }
  }

  lemma LeavesWithin(r: RoomState, id: u32, closed: set<ConnId>, lt: LeaveTrace, r': RoomState, closed': set<ConnId>)
    requires RoomOk(r) && Leaves(r, id, closed, lt, r', closed')
    ensures Within(r'.clients, Without(r, id).clients) && Within(r'.pending, Without(r, id).pending)
    ensures RoomOk(lt.mid) && RoomOk(r') && Within(r'.clients, lt.mid.clients) && Within(lt.mid.clients, r.clients)
  {
    PrunesShrinks(Without(r, id), closed, lt.first, lt.mid, lt.midClosed);
    if lt.elected.Some? {
      PrunesShrinks(lt.mid.(host := lt.elected.value), lt.midClosed, lt.second, r', closed');
    }
  }

  // ---------- Admission ----------

  lemma NewcomerHears(v: View, base: seq<ServerMessage>, r: RoomState, code: Bytes, id: u32, side: byte)
    ensures HearAll(v, base + [JoinedMessage(r, code, id, side)]) == View(id, r.host, {})
  {
    var last := [JoinedMessage(r, code, id, side)];
    HearConcat(v, base, last);
    assert HearAll(HearAll(v, base), last) == HearAll(Hear(HearAll(v, base), last[0]), last[1..]);
  }

  lemma AdmitOut(r: RoomState, h: HelloFields, k: ConnId, code: Bytes, id: u32, side: byte, p: u32)
    requires RoomOk(r) && DistinctConns(r) && !r.InUse(id) && k !in Conns(r.Members()) && p in r.Members()
    ensures Out(AdmitOutbox(r, h, k, code, id, side), r.Members()[p].conn) ==
            if p in r.clients && id in Seat(r, id, Newcomer(h, k, side)).clients
            then [PeerJoined(id, h.clientHash, h.displayName)] else []
  {
    var c := r.Members()[p].conn;
    assert c in Conns(r.Members());
    assert forall q :: q in r.clients ==> r.Members()[q] == r.clients[q];
    assert c in Conns(r.clients) <==> p in r.clients;
  }

  lemma AdmitClientFollows(r: RoomState, id: u32, info: ClientInfo, v: View, p: u32)
    requires RoomOk(r) && !r.InUse(id) && p in r.clients
    ensures var r' := Seat(r, id, info);
            Follows(r, r', p, v, HearAll(v, if id in r'.clients then [PeerJoined(id, info.hash, info.name)] else []))
  {
    var r', msg := Seat(r, id, info), PeerJoined(id, info.hash, info.name);
    assert HearAll(v, [msg]) == HearAll(Hear(v, msg), [msg][1..]);
    assert r'.clients.Keys == r.clients.Keys + (if id in r'.clients then {id} else {});
  }

  /** What a member hears of an admission: the newcomer its place, the clients the newcomer. */
  lemma AdmitHeard(w: World, r: RoomState, h: HelloFields, k: ConnId, code: Bytes, id: u32, side: byte, w': World, p: u32)
    requires RoomOk(r) && DistinctConns(r) && !r.InUse(id) && id != 0 && k !in Conns(r.Members())
    requires Sends(w, w', AdmitOutbox(r, h, k, code, id, side))
    requires var r' := Seat(r, id, Newcomer(h, k, side)); p in r'.Members() && Open(w', r'.Members()[p])
    ensures var r' := Seat(r, id, Newcomer(h, k, side));
            var i := r'.Members()[p];
            if p == id then Sees(w', i) == View(p, r'.host, {})
            else
              p in r.Members() && i == r.Members()[p] && Open(w, i) &&
              Sees(w', i) == HearAll(Sees(w, i),
                if p in r.clients && id in r'.clients then [PeerJoined(id, h.clientHash, h.displayName)] else [])
  {
    var r' := Seat(r, id, Newcomer(h, k, side));
    SeatMembers(r, id, Newcomer(h, k, side));
    OpenHears(w, w', AdmitOutbox(r, h, k, code, id, side), r'.Members()[p].conn);
    if p == id {
      var base := if id in r'.clients then Broadcast(r.clients, [PeerJoined(id, h.clientHash, h.displayName)]) else map[];
      NewcomerHears(ViewOf(w.Log(k)), Out(base, k), r', code, id, side);
    } else {
      AdmitOut(r, h, k, code, id, side, p);
    }
  }

  lemma AdmitTold(w: World, r: RoomState, h: HelloFields, k: ConnId, code: Bytes, id: u32, side: byte, w': World)
    requires RoomOk(r) && DistinctConns(r) && !r.InUse(id) && id != 0 && k !in Conns(r.Members())
    requires Sends(w, w', AdmitOutbox(r, h, k, code, id, side))
    ensures Told(w, r, w', Seat(r, id, Newcomer(h, k, side)))
  {
    var info := Newcomer(h, k, side);
    var r' := Seat(r, id, info);
    SeatMembers(r, id, info);
    forall p | p in r'.clients && Open(w', r'.clients[p])
      ensures ClientTold(w, r, w', r', p)
    {
      assert r'.Members()[p] == r'.clients[p];
      AdmitHeard(w, r, h, k, code, id, side, w', p);
      if p != id {
        AdmitClientFollows(r, id, info, Sees(w, r.clients[p]), p);
      }
    }
    forall p | p in r'.pending && Open(w', r'.pending[p])
      ensures WaiterTold(w, r, w', r', p)
    {
      assert r'.Members()[p] == r'.pending[p];
      AdmitHeard(w, r, h, k, code, id, side, w', p);
    }
  }

  // ---------- Every step, every room ----------

  /** Outside room `key`, members hear nothing but chatter. */
  ghost predicate Directed(w: World, out: Outbox, key: Key) {
    forall c :: c in out ==> c !in w.sessions || w.sessions[c].key == key || AllChatter(out[c])
  }

  lemma ElsewhereTold(w: World, w': World, out: Outbox, key: Key, other: Key)
    requires Owned(w) && Sends(w, w', out) && Directed(w, out, key)
    requires other in w.rooms && other != key
    ensures Told(w, w.rooms[other], w', w.rooms[other])
  {
    var r := w.rooms[other];
    forall p | p in r.Members()
      ensures AllChatter(Out(out, r.Members()[p].conn))
    {
      MemberConn(w, other, p);
    }
    UntouchedTold(w, w', out, r, r);
  }

  lemma MembersDirected(w: World, key: Key, m: map<u32, ClientInfo>, out: Outbox)
    requires Owned(w) && key in w.rooms && Within(m, w.rooms[key].Members())
    requires forall c :: c in out ==> c in Conns(m) || AllChatter(out[c])
    ensures Directed(w, out, key)
  {
  }

  ghost predicate AllInformed(s: Sys) {
    Tracked(s) && forall key :: key in s.w.rooms ==> Informed(s.w, s.w.rooms[key], s.h.rooms[key])
  }

  ghost predicate EveryoneTold(w: World, w': World) {
    && (forall key :: key in w'.rooms && key in w.rooms ==> Told(w, w.rooms[key], w', w'.rooms[key]))
    && (forall key :: key in w'.rooms && key !in w.rooms ==>
          exists r :: RoomOk(r) && r.Empty() && Told(w, r, w', w'.rooms[key]))
  }

  lemma StayInformed(s: Sys, step: Step, s': Sys, key: Key, r: RoomState)
    requires s'.h == HistNext(s.w, s.h, step, s'.w)
    requires key in s'.w.rooms && RoomOk(r) && RoomOk(s'.w.rooms[key])
    requires r.clients.Keys == if key in s.w.rooms then s.w.rooms[key].clients.Keys else {}
    requires Informed(s.w, r, HistOf(s.h, key)) && Told(s.w, r, s'.w, s'.w.rooms[key])
    ensures Informed(s'.w, s'.w.rooms[key], s'.h.rooms[key])
  {
    assert s'.h.rooms[key] == RoomHistNext(s.w, HistOf(s.h, key), step, s'.w, key);
    ToldInforms(s.w, r, HistOf(s.h, key), s'.w, s'.w.rooms[key], s'.h.rooms[key]);
  }

  /** When every room's members were told what they need, they all stay informed. */
  lemma AllTold(s: Sys, step: Step, s': Sys)
    requires AllInformed(s) && Owned(s.w) && Owned(s'.w) && s'.h == HistNext(s.w, s.h, step, s'.w)
    requires EveryoneTold(s.w, s'.w)
    ensures AllInformed(s')
  {
    forall key | key in s'.w.rooms
      ensures Informed(s'.w, s'.w.rooms[key], s'.h.rooms[key])
    {
      if key in s.w.rooms {
        StayInformed(s, step, s', key, s.w.rooms[key]);
      } else {
        var r :| RoomOk(r) && r.Empty() && Told(s.w, r, s'.w, s'.w.rooms[key]);
        StayInformed(s, step, s', key, r);
      }
    }
  }

  /** One room touched: its members told, everyone else left with chatter. */
  lemma TouchTold(w: World, w': World, out: Outbox, key: Key)
    requires Owned(w) && Sends(w, w', out) && Directed(w, out, key)
    requires forall other :: other in w'.rooms && other != key ==> other in w.rooms && w'.rooms[other] == w.rooms[other]
    requires key in w'.rooms ==> key in w.rooms && Told(w, w.rooms[key], w', w'.rooms[key])
    ensures EveryoneTold(w, w')
  {
    forall other | other in w'.rooms && other != key
      ensures Told(w, w.rooms[other], w', w'.rooms[other])
    {
      ElsewhereTold(w, w', out, key, other);
    }
  }

  lemma ChatterTold(w: World, w': World, k: ConnId, msgs: seq<ServerMessage>, r: RoomState, r': RoomState)
    requires RoomOk(r) && AllChatter(msgs) && Sends(w, w', map[k := msgs])
    requires r'.clients == r.clients && r'.pending == r.pending && r'.host == r.host
    ensures Told(w, r, w', r')
  {
    UntouchedTold(w, w', map[k := msgs], r, r');
  }

  lemma AnswerTold(w: World, k: ConnId, msgs: seq<ServerMessage>, w': World)
    requires Owned(w) && AllChatter(msgs)
    requires w'.rooms == w.rooms && Sends(w, w', map[k := msgs])
    ensures EveryoneTold(w, w')
  {
    forall key | key in w'.rooms
      ensures Told(w, w.rooms[key], w', w'.rooms[key])
    {
      ChatterTold(w, w', k, msgs, w.rooms[key], w.rooms[key]);
    }
  }

  lemma DepartEveryone(w: World, k: ConnId, lt: LeaveTrace, r': RoomState, w': World)
    requires Owned(w) && Departs(w, k, lt, r', w') && w'.closed == w.closed
    ensures EveryoneTold(w, w')
  {
    hide Told, Sends, Leaves;
    var s := w.sessions[k];
    if s.key in w.rooms {
      var r := w.rooms[s.key];
      var out := Broadcast(Without(r, s.peer).clients, LeaveScript(s.peer, lt));
      DepartTold(w, k, lt, r', w');
      assert RoomOk(r);
      MembersDirected(w, s.key, Without(r, s.peer).clients, out);
      TouchTold(w, w', out, s.key);
    } else {
      forall key | key in w'.rooms
        ensures Told(w, w.rooms[key], w', w'.rooms[key])
      {
        UntouchedTold(w, w', map[], w.rooms[key], w.rooms[key]);
      }
    }
  }

  lemma MoveEveryone(w: World, k: ConnId, key: Key, blob: Bytes, t: PruneTrace, r': RoomState, w': World)
    requires Owned(w) && key in w.rooms && w'.closed == w.closed
    requires PrunesState(w.rooms[key].(state := blob), w.closed, t, r', w.closed)
    requires Touches(w, key, r', Reply(StateOutbox(w.rooms[key].(state := blob), t), k, [MoveAccepted]), w')
    ensures EveryoneTold(w, w')
  {
    var r := w.rooms[key];
    hide Told, Sends, PrunesState;
    var out := Reply(StateOutbox(r.(state := blob), t), k, [MoveAccepted]);
    MoveTold(w, key, k, blob, t, r', w');
    StateOutboxChatter(r.(state := blob), t, k);
    assert RoomOk(r);
    MembersDirected(w, key, r.clients, out);
    TouchTold(w, w', out, key);
  }

  lemma CommandDirected(w: World, key: Key, c: Control, t: PruneTrace)
    requires Owned(w) && key in w.rooms && Command(w.rooms[key], c).Some?
    ensures Directed(w, PlanOutbox(Command(w.rooms[key], c).value, t), key)
  {
    var r, plan := w.rooms[key], Command(w.rooms[key], c).value;
    assert RoomOk(r);
    CommandShrinks(r, c);
    assert Within(plan.room.clients, r.Members()) by {
      assert forall p :: p in plan.room.clients ==> plan.room.Members()[p] == plan.room.clients[p];
    }
    var out := PlanOutbox(plan, t);
    forall x | x in out && x !in Conns(plan.room.clients)
      ensures AllChatter(out[x])
    {
    }
    MembersDirected(w, key, plan.room.clients, out);
  }

  lemma CommandEveryone(w: World, key: Key, c: Control, t: PruneTrace, r': RoomState, w': World)
    requires Owned(w) && key in w.rooms && Command(w.rooms[key], c).Some? && w'.closed == w.closed
    requires Executes(Command(w.rooms[key], c).value, w.closed, t, r', w.closed)
    requires Touches(w, key, r', PlanOutbox(Command(w.rooms[key], c).value, t), w')
    ensures EveryoneTold(w, w')
  {
    CommandTold(w, key, c, t, r', w');
    CommandDirected(w, key, c, t);
    TouchTold(w, w', PlanOutbox(Command(w.rooms[key], c).value, t), key);
  }

  lemma InputEveryone(w: World, key: Key, id: u32, blob: Bytes, w': World)
    requires Owned(w) && key in w.rooms && Touches(w, key, w.rooms[key], InputOutbox(w.rooms[key], id, blob), w')
    ensures EveryoneTold(w, w')
  {
    hide Told, Sends;
    var out := InputOutbox(w.rooms[key], id, blob);
    assert forall c :: AllChatter(Out(out, c));
    forall other | other in w'.rooms
      ensures Told(w, w.rooms[other], w', w'.rooms[other])
    {
      assert RoomOk(w.rooms[other]);
      UntouchedTold(w, w', out, w.rooms[other], w.rooms[other]);
    }
  }

  lemma StrangerApart(w: World, key: Key, k: ConnId)
    requires Owned(w) && key in w.rooms && k !in w.sessions
    ensures k !in Conns(w.rooms[key].Members())
  {
  }

  lemma AdmitDirected(w: World, key: Key, r: RoomState, h: HelloFields, k: ConnId, code: Bytes, id: u32, side: byte)
    requires Owned(w) && k !in w.sessions && RoomOk(r)
    requires if key in w.rooms then r == w.rooms[key].(nextId := r.nextId) else r.Empty()
    ensures Directed(w, AdmitOutbox(r, h, k, code, id, side), key)
  {
    forall p | p in r.clients
      ensures r.clients[p].conn in w.sessions && w.sessions[r.clients[p].conn].key == key
    {
      assert p in w.rooms[key].Members();
      MemberConn(w, key, p);
    }
  }

  lemma AdmissionApart(w: World, key: Key, r: RoomState, k: ConnId)
    requires Owned(w) && k !in w.sessions
    requires if key in w.rooms then r == w.rooms[key].(nextId := r.nextId) else r.Empty()
    ensures DistinctConns(r) && k !in Conns(r.Members())
  {
    if key in w.rooms {
      OwnedDistinct(w, key);
      StrangerApart(w, key, k);
      assert r.Members() == w.rooms[key].Members();
    }
  }

  /** The counter plays no part in what members are told. */
  lemma CounterAside(w: World, r: RoomState, r1: RoomState, w': World, r': RoomState)
    requires Told(w, r, w', r') && r1.clients == r.clients && r1.pending == r.pending && r1.host == r.host
    ensures Told(w, r1, w', r')
  {
  }

  lemma SeatEveryone(w: World, key: Key, r: RoomState, h: HelloFields, k: ConnId, code: Bytes, id: u32, side: byte, w': World)
    requires Owned(w) && k !in w.sessions && RoomOk(r) && !r.InUse(id) && id != 0
    requires if key in w.rooms then r == w.rooms[key].(nextId := r.nextId) else r.Empty()
    requires w'.rooms == w.rooms[key := Seat(r, id, Newcomer(h, k, side))]
    requires Sends(w, w', AdmitOutbox(r, h, k, code, id, side))
    ensures EveryoneTold(w, w')
  {
    hide Told, Owned, Sends, Directed, AdmitOutbox, Seat, DistinctConns;
    AdmissionApart(w, key, r, k);
    AdmitTold(w, r, h, k, code, id, side, w');
    AdmitDirected(w, key, r, h, k, code, id, side);
    forall other | other in w'.rooms && other != key
      ensures Told(w, w.rooms[other], w', w'.rooms[other])
    {
      ElsewhereTold(w, w', AdmitOutbox(r, h, k, code, id, side), key, other);
    }
    if key in w.rooms {
      CounterAside(w, r, w.rooms[key], w', w'.rooms[key]);
    }
  }

  lemma RefusalEveryone(w: World, key: Key, k: ConnId, r': RoomState, why: Bytes, w': World)
    requires Owned(w) && key in w.rooms && r' == w.rooms[key].(nextId := r'.nextId)
    requires w'.rooms == w.rooms[key := r'] && Sends(w, w', map[k := [Error(why)]])
    ensures EveryoneTold(w, w')
  {
    hide Told, Sends;
    forall other | other in w'.rooms
      ensures Told(w, w.rooms[other], w', w'.rooms[other])
    {
      ChatterTold(w, w', k, [Error(why)], w.rooms[other], w'.rooms[other]);
    }
  }

  lemma EnteredOk(w: World, cfg: Config, h: HelloFields, a: AdmitTrace, key: Key, r: RoomState)
    requires Owned(w) && Enters(w, cfg, h, a, key, r)
    ensures RoomOk(r) && (if key in w.rooms then r == w.rooms[key] else r.Empty())
    ensures key !in w.rooms ==> Refusal(r, h) == None && (Allocates(r, a.id, a.nextId) ==> a.id.Some?)
  {
    if h.roomCode == [] {
      FreshRoomAdmits(r, h, a.id, a.nextId);
    }
  }

  lemma AllocatedOk(r: RoomState, id: u32, nextId: u32)
    requires RoomOk(r) && Allocates(r, Some(id), nextId)
    ensures id != 0 && !r.InUse(id) && RoomOk(r.(nextId := nextId)) && r.(nextId := nextId).InUse(id) == r.InUse(id)
  {
  }

  lemma AdmitsEveryone(w: World, cfg: Config, k: ConnId, h: HelloFields, a: AdmitTrace, key: Key, r: RoomState, w': World)
    requires Owned(w) && k !in w.sessions && Admits(w, cfg, k, h, a, key, r, w')
    ensures EveryoneTold(w, w')
  {
    hide Owned, Enters, Sends, Allocates, Refusal, RoomOk, EveryoneTold, Seat, AdmitOutbox, IsNextSide;
    EnteredOk(w, cfg, h, a, key, r);
    if Refusal(r, h) == None && a.id.Some? {
      AllocatedOk(r, a.id.value, a.nextId);
      SeatEveryone(w, key, r.(nextId := a.nextId), h, k, CodeOf(h, a), a.id.value, a.side, w');
    } else {
      RefusalEveryone(w, key, k, w'.rooms[key], if Refusal(r, h).Some? then Refusal(r, h).value else Text("room full"), w');
    }
  }

  lemma AnswersAreChatter(w: World, cfg: Config, k: ConnId, msg: ClientMessage, tr: Trace)
    requires Answer(w, cfg, k, msg, tr).Some?
    ensures AllChatter(Answer(w, cfg, k, msg, tr).value)
  {
  }

  lemma ActsEveryone(w: World, cfg: Config, k: ConnId, msg: ClientMessage, tr: Trace, w': World)
    requires Owned(w) && Acts(w, cfg, k, msg, tr, w') && w'.closed == w.closed && (msg.Hello? ==> k !in w.sessions)
    ensures EveryoneTold(w, w')
  {
    match msg
    case Hello(h) => AdmitsEveryone(w, cfg, k, h, tr.a, KeyOf(h, tr.a), tr.entered, w');
    case Move(blob) => MoveEveryone(w, k, w.sessions[k].key, blob, tr.t, tr.after, w');
    case Input(blob) => InputEveryone(w, w.sessions[k].key, w.sessions[k].peer, blob, w');
    case RoomControl(c) => CommandEveryone(w, w.sessions[k].key, c, tr.t, tr.after, w');
  }

  lemma SaysEveryone(w: World, cfg: Config, k: ConnId, msg: ClientMessage, tr: Trace, w': World)
    requires Owned(w) && Says(w, cfg, k, msg, tr, w') && w'.closed == w.closed
    ensures EveryoneTold(w, w')
  {
    if Answer(w, cfg, k, msg, tr).Some? {
      AnswersAreChatter(w, cfg, k, msg, tr);
      AnswerTold(w, k, Answer(w, cfg, k, msg, tr).value, w');
    } else {
      ActsEveryone(w, cfg, k, msg, tr, w');
    }
  }

  lemma ClosingEveryone(w: World, w': World)
    requires Owned(w) && w' == w.(closed := w'.closed) && w.closed <= w'.closed
    ensures EveryoneTold(w, w')
  {
    forall key | key in w'.rooms
      ensures Told(w, w.rooms[key], w', w'.rooms[key])
    {
      UntouchedTold(w, w', map[], w.rooms[key], w.rooms[key]);
    }
  }

  lemma NextInformed(cfg: Config, s: Sys, step: Step, s': Sys)
    requires AllInformed(s) && Owned(s.w) && SysNext(cfg, s, step, s') && Calm(s.w, step, s'.w)
    ensures AllInformed(s')
  {
    NextOwned(cfg, s.w, step, s'.w);
    match step {
      case Closing(cs) => ClosingEveryone(s.w, s'.w);
      case Departure(k, lt, after) => DepartEveryone(s.w, k, lt, after, s'.w);
      case Message(k, msg, tr) => SaysEveryone(s.w, cfg, k, msg, tr, s'.w);
    }
    AllTold(s, step, s');
  }

  // ---------- The theorems ----------

  ghost predicate CalmRun(run: seq<Sys>, steps: seq<Step>)
    requires |run| == |steps| + 1
  {
    forall i :: 0 <= i < |steps| ==> Calm(run[i].w, steps[i], run[i + 1].w)
  }

  lemma StartInformed()
    ensures AllInformed(START)
  {
  }

  lemma {:induction false} RunInformed(cfg: Config, run: seq<Sys>, steps: seq<Step>, i: nat)
    requires IsRun(cfg, run, steps) && CalmRun(run, steps) && i < |run|
    ensures AllInformed(run[i])
  {
    hide SysNext, Calm, AllInformed, Owned;
    if i == 0 {
      StartInformed();
    } else {
      RunInformed(cfg, run, steps, i - 1);
      RunOwned(cfg, run, steps, i - 1);
      assert Calm(run[i - 1].w, steps[i - 1], run[i].w);
      NextInformed(cfg, run[i - 1], steps[i - 1], run[i]);
    }
  }

  /**
   * Leader agreement: an open client that never had to wait names the server's host, so of those
   * clients at most one takes itself for the host, and the host itself does.
   */
  lemma LeaderAgreement(cfg: Config, run: seq<Sys>, steps: seq<Step>, i: nat, key: Key, p: u32)
    requires IsRun(cfg, run, steps) && CalmRun(run, steps) && i < |run|
    requires key in run[i].w.rooms && p in run[i].w.rooms[key].clients
    requires key in run[i].h.rooms && p !in run[i].h.rooms[key].waited
    requires Open(run[i].w, run[i].w.rooms[key].clients[p])
    ensures var r := run[i].w.rooms[key];
            var v := Sees(run[i].w, r.clients[p]);
            v.peer == p && v.host == r.host && (IsHost(v) <==> p == r.host)
  {
    RunInformed(cfg, run, steps, i);
    RunOwned(cfg, run, steps, i);
    assert RoomOk(run[i].w.rooms[key]);
    assert p in run[i].w.rooms[key].Members();
  }

  /** Roster agreement: an open client lists exactly the clients admitted after it. */
  lemma RosterAgreement(cfg: Config, run: seq<Sys>, steps: seq<Step>, i: nat, key: Key, p: u32)
    requires IsRun(cfg, run, steps) && CalmRun(run, steps) && i < |run|
    requires key in run[i].w.rooms && p in run[i].w.rooms[key].clients
    requires key in run[i].h.rooms
    requires Open(run[i].w, run[i].w.rooms[key].clients[p])
    ensures Sees(run[i].w, run[i].w.rooms[key].clients[p]).roster == After(run[i].h.rooms[key].order, p)
    ensures NoDup(run[i].h.rooms[key].order) && Ids(run[i].h.rooms[key].order) == run[i].w.rooms[key].clients.Keys
  {
    RunInformed(cfg, run, steps, i);
  }
}
