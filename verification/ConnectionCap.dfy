/**
 * The shared connection counter. Each acceptor raises it first and lowers it again when it was
 * already at the limit; a connection lowers it when it ends. All of these interleave freely.
 */
module ConnectionCap {
  import opened Types

  const MAX_CONNECTIONS: nat := 110_000

  type Acceptor = nat

  /** The counter, the live connections, and the acceptors that have yet to undo a rejected one. */
  datatype Cap = Cap(counter: int, admitted: nat, undoing: set<Acceptor>)

  const NOBODY: Cap := Cap(0, 0, {})

  datatype Event = Accepts(who: Acceptor) | Undoes(who: Acceptor) | Ends

  /** One atomic step. An acceptor that has a rejection to undo does that before it accepts again. */
  predicate Next(c: Cap, e: Event, c': Cap) {
    match e
    case Accepts(a) =>
      && a !in c.undoing
      && c' == if c.counter >= MAX_CONNECTIONS then c.(counter := c.counter + 1, undoing := c.undoing + {a})
               else c.(counter := c.counter + 1, admitted := c.admitted + 1)
    case Undoes(a) => a in c.undoing && c' == c.(counter := c.counter - 1, undoing := c.undoing - {a})
    case Ends => c.admitted > 0 && c' == c.(counter := c.counter - 1, admitted := c.admitted - 1)
  }

  predicate IsRun(run: seq<Cap>, events: seq<Event>) {
    |run| == |events| + 1 && run[0] == NOBODY && forall i :: 0 <= i < |events| ==> Next(run[i], events[i], run[i + 1])
  }

  predicate Accounted(c: Cap) { c.counter == c.admitted + |c.undoing| && c.admitted <= MAX_CONNECTIONS }

  lemma {:induction false} RunAccounted(run: seq<Cap>, events: seq<Event>, i: nat)
    requires IsRun(run, events) && i < |run|
    ensures Accounted(run[i])
  {
    if i > 0 {
      RunAccounted(run, events, i - 1);
      assert Next(run[i - 1], events[i - 1], run[i]);
    }
  }

  /** Two acceptors take part. */
  predicate TwoAcceptors(events: seq<Event>, a: Acceptor, b: Acceptor) {
    forall i :: 0 <= i < |events| && !events[i].Ends? ==> events[i].who in {a, b}
  }

  lemma {:induction false} UndoingAmong(run: seq<Cap>, events: seq<Event>, a: Acceptor, b: Acceptor, i: nat)
    requires IsRun(run, events) && i < |run| && TwoAcceptors(events, a, b)
    ensures run[i].undoing <= {a, b} && |run[i].undoing| <= 2
  {
    if i > 0 {
      UndoingAmong(run, events, a, b, i - 1);
      assert Next(run[i - 1], events[i - 1], run[i]);
    }
    SubsetSize(run[i].undoing, {a, b});
  }

  /**
   * The counter is the live connections and the rejections not yet undone; it never goes below
   * zero or past the limit by more than the two acceptors, and no more than the limit are admitted.
   */
  lemma CapHolds(run: seq<Cap>, events: seq<Event>, a: Acceptor, b: Acceptor, i: nat)
    requires IsRun(run, events) && i < |run| && TwoAcceptors(events, a, b)
    ensures run[i].counter == run[i].admitted + |run[i].undoing|
    ensures 0 <= run[i].counter <= 110_002 && run[i].admitted <= 110_000
  {
    RunAccounted(run, events, i);
    UndoingAmong(run, events, a, b, i);
  }

  /** An acceptor rejects exactly when the server is full, or one short of it with the other acceptor still undoing. */
  lemma RejectedIff(run: seq<Cap>, events: seq<Event>, a: Acceptor, b: Acceptor, i: nat)
    requires IsRun(run, events) && i < |events| && TwoAcceptors(events, a, b) && a != b && events[i] == Accepts(a)
    ensures a in run[i + 1].undoing <==>
            run[i].admitted == 110_000 || (run[i].admitted == 109_999 && run[i].undoing == {b})
  {
    RunAccounted(run, events, i);
    UndoingAmong(run, events, a, b, i);
    assert Next(run[i], events[i], run[i + 1]);
    assert run[i].undoing <= {b};
    SubsetSize(run[i].undoing, {b});
    if run[i].undoing != {b} {
      assert b !in run[i].undoing;
      assert run[i].undoing == {};
    }
  }

  lemma RunGoesOn(run: seq<Cap>, events: seq<Event>, e: Event, c: Cap)
    requires IsRun(run, events) && Next(run[|events|], e, c)
    ensures IsRun(run + [c], events + [e])
  {
    var run', events' := run + [c], events + [e];
    forall i | 0 <= i < |events'|
      ensures Next(run'[i], events'[i], run'[i + 1])
    {
    }
  }

  /** One acceptor alone admits `n` connections. */
  lemma {:induction false} Filled(n: nat, a: Acceptor, b: Acceptor) returns (run: seq<Cap>, events: seq<Event>)
    requires n <= MAX_CONNECTIONS
    ensures IsRun(run, events) && TwoAcceptors(events, a, b) && |events| == n && run[n] == Cap(n, n, {})
    decreases n
  {
    if n == 0 {
      run, events := [NOBODY], [];
    } else {
      run, events := Filled(n - 1, a, b);
      RunGoesOn(run, events, Accepts(a), Cap(n, n, {}));
      run, events := run + [Cap(n, n, {})], events + [Accepts(a)];
    }
  }

  /** A run in which a connection is rejected with one place free: full, one rejected, one ended, another rejected. */
  lemma RejectedWithAPlaceFree(a: Acceptor, b: Acceptor) returns (run: seq<Cap>, events: seq<Event>)
    requires a != b
    ensures IsRun(run, events) && TwoAcceptors(events, a, b) && |events| == MAX_CONNECTIONS + 3
    ensures events[MAX_CONNECTIONS + 2] == Accepts(a)
    ensures run[MAX_CONNECTIONS + 2].admitted == MAX_CONNECTIONS - 1 && a in run[MAX_CONNECTIONS + 3].undoing
  {
    var n := MAX_CONNECTIONS;
    run, events := Filled(n, a, b);
    var c1, c2, c3 := Cap(n + 1, n, {b}), Cap(n, n - 1, {b}), Cap(n + 1, n - 1, {b, a});
    assert {} + {b} == {b};
    RunGoesOn(run, events, Accepts(b), c1);
    run, events := run + [c1], events + [Accepts(b)];
    RunGoesOn(run, events, Ends, c2);
    run, events := run + [c2], events + [Ends];
    RunGoesOn(run, events, Accepts(a), c3);
    run, events := run + [c3], events + [Accepts(a)];
  }

  class ConnectionCounter {
    var counter: int
    ghost var admitted: nat
    ghost var undoing: set<Acceptor>

    ghost function View(): Cap
      reads this
    {
      Cap(counter, admitted, undoing)
    }

    constructor ()
      ensures View() == NOBODY && Accounted(View())
    {
      counter := 0;
      admitted, undoing := 0, {};
    }

    /** `fetch_add` and the test of the previous value: true when the connection is admitted. */
    method Accept(ghost a: Acceptor) returns (ok: bool)
      requires Accounted(View()) && a !in undoing
      modifies this
      ensures Accounted(View()) && Next(old(View()), Accepts(a), View())
      ensures ok == (a !in undoing) && (ok ==> admitted == old(admitted) + 1)
    {
      var prev := counter;
      counter := counter + 1;
      if prev >= MAX_CONNECTIONS {
        undoing := undoing + {a};
        return false;
      }
      admitted := admitted + 1;
      return true;
    }

    /** `fetch_sub` after a rejection. */
    method Undo(ghost a: Acceptor)
      requires Accounted(View()) && a in undoing
      modifies this
      ensures Accounted(View()) && Next(old(View()), Undoes(a), View()) && counter >= 0
    {
      counter := counter - 1;
      undoing := undoing - {a};
    }

    /** A connection ends and its guard is dropped. */
    method DropGuard()
      requires Accounted(View()) && admitted > 0
      modifies this
      ensures Accounted(View()) && Next(old(View()), Ends, View()) && counter >= 0
    {
      counter := counter - 1;
      admitted := admitted - 1;
    }
  }
}
