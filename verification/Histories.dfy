/** Reading a history of moves forwards, and what a message log shows of it. */
module Histories {
  import opened Types

  // ---------- Reading a history forwards ----------

  /** `seen` can be read off `moves` going forwards only, each move any number of times. */
  ghost predicate Forward(seen: seq<Bytes>, moves: seq<Bytes>)
    decreases |seen| + |moves|
  {
    seen == [] || (moves != [] && ((seen[0] == moves[0] && Forward(seen[1..], moves)) || Forward(seen, moves[1..])))
  }

  ghost predicate Positions(seen: seq<Bytes>, moves: seq<Bytes>, at: seq<nat>) {
    && |at| == |seen|
    && (forall i :: 0 <= i < |seen| ==> at[i] < |moves| && moves[at[i]] == seen[i])
    && (forall i, j :: 0 <= i < j < |at| ==> at[i] <= at[j])
  }

  /** Reading forwards is showing moves at positions that never decrease. */
  lemma {:induction false} ForwardPositions(seen: seq<Bytes>, moves: seq<Bytes>) returns (at: seq<nat>)
    requires Forward(seen, moves)
    ensures Positions(seen, moves, at)
    decreases |seen| + |moves|
  {
    if seen == [] {
      at := [];
    } else if seen[0] == moves[0] && Forward(seen[1..], moves) {
      var rest := ForwardPositions(seen[1..], moves);
      at := [0] + rest;
    } else {
      var rest := ForwardPositions(seen, moves[1..]);
      at := seq(|rest|, i requires 0 <= i < |rest| => rest[i] + 1);
    }
  }

  lemma {:induction false} PositionsForward(seen: seq<Bytes>, moves: seq<Bytes>, at: seq<nat>)
    requires Positions(seen, moves, at)
    ensures Forward(seen, moves)
    decreases |seen| + |moves|
  {
    if seen != [] {
      if at[0] == 0 {
        PositionsForward(seen[1..], moves, at[1..]);
      } else {
        var shifted := seq(|at|, i requires 0 <= i < |at| => if at[i] > 0 then at[i] - 1 else 0);
        assert forall i :: 0 <= i < |at| ==> at[0] <= at[i];
        PositionsForward(seen, moves[1..], shifted);
      }
    }
  }

  lemma {:induction false} ForwardGrows(seen: seq<Bytes>, moves: seq<Bytes>, more: seq<Bytes>)
    requires Forward(seen, moves)
    ensures Forward(seen, moves + more)
    decreases |seen| + |moves|
  {
    if seen != [] {
      assert (moves + more)[1..] == moves[1..] + more;
      if seen[0] == moves[0] && Forward(seen[1..], moves) {
        ForwardGrows(seen[1..], moves, more);
      } else {
        ForwardGrows(seen, moves[1..], more);
      }
    }
  }

  /** Showing the latest move once more keeps the reading forward. */
  lemma {:induction false} ForwardAgain(seen: seq<Bytes>, moves: seq<Bytes>, b: Bytes)
    requires Forward(seen, moves) && moves != [] && moves[|moves| - 1] == b
    ensures Forward(seen + [b], moves)
    decreases |seen| + |moves|
  {
    if seen == [] {
      if |moves| > 1 {
        ForwardAgain(seen, moves[1..], b);
      } else {
        assert ([] + [b])[1..] == [];
        assert Forward([b][1..], moves);
      }
    } else {
      assert (seen + [b])[1..] == seen[1..] + [b];
      if seen[0] == moves[0] && Forward(seen[1..], moves) {
        ForwardAgain(seen[1..], moves, b);
      } else {
        ForwardAgain(seen, moves[1..], b);
      }
    }
  }

  ghost predicate Subsequence<T>(a: seq<T>, b: seq<T>)
    decreases |b|
  {
    a == [] || (b != [] && ((a[0] == b[0] && Subsequence(a[1..], b[1..])) || Subsequence(a, b[1..])))
  }

  lemma {:induction false} ForwardSub(a: seq<Bytes>, seen: seq<Bytes>, moves: seq<Bytes>)
    requires Subsequence(a, seen) && Forward(seen, moves)
    ensures Forward(a, moves)
    decreases |seen| + |moves|
  {
    if a != [] {
      if seen[0] == moves[0] && Forward(seen[1..], moves) {
        if a[0] == seen[0] && Subsequence(a[1..], seen[1..]) {
          ForwardSub(a[1..], seen[1..], moves);
        } else {
          ForwardSub(a, seen[1..], moves);
        }
      } else {
        ForwardSub(a, seen, moves[1..]);
      }
    }
  }

  // ---------- The states a session is shown ----------

  function StatesIn(m: ServerMessage): seq<Bytes> {
    match m
    case StateUpdate(blob) => [blob]
    case Joined(_, _, _, _, _, Some(blob)) => [blob]
    case _ => []
  }

  function States(msgs: seq<ServerMessage>): seq<Bytes> {
    if msgs == [] then [] else StatesIn(msgs[0]) + States(msgs[1..])
  }

  predicate HasJoined(msgs: seq<ServerMessage>) { exists i :: 0 <= i < |msgs| && msgs[i].Joined? }

  /** What was sent since, and with, the last Joined. */
  function SinceJoined(log: seq<ServerMessage>): seq<ServerMessage> {
    if log == [] then []
    else if HasJoined(log[1..]) then SinceJoined(log[1..])
    else if log[0].Joined? then log
    else SinceJoined(log[1..])
  }

  lemma {:induction false} StatesConcat(a: seq<ServerMessage>, b: seq<ServerMessage>)
    ensures States(a + b) == States(a) + States(b)
  {
    if a == [] {
      assert a + b == b;
    } else {
      assert (a + b)[1..] == a[1..] + b;
      StatesConcat(a[1..], b);
    }
  }

  lemma {:induction false} SinceConcat(a: seq<ServerMessage>, b: seq<ServerMessage>)
    requires !HasJoined(b)
    ensures SinceJoined(a + b) == if HasJoined(a) then SinceJoined(a) + b else []
  {
    if a == [] {
      assert a + b == b;
      NoneJoined(b);
    } else {
      assert (a + b)[1..] == a[1..] + b;
      SinceConcat(a[1..], b);
      assert HasJoined(a) <==> a[0].Joined? || HasJoined(a[1..]) by {
        HasJoinedSplit(a);
      }
      JoinedConcat(a[1..], b);
    }
  }

  lemma {:induction false} NoneJoined(b: seq<ServerMessage>)
    requires !HasJoined(b)
    ensures SinceJoined(b) == []
  {
    if b != [] {
      HasJoinedSplit(b);
      NoneJoined(b[1..]);
    }
  }

  lemma HasJoinedSplit(a: seq<ServerMessage>)
    requires a != []
    ensures HasJoined(a) <==> a[0].Joined? || HasJoined(a[1..])
  {
    if HasJoined(a) {
      var i :| 0 <= i < |a| && a[i].Joined?;
      assert i > 0 ==> a[1..][i - 1].Joined?;
    }
    if HasJoined(a[1..]) {
      var i :| 0 <= i < |a[1..]| && a[1..][i].Joined?;
      assert a[i + 1].Joined?;
    }
  }

  lemma JoinedConcat(a: seq<ServerMessage>, b: seq<ServerMessage>)
    requires !HasJoined(b)
    ensures HasJoined(a + b) <==> HasJoined(a)
  {
    if HasJoined(a) {
      var i :| 0 <= i < |a| && a[i].Joined?;
      assert (a + b)[i].Joined?;
    }
    if HasJoined(a + b) {
      var i :| 0 <= i < |a + b| && (a + b)[i].Joined?;
      assert i >= |a| ==> b[i - |a|].Joined?;
    }
  }

  lemma {:induction false} SinceFresh(a: seq<ServerMessage>, j: ServerMessage)
    requires j.Joined?
    ensures SinceJoined(a + [j]) == [j]
  {
    if a == [] {
      assert a + [j] == [j];
      assert !HasJoined([j][1..]);
    } else {
      assert (a + [j])[1..] == a[1..] + [j];
      assert (a[1..] + [j])[|a| - 1].Joined?;
      SinceFresh(a[1..], j);
    }
  }

  lemma {:induction false} SubStates(a: seq<ServerMessage>, b: seq<ServerMessage>)
    requires Subsequence(a, b)
    ensures Subsequence(States(a), States(b))
    decreases |b|
  {
    if a != [] {
      if a[0] == b[0] && Subsequence(a[1..], b[1..]) {
        SubStates(a[1..], b[1..]);
        SubPrefix(StatesIn(a[0]), States(a[1..]), States(b[1..]));
      } else {
        SubStates(a, b[1..]);
        SubSkip(States(a), StatesIn(b[0]), States(b[1..]));
      }
    }
  }

  lemma SubPrefix(p: seq<Bytes>, a: seq<Bytes>, b: seq<Bytes>)
    requires Subsequence(a, b) && |p| <= 1
    ensures Subsequence(p + a, p + b)
  {
    if p == [] {
      assert p + a == a && p + b == b;
    } else {
      assert (p + a)[1..] == a && (p + b)[1..] == b;
    }
  }

  lemma SubSkip(a: seq<Bytes>, p: seq<Bytes>, b: seq<Bytes>)
    requires Subsequence(a, b) && |p| <= 1
    ensures Subsequence(a, p + b)
  {
    if p == [] {
      assert p + b == b;
    } else {
      assert (p + b)[1..] == b;
    }
  }

  function Shown(log: seq<ServerMessage>): seq<Bytes> { States(SinceJoined(log)) }

  /** A log is what came before the last Joined and what came since. */
  lemma {:induction false} SinceIsSuffix(log: seq<ServerMessage>) returns (before: seq<ServerMessage>)
    ensures log == before + SinceJoined(log)
  {
    if log == [] {
      before := [];
    } else if HasJoined(log[1..]) || !log[0].Joined? {
      var rest := SinceIsSuffix(log[1..]);
      before := [log[0]] + rest;
      assert log == [log[0]] + log[1..];
    } else {
      before := [];
    }
  }

  /** A part of a whole splits where the whole does. */
  lemma {:induction false} SubsequenceSplit<T>(a: seq<T>, b: seq<T>, c: seq<T>) returns (k: nat)
    requires Subsequence(a, b + c)
    ensures k <= |a| && Subsequence(a[..k], b) && Subsequence(a[k..], c)
    decreases |b|
  {
    if b == [] {
      assert b + c == c;
      k := 0;
    } else if a == [] {
      k := 0;
    } else {
      assert (b + c)[1..] == b[1..] + c;
      if a[0] == b[0] && Subsequence(a[1..], b[1..] + c) {
        var k' := SubsequenceSplit(a[1..], b[1..], c);
        k := k' + 1;
        assert a[..k][1..] == a[1..][..k'] && a[k..] == a[1..][k'..];
      } else {
        k := SubsequenceSplit(a, b[1..], c);
        assert Subsequence(a[..k], b) by {
          assert a[..k] == [] || Subsequence(a[..k], b[1..]);
        }
      }
    }
  }
}
