/** Runs of a deterministic labelled state machine, for any machine. */
module Runs {

  /** The state after a run. */
  function Exec<S, L>(next: (S, L) -> S, s: S, run: seq<L>): S {
    if run == [] then s else next(Exec(next, s, run[..|run| - 1]), run[|run| - 1])
  }

  lemma {:induction false} ExecAppend<S, L>(next: (S, L) -> S, s: S, a: seq<L>, b: seq<L>)
    ensures Exec(next, s, a + b) == Exec(next, Exec(next, s, a), b)
  {
    if b == [] {
      assert a + b == a;
    } else {
      var n := |b| - 1;
      assert (a + b)[..|a + b| - 1] == a + b[..n];
      ExecAppend(next, s, a, b[..n]);
    }
  }

  lemma ExecSnoc<S, L>(next: (S, L) -> S, s: S, run: seq<L>, l: L)
    ensures Exec(next, s, run + [l]) == next(Exec(next, s, run), l)
  {
    assert (run + [l])[..|run|] == run;
  }

  lemma ExecPair<S, L>(next: (S, L) -> S, s: S, a: L, b: L)
    ensures Exec(next, s, [a, b]) == next(next(s, a), b)
  {
    assert [a, b][..1] == [a] && [a][..0] == [];
    assert Exec(next, s, [a][..0]) == s;
  }

  // ---- recorded histories ----

  ghost predicate Stepped<S, L>(next: (S, L) -> S, states: seq<S>, trace: seq<L>, i: nat)
    requires i < |trace| && |states| == |trace| + 1
  {
    states[i + 1] == next(states[i], trace[i])
  }

  ghost predicate IsHistory<S, L>(next: (S, L) -> S, states: seq<S>, trace: seq<L>) {
    |states| == |trace| + 1 && forall i | 0 <= i < |trace| :: Stepped(next, states, trace, i)
  }

  lemma HistoryExtends<S, L>(next: (S, L) -> S, states: seq<S>, trace: seq<L>, l: L)
    requires IsHistory(next, states, trace)
    ensures IsHistory(next, states + [next(states[|trace|], l)], trace + [l])
  {
    var states', trace' := states + [next(states[|trace|], l)], trace + [l];
    forall i | 0 <= i < |trace'| ensures Stepped(next, states', trace', i) {
      assert i < |trace| ==> Stepped(next, states, trace, i);
    }
  }

  /** A recorded history is a run of the machine. */
  lemma {:induction false} HistoryIsRun<S, L>(next: (S, L) -> S, states: seq<S>, trace: seq<L>)
    requires IsHistory(next, states, trace)
    ensures states[|trace|] == Exec(next, states[0], trace)
  {
    if trace != [] {
      var n := |trace| - 1;
      var states', trace' := states[..n + 1], trace[..n];
      forall i | 0 <= i < n ensures Stepped(next, states', trace', i) {
        assert Stepped(next, states, trace, i);
      }
      HistoryIsRun(next, states', trace');
      assert Stepped(next, states, trace, n);
    }
  }
}
