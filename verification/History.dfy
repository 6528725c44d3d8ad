/** The history of a switch: the run of the protocol it has gone through so far. */
module History {
  import opened Protocol
  import opened Invariants

  /** The first state is the initial one, every other comes from a step. */
  ghost predicate StateAt(r: Run, k: int)
    requires 0 <= k < |r.states| == |r.acts| + 1
  {
    if k == 0 then r.states[0] == Init() else StepAt(r, k - 1)
  }

  /** `r` is a run, and `s` its last state. */
  ghost predicate Recorded(r: Run, s: State) {
    |r.states| == |r.acts| + 1 && r.states[|r.acts|] == s && forall k :: 0 <= k < |r.states| ==> StateAt(r, k)
  }

  lemma RecordedIsRun(r: Run, s: State)
    ensures Recorded(r, s) <==> IsRun(r) && r.states[|r.acts|] == s
  {
    if Recorded(r, s) {
      assert StateAt(r, 0);
      forall k | 0 <= k < |r.acts| ensures StepAt(r, k) {
        assert StateAt(r, k + 1);
      }
    }
  }

  ghost function Grow(r: Run, a: Action, s: State): Run {
    Run(r.states + [s], r.acts + [a])
  }

  lemma RecordedInit()
    ensures Recorded(Run([Init()], []), Init())
  {
  }

  lemma RecordedInv(r: Run, s: State)
    requires Recorded(r, s)
    ensures Inv(s)
  {
    RecordedIsRun(r, s);
    InvariantHolds(r, |r.acts|);
  }

  /** A step whose guard holds can be taken. */
  lemma Step(r: Run, s: State, a: Action)
    requires Recorded(r, s) && Guard(s, a)
    ensures Inv(s) && Enabled(s, a) && Recorded(Grow(r, a, Apply(s, a)), Apply(s, a))
  {
    RecordedInv(r, s);
    GuardIsEnough(s, a);
    var q := Grow(r, a, Apply(s, a));
    forall k | 0 <= k < |q.states| ensures StateAt(q, k) {
      if k < |r.states| {
        assert StateAt(r, k);
      }
    }
  }

  /** The steps determine the run: two histories with the same steps have gone through the same
      states. So a contract that names the steps of a call leaves no choice about what it did. */
  lemma {:induction false} SameStepsSameStates(q: Run, s: State, r: Run, t: State, k: nat)
    requires Recorded(q, s) && Recorded(r, t) && k < |q.states| && k < |r.states|
    requires forall i :: 0 <= i < k ==> i < |q.acts| && i < |r.acts| && q.acts[i] == r.acts[i]
    ensures q.states[k] == r.states[k]
  {
    assert StateAt(q, k) && StateAt(r, k);
    if k > 0 {
      SameStepsSameStates(q, s, r, t, k - 1);
    }
  }

  /** The envelope is on its way, and its record denotes connections and a message. */
  ghost predicate Ready(s: State, e: int) {
    Known(s, e) && InFlight(s.envs[e]) && EnvShape(s.envs[e], |s.conns|, |s.tickets|)
  }

  lemma ReadyAt(s: State, p: Place, e: int)
    requires Inv(s) && Contains(s, p, e) && p != Pooled && p != Destroyed
    ensures Ready(s, e) && s.envs[e].place == p
  {
  }
}
