/** The switch thread stops only when a shutdown message has been all the way round. */
module Shutdown {
  import opened Protocol
  import opened Invariants
  import opened Lives
  import opened Delivery

  /** The end of the row of a message of type 1, and nothing else, stops the thread. */
  lemma StopStep(s: State, a: Action)
    requires Enabled(s, a)
    ensures Apply(s, a).stopped <==> s.stopped || (Finalizes(s, a) && s.envs[s.pc.e].kind == 1)
  {
  }

  /** A stopped switch stays stopped and takes nothing from its queue any more. */
  lemma {:induction false} StaysStopped(r: Run, i: nat, j: nat)
    requires IsRun(r) && i <= j < |r.states| && r.states[i].stopped
    ensures r.states[j].stopped
    ensures j < |r.acts| ==> !r.acts[j].Dequeue?
    decreases j
  {
    if i < j {
      StaysStopped(r, i, j - 1);
      RunStep(r, j - 1);
      StopStep(r.states[j - 1], r.acts[j - 1]);
    }
    if j < |r.acts| {
      assert StepAt(r, j);
    }
  }

  lemma {:induction false} StopMoment(r: Run, j: nat) returns (k: nat)
    requires IsRun(r) && j < |r.states| && r.states[j].stopped
    ensures k < j && !r.states[k].stopped && r.states[k + 1].stopped
  {
    if !r.states[j - 1].stopped {
      k := j - 1;
    } else {
      k := StopMoment(r, j - 1);
    }
  }

  /** Every connection that kept its slot of the bus of message `t` from before the scan came to
      it, and until state `k`, was served once and gave the message back. */
  ghost predicate AllServed(r: Run, k: nat, t: int)
    requires IsRun(r) && k < |r.states| && 0 <= t < |r.states[k].tickets|
  {
    forall i: nat, slot, c :: SitsThere(r, i, k, t, slot, c) && Scanned(At(r, i, t).life) < slot ==>
                                ServedOnce(r.states[k].tickets[t], slot, c)
  }

  lemma CleanedMeansServed(r: Run, k: nat, t: int)
    requires IsRun(r) && k < |r.states| && t in r.states[k].cleaned
    ensures 0 <= t < |r.states[k].tickets| && AllServed(r, k, t)
  {
    InvariantHolds(r, k);
    forall i: nat, slot, c | SitsThere(r, i, k, t, slot, c) && Scanned(At(r, i, t).life) < slot
      ensures ServedOnce(r.states[k].tickets[t], slot, c)
    {
      StableSlotServedOnce(r, i, k, t, slot, c);
    }
  }

  lemma StopStepCleans(s: State, a: Action)
    requires Inv(s) && Enabled(s, a) && Finalizes(s, a)
    ensures var t := s.envs[s.pc.e].ticket;
            && 0 <= t < |s.tickets| && s.tickets[t].kind == s.envs[s.pc.e].kind
            && t !in s.cleaned && Apply(s, a).cleaned == s.cleaned + [t]
  {
    InvStep(s, a);
    CleanedStep(s, a);
    SubjectFacts(s, a);
    assert EnvOk(s, s.pc.e);
  }

  /** If the switch has stopped, then at some step `k` it was finishing a shutdown message `t`:
      the scan of its bus had come to the end, every recipient that had kept its slot had received
      and released it, and it was cleaned in that very step and never before. From then on the
      switch dequeues nothing. */
  lemma SafeShutdown(r: Run, j: nat) returns (k: nat, t: int)
    requires IsRun(r) && j < |r.states| && r.states[j].stopped
    ensures k < j && !r.states[k].stopped && r.states[k + 1].stopped
    ensures 0 <= t < |r.states[k].tickets| && t < |r.states[k + 1].tickets| && r.states[k].tickets[t].kind == 1
    ensures t !in r.states[k].cleaned && r.states[k + 1].cleaned == r.states[k].cleaned + [t]
    ensures AllServed(r, k + 1, t)
    ensures forall m :: k < m < |r.acts| ==> !r.acts[m].Dequeue?
  {
    k := StopMoment(r, j);
    RunStep(r, k);
    StopStep(r.states[k], r.acts[k]);
    StopStepCleans(r.states[k], r.acts[k]);
    t := r.states[k].envs[r.states[k].pc.e].ticket;
    CleanedMeansServed(r, k + 1, t);
    forall m | k < m < |r.acts| ensures !r.acts[m].Dequeue? {
      StaysStopped(r, k + 1, m);
    }
  }

  lemma IdleWhenStopped(s: State, a: Action)
    requires Enabled(s, a) && (s.stopped ==> s.pc.Idle?)
    ensures Apply(s, a).stopped ==> Apply(s, a).pc.Idle?
    ensures s.stopped ==> Apply(s, a).cleaned == s.cleaned
  {
  }

  lemma {:induction false} StoppedIsIdle(r: Run, k: nat)
    requires IsRun(r) && k < |r.states| && r.states[k].stopped
    ensures r.states[k].pc.Idle?
  {
    if k > 0 {
      RunStep(r, k - 1);
      if r.states[k - 1].stopped {
        StoppedIsIdle(r, k - 1);
      }
      IdleWhenStopped(r.states[k - 1], r.acts[k - 1]);
    }
  }

  /** Once the switch has stopped, a message is ever cleaned if and only if it already is: what is
      still in a queue or with a client then, and what is sent later, never is. */
  lemma {:induction false} CleanedByTheStopOrNever(r: Run, i: nat, j: nat)
    requires IsRun(r) && i <= j < |r.states| && r.states[i].stopped
    ensures r.states[j].cleaned == r.states[i].cleaned
    decreases j
  {
    if i < j {
      CleanedByTheStopOrNever(r, i, j - 1);
      StaysStopped(r, i, j - 1);
      StoppedIsIdle(r, j - 1);
      RunStep(r, j - 1);
      IdleWhenStopped(r.states[j - 1], r.acts[j - 1]);
    }
  }
}
