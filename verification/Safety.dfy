/** What holds in every state of every run: ownership, cleaning, counting, pending envelopes,
    split horizon. */
module Safety {
  import opened Sequences
  import opened Limits
  import opened Rows
  import opened Protocol
  import opened Invariants

  /** Every envelope ever created is in exactly one place, and there once. */
  lemma UniqueOwnership(r: Run, k: nat, e: int) returns (p: Place)
    requires IsRun(r) && k < |r.states| && Known(r.states[k], e)
    ensures Contains(r.states[k], p, e)
    ensures forall q :: Contains(r.states[k], q, e) ==> q == p
    ensures Distinct(r.states[k]) && |r.states[k].pool| <= 127
  {
    var s := r.states[k];
    InvariantHolds(r, k);
    p := s.envs[e].place;
    forall q ensures Contains(s, q, e) <==> q == p {
      assert Contains(s, q, e) <==> Is(s, e, q);
    }
  }

  /** Nothing that was never created is anywhere. */
  lemma NoStrangers(r: Run, k: nat, p: Place, e: int)
    requires IsRun(r) && k < |r.states| && Contains(r.states[k], p, e)
    ensures Known(r.states[k], e)
  {
    InvariantHolds(r, k);
    assert Is(r.states[k], e, p);
  }

  /** The message was accepted by the switch: it is on its way or has been cleaned. */
  ghost predicate Sent(s: State, t: int) {
    && 0 <= t < |s.tickets|
    && match s.tickets[t].fate
       case Cleaned => true
       case Refused => false
       case Carried(e) => Known(s, e) && s.envs[e].place != WithSender
  }

  /** How one step changes a message: it never forgets a delivery or a receipt, once sent it
      stays sent, and once cleaned or refused nothing more happens to it. */
  ghost predicate Evolves(s: State, s': State, t: int)
    requires 0 <= t < |s.tickets|
  {
    && |s.tickets| <= |s'.tickets|
    && var old', new' := s.tickets[t], s'.tickets[t];
       && new'.sender == old'.sender && new'.bus == old'.bus && new'.kind == old'.kind
       && old'.hops <= new'.hops && old'.receipts <= new'.receipts
       && (Sent(s, t) ==> Sent(s', t))
       && (!old'.fate.Carried? ==> new' == old')
       && (new'.fate.Carried? ==> new'.fate == old'.fate)
  }

  lemma EvolvesSwitch(s: State, a: Action)
    requires Enabled(s, a) && OfSwitch(a)
    requires var f := Subject(s, a).value; HasTicket(s, f) && s.tickets[s.envs[f].ticket].fate == Carried(f) && s.envs[f].place != WithSender
    ensures Evolves(s, Apply(s, a), s.envs[Subject(s, a).value].ticket)
  {
  }

  lemma EvolvesClient(s: State, a: Action)
    requires Enabled(s, a) && (a.Accept? || a.Refuse? || a.Receive? || a.Release?)
    requires var f := Subject(s, a).value; HasTicket(s, f) && s.tickets[s.envs[f].ticket].fate == Carried(f)
    requires a.Accept? || a.Refuse? ==> Is(s, a.e, WithSender)
    ensures Evolves(s, Apply(s, a), s.envs[Subject(s, a).value].ticket)
  {
  }

  lemma EvolvesOther(s: State, s': State, f: Option<int>, u: Option<int>, t: int)
    requires Framed(s, s', f, u) && 0 <= t < |s.tickets| && TicketOk(s, t)
    requires u != Some(t) && (s.tickets[t].fate.Carried? ==> f != Some(s.tickets[t].fate.e))
    ensures Evolves(s, s', t)
  {
  }

  lemma EvolvesSubject(s: State, a: Action)
    requires Inv(s) && Enabled(s, a) && SubjectTicket(s, a).Some?
    ensures var t := s.envs[Subject(s, a).value].ticket; 0 <= t < |s.tickets| && Evolves(s, Apply(s, a), t)
  {
    SubjectFacts(s, a);
    SubjectPlace(s, a);
    if OfSwitch(a) { EvolvesSwitch(s, a); } else { EvolvesClient(s, a); }
  }

  lemma EvolvesStep(s: State, a: Action, t: int)
    requires Inv(s) && Enabled(s, a) && 0 <= t < |s.tickets|
    ensures Evolves(s, Apply(s, a), t)
  {
    InvStep(s, a);
    if Subject(s, a).Some? {
      SubjectFacts(s, a);
    }
    if SubjectTicket(s, a) == Some(t) {
      EvolvesSubject(s, a);
    } else {
      assert TicketOk(s, t);
      EvolvesOther(s, Apply(s, a), Subject(s, a), SubjectTicket(s, a), t);
    }
  }

  /** Where a step finds its subject. */
  lemma SubjectPlace(s: State, a: Action)
    requires Inv(s) && Enabled(s, a) && SubjectTicket(s, a).Some?
    ensures var f := Subject(s, a).value;
            if a.Accept? || a.Refuse? then Is(s, f, WithSender) else s.envs[f].place != WithSender
  {
    var (f, p) := Moved(s, a);
    if a.Count? {
      assert EnvOk(s, s.pc.e);
    } else {
      assert Contains(s, p, f) <==> Is(s, f, p);
    }
  }

  lemma EvolvesAt(r: Run, k: nat, t: int)
    requires IsRun(r) && k < |r.acts| && 0 <= t < |r.states[k].tickets|
    ensures Evolves(r.states[k], r.states[k + 1], t)
  {
    RunStep(r, k);
    EvolvesStep(r.states[k], r.acts[k], t);
  }

  lemma EvolvesChain(s: State, m: State, s': State, t: int)
    requires 0 <= t < |s.tickets| && Evolves(s, m, t) && Evolves(m, s', t)
    ensures Evolves(s, s', t)
  {
  }

  lemma {:induction false} EvolvesRun(r: Run, i: nat, j: nat, t: int)
    requires IsRun(r) && i <= j < |r.states| && 0 <= t < |r.states[i].tickets|
    ensures Evolves(r.states[i], r.states[j], t)
    decreases j
  {
    if i < j {
      EvolvesRun(r, i, j - 1, t);
      EvolvesAt(r, j - 1, t);
      EvolvesChain(r.states[i], r.states[j - 1], r.states[j], t);
    }
  }

  /** The envelope of the message is in a queue, in the switch's hand or with a client. */
  ghost predicate OnItsWay(s: State, t: int, e: int) {
    && Known(s, e) && s.envs[e].ticket == t
    && exists p :: Contains(s, p, e) && p != Pooled && p != Destroyed && p != WithSender
  }

  /** A message the switch accepted is never lost: from then on either it has been cleaned,
      once, or exactly one envelope carries it through the queues and the clients. */
  lemma SentOnceCleanedOnce(r: Run, i: nat, j: nat, t: int)
    requires IsRun(r) && i <= j < |r.states| && Sent(r.states[i], t)
    ensures NoDup(r.states[j].cleaned)
    ensures t in r.states[j].cleaned <==> !exists e :: OnItsWay(r.states[j], t, e)
    ensures forall e, f :: OnItsWay(r.states[j], t, e) && OnItsWay(r.states[j], t, f) ==> e == f
  {
    var s := r.states[j];
    EvolvesRun(r, i, j, t);
    InvariantHolds(r, j);
    assert Sent(s, t) && TicketOk(s, t);
    forall e | OnItsWay(s, t, e) ensures s.tickets[t].fate == Carried(e) {
      var p :| Contains(s, p, e) && p != Pooled && p != Destroyed && p != WithSender;
      assert Is(s, e, p);
      assert EnvOk(s, e);
    }
    if s.tickets[t].fate.Carried? {
      var e := s.tickets[t].fate.e;
      assert Is(s, e, s.envs[e].place);
      assert Contains(s, s.envs[e].place, e);
      assert OnItsWay(s, t, e);
    }
  }

  /** The moment a message is cleaned: the switch holds its envelope, no queue and no client
      has it, every recipient has given it back, and afterwards the envelope is out of the
      protocol. */
  lemma CleaningMoment(r: Run, k: nat, t: int)
    requires IsRun(r) && k < |r.acts| && t !in r.states[k].cleaned && t in r.states[k + 1].cleaned
    ensures r.acts[k] == Route && r.states[k].pc.Got?
    ensures r.states[k + 1].cleaned == r.states[k].cleaned + [t]
    ensures var s, s', e := r.states[k], r.states[k + 1], r.states[k].pc.e;
            && Known(s, e) && s.envs[e].ticket == t
            && (forall p :: Contains(s, p, e) <==> p == InSwitchHand)
            && (forall p :: Contains(s', p, e) ==> p == Pooled || p == Destroyed)
            && Sent(s, t)
            && s.envs[e].delivered == s.envs[e].released == |s.tickets[t].hops| == |s.tickets[t].receipts|
            && (forall n :: 0 <= n < |s.tickets[t].hops| ==> s.tickets[t].receipts[n] == s.tickets[t].hops[n].conn)
  {
    var s, s', a := r.states[k], r.states[k + 1], r.acts[k];
    RunStep(r, k);
    if !Finalizes(s, a) {
      if a.Refuse? { SubjectFacts(s, a); }
      FatesStep(s, a);
      assert false;
    }
    var e := s.pc.e;
    SubjectFacts(s, a);
    assert EnvOk(s, e) && TicketOk(s, s.envs[e].ticket);
    assert Contains(s, InSwitchHand, e);
    forall p ensures Contains(s, p, e) <==> p == InSwitchHand {
      assert Contains(s, p, e) <==> Is(s, e, p);
    }
    assert s'.cleaned == s.cleaned + [s.envs[e].ticket];
    forall p | Contains(s', p, e) ensures p == Pooled || p == Destroyed {
      assert Is(s', e, p);
    }
  }

  /** The switch never cleans a message whose send failed. */
  lemma RefusedNeverCleaned(r: Run, i: nat, j: nat, t: int)
    requires IsRun(r) && i <= j < |r.states|
    requires 0 <= t < |r.states[i].tickets| && r.states[i].tickets[t].fate == Refused
    ensures t !in r.states[j].cleaned
    ensures t < |r.states[j].tickets| && r.states[j].tickets[t].hops == []
  {
    EvolvesRun(r, i, j, t);
    InvariantHolds(r, j);
    assert TicketOk(r.states[j], t);
  }

  /** Client `c` has envelope `e`, in its input queue or in its hands. */
  ghost predicate Has(s: State, c: int, e: int) {
    0 <= c < |s.conns| && (e in s.conns[c].inbox || e in s.conns[c].held)
  }

  lemma HasMeansPlace(s: State, c: int, e: int)
    requires Ownership(s)
    ensures Has(s, c, e) <==> Known(s, e) && WithClient(s.envs[e]) && s.envs[e].place.conn == c
  {
    assert Contains(s, InInbox(c), e) <==> Is(s, e, InInbox(c));
    assert Contains(s, HeldBy(c), e) <==> Is(s, e, HeldBy(c));
  }

  /** The two counters of an envelope differ by one exactly while a client has it; a delivery
      the switch has made and not yet counted makes up the difference. */
  lemma CountersTellWhereItIs(r: Run, k: nat, e: int)
    requires IsRun(r) && k < |r.states| && Known(r.states[k], e) && InFlight(r.states[k].envs[e])
    ensures var s, v := r.states[k], r.states[k].envs[e];
            var gap := v.delivered - v.released + (if s.pc == Counting(e) then 1 else 0);
            (gap == 1 <==> exists c :: Has(s, c, e)) && (gap == 0 <==> !exists c :: Has(s, c, e))
  {
    var s, v := r.states[k], r.states[k].envs[e];
    InvariantHolds(r, k);
    assert EnvOk(s, e);
    forall c ensures Has(s, c, e) <==> WithClient(v) && v.place.conn == c {
      HasMeansPlace(s, c, e);
    }
    if WithClient(v) {
      assert Has(s, v.place.conn, e);
    }
  }

  /** A message never reaches its own sender, whatever was pending and whoever subscribed since. */
  lemma SplitHorizon(r: Run, k: nat, c: int, e: int)
    requires IsRun(r) && k < |r.states| && Has(r.states[k], c, e)
    ensures Known(r.states[k], e) && r.states[k].envs[e].sender != c
  {
    var s := r.states[k];
    InvariantHolds(r, k);
    HasMeansPlace(s, c, e);
    assert EnvOk(s, e) && TicketOk(s, s.envs[e].ticket);
  }

  /** An envelope parked as pending waits in the switch queue or is in the switch's hand, with a
      recipient that is not its sender, and is no shutdown. The flag is also set between the put
      of a parked envelope and the count of that delivery, and then its recipient has it. */
  lemma PendingState(r: Run, k: nat, e: int)
    requires IsRun(r) && k < |r.states| && Known(r.states[k], e)
    requires InFlight(r.states[k].envs[e]) && r.states[k].envs[e].pending
    ensures var s, v := r.states[k], r.states[k].envs[e];
            && v.kind != 1 && 1 <= v.current <= 15 && v.target.Some? && v.target.value != v.sender
            && (s.pc != Counting(e) <==> Contains(s, OnSwitchQueue, e) || Contains(s, InSwitchHand, e))
            && (s.pc == Counting(e) <==> Has(s, v.target.value, e))
  {
    var s, v := r.states[k], r.states[k].envs[e];
    InvariantHolds(r, k);
    assert EnvOk(s, e) && TicketOk(s, v.ticket);
    assert Contains(s, v.place, e) <==> Is(s, e, v.place);
    HasMeansPlace(s, v.target.value, e);
    assert Contains(s, OnSwitchQueue, e) <==> Is(s, e, OnSwitchQueue);
    assert Contains(s, InSwitchHand, e) <==> Is(s, e, InSwitchHand);
  }

  /** Whenever the switch is about to put an envelope in an input queue it has a recipient for it,
      so the branch that drops the envelope is never taken. */
  lemma PutHasRecipient(r: Run, k: nat)
    requires IsRun(r) && k < |r.states| && r.states[k].pc.Trying?
    ensures Enabled(r.states[k], Put)
    ensures var v := r.states[k].envs[r.states[k].pc.e]; v.target.Some? && v.target.value != v.sender
  {
    var s := r.states[k];
    InvariantHolds(r, k);
    GuardIsEnough(s, Put);
    assert Contains(s, InSwitchHand, s.pc.e) && EnvOk(s, s.pc.e);
  }
}
