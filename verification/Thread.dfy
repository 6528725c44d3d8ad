/** The loop of the switch thread, and what ties every call to the protocol: whatever the
    interleaving of calls, the history of the switch is a run, and in a state that a run leads to
    each call finds what it asks for. */
module Thread {
  import opened Sequences
  import opened Rows
  import opened Protocol
  import opened Invariants
  import opened History
  import opened LinkedQueue
  import opened Entities
  import opened EnvelopePool
  import opened SubscriberTable
  import opened Pictures
  import opened Switch
  import opened Traffic

  /** The run goes on with the steps `acts`. */
  ghost predicate GoesOn(r: Run, acts: seq<Action>, r': Run) {
    r'.acts == r.acts + acts && r.states <= r'.states
  }

  // ---------- The steps of the thread ----------

  lemma DequeueStep(r: Run, s: State) returns (r': Run)
    requires Recorded(r, s) && s.pc.Idle? && !s.stopped && s.queue != []
    ensures Ready(s, s.queue[0])
    ensures Recorded(r', ApplyDequeue(s)) && GoesOn(r, [Dequeue], r')
  {
    Step(r, s, Dequeue);
    ReadyAt(s, OnSwitchQueue, s.queue[0]);
    r' := Grow(r, Dequeue, ApplyDequeue(s));
  }

  lemma RouteStep(r: Run, s: State) returns (r': Run)
    requires Recorded(r, s) && s.pc.Got? && Known(s, s.pc.e) && !s.envs[s.pc.e].pending
    ensures Ready(s, s.pc.e) && HasRow(s, s.envs[s.pc.e].bus)
    ensures Recorded(r', ApplyRoute(s)) && GoesOn(r, [Route], r')
  {
    Step(r, s, Route);
    ReadyAt(s, InSwitchHand, s.pc.e);
    r' := Grow(r, Route, ApplyRoute(s));
  }

  lemma RetryStep(r: Run, s: State) returns (r': Run)
    requires Recorded(r, s) && s.pc.Got? && Known(s, s.pc.e) && s.envs[s.pc.e].pending
    ensures Recorded(r', s.(pc := Trying(s.pc.e))) && GoesOn(r, [Retry], r')
  {
    Step(r, s, Retry);
    r' := Grow(r, Retry, s.(pc := Trying(s.pc.e)));
  }

  /** There is always a recipient, so the put never drops the envelope. */
  lemma PutStep(r: Run, s: State) returns (r': Run)
    requires Recorded(r, s) && s.pc.Trying?
    ensures Ready(s, s.pc.e) && s.envs[s.pc.e].target.Some?
    ensures Recorded(r', ApplyPut(s)) && GoesOn(r, [Put], r')
  {
    Step(r, s, Put);
    InvStep(s, Put);
    ReadyAt(s, InSwitchHand, s.pc.e);
    r' := Grow(r, Put, ApplyPut(s));
  }

  lemma CountStep(r: Run, s: State) returns (r': Run)
    requires Recorded(r, s) && s.pc.Counting?
    ensures Ready(s, s.pc.e)
    ensures Recorded(r', ApplyCount(s)) && GoesOn(r, [Count], r')
  {
    Step(r, s, Count);
    assert EnvOk(s, s.pc.e);
    r' := Grow(r, Count, ApplyCount(s));
  }

  lemma BusyStep(r: Run, s: State) returns (r': Run)
    requires Recorded(r, s) && s.pc.Trying? && Known(s, s.pc.e) && s.envs[s.pc.e].kind != SHUTDOWN
    ensures Recorded(r', ApplyBusy(s)) && GoesOn(r, [Busy], r')
  {
    var q := PutStep(r, s);
    Step(r, s, Busy);
    r' := Grow(r, Busy, ApplyBusy(s));
  }

  lemma PutAndCountSteps(r: Run, s: State) returns (r': Run)
    requires Recorded(r, s) && s.pc.Trying?
    ensures Ready(s, s.pc.e) && s.envs[s.pc.e].target.Some?
    ensures Recorded(r', PutAndCount(s)) && GoesOn(r, [Put, Count], r')
  {
    var q := PutStep(r, s);
    r' := CountStep(q, ApplyPut(s));
  }

  /** A try to deliver is a BUSY outcome exactly when the lock is taken and the message is no
      shutdown; otherwise the put is made and counted. */
  lemma TriedSteps(r: Run, w: Picture, contended: bool) returns (r': Run)
    requires Recorded(r, w.st) && w.st.pc.Trying?
    ensures CanTry(w.st) && Recorded(r', Tried(w, contended).st) && Tried(w, contended).st.pc.Idle?
    ensures GoesOn(r, if contended && w.st.envs[w.st.pc.e].kind != 1 then [Busy] else [Put, Count], r')
  {
    var q := PutStep(r, w.st);
    if contended && w.st.envs[w.st.pc.e].kind != SHUTDOWN {
      r' := BusyStep(r, w.st);
    } else {
      r' := PutAndCountSteps(r, w.st);
    }
  }

  /** What a turn relies on holds in every state a run leads to. */
  lemma TurnReady(r: Run, s: State)
    requires Recorded(r, s)
    ensures CanTurn(s)
  {
    RecordedInv(r, s);
    if s.queue != [] {
      ReadyAt(s, OnSwitchQueue, s.queue[0]);
      assert EnvOk(s, s.queue[0]);
      assert Contains(s, InSwitchHand, s.queue[0]) <==> Is(s, s.queue[0], InSwitchHand);
    }
  }

  /** Where the envelope at the head of the switch queue goes next: the slot it is parked for or the
      next one of the row, 0 at the end of the row; and to whom. */
  ghost function NextStop(s: State): int
    requires CanTurn(s) && s.queue != []
  {
    var v := s.envs[s.queue[0]];
    if v.pending then v.current else NextSlot(s.table[v.bus], v.sender, v.current)
  }

  ghost function NextRecipient(s: State): Option<int>
    requires CanTurn(s) && s.queue != [] && 1 <= NextStop(s) <= 15
  {
    var v := s.envs[s.queue[0]];
    if v.pending then v.target else s.table[v.bus][NextStop(s)]
  }

  /** The steps of an iteration that takes up an envelope: a dequeue; the retry of a pending envelope
      or a look at the row; and unless the row is at its end a delivery, or a return to the switch
      queue exactly when the lock is taken and the message is no shutdown. */
  ghost function TurnActs(s: State, contended: bool): seq<Action>
    requires CanTurn(s) && s.queue != []
  {
    var v := s.envs[s.queue[0]];
    [Dequeue, if v.pending then Retry else Route]
    + (if NextStop(s) == 0 then [] else if contended && v.kind != 1 then [Busy] else [Put, Count])
  }

  /** What the iteration does: at the end of the row the message is cleaned, and a shutdown stops the
      thread; otherwise the message goes through the slot to the recipient, in front of its input
      queue or at the back, or to the tail of the switch queue, parked for that recipient. */
  ghost predicate TurnDoes(s: State, contended: bool, s': State)
    requires CanTurn(s) && s.queue != []
  {
    var e, n := s.queue[0], NextStop(s);
    var v := s.envs[e];
    if n == 0 then
      && s'.cleaned == s.cleaned + [v.ticket] && s'.stopped == (s.stopped || v.kind == 1)
      && s'.queue == s.queue[1..] && s'.conns == s.conns
    else
      && 1 <= n <= 15 && NextRecipient(s).Some? && 0 <= NextRecipient(s).value < |s.conns|
      && var c := NextRecipient(s).value;
         if contended && v.kind != 1 then
           && s'.queue == s.queue[1..] + [e] && s'.tickets == s.tickets && s'.conns == s.conns
           && Known(s', e) && s'.envs[e].pending && s'.envs[e].current == n && s'.envs[e].target == Some(c)
         else
           && s'.queue == s.queue[1..] && s'.cleaned == s.cleaned
           && s'.tickets == s.tickets[v.ticket := s.tickets[v.ticket].(hops := s.tickets[v.ticket].hops + [Hop(n, c)])]
           && |s'.conns| == |s.conns| && (forall d :: 0 <= d < |s.conns| && d != c ==> s'.conns[d] == s.conns[d])
           && s'.conns[c].inbox == if v.kind == 1 then [e] + s.conns[c].inbox else s.conns[c].inbox + [e]
  }

  /** A try to deliver, seen from the state in which the envelope was still in the switch queue. */
  lemma TriedDoes(s: State, x: Picture, contended: bool)
    requires CanTurn(s) && s.queue != [] && CanTry(x.st) && x.st.pc.e == s.queue[0]
    requires 1 <= NextStop(s) <= 15 && x.st.envs[x.st.pc.e].target == NextRecipient(s)
    requires var v := s.envs[s.queue[0]];
             x.st.envs == s.envs[s.queue[0] := v.(place := InSwitchHand, current := NextStop(s), target := NextRecipient(s))]
    requires x.st.queue == s.queue[1..] && x.st.tickets == s.tickets && x.st.conns == s.conns
    requires x.st.cleaned == s.cleaned && x.st.stopped == s.stopped
    ensures TurnDoes(s, contended, Tried(x, contended).st)
  {
  }

  /** One iteration of the loop, as steps of the protocol and by what it does. */
  lemma TurnSteps(r: Run, w: Picture, contended: bool) returns (r': Run)
    requires Recorded(r, w.st) && w.st.pc.Idle? && !w.st.stopped && w.st.queue != []
    requires Agrees(w)
    ensures CanTurn(w.st)
    ensures Recorded(r', AfterTurn(w, contended).st) && GoesOn(r, TurnActs(w.st, contended), r')
    ensures AfterTurn(w, contended).st.pc.Idle?
    ensures TurnDoes(w.st, contended, AfterTurn(w, contended).st)
  {
    var s := w.st;
    TurnReady(r, s);
    var r1 := DequeueStep(r, s);
    var v := w.(st := ApplyDequeue(s));
    var e := s.queue[0];
    if s.envs[e].pending {
      ParkedStop(r, s);
      var r2 := RetryStep(r1, v.st);
      var x := v.(st := v.st.(pc := Trying(e)));
      r' := TriedSteps(r2, x, contended);
      TriedDoes(s, x, contended);
    } else {
      r' := RoutedSteps(r1, s, v, contended);
    }
  }

  /** A pending envelope has a slot to go to. */
  lemma ParkedStop(r: Run, s: State)
    requires Recorded(r, s) && CanTurn(s) && s.queue != [] && s.envs[s.queue[0]].pending
    ensures 1 <= NextStop(s) <= 15
  {
    RecordedInv(r, s);
    assert EnvOk(s, s.queue[0]);
    assert Contains(s, OnSwitchQueue, s.queue[0]) <==> Is(s, s.queue[0], OnSwitchQueue);
  }

  lemma RoutedSteps(r1: Run, s: State, v: Picture, contended: bool) returns (r': Run)
    requires CanTurn(s) && s.queue != [] && !s.envs[s.queue[0]].pending && v.st == ApplyDequeue(s)
    requires Recorded(r1, v.st) && CanCarry(v)
    ensures Recorded(r', AfterCarry(v, contended).st) && AfterCarry(v, contended).st.pc.Idle?
    ensures GoesOn(r1, TurnActs(s, contended)[1..], r')
    ensures TurnDoes(s, contended, AfterCarry(v, contended).st)
  {
    var r2 := RouteStep(r1, v.st);
    if AtEnd(v.st) {
      r' := r2;
      EndDoes(s, v.st);
    } else {
      r' := TriedSteps(r2, Routed(v), contended);
      TriedDoes(s, Routed(v), contended);
    }
  }

  lemma EndDoes(s: State, v: State)
    requires CanTurn(s) && s.queue != [] && !s.envs[s.queue[0]].pending && v == ApplyDequeue(s) && AtEnd(v)
    ensures NextStop(s) == 0 && TurnDoes(s, false, ApplyRoute(v)) && TurnDoes(s, true, ApplyRoute(v)) && ApplyRoute(v).pc.Idle?
  {
  }

  /** Where an iteration leads, whether or not there is anything to take up. */
  lemma Foreseen(r: Run, w: Picture, nothing: bool, contended: bool) returns (w': Picture, r': Run)
    requires Recorded(r, w.st) && w.st.pc.Idle? && Agrees(w) && (!nothing ==> !w.st.stopped && w.st.queue != [])
    ensures CanTurn(w.st) && w' == if nothing then w else AfterTurn(w, contended)
    ensures Recorded(r', w'.st) && w'.st.pc.Idle? && w'.envs == w.envs && w'.conns == w.conns
    ensures if nothing then r' == r else GoesOn(r, TurnActs(w.st, contended), r') && TurnDoes(w.st, contended, w'.st)
  {
    TurnReady(r, w.st);
    w', r' := w, r;
    if !nothing {
      w' := AfterTurn(w, contended);
      r' := TurnSteps(r, w, contended);
    }
  }

  /** The thread function, one iteration at a time: from a state some run leads to, back to one,
      with the objects in step. Between two iterations the clients may make any calls. */
  method Iterate(sw: Switch, shutdownFlag: bool, lockTaken: bool, contended: bool, ghost w: Picture, ghost r: Run)
    returns (flag: bool, ghost w': Picture, ghost r': Run)
    requires sw.Valid(w) && Recorded(r, w.st) && w.st.pc.Idle? && shutdownFlag == w.st.stopped
    modifies sw`disposed, sw.queue, sw.queue.chain, sw.pool, sw.pool.stack, w.envs, Switch.Inputs(w.conns)
    ensures sw.Valid(w') && Recorded(r', w'.st) && w'.st.pc.Idle? && flag == w'.st.stopped
    ensures w'.envs == w.envs && w'.conns == w.conns && CanTurn(w.st)
    ensures if shutdownFlag || lockTaken || w.st.queue == [] then w' == w && r' == r
            else GoesOn(r, TurnActs(w.st, contended), r') && TurnDoes(w.st, contended, w'.st)
  {
    ghost var v;
    v, r' := Foreseen(r, w, shutdownFlag || lockTaken || w.st.queue == [], contended);
    flag, w' := sw.Turn(shutdownFlag, lockTaken, contended, w);
    assert w' == v;
  }

  /** An input queue holds the envelopes the state says, in that order. */
  lemma InboxShows(sw: Switch, w: Picture, c: int)
    requires sw.Valid(w) && 0 <= c < |w.conns|
    ensures |w.conns| == |w.st.conns| && Named(w.conns[c].inputQueue.contents, w.st.conns[c].inbox, w.envs)
  {
    assert ConnectionOk(w.conns[c], w.st.conns[c], w.envs);
  }

  // ---------- The same, a step at a time ----------

  /** The envelope the switch holds is on its way. */
  lemma HandReady(r: Run, s: State)
    requires Recorded(r, s) && (s.pc.Got? || s.pc.Trying?)
    ensures Ready(s, s.pc.e)
  {
    RecordedInv(r, s);
    ReadyAt(s, InSwitchHand, s.pc.e);
  }

  /** Each of these is one call of the thread; between any two of them the clients may make calls. */
  method TakeUp(sw: Switch, lockTaken: bool, ghost w: Picture, ghost r: Run) returns (e: Envelope?, ghost w': Picture, ghost r': Run)
    requires sw.Valid(w) && Recorded(r, w.st) && w.st.pc.Idle? && !w.st.stopped
    modifies sw.queue
    ensures w'.envs == w.envs && w'.conns == w.conns
    ensures sw.Valid(w') && Recorded(r', w'.st) && GoesOn(r, if e == null then [] else [Dequeue], r')
    ensures e == null <==> lockTaken || w.st.queue == []
    ensures e != null ==> InEnvs(w', e) && w'.st.pc == Got(e.id)
  {
    r' := r;
    TurnReady(r, w.st);
    if !lockTaken && w.st.queue != [] {
      r' := DequeueStep(r, w.st);
    }
    e, w' := sw.TryDequeue(lockTaken, w);
  }

  /** The look at the row: on to the next subscriber, or the end of the message. */
  method Look(sw: Switch, e: Envelope, ghost w: Picture, ghost r: Run)
    returns (next: Connection?, shutdown: bool, ghost w': Picture, ghost r': Run)
    requires sw.Valid(w) && Recorded(r, w.st) && w.st.pc == Got(e.id) && InEnvs(w, e) && !e.pending
    modifies sw`disposed, sw.pool, sw.pool.stack, e
    ensures w'.envs == w.envs && w'.conns == w.conns
    ensures sw.Valid(w') && Recorded(r', w'.st) && GoesOn(r, [Route], r')
    ensures shutdown == (next == null && old(e.kind) == 1)
    ensures if next == null then w'.st.pc.Idle? && w'.st.stopped == (w.st.stopped || shutdown) else Addressed(w', e, next)
  {
    HandReady(r, w.st);
    assert sw.Shows(e, w.st.envs[e.id], w);
    r' := RouteStep(r, w.st);
    shutdown := false;
    var code, index;
    code, next, index := sw.NextSubscriber(e, w);
    if code == EndOfSubscribersList {
      next := null;
      shutdown, w' := sw.EndOfList(e, w);
    } else {
      w' := sw.Forward(e, index, next, w);
    }
  }

  /** A pending envelope is aimed at its recipient again; the objects do not notice. */
  lemma Retake(sw: Switch, e: Envelope, w: Picture, r: Run) returns (w': Picture, r': Run)
    requires sw.Valid(w) && Recorded(r, w.st) && w.st.pc == Got(e.id) && InEnvs(w, e) && e.pending
    ensures w'.envs == w.envs && w'.conns == w.conns
    ensures sw.Valid(w') && Recorded(r', w'.st) && GoesOn(r, [Retry], r')
    ensures w'.st.pc == Trying(e.id) && InEnvs(w', e)
  {
    HandReady(r, w.st);
    assert sw.Shows(e, w.st.envs[e.id], w);
    r' := RetryStep(r, w.st);
    sw.AfterRetry(w);
    w' := w.(st := w.st.(pc := Trying(e.id)));
  }

  /** The put. There is always a recipient; a lock that is taken makes the outcome BUSY, and nothing
      has happened yet. */
  method Hand(sw: Switch, e: Envelope, contended: bool, ghost w: Picture, ghost r: Run) returns (code: Code, ghost w': Picture, ghost r': Run)
    requires sw.Valid(w) && Recorded(r, w.st) && w.st.pc == Trying(e.id) && InEnvs(w, e)
    modifies Switch.Inputs(w.conns)
    ensures w'.envs == w.envs && w'.conns == w.conns
    ensures sw.Valid(w') && Recorded(r', w'.st) && GoesOn(r, if code == Success then [Put] else [], r') && InEnvs(w', e)
    ensures code == if contended && e.kind != SHUTDOWN then BusyOutputQueue else Success
    ensures if code == Success then w'.st.pc == Counting(e.id) else w' == w
  {
    r' := PutStep(r, w.st);
    assert sw.Shows(e, w.st.envs[e.id], w);
    ghost var inputs := Switch.Inputs(w.conns);
    var conn := e.currentConn;
    assert conn == w.conns[conn.id] && conn.inputQueue in inputs && forall n :: n in conn.inputQueue.chain ==> n in inputs;
    StillOnTheWay(w, e, conn);
    code, w' := sw.Deliver(conn, e, contended, w);
    if code != Success {
      r' := r;
    }
  }

  /** The delivery is counted. */
  method Tally(sw: Switch, e: Envelope, ghost w: Picture, ghost r: Run) returns (ghost w': Picture, ghost r': Run)
    requires sw.Valid(w) && Recorded(r, w.st) && w.st.pc == Counting(e.id) && InEnvs(w, e)
    modifies e
    ensures w'.envs == w.envs && w'.conns == w.conns
    ensures sw.Valid(w') && Recorded(r', w'.st) && GoesOn(r, [Count], r') && w'.st.pc == Idle
  {
    r' := CountStep(r, w.st);
    w' := sw.CountDelivery(e, w);
  }

  /** The envelope is parked after a BUSY outcome. */
  method SendBack(sw: Switch, e: Envelope, ghost w: Picture, ghost r: Run) returns (ghost w': Picture, ghost r': Run)
    requires sw.Valid(w) && Recorded(r, w.st) && w.st.pc == Trying(e.id) && InEnvs(w, e) && e.kind != SHUTDOWN
    modifies e, sw.queue, sw.queue.chain
    ensures w'.envs == w.envs && w'.conns == w.conns
    ensures sw.Valid(w') && Recorded(r', w'.st) && GoesOn(r, [Busy], r') && w'.st.pc == Idle
  {
    HandReady(r, w.st);
    assert sw.Shows(e, w.st.envs[e.id], w);
    r' := BusyStep(r, w.st);
    w' := sw.Requeue(e, w);
  }

  // ---------- What the runs tell about the objects ----------

  /** The counters kept in different modules agree in every state a run leads to: what a client has
      received and what waits in its input queue make up what was ever put there; what was ever put
      in the switch queue are the sends, the releases and the BUSY outcomes. */
  lemma CountersAgree(sw: Switch, w: Picture, r: Run, c: int)
    requires sw.Valid(w) && Recorded(r, w.st) && 0 <= c < |w.conns|
    ensures var o := w.conns[c]; o.received + o.inputQueue.num == o.inputQueue.totalIn
    ensures sw.queue.totalIn == TotalSent(w.st.conns) + TotalReleased(w.st.conns) + w.st.requeues
  {
    RecordedIsRun(r, w.st);
    Conservation(r, |r.acts|);
    assert ConnectionOk(w.conns[c], w.st.conns[c], w.envs);
    assert Balanced(w.st.conns[c]);
  }

  /** What the switch has disposed of are the messages the protocol has cleaned, in that order, each
      with the message and the cleaner its sender gave; and no send has its message disposed of
      twice. */
  lemma DisposedOnce(sw: Switch, w: Picture, r: Run)
    requires sw.Valid(w) && Recorded(r, w.st)
    ensures |sw.disposed| == |w.st.cleaned| && NoDup(w.st.cleaned)
    ensures forall i :: 0 <= i < |sw.disposed| ==> 0 <= w.st.cleaned[i] < |w.orders| && sw.disposed[i] == w.orders[w.st.cleaned[i]]
  {
    RecordedInv(r, w.st);
  }
}
