/** The calls of the clients: in every state a run leads to each finds what it asks for, and the
    state after it extends the run, with the objects in step. So any interleaving of these calls
    and those of the thread takes the objects through a run of the protocol. */
module Clients {
  import opened Sequences
  import opened Limits
  import opened Rows
  import opened Protocol
  import opened Invariants
  import opened History
  import opened LinkedQueue
  import opened Entities
  import opened EnvelopePool
  import opened SubscriberTable
  import opened Pictures
  import opened Switch
  import opened Thread

  // ---------- The steps of the clients ----------

  lemma OpenStep(r: Run, w: Picture, conn: Connection) returns (r': Run)
    requires Recorded(r, w.st)
    ensures Recorded(r', Opened(w, conn).st) && GoesOn(r, [Open], r')
  {
    Step(r, w.st, Open);
    r' := Grow(r, Open, Apply(w.st, Open));
  }

  lemma SubscribeStep(r: Run, s: State, c: int, b: int) returns (r': Run)
    requires Recorded(r, s) && 0 <= c < |s.conns| && 1 <= b < BUSSES
    ensures HasRow(s, b)
    ensures Recorded(r', s.(table := s.table[b := Subscribed(s.table[b], c)])) && GoesOn(r, [Subscribe(c, b)], r')
  {
    Step(r, s, Subscribe(c, b));
    r' := Grow(r, Subscribe(c, b), Apply(s, Subscribe(c, b)));
  }

  lemma UnsubscribeStep(r: Run, s: State, c: int, b: int) returns (r': Run)
    requires Recorded(r, s) && 0 <= c < |s.conns| && 1 <= b < BUSSES
    ensures HasRow(s, b)
    ensures Recorded(r', s.(table := s.table[b := Unsubscribed(s.table[b], c)])) && GoesOn(r, [Unsubscribe(c, b)], r')
  {
    Step(r, s, Unsubscribe(c, b));
    r' := Grow(r, Unsubscribe(c, b), Apply(s, Unsubscribe(c, b)));
  }

  /** The envelope the pool gives out is never on its way. */
  lemma OfferReady(r: Run, w: Picture)
    requires Recorded(r, w.st)
    ensures CanOffer(w)
  {
    var s := w.st;
    RecordedInv(r, s);
    if s.pool != [] {
      assert Contains(s, Pooled, NextEnvelope(s));
      assert Is(s, NextEnvelope(s), Pooled);
    }
  }

  lemma OfferStep(r: Run, w: Picture, c: int, b: int, kind: int, d: Disposal, e: Envelope) returns (r': Run)
    requires Recorded(r, w.st) && 0 <= c < |w.st.conns| && 1 <= b < BUSSES
    ensures CanOffer(w)
    ensures Recorded(r', Offered(w, c, b, kind, d, e).st) && GoesOn(r, [Offer(c, b, kind)], r')
  {
    var s := w.st;
    OfferReady(r, w);
    Step(r, s, Offer(c, b, kind));
    r' := Grow(r, Offer(c, b, kind), ApplyOffer(s, c, b, kind));
  }

  lemma SubmitStep(r: Run, s: State, e: int, memory: bool) returns (r': Run)
    requires Recorded(r, s) && e in s.offered
    ensures Ready(s, e)
    ensures if memory then Recorded(r', ApplyAccept(s, e)) && GoesOn(r, [Accept(e)], r')
            else Recorded(r', ApplyRefuse(s, e)) && GoesOn(r, [Refuse(e)], r')
    ensures var s' := if memory then ApplyAccept(s, e) else ApplyRefuse(s, e); s'.pc == s.pc && s'.stopped == s.stopped
  {
    var a := if memory then Accept(e) else Refuse(e);
    Step(r, s, a);
    ReadyAt(s, WithSender, e);
    r' := Grow(r, a, Apply(s, a));
  }

  lemma SendSteps(r: Run, w: Picture, c: int, b: int, kind: int, d: Disposal, e: Envelope, memory: bool) returns (r': Run)
    requires Recorded(r, w.st) && 0 <= c < |w.st.conns| && 1 <= b < BUSSES
    ensures CanOffer(w)
    ensures Recorded(r', Sent(w, c, b, kind, d, e, memory).st) && Undisturbed(w, Sent(w, c, b, kind, d, e, memory))
    ensures var n := NextEnvelope(w.st); GoesOn(r, [Offer(c, b, kind), if memory then Accept(n) else Refuse(n)], r')
  {
    var q := OfferStep(r, w, c, b, kind, d, e);
    r' := SubmitStep(q, Offered(w, c, b, kind, d, e).st, NextEnvelope(w.st), memory);
  }

  lemma ReceiveStep(r: Run, s: State, c: int) returns (r': Run)
    requires Recorded(r, s) && 0 <= c < |s.conns| && s.conns[c].inbox != []
    ensures CanReceive(s, c)
    ensures Recorded(r', ApplyReceive(s, c)) && GoesOn(r, [Receive(c)], r')
  {
    Step(r, s, Receive(c));
    ReadyAt(s, InInbox(c), s.conns[c].inbox[0]);
    r' := Grow(r, Receive(c), ApplyReceive(s, c));
  }

  lemma ReleaseStep(r: Run, s: State, c: int, k: nat) returns (r': Run)
    requires Recorded(r, s) && 0 <= c < |s.conns| && k < |s.conns[c].held|
    ensures Ready(s, s.conns[c].held[k])
    ensures Recorded(r', ApplyRelease(s, c, k)) && GoesOn(r, [Release(c, k)], r')
  {
    Step(r, s, Release(c, k));
    ReadyAt(s, HeldBy(c), s.conns[c].held[k]);
    r' := Grow(r, Release(c, k), ApplyRelease(s, c, k));
  }

  // ---------- The calls ----------

  /** What a call leaves to everybody else: the objects keep their numbers, and the thread goes on
      where it is. */
  ghost predicate Undisturbed(w: Picture, w': Picture) {
    w.envs <= w'.envs && w.conns <= w'.conns && w'.st.pc == w.st.pc && w'.st.stopped == w.st.stopped
  }

  method CallConnect(sw: Switch, ghost w: Picture, ghost r: Run) returns (conn: Connection, ghost w': Picture, ghost r': Run)
    requires sw.Valid(w) && Recorded(r, w.st)
    ensures Undisturbed(w, w') && sw.Valid(w') && Recorded(r', w'.st) && GoesOn(r, [Open], r') && InConns(w', conn) && fresh(conn)
    ensures w'.conns == w.conns + [conn] && conn.inputQueue.contents == [] && conn.received == conn.released == conn.sent == 0
  {
    conn, w' := sw.Connect(w);
    assert w'.conns[|w.conns|] == conn;
    assert ConnectionOk(conn, w'.st.conns[|w.conns|], w'.envs);
    r' := OpenStep(r, w, conn);
  }

  method CallSubscribe(sw: Switch, conn: Connection?, bus: int, contended: bool, ghost w: Picture, ghost r: Run)
    returns (code: Code, ghost w': Picture, ghost r': Run)
    requires sw.Valid(w) && Recorded(r, w.st)
    requires (conn != null ==> InConns(w, conn)) && (conn != null && !contended ==> InTable(bus))
    modifies sw.table.slots
    ensures Undisturbed(w, w') && sw.Valid(w') && Recorded(r', w'.st)
    ensures conn != null && 1 <= bus < 7 ==> HasRow(w.st, bus)
    ensures code == if conn == null then BadConnection else if !(1 <= bus <= 7) then InvalidBus else if contended then ConnectionsBusy
                    else if forall i :: 1 <= i <= 15 ==> w.st.table[bus][i].Some? then BusFull else Success
    ensures GoesOn(r, if code == Success then [Subscribe(conn.id, bus)] else [], r')
  {
    code, w' := sw.Subscribe(conn, bus, contended, w);
    r' := r;
    if code == Success {
      r' := SubscribeStep(r, w.st, conn.id, bus);
    }
  }

  method CallUnsubscribe(sw: Switch, conn: Connection?, bus: int, contended: bool, ghost w: Picture, ghost r: Run)
    returns (code: Code, ghost w': Picture, ghost r': Run)
    requires sw.Valid(w) && Recorded(r, w.st)
    requires (conn != null ==> InConns(w, conn)) && (conn != null && !contended ==> InTable(bus))
    modifies sw.table.slots
    ensures Undisturbed(w, w') && sw.Valid(w') && Recorded(r', w'.st)
    ensures conn != null && 1 <= bus < 7 ==> HasRow(w.st, bus)
    ensures code == if conn == null then BadConnection else if !(1 <= bus <= 7) then InvalidBus else if contended then ConnectionsBusy
                    else if forall i :: 1 <= i <= 15 ==> w.st.table[bus][i] != Some(conn.id) then SubscriptionNotFound else Success
    ensures GoesOn(r, if code == Success then [Unsubscribe(conn.id, bus)] else [], r')
  {
    code, w' := sw.Unsubscribe(conn, bus, contended, w);
    r' := r;
    if code == Success {
      r' := UnsubscribeStep(r, w.st, conn.id, bus);
    }
  }

  /** The two halves of a send ... */
  method CallPrepare(sw: Switch, sender: Connection, bus: int, d: Disposal, kind: int, ghost w: Picture, ghost r: Run)
    returns (e: Envelope, ghost w': Picture, ghost r': Run)
    requires sw.Valid(w) && Recorded(r, w.st) && InConns(w, sender) && 1 <= bus < BUSSES
    modifies sw.pool, sw.pool.stack, if sw.pool.pooled == [] then {} else {sw.pool.pooled[|sw.pool.pooled| - 1]}
    ensures Undisturbed(w, w') && sw.Valid(w') && Recorded(r', w'.st) && GoesOn(r, [Offer(sender.id, bus, kind)], r')
    ensures InEnvs(w', e) && e.id in w'.st.offered && Known(w'.st, e.id) && w'.st.envs[e.id].sender == sender.id && InConns(w', sender)
    ensures e.id == NextEnvelope(w.st) && e.bus == bus && e.kind == kind && e.sender == sender && e.disposal == d
    ensures AsAsked(w, w', sender.id, bus, kind, d)
  {
    OfferReady(r, w);
    e, w' := sw.Prepare(sender, bus, d, kind, w);
    r' := OfferStep(r, w, sender.id, bus, kind, d, e);
  }

  method CallSubmit(sw: Switch, sender: Connection, e: Envelope, memory: bool, ghost w: Picture, ghost r: Run)
    returns (code: Code, ghost w': Picture, ghost r': Run)
    requires sw.Valid(w) && Recorded(r, w.st) && InConns(w, sender)
    requires InEnvs(w, e) && e.id in w.st.offered && Known(w.st, e.id) && w.st.envs[e.id].sender == sender.id
    modifies sw.queue, sw.queue.chain, sender`sent, sender`released, sw.pool, sw.pool.stack
    ensures Undisturbed(w, w') && sw.Valid(w') && Recorded(r', w'.st) && code == (if memory then Success else OutOfMemory)
    ensures GoesOn(r, [if memory then Accept(e.id) else Refuse(e.id)], r')
  {
    r' := SubmitStep(r, w.st, e.id, memory);
    code, w' := sw.Submit(sender, e, memory, w);
  }

  /** ... and the whole of it. */
  method CallSend(sw: Switch, conn: Connection?, bus: int, d: Disposal, kind: int, memory: bool, ghost w: Picture, ghost r: Run)
    returns (code: Code, ghost w': Picture, ghost r': Run)
    requires sw.Valid(w) && Recorded(r, w.st) && (conn != null ==> InTable(bus) && InConns(w, conn))
    modifies if conn == null then {} else {conn}
    modifies sw.pool, sw.pool.stack, if sw.pool.pooled == [] then {} else {sw.pool.pooled[|sw.pool.pooled| - 1]}
    modifies sw.queue, sw.queue.chain
    ensures Undisturbed(w, w') && sw.Valid(w') && Recorded(r', w'.st)
    ensures code == if conn == null then BadConnection else if !(1 <= bus <= 7) then InvalidBus
                    else if memory then Success else OutOfMemory
    ensures var n := NextEnvelope(w.st);
            GoesOn(r, if conn == null || !(1 <= bus <= 7) then [] else [Offer(conn.id, bus, kind), if memory then Accept(n) else Refuse(n)], r')
    ensures if conn != null && 1 <= bus <= 7 then AsAsked(w, w', conn.id, bus, kind, d) else w' == w
  {
    OfferReady(r, w);
    ghost var e;
    code, e, w' := sw.Send(conn, bus, d, kind, memory, w);
    r' := r;
    if conn != null && 1 <= bus <= 7 {
      r' := SendSteps(r, w, conn.id, bus, kind, d, e, memory);
    }
  }

  /** An envelope on its way has the type, bus, message and cleaner of the send it comes from. */
  lemma ShowsItsMessage(sw: Switch, w: Picture, r: Run, e: Envelope)
    requires sw.Valid(w) && Recorded(r, w.st) && OnTheWay(w, e)
    ensures HasTicket(w.st, e.id) && |w.orders| == |w.st.tickets|
    ensures var t := w.st.envs[e.id].ticket; e.kind == w.st.tickets[t].kind && e.bus == w.st.tickets[t].bus && e.disposal == w.orders[t]
  {
    RecordedInv(r, w.st);
    assert EnvOk(w.st, e.id);
    assert sw.Shows(e, w.st.envs[e.id], w);
  }

  /** What the receive does to the state. */
  lemma ReceivedState(s: State, c: int)
    requires 0 <= c < |s.conns| && s.conns[c].inbox != [] && Ready(s, s.conns[c].inbox[0])
    ensures var s', e := ApplyReceive(s, c), s.conns[c].inbox[0];
            && Ready(s', e) && |s'.conns| == |s.conns| && s'.conns[c].held == s.conns[c].held + [e]
            && s'.pc == s.pc && s'.stopped == s.stopped
  {
  }

  /** The client has got the first envelope of its input queue: the last of those it now holds, with
      the type, message and cleaner of the send it comes from. */
  ghost predicate Received(w: Picture, w': Picture, conn: Connection, e: Envelope?)
    requires 0 <= conn.id < |w.st.conns|
    reads e
  {
    && e != null && InEnvs(w', e) && w'.envs == w.envs && w'.conns == w.conns
    && w.st.conns[conn.id].inbox != [] && e.id == w.st.conns[conn.id].inbox[0]
    && |w'.st.conns| == |w.st.conns| && w'.st.conns[conn.id].held == w.st.conns[conn.id].held + [e.id]
    && HasTicket(w'.st, e.id) && w'.st.envs[e.id].ticket < |w'.orders|
    && e.kind == w'.st.tickets[w'.st.envs[e.id].ticket].kind && e.disposal == w'.orders[w'.st.envs[e.id].ticket]
  }

  method CallReceiveNb(sw: Switch, conn: Connection?, contended: bool, ghost w: Picture, ghost r: Run)
    returns (code: Code, e: Envelope?, ghost w': Picture, ghost r': Run)
    requires sw.Valid(w) && Recorded(r, w.st) && (conn != null ==> InConns(w, conn))
    modifies if conn == null then {} else {conn, conn.inputQueue}
    ensures Undisturbed(w, w') && sw.Valid(w') && Recorded(r', w'.st)
    ensures code == if conn == null then BadConnection
                    else if contended || w.st.conns[conn.id].inbox == [] then NoMessage else Success
    ensures GoesOn(r, if code == Success then [Receive(conn.id)] else [], r')
    ensures if code == Success then Received(w, w', conn, e) else e == null && w' == w
  {
    r' := r;
    if conn != null && w.st.conns[conn.id].inbox != [] {
      var q := ReceiveStep(r, w.st, conn.id);
      ReceivedState(w.st, conn.id);
      if !contended {
        r' := q;
      }
    }
    code, e, w' := sw.ReceiveNb(conn, contended, w);
    if code == Success {
      ShowsItsMessage(sw, w', r', e);
    }
  }

  /** The client holds the envelope, at position `k`. */
  method CallRelease(sw: Switch, conn: Connection?, e: Envelope?, ghost k: nat, ghost w: Picture, ghost r: Run)
    returns (code: Code, ghost w': Picture, ghost r': Run)
    requires sw.Valid(w) && Recorded(r, w.st)
    requires conn != null && e != null ==>
               InConns(w, conn) && InEnvs(w, e) && k < |w.st.conns[conn.id].held| && w.st.conns[conn.id].held[k] == e.id
    modifies if conn == null || e == null then {} else {conn, e, sw.queue}
    modifies if conn == null || e == null then [] else sw.queue.chain
    ensures Undisturbed(w, w') && sw.Valid(w') && Recorded(r', w'.st)
    ensures code == if conn == null then BadConnection else if e == null then InvalidEnvelope else Success
    ensures GoesOn(r, if conn != null && e != null then [Release(conn.id, k)] else [], r')
  {
    r' := r;
    if conn != null && e != null {
      r' := ReleaseStep(r, w.st, conn.id, k);
    }
    code, w' := sw.Release(conn, e, k, w);
  }
}
