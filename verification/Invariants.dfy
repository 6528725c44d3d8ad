/** What every step of the protocol keeps: each envelope is in exactly one place, each message
    is carried by at most one envelope, and the routing fields tell where the message has been. */
module Invariants {
  import opened Sequences
  import opened Limits
  import opened Rows
  import opened Protocol

  /** Rows of 16 slots, and only connections in them. */
  ghost predicate Tables(s: State) {
    && |s.table| == BUSSES
    && (forall b :: 0 <= b < BUSSES ==> |s.table[b]| == SLOTS + 1)
    && (forall b, i :: 0 <= b < BUSSES && 0 <= i <= SLOTS && s.table[b][i].Some? ==> 0 <= s.table[b][i].value < |s.conns|)
  }

  predicate EnvShape(v: Env, conns: int, tickets: int) {
    && 0 <= v.sender < conns
    && 1 <= v.bus < BUSSES
    && -1 <= v.current <= SLOTS
    && (v.target.Some? ==> 0 <= v.target.value < conns)
    && 0 <= v.ticket < tickets
  }

  ghost predicate Is(s: State, e: int, p: Place) {
    Known(s, e) && s.envs[e].place == p
  }

  predicate InFlight(v: Env) {
    v.place != Pooled && v.place != Destroyed
  }

  predicate WithClient(v: Env) {
    v.place.InInbox? || v.place.HeldBy?
  }

  /** Envelope `e` is in the container that stands for place `p`. */
  ghost predicate Contains(s: State, p: Place, e: int) {
    match p
    case Pooled => e in s.pool
    case Destroyed => e in s.destroyed
    case WithSender => e in s.offered
    case OnSwitchQueue => e in s.queue
    case InSwitchHand => s.pc == Got(e) || s.pc == Trying(e)
    case InInbox(c) => 0 <= c < |s.conns| && e in s.conns[c].inbox
    case HeldBy(c) => 0 <= c < |s.conns| && e in s.conns[c].held
  }

  /** No container holds an envelope twice, and the pool leaves slot 0 of its stack free. */
  ghost predicate Distinct(s: State) {
    && NoDup(s.pool) && |s.pool| < POOL_SIZE
    && NoDup(s.destroyed) && NoDup(s.queue)
    && forall c :: 0 <= c < |s.conns| ==> NoDup(s.conns[c].inbox) && NoDup(s.conns[c].held)
  }

  /** The containers agree with the places. */
  ghost predicate Ownership(s: State) {
    forall p, e :: Contains(s, p, e) <==> Is(s, e, p)
  }

  predicate SameMessage(v: Env, t: Ticket) {
    v.sender == t.sender && v.bus == t.bus && v.kind == t.kind
  }

  /** A message visits slots 1 to 15 in strictly increasing order, never its own sender, and
      the receipts are those of the recipients, in the same order. */
  ghost predicate Journey(t: Ticket) {
    && 1 <= t.bus < BUSSES
    && (forall i :: 0 <= i < |t.hops| ==> 1 <= t.hops[i].slot <= SLOTS && t.hops[i].conn != t.sender)
    && (forall i, j :: 0 <= i < j < |t.hops| ==> t.hops[i].slot < t.hops[j].slot)
    && |t.receipts| <= |t.hops|
    && (forall i :: 0 <= i < |t.receipts| ==> t.receipts[i] == t.hops[i].conn)
    && (t.fate == Cleaned ==> |t.receipts| == |t.hops|)
    && (t.fate == Refused ==> t.hops == [])
  }

  /** The scan has chosen a recipient and the envelope is not yet in its input queue. While the
      switch has not counted a delivery, `pending` may still be set from before the put. */
  predicate Aimed(s: State, e: int)
    requires Known(s, e)
  {
    s.pc == Trying(e) || (s.envs[e].pending && s.pc != Counting(e))
  }

  /** The routing fields and counters of an envelope on its way agree with its journey. */
  ghost predicate Routing(s: State, e: int, t: Ticket)
    requires Known(s, e)
  {
    var v := s.envs[e];
    var n := |t.hops|;
    && v.delivered + (if s.pc == Counting(e) then 1 else 0) == n
    && v.released == |t.receipts| == n - (if WithClient(v) then 1 else 0)
    && (WithClient(v) ==> n > 0 && t.hops[n - 1].conn == v.place.conn)
    && (v.place == WithSender ==> n == 0 && s.pc != Counting(e))
    && (v.pending ==> v.kind != SHUTDOWN)
    && (s.pc == Counting(e) ==> !(v.place == OnSwitchQueue && v.pending))
    && if Aimed(s, e) then
         && (v.place == OnSwitchQueue || v.place == InSwitchHand)
         && 1 <= v.current && v.target.Some? && v.target.value != v.sender
         && (n > 0 ==> t.hops[n - 1].slot < v.current)
       else if n == 0 then v.current == -1 && v.target == None
       else v.current == t.hops[n - 1].slot && v.target == Some(t.hops[n - 1].conn)
  }

  /** An envelope on its way carries one message, which knows it. */
  ghost predicate EnvOk(s: State, e: int)
    requires Known(s, e)
  {
    var v := s.envs[e];
    && EnvShape(v, |s.conns|, |s.tickets|)
    && (InFlight(v) ==>
          && s.tickets[v.ticket].fate == Carried(e)
          && SameMessage(v, s.tickets[v.ticket])
          && Routing(s, e, s.tickets[v.ticket]))
  }

  /** A message is carried by one envelope on its way until it is cleaned or refused. */
  ghost predicate TicketOk(s: State, t: int)
    requires 0 <= t < |s.tickets|
  {
    && Journey(s.tickets[t])
    && (s.tickets[t].fate.Carried? ==>
          var e := s.tickets[t].fate.e;
          Known(s, e) && InFlight(s.envs[e]) && s.envs[e].ticket == t)
  }

  /** `cleaned` lists each cleaned message, and each once. */
  ghost predicate CleanedOk(s: State) {
    && NoDup(s.cleaned)
    && (forall t :: t in s.cleaned <==> 0 <= t < |s.tickets| && s.tickets[t].fate == Cleaned)
  }

  ghost predicate Messages(s: State) {
    && (forall e :: Known(s, e) ==> EnvOk(s, e))
    && (forall t :: 0 <= t < |s.tickets| ==> TicketOk(s, t))
    && CountingOk(s)
  }

  /** The envelope whose delivery is still to be counted is on its way. */
  ghost predicate CountingOk(s: State) {
    s.pc.Counting? ==> Known(s, s.pc.e) && InFlight(s.envs[s.pc.e])
  }

  ghost predicate Inv(s: State) {
    Tables(s) && Distinct(s) && Ownership(s) && Messages(s) && CleanedOk(s)
  }

  predicate OfSwitch(a: Action) {
    a.Dequeue? || a.Route? || a.Retry? || a.Put? || a.Busy? || a.Count?
  }

  lemma DistinctSwitch(s: State, a: Action)
    requires Distinct(s) && Ownership(s) && Enabled(s, a) && OfSwitch(a)
    requires a == Put ==> s.envs[s.pc.e].target.Some?
    ensures Distinct(Apply(s, a))
  {
    if a.Dequeue? {
      TakeFirst(s.queue);
    } else if a.Count? || a.Retry? {
    } else {
      var e := s.pc.e;
      assert Contains(s, InSwitchHand, e);
      if a.Put? {
        var c := s.envs[e].target.value;
        assert !Contains(s, InInbox(c), e);
        PutIn(s.conns[c].inbox, e);
      } else if a.Busy? {
        assert !Contains(s, OnSwitchQueue, e);
        PutIn(s.queue, e);
      } else {
        assert !Contains(s, Pooled, e) && !Contains(s, Destroyed, e);
        PutIn(s.pool, e);
        PutIn(s.destroyed, e);
      }
    }
  }

  lemma DistinctClient(s: State, a: Action)
    requires Distinct(s) && Ownership(s) && Enabled(s, a) && !OfSwitch(a)
    ensures Distinct(Apply(s, a))
  {
    match a
    case Offer(_, _, _) =>
      if s.pool != [] { TakeLast(s.pool); }
    case Accept(e) =>
      assert !Contains(s, OnSwitchQueue, e) by { assert Contains(s, WithSender, e); }
      PutIn(s.queue, e);
    case Refuse(e) =>
      assert Contains(s, WithSender, e);
      assert !Contains(s, Pooled, e) && !Contains(s, Destroyed, e);
      PutIn(s.pool, e);
      PutIn(s.destroyed, e);
    case Receive(c) =>
      var e := s.conns[c].inbox[0];
      assert Contains(s, InInbox(c), e);
      assert !Contains(s, HeldBy(c), e);
      TakeFirst(s.conns[c].inbox);
      PutIn(s.conns[c].held, e);
    case Release(c, k) =>
      var e := s.conns[c].held[k];
      assert Contains(s, HeldBy(c), e);
      assert !Contains(s, OnSwitchQueue, e);
      TakeOut(s.conns[c].held, k);
      PutIn(s.queue, e);
    case _ =>
  }

  /** The envelope a step moves, and where it finds it. */
  function Moved(s: State, a: Action): (int, Place)
    requires Enabled(s, a)
  {
    match a
    case Offer(_, _, _) => (NextEnvelope(s), Pooled)
    case Accept(e) => (e, WithSender)
    case Refuse(e) => (e, WithSender)
    case Dequeue => (s.queue[0], OnSwitchQueue)
    case Receive(c) => (s.conns[c].inbox[0], InInbox(c))
    case Release(c, k) => (s.conns[c].held[k], HeldBy(c))
    case Count => (-1, Pooled)
    case Open => (-1, Pooled)
    case Subscribe(_, _) => (-1, Pooled)
    case Unsubscribe(_, _) => (-1, Pooled)
    case _ => (s.pc.e, InSwitchHand)
  }

  /** Recycling moves an envelope to the pool or, when the stack is full, destroys it. */
  lemma OwnershipPutBack(s: State, f: int, t: int, fate: Fate, p: Place, e: int)
    requires 0 <= f < |s.envs| && 0 <= t < |s.tickets|
    requires e != f ==> (Contains(s, p, e) <==> Is(s, e, p))
    requires !Contains(s, p, f)
    ensures var s' := PutBack(s, f, t, fate);
            !(p == InSwitchHand && e == f) ==> (Contains(s', p, e) <==> Is(s', e, p))
  {
  }

  /** What OwnershipStep needs for one place and one envelope. */
  lemma OwnershipSwitch(s: State, a: Action, p: Place, e: int)
    requires Distinct(s) && Enabled(s, a)
    requires a.Dequeue? || a.Retry? || a.Busy? || a.Count?
    requires forall p :: Contains(s, p, e) <==> Is(s, e, p)
    requires var (f, q) := Moved(s, a); a.Count? || Is(s, f, q)
    ensures Contains(Apply(s, a), p, e) <==> Is(Apply(s, a), e, p)
  {
    assert Contains(s, p, e) <==> Is(s, e, p);
    if a.Dequeue? {
      TakeFirst(s.queue);
    }
  }

  lemma OwnershipPut(s: State, p: Place, e: int)
    requires Distinct(s) && Enabled(s, Put) && s.envs[s.pc.e].target.Some?
    requires forall p :: Contains(s, p, e) <==> Is(s, e, p)
    requires Is(s, s.pc.e, InSwitchHand)
    ensures Contains(Apply(s, Put), p, e) <==> Is(Apply(s, Put), e, p)
  {
    assert Contains(s, p, e) <==> Is(s, e, p);
  }

  /** The scan has reached the end of the row of the envelope in the switch's hand. */
  predicate AtEnd(s: State)
    requires s.pc.Got? && HasTicket(s, s.pc.e) && HasRow(s, s.envs[s.pc.e].bus) && -1 <= s.envs[s.pc.e].current
  {
    var v := s.envs[s.pc.e];
    NextSlot(s.table[v.bus], v.sender, v.current) == 0
  }

  lemma OwnershipFinalize(s: State, p: Place, e: int)
    requires Ownership(s) && Enabled(s, Route) && AtEnd(s)
    ensures Contains(Apply(s, Route), p, e) <==> Is(Apply(s, Route), e, p)
  {
    var f := s.pc.e;
    assert Is(s, f, InSwitchHand) by { assert Contains(s, InSwitchHand, f); }
    assert Contains(s, p, f) <==> Is(s, f, p);
    assert Contains(s, p, e) <==> Is(s, e, p);
    OwnershipPutBack(s.(pc := Idle), f, s.envs[f].ticket, Cleaned, p, e);
  }

  lemma OwnershipRoute(s: State, p: Place, e: int)
    requires Ownership(s) && Enabled(s, Route) && !AtEnd(s)
    ensures Contains(Apply(s, Route), p, e) <==> Is(Apply(s, Route), e, p)
  {
    assert Contains(s, p, e) <==> Is(s, e, p);
  }

  lemma OwnershipSend(s: State, a: Action, p: Place, e: int)
    requires Ownership(s) && Enabled(s, a)
    requires a.Accept? || a.Refuse?
    ensures Contains(Apply(s, a), p, e) <==> Is(Apply(s, a), e, p)
  {
    assert Contains(s, WithSender, a.e);
    assert Contains(s, p, e) <==> Is(s, e, p);
    if a.Refuse? {
      assert Contains(s, p, a.e) <==> Is(s, a.e, p);
      OwnershipPutBack(s.(offered := s.offered - {a.e}), a.e, s.envs[a.e].ticket, Refused, p, e);
    }
  }

  lemma OwnershipClient(s: State, a: Action, p: Place, e: int)
    requires Distinct(s) && Enabled(s, a)
    requires a.Receive? || a.Release?
    requires forall p :: Contains(s, p, e) <==> Is(s, e, p)
    requires var (f, q) := Moved(s, a); Is(s, f, q)
    ensures Contains(Apply(s, a), p, e) <==> Is(Apply(s, a), e, p)
  {
    assert Contains(s, p, e) <==> Is(s, e, p);
    match a
    case Receive(c) => TakeFirst(s.conns[c].inbox);
    case Release(c, k) => TakeOut(s.conns[c].held, k);
  }

  lemma OwnershipOther(s: State, a: Action, p: Place, e: int)
    requires Distinct(s) && Enabled(s, a)
    requires a.Offer? || a.Open? || a.Subscribe? || a.Unsubscribe?
    requires forall p :: Contains(s, p, e) <==> Is(s, e, p)
    requires a.Offer? && s.pool != [] ==> Is(s, NextEnvelope(s), Pooled)
    ensures Contains(Apply(s, a), p, e) <==> Is(Apply(s, a), e, p)
  {
    assert Contains(s, p, e) <==> Is(s, e, p);
    if a.Offer? && s.pool != [] {
      TakeLast(s.pool);
    }
  }

  lemma OwnershipStep(s: State, a: Action)
    requires Distinct(s) && Ownership(s) && Enabled(s, a)
    requires a == Put ==> s.envs[s.pc.e].target.Some?
    ensures Ownership(Apply(s, a))
  {
    var (f, q) := Moved(s, a);
    assert Contains(s, q, f) ==> Is(s, f, q);
    forall p, e ensures Contains(Apply(s, a), p, e) <==> Is(Apply(s, a), e, p) {
      match a
      case Dequeue => OwnershipSwitch(s, a, p, e);
      case Retry => OwnershipSwitch(s, a, p, e);
      case Busy => OwnershipSwitch(s, a, p, e);
      case Count => OwnershipSwitch(s, a, p, e);
      case Put => OwnershipPut(s, p, e);
      case Route => if AtEnd(s) { OwnershipFinalize(s, p, e); } else { OwnershipRoute(s, p, e); }
      case Accept(_) => OwnershipSend(s, a, p, e);
      case Refuse(_) => OwnershipSend(s, a, p, e);
      case Receive(_) => OwnershipClient(s, a, p, e);
      case Release(_, _) => OwnershipClient(s, a, p, e);
      case _ => OwnershipOther(s, a, p, e);
    }
  }

  /** The envelope whose record or position a step changes. */
  function Subject(s: State, a: Action): Option<int>
    requires Enabled(s, a)
  {
    match a
    case Open => None
    case Subscribe(_, _) => None
    case Unsubscribe(_, _) => None
    case Count => Some(s.pc.e)
    case _ => Some(Moved(s, a).0)
  }

  /** The message whose record a step changes. */
  function SubjectTicket(s: State, a: Action): Option<int>
    requires Enabled(s, a) && (Subject(s, a).Some? && !a.Offer? ==> Known(s, Subject(s, a).value))
  {
    if Subject(s, a).None? || a.Offer? then None else Some(s.envs[Subject(s, a).value].ticket)
  }

  /** Nothing changes but the envelope `f` and the message `t`. */
  ghost predicate Framed(s: State, s': State, f: Option<int>, t: Option<int>) {
    && |s.envs| <= |s'.envs| && |s.tickets| <= |s'.tickets| && |s.conns| <= |s'.conns|
    && (forall e :: Known(s, e) && f != Some(e) ==> s'.envs[e] == s.envs[e])
    && (forall e :: Known(s', e) && !Known(s, e) ==> f == Some(e))
    && (forall u :: 0 <= u < |s.tickets| && t != Some(u) ==> s'.tickets[u] == s.tickets[u])
    && (forall e :: f != Some(e) ==> (s'.pc == Trying(e) <==> s.pc == Trying(e)))
    && (forall e :: f != Some(e) ==> (s'.pc == Counting(e) <==> s.pc == Counting(e)))
  }

  /** No message is new, and `f` still carries its own. */
  ghost predicate Same(s: State, s': State, f: int) {
    |s'.tickets| == |s.tickets| && Known(s, f) && Known(s', f) && s'.envs[f].ticket == s.envs[f].ticket
  }

  /** One message is new, and `f`, which was not on its way, carries it. */
  ghost predicate Fresh(s: State, s': State, f: int) {
    |s'.tickets| == |s.tickets| + 1 && Known(s', f) && s'.envs[f].ticket == |s.tickets|
  }

  lemma FrameSwitch(s: State, a: Action)
    requires Enabled(s, a) && OfSwitch(a) && Known(s, Subject(s, a).value)
    ensures Framed(s, Apply(s, a), Subject(s, a), SubjectTicket(s, a))
    ensures Same(s, Apply(s, a), Subject(s, a).value)
  {
  }

  lemma FrameClient(s: State, a: Action)
    requires Enabled(s, a) && !OfSwitch(a)
    requires Subject(s, a).Some? && !a.Offer? ==> Known(s, Subject(s, a).value)
    ensures Framed(s, Apply(s, a), Subject(s, a), SubjectTicket(s, a))
    ensures Subject(s, a).Some? && !a.Offer? ==> Same(s, Apply(s, a), Subject(s, a).value)
    ensures Subject(s, a).None? ==> |Apply(s, a).tickets| == |s.tickets|
    ensures a.Offer? ==> Fresh(s, Apply(s, a), Subject(s, a).value)
  {
  }

  lemma GoodFrame(s: State, s': State, f: Option<int>, t: Option<int>, e: int)
    requires Framed(s, s', f, t) && Known(s, e) && EnvOk(s, e)
    requires f != Some(e) && (InFlight(s.envs[e]) ==> t != Some(s.envs[e].ticket))
    ensures EnvOk(s', e)
  {
  }

  lemma TicketFrame(s: State, s': State, f: Option<int>, t: Option<int>, u: int)
    requires Framed(s, s', f, t) && 0 <= u < |s.tickets| && TicketOk(s, u)
    requires t != Some(u) && (s.tickets[u].fate.Carried? ==> f != Some(s.tickets[u].fate.e))
    ensures TicketOk(s', u)
  {
  }

  /** The subject of a step, and its message, are in order. */
  ghost predicate Good(s: State, e: int) {
    Known(s, e) && EnvOk(s, e) && TicketOk(s, s.envs[e].ticket)
  }

  lemma GoodDequeue(s: State)
    requires Enabled(s, Dequeue) && Good(s, s.queue[0]) && Is(s, s.queue[0], OnSwitchQueue)
    ensures Good(Apply(s, Dequeue), s.queue[0])
  {
  }

  lemma GoodFinalize(s: State)
    requires Enabled(s, Route) && AtEnd(s) && Good(s, s.pc.e) && Is(s, s.pc.e, InSwitchHand)
    ensures Good(Apply(s, Route), s.pc.e)
  {
    var e := s.pc.e;
    var s' := Apply(s, Route);
    assert !InFlight(s'.envs[e]);
    assert s'.tickets[s.envs[e].ticket] == s.tickets[s.envs[e].ticket].(fate := Cleaned);
  }

  lemma GoodRoute(s: State)
    requires Tables(s) && Enabled(s, Route) && !AtEnd(s) && Good(s, s.pc.e) && Is(s, s.pc.e, InSwitchHand)
    ensures Good(Apply(s, Route), s.pc.e)
  {
    var e := s.pc.e;
    var v := s.envs[e];
    var n := NextSlot(s.table[v.bus], v.sender, v.current);
    assert v.current < n <= SLOTS && s.table[v.bus][n].Some? && s.table[v.bus][n].value != v.sender;
    assert Apply(s, Route) == s.(envs := s.envs[e := v.(current := n, target := s.table[v.bus][n])], pc := Trying(e));
  }

  lemma PutJourney(s: State)
    requires Enabled(s, Put) && Good(s, s.pc.e) && Is(s, s.pc.e, InSwitchHand)
    ensures s.envs[s.pc.e].target.Some? && TicketOk(Apply(s, Put), s.envs[s.pc.e].ticket)
  {
  }

  lemma GoodPut(s: State)
    requires Enabled(s, Put) && Good(s, s.pc.e) && Is(s, s.pc.e, InSwitchHand)
    ensures s.envs[s.pc.e].target.Some? && Good(Apply(s, Put), s.pc.e)
  {
    PutJourney(s);
    assert EnvOk(Apply(s, Put), s.pc.e);
  }

  lemma GoodBusy(s: State)
    requires Enabled(s, Busy) && Good(s, s.pc.e) && Is(s, s.pc.e, InSwitchHand)
    ensures Good(Apply(s, Busy), s.pc.e)
  {
  }

  lemma GoodRetryOrCount(s: State, a: Action)
    requires Enabled(s, a) && (a.Retry? || a.Count?) && Good(s, s.pc.e)
    requires if a.Retry? then Is(s, s.pc.e, InSwitchHand) else InFlight(s.envs[s.pc.e])
    ensures Good(Apply(s, a), s.pc.e)
  {
  }

  lemma GoodOffer(s: State, a: Action)
    requires Enabled(s, a) && a.Offer?
    requires CountingOk(s)
    requires s.pc != Trying(NextEnvelope(s))
    requires s.pool != [] ==> Is(s, NextEnvelope(s), Pooled)
    ensures Good(Apply(s, a), NextEnvelope(s))
  {
  }

  lemma GoodAcceptOrRefuse(s: State, a: Action)
    requires Enabled(s, a) && (a.Accept? || a.Refuse?) && Good(s, a.e) && Is(s, a.e, WithSender)
    ensures Good(Apply(s, a), a.e)
  {
  }

  lemma GoodReceive(s: State, a: Action)
    requires Enabled(s, a) && a.Receive? && Good(s, s.conns[a.c].inbox[0])
    requires Is(s, s.conns[a.c].inbox[0], InInbox(a.c))
    ensures Good(Apply(s, a), s.conns[a.c].inbox[0])
  {
  }

  lemma GoodRelease(s: State, a: Action)
    requires Enabled(s, a) && a.Release? && Good(s, s.conns[a.c].held[a.k])
    requires Is(s, s.conns[a.c].held[a.k], HeldBy(a.c))
    ensures Good(Apply(s, a), s.conns[a.c].held[a.k])
  {
  }

  lemma MessagesFrom(s: State, s': State, f: Option<int>, t: Option<int>)
    requires Messages(s) && Framed(s, s', f, t)
    requires f.Some? ==> Good(s', f.value)
    requires match f
             case None => t.None? && |s'.tickets| == |s.tickets|
             case Some(e) => if t.None? then Fresh(s, s', e) && (Known(s, e) ==> !InFlight(s.envs[e]))
                             else Same(s, s', e) && InFlight(s.envs[e]) && t == Some(s.envs[e].ticket)
    requires CountingOk(s')
    ensures Messages(s')
  {
    forall e | Known(s', e) ensures EnvOk(s', e) {
      if f != Some(e) {
        assert EnvOk(s, e);
        if f.Some? && Known(s, f.value) { assert EnvOk(s, f.value); }
        GoodFrame(s, s', f, t, e);
      }
    }
    forall u | 0 <= u < |s'.tickets| ensures TicketOk(s', u) {
      if !(f.Some? && u == s'.envs[f.value].ticket) {
        assert TicketOk(s, u);
        TicketFrame(s, s', f, t, u);
      }
    }
  }

  lemma GoodHand(s: State, a: Action)
    requires Tables(s) && Enabled(s, a) && (a.Route? || a.Put? || a.Busy? || a.Retry?)
    requires Good(s, s.pc.e) && Is(s, s.pc.e, InSwitchHand)
    ensures a == Put ==> s.envs[s.pc.e].target.Some?
    ensures Good(Apply(s, a), s.pc.e)
  {
    if a.Route? {
      if AtEnd(s) { GoodFinalize(s); } else { GoodRoute(s); }
    } else if a.Put? {
      GoodPut(s);
    } else if a.Busy? {
      GoodBusy(s);
    } else {
      GoodRetryOrCount(s, a);
    }
  }

  lemma GoodSwitch(s: State, a: Action)
    requires Tables(s) && Ownership(s) && Messages(s) && Enabled(s, a) && OfSwitch(a)
    ensures a == Put ==> s.envs[s.pc.e].target.Some?
    ensures var f := Subject(s, a).value; Good(Apply(s, a), f) && Known(s, f) && InFlight(s.envs[f])
  {
    var f := Subject(s, a).value;
    if !a.Count? {
      assert Contains(s, Moved(s, a).1, f) <==> Is(s, f, Moved(s, a).1);
    }
    assert EnvOk(s, f) && TicketOk(s, s.envs[f].ticket);
    if a.Dequeue? {
      GoodDequeue(s);
    } else if a.Count? {
      GoodRetryOrCount(s, a);
    } else {
      GoodHand(s, a);
    }
  }

  lemma CountingSwitch(s: State, a: Action)
    requires Enabled(s, a) && OfSwitch(a) && Known(s, Subject(s, a).value)
    requires a == Put ==> s.envs[s.pc.e].target.Some?
    ensures CountingOk(Apply(s, a))
  {
  }

  lemma MessagesSwitch(s: State, a: Action)
    requires Tables(s) && Ownership(s) && Messages(s) && Enabled(s, a) && OfSwitch(a)
    ensures a == Put ==> s.envs[s.pc.e].target.Some?
    ensures Messages(Apply(s, a))
  {
    GoodSwitch(s, a);
    FrameSwitch(s, a);
    CountingSwitch(s, a);
    MessagesFrom(s, Apply(s, a), Subject(s, a), SubjectTicket(s, a));
  }

  lemma GoodClient(s: State, a: Action)
    requires Ownership(s) && Messages(s) && Enabled(s, a) && !OfSwitch(a) && Subject(s, a).Some?
    ensures var f := Subject(s, a).value;
            Good(Apply(s, a), f) && (if a.Offer? then Known(s, f) ==> !InFlight(s.envs[f]) else Known(s, f) && InFlight(s.envs[f]))
  {
    var f := Subject(s, a).value;
    var p := Moved(s, a).1;
    assert Contains(s, p, f) <==> Is(s, f, p);
    if a.Offer? {
      assert Contains(s, InSwitchHand, f) <==> Is(s, f, InSwitchHand);
      GoodOffer(s, a);
    } else {
      assert EnvOk(s, f) && TicketOk(s, s.envs[f].ticket);
      if a.Receive? {
        GoodReceive(s, a);
      } else if a.Release? {
        GoodRelease(s, a);
      } else {
        GoodAcceptOrRefuse(s, a);
      }
    }
  }

  lemma CountingClient(s: State, a: Action)
    requires Enabled(s, a) && !OfSwitch(a) && CountingOk(s)
    requires a.Refuse? ==> s.pc != Counting(a.e)
    ensures CountingOk(Apply(s, a))
  {
  }

  lemma MessagesClient(s: State, a: Action)
    requires Ownership(s) && Messages(s) && Enabled(s, a) && !OfSwitch(a)
    ensures Messages(Apply(s, a))
  {
    if Subject(s, a).Some? {
      GoodClient(s, a);
    }
    if a.Refuse? {
      assert Contains(s, WithSender, a.e) <==> Is(s, a.e, WithSender);
      assert EnvOk(s, a.e);
    }
    FrameClient(s, a);
    CountingClient(s, a);
    MessagesFrom(s, Apply(s, a), Subject(s, a), SubjectTicket(s, a));
  }

  predicate Finalizes(s: State, a: Action)
    requires Enabled(s, a)
  {
    a.Route? && AtEnd(s)
  }

  lemma CleanedStep(s: State, a: Action)
    requires CleanedOk(s) && Ownership(s) && Messages(s) && Enabled(s, a)
    requires Framed(s, Apply(s, a), Subject(s, a), SubjectTicket(s, a))
    ensures CleanedOk(Apply(s, a))
    ensures Finalizes(s, a) ==> s.envs[s.pc.e].ticket !in s.cleaned
  {
    if Finalizes(s, a) {
      var t := s.envs[s.pc.e].ticket;
      assert Contains(s, InSwitchHand, s.pc.e) && EnvOk(s, s.pc.e);
      assert Apply(s, a).tickets == s.tickets[t := s.tickets[t].(fate := Cleaned)];
      PutIn(s.cleaned, t);
    } else {
      if a.Refuse? {
        assert Contains(s, WithSender, a.e) && EnvOk(s, a.e);
      }
      FatesStep(s, a);
    }
  }

  /** Only the end of a scan makes a message Cleaned. */
  lemma FatesStep(s: State, a: Action)
    requires Enabled(s, a) && !Finalizes(s, a)
    requires a.Refuse? ==> s.tickets[s.envs[a.e].ticket].fate != Cleaned
    ensures Apply(s, a).cleaned == s.cleaned && |s.tickets| <= |Apply(s, a).tickets|
    ensures forall t :: 0 <= t < |s.tickets| ==> (Apply(s, a).tickets[t].fate == Cleaned <==> s.tickets[t].fate == Cleaned)
    ensures forall t :: |s.tickets| <= t < |Apply(s, a).tickets| ==> Apply(s, a).tickets[t].fate != Cleaned
  {
  }

  lemma TablesStep(s: State, a: Action)
    requires Tables(s) && Enabled(s, a)
    ensures Tables(Apply(s, a))
  {
    if !a.Subscribe? && !a.Unsubscribe? {
      SameTable(s, a);
    }
  }

  lemma SameTable(s: State, a: Action)
    requires Enabled(s, a) && !a.Subscribe? && !a.Unsubscribe?
    ensures Apply(s, a).table == s.table
  {
  }

  /** The guard of a step is all a reachable state needs for the step to be possible. */
  lemma GuardIsEnough(s: State, a: Action)
    requires Inv(s) && Guard(s, a)
    ensures Enabled(s, a)
  {
    match a
    case Offer(_, _, _) => assert s.pool != [] ==> Contains(s, Pooled, NextEnvelope(s));
    case Accept(e) => assert Contains(s, WithSender, e);
    case Refuse(e) => assert Contains(s, WithSender, e);
    case Dequeue => assert Contains(s, OnSwitchQueue, s.queue[0]);
    case Route => assert Contains(s, InSwitchHand, s.pc.e);
    case Put => assert Contains(s, InSwitchHand, s.pc.e);
    case Receive(c) => assert Contains(s, InInbox(c), s.conns[c].inbox[0]);
    case Release(c, k) => assert Contains(s, HeldBy(c), s.conns[c].held[k]);
    case _ =>
  }

  /** The subject of a step is on its way, with its message, unless a send is just taking it
      out of the pool. */
  lemma SubjectFacts(s: State, a: Action)
    requires Inv(s) && Enabled(s, a) && Subject(s, a).Some?
    ensures var f := Subject(s, a).value;
            if a.Offer? then Known(s, f) ==> !InFlight(s.envs[f])
            else Known(s, f) && InFlight(s.envs[f]) && Good(s, f)
  {
    if OfSwitch(a) { GoodSwitch(s, a); } else { GoodClient(s, a); }
    var f := Subject(s, a).value;
    if !a.Offer? {
      assert EnvOk(s, f) && TicketOk(s, s.envs[f].ticket);
    }
  }

  /** Every step keeps the invariant, and no step reaches the branch that drops an envelope. */
  lemma InvStep(s: State, a: Action)
    requires Inv(s) && Enabled(s, a)
    ensures Inv(Apply(s, a))
    ensures Framed(s, Apply(s, a), Subject(s, a), SubjectTicket(s, a))
    ensures a == Put ==> s.envs[s.pc.e].target.Some?
  {
    TablesStep(s, a);
    if OfSwitch(a) {
      MessagesSwitch(s, a);
      GoodSwitch(s, a);
      FrameSwitch(s, a);
      DistinctSwitch(s, a);
    } else {
      if Subject(s, a).Some? { GoodClient(s, a); }
      MessagesClient(s, a);
      FrameClient(s, a);
      DistinctClient(s, a);
    }
    OwnershipStep(s, a);
    CleanedStep(s, a);
  }

  lemma InvInit()
    ensures Inv(Init())
  {
  }

  lemma {:induction false} InvariantHolds(r: Run, k: nat)
    requires IsRun(r) && k < |r.states|
    ensures Inv(r.states[k])
  {
    if k == 0 {
      InvInit();
    } else {
      InvariantHolds(r, k - 1);
      assert StepAt(r, k - 1);
      InvStep(r.states[k - 1], r.acts[k - 1]);
    }
  }

  /** One step of a run. */
  lemma RunStep(r: Run, k: nat)
    requires IsRun(r) && k < |r.acts|
    ensures Inv(r.states[k]) && Inv(r.states[k + 1])
    ensures Enabled(r.states[k], r.acts[k]) && r.states[k + 1] == Apply(r.states[k], r.acts[k])
  {
    InvariantHolds(r, k);
    InvariantHolds(r, k + 1);
    assert StepAt(r, k);
  }
}
