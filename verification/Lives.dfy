/** The life of one message, as a small automaton, and the proof that every step of the
    protocol moves every message along it. The results about deliveries, hops and order are
    proved on this automaton. */
module Lives {
  import opened Sequences
  import opened Limits
  import opened Rows
  import opened Protocol
  import opened Invariants

  /** Where a message is. `slot` is the last slot the scan chose for it, 0 before the first.
      Parked, Retaken and Aimed have a recipient they have not been put to yet. */
  datatype Life =
    | Unsent
    | Queued(slot: int)
    | Taken(slot: int)
    | Parked(slot: int, conn: int)
    | Retaken(slot: int, conn: int)
    | Aiming(slot: int, conn: int)
    | Inbox(slot: int, conn: int)
    | Held(slot: int, conn: int)
    | Done
    | Rejected

  function LifeOf(s: State, t: int): Life
    requires 0 <= t < |s.tickets|
  {
    match s.tickets[t].fate
    case Cleaned => Done
    case Refused => Rejected
    case Carried(e) => if Known(s, e) then EnvLife(s, e) else Rejected
  }

  function EnvLife(s: State, e: int): Life
    requires Known(s, e)
  {
    var v := s.envs[e];
    var n := if v.current == -1 then 0 else v.current;
    var c := if v.target.Some? then v.target.value else -1;
    match v.place
    case WithSender => Unsent
    case OnSwitchQueue => if Aimed(s, e) then Parked(n, c) else Queued(n)
    case InSwitchHand => if s.pc == Trying(e) then Aiming(n, c) else if v.pending then Retaken(n, c) else Taken(n)
    case InInbox(d) => Inbox(n, d)
    case HeldBy(d) => Held(n, d)
    case _ => Rejected
  }

  /** The whole story of a message so far. */
  datatype Story = Story(life: Life, hops: seq<Hop<int>>, receipts: seq<int>)

  function StoryOf(s: State, t: int): Story
    requires 0 <= t < |s.tickets|
  {
    Story(LifeOf(s, t), s.tickets[t].hops, s.tickets[t].receipts)
  }

  /** The action acts on the message: it is carried by the subject of the step. */
  ghost predicate Touches(s: State, a: Action, t: int)
    requires Enabled(s, a)
  {
    !a.Offer? && Subject(s, a).Some? && HasTicket(s, Subject(s, a).value)
    && s.envs[Subject(s, a).value].ticket == t && s.tickets[t].fate == Carried(Subject(s, a).value)
  }

  /** What the protocol lets happen to a message in one step `a` of its own envelope. `row` is
      the row of its bus when the step is taken. */
  ghost predicate Turns(x: Story, a: Action, y: Story, row: Row<int>, sender: int)
    requires |row| == SLOTS + 1
  {
    match a
    case Accept(_) => x.life == Unsent && y == x.(life := Queued(0))
    case Refuse(_) => x.life == Unsent && y == x.(life := Rejected)
    case Dequeue =>
      || (x.life.Queued? && y == x.(life := Taken(x.life.slot)))
      || (x.life.Parked? && y == x.(life := Retaken(x.life.slot, x.life.conn)))
    case Route =>
      && x.life.Taken?
      && 0 <= x.life.slot <= SLOTS
      && var n := NextSlot(row, sender, x.life.slot);
         y == x.(life := if n == 0 then Done else Aiming(n, row[n].value))
    case Retry => x.life.Retaken? && y == x.(life := Aiming(x.life.slot, x.life.conn))
    case Busy => x.life.Aiming? && y == x.(life := Parked(x.life.slot, x.life.conn))
    case Put =>
      && x.life.Aiming?
      && y == Story(Inbox(x.life.slot, x.life.conn), x.hops + [Hop(x.life.slot, x.life.conn)], x.receipts)
    case Count => y == x
    case Receive(c) => x.life.Inbox? && x.life.conn == c && y == x.(life := Held(x.life.slot, c))
    case Release(c, _) => x.life.Held? && x.life.conn == c && y == Story(Queued(x.life.slot), x.hops, x.receipts + [c])
    case _ => false
  }

  ghost predicate TurnsAt(s: State, a: Action, s': State, t: int)
    requires 0 <= t < |s.tickets| && 0 <= t < |s'.tickets| && HasRow(s, s.tickets[t].bus)
  {
    Turns(StoryOf(s, t), a, StoryOf(s', t), s.table[s.tickets[t].bus], s.tickets[t].sender)
  }

  /** `e` is on its way with its message and stands where `p` says. */
  ghost predicate Found(s: State, e: int, p: Place) {
    Tables(s) && Good(s, e) && Is(s, e, p)
  }

  lemma TurnsDequeue(s: State)
    requires Enabled(s, Dequeue) && Found(s, s.queue[0], OnSwitchQueue)
    ensures TurnsAt(s, Dequeue, Apply(s, Dequeue), s.envs[s.queue[0]].ticket)
  {
  }

  lemma TurnsRoute(s: State)
    requires Enabled(s, Route) && Found(s, s.pc.e, InSwitchHand)
    ensures TurnsAt(s, Route, Apply(s, Route), s.envs[s.pc.e].ticket)
  {
    var v := s.envs[s.pc.e];
    var t := s.tickets[v.ticket];
    var n := NextSlot(s.table[v.bus], v.sender, v.current);
    assert NextSlot(s.table[v.bus], v.sender, if v.current == -1 then 0 else v.current) == n;
    assert Apply(s, Route).tickets[v.ticket] == if n == 0 then t.(fate := Cleaned) else t;
  }

  lemma TurnsPut(s: State)
    requires Enabled(s, Put) && Found(s, s.pc.e, InSwitchHand)
    ensures TurnsAt(s, Put, Apply(s, Put), s.envs[s.pc.e].ticket)
  {
  }

  lemma TurnsBusyOrRetry(s: State, a: Action)
    requires Enabled(s, a) && (a.Busy? || a.Retry?) && Found(s, s.pc.e, InSwitchHand)
    ensures TurnsAt(s, a, Apply(s, a), s.envs[s.pc.e].ticket)
  {
  }

  lemma TurnsCount(s: State)
    requires Enabled(s, Count) && Tables(s) && Good(s, s.pc.e)
    requires InFlight(s.envs[s.pc.e]) && s.envs[s.pc.e].place != InSwitchHand
    ensures TurnsAt(s, Count, Apply(s, Count), s.envs[s.pc.e].ticket)
  {
  }

  lemma TurnsAcceptOrRefuse(s: State, a: Action)
    requires Enabled(s, a) && (a.Accept? || a.Refuse?) && Found(s, a.e, WithSender)
    ensures TurnsAt(s, a, Apply(s, a), s.envs[a.e].ticket)
  {
  }

  lemma TurnsReceive(s: State, c: int)
    requires Enabled(s, Receive(c)) && Found(s, s.conns[c].inbox[0], InInbox(c))
    ensures TurnsAt(s, Receive(c), Apply(s, Receive(c)), s.envs[s.conns[c].inbox[0]].ticket)
  {
  }

  lemma TurnsRelease(s: State, c: int, k: nat)
    requires Enabled(s, Release(c, k)) && Found(s, s.conns[c].held[k], HeldBy(c))
    requires s.pc != Trying(s.conns[c].held[k])
    ensures TurnsAt(s, Release(c, k), Apply(s, Release(c, k)), s.envs[s.conns[c].held[k]].ticket)
  {
  }

  lemma SubjectFound(s: State, a: Action)
    requires Inv(s) && Enabled(s, a) && SubjectTicket(s, a).Some?
    ensures var f := Subject(s, a).value;
            && Good(s, f) && InFlight(s.envs[f]) && Touches(s, a, s.envs[f].ticket)
            && HasRow(s, s.tickets[s.envs[f].ticket].bus)
            && (if a.Count? then s.envs[f].place != InSwitchHand else Is(s, f, Moved(s, a).1))
            && (OfSwitch(a) || s.pc != Trying(f))
  {
    SubjectFacts(s, a);
    var f := Subject(s, a).value;
    assert EnvOk(s, f);
    assert Contains(s, Moved(s, a).1, Moved(s, a).0) <==> Is(s, Moved(s, a).0, Moved(s, a).1);
    assert Contains(s, InSwitchHand, f) <==> Is(s, f, InSwitchHand);
  }

  lemma SwitchTurns(s: State, a: Action)
    requires Inv(s) && Enabled(s, a) && OfSwitch(a)
    ensures var t := s.envs[Subject(s, a).value].ticket;
            0 <= t < |s.tickets| && t < |Apply(s, a).tickets| && HasRow(s, s.tickets[t].bus) && TurnsAt(s, a, Apply(s, a), t)
  {
    SubjectFound(s, a);
    if a.Dequeue? { TurnsDequeue(s); }
    else if a.Route? { TurnsRoute(s); }
    else if a.Put? { TurnsPut(s); }
    else if a.Count? { TurnsCount(s); }
    else { TurnsBusyOrRetry(s, a); }
  }

  lemma ClientTurns(s: State, a: Action)
    requires Inv(s) && Enabled(s, a) && (a.Accept? || a.Refuse? || a.Receive? || a.Release?)
    ensures var t := s.envs[Subject(s, a).value].ticket;
            0 <= t < |s.tickets| && t < |Apply(s, a).tickets| && HasRow(s, s.tickets[t].bus) && TurnsAt(s, a, Apply(s, a), t)
  {
    SubjectFound(s, a);
    if a.Receive? { TurnsReceive(s, a.c); }
    else if a.Release? { TurnsRelease(s, a.c, a.k); }
    else { TurnsAcceptOrRefuse(s, a); }
  }

  lemma UntouchedStays(s: State, s': State, f: Option<int>, u: Option<int>, t: int)
    requires Framed(s, s', f, u) && 0 <= t < |s.tickets| && TicketOk(s, t)
    requires u != Some(t) && (s.tickets[t].fate.Carried? ==> f != Some(s.tickets[t].fate.e))
    ensures StoryOf(s', t) == StoryOf(s, t)
  {
  }

  /** Every step of the protocol either is a turn in the life of the message or leaves its
      story as it is. */
  lemma StoryStep(s: State, a: Action, t: int)
    requires Inv(s) && Enabled(s, a) && 0 <= t < |s.tickets|
    ensures |s.tickets| <= |Apply(s, a).tickets| && HasRow(s, s.tickets[t].bus)
    ensures if Touches(s, a, t) then TurnsAt(s, a, Apply(s, a), t) else StoryOf(Apply(s, a), t) == StoryOf(s, t)
  {
    InvStep(s, a);
    assert TicketOk(s, t);
    if SubjectTicket(s, a).Some? {
      SubjectFound(s, a);
    } else if a.Offer? {
      SubjectFacts(s, a);
    }
    if SubjectTicket(s, a) == Some(t) {
      if OfSwitch(a) { SwitchTurns(s, a); } else { ClientTurns(s, a); }
    } else {
      UntouchedStays(s, Apply(s, a), Subject(s, a), SubjectTicket(s, a), t);
    }
  }

  /** A send creates one message, still with its sender, for the bus and of the type asked for; no other
      step creates any. */
  lemma NewMessage(s: State, a: Action)
    requires Enabled(s, a)
    ensures |Apply(s, a).tickets| == |s.tickets| + (if a.Offer? then 1 else 0)
    ensures a.Offer? ==> StoryOf(Apply(s, a), |s.tickets|) == Story(Unsent, [], [])
    ensures a.Offer? ==> var m := Apply(s, a).tickets[|s.tickets|];
                         m.sender == a.c && m.bus == a.b && m.kind == a.kind && m.fate == Carried(NextEnvelope(s))
  {
  }

  /** StoryStep along a run. */
  lemma StoryAt(r: Run, k: nat, t: int)
    requires IsRun(r) && k < |r.acts| && 0 <= t
    ensures Enabled(r.states[k], r.acts[k]) && |r.states[k].tickets| <= |r.states[k + 1].tickets|
    ensures Touches(r.states[k], r.acts[k], t) ==> t < |r.states[k].tickets|
    ensures t < |r.states[k].tickets| ==>
              && HasRow(r.states[k], r.states[k].tickets[t].bus)
              && SameTicket(r.states[k], r.states[k + 1], t)
              && if Touches(r.states[k], r.acts[k], t) then TurnsAt(r.states[k], r.acts[k], r.states[k + 1], t)
                 else StoryOf(r.states[k + 1], t) == StoryOf(r.states[k], t)
    ensures t >= |r.states[k].tickets| && t < |r.states[k + 1].tickets| ==> StoryOf(r.states[k + 1], t) == Story(Unsent, [], [])
  {
    RunStep(r, k);
    NewMessage(r.states[k], r.acts[k]);
    if t < |r.states[k].tickets| {
      StoryStep(r.states[k], r.acts[k], t);
      TicketsKeep(r.states[k], r.acts[k], t);
    }
  }

  ghost predicate SameTicket(s: State, s': State, t: int)
    requires 0 <= t < |s.tickets| <= |s'.tickets|
  {
    SameMessageOf(s.tickets[t], s'.tickets[t])
  }

  predicate SameMessageOf(x: Ticket, y: Ticket) {
    x.sender == y.sender && x.bus == y.bus && x.kind == y.kind
  }

  lemma TicketsKeep(s: State, a: Action, t: int)
    requires Enabled(s, a) && 0 <= t < |s.tickets|
    ensures SameMessageOf(s.tickets[t], Apply(s, a).tickets[t])
  {
  }
}
