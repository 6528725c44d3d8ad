/** When two messages of one sender on one bus keep their order, through the switch queue, the input
    queues and the clients, whatever other traffic there is: exactly when the later one never
    overtakes the earlier one at a recipient for which that is parked. */
module Ordering {
  import opened Sequences
  import opened Limits
  import opened Rows
  import opened Protocol
  import opened Invariants
  import opened Lives
  import opened Delivery

  /** How far along its way a message is. */
  function Key(l: Life): int {
    match l
    case Unsent => 0
    case Rejected => 0
    case Done => 6 * SLOTS + 6
    case Aiming(n, _) => 6 * n
    case Parked(n, _) => 6 * n
    case Retaken(n, _) => 6 * n
    case Inbox(n, _) => 6 * n + 1
    case Held(n, _) => 6 * n + 2
    case Queued(n) => 6 * n + 3
    case Taken(n) => 6 * n + 4
  }

  /** A turn takes a message further, or leaves it with the recipient it has not got to yet;
      counting the delivery does not move it. */
  lemma TurnGoesOn(x: Story, a: Action, y: Story, row: Row<int>, sender: int)
    requires Follows(x, row, sender) && Turns(x, a, y, row, sender)
    requires !a.Refuse? && !a.Count?
    ensures Key(y.life) > Key(x.life) || SameTarget(x.life, y.life)
  {
  }

  /** Both are on their way to the recipient in the same slot. */
  predicate SameTarget(k: Life, l: Life) {
    HasTarget(k) && HasTarget(l) && k.slot == l.slot
  }

  function EnvelopeOf(s: State, t: int): int
    requires 0 <= t < |s.tickets|
  {
    match s.tickets[t].fate
    case Carried(e) => e
    case _ => -1
  }

  /** Envelope `d` stands before envelope `e` in the container that stands for life `l`. */
  ghost predicate InFront(s: State, l: Life, d: int, e: int) {
    match l
    case Queued(_) => Before(s.queue, d, e)
    case Inbox(_, c) => 0 <= c < |s.conns| && Before(s.conns[c].inbox, d, e)
    case Held(_, c) => 0 <= c < |s.conns| && Before(s.conns[c].held, d, e)
    case _ => false
  }

  /** Message `x` is further than message `y`, or as far and in front of it, or on its way to the
      same recipient. */
  ghost predicate Ahead(s: State, x: int, y: int)
    requires 0 <= x < |s.tickets| && 0 <= y
  {
    y < |s.tickets| ==>
      var k, l := LifeOf(s, x), LifeOf(s, y);
      || Key(l) == 0 || Key(k) > Key(l) || k == l == Done || SameTarget(k, l)
      || (k == l && InFront(s, k, EnvelopeOf(s, x), EnvelopeOf(s, y)))
  }

  /** Neither of the two envelopes is moved by the step: they stay in order, in the switch queue ... */
  lemma FrontInQueue(s: State, a: Action, d: int, e: int)
    requires Enabled(s, a) && Before(s.queue, d, e)
    requires a == Put ==> s.envs[s.pc.e].target.Some?
    requires a.Count? || (Subject(s, a) != Some(d) && Subject(s, a) != Some(e))
    ensures Before(Apply(s, a).queue, d, e)
  {
    match a
    case Accept(f) => BeforeGrow(s.queue, f, d, e);
    case Busy => BeforeGrow(s.queue, s.pc.e, d, e);
    case Release(c, k) => BeforeGrow(s.queue, s.conns[c].held[k], d, e);
    case Dequeue =>
      BeforeWithout(s.queue, 0, d, e);
      assert Without(s.queue, 0) == s.queue[1..];
    case _ =>
  }

  /** ... and in the hands of a client or its input queue. */
  lemma FrontAtClient(s: State, a: Action, l: Life, d: int, e: int)
    requires Enabled(s, a) && InFront(s, l, d, e) && (l.Inbox? || l.Held?)
    requires a == Put ==> s.envs[s.pc.e].target.Some?
    requires a.Count? || (Subject(s, a) != Some(d) && Subject(s, a) != Some(e))
    ensures InFront(Apply(s, a), l, d, e)
  {
    if a.Put? {
      BeforeInbox(s.conns[l.conn].inbox, s.pc.e, l, d, e);
    } else if a.Receive? || a.Release? {
      FrontAtItsClient(s, a, l, d, e);
    }
  }

  lemma FrontAtItsClient(s: State, a: Action, l: Life, d: int, e: int)
    requires Enabled(s, a) && InFront(s, l, d, e) && (l.Inbox? || l.Held?) && (a.Receive? || a.Release?)
    requires Subject(s, a) != Some(d) && Subject(s, a) != Some(e)
    ensures InFront(Apply(s, a), l, d, e)
  {
    var q := s.conns[l.conn];
    if a.c == l.conn {
      if a.Receive? {
        BeforeTaken(q.inbox, q.held, l, d, e);
      } else if l.Held? {
        BeforeWithout(q.held, a.k, d, e);
      }
    }
  }

  lemma BeforeInbox(inbox: seq<int>, f: int, l: Life, d: int, e: int)
    requires l.Inbox? ==> Before(inbox, d, e)
    ensures l.Inbox? ==> Before(inbox + [f], d, e) && Before([f] + inbox, d, e)
  {
    if l.Inbox? { BeforeGrow(inbox, f, d, e); }
  }

  lemma BeforeTaken(inbox: seq<int>, held: seq<int>, l: Life, d: int, e: int)
    requires inbox != [] && inbox[0] != d && inbox[0] != e
    requires if l.Inbox? then Before(inbox, d, e) else Before(held, d, e)
    ensures if l.Inbox? then Before(inbox[1..], d, e) else Before(held + [inbox[0]], d, e)
  {
    if l.Inbox? {
      BeforeWithout(inbox, 0, d, e);
      assert Without(inbox, 0) == inbox[1..];
    } else {
      BeforeGrow(held, inbox[0], d, e);
    }
  }

  /** Two messages of one sender on one bus whose row is `row`, neither of them a shutdown; the
      earlier one has been sent. */
  ghost predicate Pair(s: State, row: Row<int>, x: int, y: int) {
    && Inv(s) && 0 <= x < |s.tickets| && 0 <= y < |s.tickets| && x != y
    && var m, n := s.tickets[x], s.tickets[y];
       && m.sender == n.sender && m.bus == n.bus && m.kind != SHUTDOWN && n.kind != SHUTDOWN
       && HasRow(s, m.bus) && s.table[m.bus] == row
       && Follows(StoryOf(s, x), row, m.sender) && Follows(StoryOf(s, y), row, m.sender)
       && Key(LifeOf(s, x)) > 0
  }

  /** A message on its way is where its life says. */
  lemma WhereItIs(s: State, t: int)
    requires Inv(s) && 0 <= t < |s.tickets| && s.tickets[t].fate.Carried?
    ensures var e, l := EnvelopeOf(s, t), LifeOf(s, t);
            && Known(s, e) && s.envs[e].ticket == t && s.envs[e].kind == s.tickets[t].kind
            && match l
               case Queued(_) => e in s.queue
               case Inbox(_, c) => 0 <= c < |s.conns| && e in s.conns[c].inbox
               case Held(_, c) => 0 <= c < |s.conns| && e in s.conns[c].held
               case Taken(_) => s.pc == Got(e)
               case Retaken(_, _) => s.pc == Got(e)
               case Aiming(_, _) => s.pc == Trying(e)
               case _ => true
  {
    assert TicketOk(s, t);
    var e := s.tickets[t].fate.e;
    assert EnvOk(s, e);
    var p := s.envs[e].place;
    assert Contains(s, p, e) <==> Is(s, e, p);
  }

  /** What does not stand among the first `k` elements is not in front of the next. */
  lemma NotInFront(q: seq<int>, k: nat, d: int, e: int)
    requires NoDup(q) && k < |q| && q[k] == e
    requires forall i :: 0 <= i < k ==> q[i] != d
    ensures !Before(q, d, e)
  {
  }

  /** The later message `y` makes a turn, the earlier message `x` stays as it is. */
  ghost predicate LaterMoves(s: State, a: Action, s': State, row: Row<int>, x: int, y: int) {
    && Pair(s, row, x, y) && Ahead(s, x, y) && Enabled(s, a) && s' == Apply(s, a) && Touches(s, a, y)
    && |s.tickets| <= |s'.tickets| && TurnsAt(s, a, s', y)
    && LifeOf(s', x) == LifeOf(s, x) && EnvelopeOf(s', x) == EnvelopeOf(s, x)
    && (LifeOf(s', y) != Done ==> EnvelopeOf(s', y) == EnvelopeOf(s, y))
  }

  lemma LaterAccepted(s: State, a: Action, s': State, row: Row<int>, x: int, y: int)
    requires LaterMoves(s, a, s', row, x, y) && a.Accept?
    ensures Ahead(s', x, y)
  {
    if LifeOf(s, x) == Queued(0) {
      WhereItIs(s, x);
      WhereItIs(s, y);
      BeforeAppend(s.queue, EnvelopeOf(s, x), EnvelopeOf(s, y));
    }
  }

  lemma LaterDequeued(s: State, s': State, row: Row<int>, x: int, y: int)
    requires LaterMoves(s, Dequeue, s', row, x, y)
    ensures Ahead(s', x, y)
  {
    var k := LifeOf(s, x);
    NotInFront(s.queue, 0, EnvelopeOf(s, x), EnvelopeOf(s, y));
    if k.Taken? {
      WhereItIs(s, x);
    }
  }

  lemma LaterRouted(s: State, s': State, row: Row<int>, x: int, y: int)
    requires LaterMoves(s, Route, s', row, x, y)
    ensures Ahead(s', x, y)
  {
    var k, n := LifeOf(s, x), LifeOf(s, y).slot;
    if k != Done {
      assert k.slot > n && Matches(row, s.tickets[x].sender, k.slot);
      if k.Aiming? {
        WhereItIs(s, x);
      }
    }
  }

  /** The later message is put in the input queue of the recipient for which the earlier one is
      parked. */
  ghost predicate Overtakes(s: State, a: Action, x: int, y: int)
    requires Enabled(s, a)
  {
    && a.Put? && 0 <= x < |s.tickets| && 0 <= y < |s.tickets| && Touches(s, a, y)
    && LifeOf(s, x).Parked? && LifeOf(s, y).Aiming? && LifeOf(s, x).slot == LifeOf(s, y).slot
  }

  lemma LaterPut(s: State, s': State, row: Row<int>, x: int, y: int)
    requires LaterMoves(s, Put, s', row, x, y) && !Overtakes(s, Put, x, y)
    ensures Ahead(s', x, y)
  {
    var k, l := LifeOf(s, x), LifeOf(s, y);
    if SameTarget(k, l) {
      OneHand(s, x, y);
    } else if k.Inbox? && k.slot == l.slot {
      LaterPutBehind(s, s', row, x, y);
    }
  }

  /** While the switch is about to put one message it holds no other. */
  lemma OneHand(s: State, x: int, y: int)
    requires Inv(s) && 0 <= x < |s.tickets| && 0 <= y < |s.tickets| && x != y
    requires LifeOf(s, y).Aiming? && s.tickets[x].fate.Carried?
    ensures !LifeOf(s, x).Aiming? && !LifeOf(s, x).Retaken?
  {
    WhereItIs(s, x);
    WhereItIs(s, y);
  }

  lemma LaterPutBehind(s: State, s': State, row: Row<int>, x: int, y: int)
    requires LaterMoves(s, Put, s', row, x, y)
    requires LifeOf(s, x).Inbox? && LifeOf(s, y).Aiming? && LifeOf(s, x).slot == LifeOf(s, y).slot
    ensures LifeOf(s', y) == LifeOf(s, x) && InFront(s', LifeOf(s, x), EnvelopeOf(s, x), EnvelopeOf(s, y))
  {
    var k := LifeOf(s, x);
    WhereItIs(s, x);
    WhereItIs(s, y);
    BeforeAppend(s.conns[k.conn].inbox, EnvelopeOf(s, x), EnvelopeOf(s, y));
  }

  lemma LaterReceived(s: State, a: Action, s': State, row: Row<int>, x: int, y: int)
    requires LaterMoves(s, a, s', row, x, y) && a.Receive?
    ensures Ahead(s', x, y)
  {
    var k, l := LifeOf(s, x), LifeOf(s, y);
    var q := s.conns[a.c];
    NotInFront(q.inbox, 0, EnvelopeOf(s, x), EnvelopeOf(s, y));
    if k.Held? && k.slot == l.slot {
      WhereItIs(s, x);
      assert k.conn == l.conn;
      BeforeAppend(q.held, EnvelopeOf(s, x), EnvelopeOf(s, y));
    }
  }

  /** The client does not give back an envelope of message `y` while it holds one of message `x`
      that it received before. */
  ghost predicate GivesBackInOrder(s: State, a: Action, x: int, y: int)
    requires Enabled(s, a)
  {
    a.Release? && Touches(s, a, y) ==> forall i :: 0 <= i < a.k ==> Known(s, s.conns[a.c].held[i]) && s.envs[s.conns[a.c].held[i]].ticket != x
  }

  lemma LaterReleased(s: State, a: Action, s': State, row: Row<int>, x: int, y: int)
    requires LaterMoves(s, a, s', row, x, y) && a.Release? && GivesBackInOrder(s, a, x, y)
    ensures Ahead(s', x, y)
  {
    var k, l := LifeOf(s, x), LifeOf(s, y);
    var q := s.conns[a.c];
    if s.tickets[x].fate.Carried? {
      WhereItIs(s, x);
      NotInFront(q.held, a.k, EnvelopeOf(s, x), EnvelopeOf(s, y));
    }
    if k.Queued? && k.slot == l.slot {
      WhereItIs(s, x);
      BeforeAppend(s.queue, EnvelopeOf(s, x), EnvelopeOf(s, y));
    }
  }

  /** A message keeps its envelope until it is finished. */
  lemma CarrierStays(s: State, a: Action, t: int)
    requires Enabled(s, a) && 0 <= t < |s.tickets|
    ensures t < |Apply(s, a).tickets|
    ensures s.tickets[t].fate.Carried? && Apply(s, a).tickets[t].fate.Carried? ==> EnvelopeOf(Apply(s, a), t) == EnvelopeOf(s, t)
  {
  }

  lemma TicketStays(s: State, a: Action, t: int)
    requires Inv(s) && Enabled(s, a) && 0 <= t < |s.tickets| && !Touches(s, a, t)
    ensures t < |Apply(s, a).tickets| && Apply(s, a).tickets[t] == s.tickets[t]
  {
    InvStep(s, a);
    if SubjectTicket(s, a).Some? {
      SubjectFound(s, a);
    }
  }

  /** The step of the run leaves the row alone, and gives the two messages back in order. */
  ghost predicate Steady(r: Run, k: int, row: Row<int>, x: int, y: int)
    requires IsRun(r) && 0 <= k < |r.acts|
  {
    var s, a := r.states[k], r.acts[k];
    && StepAt(r, k) && 0 <= x < |s.tickets|
    && HasRow(s, s.tickets[x].bus) && s.table[s.tickets[x].bus] == row
    && GivesBackInOrder(s, a, x, y)
  }

  ghost predicate OvertakesAt(r: Run, k: int, x: int, y: int)
    requires IsRun(r) && 0 <= k < |r.acts|
  {
    StepAt(r, k) && Overtakes(r.states[k], r.acts[k], x, y)
  }

  /** The later message does not overtake the earlier one in it, either. */
  ghost predicate Orderly(r: Run, k: int, row: Row<int>, x: int, y: int)
    requires IsRun(r) && 0 <= k < |r.acts|
  {
    Steady(r, k, row, x, y) && !OvertakesAt(r, k, x, y)
  }

  lemma LaterMovesOn(s: State, a: Action, s': State, row: Row<int>, x: int, y: int)
    requires LaterMoves(s, a, s', row, x, y)
    requires !a.Refuse? && GivesBackInOrder(s, a, x, y) && !Overtakes(s, a, x, y)
    ensures Ahead(s', x, y)
  {
    if a.Accept? { LaterAccepted(s, a, s', row, x, y); }
    else if a.Dequeue? { LaterDequeued(s, s', row, x, y); }
    else if a.Route? { LaterRouted(s, s', row, x, y); }
    else if a.Put? { LaterPut(s, s', row, x, y); }
    else if a.Receive? { LaterReceived(s, a, s', row, x, y); }
    else if a.Release? { LaterReleased(s, a, s', row, x, y); }
    else { LaterStays(s, a, s', row, x, y); }
  }

  /** A BUSY outcome, a retry or a count does not take the later message further. */
  lemma LaterStays(s: State, a: Action, s': State, row: Row<int>, x: int, y: int)
    requires LaterMoves(s, a, s', row, x, y) && (a.Busy? || a.Retry? || a.Count?)
    ensures Ahead(s', x, y)
  {
    if LifeOf(s, x) == LifeOf(s, y) != Done && !HasTarget(LifeOf(s, y)) {
      InvStep(s, a);
      FrontStays(s, a, s', x, y);
    }
  }

  /** One step keeps the earlier message ahead. */
  lemma AheadStep(s: State, a: Action, s': State, row: Row<int>, x: int, y: int)
    requires Pair(s, row, x, y) && Ahead(s, x, y) && Enabled(s, a) && s' == Apply(s, a)
    requires |s.tickets| <= |s'.tickets|
    requires if Touches(s, a, x) then TurnsAt(s, a, s', x) else StoryOf(s', x) == StoryOf(s, x)
    requires if Touches(s, a, y) then TurnsAt(s, a, s', y) else StoryOf(s', y) == StoryOf(s, y)
    requires GivesBackInOrder(s, a, x, y) && !Overtakes(s, a, x, y)
    ensures Ahead(s', x, y)
  {
    assert !(Touches(s, a, x) && Touches(s, a, y));
    if Touches(s, a, y) {
      TicketStays(s, a, x);
      if !a.Refuse? {
        CarrierStays(s, a, y);
        LaterMovesOn(s, a, s', row, x, y);
      }
    } else {
      TicketStays(s, a, y);
      if Touches(s, a, x) {
        CarrierStays(s, a, x);
        EarlierMoves(s, a, s', row, x, y);
      } else {
        TicketStays(s, a, x);
        NeitherMoves(s, a, s', row, x, y);
      }
    }
  }

  lemma EarlierMoves(s: State, a: Action, s': State, row: Row<int>, x: int, y: int)
    requires Pair(s, row, x, y) && Ahead(s, x, y) && Enabled(s, a) && s' == Apply(s, a) && Touches(s, a, x)
    requires |s.tickets| <= |s'.tickets| && TurnsAt(s, a, s', x)
    requires LifeOf(s', y) == LifeOf(s, y) && EnvelopeOf(s', y) == EnvelopeOf(s, y)
    requires LifeOf(s', x) != Done ==> EnvelopeOf(s', x) == EnvelopeOf(s, x)
    ensures Ahead(s', x, y)
  {
    if a.Count? {
      InvStep(s, a);
      FrontStays(s, a, s', x, y);
    } else {
      TurnGoesOn(StoryOf(s, x), a, StoryOf(s', x), row, s.tickets[x].sender);
    }
  }

  lemma FrontStays(s: State, a: Action, s': State, x: int, y: int)
    requires 0 <= x < |s.tickets| <= |s'.tickets| && 0 <= y < |s.tickets|
    requires Ahead(s, x, y) && Enabled(s, a) && s' == Apply(s, a)
    requires LifeOf(s', x) == LifeOf(s, x) && LifeOf(s', y) == LifeOf(s, y)
    requires LifeOf(s, x) != Done ==> EnvelopeOf(s', x) == EnvelopeOf(s, x) && EnvelopeOf(s', y) == EnvelopeOf(s, y)
    requires a == Put ==> s.envs[s.pc.e].target.Some?
    requires a.Count? || (LifeOf(s, x) != Done ==> Subject(s, a) != Some(EnvelopeOf(s, x)) && Subject(s, a) != Some(EnvelopeOf(s, y)))
    ensures Ahead(s', x, y)
  {
    var k, l := LifeOf(s, x), LifeOf(s, y);
    if k == l && k != Done && InFront(s, k, EnvelopeOf(s, x), EnvelopeOf(s, y)) {
      if k.Queued? {
        FrontInQueue(s, a, EnvelopeOf(s, x), EnvelopeOf(s, y));
      } else {
        FrontAtClient(s, a, k, EnvelopeOf(s, x), EnvelopeOf(s, y));
      }
    }
  }

  lemma NeitherMoves(s: State, a: Action, s': State, row: Row<int>, x: int, y: int)
    requires Pair(s, row, x, y) && Ahead(s, x, y) && Enabled(s, a) && s' == Apply(s, a) && !Touches(s, a, x) && !Touches(s, a, y)
    requires |s.tickets| <= |s'.tickets| && StoryOf(s', x) == StoryOf(s, x) && StoryOf(s', y) == StoryOf(s, y)
    requires s'.tickets[x] == s.tickets[x] && s'.tickets[y] == s.tickets[y]
    ensures Ahead(s', x, y)
  {
    NotSubject(s, a, x);
    NotSubject(s, a, y);
    FrontStays(s, a, s', x, y);
  }

  /** A step that does not touch the message does not move its envelope. */
  lemma NotSubject(s: State, a: Action, t: int)
    requires Inv(s) && Enabled(s, a) && 0 <= t < |s.tickets| && !Touches(s, a, t)
    ensures Subject(s, a) != Some(EnvelopeOf(s, t))
    ensures a == Put ==> s.envs[s.pc.e].target.Some?
  {
    if Subject(s, a).Some? {
      SubjectFacts(s, a);
      if a == Put { InvStep(s, a); }
    }
    assert TicketOk(s, t);
  }

  /** What holds of the two messages in every state from the first send on: they follow the row, ... */
  ghost predicate BothFollow(s: State, row: Row<int>, x: int, y: int) {
    && 0 <= x < |s.tickets| && 0 <= y
    && Follows(StoryOf(s, x), row, s.tickets[x].sender) && Key(LifeOf(s, x)) > 0
    && (y < |s.tickets| ==> Follows(StoryOf(s, y), row, s.tickets[y].sender))
  }

  /** ... and the earlier one is ahead. */
  ghost predicate InOrder(s: State, row: Row<int>, x: int, y: int) {
    BothFollow(s, row, x, y) && Ahead(s, x, y)
  }

  lemma BothFollowStep(r: Run, k: nat, row: Row<int>, x: int, y: int)
    requires IsRun(r) && k < |r.acts| && Steady(r, k, row, x, y) && BothFollow(r.states[k], row, x, y)
    requires y < |r.states[k].tickets| ==> r.states[k].tickets[y].bus == r.states[k].tickets[x].bus
    ensures BothFollow(r.states[k + 1], row, x, y)
  {
    FollowsStep(r, k, x, row);
    StoryAt(r, k, x);
    StoryAt(r, k, y);
    if y < |r.states[k].tickets| {
      FollowsStep(r, k, y, row);
    }
  }

  ghost predicate SteadyTill(r: Run, i: int, j: int, row: Row<int>, x: int, y: int)
    requires IsRun(r) && 0 <= i <= j < |r.states|
  {
    forall k :: i <= k < j ==> Steady(r, k, row, x, y)
  }

  ghost predicate OrderlyTill(r: Run, i: int, j: int, row: Row<int>, x: int, y: int)
    requires IsRun(r) && 0 <= i <= j < |r.states|
  {
    forall k :: i <= k < j ==> Orderly(r, k, row, x, y)
  }

  /** In state `n` the two messages are in order, and the later one, once it is there in state
      `j`, is of the same stream. */
  ghost predicate OrderedAt(r: Run, n: nat, j: nat, row: Row<int>, x: int, y: int)
    requires n < |r.states| && j < |r.states|
  {
    InOrder(r.states[n], row, x, y) && 0 <= y < |r.states[j].tickets| && SameStream(r.states[n].tickets[x], r.states[j].tickets[y])
  }

  ghost predicate OrderedTill(r: Run, i: nat, n: nat, j: nat, row: Row<int>, x: int, y: int)
    requires n < |r.states| && j < |r.states|
  {
    forall k :: i <= k <= n ==> OrderedAt(r, k, j, row, x, y)
  }

  lemma OrderedStep(r: Run, i: nat, k: nat, j: nat, row: Row<int>, x: int, y: int)
    requires IsRun(r) && i <= k < j < |r.states| && x != y && OrderlyTill(r, i, j, row, x, y)
    requires OrderedTill(r, i, k, j, row, x, y)
    ensures OrderedAt(r, k + 1, j, row, x, y)
  {
    assert OrderedAt(r, k, j, row, x, y) && Orderly(r, k, row, x, y);
    StoryAt(r, k, x);
    StoryAt(r, k, y);
    if y < |r.states[k].tickets| {
      SameSince(r, k, j, y);
      InvariantHolds(r, k);
      AheadStep(r.states[k], r.acts[k], r.states[k + 1], row, x, y);
    }
    BothFollowStep(r, k, row, x, y);
  }

  lemma OrderedNext(r: Run, i: nat, k: nat, j: nat, row: Row<int>, x: int, y: int)
    requires IsRun(r) && i <= k < j < |r.states| && x != y && OrderlyTill(r, i, j, row, x, y)
    requires OrderedTill(r, i, k, j, row, x, y)
    ensures OrderedTill(r, k + 1, k + 1, j, row, x, y)
  {
    OrderedStep(r, i, k, j, row, x, y);
  }

  lemma {:induction false} OrderedFrom(r: Run, i: nat, n: nat, j: nat, row: Row<int>, x: int, y: int)
    requires IsRun(r) && i <= n <= j < |r.states| && x != y && OrderlyTill(r, i, j, row, x, y)
    requires OrderedTill(r, i, i, j, row, x, y)
    ensures OrderedTill(r, i, n, j, row, x, y)
    decreases n
  {
    if i < n {
      OrderedFrom(r, i, n - 1, j, row, x, y);
      OrderedNext(r, i, n - 1, j, row, x, y);
    }
  }

  /** Two messages of one sender to one bus, neither of them a shutdown. */
  predicate SameStream(m: Ticket, n: Ticket) {
    m.sender == n.sender && m.bus == n.bus && m.kind != SHUTDOWN && n.kind != SHUTDOWN
  }

  /** How many of its recipients have taken the message out of their input queue. */
  function Received(x: Story): int {
    |x.hops| - (if x.life.Inbox? then 1 else 0)
  }

  /** The recipients of an earlier message are ahead in every respect. */
  ghost predicate Precedes(x: Story, y: Story) {
    y.hops <= x.hops && y.receipts <= x.receipts && Received(y) <= Received(x)
  }

  /** How many releases a message has behind it. */
  function Returned(x: Story): int {
    |x.hops| - (if x.life.Inbox? || x.life.Held? then 1 else 0)
  }

  /** Further along the way, more slots are passed; with as many, the later one is not out of the
      hands of a recipient that still has the earlier. */
  lemma FurtherPassesMore(k: Story, l: Story, row: Row<int>, sender: int)
    requires Follows(k, row, sender) && Follows(l, row, sender)
    requires Key(l.life) == 0 || Key(k.life) > Key(l.life) || k.life == l.life || SameTarget(k.life, l.life)
    ensures Passed(l.life) <= Passed(k.life)
    ensures Passed(l.life) == Passed(k.life) ==>
              (k.life.Inbox? ==> l.life.Inbox?) && (k.life.Held? ==> l.life.Inbox? || l.life.Held?)
  {
  }

  lemma FurtherMeansMore(k: Story, l: Story, row: Row<int>, sender: int)
    requires Follows(k, row, sender) && Follows(l, row, sender)
    requires Key(l.life) == 0 || Key(k.life) > Key(l.life) || k.life == l.life || SameTarget(k.life, l.life)
    ensures l.hops <= k.hops
    ensures Received(l) <= Received(k) && Returned(l) <= Returned(k)
  {
    var p, q := Passed(l.life), Passed(k.life);
    FurtherPassesMore(k, l, row, sender);
    FanOutGrows(row, sender, p, q);
    if p < q && (k.life.Inbox? || k.life.Held?) {
      FanOutLonger(row, sender, p, q);
    }
  }

  lemma FanOutLonger(row: Row<int>, sender: int, p: int, q: int)
    requires |row| == SLOTS + 1 && p < q && 1 <= q <= SLOTS && Matches(row, sender, q)
    ensures |FanOut(row, sender, p)| < |FanOut(row, sender, q)|
  {
    FanOutGrows(row, sender, p, q - 1);
  }

  /** The receipts of a message are those of its recipients, in order, but for the one that has it. */
  lemma ReceiptsOfStory(s: State, t: int)
    requires Inv(s) && 0 <= t < |s.tickets|
    ensures var x := StoryOf(s, t);
            && |x.receipts| == Returned(x)
            && forall i :: 0 <= i < |x.receipts| ==> x.receipts[i] == x.hops[i].conn
  {
    assert TicketOk(s, t);
    if s.tickets[t].fate.Carried? {
      assert EnvOk(s, s.tickets[t].fate.e);
    }
  }

  /** Message `x` has just been accepted in state `i`, message `y` of the same sender to the same bus
      has not been sent yet; in state `j` both are there. */
  ghost predicate OneAfterTheOther(r: Run, i: int, j: int, x: int, y: int) {
    && 0 <= i <= j < |r.states|
    && 0 <= x < |r.states[i].tickets| && At(r, i, x) == Story(Queued(0), [], [])
    && 0 <= y < |r.states[j].tickets| && (y < |r.states[i].tickets| ==> At(r, i, y) == Story(Unsent, [], []))
    && SameStream(r.states[i].tickets[x], r.states[j].tickets[y])
  }

  lemma KeptAt(r: Run, i: nat, j: nat, row: Row<int>, x: int, y: int)
    requires IsRun(r) && |row| == SLOTS + 1 && OneAfterTheOther(r, i, j, x, y)
    requires OrderlyTill(r, i, j, row, x, y)
    ensures x < |r.states[j].tickets| && Precedes(At(r, j, x), At(r, j, y))
  {
    assert OrderedAt(r, i, j, row, x, y);
    OrderedFrom(r, i, j, j, row, x, y);
    assert OrderedAt(r, j, j, row, x, y);
    InvariantHolds(r, j);
    SameSince(r, i, j, x);
    FurtherMeansMore(At(r, j, x), At(r, j, y), row, r.states[j].tickets[x].sender);
    ReceiptsOfStory(r.states[j], x);
    ReceiptsOfStory(r.states[j], y);
  }

  ghost predicate BothFollowTill(r: Run, i: nat, n: nat, row: Row<int>, x: int, y: int)
    requires n < |r.states|
  {
    forall k :: i <= k <= n ==> BothFollowIn(r, k, row, x, y)
  }

  ghost predicate BothFollowIn(r: Run, k: nat, row: Row<int>, x: int, y: int)
    requires k < |r.states|
  {
    BothFollow(r.states[k], row, x, y)
  }

  lemma BothFollowNext(r: Run, i: nat, k: nat, j: nat, row: Row<int>, x: int, y: int)
    requires IsRun(r) && OneAfterTheOther(r, i, j, x, y) && SteadyTill(r, i, j, row, x, y)
    requires i <= k < j && BothFollowTill(r, i, k, row, x, y)
    ensures BothFollowIn(r, k + 1, row, x, y)
  {
    assert Steady(r, k, row, x, y) && BothFollowIn(r, k, row, x, y);
    SameSince(r, i, k, x);
    if y < |r.states[k].tickets| {
      SameSince(r, k, j, y);
    }
    BothFollowStep(r, k, row, x, y);
  }

  lemma {:induction false} BothFollowFrom(r: Run, i: nat, n: nat, j: nat, row: Row<int>, x: int, y: int)
    requires IsRun(r) && OneAfterTheOther(r, i, j, x, y) && SteadyTill(r, i, j, row, x, y)
    requires i <= n <= j && BothFollowTill(r, i, i, row, x, y)
    ensures BothFollowTill(r, i, n, row, x, y)
    decreases n
  {
    if i < n {
      BothFollowFrom(r, i, n - 1, j, row, x, y);
      BothFollowNext(r, i, n - 1, j, row, x, y);
    }
  }

  /** The later message has been to a recipient the earlier one has not got to. */
  lemma OvertakingShows(r: Run, k: nat, row: Row<int>, x: int, y: int)
    requires IsRun(r) && k < |r.acts| && OvertakesAt(r, k, x, y) && BothFollow(r.states[k], row, x, y)
    requires r.states[k].tickets[x].sender == r.states[k].tickets[y].sender && x != y
    ensures x < |r.states[k + 1].tickets| && y < |r.states[k + 1].tickets|
    ensures |At(r, k + 1, x).hops| < |At(r, k + 1, y).hops|
  {
    StoryAt(r, k, x);
    StoryAt(r, k, y);
  }

  /** In every state from `i` to `j` the earlier message is ahead at every recipient. */
  ghost predicate KeptTill(r: Run, i: int, j: int, x: int, y: int)
    requires 0 <= i <= j < |r.states|
  {
    forall n :: i <= n <= j ==> KeptIn(r, n, x, y)
  }

  ghost predicate KeptIn(r: Run, n: int, x: int, y: int)
    requires 0 <= n < |r.states|
  {
    0 <= y < |r.states[n].tickets| ==> 0 <= x < |r.states[n].tickets| && Precedes(At(r, n, x), At(r, n, y))
  }

  lemma KeptInWithout(r: Run, i: nat, n: nat, j: nat, row: Row<int>, x: int, y: int)
    requires IsRun(r) && |row| == SLOTS + 1 && OneAfterTheOther(r, i, j, x, y) && SteadyTill(r, i, j, row, x, y)
    requires i <= n <= j && forall k :: i <= k < n ==> !OvertakesAt(r, k, x, y)
    ensures KeptIn(r, n, x, y)
  {
    if y < |r.states[n].tickets| {
      SameSince(r, n, j, y);
      assert forall k :: i <= k < n ==> Steady(r, k, row, x, y);
      KeptAt(r, i, n, row, x, y);
    }
  }

  lemma OvertakenThen(r: Run, i: nat, k: nat, j: nat, row: Row<int>, x: int, y: int)
    requires IsRun(r) && |row| == SLOTS + 1 && OneAfterTheOther(r, i, j, x, y) && SteadyTill(r, i, j, row, x, y)
    requires i <= k < j && OvertakesAt(r, k, x, y)
    ensures !KeptIn(r, k + 1, x, y)
  {
    assert BothFollowIn(r, i, row, x, y);
    BothFollowFrom(r, i, k, j, row, x, y);
    assert BothFollowIn(r, k, row, x, y);
    SameSince(r, i, k, x);
    SameSince(r, k, j, y);
    OvertakingShows(r, k, row, x, y);
  }

  /** Same-sender order, and exactly when it holds. Where the row of the bus stays as it is and no
      client gives back `y` before an `x` it received earlier, `x` is delivered, received and released
      before `y` at every recipient, whatever else is sent and whoever is found busy, if and only if
      `y` is never put in the input queue of the recipient for which `x` is parked. */
  lemma SameSenderOrder(r: Run, i: nat, j: nat, row: Row<int>, x: int, y: int)
    requires IsRun(r) && |row| == SLOTS + 1 && OneAfterTheOther(r, i, j, x, y)
    requires SteadyTill(r, i, j, row, x, y)
    ensures KeptTill(r, i, j, x, y) <==> forall k :: i <= k < j ==> !OvertakesAt(r, k, x, y)
  {
    forall k | i <= k < j && OvertakesAt(r, k, x, y) ensures !KeptIn(r, k + 1, x, y) {
      OvertakenThen(r, i, k, j, row, x, y);
    }
    if forall k :: i <= k < j ==> !OvertakesAt(r, k, x, y) {
      forall n | i <= n <= j ensures KeptIn(r, n, x, y) {
        KeptInWithout(r, i, n, j, row, x, y);
      }
    }
  }

  lemma ParkedStep(r: Run, k: nat, x: int)
    requires IsRun(r) && k < |r.acts| && 0 <= x < |r.states[k].tickets|
    requires x < |r.states[k + 1].tickets| && At(r, k + 1, x).life.Parked?
    ensures BusyAt(r, k, x) || At(r, k, x) == At(r, k + 1, x)
  {
    StoryAt(r, k, x);
    assert StepAt(r, k);
  }

  /** A parked message has been parked since the BUSY outcome that parked it. */
  lemma {:induction false} ParkedSince(r: Run, i: nat, k: nat, x: int) returns (b: nat)
    requires IsRun(r) && i <= k < |r.states| && 0 <= x < |r.states[i].tickets| && x < |r.states[k].tickets|
    requires !At(r, i, x).life.Parked? && At(r, k, x).life.Parked?
    ensures i <= b < k && BusyAt(r, b, x)
    ensures forall m :: b < m <= k ==> x < |r.states[m].tickets| && At(r, m, x) == At(r, k, x)
    decreases k
  {
    SameSince(r, i, k - 1, x);
    ParkedStep(r, k - 1, x);
    if BusyAt(r, k - 1, x) {
      b := k - 1;
    } else {
      b := ParkedSince(r, i, k - 1, x);
    }
  }

  /** The order is lost only by way of a BUSY outcome of the earlier message: a step `b` parks it, and
      while it is still parked the later one is put to the same recipient in step `k`. */
  lemma LostOnlyByBusy(r: Run, i: nat, j: nat, row: Row<int>, x: int, y: int) returns (b: nat, k: nat)
    requires IsRun(r) && |row| == SLOTS + 1 && OneAfterTheOther(r, i, j, x, y)
    requires SteadyTill(r, i, j, row, x, y) && !KeptTill(r, i, j, x, y)
    ensures i <= b < k < j && BusyAt(r, b, x) && OvertakesAt(r, k, x, y)
    ensures forall m :: b < m <= k ==> x < |r.states[m].tickets| && At(r, m, x).life.Parked?
  {
    SameSenderOrder(r, i, j, row, x, y);
    k :| i <= k < j && OvertakesAt(r, k, x, y);
    b := ParkedSince(r, i, k, x);
  }

  /** So without a BUSY outcome of the earlier message the order is kept, however often the later one
      finds its recipients busy. */
  lemma KeptWithoutBusy(r: Run, i: nat, j: nat, row: Row<int>, x: int, y: int)
    requires IsRun(r) && |row| == SLOTS + 1 && OneAfterTheOther(r, i, j, x, y)
    requires SteadyTill(r, i, j, row, x, y) && forall k :: i <= k < j ==> !BusyAt(r, k, x)
    ensures KeptTill(r, i, j, x, y)
  {
    if !KeptTill(r, i, j, x, y) {
      var b, k := LostOnlyByBusy(r, i, j, row, x, y);
    }
  }
}
