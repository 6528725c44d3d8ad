/** Runs that show where a promise ends: with a busy recipient the second message of a sender can
    overtake the first; a parked message goes to a connection that has unsubscribed since; between a
    put and its count the counters and the pending flag still show the state before the put; and the
    stop leaves messages behind. */
module Witnesses {
  import opened Sequences
  import opened Limits
  import opened Rows
  import opened Protocol
  import opened Invariants
  import opened Lives
  import opened Delivery
  import opened Ordering
  import opened Safety
  import opened History

  /** Connection 1 sits in slot 1, alone. */
  ghost predicate OneSubscriber(row: Row<int>) {
    |row| == SLOTS + 1 && row[1] == Some(1) && forall i :: 0 <= i <= SLOTS && i != 1 ==> row[i] == None
  }

  /** The message of envelope and ticket `t`: of the first user type, sent by connection 0 on bus 1. */
  function Letter(t: int, p: Place): Env {
    Env(100, 1, 0, false, -1, None, 0, 0, 0, t, p)
  }

  lemma Setup() returns (r: Run, s: State)
    ensures Recorded(r, s) && |s.conns| == 2 && HasRow(s, 1) && OneSubscriber(s.table[1])
    ensures s.envs == [] && s.pool == [] && s.queue == [] && s.tickets == [] && s.pc == Idle && !s.stopped
  {
    RecordedInit();
    r, s := Run([Init()], []), Init();
    Step(r, s, Open);
    r, s := Grow(r, Open, Apply(s, Open)), Apply(s, Open);
    Step(r, s, Open);
    r, s := Grow(r, Open, Apply(s, Open)), Apply(s, Open);
    Step(r, s, Subscribe(1, 1));
    assert s.table[1][1] == None;
    r, s := Grow(r, Subscribe(1, 1), Apply(s, Subscribe(1, 1))), Apply(s, Subscribe(1, 1));
  }

  /** From state `i` on the row of bus 1 is `row`, and no client gives anything back. */
  ghost predicate Quiet(r: Run, i: nat, row: Row<int>) {
    && |r.states| == |r.acts| + 1
    && (forall k :: i <= k < |r.states| ==> HasRow(r.states[k], 1) && r.states[k].table[1] == row)
    && (forall k :: i <= k < |r.acts| ==> !r.acts[k].Release?)
  }

  lemma OneMore(r: Run, s: State, a: Action, i: nat, row: Row<int>) returns (r': Run, s': State)
    requires Recorded(r, s) && Guard(s, a) && Quiet(r, i, row) && HasRow(s, 1) && s.table[1] == row
    requires !a.Subscribe? && !a.Unsubscribe? && !a.Release?
    ensures Enabled(s, a) && s' == Apply(s, a) && Recorded(r', s') && r' == Grow(r, a, s')
    ensures Quiet(r', i, row)
  {
    Step(r, s, a);
    s' := Apply(s, a);
    r' := Grow(r, a, s');
    assert s'.table == s.table;
  }

  /** Connection 0 sends message number `n`. */
  lemma SendOne(r: Run, s: State, i: nat, row: Row<int>) returns (r': Run, s': State)
    requires Recorded(r, s) && Quiet(r, i, row) && HasRow(s, 1) && s.table[1] == row
    requires |s.conns| == 2 && s.pool == [] && |s.tickets| == |s.envs| && s.pc == Idle && !s.stopped
    ensures Recorded(r', s') && r.states <= r'.states && |r'.states| == |r.states| + 2
    ensures Quiet(r', i, row)
    ensures var n := |s.envs|;
            && s'.envs == s.envs + [Letter(n, OnSwitchQueue)] && s'.queue == s.queue + [n]
            && s'.tickets == s.tickets + [Ticket(0, 1, 100, Carried(n), [], [])]
    ensures s'.table == s.table && |s'.conns| == 2 && s'.pool == [] && s'.pc == Idle && !s'.stopped
  {
    var r1, s1 := OneMore(r, s, Offer(0, 1, 100), i, row);
    r', s' := OneMore(r1, s1, Accept(|s.envs|), i, row);
  }

  /** The switch is about to put message `x` in the input queue of its next recipient; message `y` of
      the same stream, with the same next recipient, is at the head of the switch queue; so far both
      have followed the row. */
  ghost predicate RightBehind(s: State, row: Row<int>, x: int, y: int) {
    && !s.stopped && 0 <= x < |s.tickets| && 0 <= y < |s.tickets| && x != y
    && var m := s.tickets[x];
       && SameStream(m, s.tickets[y]) && HasRow(s, m.bus) && s.table[m.bus] == row
       && m.fate.Carried? && s.pc == Trying(m.fate.e)
       && s.queue != [] && s.tickets[y].fate == Carried(s.queue[0])
       && Follows(StoryOf(s, x), row, m.sender) && Follows(StoryOf(s, y), row, m.sender)
       && LifeOf(s, x).Aiming? && (LifeOf(s, y).Queued? || LifeOf(s, y).Parked?)
       && NextFor(row, m.sender, LifeOf(s, y)) == LifeOf(s, x).slot
  }

  /** The slot a message in the switch queue goes to next. */
  function NextFor(row: Row<int>, sender: int, l: Life): int
    requires |row| == SLOTS + 1
  {
    match l
    case Queued(n) => if -1 <= n then NextSlot(row, sender, n) else 0
    case Parked(n, _) => n
    case _ => 0
  }

  /** The first message is about to be put, with the second right behind it. */
  lemma AimFirst(r: Run, s: State, i: nat, row: Row<int>) returns (r': Run, s': State)
    requires Recorded(r, s) && Quiet(r, i, row) && OneSubscriber(row) && |s.conns| == 2
    requires HasRow(s, 1) && s.table[1] == row && s.pc == Idle && !s.stopped && s.queue == [0, 1]
    requires s.envs == [Letter(0, OnSwitchQueue), Letter(1, OnSwitchQueue)]
    requires s.tickets == [Ticket(0, 1, 100, Carried(0), [], []), Ticket(0, 1, 100, Carried(1), [], [])]
    ensures Recorded(r', s') && r.states <= r'.states && r.acts <= r'.acts && Quiet(r', i, row)
    ensures s'.table == s.table && |s'.conns| == 2 && s'.pc == Trying(0) && !s'.stopped && s'.queue == [1] && s'.tickets == s.tickets
    ensures s'.envs == [Letter(0, InSwitchHand).(current := 1, target := Some(1)), Letter(1, OnSwitchQueue)]
  {
    var r1, s1 := OneMore(r, s, Dequeue, i, row);
    r', s' := OneMore(r1, s1, Route, i, row);
    assert NextSlot(row, 0, -1) == 1;
  }

  lemma ItIsRightBehind(s: State, row: Row<int>)
    requires HasRow(s, 1) && s.table[1] == row && OneSubscriber(row) && s.pc == Trying(0) && !s.stopped && s.queue == [1]
    requires s.tickets == [Ticket(0, 1, 100, Carried(0), [], []), Ticket(0, 1, 100, Carried(1), [], [])]
    requires s.envs == [Letter(0, InSwitchHand).(current := 1, target := Some(1)), Letter(1, OnSwitchQueue)]
    ensures RightBehind(s, row, 0, 1)
  {
    assert LifeOf(s, 0) == Aiming(1, 1) && LifeOf(s, 1) == Queued(0);
    assert NextSlot(row, 0, 0) == 1;
  }

  /** The second one goes through. */
  lemma Pass(r: Run, s: State, i: nat, row: Row<int>) returns (r': Run, s': State)
    requires Recorded(r, s) && Quiet(r, i, row) && OneSubscriber(row) && |s.conns| == 2
    requires HasRow(s, 1) && s.table[1] == row && s.pc == Idle && !s.stopped && s.queue == [1, 0]
    requires |s.envs| == |s.tickets| == 2 && s.envs[1] == Letter(1, OnSwitchQueue)
    ensures Recorded(r', s') && r.states <= r'.states && r.acts <= r'.acts && Quiet(r', i, row)
    ensures |s'.tickets| == 2 && s'.tickets[0] == s.tickets[0] && s'.tickets[1] == s.tickets[1].(hops := s.tickets[1].hops + [Hop(1, 1)])
  {
    var r1, s1 := OneMore(r, s, Dequeue, i, row);
    var r2, s2 := OneMore(r1, s1, Route, i, row);
    assert NextSlot(row, 0, -1) == 1;
    r', s' := OneMore(r2, s2, Put, i, row);
  }

  /** Where nobody gives anything back and the row stays, every step is steady. */
  lemma QuietIsSteady(r: Run, i: nat, row: Row<int>, x: int, y: int)
    requires IsRun(r) && i < |r.states| && Quiet(r, i, row) && 0 <= x < |r.states[i].tickets| && r.states[i].tickets[x].bus == 1
    ensures SteadyTill(r, i, |r.acts|, row, x, y)
  {
    forall k | i <= k < |r.acts| ensures Steady(r, k, row, x, y) {
      assert StepAt(r, k);
      SameSince(r, i, k, x);
    }
  }

  /** Messages 0 and 1 of one sender on one bus, sent in this order; the row stays as it is and
      nobody gives anything back. In step `b` message 0 finds its recipient busy with message 1 right
      behind; in the end message 1 is delivered, message 0 is not, and the order is lost. */
  lemma BusyLosesTheOrder() returns (r: Run, i: nat, b: nat, row: Row<int>)
    ensures IsRun(r) && |row| == SLOTS + 1 && i <= b < |r.acts|
    ensures OneAfterTheOther(r, i, |r.acts|, 0, 1) && SteadyTill(r, i, |r.acts|, row, 0, 1)
    ensures RightBehind(r.states[b], row, 0, 1) && r.acts[b] == Busy
    ensures var j := |r.acts|; At(r, j, 0).hops == [] && At(r, j, 1).hops == [Hop(1, 1)] && !KeptTill(r, i, j, 0, 1)
  {
    var r0, s0 := Setup();
    row := s0.table[1];
    var r1, s1 := SendOne(r0, s0, |r0.states| + 1, row);
    i := |r1.acts|;
    var r2, s2 := SendOne(r1, s1, i, row);
    var r3, s3 := AimFirst(r2, s2, i, row);
    b := |r3.acts|;
    ItIsRightBehind(s3, row);
    var r4, s4 := OneMore(r3, s3, Busy, i, row);
    var s5;
    r, s5 := Pass(r4, s4, i, row);
    RecordedIsRun(r, s5);
    assert r.states[i] == s1 && r.states[b] == s3;
    QuietIsSteady(r, i, row, 0, 1);
    assert !KeptIn(r, |r.acts|, 0, 1);
  }

  // ---------- Every state in which a BUSY outcome loses the order ----------

  /** One step, as the two messages see it. */
  lemma Seen(r: Run, s: State, a: Action, x: int, y: int) returns (r': Run, s': State)
    requires Recorded(r, s) && Guard(s, a) && 0 <= x < |s.tickets| && 0 <= y < |s.tickets|
    ensures Enabled(s, a) && s' == Apply(s, a) && Recorded(r', s') && r' == Grow(r, a, s')
    ensures |s.tickets| <= |s'.tickets| && HasRow(s, s.tickets[x].bus) && HasRow(s, s.tickets[y].bus)
    ensures SameMessageOf(s.tickets[x], s'.tickets[x]) && SameMessageOf(s.tickets[y], s'.tickets[y])
    ensures if Touches(s, a, x) then TurnsAt(s, a, s', x) else StoryOf(s', x) == StoryOf(s, x)
    ensures if Touches(s, a, y) then TurnsAt(s, a, s', y) else StoryOf(s', y) == StoryOf(s, y)
  {
    Step(r, s, a);
    StoryStep(s, a, x);
    StoryStep(s, a, y);
    TicketsKeep(s, a, x);
    TicketsKeep(s, a, y);
    s' := Apply(s, a);
    r' := Grow(r, a, s');
  }

  /** The earlier message finds its recipient busy. */
  lemma EarlierParks(r: Run, s: State, row: Row<int>, x: int, y: int) returns (r': Run, s': State)
    requires Recorded(r, s) && RightBehind(s, row, x, y)
    ensures Recorded(r', s') && r' == Grow(r, Busy, s')
    ensures |s'.tickets| == |s.tickets| && s'.tickets == s.tickets && s'.table == s.table
    ensures s'.pc == Idle && !s'.stopped && s'.queue != [] && s'.queue[0] == s.queue[0]
    ensures StoryOf(s', x).hops == StoryOf(s, x).hops && StoryOf(s', y) == StoryOf(s, y)
  {
    RecordedInv(r, s);
    WhereItIs(s, x);
    GuardIsEnough(s, Put);
    InvStep(s, Put);
    r', s' := Seen(r, s, Busy, x, y);
  }

  /** The later one is taken up ... */
  lemma LaterIsTaken(r: Run, s: State, x: int, y: int) returns (r': Run, s': State)
    requires Recorded(r, s) && 0 <= x < |s.tickets| && 0 <= y < |s.tickets| && x != y
    requires s.pc == Idle && !s.stopped && s.queue != [] && s.tickets[y].fate == Carried(s.queue[0])
    requires LifeOf(s, y).Queued? || LifeOf(s, y).Parked?
    ensures Recorded(r', s') && r' == Grow(r, Dequeue, s')
    ensures s'.tickets == s.tickets && s'.table == s.table && s'.pc == Got(s.queue[0])
    ensures StoryOf(s', x).hops == StoryOf(s, x).hops && StoryOf(s', y).hops == StoryOf(s, y).hops
    ensures var l := LifeOf(s, y); LifeOf(s', y) == if l.Queued? then Taken(l.slot) else Retaken(l.slot, l.conn)
  {
    RecordedInv(r, s);
    WhereItIs(s, y);
    r', s' := Seen(r, s, Dequeue, x, y);
  }

  /** ... and aimed at the recipient the earlier one did not get to. */
  lemma LaterAims(r: Run, s: State, row: Row<int>, x: int, y: int, n: int) returns (r': Run, s': State)
    requires Recorded(r, s) && 0 <= x < |s.tickets| && 0 <= y < |s.tickets| && x != y
    requires HasRow(s, s.tickets[y].bus) && s.table[s.tickets[y].bus] == row
    requires s.pc.Got? && s.tickets[y].fate == Carried(s.pc.e) && n >= 1
    requires match LifeOf(s, y)
             case Taken(m) => -1 <= m && NextSlot(row, s.tickets[y].sender, m) == n
             case Retaken(m, _) => m == n
             case _ => false
    ensures Recorded(r', s') && r' == Grow(r, if LifeOf(s, y).Taken? then Route else Retry, s')
    ensures |s'.tickets| == |s.tickets| && s'.pc == Trying(s.pc.e) && s'.tickets[y].fate == Carried(s.pc.e)
    ensures StoryOf(s', x).hops == StoryOf(s, x).hops
    ensures StoryOf(s', y).hops == StoryOf(s, y).hops && LifeOf(s', y).Aiming? && LifeOf(s', y).slot == n
  {
    RecordedInv(r, s);
    WhereItIs(s, y);
    r', s' := Seen(r, s, if LifeOf(s, y).Taken? then Route else Retry, x, y);
  }

  lemma LaterGoesThrough(r: Run, s: State, x: int, y: int) returns (r': Run, s': State)
    requires Recorded(r, s) && 0 <= x < |s.tickets| && 0 <= y < |s.tickets| && x != y
    requires LifeOf(s, y).Aiming? && s.pc.Trying? && s.tickets[y].fate == Carried(s.pc.e)
    ensures Recorded(r', s') && r' == Grow(r, Put, s') && |s.tickets| <= |s'.tickets|
    ensures StoryOf(s', x).hops == StoryOf(s, x).hops && |StoryOf(s', y).hops| == |StoryOf(s, y).hops| + 1
  {
    RecordedInv(r, s);
    WhereItIs(s, y);
    r', s' := Seen(r, s, Put, x, y);
  }

  /** In every state in which the later message is right behind the earlier one, a BUSY outcome of
      the earlier lets the later pass in the next turn of the thread. Without a BUSY outcome of the
      earlier message the order is kept (SameSenderOrder), so this is where it is lost. */
  lemma BusyLetsTheLaterPass(r: Run, s: State, row: Row<int>, x: int, y: int) returns (r': Run, s': State, acts: seq<Action>)
    requires Recorded(r, s) && RightBehind(s, row, x, y)
    ensures Recorded(r', s') && r'.acts == r.acts + acts && r.states <= r'.states
    ensures acts == [Busy, Dequeue, if LifeOf(s, y).Queued? then Route else Retry, Put]
    ensures |s.tickets| <= |s'.tickets| && !Precedes(StoryOf(s', x), StoryOf(s', y))
  {
    SameSoFar(s, row, x, y);
    var r1, s1 := EarlierParks(r, s, row, x, y);
    var r2, s2 := LaterIsTaken(r1, s1, x, y);
    var r3, s3 := LaterAims(r2, s2, row, x, y, LifeOf(s, x).slot);
    r', s' := LaterGoesThrough(r3, s3, x, y);
    acts := [Busy, Dequeue, if LifeOf(s, y).Queued? then Route else Retry, Put];
  }

  lemma SameSoFar(s: State, row: Row<int>, x: int, y: int)
    requires RightBehind(s, row, x, y)
    ensures StoryOf(s, x).hops == StoryOf(s, y).hops
  {
    var k, l := LifeOf(s, x), LifeOf(s, y);
    if l.Queued? {
      ScanExtendsFanOut(row, s.tickets[x].sender, l.slot);
    }
  }

  // ---------- A parked message ----------

  /** Message 0 is parked for connection 1, after a BUSY outcome. */
  ghost predicate Parked0(s: State) {
    && s.envs == [Letter(0, OnSwitchQueue).(pending := true, current := 1, target := Some(1), requeued := 1)]
    && s.tickets == [Ticket(0, 1, 100, Carried(0), [], [])]
    && |s.conns| == 2 && s.queue == [0] && s.pc == Idle && !s.stopped && HasRow(s, 1)
  }

  lemma Park() returns (r: Run, s: State)
    ensures Recorded(r, s) && Parked0(s) && OneSubscriber(s.table[1])
  {
    var r0, s0 := Setup();
    var row, i := s0.table[1], |r0.states| + 20;
    var r1, s1 := SendOne(r0, s0, i, row);
    var r2, s2 := OneMore(r1, s1, Dequeue, i, row);
    var r3, s3 := OneMore(r2, s2, Route, i, row);
    assert NextSlot(row, 0, -1) == 1;
    r, s := OneMore(r3, s3, Busy, i, row);
  }

  /** It is taken up again and put, and not counted yet. */
  lemma PutAfterAll(r: Run, s: State) returns (r': Run, s': State)
    requires Recorded(r, s) && Parked0(s)
    ensures Recorded(r', s') && s'.table == s.table && Known(s', 0) && Has(s', 1, 0) && s'.pc == Counting(0)
    ensures s'.envs[0].pending && s'.envs[0].delivered == s'.envs[0].released
    ensures |s'.tickets| == 1 && s'.tickets[0].bus == 1 && s'.tickets[0].hops == [Hop(1, 1)]
  {
    var row, i := s.table[1], |r.states| + 20;
    var r1, s1 := OneMore(r, s, Dequeue, i, row);
    var r2, s2 := OneMore(r1, s1, Retry, i, row);
    r', s' := OneMore(r2, s2, Put, i, row);
    assert s'.conns[1].inbox[|s2.conns[1].inbox|] == 0;
  }

  /** An envelope its recipient already has, still pending, and with equal counters: its delivery
      has been made and not been counted. */
  lemma DeliveredNotCounted() returns (r: Run, s: State)
    ensures Recorded(r, s) && Known(s, 0) && Has(s, 1, 0)
    ensures s.pc == Counting(0) && s.envs[0].pending && s.envs[0].delivered == s.envs[0].released
  {
    var r0, s0 := Park();
    r, s := PutAfterAll(r0, s0);
  }

  /** A connection that has unsubscribed from every slot of the bus gets a message of it: the message
      was parked for it before. */
  lemma DeliveredAfterUnsubscribing() returns (r: Run, s: State)
    ensures Recorded(r, s) && |s.tickets| == 1 && s.tickets[0].bus == 1 && s.tickets[0].hops == [Hop(1, 1)]
    ensures HasRow(s, 1) && Some(1) !in s.table[1] && Has(s, 1, 0)
  {
    var r0, s0 := Park();
    Step(r0, s0, Unsubscribe(1, 1));
    var s1 := Apply(s0, Unsubscribe(1, 1));
    assert s1.table[1][1] == None;
    r, s := PutAfterAll(Grow(r0, Unsubscribe(1, 1), s1), s1);
  }

  // ---------- A message the stop leaves behind ----------

  lemma SendOnEmptyBus(r: Run, s: State, kind: int) returns (r': Run, s': State)
    requires Recorded(r, s) && |s.conns| == 1 && s.pool == [] && |s.tickets| == |s.envs| && s.pc == Idle && !s.stopped
    ensures Recorded(r', s')
    ensures var n := |s.envs|;
            && s'.envs == s.envs + [Letter(n, OnSwitchQueue).(kind := kind)]
            && s'.queue == (if kind == 1 then [n] + s.queue else s.queue + [n])
            && s'.tickets == s.tickets + [Ticket(0, 1, kind, Carried(n), [], [])]
    ensures s'.table == s.table && |s'.conns| == 1 && s'.pool == [] && s'.pc == Idle && !s'.stopped && s'.cleaned == s.cleaned
  {
    Step(r, s, Offer(0, 1, kind));
    var s1 := Apply(s, Offer(0, 1, kind));
    var r1 := Grow(r, Offer(0, 1, kind), s1);
    var a := Accept(|s.envs|);
    Step(r1, s1, a);
    s' := Apply(s1, a);
    r' := Grow(r1, a, s');
  }

  /** Nobody sits on bus 1. */
  ghost predicate EmptyBus(s: State) {
    HasRow(s, 1) && forall i :: 0 <= i <= SLOTS ==> s.table[1][i] == None
  }

  /** One connection, and nobody on bus 1. */
  lemma Alone() returns (r: Run, s: State)
    ensures Recorded(r, s) && |s.conns| == 1 && EmptyBus(s) && s.pc == Idle && !s.stopped
    ensures s.envs == [] && s.pool == [] && s.queue == [] && s.tickets == [] && s.cleaned == []
  {
    RecordedInit();
    var r0, s0 := Run([Init()], []), Init();
    Step(r0, s0, Open);
    r, s := Grow(r0, Open, Apply(s0, Open)), Apply(s0, Open);
  }

  /** A plain message, and a shutdown sent after it and in front of it in the switch queue. */
  lemma TwoWait() returns (r: Run, s: State)
    ensures Recorded(r, s) && s.pc == Idle && !s.stopped && s.queue == [1, 0] && s.cleaned == [] && EmptyBus(s) && s.pool == []
    ensures s.envs == [Letter(0, OnSwitchQueue), Letter(1, OnSwitchQueue).(kind := 1)]
    ensures s.tickets == [Ticket(0, 1, 100, Carried(0), [], []), Ticket(0, 1, 1, Carried(1), [], [])]
  {
    var r1, s1 := Alone();
    var r2, s2 := SendOnEmptyBus(r1, s1, 100);
    r, s := SendOnEmptyBus(r2, s2, 1);
  }

  /** The switch has message `e` in its hand, and its row is at the end at once. */
  lemma EndOfRow(r: Run, s: State, e: int, kind: int) returns (r': Run, s': State)
    requires Recorded(r, s) && s.pc == Got(e) && !s.stopped && EmptyBus(s) && |s.envs| == |s.tickets|
    requires Known(s, e) && s.envs[e] == Letter(e, InSwitchHand).(kind := kind)
    ensures Recorded(r', s') && s'.pc == Idle && s'.stopped == (kind == 1) && EmptyBus(s') && s'.queue == s.queue
    ensures s'.cleaned == s.cleaned + [e] && s'.tickets == s.tickets[e := s.tickets[e].(fate := Cleaned)]
    ensures |s'.envs| == |s.envs| && forall f :: 0 <= f < |s.envs| && f != e ==> s'.envs[f] == s.envs[f]
  {
    assert NextSlot(s.table[1], 0, -1) == 0;
    Step(r, s, Route);
    s' := ApplyRoute(s);
    r' := Grow(r, Route, s');
  }

  /** A plain message is accepted on a bus without subscribers, then a shutdown, which goes to the
      head of the queue. The thread stops with the plain message still in the queue, and it is not
      cleaned; by Shutdown.CleanedByTheStopOrNever it never is. */
  lemma LeftBehind() returns (r: Run, s: State)
    ensures Recorded(r, s) && s.stopped && |s.tickets| == 2
    ensures s.tickets[0].kind == 100 && LifeOf(s, 0) == Queued(0)
    ensures s.tickets[1].kind == 1 && s.cleaned == [1]
  {
    var r0, s0 := TwoWait();
    Step(r0, s0, Dequeue);
    r, s := EndOfRow(Grow(r0, Dequeue, ApplyDequeue(s0)), ApplyDequeue(s0), 1, 1);
  }

  // ---------- What does not stop the thread ----------

  /** The message at the head of the switch queue is at the end of its row at once, and is no shutdown. */
  lemma GoRound(r: Run, s: State, kind: int) returns (r': Run, s': State)
    requires Recorded(r, s) && s.pc == Idle && !s.stopped && EmptyBus(s) && |s.envs| == |s.tickets| && s.queue != []
    requires Known(s, s.queue[0]) && s.envs[s.queue[0]] == Letter(s.queue[0], OnSwitchQueue).(kind := kind) && kind != 1
    ensures Recorded(r', s') && s'.pc == Idle && !s'.stopped && EmptyBus(s') && s'.queue == s.queue[1..]
    ensures s'.cleaned == s.cleaned + [s.queue[0]] && s'.tickets == s.tickets[s.queue[0] := s.tickets[s.queue[0]].(fate := Cleaned)]
    ensures |s'.envs| == |s.envs| && forall f :: 0 <= f < |s.envs| && f != s.queue[0] ==> s'.envs[f] == s.envs[f]
  {
    Step(r, s, Dequeue);
    r', s' := EndOfRow(Grow(r, Dequeue, ApplyDequeue(s)), ApplyDequeue(s), s.queue[0], kind);
  }

  /** A timer and a message of a user type come to the end of their row and are cleaned, and the
      thread goes on. */
  lemma OthersDoNotStop() returns (r: Run, s: State)
    ensures Recorded(r, s) && |s.tickets| == 2 && s.tickets[0].kind == 2 && s.tickets[1].kind == 100
    ensures s.cleaned == [0, 1] && !s.stopped
  {
    var r0, s0 := Alone();
    var r1, s1 := SendOnEmptyBus(r0, s0, 2);
    var r2, s2 := SendOnEmptyBus(r1, s1, 100);
    assert s2.envs == [Letter(0, OnSwitchQueue).(kind := 2), Letter(1, OnSwitchQueue)];
    var r3, s3 := GoRound(r2, s2, 2);
    r, s := GoRound(r3, s3, 100);
  }
}
