/** The shape of the queues and the counters kept in different modules, in every state of every run. */
module Traffic {
  import opened Sequences
  import opened Rows
  import opened Protocol
  import opened Invariants
  import opened Lives
  import opened Delivery

  // ---------- Conservation ----------

  /** What a client has received and what is left make up what was put; what it has given back and
      what it holds make up what it received. */
  predicate Balanced(c: Conn) {
    && c.received + |c.inbox| == c.totalIn
    && c.released + |c.held| == c.received
  }

  function TotalSent(conns: seq<Conn>): int {
    if conns == [] then 0 else TotalSent(conns[..|conns| - 1]) + conns[|conns| - 1].sent
  }

  function TotalReleased(conns: seq<Conn>): int {
    if conns == [] then 0 else TotalReleased(conns[..|conns| - 1]) + conns[|conns| - 1].released
  }

  lemma {:induction false} TotalsUpdate(conns: seq<Conn>, i: nat, v: Conn)
    requires i < |conns|
    ensures TotalSent(conns[i := v]) == TotalSent(conns) - conns[i].sent + v.sent
    ensures TotalReleased(conns[i := v]) == TotalReleased(conns) - conns[i].released + v.released
  {
    var n := |conns| - 1;
    var w := conns[i := v];
    if i < n {
      TotalsUpdate(conns[..n], i, v);
      assert w[..n] == conns[..n][i := v];
    } else {
      assert w[..n] == conns[..n];
    }
  }

  lemma TotalsGrow(conns: seq<Conn>, v: Conn)
    ensures TotalSent(conns + [v]) == TotalSent(conns) + v.sent
    ensures TotalReleased(conns + [v]) == TotalReleased(conns) + v.released
  {
  }

  /** Every envelope ever put in the switch queue came from a send, a release or a BUSY outcome. */
  ghost predicate Conserved(s: State) {
    && (forall c :: 0 <= c < |s.conns| ==> Balanced(s.conns[c]))
    && QueueBalanced(s)
  }

  lemma BalancedStep(s: State, a: Action)
    requires Enabled(s, a)
    requires forall c :: 0 <= c < |s.conns| ==> Balanced(s.conns[c])
    ensures forall c :: 0 <= c < |Apply(s, a).conns| ==> Balanced(Apply(s, a).conns[c])
  {
  }

  ghost predicate QueueBalanced(s: State) {
    s.queueIn == TotalSent(s.conns) + TotalReleased(s.conns) + s.requeues
  }

  lemma QueueBalancedSwitch(s: State, a: Action)
    requires Enabled(s, a) && OfSwitch(a) && QueueBalanced(s)
    ensures QueueBalanced(Apply(s, a))
  {
    if a.Put? && s.envs[s.pc.e].target.Some? {
      var c := s.envs[s.pc.e].target.value;
      TotalsUpdate(s.conns, c, Apply(s, a).conns[c]);
    }
  }

  lemma QueueBalancedClient(s: State, a: Action)
    requires Enabled(s, a) && !OfSwitch(a) && QueueBalanced(s)
    ensures QueueBalanced(Apply(s, a))
  {
    var s' := Apply(s, a);
    if a.Open? {
      TotalsGrow(s.conns, s'.conns[|s.conns|]);
    } else if a.Accept? {
      TotalsUpdate(s.conns, s.envs[a.e].sender, s'.conns[s.envs[a.e].sender]);
    } else if a.Receive? || a.Release? {
      TotalsUpdate(s.conns, a.c, s'.conns[a.c]);
    }
  }

  lemma {:induction false} Conservation(r: Run, k: nat)
    requires IsRun(r) && k < |r.states|
    ensures Conserved(r.states[k])
  {
    if k > 0 {
      Conservation(r, k - 1);
      RunStep(r, k - 1);
      var s, a := r.states[k - 1], r.acts[k - 1];
      BalancedStep(s, a);
      if OfSwitch(a) { QueueBalancedSwitch(s, a); } else { QueueBalancedClient(s, a); }
    }
  }

  datatype Call = Sending | Receiving | Releasing

  /** The step completes such a call of connection `c`. */
  ghost predicate Completes(s: State, a: Action, call: Call, c: int)
    requires Enabled(s, a)
  {
    match call
    case Sending => a.Accept? && s.envs[a.e].sender == c
    case Receiving => a.Receive? && a.c == c
    case Releasing => a.Release? && a.c == c
  }

  /** How many of the first `k` steps do. */
  ghost function Times(r: Run, k: nat, call: Call, c: int): nat
    requires IsRun(r) && k < |r.states|
  {
    if k == 0 then 0
    else
      assert StepAt(r, k - 1);
      Times(r, k - 1, call, c) + (if Completes(r.states[k - 1], r.acts[k - 1], call, c) then 1 else 0)
  }

  ghost predicate CountersAre(s: State, c: int, sent: int, received: int, released: int) {
    if c < |s.conns| then 0 <= c && s.conns[c].sent == sent && s.conns[c].received == received && s.conns[c].released == released
    else sent == received == released == 0
  }

  lemma CountersStep(s: State, a: Action, c: int, sent: int, received: int, released: int)
    requires Enabled(s, a) && 0 <= c && CountersAre(s, c, sent, received, released)
    ensures CountersAre(Apply(s, a), c, sent + (if Completes(s, a, Sending, c) then 1 else 0),
                        received + (if Completes(s, a, Receiving, c) then 1 else 0),
                        released + (if Completes(s, a, Releasing, c) then 1 else 0))
  {
  }

  /** The counters of a connection are the numbers of its own sends that went through, of its receives
      and of its releases. */
  lemma {:induction false} CountersTellTheCalls(r: Run, k: nat, c: int)
    requires IsRun(r) && k < |r.states| && 0 <= c
    ensures CountersAre(r.states[k], c, Times(r, k, Sending, c), Times(r, k, Receiving, c), Times(r, k, Releasing, c))
  {
    if k > 0 {
      CountersTellTheCalls(r, k - 1, c);
      RunStep(r, k - 1);
      CountersStep(r.states[k - 1], r.acts[k - 1], c, Times(r, k - 1, Sending, c), Times(r, k - 1, Receiving, c),
                   Times(r, k - 1, Releasing, c));
    }
  }

  /** Message `t` is on its way; it is carried by its envelope. */
  ghost predicate Carrying(s: State, t: int) {
    0 <= t < |s.tickets| && s.tickets[t].fate.Carried? && Known(s, s.tickets[t].fate.e)
  }

  ghost predicate RequeuesAre(s: State, t: int, all: int, own: int) {
    && s.requeues == all
    && (Carrying(s, t) ==> s.envs[s.tickets[t].fate.e].requeued == own)
    && (|s.tickets| <= t ==> own == 0)
  }

  lemma RequeuesOffer(s: State, a: Action, t: int, all: int, own: int)
    requires Inv(s) && Enabled(s, a) && a.Offer? && 0 <= t && RequeuesAre(s, t, all, own)
    ensures RequeuesAre(Apply(s, a), t, all, own)
  {
    SubjectFacts(s, a);
    if t < |s.tickets| { assert TicketOk(s, t); }
  }

  lemma RequeuesBusy(s: State, t: int, all: int, own: int)
    requires Inv(s) && Enabled(s, Busy) && 0 <= t && RequeuesAre(s, t, all, own)
    ensures RequeuesAre(ApplyBusy(s), t, all + 1, own + (if Touches(s, Busy, t) then 1 else 0))
  {
    SubjectFacts(s, Busy);
    assert EnvOk(s, s.pc.e);
    if t < |s.tickets| { assert TicketOk(s, t); }
  }

  lemma RequeuesSwitch(s: State, a: Action, t: int, all: int, own: int)
    requires Enabled(s, a) && OfSwitch(a) && !a.Busy? && 0 <= t && RequeuesAre(s, t, all, own)
    ensures RequeuesAre(Apply(s, a), t, all, own)
  {
  }

  lemma RequeuesClient(s: State, a: Action, t: int, all: int, own: int)
    requires Enabled(s, a) && !OfSwitch(a) && !a.Offer? && 0 <= t && RequeuesAre(s, t, all, own)
    ensures RequeuesAre(Apply(s, a), t, all, own)
  {
  }

  /** The requeue counts, of the envelope of a message on its way and of the switch, are the BUSY
      outcomes that this message has met and that all messages have met. */
  lemma {:induction false} RequeuesTellTheBusies(r: Run, k: nat, t: int)
    requires IsRun(r) && k < |r.states| && 0 <= t
    ensures RequeuesAre(r.states[k], t, TotalBusies(r, k), Busies(r, k, t))
  {
    if k > 0 {
      RequeuesTellTheBusies(r, k - 1, t);
      InvariantHolds(r, k - 1);
      RunStep(r, k - 1);
      var s, a, all, own := r.states[k - 1], r.acts[k - 1], TotalBusies(r, k - 1), Busies(r, k - 1, t);
      if a.Offer? { RequeuesOffer(s, a, t, all, own); }
      else if a.Busy? { RequeuesBusy(s, t, all, own); }
      else if OfSwitch(a) { RequeuesSwitch(s, a, t, all, own); }
      else { RequeuesClient(s, a, t, all, own); }
    }
  }

  // ---------- Priority ----------

  ghost predicate IsShutdown(s: State, e: int) {
    Known(s, e) && s.envs[e].kind == SHUTDOWN
  }

  /** A shutdown the switch has not looked at yet. */
  ghost predicate IsFreshShutdown(s: State, e: int) {
    IsShutdown(s, e) && s.envs[e].current == -1
  }

  /** Shutdowns come first in the input queue of `c`. */
  ghost predicate InboxLed(s: State, c: int)
    requires 0 <= c < |s.conns|
  {
    var q := s.conns[c].inbox;
    forall i, j :: 0 <= i < j < |q| && IsShutdown(s, q[j]) ==> IsShutdown(s, q[i])
  }

  /** Those the switch has not looked at come first in the switch queue. */
  ghost predicate QueueLed(s: State) {
    forall i, j :: 0 <= i < j < |s.queue| && IsFreshShutdown(s, s.queue[j]) ==> IsFreshShutdown(s, s.queue[i])
  }

  /** What a step does to an input queue: a put for it adds a shutdown in front and anything else at
      the back, a receive from it takes the first, and nothing else touches it. */
  lemma InboxChange(s: State, a: Action, c: int)
    requires Enabled(s, a) && 0 <= c < |s.conns|
    ensures c < |Apply(s, a).conns|
    ensures var q, q' := s.conns[c].inbox, Apply(s, a).conns[c].inbox;
            if a.Put? && s.envs[s.pc.e].target == Some(c) then q' == if IsShutdown(s, s.pc.e) then [s.pc.e] + q else q + [s.pc.e]
            else if a == Receive(c) then q != [] && q' == q[1..]
            else q' == q
  {
  }

  lemma QueueChange(s: State, a: Action)
    requires Enabled(s, a)
    ensures var q, q' := s.queue, Apply(s, a).queue;
            match a
            case Dequeue => q != [] && q' == q[1..]
            case Accept(e) => q' == if IsShutdown(s, e) then [e] + q else q + [e]
            case Busy => q' == q + [s.pc.e]
            case Release(c, k) => q' == q + [s.conns[c].held[k]]
            case _ => q' == q
  {
  }

  /** A step changes neither the type of an envelope on its way nor the cursor of one that waits. */
  lemma MarksStay(s: State, a: Action, e: int)
    requires Inv(s) && Enabled(s, a) && Known(s, e) && InFlight(s.envs[e])
    ensures Known(Apply(s, a), e) && Apply(s, a).envs[e].kind == s.envs[e].kind
    ensures !a.Route? ==> Apply(s, a).envs[e].current == s.envs[e].current
    ensures s.envs[e].place != InSwitchHand ==> Apply(s, a).envs[e].current == s.envs[e].current
  {
    InvStep(s, a);
    if Subject(s, a).Some? {
      SubjectFacts(s, a);
      if Subject(s, a) == Some(e) {
        MarksOfSubject(s, a, e);
        assert a.Route? ==> Contains(s, InSwitchHand, e);
      }
    }
  }

  lemma MarksOfSubject(s: State, a: Action, e: int)
    requires Enabled(s, a) && Known(s, e) && Subject(s, a) == Some(e) && !a.Offer?
    ensures Known(Apply(s, a), e) && Apply(s, a).envs[e].kind == s.envs[e].kind
    ensures !a.Route? ==> Apply(s, a).envs[e].current == s.envs[e].current
  {
  }

  lemma InboxMarks(s: State, a: Action, c: int)
    requires Inv(s) && Enabled(s, a) && 0 <= c < |s.conns|
    ensures forall e :: e in s.conns[c].inbox ==> (IsShutdown(Apply(s, a), e) <==> IsShutdown(s, e))
    ensures a.Put? ==> (IsShutdown(Apply(s, a), s.pc.e) <==> IsShutdown(s, s.pc.e))
  {
    forall e | e in s.conns[c].inbox ensures IsShutdown(Apply(s, a), e) <==> IsShutdown(s, e) {
      assert Contains(s, InInbox(c), e) <==> Is(s, e, InInbox(c));
      MarksStay(s, a, e);
    }
    if a.Put? {
      assert Contains(s, InSwitchHand, s.pc.e) <==> Is(s, s.pc.e, InSwitchHand);
      MarksStay(s, a, s.pc.e);
    }
  }

  lemma InboxLedStep(s: State, a: Action, c: int)
    requires Inv(s) && Enabled(s, a) && 0 <= c < |s.conns| && InboxLed(s, c)
    ensures c < |Apply(s, a).conns| && InboxLed(Apply(s, a), c)
  {
    InboxChange(s, a, c);
    InboxMarks(s, a, c);
  }

  lemma QueueMarks(s: State, a: Action)
    requires Inv(s) && Enabled(s, a)
    ensures forall e :: e in s.queue ==> (IsFreshShutdown(Apply(s, a), e) <==> IsFreshShutdown(s, e))
  {
    forall e | e in s.queue ensures IsFreshShutdown(Apply(s, a), e) <==> IsFreshShutdown(s, e) {
      assert Contains(s, OnSwitchQueue, e) <==> Is(s, e, OnSwitchQueue);
      MarksStay(s, a, e);
    }
  }

  lemma QueueLedStep(s: State, a: Action)
    requires Inv(s) && Enabled(s, a) && QueueLed(s)
    ensures QueueLed(Apply(s, a))
  {
    QueueChange(s, a);
    QueueMarks(s, a);
    if a.Accept? || a.Busy? || a.Release? {
      Arriving(s, a);
    }
  }

  /** A shutdown is fresh in the switch queue exactly when a send has just put it there. */
  lemma Arriving(s: State, a: Action)
    requires Inv(s) && Enabled(s, a) && (a.Accept? || a.Busy? || a.Release?)
    ensures var e := Subject(s, a).value; IsFreshShutdown(Apply(s, a), e) <==> a.Accept? && IsShutdown(s, e)
  {
    SubjectFacts(s, a);
    var e := Subject(s, a).value;
    assert Contains(s, Moved(s, a).1, e) <==> Is(s, e, Moved(s, a).1);
    MarksStay(s, a, e);
  }

  /** In every state of every run shutdowns lead in all queues. */
  lemma {:induction false} PriorityShape(r: Run, k: nat)
    requires IsRun(r) && k < |r.states|
    ensures QueueLed(r.states[k])
    ensures forall c :: 0 <= c < |r.states[k].conns| ==> InboxLed(r.states[k], c)
  {
    if k > 0 {
      var s, s', a := r.states[k - 1], r.states[k], r.acts[k - 1];
      PriorityShape(r, k - 1);
      RunStep(r, k - 1);
      QueueLedStep(s, a);
      forall c | 0 <= c < |s'.conns| ensures InboxLed(s', c) {
        if c < |s.conns| {
          InboxLedStep(s, a, c);
        } else {
          NewConnection(s, a, c);
        }
      }
    }
  }

  lemma NewConnection(s: State, a: Action, c: int)
    requires Enabled(s, a) && |s.conns| <= c < |Apply(s, a).conns|
    ensures Apply(s, a).conns[c].inbox == []
  {
  }

  /** Put order: once two envelopes are in an input queue, the one in front stays in front until a
      client receives it. */
  lemma NothingOvertakes(s: State, a: Action, c: int, d: int, e: int)
    requires Inv(s) && Enabled(s, a) && 0 <= c < |s.conns| && Before(s.conns[c].inbox, d, e)
    ensures c < |Apply(s, a).conns|
    ensures Before(Apply(s, a).conns[c].inbox, d, e) || (a == Receive(c) && s.conns[c].inbox[0] == d)
  {
    var q := s.conns[c].inbox;
    InboxChange(s, a, c);
    if a.Put? {
      BeforeGrow(q, s.pc.e, d, e);
    } else if a.Receive? && q[0] != d {
      var i, j :| 0 <= i < j < |q| && q[i] == d && q[j] == e;
      assert q[1..][i - 1] == d && q[1..][j - 1] == e;
    }
  }

  /** The same of the switch queue, whatever the two envelopes are. */
  lemma NothingOvertakesInSwitch(s: State, a: Action, d: int, e: int)
    requires Inv(s) && Enabled(s, a) && Before(s.queue, d, e)
    ensures Before(Apply(s, a).queue, d, e) || (a == Dequeue && s.queue[0] == d)
  {
    var q := s.queue;
    QueueChange(s, a);
    if a.Accept? {
      BeforeGrow(q, a.e, d, e);
    } else if a.Busy? || a.Release? {
      BeforeGrow(q, Subject(s, a).value, d, e);
    } else if a.Dequeue? && q[0] != d {
      var i, j :| 0 <= i < j < |q| && q[i] == d && q[j] == e;
      assert q[1..][i - 1] == d && q[1..][j - 1] == e;
    }
  }

  // ---------- Put order over runs ----------

  /** The elements of `q` that are not marked, in order. */
  ghost function Unmarked(q: seq<int>, mark: int -> bool): seq<int> {
    if q == [] then [] else (if mark(q[0]) then [] else [q[0]]) + Unmarked(q[1..], mark)
  }

  lemma {:induction false} UnmarkedAppend(q: seq<int>, x: int, mark: int -> bool)
    ensures Unmarked(q + [x], mark) == Unmarked(q, mark) + (if mark(x) then [] else [x])
  {
    if q == [] {
      assert Unmarked([x], mark) == if mark(x) then [] else [x];
    } else {
      assert (q + [x])[1..] == q[1..] + [x];
      UnmarkedAppend(q[1..], x, mark);
    }
  }

  lemma {:induction false} UnmarkedSame(q: seq<int>, mark: int -> bool, mark': int -> bool)
    requires forall x :: x in q ==> mark(x) == mark'(x)
    ensures Unmarked(q, mark) == Unmarked(q, mark')
  {
    if q != [] {
      var x := q[0];
      assert x in q && mark(x) == mark'(x);
      UnmarkedSame(q[1..], mark, mark');
    }
  }

  /** The envelopes other than shutdowns in the input queue of `c`. */
  ghost function PlainInbox(s: State, c: int): seq<int>
    requires 0 <= c < |s.conns|
  {
    Unmarked(s.conns[c].inbox, e => IsShutdown(s, e))
  }

  /** What the step puts in the input queue of `c`, and what it takes out, shutdowns left aside. */
  ghost function PlainPut(s: State, a: Action, c: int): seq<int> {
    if a.Put? && s.pc.Trying? && Known(s, s.pc.e) && s.envs[s.pc.e].target == Some(c) && !IsShutdown(s, s.pc.e) then [s.pc.e] else []
  }

  ghost function PlainTaken(s: State, a: Action, c: int): seq<int> {
    if a == Receive(c) && 0 <= c < |s.conns| && s.conns[c].inbox != [] && !IsShutdown(s, s.conns[c].inbox[0]) then [s.conns[c].inbox[0]] else []
  }

  ghost function PlainPuts(r: Run, k: nat, c: int): seq<int>
    requires k < |r.states| == |r.acts| + 1
  {
    if k == 0 then [] else PlainPuts(r, k - 1, c) + PlainPut(r.states[k - 1], r.acts[k - 1], c)
  }

  ghost function PlainTakes(r: Run, k: nat, c: int): seq<int>
    requires k < |r.states| == |r.acts| + 1
  {
    if k == 0 then [] else PlainTakes(r, k - 1, c) + PlainTaken(r.states[k - 1], r.acts[k - 1], c)
  }

  lemma PlainStep(s: State, a: Action, c: int)
    requires Inv(s) && Enabled(s, a) && 0 <= c < |s.conns|
    ensures c < |Apply(s, a).conns|
    ensures PlainTaken(s, a, c) + PlainInbox(Apply(s, a), c) == PlainInbox(s, c) + PlainPut(s, a, c)
  {
    var s' := Apply(s, a);
    var mark := e => IsShutdown(s, e);
    InboxChange(s, a, c);
    InboxMarks(s, a, c);
    UnmarkedSame(s'.conns[c].inbox, e => IsShutdown(s', e), mark);
    UnmarkedAppend(s.conns[c].inbox, if a.Put? then s.pc.e else -1, mark);
  }

  lemma NoPlainTraffic(s: State, a: Action, c: int)
    requires Enabled(s, a) && |s.conns| <= c
    ensures PlainTaken(s, a, c) == [] == PlainPut(s, a, c)
    ensures c < |Apply(s, a).conns| ==> PlainInbox(Apply(s, a), c) == []
  {
    if c < |Apply(s, a).conns| {
      NewConnection(s, a, c);
    }
  }

  lemma Shift(takes: seq<int>, taken: seq<int>, rest: seq<int>, inbox: seq<int>, put: seq<int>, puts: seq<int>)
    requires takes + inbox == puts && taken + rest == inbox + put
    ensures (takes + taken) + rest == puts + put
  {
    assert (takes + taken) + rest == takes + (taken + rest);
    assert takes + (inbox + put) == (takes + inbox) + put;
  }

  /** In state `k` what a client has received and what waits, shutdowns left aside, is what was put. */
  ghost predicate InPutOrder(r: Run, k: nat, c: int)
    requires k < |r.states| == |r.acts| + 1
  {
    PlainPuts(r, k, c) == PlainTakes(r, k, c) + (if 0 <= c < |r.states[k].conns| then PlainInbox(r.states[k], c) else [])
  }

  lemma PlainNext(r: Run, k: nat, c: int)
    requires IsRun(r) && k < |r.acts| && 0 <= c && InPutOrder(r, k, c)
    ensures InPutOrder(r, k + 1, c)
  {
    var s, s', a := r.states[k], r.states[k + 1], r.acts[k];
    RunStep(r, k);
    if c < |s.conns| {
      PlainStep(s, a, c);
      Shift(PlainTakes(r, k, c), PlainTaken(s, a, c), PlainInbox(s', c), PlainInbox(s, c), PlainPut(s, a, c), PlainPuts(r, k, c));
    } else {
      NoPlainTraffic(s, a, c);
    }
  }

  /** Put order. In every state of every run the envelopes other than shutdowns that a client has
      received, in order, followed by those in its input queue, are those that were put there, in the
      order of the puts. */
  lemma {:induction false} PlainInPutOrder(r: Run, k: nat, c: int)
    requires IsRun(r) && k < |r.states| && 0 <= c
    ensures InPutOrder(r, k, c)
  {
    if k > 0 {
      PlainInPutOrder(r, k - 1, c);
      PlainNext(r, k - 1, c);
    }
  }

  /** The switch queue without the shutdowns the switch has not looked at. */
  ghost function TailQueue(s: State): seq<int> {
    Unmarked(s.queue, e => IsFreshShutdown(s, e))
  }

  /** What the step puts at the tail of the switch queue, and what it takes out of it, the shutdowns
      the switch has not looked at left aside. */
  ghost function TailPut(s: State, a: Action): seq<int>
    requires Enabled(s, a)
  {
    match a
    case Accept(e) => if IsShutdown(s, e) then [] else [e]
    case Busy => [s.pc.e]
    case Release(c, k) => [s.conns[c].held[k]]
    case _ => []
  }

  ghost function TailTaken(s: State, a: Action): seq<int>
    requires Enabled(s, a)
  {
    if a.Dequeue? && !IsFreshShutdown(s, s.queue[0]) then [s.queue[0]] else []
  }

  lemma TailStep(s: State, a: Action)
    requires Inv(s) && Enabled(s, a)
    ensures TailTaken(s, a) + TailQueue(Apply(s, a)) == TailQueue(s) + TailPut(s, a)
  {
    var s' := Apply(s, a);
    var mark' := e => IsFreshShutdown(s', e);
    QueueChange(s, a);
    QueueMarks(s, a);
    UnmarkedSame(s.queue, e => IsFreshShutdown(s, e), mark');
    if a.Accept? || a.Busy? || a.Release? {
      Arriving(s, a);
      UnmarkedAppend(s.queue, Subject(s, a).value, mark');
    }
  }

  ghost function TailPuts(r: Run, k: nat): seq<int>
    requires IsRun(r) && k < |r.states|
  {
    if k == 0 then [] else TailPuts(r, k - 1) + (if StepAt(r, k - 1) then TailPut(r.states[k - 1], r.acts[k - 1]) else [])
  }

  ghost function TailTakes(r: Run, k: nat): seq<int>
    requires IsRun(r) && k < |r.states|
  {
    if k == 0 then [] else TailTakes(r, k - 1) + (if StepAt(r, k - 1) then TailTaken(r.states[k - 1], r.acts[k - 1]) else [])
  }

  /** The same of the switch queue: behind the shutdowns it has not looked at, the switch takes the
      envelopes out in the order in which sends, releases and BUSY outcomes have put them in. */
  lemma {:induction false} TailInPutOrder(r: Run, k: nat)
    requires IsRun(r) && k < |r.states|
    ensures TailPuts(r, k) == TailTakes(r, k) + TailQueue(r.states[k])
  {
    if k > 0 {
      var s, s', a := r.states[k - 1], r.states[k], r.acts[k - 1];
      TailInPutOrder(r, k - 1);
      RunStep(r, k - 1);
      assert StepAt(r, k - 1);
      TailStep(s, a);
      Shift(TailTakes(r, k - 1), TailTaken(s, a), TailQueue(s'), TailQueue(s), TailPut(s, a), TailPuts(r, k - 1));
    }
  }
}
