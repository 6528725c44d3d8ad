/** The routing protocol of the switch as atomic steps of the switch thread and of the
    client threads, in any interleaving.

    Envelopes, connections and messages ("tickets": one for each call of send) are numbered
    in the order they come into being. `place`, `tickets` and `cleaned` are history: no step
    looks at them to decide what to do. */
module Protocol {
  import opened Sequences
  import opened Limits
  import opened Rows

  /** The type of a shutdown message. */
  const SHUTDOWN := 1

  datatype Place = Pooled | Destroyed | WithSender | OnSwitchQueue | InSwitchHand | InInbox(conn: int) | HeldBy(conn: int)

  /** An envelope: its type, its routing fields, its counters; then the history. */
  datatype Env = Env(kind: int, bus: int, sender: int, pending: bool, current: int, target: Option<int>,
                     delivered: int, released: int, requeued: int, ticket: int, place: Place)

  /** A connection: the envelopes in its input queue, those its client holds in the order
      received, and the counters. `totalIn` is the counter of the input queue. */
  datatype Conn = Conn(inbox: seq<int>, held: seq<int>, received: int, released: int, sent: int, totalIn: int)

  /** What the switch thread is doing: waiting; holding an envelope it has dequeued; about to
      put one in an input queue; or having put it there without having counted the delivery. */
  datatype Pc = Idle | Got(e: int) | Trying(e: int) | Counting(e: int)

  datatype Fate = Carried(e: int) | Cleaned | Refused

  /** One message: where it went (`hops`, in order of delivery) and who gave it back (`receipts`). */
  datatype Ticket = Ticket(sender: int, bus: int, kind: int, fate: Fate, hops: seq<Hop<int>>, receipts: seq<int>)

  datatype State = State(
    envs: seq<Env>, conns: seq<Conn>, table: seq<Row<int>>,
    pool: seq<int>, destroyed: seq<int>, offered: set<int>,
    queue: seq<int>, queueIn: int, requeues: int,
    pc: Pc, stopped: bool,
    tickets: seq<Ticket>, cleaned: seq<int>)

  datatype Action =
    | Open
    | Subscribe(c: int, b: int)
    | Unsubscribe(c: int, b: int)
    | Offer(c: int, b: int, kind: int)
    | Accept(e: int)
    | Refuse(e: int)
    | Dequeue
    | Route
    | Retry
    | Put
    | Busy
    | Count
    | Receive(c: int)
    | Release(c: int, k: nat)

  function Init(): State {
    State([], [], seq(BUSSES, _ => seq(SLOTS + 1, _ => None)), [], [], {}, [], 0, 0, Idle, false, [], [])
  }

  /** The guards of the steps. */
  ghost predicate Guard(s: State, a: Action) {
    match a
    case Open => true
    case Subscribe(c, b) => 0 <= c < |s.conns| && 1 <= b < BUSSES
    case Unsubscribe(c, b) => 0 <= c < |s.conns| && 1 <= b < BUSSES
    case Offer(c, b, kind) => 0 <= c < |s.conns| && 1 <= b < BUSSES
    case Accept(e) => e in s.offered
    case Refuse(e) => e in s.offered
    case Dequeue => !s.stopped && s.pc.Idle? && s.queue != []
    case Route => s.pc.Got? && Known(s, s.pc.e) && !s.envs[s.pc.e].pending
    case Retry => s.pc.Got? && Known(s, s.pc.e) && s.envs[s.pc.e].pending
    case Put => s.pc.Trying?
    case Busy => s.pc.Trying? && Known(s, s.pc.e) && s.envs[s.pc.e].kind != SHUTDOWN && s.envs[s.pc.e].target.Some?
    case Count => s.pc.Counting?
    case Receive(c) => 0 <= c < |s.conns| && s.conns[c].inbox != []
    case Release(c, k) => 0 <= c < |s.conns| && k < |s.conns[c].held|
  }

  predicate Known(s: State, e: int) {
    0 <= e < |s.envs|
  }

  predicate HasTicket(s: State, e: int) {
    Known(s, e) && 0 <= s.envs[e].ticket < |s.tickets|
  }

  predicate HasRow(s: State, b: int) {
    0 <= b < |s.table| && |s.table[b]| == SLOTS + 1
  }

  /** The numbers a step looks up denote something. In every reachable state this follows
      from the guard (GuardIsEnough in module Invariants). */
  ghost predicate Denotes(s: State, a: Action)
    requires Guard(s, a)
  {
    match a
    case Open => true
    case Subscribe(_, b) => HasRow(s, b)
    case Unsubscribe(_, b) => HasRow(s, b)
    case Offer(_, _, _) => s.pool != [] ==> Known(s, NextEnvelope(s))
    case Accept(e) => Known(s, e) && 0 <= s.envs[e].sender < |s.conns|
    case Refuse(e) => HasTicket(s, e)
    case Dequeue => Known(s, s.queue[0])
    case Route => HasTicket(s, s.pc.e) && HasRow(s, s.envs[s.pc.e].bus) && -1 <= s.envs[s.pc.e].current
    case Retry => true
    case Put => HasTicket(s, s.pc.e) && (s.envs[s.pc.e].target.Some? ==> 0 <= s.envs[s.pc.e].target.value < |s.conns|)
    case Busy => true
    case Count => Known(s, s.pc.e)
    case Receive(c) => Known(s, s.conns[c].inbox[0])
    case Release(c, k) => HasTicket(s, s.conns[c].held[k])
  }

  ghost predicate Enabled(s: State, a: Action) {
    Guard(s, a) && Denotes(s, a)
  }

  function Move(s: State, e: int, v: Env): State
    requires Known(s, e)
  {
    s.(envs := s.envs[e := v])
  }

  function PutBack(s: State, e: int, t: int, fate: Fate): State
    requires Known(s, e) && 0 <= t < |s.tickets|
  {
    var s := s.(tickets := s.tickets[t := s.tickets[t].(fate := fate)]);
    if |s.pool| + 1 == POOL_SIZE then Move(s, e, s.envs[e].(place := Destroyed)).(destroyed := s.destroyed + [e])
    else Move(s, e, s.envs[e].(place := Pooled)).(pool := s.pool + [e])
  }

  function ApplyOffer(s: State, c: int, b: int, kind: int): State
    requires s.pool != [] ==> Known(s, NextEnvelope(s))
  {
    var v := Env(kind, b, c, false, -1, None, 0, 0, 0, |s.tickets|, WithSender);
    var s := s.(tickets := s.tickets + [Ticket(c, b, kind, Carried(NextEnvelope(s)), [], [])],
                offered := s.offered + {NextEnvelope(s)});
    if s.pool == [] then s.(envs := s.envs + [v])
    else Move(s, NextEnvelope(s), v).(pool := s.pool[..|s.pool| - 1])
  }

  /** The envelope the pool gives out: the top of the stack, or a new one. */
  function NextEnvelope(s: State): int {
    if s.pool == [] then |s.envs| else s.pool[|s.pool| - 1]
  }

  function ApplyAccept(s: State, e: int): State
    requires Known(s, e) && 0 <= s.envs[e].sender < |s.conns|
  {
    var v := s.envs[e];
    var c := s.conns[v.sender];
    Move(s, e, v.(place := OnSwitchQueue)).(
      offered := s.offered - {e},
      queue := if v.kind == SHUTDOWN then [e] + s.queue else s.queue + [e],
      queueIn := s.queueIn + 1,
      conns := s.conns[v.sender := c.(sent := c.sent + 1)])
  }

  function ApplyRefuse(s: State, e: int): State
    requires HasTicket(s, e)
  {
    PutBack(s.(offered := s.offered - {e}), e, s.envs[e].ticket, Refused)
  }

  function ApplyDequeue(s: State): State
    requires s.queue != [] && Known(s, s.queue[0])
  {
    var e := s.queue[0];
    Move(s, e, s.envs[e].(place := InSwitchHand)).(queue := s.queue[1..], pc := Got(e))
  }

  /** Finalize: the cleaner runs on the message and the envelope goes back to the pool. */
  function ApplyFinalize(s: State, e: int): State
    requires HasTicket(s, e)
  {
    var t := s.envs[e].ticket;
    PutBack(s, e, t, Cleaned).(cleaned := s.cleaned + [t])
  }

  function ApplyRoute(s: State): State
    requires s.pc.Got? && HasTicket(s, s.pc.e) && HasRow(s, s.envs[s.pc.e].bus) && -1 <= s.envs[s.pc.e].current
  {
    var e := s.pc.e;
    var v := s.envs[e];
    var n := NextSlot(s.table[v.bus], v.sender, v.current);
    if n == 0 then ApplyFinalize(s.(pc := Idle), e).(stopped := s.stopped || v.kind == SHUTDOWN)
    else Move(s, e, v.(current := n, target := s.table[v.bus][n])).(pc := Trying(e))
  }

  /** The put of `e` in the input queue of its target. Without a target the envelope is dropped. */
  function ApplyPut(s: State): State
    requires s.pc.Trying? && HasTicket(s, s.pc.e)
    requires s.envs[s.pc.e].target.Some? ==> 0 <= s.envs[s.pc.e].target.value < |s.conns|
  {
    var e := s.pc.e;
    var v := s.envs[e];
    if v.target.None? then s.(pc := Idle)
    else
      var c := v.target.value;
      var t := s.tickets[v.ticket];
      var q := s.conns[c];
      Move(s, e, v.(place := InInbox(c))).(
        conns := s.conns[c := q.(inbox := if v.kind == SHUTDOWN then [e] + q.inbox else q.inbox + [e],
                                 totalIn := q.totalIn + 1)],
        tickets := s.tickets[v.ticket := t.(hops := t.hops + [Hop(v.current, c)])],
        pc := Counting(e))
  }

  function ApplyBusy(s: State): State
    requires s.pc.Trying? && Known(s, s.pc.e)
  {
    var e := s.pc.e;
    var v := s.envs[e];
    Move(s, e, v.(place := OnSwitchQueue, pending := true, requeued := v.requeued + 1)).(
      queue := s.queue + [e], queueIn := s.queueIn + 1, requeues := s.requeues + 1, pc := Idle)
  }

  function ApplyCount(s: State): State
    requires s.pc.Counting? && Known(s, s.pc.e)
  {
    var e := s.pc.e;
    Move(s, e, s.envs[e].(pending := false, delivered := s.envs[e].delivered + 1)).(pc := Idle)
  }

  function ApplyReceive(s: State, c: int): State
    requires 0 <= c < |s.conns| && s.conns[c].inbox != [] && Known(s, s.conns[c].inbox[0])
  {
    var q := s.conns[c];
    var e := q.inbox[0];
    Move(s, e, s.envs[e].(place := HeldBy(c))).(
      conns := s.conns[c := q.(inbox := q.inbox[1..], held := q.held + [e], received := q.received + 1)])
  }

  function ApplyRelease(s: State, c: int, k: nat): State
    requires 0 <= c < |s.conns| && k < |s.conns[c].held| && HasTicket(s, s.conns[c].held[k])
  {
    var q := s.conns[c];
    var e := q.held[k];
    var v := s.envs[e];
    var t := s.tickets[v.ticket];
    Move(s, e, v.(place := OnSwitchQueue, pending := false, released := v.released + 1)).(
      conns := s.conns[c := q.(held := Without(q.held, k), released := q.released + 1)],
      tickets := s.tickets[v.ticket := t.(receipts := t.receipts + [c])],
      queue := s.queue + [e], queueIn := s.queueIn + 1)
  }

  function Apply(s: State, a: Action): State
    requires Enabled(s, a)
  {
    match a
    case Open => s.(conns := s.conns + [Conn([], [], 0, 0, 0, 0)])
    case Subscribe(c, b) => s.(table := s.table[b := Subscribed(s.table[b], c)])
    case Unsubscribe(c, b) => s.(table := s.table[b := Unsubscribed(s.table[b], c)])
    case Offer(c, b, kind) => ApplyOffer(s, c, b, kind)
    case Accept(e) => ApplyAccept(s, e)
    case Refuse(e) => ApplyRefuse(s, e)
    case Dequeue => ApplyDequeue(s)
    case Route => ApplyRoute(s)
    case Retry => s.(pc := Trying(s.pc.e))
    case Put => ApplyPut(s)
    case Busy => ApplyBusy(s)
    case Count => ApplyCount(s)
    case Receive(c) => ApplyReceive(s, c)
    case Release(c, k) => ApplyRelease(s, c, k)
  }

  /** A run: the states it goes through and the steps between them. */
  datatype Run = Run(states: seq<State>, acts: seq<Action>)

  ghost predicate IsRun(r: Run) {
    && |r.states| == |r.acts| + 1
    && r.states[0] == Init()
    && forall k :: 0 <= k < |r.acts| ==> StepAt(r, k)
  }

  ghost predicate StepAt(r: Run, k: int)
    requires 0 <= k < |r.acts| && |r.states| == |r.acts| + 1
  {
    Enabled(r.states[k], r.acts[k]) && r.states[k + 1] == Apply(r.states[k], r.acts[k])
  }
}
