/** The switch itself, over the linked queues, the envelope pool and the subscriber table. A ghost
    picture numbers the objects and tells which state of the protocol they are in; every method
    takes them from one state to the next by exactly the step its contract names. */
module Switch {
  import opened Sequences
  import opened Limits
  import opened LinkedQueue
  import opened Entities
  import opened EnvelopePool
  import opened SubscriberTable
  import opened Rows
  import opened Protocol
  import opened Invariants
  import opened History
  import opened Pictures

  class Switch {
    const queue: Queue<Envelope>
    const pool: Pool
    const table: Table<Connection>

    /** What the switch has disposed of, in order. */
    ghost var disposed: seq<Disposal>

    ghost predicate Numbered(w: Picture) {
      && Agrees(w)
      && (forall c :: 0 <= c < |w.conns| ==> w.conns[c].id == w.conns[c].inputQueue.id == c)
      && queue.id == -1
    }

    ghost predicate PoolOk(w: Picture)
      reads pool, pool.stack
    {
      pool.Valid() && Named(pool.pooled, w.st.pool, w.envs) && Named(pool.destroyed, w.st.destroyed, w.envs)
    }

    /** Envelope `e` was put away: on the stack, which was `was`, or destroyed, after those in `gone`. */
    ghost predicate PutAway(e: Envelope, was: seq<Envelope>, gone: seq<Envelope>)
      reads pool
    {
      if |was| + 1 == POOL_SIZE then pool.pooled == was && pool.destroyed == gone + [e]
      else pool.pooled == was + [e] && pool.destroyed == gone
    }

    ghost predicate TableOk(w: Picture)
      reads table, table.slots
    {
      && table.Valid() && |w.st.table| == BUSSES
      && forall b :: 0 <= b < BUSSES ==> RowOk(table.RowOf(b), w.st.table[b], w.conns)
    }

    /** The envelope has the fields the record says, and the message it was sent with; while it is
        not on its way its fields do not matter. */
    ghost predicate Shows(o: Envelope, v: Env, w: Picture)
      reads o, pool
    {
      InFlight(v) ==>
        && o in pool.inUse
        && o.kind == v.kind && o.bus == v.bus && o.pending == v.pending && o.current == v.current
        && Refers(o.sender, Some(v.sender), w.conns) && Refers(o.currentConn, v.target, w.conns)
        && o.deliveryCount == v.delivered && o.releasedCount == v.released && o.requeued == v.requeued
        && 0 <= v.ticket < |w.orders| && o.disposal == w.orders[v.ticket]
    }

    /** Every connection but number `f` is in order. */
    ghost predicate ConnectionsOk(w: Picture, f: int)
      reads *
    {
      && |w.conns| == |w.st.conns|
      && forall c {:trigger ConnectionOk(w.conns[c], w.st.conns[c], w.envs)} ::
           0 <= c < |w.conns| && c != f ==> ConnectionOk(w.conns[c], w.st.conns[c], w.envs)
    }

    /** Every envelope but number `f` is in order. */
    ghost predicate EnvelopesOk(w: Picture, f: int)
      reads pool, w.envs
    {
      && |w.envs| == |w.st.envs|
      && forall e {:trigger Shows(w.envs[e], w.st.envs[e], w)} ::
           0 <= e < |w.envs| && e != f ==> Shows(w.envs[e], w.st.envs[e], w)
    }

    /** Everything but the switch queue, envelope `e` and connection `c`. */
    ghost predicate Rest(w: Picture, e: int, c: int)
      reads *
    {
      && Numbered(w) && PoolOk(w) && TableOk(w)
      && ConnectionsOk(w, c) && EnvelopesOk(w, e)
      && DisposedOk(disposed, w.st.cleaned, w.orders)
    }

    /** The objects are in the state `w` shows. */
    ghost predicate Valid(w: Picture)
      reads *
    {
      Rest(w, -1, -1) && QueueOk(queue, w.st.queue, w.st.queueIn, w.envs)
    }

    constructor ()
      ensures Valid(Picture(Init(), [], [], []))
    {
      queue := new Queue(-1);
      pool := new Pool();
      table := new Table();
      disposed := [];
    }

    /** The state has changed for envelope `e` and connection `c` only, and those are in order. */
    lemma Restated(w: Picture, w': Picture, e: int, c: int)
      requires EnvelopesOk(w, e) && ConnectionsOk(w, c)
      requires w.envs <= w'.envs && w'.conns == w.conns && w.orders <= w'.orders
      requires |w'.st.envs| == |w'.envs| && (w'.envs == w.envs || (e == |w.envs| && |w'.envs| == e + 1))
      requires forall i :: 0 <= i < |w.envs| && i != e ==> w'.st.envs[i] == w.st.envs[i]
      requires 0 <= e < |w'.envs| ==> Shows(w'.envs[e], w'.st.envs[e], w')
      requires |w'.st.conns| == |w.conns|
      requires forall i :: 0 <= i < |w.conns| && i != c ==> w'.st.conns[i] == w.st.conns[i]
      requires 0 <= c < |w.conns| ==> ConnectionOk(w'.conns[c], w'.st.conns[c], w'.envs)
      ensures EnvelopesOk(w', -1) && ConnectionsOk(w', -1)
    {
      forall i | 0 <= i < |w'.envs| ensures Shows(w'.envs[i], w'.st.envs[i], w') {
        if i != e {
          assert Shows(w.envs[i], w.st.envs[i], w);
        }
      }
      forall i | 0 <= i < |w'.conns| ensures ConnectionOk(w'.conns[i], w'.st.conns[i], w'.envs) {
        if i != c {
          assert ConnectionOk(w.conns[i], w.st.conns[i], w.envs);
        }
      }
    }

    /** Nothing has touched the connections and their queues. */
    twostate lemma ConnectionsStay(new w: Picture)
      requires old(allocated(w)) && old(ConnectionsOk(w, -1))
      requires forall c :: 0 <= c < |w.conns| ==>
                 unchanged(w.conns[c]) && unchanged(w.conns[c].inputQueue) && unchanged(old(w.conns[c].inputQueue.chain))
      ensures ConnectionsOk(w, -1)
    {
      forall c | 0 <= c < |w.conns| ensures ConnectionOk(w.conns[c], w.st.conns[c], w.envs) {
        assert old(ConnectionOk(w.conns[c], w.st.conns[c], w.envs));
      }
    }

    /** Nothing has touched the envelopes but number `e`. */
    twostate lemma EnvelopesStay(new w: Picture, e: int)
      requires old(allocated(w)) && old(EnvelopesOk(w, e))
      requires forall i :: 0 <= i < |w.envs| && i != e ==>
                 unchanged(w.envs[i]) && (w.envs[i] in old(pool.inUse) ==> w.envs[i] in pool.inUse)
      ensures EnvelopesOk(w, e)
    {
      forall i | 0 <= i < |w.envs| && i != e ensures Shows(w.envs[i], w.st.envs[i], w) {
        assert old(Shows(w.envs[i], w.st.envs[i], w));
      }
    }

    // ---------- The switch thread ----------

    lemma AfterDequeue(w: Picture)
      requires Rest(w, -1, -1) && w.st.queue != [] && Ready(w.st, w.st.queue[0])
      requires QueueOk(queue, w.st.queue[1..], w.st.queueIn, w.envs)
      ensures Valid(w.(st := ApplyDequeue(w.st)))
    {
      assert Shows(w.envs[w.st.queue[0]], w.st.envs[w.st.queue[0]], w);
      Restated(w, w.(st := ApplyDequeue(w.st)), w.st.queue[0], -1);
    }

    /** One turn of the thread starts with a try to dequeue. `contended`: the lock is taken. */
    method TryDequeue(contended: bool, ghost w: Picture) returns (e: Envelope?, ghost w': Picture)
      requires Valid(w) && (w.st.queue != [] ==> Ready(w.st, w.st.queue[0]))
      modifies queue
      ensures Valid(w')
      ensures if contended || w.st.queue == [] then e == null && w' == w
              else w' == w.(st := ApplyDequeue(w.st)) && e == w.envs[w.st.queue[0]]
      ensures forall i :: 0 <= i < |queue.chain| ==> queue.chain[i] in old(queue.chain)
    {
      var r := queue.GetNb(contended);
      ConnectionsStay(w);
      assert Rest(w, -1, -1);
      if r == None {
        return null, w;
      }
      e := r.value;
      w' := w.(st := ApplyDequeue(w.st));
      AfterDequeue(w);
    }

    /** Tries to put the envelope in the input queue of the connection: a shutdown at the head,
        anything else at the tail and without waiting. `memory`: a queue node can be allocated. */
    static method TrySendingToRecipient(conn: Connection?, e: Envelope, contended: bool, memory: bool) returns (code: Code)
      requires conn != null ==> conn.inputQueue.Valid()
      modifies if conn == null then {} else {conn.inputQueue}
      modifies if conn == null then [] else conn.inputQueue.chain
      ensures conn == null ==> code == BadConnection
      ensures conn != null ==>
                && code == (if contended && e.kind != SHUTDOWN then BusyOutputQueue else if memory then Success else OutputQueuing)
                && var q := conn.inputQueue;
                && q.Valid()
                && q.contents == (if code == Success then Arranged(e.kind, old(q.contents), e) else old(q.contents))
                && q.totalIn == old(q.totalIn) + (if code == Success then 1 else 0)
      ensures forall q: Queue<Envelope> :: old(allocated(q)) && (conn == null || q != conn.inputQueue) && old(q.Valid()) ==>
                q.Valid() && q.contents == old(q.contents) && q.totalIn == old(q.totalIn)
    {
      if conn == null {
        return BadConnection;
      }
      code := Success;
      var outcome;
      if e.kind == SHUTDOWN {
        outcome := conn.inputQueue.PutHead(e, memory);
      } else {
        outcome := conn.inputQueue.PutNb(e, contended, memory);
      }
      match outcome
      case 0 => code := OutputQueuing;
      case 1 => code := Success;
      case -1 => code := BusyOutputQueue;
    }

    /** What the put does to the queues. */
    method PutInto(conn: Connection, e: Envelope, contended: bool, ghost w: Picture) returns (code: Code)
      requires ConnectionsOk(w, -1) && Numbered(w) && InConns(w, conn) && queue.Valid()
      modifies conn.inputQueue, conn.inputQueue.chain
      ensures code == if contended && e.kind != SHUTDOWN then BusyOutputQueue else Success
      ensures ConnectionsOk(w, if code == Success then conn.id else -1)
      ensures conn.inputQueue.Valid()
      ensures code == Success ==>
                && conn.inputQueue.totalIn == old(conn.inputQueue.totalIn) + 1
                && conn.inputQueue.contents == Arranged(e.kind, old(conn.inputQueue.contents), e)
      ensures queue.Valid() && queue.contents == old(queue.contents) && queue.totalIn == old(queue.totalIn)
    {
      ghost var d := conn.id;
      assert ConnectionOk(conn, w.st.conns[d], w.envs);
      code := TrySendingToRecipient(conn, e, contended, true);
      forall c | 0 <= c < |w.conns| && (c != d || code != Success) ensures ConnectionOk(w.conns[c], w.st.conns[c], w.envs) {
        assert old(ConnectionOk(w.conns[c], w.st.conns[c], w.envs));
        assert old(w.conns[c].inputQueue.Valid());
        assert c != d ==> w.conns[c].inputQueue != conn.inputQueue;
        assert w.conns[c].inputQueue.Valid();
      }
    }

    lemma AfterPut(w: Picture, d: int, was: seq<Envelope>)
      requires w.st.pc.Trying? && Ready(w.st, w.st.pc.e) && w.st.envs[w.st.pc.e].target == Some(d)
      requires Rest(w, -1, d) && QueueOk(queue, w.st.queue, w.st.queueIn, w.envs)
      requires |w.envs| == |w.st.envs| && |w.conns| == |w.st.conns|
      requires var o, v, e := w.conns[d], w.st.conns[d], w.st.pc.e;
               && o.inputQueue.Valid() && o.inputQueue.totalIn == v.totalIn + 1 && Named(was, v.inbox, w.envs)
               && o.inputQueue.contents == Arranged(w.st.envs[e].kind, was, w.envs[e])
               && o.received == v.received && o.released == v.released && o.sent == v.sent
      ensures Valid(w.(st := ApplyPut(w.st)))
    {
      assert Shows(w.envs[w.st.pc.e], w.st.envs[w.st.pc.e], w);
      NamedPut(was, w.st.conns[d].inbox, w.envs, w.st.pc.e);
      Restated(w, w.(st := ApplyPut(w.st)), w.st.pc.e, d);
    }

    /** The put of the envelope in the input queue of its recipient. */
    method Deliver(conn: Connection, e: Envelope, contended: bool, ghost w: Picture) returns (code: Code, ghost w': Picture)
      requires Valid(w) && Addressed(w, e, conn)
      modifies conn.inputQueue, conn.inputQueue.chain
      ensures code == if contended && e.kind != SHUTDOWN then BusyOutputQueue else Success
      ensures Valid(w') && w' == if code == Success then w.(st := ApplyPut(w.st)) else w
    {
      assert Shows(e, w.st.envs[e.id], w);
      assert ConnectionOk(conn, w.st.conns[conn.id], w.envs);
      ghost var was := conn.inputQueue.contents;
      code := PutInto(conn, e, contended, w);
      assert QueueOk(queue, w.st.queue, w.st.queueIn, w.envs);
      if code == Success {
        assert Rest(w, -1, conn.id);
        AfterPut(w, conn.id, was);
        w' := w.(st := ApplyPut(w.st));
      } else {
        assert Rest(w, -1, -1);
        w' := w;
      }
    }

    /** Only the fields of envelope `e` have changed. */
    lemma AfterFields(w: Picture, e: int, v: Env, pc: Pc)
      requires Rest(w, e, -1) && QueueOk(queue, w.st.queue, w.st.queueIn, w.envs) && Known(w.st, e)
      requires Shows(w.envs[e], v, w)
      ensures Valid(w.(st := Move(w.st, e, v).(pc := pc)))
    {
      Restated(w, w.(st := Move(w.st, e, v).(pc := pc)), e, -1);
    }

    /** The fields of an envelope whose delivery succeeded. */
    method MarkDelivered(e: Envelope, ghost w: Picture)
      requires Numbered(w) && ConnectionsOk(w, -1) && EnvelopesOk(w, -1) && InEnvs(w, e)
      modifies e
      ensures ConnectionsOk(w, -1) && EnvelopesOk(w, e.id)
      ensures Shows(e, w.st.envs[e.id].(pending := false, delivered := w.st.envs[e.id].delivered + 1), w)
    {
      assert Shows(e, w.st.envs[e.id], w);
      e.pending := false;
      e.deliveryCount := e.deliveryCount + 1;
      ConnectionsStay(w);
      EnvelopesStay(w, e.id);
    }

    /** The delivery is counted; the recipient may have the envelope in its hands already, or may
        have given it back. */
    method CountDelivery(e: Envelope, ghost w: Picture) returns (ghost w': Picture)
      requires Valid(w) && w.st.pc == Counting(e.id) && OnTheWay(w, e)
      modifies e
      ensures Valid(w') && w' == w.(st := ApplyCount(w.st))
    {
      w' := w.(st := ApplyCount(w.st));
      MarkDelivered(e, w);
      AfterFields(w, e.id, w'.st.envs[e.id], Idle);
    }

    /** The envelope goes to the switch queue; the input queues are not disturbed. */
    method Enqueue(e: Envelope, first: bool, memory: bool, ghost w: Picture) returns (code: int)
      requires ConnectionsOk(w, -1) && Numbered(w) && queue.Valid()
      modifies queue, queue.chain
      ensures ConnectionsOk(w, -1) && queue.Valid() && code == (if memory then 1 else 0)
      ensures queue.contents == if !memory then old(queue.contents) else if first then [e] + old(queue.contents) else old(queue.contents) + [e]
      ensures queue.totalIn == old(queue.totalIn) + code
    {
      if first {
        code := queue.PutHead(e, memory);
      } else {
        code := queue.Put(e, memory);
      }
      forall c | 0 <= c < |w.conns| ensures ConnectionOk(w.conns[c], w.st.conns[c], w.envs) {
        assert old(ConnectionOk(w.conns[c], w.st.conns[c], w.envs));
        assert old(w.conns[c].inputQueue.Valid());
        assert w.conns[c].inputQueue != queue;
        assert w.conns[c].inputQueue.Valid();
      }
    }

    /** The envelope joins the switch queue, which was `ids`, at the tail. */
    method Join(e: Envelope, ghost w: Picture, ghost ids: seq<int>)
      requires Rest(w, -1, -1) && InEnvs(w, e) && QueueOk(queue, ids, w.st.queueIn - 1, w.envs)
      requires w.st.queue == ids + [e.id]
      modifies queue, queue.chain
      ensures Valid(w)
    {
      NamedPut(queue.contents, ids, w.envs, e.id);
      var code := Enqueue(e, false, true, w);
    }

    /** The fields of an envelope whose recipient is busy. */
    method MarkBusy(e: Envelope, ghost w: Picture)
      requires Numbered(w) && ConnectionsOk(w, -1) && EnvelopesOk(w, -1) && InEnvs(w, e)
      modifies e
      ensures ConnectionsOk(w, -1) && EnvelopesOk(w, e.id)
      ensures Shows(e, w.st.envs[e.id].(pending := true, requeued := w.st.envs[e.id].requeued + 1), w)
    {
      assert Shows(e, w.st.envs[e.id], w);
      e.requeued := e.requeued + 1;
      e.pending := true;
      ConnectionsStay(w);
      EnvelopesStay(w, e.id);
    }

    lemma AfterMarkBusy(w: Picture)
      requires w.st.pc.Trying? && Ready(w.st, w.st.pc.e) && Rest(w, w.st.pc.e, -1)
      requires Shows(w.envs[w.st.pc.e], w.st.envs[w.st.pc.e].(pending := true, requeued := w.st.envs[w.st.pc.e].requeued + 1), w)
      ensures Rest(w.(st := ApplyBusy(w.st)), -1, -1)
    {
      Restated(w, w.(st := ApplyBusy(w.st)), w.st.pc.e, -1);
    }

    /** The recipient is busy: the envelope goes back to the switch queue. */
    method Requeue(e: Envelope, ghost w: Picture) returns (ghost w': Picture)
      requires Valid(w) && w.st.pc == Trying(e.id) && OnTheWay(w, e)
      modifies e, queue, queue.chain
      ensures Valid(w') && w' == w.(st := ApplyBusy(w.st))
    {
      w' := w.(st := ApplyBusy(w.st));
      MarkBusy(e, w);
      AfterMarkBusy(w);
      Join(e, w', w.st.queue);
    }

    /** The delivery, counted, or the return to the switch queue. */
    method TrySendingOrRequeue(conn: Connection, e: Envelope, contended: bool, ghost w: Picture) returns (code: Code, ghost w': Picture)
      requires Valid(w) && Addressed(w, e, conn)
      modifies e, conn.inputQueue, conn.inputQueue.chain, queue, queue.chain
      ensures code == if contended && old(e.kind) != SHUTDOWN then BusyOutputQueue else Success
      ensures Valid(w') && w' == if code == Success then w.(st := PutAndCount(w.st)) else w.(st := ApplyBusy(w.st))
    {
      StillOnTheWay(w, e, conn);
      ghost var v;
      code, v := Deliver(conn, e, contended, w);
      if code == Success {
        w' := CountDelivery(e, v);
        return;
      }
      if code == BusyOutputQueue {
        w' := Requeue(e, w);
      }
    }

    /** The envelope is addressed to the subscriber in the slot. */
    method Address(e: Envelope, index: int, next: Connection, ghost w: Picture)
      requires Numbered(w) && ConnectionsOk(w, -1) && EnvelopesOk(w, -1) && InEnvs(w, e) && InConns(w, next)
      modifies e
      ensures ConnectionsOk(w, -1) && EnvelopesOk(w, e.id) && e.currentConn == next
      ensures Shows(e, w.st.envs[e.id].(current := index, target := Some(next.id)), w)
    {
      assert Shows(e, w.st.envs[e.id], w);
      e.current := index;
      e.currentConn := next;
      ConnectionsStay(w);
      EnvelopesStay(w, e.id);
    }

    /** The envelope goes back to the pool. */
    method Recycle(e: Envelope, ghost w: Picture)
      requires Agrees(w) && ConnectionsOk(w, -1) && EnvelopesOk(w, -1) && OnTheWay(w, e) && pool.Valid()
      modifies pool, pool.stack
      ensures pool.Valid() && ConnectionsOk(w, -1) && EnvelopesOk(w, e.id)
      ensures PutAway(e, old(pool.pooled), old(pool.destroyed))
    {
      assert Shows(e, w.st.envs[e.id], w);
      pool.Recycle(e);
      ConnectionsStay(w);
      EnvelopesStay(w, e.id);
    }

    /** Runs the cleaner on the message or, without one, frees it. */
    method Dispose(d: Disposal)
      modifies this`disposed
      ensures disposed == old(disposed) + [d]
    {
      disposed := disposed + [d];
    }

    /** The message is disposed of as its sender asked, and the envelope recycled. */
    method Finalize(e: Envelope, ghost w: Picture)
      requires Agrees(w) && ConnectionsOk(w, -1) && EnvelopesOk(w, -1) && OnTheWay(w, e) && pool.Valid()
      modifies this`disposed, pool, pool.stack
      ensures 0 <= w.st.envs[e.id].ticket < |w.orders| && disposed == old(disposed) + [w.orders[w.st.envs[e.id].ticket]]
      ensures pool.Valid() && ConnectionsOk(w, -1) && EnvelopesOk(w, e.id)
      ensures PutAway(e, old(pool.pooled), old(pool.destroyed))
    {
      assert Shows(e, w.st.envs[e.id], w);
      Dispose(e.disposal);
      ConnectionsStay(w);
      Recycle(e, w);
    }

    lemma AfterFinalize(w: Picture, was: seq<Envelope>, gone: seq<Envelope>, done: seq<Disposal>)
      requires CanRoute(w) && AtEnd(w.st)
      requires Numbered(w) && TableOk(w) && ConnectionsOk(w, -1) && EnvelopesOk(w, w.st.pc.e)
      requires pool.Valid() && Named(was, w.st.pool, w.envs) && Named(gone, w.st.destroyed, w.envs)
      requires PutAway(w.envs[w.st.pc.e], was, gone)
      requires DisposedOk(done, w.st.cleaned, w.orders) && disposed == done + [w.orders[w.st.envs[w.st.pc.e].ticket]]
      requires QueueOk(queue, w.st.queue, w.st.queueIn, w.envs)
      ensures Valid(Routed(w))
    {
      NamedPut(was, w.st.pool, w.envs, w.st.pc.e);
      NamedPut(gone, w.st.destroyed, w.envs, w.st.pc.e);
      Restated(w, Routed(w), w.st.pc.e, -1);
    }

    /** The scan of the row of the bus for the subscriber that follows. */
    method NextSubscriber(e: Envelope, ghost w: Picture) returns (code: Code, next: Connection?, index: int)
      requires Numbered(w) && TableOk(w) && CanRoute(w) && e == w.envs[w.st.pc.e] && Shows(e, w.st.envs[e.id], w)
      ensures code == if AtEnd(w.st) then EndOfSubscribersList else Success
      ensures code == Success ==> next != null && NextIs(w, index, next)
    {
      ghost var v := w.st.envs[e.id];
      assert RowOk(table.RowOf(v.bus), w.st.table[v.bus], w.conns);
      SameNextSlot(table.RowOf(v.bus), w.st.table[v.bus], w.conns, v.sender, v.current);
      var r;
      code, r, index := table.GetNextSubscriber(e.sender, e.current, e.bus);
      next := null;
      if code == Success {
        next := r.value;
        assert SlotOk(r, w.st.table[v.bus][index], w.conns);
      }
    }

    /** The end of the list: the message is finished with. `shutdown`: it was a shutdown. */
    method EndOfList(e: Envelope, ghost w: Picture) returns (shutdown: bool, ghost w': Picture)
      requires Valid(w) && CanRoute(w) && AtEnd(w.st) && e == w.envs[w.st.pc.e]
      modifies this`disposed, pool, pool.stack
      ensures Valid(w') && w' == Routed(w) && shutdown == (old(e.kind) == 1)
    {
      w' := Routed(w);
      ghost var was, gone, done := pool.pooled, pool.destroyed, disposed;
      var kind := e.kind;
      Finalize(e, w);
      shutdown := kind == SHUTDOWN;
      AfterFinalize(w, was, gone, done);
    }

    /** The envelope is adjusted for its next recipient. */
    method Forward(e: Envelope, index: int, next: Connection, ghost w: Picture) returns (ghost w': Picture)
      requires Valid(w) && CanRoute(w) && !AtEnd(w.st) && e == w.envs[w.st.pc.e] && NextIs(w, index, next)
      modifies e
      ensures Valid(w') && w' == Routed(w) && Addressed(w', e, next)
    {
      w' := Routed(w);
      Address(e, index, next, w);
      AfterFields(w, e.id, w'.st.envs[e.id], Trying(e.id));
    }

    lemma AfterRetry(w: Picture)
      requires Valid(w) && w.st.pc.Got? && Known(w.st, w.st.pc.e)
      ensures Valid(w.(st := w.st.(pc := Trying(w.st.pc.e))))
    {
      Restated(w, w.(st := w.st.(pc := Trying(w.st.pc.e))), -1, -1);
    }

    /** A pending envelope: its recipient was busy, and is tried again without a new look at
        the row. */
    method HandlePending(e: Envelope, contended: bool, ghost w: Picture) returns (ghost w': Picture)
      requires Valid(w) && w.st.pc == Got(e.id) && OnTheWay(w, e) && e.currentConn != null
      modifies e, e.currentConn.inputQueue, e.currentConn.inputQueue.chain, queue, queue.chain
      ensures Valid(w')
      ensures CanTry(w.st.(pc := Trying(e.id)))
      ensures var s := w.st.(pc := Trying(e.id));
              w' == w.(st := if contended && old(e.kind) != 1 then ApplyBusy(s) else PutAndCount(s))
    {
      var conn := e.currentConn;
      assert Shows(e, w.st.envs[e.id], w);
      AfterRetry(w);
      var code;
      code, w' := TrySendingOrRequeue(conn, e, contended, w.(st := w.st.(pc := Trying(e.id))));
    }

    /** The input queues and their nodes. */
    static ghost function Inputs(conns: seq<Connection>): (s: set<object>)
      reads set c | 0 <= c < |conns| :: conns[c].inputQueue
      ensures forall c :: 0 <= c < |conns| ==> conns[c].inputQueue in s
      ensures forall c, n :: 0 <= c < |conns| && n in conns[c].inputQueue.chain ==> n in s
    {
      var queues: set<object> := set c | 0 <= c < |conns| :: conns[c].inputQueue;
      var nodes: set<object> := set c, n | 0 <= c < |conns| && n in conns[c].inputQueue.chain :: n;
      queues + nodes
    }

    /** Either the end of the list, or a delivery to the next subscriber. */
    method Dispatch(e: Envelope, contended: bool, ghost w: Picture) returns (shutdown: bool, ghost w': Picture)
      requires Valid(w) && CanRoute(w) && e == w.envs[w.st.pc.e]
      modifies this`disposed, queue, queue.chain, pool, pool.stack, e, Inputs(w.conns)
      ensures Valid(w') && shutdown == (AtEnd(w.st) && old(e.kind) == 1)
      ensures var v := Routed(w);
              if AtEnd(w.st) then w' == v
              else CanTry(v.st) && w' == v.(st := if contended && old(e.kind) != 1 then ApplyBusy(v.st) else PutAndCount(v.st))
    {
      ghost var inputs := Inputs(w.conns);
      shutdown := false;
      var code, next, index := NextSubscriber(e, w);
      if code == EndOfSubscribersList {
        shutdown, w' := EndOfList(e, w);
        return;
      }
      ghost var w1 := Forward(e, index, next, w);
      assert w.conns[next.id] == next && Shows(e, w1.st.envs[e.id], w1);
      assert next.inputQueue in inputs && forall n :: n in next.inputQueue.chain ==> n in inputs;
      var done;
      done, w' := TrySendingOrRequeue(next, e, contended, w1);
    }

    /** What the thread does with an envelope it has dequeued. */
    method Carry(e: Envelope, contended: bool, ghost w: Picture) returns (shutdown: bool, ghost w': Picture)
      requires Valid(w) && CanCarry(w) && e == w.envs[w.st.pc.e]
      modifies this`disposed, queue, queue.chain, pool, pool.stack, e, Inputs(w.conns)
      ensures Valid(w') && w' == AfterCarry(w, contended)
      ensures w'.st.stopped == (w.st.stopped || shutdown)
    {
      CarryCases(w, contended);
      shutdown := false;
      assert Shows(e, w.st.envs[e.id], w);
      if e.pending {
        ghost var inputs := Inputs(w.conns);
        ghost var c := w.st.envs[e.id].target.value;
        assert e.currentConn == w.conns[c] && w.conns[c].inputQueue in inputs;
        assert forall n :: n in w.conns[c].inputQueue.chain ==> n in inputs;
        w' := HandlePending(e, contended, w);
      } else {
        shutdown, w' := Dispatch(e, contended, w);
      }
    }

    /** One iteration of the loop of the switch thread. `lockTaken` and `contended` say which locks
        are taken by others when they are tried; `shutdownFlag` is the variable that ends the loop. */
    method Turn(shutdownFlag: bool, lockTaken: bool, contended: bool, ghost w: Picture) returns (flag: bool, ghost w': Picture)
      requires Valid(w) && CanTurn(w.st) && shutdownFlag == w.st.stopped
      modifies this`disposed, queue, queue.chain, pool, pool.stack, w.envs, Inputs(w.conns)
      ensures Valid(w') && flag == w'.st.stopped
      ensures w' == if shutdownFlag || lockTaken || w.st.queue == [] then w else AfterTurn(w, contended)
    {
      flag, w' := shutdownFlag, w;
      if !shutdownFlag {
        ghost var inputs := Inputs(w.conns);
        var e;
        e, w' := TryDequeue(lockTaken, w);
        assert Valid(w');
        if e != null {
          assert w.envs[e.id] == e && Inputs(w.conns) == inputs;
          flag, w' := Carry(e, contended, w');
        }
      }
    }

    // ---------- The clients ----------

    lemma AfterReceive(w: Picture, c: int)
      requires Rest(w, -1, c) && QueueOk(queue, w.st.queue, w.st.queueIn, w.envs)
      requires 0 <= c < |w.st.conns| == |w.conns| && w.st.conns[c].inbox != [] && Ready(w.st, w.st.conns[c].inbox[0])
      requires ConnectionOk(w.conns[c], FirstTaken(w.st.conns[c]).(received := w.st.conns[c].received + 1), w.envs)
      ensures Valid(w.(st := ApplyReceive(w.st, c)))
    {
      var e := w.st.conns[c].inbox[0];
      assert |w.envs| == |w.st.envs|;
      assert Shows(w.envs[e], w.st.envs[e], w);
      Restated(w, w.(st := ApplyReceive(w.st, c)), e, c);
    }

    /** A get from the input queue; every other connection stays as it is. */
    method GetFrom(conn: Connection, contended: bool, ghost w: Picture) returns (r: Option<Envelope>)
      requires Numbered(w) && ConnectionsOk(w, -1) && InConns(w, conn) && CanReceive(w.st, conn.id)
      modifies conn.inputQueue
      ensures r == if contended || w.st.conns[conn.id].inbox == [] then None else Some(w.envs[w.st.conns[conn.id].inbox[0]])
      ensures if r == None then ConnectionsOk(w, -1)
              else ConnectionsOk(w, conn.id) && ConnectionOk(conn, FirstTaken(w.st.conns[conn.id]), w.envs)
    {
      assert ConnectionOk(conn, w.st.conns[conn.id], w.envs);
      r := conn.inputQueue.GetNb(contended);
      forall c | 0 <= c < |w.conns| && (c != conn.id || r == None) ensures ConnectionOk(w.conns[c], w.st.conns[c], w.envs) {
        assert old(ConnectionOk(w.conns[c], w.st.conns[c], w.envs));
      }
    }

    method CountReceived(conn: Connection, ghost w: Picture)
      requires Numbered(w) && ConnectionsOk(w, conn.id) && InConns(w, conn) && w.st.conns[conn.id].inbox != []
      requires ConnectionOk(conn, FirstTaken(w.st.conns[conn.id]), w.envs)
      modifies conn`received
      ensures ConnectionsOk(w, conn.id)
      ensures ConnectionOk(conn, FirstTaken(w.st.conns[conn.id]).(received := w.st.conns[conn.id].received + 1), w.envs)
    {
      conn.received := conn.received + 1;
      forall c | 0 <= c < |w.conns| && c != conn.id ensures ConnectionOk(w.conns[c], w.st.conns[c], w.envs) {
        assert old(ConnectionOk(w.conns[c], w.st.conns[c], w.envs));
      }
    }

    method ReceiveNb(conn: Connection?, contended: bool, ghost w: Picture) returns (code: Code, e: Envelope?, ghost w': Picture)
      requires Valid(w)
      requires conn != null ==> InConns(w, conn) && CanReceive(w.st, conn.id)
      modifies if conn == null then {} else {conn, conn.inputQueue}
      ensures Valid(w')
      ensures conn == null ==> code == BadConnection && e == null && w' == w
      ensures conn != null && (contended || w.st.conns[conn.id].inbox == []) ==> code == NoMessage && e == null && w' == w
      ensures conn != null && !contended && w.st.conns[conn.id].inbox != [] ==>
                code == Success && e == w.envs[w.st.conns[conn.id].inbox[0]] && w' == w.(st := ApplyReceive(w.st, conn.id))
    {
      e, w' := null, w;
      if conn == null {
        code := BadConnection;
        return;
      }
      code := Success;
      var r := GetFrom(conn, contended, w);
      if r == None {
        code := NoMessage;
      } else {
        e := r.value;
        CountReceived(conn, w);
        AfterReceive(w, conn.id);
        w' := w.(st := ApplyReceive(w.st, conn.id));
      }
    }

    /** The fields of an envelope that comes back. */
    method MarkReleased(e: Envelope, ghost w: Picture)
      requires Numbered(w) && ConnectionsOk(w, -1) && EnvelopesOk(w, -1) && OnTheWay(w, e)
      modifies e
      ensures ConnectionsOk(w, -1) && EnvelopesOk(w, e.id)
      ensures Shows(e, w.st.envs[e.id].(pending := false, released := w.st.envs[e.id].released + 1), w)
    {
      assert Shows(e, w.st.envs[e.id], w);
      e.pending := false;
      e.releasedCount := e.releasedCount + 1;
      ConnectionsStay(w);
      EnvelopesStay(w, e.id);
    }

    /** One more released, or sent, by the connection. */
    method CountFor(conn: Connection, released: bool, ghost w: Picture)
      requires Numbered(w) && ConnectionsOk(w, -1) && InConns(w, conn)
      modifies conn`released, conn`sent
      ensures ConnectionsOk(w, conn.id)
      ensures var v := w.st.conns[conn.id];
              ConnectionOk(conn, if released then v.(released := v.released + 1) else v.(sent := v.sent + 1), w.envs)
    {
      assert ConnectionOk(conn, w.st.conns[conn.id], w.envs);
      if released {
        conn.released := conn.released + 1;
      } else {
        conn.sent := conn.sent + 1;
      }
      forall c | 0 <= c < |w.conns| && c != conn.id ensures ConnectionOk(w.conns[c], w.st.conns[c], w.envs) {
        assert old(ConnectionOk(w.conns[c], w.st.conns[c], w.envs));
      }
    }

    lemma AfterMarkReleased(w: Picture, e: Envelope, c: int, k: nat)
      requires Rest(w, e.id, c) && Holds(w, e, c, k)
      requires ConnectionOk(w.conns[c], w.st.conns[c].(released := w.st.conns[c].released + 1), w.envs)
      requires Shows(e, w.st.envs[e.id].(pending := false, released := w.st.envs[e.id].released + 1), w)
      ensures Rest(w.(st := ApplyRelease(w.st, c, k)), -1, -1)
    {
      Restated(w, w.(st := ApplyRelease(w.st, c, k)), e.id, c);
    }

    /** The envelope and the connection after the release, before the put. */
    method MarkReturn(conn: Connection, e: Envelope, ghost k: nat, ghost w: Picture)
      requires Rest(w, -1, -1) && InConns(w, conn) && Holds(w, e, conn.id, k)
      modifies e, conn
      ensures Rest(w.(st := ApplyRelease(w.st, conn.id, k)), -1, -1)
    {
      MarkReleased(e, w);
      CountFor(conn, true, w);
      AfterMarkReleased(w, e, conn.id, k);
    }

    method Return(conn: Connection, e: Envelope, ghost k: nat, ghost w: Picture) returns (ghost w': Picture)
      requires Valid(w) && InConns(w, conn) && Holds(w, e, conn.id, k)
      modifies e, conn, queue, queue.chain
      ensures Valid(w') && w' == w.(st := ApplyRelease(w.st, conn.id, k))
    {
      w' := w.(st := ApplyRelease(w.st, conn.id, k));
      MarkReturn(conn, e, k, w);
      Join(e, w', w.st.queue);
    }

    /** A client gives back the envelope it holds at position `k`. */
    method Release(conn: Connection?, e: Envelope?, ghost k: nat, ghost w: Picture) returns (code: Code, ghost w': Picture)
      requires Valid(w)
      requires conn != null && e != null ==> InConns(w, conn) && Holds(w, e, conn.id, k)
      modifies if conn == null || e == null then {} else {conn, e, queue}
      modifies if conn == null || e == null then [] else queue.chain
      ensures Valid(w')
      ensures code == if conn == null then BadConnection else if e == null then InvalidEnvelope else Success
      ensures w' == if code == Success then w.(st := ApplyRelease(w.st, conn.id, k)) else w
    {
      w' := w;
      if conn == null {
        return BadConnection, w;
      }
      if e == null {
        return InvalidEnvelope, w;
      }
      w' := Return(conn, e, k, w);
      code := Success;
    }

    /** An envelope from the pool, and what that leaves alone. */
    method Take(ghost w: Picture) returns (e: Envelope)
      requires Numbered(w) && ConnectionsOk(w, -1) && EnvelopesOk(w, -1) && PoolOk(w) && CanOffer(w)
      modifies pool, pool.stack, if pool.pooled == [] then {} else {pool.pooled[|pool.pooled| - 1]}
      ensures pool.Valid() && e in pool.inUse && e.id == NextEnvelope(w.st)
      ensures pool.pooled == if w.st.pool == [] then [] else old(pool.pooled)[..|w.st.pool| - 1]
      ensures pool.destroyed == old(pool.destroyed)
      ensures if w.st.pool == [] then fresh(e) else e == w.envs[e.id] && e == old(pool.pooled)[|w.st.pool| - 1]
      ensures ConnectionsOk(w, -1) && EnvelopesOk(w, e.id)
    {
      e := pool.Get(true, |w.envs|);
      ConnectionsStay(w);
      EnvelopesStay(w, e.id);
    }

    /** An envelope is filled in for a send. */
    method FillIn(e: Envelope, sender: Connection, bus: int, d: Disposal, kind: int, ghost w: Picture)
      requires |w.envs| == |w.st.envs| && ConnectionsOk(w, -1) && EnvelopesOk(w, e.id)
      requires forall i :: 0 <= i < |w.envs| ==> w.envs[i].id == i
      requires CanOffer(w) && e in pool.inUse && InConns(w, sender) && |w.orders| == |w.st.tickets|
      modifies e
      ensures ConnectionsOk(w, -1) && EnvelopesOk(w, e.id)
      ensures Shows(e, NewRecord(w, sender.id, bus, kind), w.(orders := w.orders + [d]))
      ensures e.bus == bus && e.kind == kind && e.sender == sender && e.disposal == d
    {
      e.Fill(d, bus, sender, kind);
      ConnectionsStay(w);
      EnvelopesStay(w, e.id);
    }

    /** The envelope of a send, filled in. */
    method Obtain(sender: Connection, bus: int, d: Disposal, kind: int, ghost w: Picture) returns (e: Envelope)
      requires Numbered(w) && ConnectionsOk(w, -1) && EnvelopesOk(w, -1) && PoolOk(w) && CanOffer(w) && InConns(w, sender)
      modifies pool, pool.stack, if pool.pooled == [] then {} else {pool.pooled[|pool.pooled| - 1]}
      ensures pool.Valid() && e.id == NextEnvelope(w.st) && (w.st.pool != [] ==> e == w.envs[e.id])
      ensures pool.pooled == if w.st.pool == [] then [] else old(pool.pooled)[..|w.st.pool| - 1]
      ensures pool.destroyed == old(pool.destroyed)
      ensures ConnectionsOk(w, -1) && EnvelopesOk(w, e.id)
      ensures Shows(e, NewRecord(w, sender.id, bus, kind), w.(orders := w.orders + [d]))
      ensures e.bus == bus && e.kind == kind && e.sender == sender && e.disposal == d
    {
      e := Take(w);
      FillIn(e, sender, bus, d, kind, w);
    }

    lemma AfterOffer(w: Picture, w': Picture, sender: int, bus: int, kind: int, d: Disposal, e: Envelope, was: seq<Envelope>)
      requires CanOffer(w) && 0 <= sender < |w.conns| && w' == Offered(w, sender, bus, kind, d, e)
      requires Numbered(w) && TableOk(w) && ConnectionsOk(w, -1) && EnvelopesOk(w, e.id)
      requires e.id == NextEnvelope(w.st) && (w.st.pool != [] ==> e == w.envs[e.id])
      requires Shows(e, NewRecord(w, sender, bus, kind), w.(orders := w.orders + [d]))
      requires pool.Valid() && Named(was, w.st.pool, w.envs)
      requires pool.pooled == if w.st.pool == [] then [] else was[..|w.st.pool| - 1]
      requires Named(pool.destroyed, w.st.destroyed, w.envs)
      requires DisposedOk(disposed, w.st.cleaned, w.orders)
      requires QueueOk(queue, w.st.queue, w.st.queueIn, w.envs)
      ensures Valid(w')
    {
      assert w'.envs[e.id] == e && w'.st.envs[e.id] == NewRecord(w, sender, bus, kind);
      Restated(w, w', e.id, -1);
    }

    /** The first part of a send: the envelope is prepared. */
    method Prepare(sender: Connection, bus: int, d: Disposal, kind: int, ghost w: Picture) returns (e: Envelope, ghost w': Picture)
      requires Valid(w) && CanOffer(w) && InConns(w, sender)
      modifies pool, pool.stack, if pool.pooled == [] then {} else {pool.pooled[|pool.pooled| - 1]}
      ensures Valid(w') && w' == Offered(w, sender.id, bus, kind, d, e)
      ensures e == w'.envs[NextEnvelope(w.st)] && e.id == NextEnvelope(w.st)
      ensures e.bus == bus && e.kind == kind && e.sender == sender && e.disposal == d
      ensures AsAsked(w, w', sender.id, bus, kind, d)
    {
      ghost var was := pool.pooled;
      e := Obtain(sender, bus, d, kind, w);
      assert TableOk(w) && QueueOk(queue, w.st.queue, w.st.queueIn, w.envs);
      w' := Offered(w, sender.id, bus, kind, d, e);
      OfferedAsAsked(w, sender.id, bus, kind, d, e);
      AfterOffer(w, w', sender.id, bus, kind, d, e, was);
    }

    lemma AfterAccept(w: Picture, e: int, was: seq<Envelope>)
      requires CanSubmit(w, e) && Rest(w, -1, w.st.envs[e].sender)
      requires var c := w.st.envs[e].sender; ConnectionOk(w.conns[c], w.st.conns[c].(sent := w.st.conns[c].sent + 1), w.envs)
      requires queue.Valid() && Named(was, w.st.queue, w.envs) && queue.totalIn == w.st.queueIn + 1
      requires queue.contents == Arranged(w.st.envs[e].kind, was, w.envs[e])
      ensures Valid(w.(st := ApplyAccept(w.st, e)))
    {
      assert Shows(w.envs[e], w.st.envs[e], w);
      NamedPut(was, w.st.queue, w.envs, e);
      Restated(w, w.(st := ApplyAccept(w.st, e)), e, w.st.envs[e].sender);
    }

    lemma AfterRefuse(w: Picture, e: int, was: seq<Envelope>, gone: seq<Envelope>)
      requires CanSubmit(w, e)
      requires Numbered(w) && TableOk(w) && ConnectionsOk(w, -1) && EnvelopesOk(w, e)
      requires pool.Valid() && Named(was, w.st.pool, w.envs) && Named(gone, w.st.destroyed, w.envs)
      requires PutAway(w.envs[e], was, gone)
      requires DisposedOk(disposed, w.st.cleaned, w.orders)
      requires QueueOk(queue, w.st.queue, w.st.queueIn, w.envs)
      ensures Valid(w.(st := ApplyRefuse(w.st, e)))
    {
      NamedPut(was, w.st.pool, w.envs, e);
      NamedPut(gone, w.st.destroyed, w.envs, e);
      Restated(w, w.(st := ApplyRefuse(w.st, e)), e, -1);
    }

    /** The send went through. */
    method Accept(sender: Connection, e: Envelope, ghost w: Picture, ghost was: seq<Envelope>) returns (ghost w': Picture)
      requires CanSubmit(w, e.id) && e == w.envs[e.id] && Rest(w, -1, -1) && InConns(w, sender) && w.st.envs[e.id].sender == sender.id
      requires queue.Valid() && Named(was, w.st.queue, w.envs) && queue.totalIn == w.st.queueIn + 1
      requires queue.contents == Arranged(w.st.envs[e.id].kind, was, e)
      modifies sender`sent, sender`released
      ensures Valid(w') && w' == w.(st := ApplyAccept(w.st, e.id))
    {
      CountFor(sender, false, w);
      w' := w.(st := ApplyAccept(w.st, e.id));
      AfterAccept(w, e.id, was);
    }

    /** It did not: the switch forgets the message. */
    method Refuse(e: Envelope, ghost w: Picture) returns (ghost w': Picture)
      requires Valid(w) && CanSubmit(w, e.id) && e == w.envs[e.id]
      modifies pool, pool.stack
      ensures Valid(w') && w' == w.(st := ApplyRefuse(w.st, e.id))
    {
      ghost var was, gone := pool.pooled, pool.destroyed;
      Recycle(e, w);
      w' := w.(st := ApplyRefuse(w.st, e.id));
      AfterRefuse(w, e.id, was, gone);
    }

    /** The second part of a send: the put in the switch queue. */
    method Submit(sender: Connection, e: Envelope, memory: bool, ghost w: Picture) returns (code: Code, ghost w': Picture)
      requires Valid(w) && CanSubmit(w, e.id) && e == w.envs[e.id] && InConns(w, sender) && w.st.envs[e.id].sender == sender.id
      modifies queue, queue.chain, sender`sent, sender`released, pool, pool.stack
      ensures code == if memory then Success else OutOfMemory
      ensures Valid(w') && w' == w.(st := if memory then ApplyAccept(w.st, e.id) else ApplyRefuse(w.st, e.id))
    {
      ghost var was := queue.contents;
      assert Shows(e, w.st.envs[e.id], w);
      var result := Enqueue(e, e.kind == SHUTDOWN, memory, w);
      if result == 1 {
        code := Success;
        w' := Accept(sender, e, w, was);
      } else {
        code := OutOfMemory;
        w' := Refuse(e, w);
      }
    }

    method Send(conn: Connection?, bus: int, d: Disposal, kind: int, memory: bool, ghost w: Picture)
      returns (code: Code, ghost e: Envelope?, ghost w': Picture)
      requires Valid(w) && CanOffer(w) && (conn != null ==> InTable(bus) && InConns(w, conn))
      modifies if conn == null then {} else {conn}
      modifies pool, pool.stack, if pool.pooled == [] then {} else {pool.pooled[|pool.pooled| - 1]}
      modifies queue, queue.chain
      ensures Valid(w')
      ensures code == if conn == null then BadConnection else if !(1 <= bus <= 7) then InvalidBus
                      else if memory then Success else OutOfMemory
      ensures if code == Success || code == OutOfMemory then e != null && w' == Sent(w, conn.id, bus, kind, d, e, memory) else w' == w
      ensures code == Success || code == OutOfMemory ==> AsAsked(w, w', conn.id, bus, kind, d)
    {
      e, w' := null, w;
      if conn == null {
        code := BadConnection;
        return;
      }
      if BUSSES < bus || 0 >= bus {
        code := InvalidBus;
        return;
      }
      var f;
      f, w' := Prepare(conn, bus, d, kind, w);
      e := f;
      PreparedIsReady(w, conn.id, bus, kind, d, f);
      code, w' := Submit(conn, f, memory, w');
      SentAsAsked(w, conn.id, bus, kind, d, f, memory);
    }

    lemma AfterOpen(w: Picture, conn: Connection)
      requires Valid(w) && ConnectionOk(conn, Conn([], [], 0, 0, 0, 0), w.envs)
      requires conn.id == conn.inputQueue.id == |w.conns|
      ensures Valid(Opened(w, conn))
    {
      var w' := Opened(w, conn);
      forall i | 0 <= i < |w'.envs| ensures Shows(w'.envs[i], w'.st.envs[i], w') {
        assert Shows(w.envs[i], w.st.envs[i], w);
      }
      forall i | 0 <= i < |w'.conns| ensures ConnectionOk(w'.conns[i], w'.st.conns[i], w'.envs) {
        if i < |w.conns| {
          assert ConnectionOk(w.conns[i], w.st.conns[i], w.envs);
        }
      }
    }

    /** A client opens a connection. */
    method Connect(ghost w: Picture) returns (conn: Connection, ghost w': Picture)
      requires Valid(w)
      ensures Valid(w') && fresh(conn) && w' == Opened(w, conn)
    {
      conn := new Connection(|w.conns|);
      ConnectionsStay(w);
      assert Valid(w);
      w' := Opened(w, conn);
      AfterOpen(w, conn);
    }

    /** Only the row of bus `b` has changed. */
    lemma AfterTable(w: Picture, b: int, ids: Row<int>)
      requires 0 <= b < BUSSES == |w.st.table| && table.Valid() && RowOk(table.RowOf(b), ids, w.conns)
      requires forall a :: 0 <= a < BUSSES && a != b ==> RowOk(table.RowOf(a), w.st.table[a], w.conns)
      requires Numbered(w) && PoolOk(w) && ConnectionsOk(w, -1) && EnvelopesOk(w, -1)
      requires DisposedOk(disposed, w.st.cleaned, w.orders)
      requires QueueOk(queue, w.st.queue, w.st.queueIn, w.envs)
      ensures Valid(w.(st := w.st.(table := w.st.table[b := ids])))
    {
      Restated(w, w.(st := w.st.(table := w.st.table[b := ids])), -1, -1);
    }

    method Subscribe(conn: Connection?, bus: int, contended: bool, ghost w: Picture) returns (code: Code, ghost w': Picture)
      requires Valid(w) && (conn != null ==> InConns(w, conn)) && (conn != null && !contended ==> InTable(bus))
      modifies table.slots
      ensures Valid(w')
      ensures 1 <= bus < 7 ==> HasRow(w.st, bus)
      ensures code == if conn == null then BadConnection else if !(1 <= bus <= 7) then InvalidBus
                      else if contended then ConnectionsBusy
                      else if FirstOf(w.st.table[bus], None, 1) == 0 then BusFull else Success
      ensures w' == if code == Success then w.(st := w.st.(table := w.st.table[bus := Subscribed(w.st.table[bus], conn.id)])) else w
    {
      if 1 <= bus < 7 {
        assert RowOk(table.RowOf(bus), w.st.table[bus], w.conns);
        if conn != null { SameSubscribed(table.RowOf(bus), w.st.table[bus], w.conns, conn.id); }
      }
      code := table.Add(if conn == null then None else Some(conn), bus, contended);
      ConnectionsStay(w);
      w' := w;
      if code == Success {
        w' := w.(st := w.st.(table := w.st.table[bus := Subscribed(w.st.table[bus], conn.id)]));
        AfterTable(w, bus, Subscribed(w.st.table[bus], conn.id));
      }
    }

    method Unsubscribe(conn: Connection?, bus: int, contended: bool, ghost w: Picture) returns (code: Code, ghost w': Picture)
      requires Valid(w) && (conn != null ==> InConns(w, conn)) && (conn != null && !contended ==> InTable(bus))
      modifies table.slots
      ensures Valid(w')
      ensures 1 <= bus < 7 ==> HasRow(w.st, bus)
      ensures code == if conn == null then BadConnection else if !(1 <= bus <= 7) then InvalidBus
                      else if contended then ConnectionsBusy
                      else if FirstOf(w.st.table[bus], Some(conn.id), 1) == 0 then SubscriptionNotFound else Success
      ensures w' == if code == Success then w.(st := w.st.(table := w.st.table[bus := Unsubscribed(w.st.table[bus], conn.id)])) else w
    {
      if 1 <= bus < 7 {
        assert RowOk(table.RowOf(bus), w.st.table[bus], w.conns);
        if conn != null { SameUnsubscribed(table.RowOf(bus), w.st.table[bus], w.conns, conn.id); }
      }
      code := table.Remove(if conn == null then None else Some(conn), bus, contended);
      ConnectionsStay(w);
      w' := w;
      if code == Success {
        w' := w.(st := w.st.(table := w.st.table[bus := Unsubscribed(w.st.table[bus], conn.id)]));
        AfterTable(w, bus, Unsubscribed(w.st.table[bus], conn.id));
      }
    }
  }
}
