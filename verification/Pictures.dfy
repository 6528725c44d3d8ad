/** What the objects of a switch stand for, and how each step of the protocol changes it. */
module Pictures {
  import opened Sequences
  import opened Limits
  import opened LinkedQueue
  import opened Entities
  import opened EnvelopePool
  import opened SubscriberTable
  import opened Rows
  import opened Protocol
  import opened Invariants
  import opened History

  /** The envelopes in `s` are those numbered `ids`. */
  ghost predicate Named(s: seq<Envelope>, ids: seq<int>, envs: seq<Envelope>) {
    |s| == |ids| && forall k :: 0 <= k < |s| ==> 0 <= ids[k] < |envs| && s[k] == envs[ids[k]]
  }

  lemma NamedPut(s: seq<Envelope>, ids: seq<int>, envs: seq<Envelope>, e: int)
    requires Named(s, ids, envs) && 0 <= e < |envs|
    ensures Named(s + [envs[e]], ids + [e], envs) && Named([envs[e]] + s, [e] + ids, envs)
  {
  }

  ghost predicate QueueOk(q: Queue<Envelope>, ids: seq<int>, totalIn: int, envs: seq<Envelope>)
    reads q, q.chain
  {
    q.Valid() && Named(q.contents, ids, envs) && q.totalIn == totalIn
  }

  ghost predicate ConnectionOk(o: Connection, v: Conn, envs: seq<Envelope>)
    reads o, o.inputQueue, o.inputQueue.chain
  {
    && QueueOk(o.inputQueue, v.inbox, v.totalIn, envs)
    && o.received == v.received && o.released == v.released && o.sent == v.sent
  }

  predicate Refers(o: Connection?, target: Option<int>, conns: seq<Connection>) {
    if target.None? then o == null else 0 <= target.value < |conns| && o == conns[target.value]
  }

  predicate SlotOk(o: Option<Connection>, id: Option<int>, conns: seq<Connection>) {
    if id.None? then o.None? else o.Some? && 0 <= id.value < |conns| && o.value == conns[id.value]
  }

  ghost predicate RowOk(row: Row<Connection>, ids: Row<int>, conns: seq<Connection>) {
    |row| == |ids| == SLOTS + 1 && forall i :: 0 <= i < |row| ==> SlotOk(row[i], ids[i], conns)
  }

  /** What has been disposed of is what the cleaned messages asked for. */
  ghost predicate DisposedOk(disposed: seq<Disposal>, cleaned: seq<int>, orders: seq<Disposal>) {
    |disposed| == |cleaned| && forall i :: 0 <= i < |cleaned| ==> 0 <= cleaned[i] < |orders| && disposed[i] == orders[cleaned[i]]
  }

  /** What the objects of a switch stand for: the state of the protocol; the envelopes and
      connections by number; and what each send asked for, by message. */
  datatype Picture = Picture(st: State, envs: seq<Envelope>, conns: seq<Connection>, orders: seq<Disposal>)

  /** Shutdowns go in front, everything else to the back. */
  function Arranged<T>(kind: int, q: seq<T>, x: T): seq<T> {
    if kind == SHUTDOWN then [x] + q else q + [x]
  }

  ghost predicate InConns(w: Picture, c: Connection) {
    0 <= c.id < |w.conns| && w.conns[c.id] == c
  }

  ghost predicate InEnvs(w: Picture, e: Envelope) {
    0 <= e.id < |w.envs| && w.envs[e.id] == e
  }

  /** The envelope of that object is on its way. */
  ghost predicate OnTheWay(w: Picture, e: Envelope) {
    Ready(w.st, e.id) && InEnvs(w, e)
  }

  /** The connection is the one the envelope is addressed to. */
  ghost predicate Addressed(w: Picture, e: Envelope, conn: Connection) {
    OnTheWay(w, e) && w.st.pc == Trying(e.id) && InConns(w, conn) && w.st.envs[e.id].target == Some(conn.id)
  }

  /** A put, and the count of it. */
  ghost function PutAndCount(s: State): State
    requires s.pc.Trying? && Ready(s, s.pc.e) && s.envs[s.pc.e].target.Some?
  {
    ApplyCount(ApplyPut(s))
  }

  lemma StillOnTheWay(w: Picture, e: Envelope, conn: Connection)
    requires Addressed(w, e, conn)
    ensures OnTheWay(w.(st := ApplyPut(w.st)), e) && ApplyPut(w.st).pc == Counting(e.id)
  {
  }

  /** There is an object for each number, and it knows its number. */
  ghost predicate Agrees(w: Picture) {
    && |w.envs| == |w.st.envs| && |w.conns| == |w.st.conns| && |w.orders| == |w.st.tickets|
    && (forall e :: 0 <= e < |w.envs| ==> w.envs[e].id == e)
  }

  /** The switch holds an envelope that is not pending. */
  ghost predicate CanRoute(w: Picture) {
    && w.st.pc.Got? && Ready(w.st, w.st.pc.e) && !w.st.envs[w.st.pc.e].pending
    && Agrees(w) && HasRow(w.st, w.st.envs[w.st.pc.e].bus)
  }

  /** After one turn of the scan. */
  ghost function Routed(w: Picture): Picture
    requires CanRoute(w)
  {
    w.(st := ApplyRoute(w.st))
  }

  ghost predicate NextIs(w: Picture, index: int, next: Connection)
    requires CanRoute(w)
  {
    var v := w.st.envs[w.st.pc.e];
    index == NextSlot(w.st.table[v.bus], v.sender, v.current) && index != 0
    && InConns(w, next) && w.st.table[v.bus][index] == Some(next.id)
  }

  /** The table of connections and the table of numbers have the same next slot. */
  lemma SameNextSlot(row: Row<Connection>, ids: Row<int>, conns: seq<Connection>, sender: int, current: int)
    requires RowOk(row, ids, conns) && 0 <= sender < |conns| && -1 <= current
    requires forall c :: 0 <= c < |conns| ==> conns[c].id == c
    ensures NextSlot(row, conns[sender], current) == NextSlot(ids, sender, current)
  {
    assert forall i :: 0 <= i <= SLOTS ==> (Matches(row, conns[sender], i) <==> Matches(ids, sender, i)) by {
      forall i | 0 <= i <= SLOTS ensures Matches(row, conns[sender], i) <==> Matches(ids, sender, i) {
        assert SlotOk(row[i], ids[i], conns);
      }
    }
  }

  function FirstTaken(v: Conn): Conn
    requires v.inbox != []
  {
    v.(inbox := v.inbox[1..])
  }

  ghost predicate CanReceive(s: State, c: int) {
    0 <= c < |s.conns| && (s.conns[c].inbox != [] ==> Ready(s, s.conns[c].inbox[0]))
  }

  /** Client `c` has the envelope in its hands, at position `k`. */
  ghost predicate Holds(w: Picture, e: Envelope, c: int, k: nat) {
    OnTheWay(w, e) && 0 <= c < |w.st.conns| && k < |w.st.conns[c].held| && w.st.conns[c].held[k] == e.id
  }

  /** The envelope the pool would give out is not on its way. */
  ghost predicate CanOffer(w: Picture) {
    w.st.pool != [] ==> Known(w.st, NextEnvelope(w.st)) && !InFlight(w.st.envs[NextEnvelope(w.st)])
  }

  /** The record of an envelope that is about to be sent. */
  ghost function NewRecord(w: Picture, sender: int, bus: int, kind: int): Env
    requires CanOffer(w)
  {
    ApplyOffer(w.st, sender, bus, kind).envs[NextEnvelope(w.st)]
  }

  ghost function Offered(w: Picture, sender: int, bus: int, kind: int, d: Disposal, e: Envelope): Picture
    requires CanOffer(w)
  {
    w.(st := ApplyOffer(w.st, sender, bus, kind), envs := if w.st.pool == [] then w.envs + [e] else w.envs, orders := w.orders + [d])
  }

  /** The next message, and no other, is new in `w'`: of the sender, bus and type asked for, to be
      disposed of as asked. */
  ghost predicate AsAsked(w: Picture, w': Picture, sender: int, bus: int, kind: int, d: Disposal) {
    var t := |w.st.tickets|;
    && |w'.st.tickets| == |w'.orders| == t + 1 && w.orders <= w'.orders && w'.orders[t] == d
    && w'.st.tickets[t].sender == sender && w'.st.tickets[t].bus == bus && w'.st.tickets[t].kind == kind
  }

  lemma OfferedAsAsked(w: Picture, sender: int, bus: int, kind: int, d: Disposal, e: Envelope)
    requires CanOffer(w) && |w.orders| == |w.st.tickets|
    ensures AsAsked(w, Offered(w, sender, bus, kind, d, e), sender, bus, kind, d)
  {
  }

  /** The envelope is prepared for a send. */
  ghost predicate CanSubmit(w: Picture, e: int) {
    Ready(w.st, e) && |w.envs| == |w.st.envs| && w.envs[e].id == e && |w.conns| == |w.st.conns|
  }

  /** The two parts of a send. Without memory for the queue node the send fails. */
  ghost function Sent(w: Picture, c: int, b: int, kind: int, d: Disposal, e: Envelope, memory: bool): Picture
    requires CanOffer(w) && 0 <= c < |w.st.conns|
  {
    var v, n := Offered(w, c, b, kind, d, e), NextEnvelope(w.st);
    v.(st := if memory then ApplyAccept(v.st, n) else ApplyRefuse(v.st, n))
  }

  lemma SentAsAsked(w: Picture, c: int, b: int, kind: int, d: Disposal, e: Envelope, memory: bool)
    requires CanOffer(w) && 0 <= c < |w.st.conns| && |w.orders| == |w.st.tickets|
    ensures AsAsked(w, Sent(w, c, b, kind, d, e, memory), c, b, kind, d)
  {
  }

  lemma PreparedIsReady(w: Picture, c: int, b: int, kind: int, d: Disposal, e: Envelope)
    requires CanOffer(w) && 0 <= c < |w.st.conns| == |w.conns| && 1 <= b < BUSSES && |w.envs| == |w.st.envs|
    requires e.id == NextEnvelope(w.st) && e == Offered(w, c, b, kind, d, e).envs[e.id]
    ensures CanSubmit(Offered(w, c, b, kind, d, e), e.id)
  {
  }

  ghost function Opened(w: Picture, conn: Connection): Picture {
    w.(st := w.st.(conns := w.st.conns + [Conn([], [], 0, 0, 0, 0)]), conns := w.conns + [conn])
  }

  lemma SameSubscribed(row: Row<Connection>, ids: Row<int>, conns: seq<Connection>, c: int)
    requires RowOk(row, ids, conns) && 0 <= c < |conns|
    ensures FirstOf(row, None, 1) == FirstOf(ids, None, 1)
    ensures RowOk(Subscribed(row, conns[c]), Subscribed(ids, c), conns)
  {
  }

  lemma SameUnsubscribed(row: Row<Connection>, ids: Row<int>, conns: seq<Connection>, c: int)
    requires RowOk(row, ids, conns) && 0 <= c < |conns|
    requires forall i :: 0 <= i < |conns| ==> conns[i].id == i
    ensures FirstOf(row, Some(conns[c]), 1) == FirstOf(ids, Some(c), 1)
    ensures RowOk(Unsubscribed(row, conns[c]), Unsubscribed(ids, c), conns)
  {
  }

  /** The switch is about to put an envelope in the input queue of a recipient. */
  ghost predicate CanTry(s: State) {
    s.pc.Trying? && Ready(s, s.pc.e) && s.envs[s.pc.e].target.Some?
  }

  /** After a try to deliver: the put and its count, or the return to the switch queue. */
  ghost function Tried(w: Picture, contended: bool): Picture
    requires CanTry(w.st)
  {
    w.(st := if contended && w.st.envs[w.st.pc.e].kind != SHUTDOWN then ApplyBusy(w.st) else PutAndCount(w.st))
  }

  /** What the thread relies on when it takes up an envelope. */
  ghost predicate CanTurn(s: State) {
    s.queue != [] ==>
      var e := s.queue[0];
      Ready(s, e) && HasRow(s, s.envs[e].bus) && (s.envs[e].pending ==> s.envs[e].target.Some?)
  }

  /** The switch holds an envelope; if it is pending it has a recipient. */
  ghost predicate CanCarry(w: Picture) {
    && w.st.pc.Got? && Ready(w.st, w.st.pc.e) && Agrees(w) && HasRow(w.st, w.st.envs[w.st.pc.e].bus)
    && (w.st.envs[w.st.pc.e].pending ==> w.st.envs[w.st.pc.e].target.Some?)
  }

  /** A pending envelope is tried again at once, any other goes on along the row. */
  ghost function AfterCarry(w: Picture, contended: bool): Picture
    requires CanCarry(w)
  {
    var e := w.st.pc.e;
    if w.st.envs[e].pending then Tried(w.(st := w.st.(pc := Trying(e))), contended)
    else if CanTry(Routed(w).st) then Tried(Routed(w), contended)
    else Routed(w)
  }

  lemma CarryCases(w: Picture, contended: bool)
    requires CanCarry(w)
    ensures CanRoute(w) && AtEnd(w.st) ==> AfterCarry(w, contended) == Routed(w)
    ensures AfterCarry(w, contended).st.stopped == (w.st.stopped || Ends(w))
  {
  }

  /** The envelope in the switch's hand is a shutdown that has been all the way round. */
  ghost predicate Ends(w: Picture)
    requires CanCarry(w)
  {
    !w.st.envs[w.st.pc.e].pending && AtEnd(w.st) && w.st.envs[w.st.pc.e].kind == SHUTDOWN
  }

  ghost function AfterTurn(w: Picture, contended: bool): Picture
    requires CanTurn(w.st) && w.st.queue != [] && Agrees(w)
  {
    AfterCarry(w.(st := ApplyDequeue(w.st)), contended)
  }
}
