/** Envelopes and connections. `id` is the number the protocol knows them by. */
module Entities {
  import opened Sequences
  import opened LinkedQueue

  const TYPE_INVALID := 0

  /** What a send asks for: the message, and the cleaner to run on it once everybody is done
      with it; without a cleaner the message is freed. */
  datatype Disposal = Disposal(cleaner: Option<int>, msg: int)

  class Connection {
    ghost const id: int
    const inputQueue: Queue<Envelope>
    var received: int
    var released: int
    var sent: int

    constructor (ghost id: int)
      ensures this.id == id && inputQueue.id == id && received == 0 && released == 0 && sent == 0
      ensures fresh(inputQueue) && inputQueue.Valid() && inputQueue.contents == [] && inputQueue.chain == []
      ensures inputQueue.totalIn == 0
    {
      this.id := id;
      inputQueue := new Queue(id);
      received, released, sent := 0, 0, 0;
    }
  }

  class Envelope {
    ghost const id: int
    var kind: int
    var requeued: int
    var releasedCount: int
    var deliveryCount: int
    var disposal: Disposal
    var pending: bool
    var bus: int
    var sender: Connection?
    var current: int
    var currentConn: Connection?

    constructor (ghost id: int)
      ensures this.id == id
    {
      this.id := id;
      kind, requeued, releasedCount, deliveryCount := TYPE_INVALID, 0, 0, 0;
      disposal := Disposal(None, 0);
      pending, bus, sender, current, currentConn := false, 0, null, 0, null;
    }

    /** What a send writes in its envelope. */
    method Fill(d: Disposal, bus: int, sender: Connection, kind: int)
      modifies this
      ensures disposal == d && this.bus == bus && this.sender == sender && this.kind == kind
      ensures !pending && current == -1 && currentConn == null
      ensures deliveryCount == 0 && releasedCount == 0 && requeued == 0
    {
      disposal := d;
      pending := false;
      this.bus := bus;
      this.sender := sender;
      current := -1;
      currentConn := null;
      this.kind := kind;
      deliveryCount := 0;
      releasedCount := 0;
      requeued := 0;
    }
  }
}
