/** The pool of envelopes: a stack of at most 127, in slots 1 to 127 of an array of 128. */
module EnvelopePool {
  import opened Sequences
  import opened Limits
  import opened Entities

  class Pool {
    const stack: array<Envelope?>
    var initialized: bool
    var top: int
    var created: int
    var recycled: int
    var returned: int

    /** The envelopes on the stack, the top one last; those given out; those destroyed, in order. */
    ghost var pooled: seq<Envelope>
    ghost var inUse: set<Envelope>
    ghost var destroyed: seq<Envelope>

    /** The stack holds exactly `pooled` in its slots from 1 on, every other slot is null, an
        envelope is pooled, in use or destroyed, and the counters tell how many. */
    ghost predicate Valid()
      reads this, stack
    {
      && stack.Length == POOL_SIZE
      && 0 <= top < POOL_SIZE && top == |pooled| == recycled - returned
      && created == |inUse| + |pooled| + |destroyed|
      && NoDup(pooled) && NoDup(destroyed)
      && (forall e :: e in pooled ==> e !in inUse && e !in destroyed)
      && (forall e :: e in destroyed ==> e !in inUse)
      && (if initialized then
            && (forall k :: 1 <= k <= top ==> stack[k] == pooled[k - 1])
            && stack[0] == null && (forall k :: top < k < POOL_SIZE ==> stack[k] == null)
          else top == 0 && inUse == {} && destroyed == [])
    }

    constructor ()
      ensures Valid() && fresh(stack) && pooled == [] && inUse == {} && destroyed == [] && created == 0
    {
      stack := new Envelope?[POOL_SIZE];
      initialized, top, created, recycled, returned := false, 0, 0, 0, 0;
      pooled, inUse, destroyed := [], {}, [];
    }

    static predicate IsClean(e: Envelope)
      reads e
    {
      && e.bus == 0 && e.current == 0 && e.currentConn == null && e.sender == null && !e.pending
      && e.kind == TYPE_INVALID && e.deliveryCount == 0 && e.releasedCount == 0
      && e.disposal == Disposal(None, 0)
    }

    /** Resets the fields of an envelope for reuse; the message is left to whoever owned it. */
    static method Clean(e: Envelope)
      modifies e
      ensures IsClean(e) && e.requeued == old(e.requeued)
    {
      e.bus := 0;
      e.current := 0;
      e.currentConn := null;
      e.sender := null;
      e.pending := false;
      e.disposal := Disposal(None, 0);
      e.kind := TYPE_INVALID;
      e.deliveryCount := 0;
      e.releasedCount := 0;
    }

    /** The first time around, every slot is made null. */
    method Prepare()
      requires Valid()
      modifies this`initialized, stack
      ensures Valid() && initialized
    {
      if !initialized {
        for i := 0 to POOL_SIZE
          invariant forall k :: 0 <= k < i ==> stack[k] == null
        {
          stack[i] := null;
        }
        initialized := true;
      }
    }

    /** Takes the top envelope off a stack that is not empty. */
    method Spare() returns (e: Envelope)
      requires Valid() && initialized && stack[top] != null
      modifies this, stack, stack[top]
      ensures Valid() && IsClean(e)
      ensures old(pooled) != [] && e == old(pooled)[|old(pooled)| - 1] && pooled == old(pooled)[..|old(pooled)| - 1]
      ensures e !in old(inUse) && inUse == old(inUse) + {e} && destroyed == old(destroyed)
      ensures returned == old(returned) + 1 && recycled == old(recycled) && created == old(created)
    {
      e := stack[top];
      assert e == pooled[top - 1];
      TakeLast(pooled);
      stack[top] := null;
      Clean(e);
      returned := returned + 1;
      if top != 0 {
        top := top - 1;
      }
      pooled := pooled[..|pooled| - 1];
      inUse := inUse + {e};
    }

    /** A new envelope. */
    method Another(ghost id: int) returns (e: Envelope)
      requires Valid() && initialized
      modifies this`created, this`inUse
      ensures Valid() && fresh(e) && e.id == id && IsClean(e)
      ensures created == old(created) + 1 && inUse == old(inUse) + {e}
    {
      e := new Envelope(id);
      Clean(e);
      created := created + 1;
      inUse := inUse + {e};
    }

    /** Gives out the top of the stack or, when the stack is empty, a new envelope; never one
        that is in use. `memory`: an envelope can be allocated; without it an empty stack gives
        null, and nobody gets anything. */
    method Get(memory: bool, ghost id: int) returns (e: Envelope?)
      requires Valid()
      modifies this, stack, if pooled == [] then {} else {pooled[|pooled| - 1]}
      ensures Valid() && destroyed == old(destroyed) && recycled == old(recycled)
      ensures e == null <==> old(pooled) == [] && !memory
      ensures e == null ==> pooled == [] && inUse == old(inUse) && created == old(created) && returned == old(returned)
      ensures e != null ==> e.disposal == Disposal(None, 0) && e.sender == null && e.currentConn == null
      ensures e != null ==> e.kind == 0 && !e.pending && e.deliveryCount == 0 && e.releasedCount == 0
      ensures e != null ==> e !in old(inUse) && inUse == old(inUse) + {e}
      ensures e != null && old(pooled) == [] ==>
                fresh(e) && e.id == id && pooled == [] && created == old(created) + 1 && returned == old(returned)
      ensures old(pooled) != [] ==>
                e == old(pooled)[|old(pooled)| - 1] && pooled == old(pooled)[..|old(pooled)| - 1]
                && created == old(created) && returned == old(returned) + 1
    {
      Prepare();
      if stack[top] != null {
        e := Spare();
      } else if memory {
        e := Another(id);
      } else {
        e := null;
      }
    }

    /** Takes back an envelope in use: onto the stack, or destroyed when the stack is full. */
    method Recycle(e: Envelope)
      requires Valid() && e in inUse
      modifies this, stack
      ensures Valid()
      ensures inUse == old(inUse) - {e}
      ensures if |old(pooled)| == 127 then pooled == old(pooled) && destroyed == old(destroyed) + [e] && recycled == old(recycled)
              else pooled == old(pooled) + [e] && destroyed == old(destroyed) && recycled == old(recycled) + 1
      ensures created == old(created) && returned == old(returned)
    {
      if top + 1 == POOL_SIZE {
        PutIn(destroyed, e);
        destroyed := destroyed + [e];
      } else {
        top := top + 1;
        stack[top] := e;
        recycled := recycled + 1;
        PutIn(pooled, e);
        pooled := pooled + [e];
      }
      inUse := inUse - {e};
    }
  }
}
