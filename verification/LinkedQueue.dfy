/** The queue of the library: a chain of nodes from head to tail. */
module LinkedQueue {
  import opened Sequences

  class Node<T> {
    const node: T
    var next: Node?<T>
    /** The queue the node was made for; it keeps the chains of different queues apart. */
    ghost const home: Queue<T>

    constructor (node: T, ghost home: Queue<T>)
      ensures this.node == node && this.home == home && next == null
    {
      this.node := node;
      this.home := home;
      this.next := null;
    }
  }

  /** The node after the one at position `i` of a chain. */
  ghost function After<T>(chain: seq<Node<T>>, i: int): Node?<T>
    requires 0 <= i < |chain|
  {
    if i + 1 < |chain| then chain[i + 1] else null
  }

  /** The nodes of `q` follow each other, hold `contents`, and none comes twice; the last one has
      no successor. */
  ghost predicate Linked<T>(q: Queue<T>, chain: seq<Node<T>>, contents: seq<T>)
    reads chain
  {
    && |chain| == |contents|
    && (forall n :: n in chain ==> n.home == q)
    && (forall i :: 0 <= i < |chain| ==> chain[i].node == contents[i])
    && (forall i {:trigger After(chain, i)} {:trigger chain[i].next} :: 0 <= i < |chain| ==> chain[i].next == After(chain, i))
    && NoDup(chain)
  }

  lemma LinkedInFront<T>(q: Queue<T>, n: Node<T>, chain: seq<Node<T>>, contents: seq<T>)
    requires Linked(q, chain, contents) && n !in chain && n.home == q
    requires n.next == if chain == [] then null else chain[0]
    ensures Linked(q, [n] + chain, [n.node] + contents)
  {
  }

  lemma LinkedAtBack<T>(q: Queue<T>, chain: seq<Node<T>>, contents: seq<T>, n: Node<T>)
    requires |chain| == |contents| && NoDup(chain) && forall m :: m in chain ==> m.home == q
    requires forall i :: 0 <= i < |chain| ==> chain[i].node == contents[i]
    requires forall i :: 0 <= i < |chain| ==> chain[i].next == After(chain + [n], i)
    requires n !in chain && n.home == q && n.next == null
    ensures Linked(q, chain + [n], contents + [n.node])
  {
  }

  lemma LinkedRest<T>(q: Queue<T>, chain: seq<Node<T>>, contents: seq<T>)
    requires Linked(q, chain, contents) && chain != []
    ensures Linked(q, chain[1..], contents[1..])
  {
  }

  class Queue<T> {
    /** Tells the queues apart: the number of the connection, or -1 for the queue of the switch. */
    ghost const id: int
    var head: Node?<T>
    var tail: Node?<T>
    var num: int
    var totalIn: int
    var totalOut: int

    /** The chain from head to tail, and what it holds. */
    ghost var chain: seq<Node<T>>
    ghost var contents: seq<T>

    ghost predicate Valid()
      reads this, chain
    {
      && num == totalIn - totalOut == |contents|
      && (if chain == [] then head == null && tail == null
          else head == chain[0] && tail == chain[|chain| - 1])
      && Linked(this, chain, contents)
    }

    constructor (ghost id: int)
      ensures Valid() && this.id == id && contents == [] && totalIn == 0 && totalOut == 0 && chain == []
    {
      this.id := id;
      head, tail := null, null;
      num, totalIn, totalOut := 0, 0, 0;
      chain, contents := [], [];
    }

    /** Links a new node in at the tail. */
    method AddAtTail(n: Node<T>)
      requires Valid() && n !in chain && n.home == this && n.next == null
      modifies this, chain
      ensures Valid() && contents == old(contents) + [n.node]
      ensures totalIn == old(totalIn) + 1 && totalOut == old(totalOut)
    {
      if tail != null {
        tail.next := n;
      }
      tail := n;
      if head == null {
        head := n;
      }
      totalIn := totalIn + 1;
      num := num + 1;
      LinkedAtBack(this, chain, contents, n);
      chain := chain + [n];
      contents := contents + [n.node];
    }

    /** Puts an element at the tail; no other queue is disturbed. `memory`: a node can be allocated;
        without it nothing changes and the code is 0. */
    method PutSafe(x: T, memory: bool) returns (code: int)
      requires Valid()
      modifies this, chain
      ensures Valid() && code == (if memory then 1 else 0)
      ensures contents == old(contents) + (if memory then [x] else [])
      ensures totalIn == old(totalIn) + code && totalOut == old(totalOut)
      ensures forall q: Queue<T> :: old(allocated(q)) && q != this && old(q.Valid()) ==>
                q.Valid() && q.contents == old(q.contents) && q.totalIn == old(q.totalIn)
    {
      code := 1;
      if !memory {
        return 0;
      }
      var n := new Node(x, this);
      AddAtTail(n);
      forall q: Queue<T> | old(allocated(q)) && q != this && old(q.Valid())
        ensures q.Valid() && q.contents == old(q.contents) && q.totalIn == old(q.totalIn)
      {
        ghost var c := old(q.chain);
        assert old(Linked(q, q.chain, q.contents));
        forall i | 0 <= i < |c| ensures c[i].next == After(c, i) {
          assert c[i] in c && c[i].home == q;
          assert old(c[i].next) == After(c, i) && unchanged(c[i]);
        }
      }
    }

    method AddAtHead(n: Node<T>)
      requires Valid() && n !in chain && n.home == this && n.next == null
      modifies this, n
      ensures Valid() && contents == [n.node] + old(contents)
      ensures totalIn == old(totalIn) + 1 && totalOut == old(totalOut)
    {
      if head != null {
        n.next := head;
      }
      head := n;
      if tail == null {
        tail := n;
      }
      totalIn := totalIn + 1;
      num := num + 1;
      LinkedInFront(this, n, chain, contents);
      chain := [n] + chain;
      contents := [n.node] + contents;
    }

    /** Puts an element at the head: for messages of high priority. */
    method PutHeadSafe(x: T, memory: bool) returns (code: int)
      requires Valid()
      modifies this
      ensures Valid() && code == (if memory then 1 else 0)
      ensures contents == (if memory then [x] else []) + old(contents)
      ensures totalIn == old(totalIn) + code && totalOut == old(totalOut)
      ensures forall q: Queue<T> :: old(allocated(q)) && q != this && old(q.Valid()) ==>
                q.Valid() && q.contents == old(q.contents) && q.totalIn == old(q.totalIn)
    {
      code := 1;
      if !memory {
        return 0;
      }
      var n := new Node(x, this);
      AddAtHead(n);
    }

    /** Takes the first element out, or returns None. The rest of the chain is then counted
        against the counters; `mismatch` is the error that would be logged. */
    method GetSafe() returns (r: Option<T>, mismatch: bool)
      requires Valid()
      modifies this
      ensures Valid() && !mismatch
      ensures old(contents) == [] ==> r == None && contents == [] && totalOut == old(totalOut)
      ensures old(contents) != [] ==> r == Some(old(contents)[0]) && contents == old(contents)[1..] && totalOut == old(totalOut) + 1
      ensures totalIn == old(totalIn)
      ensures forall i :: 0 <= i < |chain| ==> chain[i] in old(chain)
      ensures forall q: Queue<T> :: old(allocated(q)) && q != this && old(q.Valid()) ==>
                q.Valid() && q.contents == old(q.contents) && q.totalIn == old(q.totalIn)
    {
      r, mismatch := None, false;
      var tmp := head;
      if tmp != null {
        r := Some(tmp.node);
        if head == tail {
          tail := null;
          head := null;
        } else {
          head := head.next;
        }
        totalOut := totalOut + 1;
        num := num - 1;
        LinkedRest(this, chain, contents);
        chain := chain[1..];
        contents := contents[1..];

        var count, expected := 0, totalIn - totalOut;
        tmp := head;
        while tmp != null
          invariant Valid() && 0 <= count <= |chain|
          invariant tmp == if count < |chain| then chain[count] else null
          decreases |chain| - count
          modifies {}
        {
          assert tmp == chain[count] && tmp.next == After(chain, count);
          count := count + 1;
          tmp := tmp.next;
        }
        mismatch := expected != count;
      }
    }

    /** The return codes of the locked operations: 1 success, 0 error, -1 busy. */
    method Put(x: T, memory: bool) returns (code: int)
      requires Valid()
      modifies this, chain
      ensures Valid() && code == (if memory then 1 else 0)
      ensures contents == old(contents) + (if memory then [x] else [])
      ensures totalIn == old(totalIn) + code && totalOut == old(totalOut)
      ensures forall q: Queue<T> :: old(allocated(q)) && q != this && old(q.Valid()) ==>
                q.Valid() && q.contents == old(q.contents) && q.totalIn == old(q.totalIn)
    {
      code := PutSafe(x, memory);
    }

    /** `contended`: another thread holds the mutex when the lock is tried. */
    method PutNb(x: T, contended: bool, memory: bool) returns (code: int)
      requires Valid()
      modifies this, chain
      ensures Valid() && code == (if contended then -1 else if memory then 1 else 0)
      ensures contents == old(contents) + (if code == 1 then [x] else [])
      ensures totalIn == old(totalIn) + (if code == 1 then 1 else 0) && totalOut == old(totalOut)
      ensures forall q: Queue<T> :: old(allocated(q)) && q != this && old(q.Valid()) ==>
                q.Valid() && q.contents == old(q.contents) && q.totalIn == old(q.totalIn)
    {
      if contended {
        return -1;
      }
      code := PutSafe(x, memory);
    }

    method PutHead(x: T, memory: bool) returns (code: int)
      requires Valid()
      modifies this
      ensures Valid() && code == (if memory then 1 else 0)
      ensures contents == (if memory then [x] else []) + old(contents)
      ensures totalIn == old(totalIn) + code && totalOut == old(totalOut)
      ensures forall q: Queue<T> :: old(allocated(q)) && q != this && old(q.Valid()) ==>
                q.Valid() && q.contents == old(q.contents) && q.totalIn == old(q.totalIn)
    {
      code := PutHeadSafe(x, memory);
    }

    method GetNb(contended: bool) returns (r: Option<T>)
      requires Valid()
      modifies this
      ensures Valid()
      ensures r == if contended || old(contents) == [] then None else Some(old(contents)[0])
      ensures contents == if r == None then old(contents) else old(contents)[1..]
      ensures totalIn == old(totalIn) && totalOut == old(totalOut) + (if r == None then 0 else 1)
      ensures forall i :: 0 <= i < |chain| ==> chain[i] in old(chain)
      ensures forall q: Queue<T> :: old(allocated(q)) && q != this && old(q.Valid()) ==>
                q.Valid() && q.contents == old(q.contents) && q.totalIn == old(q.totalIn)
    {
      if contended {
        return None;
      }
      var mismatch;
      r, mismatch := GetSafe();
    }
  }
}
