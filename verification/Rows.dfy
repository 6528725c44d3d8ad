/** One row of the subscriber table: the slots 1 to 15 of one bus. Slot 0 is unused. */
module Rows {
  import opened Sequences
  import opened Limits

  type Row<T> = seq<Option<T>>

  datatype Hop<T> = Hop(slot: int, conn: T)

  /** Slot `i` holds a connection other than the sender. */
  predicate Matches<T(==)>(row: Row<T>, sender: T, i: int)
    requires 0 <= i < |row|
  {
    row[i].Some? && row[i].value != sender
  }

  /** The least matching slot from `i` on, or 0 when there is none. */
  function FindFrom<T(==)>(row: Row<T>, sender: T, i: int): (slot: int)
    requires |row| == SLOTS + 1 && 1 <= i
    ensures slot == 0 || i <= slot <= SLOTS
    ensures slot != 0 ==> Matches(row, sender, slot)
    ensures forall j :: i <= j <= SLOTS && (slot == 0 || j < slot) ==> !Matches(row, sender, j)
    decreases SLOTS + 1 - i
  {
    if i > SLOTS then 0
    else if Matches(row, sender, i) then i
    else FindFrom(row, sender, i + 1)
  }

  /** The slot the scan moves to from cursor `current`; -1 means that the scan has not started. */
  function NextSlot<T(==)>(row: Row<T>, sender: T, current: int): (slot: int)
    requires |row| == SLOTS + 1 && -1 <= current
  {
    FindFrom(row, sender, if current == -1 then 1 else current + 1)
  }

  /** The whole fan-out in slot order: every matching slot from 1 to `k`. */
  function FanOut<T(==)>(row: Row<T>, sender: T, k: int): (hops: seq<Hop<T>>)
    requires |row| == SLOTS + 1 && k <= SLOTS
    decreases if k < 0 then 0 else k
  {
    if k <= 0 then []
    else FanOut(row, sender, k - 1) + (if Matches(row, sender, k) then [Hop(k, row[k].value)] else [])
  }

  /** Nothing is added to the fan-out between two cursors with no match in between. */
  lemma {:induction false} FanOutSkips<T>(row: Row<T>, sender: T, j: int, k: int)
    requires |row| == SLOTS + 1 && 0 <= j <= k <= SLOTS
    requires forall i :: j < i <= k ==> !Matches(row, sender, i)
    ensures FanOut(row, sender, k) == FanOut(row, sender, j)
    decreases k
  {
    if j < k {
      FanOutSkips(row, sender, j, k - 1);
    }
  }

  /** One turn of the scan extends the fan-out by exactly the slot it moves to;
      when it finds nothing the fan-out is complete. */
  lemma ScanExtendsFanOut<T>(row: Row<T>, sender: T, current: int)
    requires |row| == SLOTS + 1 && -1 <= current <= SLOTS
    ensures var n := NextSlot(row, sender, current);
            if n == 0 then FanOut(row, sender, SLOTS) == FanOut(row, sender, current)
            else current < n && FanOut(row, sender, n - 1) == FanOut(row, sender, current)
                 && FanOut(row, sender, n) == FanOut(row, sender, current) + [Hop(n, row[n].value)]
  {
    var n := NextSlot(row, sender, current);
    var c := if current == -1 then 0 else current;
    FanOutSkips(row, sender, c, if n == 0 then SLOTS else n - 1);
  }

  lemma {:induction false} FanOutGrows<T>(row: Row<T>, sender: T, j: int, k: int)
    requires |row| == SLOTS + 1 && j <= k <= SLOTS
    ensures FanOut(row, sender, j) <= FanOut(row, sender, k)
    decreases k - j
  {
    if j < k {
      FanOutGrows(row, sender, j, k - 1);
    }
  }

  lemma {:induction false} FanOutHas<T>(row: Row<T>, sender: T, k: int, j: int)
    requires |row| == SLOTS + 1 && 1 <= j <= k <= SLOTS && Matches(row, sender, j)
    ensures Hop(j, row[j].value) in FanOut(row, sender, k)
    decreases k
  {
    if j < k {
      FanOutHas(row, sender, k - 1, j);
    } else {
      assert FanOut(row, sender, k)[|FanOut(row, sender, k - 1)|] == Hop(k, row[k].value);
    }
  }

  /** The fan-out holds exactly the matching slots, each once and with its own connection. */
  lemma {:induction false} FanOutExact<T>(row: Row<T>, sender: T, k: int)
    requires |row| == SLOTS + 1 && k <= SLOTS
    ensures forall i :: 0 <= i < |FanOut(row, sender, k)| ==>
              var h := FanOut(row, sender, k)[i];
              1 <= h.slot <= k && Matches(row, sender, h.slot) && row[h.slot].value == h.conn
    ensures forall i, j :: 0 <= i < j < |FanOut(row, sender, k)| ==>
              FanOut(row, sender, k)[i].slot < FanOut(row, sender, k)[j].slot
    ensures forall j :: 1 <= j <= k && Matches(row, sender, j) ==> Hop(j, row[j].value) in FanOut(row, sender, k)
    decreases if k < 0 then 0 else k
  {
    if k > 0 {
      FanOutExact(row, sender, k - 1);
    }
    forall j | 1 <= j <= k && Matches(row, sender, j) ensures Hop(j, row[j].value) in FanOut(row, sender, k) {
      FanOutHas(row, sender, k, j);
    }
  }

  /** The first slot from `i` on that holds `x`, or 0. */
  function FirstOf<T(==)>(row: Row<T>, x: Option<T>, i: int): (slot: int)
    requires |row| == SLOTS + 1 && 1 <= i
    ensures slot == 0 || i <= slot <= SLOTS
    ensures slot != 0 ==> row[slot] == x
    ensures forall j :: i <= j <= SLOTS && (slot == 0 || j < slot) ==> row[j] != x
    decreases SLOTS + 1 - i
  {
    if i > SLOTS then 0 else if row[i] == x then i else FirstOf(row, x, i + 1)
  }

  /** The row after a subscription: the first free slot is taken; a full row stays as it is. */
  function Subscribed<T(==)>(row: Row<T>, c: T): (r: Row<T>)
    requires |row| == SLOTS + 1
  {
    var i := FirstOf(row, None, 1);
    if i == 0 then row else row[i := Some(c)]
  }

  /** The row after an unsubscription: the first slot of `c` is freed. */
  function Unsubscribed<T(==)>(row: Row<T>, c: T): (r: Row<T>)
    requires |row| == SLOTS + 1
  {
    var i := FirstOf(row, Some(c), 1);
    if i == 0 then row else row[i := None]
  }

  /** A subscription takes the first free slot from 1 to 15, and leaves a row without one as it is. */
  lemma SubscribedSlot<T>(row: Row<T>, c: T)
    requires |row| == SLOTS + 1
    ensures (forall i :: 1 <= i <= 15 ==> row[i].Some?) ==> Subscribed(row, c) == row
    ensures forall i :: 1 <= i <= 15 && row[i].None? && (forall j :: 1 <= j < i ==> row[j].Some?) ==>
              Subscribed(row, c) == row[i := Some(c)]
  {
  }

  /** An unsubscription frees the first slot of the connection, and leaves a row without one as it is. */
  lemma UnsubscribedSlot<T>(row: Row<T>, c: T)
    requires |row| == SLOTS + 1
    ensures (forall i :: 1 <= i <= 15 ==> row[i] != Some(c)) ==> Unsubscribed(row, c) == row
    ensures forall i :: 1 <= i <= 15 && row[i] == Some(c) && (forall j :: 1 <= j < i ==> row[j] != Some(c)) ==>
              Unsubscribed(row, c) == row[i := None]
  {
  }

  /** How many of the slots 1 to `k` are taken. */
  function Occupied<T>(row: Row<T>, k: int): int
    requires |row| == SLOTS + 1 && k <= SLOTS
    decreases if k < 0 then 0 else k
  {
    if k <= 0 then 0 else Occupied(row, k - 1) + (if row[k].Some? then 1 else 0)
  }

  lemma {:induction false} OccupiedBound<T>(row: Row<T>, k: nat)
    requires |row| == SLOTS + 1 && k <= SLOTS
    ensures 0 <= Occupied(row, k) <= k
    ensures Occupied(row, k) == k <==> forall i :: 1 <= i <= k ==> row[i].Some?
  {
    if k > 0 {
      OccupiedBound(row, k - 1);
    }
  }

  lemma {:induction false} OccupiedMore<T>(row: Row<T>, i: int, c: T, k: nat)
    requires |row| == SLOTS + 1 && 1 <= i <= SLOTS && k <= SLOTS && row[i].None?
    ensures Occupied(row[i := Some(c)], k) == Occupied(row, k) + (if i <= k then 1 else 0)
  {
    if k > 0 {
      OccupiedMore(row, i, c, k - 1);
    }
  }

  /** A bus has room for fifteen: with fewer it takes one more, with fifteen it is full. */
  lemma RoomForFifteen<T>(row: Row<T>, c: T)
    requires |row| == SLOTS + 1
    ensures 0 <= Occupied(row, SLOTS) <= 15
    ensures Occupied(row, SLOTS) < 15 ==> FirstOf(row, None, 1) != 0 && Occupied(Subscribed(row, c), SLOTS) == Occupied(row, SLOTS) + 1
    ensures Occupied(row, SLOTS) == 15 ==> FirstOf(row, None, 1) == 0 && Subscribed(row, c) == row
  {
    OccupiedBound(row, SLOTS);
    var i := FirstOf(row, None, 1);
    if i != 0 {
      OccupiedMore(row, i, c, SLOTS);
    }
  }

  lemma SwapKeepsMultiset<X>(s: seq<X>, i: nat, k: nat, x: X, y: X)
    requires i < |s| && k < |s| && i != k && s[i] == x && s[k] == y
    ensures multiset(s[i := y][k := x]) == multiset(s)
  {
  }

  /** Subscribing with success and then unsubscribing gives back the same subscribers
      with the same multiplicities. The row itself comes back if and only if `c` did not
      already sit in a slot below the one it was given. */
  lemma SubscribeThenUnsubscribe<T>(row: Row<T>, c: T)
    requires |row| == SLOTS + 1
    requires FirstOf(row, None, 1) != 0
    ensures multiset(Unsubscribed(Subscribed(row, c), c)) == multiset(row)
    ensures Unsubscribed(Subscribed(row, c), c) == row <==>
            forall j :: 1 <= j < FirstOf(row, None, 1) ==> row[j] != Some(c)
  {
    var i := FirstOf(row, None, 1);
    var added := Subscribed(row, c);
    var k := FirstOf(added, Some(c), 1);
    assert added[i] == Some(c);
    assert 1 <= k <= i;
    var back := Unsubscribed(added, c);
    assert back == added[k := None];
    if k == i {
      assert back == row;
    } else {
      SwapKeepsMultiset(row, i, k, None, Some(c));
      assert back[k] != row[k];
    }
  }

  /** The other order: freeing a slot of `c` and subscribing again gives back the row if
      and only if no slot below the freed one was free. */
  lemma UnsubscribeThenSubscribe<T>(row: Row<T>, c: T)
    requires |row| == SLOTS + 1
    requires FirstOf(row, Some(c), 1) != 0
    ensures multiset(Subscribed(Unsubscribed(row, c), c)) == multiset(row)
    ensures Subscribed(Unsubscribed(row, c), c) == row <==>
            forall j :: 1 <= j < FirstOf(row, Some(c), 1) ==> row[j].Some?
  {
    var i := FirstOf(row, Some(c), 1);
    var freed := Unsubscribed(row, c);
    var k := FirstOf(freed, None, 1);
    assert freed[i] == None;
    assert 1 <= k <= i;
    var back := Subscribed(freed, c);
    assert back == freed[k := Some(c)];
    if k == i {
      assert back == row;
    } else {
      SwapKeepsMultiset(row, i, k, Some(c), None);
      assert back[k] != row[k];
    }
  }
}
