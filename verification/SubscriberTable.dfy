/** The table of subscribers: 7 rows of 16 slots, of which row 0 and slot 0 are not used. */
module SubscriberTable {
  import opened Sequences
  import opened Limits
  import opened Rows

  datatype Code =
    | Success | NoMessage | ConnectionsBusy | BadConnection | InvalidBus | InvalidEnvelope
    | BusFull | SubscriptionNotFound | EndOfSubscribersList
    | OutputQueuing | BusyOutputQueue | OutOfMemory

  /** The test of the bus number that sends and subscriptions make. It lets 7 through, for
      which the table has no row. */
  predicate BusAccepted(bus: int) {
    !(BUSSES < bus || 0 >= bus)
  }

  /** The test guards the table except against 7. */
  predicate InTable(bus: int) {
    BusAccepted(bus) ==> bus < BUSSES
  }

  /** The test lets 1 to 7 through; what it lets through denotes a row exactly when it is below 7,
      and at 7 it does not. */
  lemma TestIsShortOfSeven(bus: int)
    ensures BusAccepted(bus) <==> 1 <= bus <= 7
    ensures BusAccepted(bus) ==> (0 <= bus < BUSSES <==> bus < 7)
    ensures InTable(bus) <==> bus != 7
  {
  }

  class Table<T(==)> {
    const slots: array2<Option<T>>

    ghost predicate Valid()
      reads this
    {
      slots.Length0 == BUSSES && slots.Length1 == SLOTS + 1
    }

    ghost function RowOf(bus: int): (row: Row<T>)
      requires Valid() && 0 <= bus < BUSSES
      reads this, slots
      ensures |row| == SLOTS + 1 && forall i :: 0 <= i <= SLOTS ==> row[i] == slots[bus, i]
    {
      seq(SLOTS + 1, i requires 0 <= i <= SLOTS && Valid() reads this, slots => slots[bus, i])
    }

    constructor ()
      ensures Valid() && fresh(slots)
      ensures forall b, i :: 0 <= b < BUSSES && 0 <= i <= SLOTS ==> slots[b, i] == None
    {
      slots := new Option<T>[BUSSES, SLOTS + 1];
      new;
      for b := 0 to BUSSES
        invariant forall i, j :: 0 <= i < b && 0 <= j <= SLOTS ==> slots[i, j] == None
      {
        for c := 0 to SLOTS + 1
          invariant forall i, j :: 0 <= i < b && 0 <= j <= SLOTS ==> slots[i, j] == None
          invariant forall j :: 0 <= j < c ==> slots[b, j] == None
        {
          slots[b, c] := None;
        }
      }
    }

    /** The first slot after `ref` that holds a connection other than the sender; 0 when there
        is none. */
    method FindMatch(sender: T, ref: int, bus: int) returns (result: int)
      requires Valid() && 0 <= bus < BUSSES && 0 <= ref
      ensures result == FindFrom(RowOf(bus), sender, ref + 1)
    {
      result := 0;
      var index := ref + 1;
      while index <= SLOTS
        invariant ref + 1 <= index
        invariant FindFrom(RowOf(bus), sender, index) == FindFrom(RowOf(bus), sender, ref + 1)
      {
        var sub := slots[bus, index];
        if sub.Some? && sub.value != sender {
          return index;
        }
        index := index + 1;
      }
    }

    /** The subscriber that follows `current` in the row, without the sender. */
    method GetNextSubscriber(sender: T, current: int, bus: int) returns (code: Code, result: Option<T>, resultIndex: int)
      requires Valid() && 0 <= bus < BUSSES && -1 <= current
      ensures var n := NextSlot(RowOf(bus), sender, current);
              if n == 0 then code == EndOfSubscribersList && result == None && resultIndex == -1
              else code == Success && result == RowOf(bus)[n] && result.Some? && resultIndex == n
    {
      code, result := Success, None;
      var ref := if current == -1 then 0 else current;
      var foundMatch := FindMatch(sender, ref, bus);
      if foundMatch == 0 {
        result := None;
        resultIndex := -1;
        code := EndOfSubscribersList;
      } else {
        result := slots[bus, foundMatch];
        resultIndex := foundMatch;
        code := Success;
      }
    }

    /** `contended`: the lock on the connections is taken. */
    method Add(conn: Option<T>, bus: int, contended: bool) returns (code: Code)
      requires Valid() && (conn.Some? && !contended ==> InTable(bus))
      modifies slots
      ensures code == if conn.None? then BadConnection
                      else if !(1 <= bus <= 7) then InvalidBus
                      else if contended then ConnectionsBusy
                      else if FirstOf(old(RowOf(bus)), None, 1) == 0 then BusFull else Success
      ensures forall b :: 0 <= b < BUSSES ==>
                RowOf(b) == if code == Success && b == bus then Subscribed(old(RowOf(b)), conn.value) else old(RowOf(b))
    {
      if conn.None? {
        return BadConnection;
      }
      if BUSSES < bus || 0 >= bus {
        return InvalidBus;
      }
      if contended {
        return ConnectionsBusy;
      }
      code := BusFull;
      var index := 1;
      while index <= SLOTS
        invariant 1 <= index <= SLOTS + 1
        invariant FirstOf(RowOf(bus), None, index) == FirstOf(RowOf(bus), None, 1)
      {
        if slots[bus, index].None? {
          slots[bus, index] := conn;
          return Success;
        }
        index := index + 1;
      }
    }

    method Remove(conn: Option<T>, bus: int, contended: bool) returns (code: Code)
      requires Valid() && (conn.Some? && !contended ==> InTable(bus))
      modifies slots
      ensures code == if conn.None? then BadConnection
                      else if !(1 <= bus <= 7) then InvalidBus
                      else if contended then ConnectionsBusy
                      else if FirstOf(old(RowOf(bus)), conn, 1) == 0 then SubscriptionNotFound else Success
      ensures forall b :: 0 <= b < BUSSES ==>
                RowOf(b) == if code == Success && b == bus then Unsubscribed(old(RowOf(b)), conn.value) else old(RowOf(b))
    {
      if conn.None? {
        return BadConnection;
      }
      if BUSSES < bus || 0 >= bus {
        return InvalidBus;
      }
      if contended {
        return ConnectionsBusy;
      }
      code := SubscriptionNotFound;
      var index := 1;
      while index <= SLOTS
        invariant 1 <= index <= SLOTS + 1
        invariant FirstOf(RowOf(bus), conn, index) == FirstOf(RowOf(bus), conn, 1)
      {
        if slots[bus, index] == conn {
          slots[bus, index] := None;
          return Success;
        }
        index := index + 1;
      }
    }
  }
}
