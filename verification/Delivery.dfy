/** How often, to whom and in how many steps a message is delivered, in any run. */
module Delivery {
  import opened Sequences
  import opened Limits
  import opened Rows
  import opened Protocol
  import opened Invariants
  import opened Lives

  /** The story of message `t` in state `k` of the run. */
  function At(r: Run, k: int, t: int): Story
    requires 0 <= k < |r.states| && 0 <= t < |r.states[k].tickets|
  {
    StoryOf(r.states[k], t)
  }

  // ---------- Number of hops and of steps ----------

  lemma {:induction false} IncreasingBound(hops: seq<Hop<int>>, n: nat)
    requires n < |hops| && hops[0].slot >= 1
    requires forall i, j :: 0 <= i < j < |hops| ==> hops[i].slot < hops[j].slot
    ensures hops[n].slot >= n + 1
  {
    if n > 0 {
      IncreasingBound(hops, n - 1);
    }
  }

  /** No slot is delivered to twice, and a message is delivered at most 15 times. */
  lemma AtMostFifteenHops(r: Run, k: nat, t: int)
    requires IsRun(r) && k < |r.states| && 0 <= t < |r.states[k].tickets|
    ensures var hops := r.states[k].tickets[t].hops;
            && |hops| <= 15
            && (forall i, j :: 0 <= i < j < |hops| ==> hops[i].slot < hops[j].slot)
            && (forall i :: 0 <= i < |hops| ==> 1 <= hops[i].slot <= 15 && hops[i].conn != r.states[k].tickets[t].sender)
  {
    InvariantHolds(r, k);
    assert TicketOk(r.states[k], t);
    var hops := r.states[k].tickets[t].hops;
    if hops != [] {
      IncreasingBound(hops, |hops| - 1);
    }
  }

  /** The steps that carry a message: the switch dequeues it, a client receives it or gives it back. */
  predicate Carries(a: Action) {
    a.Dequeue? || a.Receive? || a.Release?
  }

  ghost predicate CarriesAt(r: Run, k: int, t: int)
    requires IsRun(r) && 0 <= k < |r.acts|
  {
    StepAt(r, k) && Carries(r.acts[k]) && Touches(r.states[k], r.acts[k], t)
  }

  ghost predicate BusyAt(r: Run, k: int, t: int)
    requires IsRun(r) && 0 <= k < |r.acts|
  {
    StepAt(r, k) && r.acts[k].Busy? && Touches(r.states[k], r.acts[k], t)
  }

  /** How many of the first `k` steps carry message `t`; and how many find its recipient busy. */
  ghost function Work(r: Run, k: nat, t: int): nat
    requires IsRun(r) && k < |r.states|
  {
    if k == 0 then 0 else Work(r, k - 1, t) + (if CarriesAt(r, k - 1, t) then 1 else 0)
  }

  ghost function Busies(r: Run, k: nat, t: int): nat
    requires IsRun(r) && k < |r.states|
  {
    if k == 0 then 0 else Busies(r, k - 1, t) + (if BusyAt(r, k - 1, t) then 1 else 0)
  }

  function Weight(x: Story): int {
    3 * |x.hops| + match x.life
                   case Taken(_) => 1
                   case Retaken(_, _) => 1
                   case Aiming(_, _) => 1
                   case Inbox(_, _) => -2
                   case Held(_, _) => -1
                   case Done => 1
                   case _ => 0
  }

  lemma WeightTurn(x: Story, a: Action, y: Story, row: Row<int>, sender: int)
    requires |row| == SLOTS + 1 && Turns(x, a, y, row, sender)
    ensures Weight(y) == Weight(x) + (if Carries(a) then 1 else if a.Busy? then -1 else 0)
  {
  }

  /** The exact account: three steps a hop, one for the last look at the row, one more for each
      time the recipient was busy. */
  lemma {:induction false} WorkIsExact(r: Run, k: nat, t: int)
    requires IsRun(r) && k < |r.states| && 0 <= t
    ensures if t < |r.states[k].tickets| then Work(r, k, t) == Weight(At(r, k, t)) + Busies(r, k, t)
            else Work(r, k, t) == 0 && Busies(r, k, t) == 0
  {
    if k > 0 {
      WorkIsExact(r, k - 1, t);
      StoryAt(r, k - 1, t);
      assert StepAt(r, k - 1);
      if t < |r.states[k - 1].tickets| && Touches(r.states[k - 1], r.acts[k - 1], t) {
        WeightTurn(At(r, k - 1, t), r.acts[k - 1], At(r, k, t),
                   r.states[k - 1].table[r.states[k - 1].tickets[t].bus], r.states[k - 1].tickets[t].sender);
      }
    }
  }

  lemma CleanedIsDone(r: Run, k: nat, t: int)
    requires IsRun(r) && k < |r.states| && t in r.states[k].cleaned
    ensures 0 <= t < |r.states[k].tickets| && At(r, k, t).life == Done
  {
    InvariantHolds(r, k);
  }

  /** Whatever happens to the subscriptions, a message takes at most 3 * 15 + 1 carrying steps
      plus one for each BUSY outcome; when it is cleaned the account is exact. */
  lemma HopBound(r: Run, k: nat, t: int)
    requires IsRun(r) && k < |r.states| && 0 <= t < |r.states[k].tickets|
    ensures Work(r, k, t) <= 46 + Busies(r, k, t)
    ensures t in r.states[k].cleaned ==> Work(r, k, t) == 3 * |r.states[k].tickets[t].hops| + 1 + Busies(r, k, t)
  {
    if t in r.states[k].cleaned { CleanedIsDone(r, k, t); }
    AtMostFifteenHops(r, k, t);
    WorkIsExact(r, k, t);
  }

  // ---------- A bound for a whole run ----------

  /** The carrying steps among the first `k`, whatever they carry; and the BUSY outcomes. */
  ghost function TotalWork(r: Run, k: nat): nat
    requires IsRun(r) && k < |r.states|
  {
    if k == 0 then 0 else TotalWork(r, k - 1) + (if Carries(r.acts[k - 1]) then 1 else 0)
  }

  ghost function TotalBusies(r: Run, k: nat): nat
    requires IsRun(r) && k < |r.states|
  {
    if k == 0 then 0 else TotalBusies(r, k - 1) + (if r.acts[k - 1].Busy? then 1 else 0)
  }

  ghost function SumOver(r: Run, k: nat, n: nat, busy: bool): nat
    requires IsRun(r) && k < |r.states|
  {
    if n == 0 then 0 else SumOver(r, k, n - 1, busy) + (if busy then Busies(r, k, n - 1) else Work(r, k, n - 1))
  }

  /** Every carrying step, and every BUSY outcome, concerns exactly one message. */
  lemma OneMessageEach(r: Run, k: nat) returns (t: int)
    requires IsRun(r) && k < |r.acts| && (Carries(r.acts[k]) || r.acts[k].Busy?)
    ensures 0 <= t < |r.states[k].tickets|
    ensures Enabled(r.states[k], r.acts[k])
    ensures forall u :: Touches(r.states[k], r.acts[k], u) <==> u == t
  {
    RunStep(r, k);
    SubjectFacts(r.states[k], r.acts[k]);
    t := r.states[k].envs[Subject(r.states[k], r.acts[k]).value].ticket;
    assert EnvOk(r.states[k], Subject(r.states[k], r.acts[k]).value);
  }

  lemma {:induction false} SumStep(r: Run, k: nat, n: nat, t: int, busy: bool)
    requires IsRun(r) && k < |r.acts| && Enabled(r.states[k], r.acts[k])
    requires if busy then r.acts[k].Busy? else Carries(r.acts[k])
    requires forall u :: Touches(r.states[k], r.acts[k], u) <==> u == t
    ensures SumOver(r, k + 1, n, busy) == SumOver(r, k, n, busy) + (if 0 <= t < n then 1 else 0)
  {
    assert StepAt(r, k);
    if n > 0 {
      SumStep(r, k, n - 1, t, busy);
    }
  }

  lemma {:induction false} SumSame(r: Run, k: nat, n: nat, busy: bool)
    requires IsRun(r) && k < |r.acts|
    requires !(if busy then r.acts[k].Busy? else Carries(r.acts[k]))
    ensures SumOver(r, k + 1, n, busy) == SumOver(r, k, n, busy)
  {
    if n > 0 {
      SumSame(r, k, n - 1, busy);
    }
  }

  lemma TicketsNeverShrink(r: Run, k: nat)
    requires IsRun(r) && k < |r.acts|
    ensures |r.states[k].tickets| <= |r.states[k + 1].tickets|
  {
    StoryAt(r, k, 0);
  }

  lemma {:induction false} TotalsAreSums(r: Run, k: nat, n: nat, busy: bool)
    requires IsRun(r) && k < |r.states| && |r.states[k].tickets| <= n
    ensures SumOver(r, k, n, busy) == if busy then TotalBusies(r, k) else TotalWork(r, k)
  {
    if k == 0 {
      ZeroSums(r, n, busy);
    } else {
      TicketsNeverShrink(r, k - 1);
      TotalsAreSums(r, k - 1, n, busy);
      if if busy then r.acts[k - 1].Busy? else Carries(r.acts[k - 1]) {
        var t := OneMessageEach(r, k - 1);
        SumStep(r, k - 1, n, t, busy);
      } else {
        SumSame(r, k - 1, n, busy);
      }
    }
  }

  lemma {:induction false} ZeroSums(r: Run, n: nat, busy: bool)
    requires IsRun(r)
    ensures SumOver(r, 0, n, busy) == 0
  {
    if n > 0 {
      ZeroSums(r, n - 1, busy);
    }
  }

  lemma {:induction false} SumBound(r: Run, k: nat, n: nat)
    requires IsRun(r) && k < |r.states| && n <= |r.states[k].tickets|
    ensures SumOver(r, k, n, false) <= (3 * SLOTS + 1) * n + SumOver(r, k, n, true)
  {
    if n > 0 {
      SumBound(r, k, n - 1);
      HopBound(r, k, n - 1);
    }
  }

  /** With finitely many sends and BUSY outcomes a run has finitely many dequeues, receives and
      releases: at most 46 for each send and one for each BUSY outcome. */
  lemma RunBound(r: Run, k: nat)
    requires IsRun(r) && k < |r.states|
    ensures TotalWork(r, k) <= 46 * |r.states[k].tickets| + TotalBusies(r, k)
  {
    var n := |r.states[k].tickets|;
    TotalsAreSums(r, k, n, false);
    TotalsAreSums(r, k, n, true);
    SumBound(r, k, n);
  }

  /** A message keeps its sender, bus and type. */
  lemma {:induction false} SameSince(r: Run, k: nat, j: nat, t: int)
    requires IsRun(r) && k <= j < |r.states| && 0 <= t < |r.states[k].tickets|
    ensures t < |r.states[j].tickets| && SameMessageOf(r.states[k].tickets[t], r.states[j].tickets[t])
    decreases j
  {
    if k < j {
      SameSince(r, k, j - 1, t);
      StoryAt(r, j - 1, t);
    }
  }

  // ---------- Delivery while subscriptions change ----------

  /** The slots the scan has been through. */
  function Scanned(l: Life): int {
    match l
    case Unsent => 0
    case Rejected => 0
    case Done => SLOTS
    case _ => l.slot
  }

  predicate HasTarget(l: Life) {
    l.Parked? || l.Retaken? || l.Aiming?
  }

  /** If the scan has been through the slot, the connection in it got the message or is about to. */
  ghost predicate Covered(x: Story, slot: int, c: int) {
    Scanned(x.life) >= slot ==> Hop(slot, c) in x.hops || (HasTarget(x.life) && x.life.slot == slot && x.life.conn == c)
  }

  lemma CoveredTurn(x: Story, a: Action, y: Story, row: Row<int>, sender: int, slot: int, c: int)
    requires |row| == SLOTS + 1 && Turns(x, a, y, row, sender) && Covered(x, slot, c)
    requires 1 <= slot <= SLOTS && row[slot] == Some(c) && c != sender
    ensures Covered(y, slot, c)
  {
    assert Matches(row, sender, slot);
    if a.Put? {
      assert y.hops[|x.hops|] == Hop(x.life.slot, x.life.conn);
      assert forall h :: h in x.hops ==> h in y.hops;
    }
  }

  /** From state `i` up to state `j` connection `c`, not the sender, sits in the slot of the
      bus of message `t`. */
  ghost predicate SitsThere(r: Run, i: nat, j: nat, t: int, slot: int, c: int)
    requires IsRun(r)
  {
    && i <= j < |r.states| && 0 <= t < |r.states[i].tickets| && 1 <= slot <= SLOTS
    && var m := r.states[i].tickets[t];
       c != m.sender
       && forall k :: i <= k <= j ==> HasRow(r.states[k], m.bus) && r.states[k].table[m.bus][slot] == Some(c)
  }

  lemma {:induction false} CoveredAt(r: Run, i: nat, j: nat, t: int, slot: int, c: int)
    requires IsRun(r) && SitsThere(r, i, j, t, slot, c)
    requires Scanned(At(r, i, t).life) < slot
    ensures t < |r.states[j].tickets| && Covered(At(r, j, t), slot, c)
    ensures SameMessageOf(r.states[i].tickets[t], r.states[j].tickets[t])
    decreases j
  {
    if i < j {
      CoveredAt(r, i, j - 1, t, slot, c);
      StoryAt(r, j - 1, t);
      var m := r.states[j - 1].tickets[t];
      assert HasRow(r.states[j - 1], m.bus);
      if Touches(r.states[j - 1], r.acts[j - 1], t) {
        CoveredTurn(At(r, j - 1, t), r.acts[j - 1], At(r, j, t), r.states[j - 1].table[m.bus], m.sender, slot, c);
      }
    }
  }

  /** The message was delivered through the slot exactly once, to `c`, and `c` gave it back. */
  ghost predicate ServedOnce(m: Ticket, slot: int, c: int) {
    exists n :: 0 <= n < |m.hops| && n < |m.receipts| && m.hops[n] == Hop(slot, c) && m.receipts[n] == c
                && forall i :: 0 <= i < |m.hops| && m.hops[i].slot == slot ==> i == n
  }

  /** While other slots are subscribed and unsubscribed arbitrarily, a connection that keeps its
      slot from the send (or from any moment before the scan has come to it) until the message
      is cleaned gets the message exactly once, and has given it back. */
  lemma StableSlotServedOnce(r: Run, i: nat, j: nat, t: int, slot: int, c: int)
    requires IsRun(r) && SitsThere(r, i, j, t, slot, c)
    requires Scanned(At(r, i, t).life) < slot
    requires t in r.states[j].cleaned
    ensures t < |r.states[j].tickets| && ServedOnce(r.states[j].tickets[t], slot, c)
  {
    CoveredAt(r, i, j, t, slot, c);
    InvariantHolds(r, j);
    assert TicketOk(r.states[j], t);
    var m := r.states[j].tickets[t];
    assert Hop(slot, c) in m.hops;
    var n :| 0 <= n < |m.hops| && m.hops[n] == Hop(slot, c);
    assert forall k :: 0 <= k < |m.hops| && m.hops[k].slot == slot ==> k == n;
  }

  /** In step `i` the switch looked at the row for message `t`, and the scan went to the slot, where
      connection `c` sat; `c` is not the sender. */
  ghost predicate ChosenAt(r: Run, i: int, t: int, slot: int, c: int)
    requires IsRun(r) && 0 <= i < |r.acts|
  {
    var s := r.states[i];
    && StepAt(r, i) && r.acts[i].Route? && 0 <= t < |s.tickets| && Touches(s, r.acts[i], t)
    && var m := s.tickets[t];
       && HasRow(s, m.bus) && At(r, i, t).life.Taken? && -1 <= At(r, i, t).life.slot
       && NextSlot(s.table[m.bus], m.sender, At(r, i, t).life.slot) == slot
       && 1 <= slot <= SLOTS && s.table[m.bus][slot] == Some(c) && c != m.sender
  }

  ghost predicate ChosenBefore(r: Run, k: int, t: int, slot: int, c: int)
    requires IsRun(r)
  {
    exists i :: 0 <= i < k && i < |r.acts| && ChosenAt(r, i, t, slot, c)
  }

  ghost predicate AllChosen(r: Run, k: int, t: int, x: Story)
    requires IsRun(r)
  {
    && (forall n :: 0 <= n < |x.hops| ==> ChosenBefore(r, k, t, x.hops[n].slot, x.hops[n].conn))
    && (HasTarget(x.life) ==> ChosenBefore(r, k, t, x.life.slot, x.life.conn))
  }

  lemma ChosenGrows(r: Run, k: nat, t: int, x: Story)
    requires IsRun(r) && AllChosen(r, k, t, x)
    ensures AllChosen(r, k + 1, t, x)
  {
  }

  lemma ChosenTurn(r: Run, k: nat, t: int, x: Story, y: Story, row: Row<int>, sender: int)
    requires IsRun(r) && k < |r.acts| && AllChosen(r, k + 1, t, x) && |row| == SLOTS + 1
    requires x == y || Turns(x, r.acts[k], y, row, sender)
    requires r.acts[k].Route? && y.life.Aiming? && x != y ==> ChosenAt(r, k, t, y.life.slot, y.life.conn)
    ensures AllChosen(r, k + 1, t, y)
  {
  }

  lemma ChosenStep(r: Run, k: nat, t: int)
    requires IsRun(r) && k < |r.acts| && 0 <= t < |r.states[k].tickets| && AllChosen(r, k, t, At(r, k, t))
    ensures t < |r.states[k + 1].tickets| && AllChosen(r, k + 1, t, At(r, k + 1, t))
  {
    StoryAt(r, k, t);
    assert StepAt(r, k);
    var m := r.states[k].tickets[t];
    ChosenGrows(r, k, t, At(r, k, t));
    ChosenTurn(r, k, t, At(r, k, t), At(r, k + 1, t), r.states[k].table[m.bus], m.sender);
  }

  lemma {:induction false} OnlyChosen(r: Run, k: nat, t: int)
    requires IsRun(r) && k < |r.states| && 0 <= t < |r.states[k].tickets|
    ensures AllChosen(r, k, t, At(r, k, t))
  {
    if k > 0 {
      StoryAt(r, k - 1, t);
      if t < |r.states[k - 1].tickets| {
        OnlyChosen(r, k - 1, t);
        ChosenStep(r, k - 1, t);
      }
    }
  }

  /** Nobody gets a message but those who sat in the slot, and were not the sender, when the scan
      for this very message came to it. */
  lemma DeliveredOnlyToSubscribers(r: Run, k: nat, t: int, n: nat)
    requires IsRun(r) && k < |r.states| && 0 <= t < |r.states[k].tickets| && n < |r.states[k].tickets[t].hops|
    ensures var m := r.states[k].tickets[t]; ChosenBefore(r, k, t, m.hops[n].slot, m.hops[n].conn)
  {
    OnlyChosen(r, k, t);
  }

  /** A turn never takes the scan back. */
  lemma ScanGoesOn(x: Story, a: Action, y: Story, row: Row<int>, sender: int)
    requires |row| == SLOTS + 1 && Turns(x, a, y, row, sender)
    ensures Scanned(x.life) <= Scanned(y.life) || y.life.Rejected?
  {
  }

  lemma {:induction false} ScannedSince(r: Run, i: nat, k: nat, t: int)
    requires IsRun(r) && i <= k < |r.states| && 0 <= t < |r.states[i].tickets| && t < |r.states[k].tickets|
    ensures At(r, i, t).life.Rejected? ==> At(r, k, t).life.Rejected?
    ensures Scanned(At(r, i, t).life) <= Scanned(At(r, k, t).life) || At(r, k, t).life.Rejected?
    decreases k
  {
    if i < k {
      SameSince(r, i, k - 1, t);
      ScannedSince(r, i, k - 1, t);
      StoryAt(r, k - 1, t);
      if Touches(r.states[k - 1], r.acts[k - 1], t) {
        var m := r.states[k - 1].tickets[t];
        ScanGoesOn(At(r, k - 1, t), r.acts[k - 1], At(r, k, t), r.states[k - 1].table[m.bus], m.sender);
      }
    }
  }

  /** The scan for the message has come to the slot. */
  ghost predicate HasCome(r: Run, k: nat, t: int, slot: int)
    requires k < |r.states|
  {
    0 <= t < |r.states[k].tickets| && (Scanned(At(r, k, t).life) >= slot || At(r, k, t).life.Rejected?)
  }

  /** The step that chooses a slot takes the scan from before it to it. */
  lemma ChosenMoves(r: Run, i: nat, t: int, slot: int, c: int)
    requires IsRun(r) && i < |r.acts| && ChosenAt(r, i, t, slot, c)
    ensures !HasCome(r, i, t, slot) && HasCome(r, i + 1, t, slot)
  {
    StoryAt(r, i, t);
  }

  lemma StillCome(r: Run, i: nat, k: nat, t: int, slot: int)
    requires IsRun(r) && i <= k < |r.states| && 1 <= slot && HasCome(r, i, t, slot)
    ensures HasCome(r, k, t, slot)
  {
    SameSince(r, i, k, t);
    ScannedSince(r, i, k, t);
  }

  /** The scan for a message goes to a slot in one step only. */
  lemma ChosenOnce(r: Run, i: nat, k: nat, t: int, slot: int, c: int, d: int)
    requires IsRun(r) && i <= k < |r.acts| && ChosenAt(r, i, t, slot, c) && ChosenAt(r, k, t, slot, d)
    ensures i == k
  {
    if i < k {
      ChosenMoves(r, i, t, slot, c);
      StillCome(r, i + 1, k, t, slot);
      ChosenMoves(r, k, t, slot, d);
    }
  }

  /** Connection `c` sits in the slot in the states from `i` to `k`. */
  ghost predicate KeepsSlot(r: Run, i: nat, k: nat, bus: int, slot: int, c: int) {
    && 1 <= slot <= SLOTS && k < |r.states|
    && forall j :: i <= j <= k ==> HasRow(r.states[j], bus) && r.states[j].table[bus][slot] == Some(c)
  }

  /** In step `j` connection `c` unsubscribes from the bus, and this slot is the first it has there. */
  ghost predicate GivesUp(r: Run, j: int, bus: int, slot: int, c: int)
    requires 0 <= j < |r.acts| < |r.states|
  {
    r.acts[j] == Unsubscribe(c, bus) && HasRow(r.states[j], bus) && FirstOf(r.states[j].table[bus], Some(c), 1) == slot
  }

  lemma SlotStep(s: State, a: Action, bus: int, slot: int, c: int)
    requires Tables(s) && Enabled(s, a) && HasRow(s, bus) && 1 <= slot <= SLOTS && s.table[bus][slot] == Some(c)
    ensures HasRow(Apply(s, a), bus)
    ensures Apply(s, a).table[bus][slot] ==
            if a == Unsubscribe(c, bus) && FirstOf(s.table[bus], Some(c), 1) == slot then None else Some(c)
  {
  }

  /** A connection keeps its slot if and only if it does not unsubscribe while the slot is the first
      it has on the bus: nothing anybody else does takes it away. */
  lemma {:induction false} KeptUnlessGivenUp(r: Run, i: nat, k: nat, bus: int, slot: int, c: int)
    requires IsRun(r) && i <= k < |r.states| && KeepsSlot(r, i, i, bus, slot, c)
    ensures KeepsSlot(r, i, k, bus, slot, c) <==> forall j :: i <= j < k ==> !GivesUp(r, j, bus, slot, c)
    decreases k
  {
    if i < k {
      KeptUnlessGivenUp(r, i, k - 1, bus, slot, c);
      RunStep(r, k - 1);
      if KeepsSlot(r, i, k - 1, bus, slot, c) {
        assert HasRow(r.states[k - 1], bus) && r.states[k - 1].table[bus][slot] == Some(c);
        SlotStep(r.states[k - 1], r.acts[k - 1], bus, slot, c);
        assert KeepsSlot(r, i, k, bus, slot, c) <==> !GivesUp(r, k - 1, bus, slot, c);
      } else {
        assert KeepsSlot(r, i, k, bus, slot, c) ==> KeepsSlot(r, i, k - 1, bus, slot, c);
      }
    }
  }

  /** When a message is put in an input queue, its recipient was chosen in an earlier step `i`, and
      is still subscribed in its slot, without a break, if and only if it has not given the slot up
      since. */
  lemma StillSubscribedAtThePut(r: Run, k: nat, t: int) returns (i: nat)
    requires IsRun(r) && k < |r.acts| && 0 <= t < |r.states[k].tickets|
    requires StepAt(r, k) && r.acts[k].Put? && Touches(r.states[k], r.acts[k], t)
    ensures i < k && At(r, k, t).life.Aiming? && t < |r.states[k + 1].tickets|
    ensures var m, l := r.states[k].tickets[t], At(r, k, t).life;
            && r.states[k + 1].tickets[t].hops == m.hops + [Hop(l.slot, l.conn)]
            && ChosenAt(r, i, t, l.slot, l.conn)
            && (KeepsSlot(r, i, k, m.bus, l.slot, l.conn) <==> forall j :: i <= j < k ==> !GivesUp(r, j, m.bus, l.slot, l.conn))
  {
    StoryAt(r, k, t);
    OnlyChosen(r, k, t);
    var l := At(r, k, t).life;
    i :| 0 <= i < k && i < |r.acts| && ChosenAt(r, i, t, l.slot, l.conn);
    SameSince(r, i, k, t);
    KeptUnlessGivenUp(r, i, k, r.states[k].tickets[t].bus, l.slot, l.conn);
  }

  // ---------- Fan-out over a row that stays as it is ----------

  /** The slots whose delivery is behind the message. */
  function Passed(l: Life): int {
    if HasTarget(l) then l.slot - 1 else Scanned(l)
  }

  /** The message has been to the first recipients of the row, in slot order, and to no other. */
  ghost predicate Follows(x: Story, row: Row<int>, sender: int) {
    && |row| == SLOTS + 1
    && 0 <= Scanned(x.life) <= SLOTS
    && x.hops == FanOut(row, sender, Passed(x.life))
    && (x.life != Done && Scanned(x.life) > 0 ==> Matches(row, sender, Scanned(x.life)))
    && (HasTarget(x.life) || x.life.Inbox? || x.life.Held? ==> 1 <= x.life.slot && row[x.life.slot] == Some(x.life.conn))
  }

  lemma FollowsTurn(x: Story, a: Action, y: Story, row: Row<int>, sender: int)
    requires Follows(x, row, sender) && Turns(x, a, y, row, sender)
    ensures Follows(y, row, sender)
  {
    if a.Route? {
      ScanExtendsFanOut(row, sender, x.life.slot);
    }
  }

  /** From state `i` up to state `j` the row of the bus of message `t` is `row`. */
  ghost predicate RowStays(r: Run, i: nat, j: nat, t: int, row: Row<int>)
    requires IsRun(r)
  {
    && i <= j < |r.states| && 0 <= t < |r.states[i].tickets| && |row| == SLOTS + 1
    && var m := r.states[i].tickets[t];
       forall k :: i <= k <= j ==> HasRow(r.states[k], m.bus) && r.states[k].table[m.bus] == row
  }

  lemma FollowsStep(r: Run, k: nat, t: int, row: Row<int>)
    requires IsRun(r) && k < |r.acts| && 0 <= t < |r.states[k].tickets|
    requires HasRow(r.states[k], r.states[k].tickets[t].bus) && r.states[k].table[r.states[k].tickets[t].bus] == row
    requires Follows(At(r, k, t), row, r.states[k].tickets[t].sender)
    ensures t < |r.states[k + 1].tickets| && SameMessageOf(r.states[k].tickets[t], r.states[k + 1].tickets[t])
    ensures Follows(At(r, k + 1, t), row, r.states[k].tickets[t].sender)
  {
    StoryAt(r, k, t);
    if Touches(r.states[k], r.acts[k], t) {
      FollowsTurn(At(r, k, t), r.acts[k], At(r, k + 1, t), row, r.states[k].tickets[t].sender);
    }
  }

  ghost predicate FollowsIn(r: Run, k: nat, t: int, row: Row<int>)
    requires k < |r.states|
  {
    0 <= t < |r.states[k].tickets| && Follows(At(r, k, t), row, r.states[k].tickets[t].sender)
  }

  ghost predicate FollowsTill(r: Run, i: nat, n: nat, t: int, row: Row<int>)
    requires n < |r.states|
  {
    forall k :: i <= k <= n ==> FollowsIn(r, k, t, row)
  }

  lemma FollowsNext(r: Run, i: nat, k: nat, j: nat, t: int, row: Row<int>)
    requires IsRun(r) && RowStays(r, i, j, t, row) && i <= k < j && FollowsTill(r, i, k, t, row)
    ensures FollowsIn(r, k + 1, t, row)
  {
    assert FollowsIn(r, k, t, row);
    SameSince(r, i, k, t);
    FollowsStep(r, k, t, row);
  }

  lemma {:induction false} FollowsFrom(r: Run, i: nat, n: nat, j: nat, t: int, row: Row<int>)
    requires IsRun(r) && RowStays(r, i, j, t, row) && i <= n <= j && FollowsTill(r, i, i, t, row)
    ensures FollowsTill(r, i, n, t, row)
    decreases n
  {
    if i < n {
      FollowsFrom(r, i, n - 1, j, t, row);
      FollowsNext(r, i, n - 1, j, t, row);
    }
  }

  function Conns(hops: seq<Hop<int>>): (cs: seq<int>)
    ensures |cs| == |hops| && forall i :: 0 <= i < |hops| ==> cs[i] == hops[i].conn
  {
    seq(|hops|, i requires 0 <= i < |hops| => hops[i].conn)
  }

  /** With a row that stays as it is from the send to the cleaning, the message is delivered
      to, and given back by, exactly the non-sender subscribers of the row in slot order: to
      nobody when the row is empty or holds only the sender. */
  lemma FanOutIsTheRow(r: Run, i: nat, j: nat, t: int, row: Row<int>)
    requires IsRun(r) && RowStays(r, i, j, t, row)
    requires At(r, i, t).life == Unsent || At(r, i, t).life == Queued(0)
    requires At(r, i, t).hops == []
    requires t in r.states[j].cleaned
    ensures t < |r.states[j].tickets|
    ensures var m := r.states[j].tickets[t];
            m.hops == FanOut(row, m.sender, SLOTS) && m.receipts == Conns(FanOut(row, m.sender, SLOTS))
  {
    assert FollowsIn(r, i, t, row);
    FollowsFrom(r, i, j, j, t, row);
    assert FollowsIn(r, j, t, row);
    SameSince(r, i, j, t);
    InvariantHolds(r, j);
    assert TicketOk(r.states[j], t);
  }

  /** From end to end: a message sent by `c` on bus `b`, whose row stays as it is from the send to the
      cleaning, is delivered to and given back by exactly the subscribers of that bus other than `c`,
      in slot order. */
  lemma SentOnTheBus(r: Run, i: nat, j: nat, c: int, b: int, kind: int, row: Row<int>)
    requires IsRun(r) && i < j < |r.states| && r.acts[i] == Offer(c, b, kind) && |row| == SLOTS + 1
    requires forall k :: i < k <= j ==> HasRow(r.states[k], b) && r.states[k].table[b] == row
    requires |r.states[i].tickets| in r.states[j].cleaned
    ensures var t := |r.states[i].tickets|;
            && t < |r.states[j].tickets|
            && r.states[j].tickets[t].hops == FanOut(row, c, SLOTS)
            && r.states[j].tickets[t].receipts == Conns(FanOut(row, c, SLOTS))
  {
    var t := |r.states[i].tickets|;
    RunStep(r, i);
    NewMessage(r.states[i], r.acts[i]);
    InvariantHolds(r, j);
    SameSince(r, i + 1, j, t);
    FanOutIsTheRow(r, i + 1, j, t, row);
  }
}
