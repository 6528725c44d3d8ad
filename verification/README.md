# A verified model of the LITM switch

LITM passes messages between threads over busses. A sender puts an envelope on the queue of the
switch; one switch thread carries it along the row of subscribers of its bus, one recipient at a
time; each recipient takes it from its own input queue and releases it back to the switch queue;
at the end of the row the switch runs the cleaner of the message once and recycles the envelope to
a pool. The project has two layers and a bridge between them.

**The protocol** (`Protocol.dfy`): the switch thread and the clients as atomic steps on one state,
taken in any order: open, subscribe, unsubscribe, the two halves of a send (`Offer`, then `Accept`
or `Refuse`), `Dequeue`, `Route` (scan and read of the slot, or the end of the message), `Retry` of a
pending envelope, `Put`, the BUSY outcome, `Count`, `Receive` and `Release`. Put and count are
separate steps, so a client can receive and release an envelope before the switch has counted the
delivery. A `Run` is any finite sequence of enabled steps from the initial state. A message is
numbered by its send (its "ticket"); `place`, the tickets and the list of cleaned messages are
history that no step looks at.

- `Invariants.dfy` holds the inductive invariant; `Safety.dfy` what it says of ownership, cleaning,
  counters, pending envelopes and split horizon in all runs.
- `Lives.dfy` projects the protocol on the life of one message. `Delivery.dfy`, `Shutdown.dfy` and
  `Ordering.dfy` prove from it the hop bound, delivery while subscriptions change, fan-out over a
  fixed row, safe shutdown, and the order of two messages of one sender.
- `Traffic.dfy` has the shape and the order of the queues and the counters kept in different modules.
- `Witnesses.dfy` has the runs that show where a promise ends.

**The objects**: `LinkedQueue.dfy` (nodes linked from head to tail), `EnvelopePool.dfy` (the stack in
an array), `SubscriberTable.dfy` (the two-dimensional table), `Entities.dfy` (connections and
envelopes), and `Switch.dfy` (the functions of the switch and of the client interface on those
objects).

**The bridge**: `Pictures.dfy` says which state of the protocol the objects are in (a ghost
`Picture`: the state, the objects by number, and what each send asked for). `Switch.Valid(w)` ties
queues, pool, table, connections, envelopes and the trace of what was disposed of to the picture `w`;
each method leads from a picture to the picture after the step its contract names. `History.dfy`,
`Thread.dfy` and `Clients.dfy` close the circle: each call of the thread, step by step or a whole
iteration, and each call of a client takes a run and objects that are in its last state to a longer
run and objects in its last state. So everything proved of runs holds of the objects, whatever the
interleaving of calls.

## Where code and documentation part

- A pending envelope is delivered to the recipient chosen when it was parked, without a new look at
  the row (`project/src/switch.c:284-292`), so a connection can get a message after it has unsubscribed:
  `Witnesses.DeliveredAfterUnsubscribing` is such a run. `Delivery.StillSubscribedAtThePut` gives the
  exact condition: the recipient has been in its slot without a break, since the one scan for this
  message that chose it (`Delivery.ChosenOnce`), if and only if it has not unsubscribed since while that
  slot was its first on the bus.
- Between the put and the count of a delivery (`project/src/switch.c:382-387`) the recipient already has
  the envelope while the counters still agree and `pending` may still be set.
  `Witnesses.DeliveredNotCounted` is such a run; `Safety.CountersTellWhereItIs` and
  `Safety.PendingState` say exactly when it is so.
- The order of two messages of one sender can be lost when a recipient is found busy.
  `Ordering.SameSenderOrder` gives the exact condition: over a fixed row, with clients that give back in
  the order received, the earlier is ahead at every recipient in every state if and only if the later
  one is never put in the input queue of the recipient for which the earlier one is parked. So the order
  is lost only after a BUSY outcome of the earlier one, and while it is still parked
  (`Ordering.LostOnlyByBusy`), and BUSY outcomes of the later one alone do no harm
  (`Ordering.KeptWithoutBusy`). It is lost from every state in which the earlier one is found busy while
  the later one is right behind and then gets through (`Witnesses.BusyLetsTheLaterPass`);
  `Witnesses.BusyLosesTheOrder` is a run through such a state.
- The promise that the cleaner is called once all recipients are finished
  (`project/includes/litm.h:488-493`) ends with the stop of the thread: from then on a message is ever
  cleaned if and only if it already is (`Shutdown.CleanedByTheStopOrNever`). A shutdown goes to the head of
  the switch queue (`project/src/switch.c:629`), so a message accepted before it can be left there, and
  is never delivered nor cleaned: `Witnesses.LeftBehind`.
- A round trip of subscribe and unsubscribe gives back the same subscribers, but the same row only
  under the condition in `Rows.SubscribeThenUnsubscribe`.
- The test of bus numbers (`project/src/switch.c:479`) lets 7 through, for which the table
  (`project/src/switch.c:44`) has no row. `SubscriberTable.TestIsShortOfSeven` says exactly when the test
  is enough: for every number but 7, that is, when what it lets through is below 7. The calls that go
  on to the table ask that of their callers (`SubscriberTable.InTable`).

## Model

| member | source | states |
|---|---|---|
| Rows.FindFrom | project/src/switch.c:778-797 | the least slot from a given one on that holds a connection other than the sender; 0 exactly when there is none |
| Rows.ScanExtendsFanOut | project/src/switch.c:726-768 | one look at the row extends the fan-out by exactly the next recipient, and finding nothing means that the fan-out is complete |
| Rows.FanOutExact | project/src/switch.c:703-724 | the fan-out holds every slot with a non-sender, each once, in slot order, with its own connection, and nothing else |
| Rows.FirstOf | project/src/switch.c:499-506 | the first slot of the row that holds the given entry; 0 exactly when there is none |
| Rows.SubscribedSlot | project/src/switch.c:497-506 | a subscription takes the first free slot from 1 to 15, and leaves a row without one as it is |
| Rows.RoomForFifteen | project/src/switch.c:497-506 | a bus with fewer than 15 subscriptions takes one more, and then has one more; with 15 it is full and stays as it is |
| Rows.UnsubscribedSlot | project/src/switch.c:539-547 | an unsubscription frees the first slot of the connection, and leaves a row in which it has none as it is |
| Rows.SubscribeThenUnsubscribe | project/src/switch.c:473-554 | adding with success and removing the same connection gives back the same subscribers with multiplicities; it gives back the row itself if and only if the connection was in no slot below the one it got |
| Rows.UnsubscribeThenSubscribe | project/src/switch.c:473-554 | removing and adding again gives back the same subscribers; the row itself if and only if no slot below the freed one was free |
| Invariants.InvStep | project/src/switch.c:133-272 | every step of the thread or of a client, in any order, keeps the invariant: one place for each envelope, one envelope for each message on its way, routing fields and counters that agree with the journey; a put always has a recipient |
| Invariants.InvariantHolds | project/src/switch.c:133-272 | the invariant holds in every state of every run |
| Invariants.GuardIsEnough | project/src/switch.c:133-272 | in such a state every number a step looks up denotes an envelope, a connection, a message and a row |
| Safety.UniqueOwnership | project/src/switch.c:133-272 | in every state of every run each envelope ever created is in exactly one of pool, destroyed, with its sender, switch queue, switch's hand, one input queue, one client's hands; no container holds it twice |
| Safety.NoStrangers | project/src/pool.c:47-132 | no container holds an envelope that was not created |
| Safety.EvolvesStep | project/src/switch.c:133-272 | no step forgets a delivery or a receipt of a message, changes its sender, bus or type, un-sends it, or touches it once cleaned or refused |
| Safety.EvolvesRun | project/src/switch.c:133-272 | the same over any stretch of a run |
| Safety.SentOnceCleanedOnce | project/includes/litm.h:488-493 | a message whose send succeeded is, in every later state, either cleaned, and once, or carried by exactly one envelope in a queue, the switch's hand or a client's hands; that it is cleaned in the end is not promised, and fails for what the stop leaves behind (Shutdown.CleanedByTheStopOrNever) |
| Safety.CleaningMoment | project/src/switch.c:680-700 | when a message is cleaned the switch alone has its envelope, each delivery has been counted and given back, in order, by its recipient, and afterwards the envelope is in the pool or destroyed |
| Safety.RefusedNeverCleaned | project/src/switch.c:639-658 | a message whose send failed is never cleaned by the switch and never delivered |
| Safety.CountersTellWhereItIs | project/src/switch.c:384-387 | deliveries minus releases, plus the one the switch has still to count, is 1 exactly when a client has the envelope and 0 exactly when none has |
| Safety.SplitHorizon | project/src/switch.c:788-788 | in every state of every run no message is in the input queue or the hands of its own sender, parked and retried ones included; this takes the scan and the read of the slot it finds (`project/src/switch.c:749-759`) as one step, where the code holds no lock |
| Safety.PendingState | project/src/switch.c:389-396 | a pending envelope is no shutdown, has a recipient in slots 1 to 15 that is not its sender, and is in the switch queue or the switch's hand except exactly while its delivery is made and not yet counted |
| Safety.PutHasRecipient | project/src/switch.c:421-424 | whenever the switch is about to put an envelope it has a recipient, so the branch for a missing connection is never taken; this takes the scan and the read of the slot as one step too |
| Lives.StoryStep | project/src/switch.c:133-272 | every step either moves a message along its life (queued, taken, aimed, parked, in an input queue, held, ..., done) or leaves its story as it is |
| Lives.NewMessage | project/src/switch.c:591-603 | a send, and no other step, makes one new message, with the sender, bus and type the call gave |
| Delivery.AtMostFifteenHops | project/src/switch.c:220-222 | a message goes to strictly increasing slots between 1 and 15, so to each slot at most once and at most 15 times, and never to its sender |
| Delivery.WorkIsExact | project/src/switch.c:133-272 | exact account of the dequeue, receive and release steps of a message: three a hop, one for the last look, one more for each BUSY outcome |
| Delivery.HopBound | project/src/switch.c:133-272 | at most 3 * 15 + 1 = 46 such steps plus one for each BUSY outcome, whatever happens to the subscriptions; exactly 3 * hops + 1 plus the BUSY outcomes when the message has been cleaned |
| Delivery.RunBound | project/src/switch.c:133-272 | over a whole run, at most 46 dequeues, receives and releases for each send plus one for each BUSY outcome |
| Delivery.StableSlotServedOnce | project/src/switch.c:185-228 | while other slots change arbitrarily, a non-sender that keeps its slot from before the scan comes to it until the message is cleaned is delivered to exactly once through that slot and has given it back |
| Delivery.DeliveredOnlyToSubscribers | project/src/switch.c:749-761 | each delivery of a message went to a connection that sat in that slot of its bus, and was not the sender, when the scan for this very message came from its last slot to that one |
| Delivery.ChosenOnce | project/src/switch.c:738-761 | the scan for a message goes to a slot in one step only |
| Delivery.KeptUnlessGivenUp | project/src/switch.c:516-554 | over any stretch of a run a connection keeps a slot if and only if it does not unsubscribe while that slot is its first on the bus |
| Delivery.StillSubscribedAtThePut | project/src/switch.c:284-292 | at each put the recipient was chosen by an earlier scan for this message, and is still in its slot without a break if and only if it has not given the slot up since |
| Delivery.FanOutIsTheRow | project/src/switch.c:703-797 | with a fixed row the deliveries, and the releases, are exactly the non-sender entries of the row in slot order; none for a row that is empty or holds only the sender |
| Delivery.SentOnTheBus | project/src/switch.c:567-671 | from end to end: a message that a connection sends on a bus, whose row stays as it is until the message is cleaned, is delivered to and given back by exactly the subscribers of that bus other than the sender, in slot order |
| Shutdown.StopStep | project/src/switch.c:195-201 | the end of the scan of a message of type 1 (LITM_MESSAGE_TYPE_SHUTDOWN), and nothing else, stops the thread |
| Shutdown.StaysStopped | project/src/switch.c:135-138 | a stopped thread stays stopped and dequeues nothing |
| Shutdown.SafeShutdown | project/includes/litm.h:84-86 | if the thread has stopped, then in some step the scan of a message of type 1 had come to the end, everybody who kept a slot had received and released it, and it was cleaned in that step and not before |
| Shutdown.CleanedByTheStopOrNever | project/src/switch.c:135-138 | once the thread has stopped, the list of cleaned messages never changes again |
| Ordering.AheadStep | project/src/switch.c:175-234 | one step of any thread, BUSY outcomes included, keeps the earlier of two messages ahead (further along the row, or as far and in front of the other in the same queue or hands, or on its way to the same recipient), unless it is the put of the later one to the recipient for which the earlier is parked |
| Ordering.SameSenderOrder | project/src/switch.c:175-234 | two messages of one sender on one bus over a fixed row, neither a shutdown, and clients that give back in the order received: in every state of the stretch the earlier has been delivered, received and released first at every recipient, whatever other traffic and BUSY outcomes there are, if and only if no step puts the later one in the input queue of the recipient for which the earlier one is parked |
| Ordering.ParkedSince | project/src/switch.c:389-396 | a parked message has stayed as it is since the BUSY outcome that parked it |
| Ordering.LostOnlyByBusy | project/src/switch.c:389-396 | where the order is lost although the row is fixed and clients give back in order, a BUSY outcome has parked the earlier message, and a later step, before it is taken up again, puts the later message to the same recipient |
| Ordering.KeptWithoutBusy | project/src/switch.c:175-234 | without a BUSY outcome of the earlier message the order is kept, however often the later one meets them |
| Witnesses.BusyLetsTheLaterPass | project/src/switch.c:389-396 | from every state a run leads to in which the earlier message is about to be put and the later one, with the same next recipient, is at the head of the switch queue, a BUSY outcome and the next turn of the thread lose the order |
| Witnesses.BusyLosesTheOrder | project/src/switch.c:389-396 | one such run from the start, with a fixed row and nothing given back, that passes through such a state before its BUSY outcome: the second message is delivered and the first is not |
| Witnesses.DeliveredAfterUnsubscribing | project/src/switch.c:284-292 | a run in which a connection that sits in no slot of the bus any more gets a message of it |
| Witnesses.DeliveredNotCounted | project/src/switch.c:382-387 | a run in which a client has an envelope that is still pending and whose counters agree |
| Witnesses.LeftBehind | project/src/switch.c:619-636 | a run in which a message of type 100 accepted before one of type 1 is still in the switch queue, and not cleaned, when the thread has stopped |
| Witnesses.OthersDoNotStop | project/includes/litm.h:236-245 | a run in which a timer (type 2) and a message of the first user type (100) come to the end of their row and are cleaned, and the thread goes on |
| Traffic.Conservation | project/src/litm.c:145-151 | in every state: received plus waiting is what was put in the input queue, released plus held is what was received, and what was put in the switch queue are the sends, the releases and the BUSY outcomes |
| Traffic.CountersTellTheCalls | project/src/litm.c:145-151 | in every state of a run the counters of a connection are the numbers of its own sends that went through, of its receives and of its releases |
| Traffic.RequeuesTellTheBusies | project/src/switch.c:389-396 | in every state of a run the requeue count of the envelope of a message on its way is the number of BUSY outcomes that message has met, and the total of the switch that of all BUSY outcomes |
| Traffic.PriorityShape | project/src/switch.c:619-636 | in every state shutdowns stand first in every input queue, and shutdowns not yet routed stand first in the switch queue |
| Traffic.NothingOvertakes | project/src/switch.c:435-445 | two envelopes in an input queue keep their order through every step until the first is received |
| Traffic.NothingOvertakesInSwitch | project/src/queue.c:232-267 | the same in the switch queue until the first is dequeued |
| Traffic.PlainInPutOrder | project/src/queue.c:232-267 | in every state of every run the envelopes other than shutdowns that a client has received, followed by those in its input queue, are those put there, in the order of the puts |
| Traffic.TailInPutOrder | project/src/queue.c:232-267 | the same of the switch queue: shutdowns it has not looked at left aside, what was dequeued followed by what waits is what sends, releases and BUSY outcomes have put in, in that order |
| LinkedQueue.Queue.constructor | project/src/queue.c:35-75 | an empty queue |
| LinkedQueue.Queue.AddAtTail | project/src/queue.c:242-258 | the chain stays a chain and its contents get the element at the end |
| LinkedQueue.Queue.PutSafe | project/src/queue.c:232-267 | appends, or changes nothing and returns 0 without memory; no other queue is disturbed |
| LinkedQueue.Queue.AddAtHead | project/src/queue.c:626-642 | the chain stays a chain and its contents get the element in front |
| LinkedQueue.Queue.PutHeadSafe | project/src/queue.c:616-650 | prepends, or changes nothing and returns 0 without memory; no other queue is disturbed |
| LinkedQueue.Queue.GetSafe | project/src/queue.c:399-443 | takes the first element out or finds none; the count of the rest always agrees with the counters, so the error branch is never taken |
| LinkedQueue.Queue.Put | project/src/queue.c:119-137 | return code and contents after a put |
| LinkedQueue.Queue.PutNb | project/src/queue.c:149-166 | -1 and no change when the lock is taken, else as PutSafe |
| LinkedQueue.Queue.PutHead | project/src/queue.c:531-550 | return code and contents after a put at the head |
| LinkedQueue.Queue.GetNb | project/src/queue.c:299-316 | nothing when the lock is taken or the queue is empty, else the first element |
| EnvelopePool.Pool.Clean | project/src/pool.c:163-182 | every field but the requeue count is reset |
| EnvelopePool.Pool.Prepare | project/src/pool.c:87-93 | the first time around every slot is made null |
| EnvelopePool.Pool.Spare | project/src/pool.c:100-111 | takes the top of the stack, cleaned, and leaves its slot null |
| EnvelopePool.Pool.Get | project/src/pool.c:81-132 | an envelope that is not in use, without message, cleaner, sender or recipient of an earlier send: the top of the stack, or a new one when the stack is empty, or null exactly when it is empty and there is no memory; slots 1 to top hold distinct envelopes and all others are null; created = in use + pooled + destroyed and recycled - returned = top |
| EnvelopePool.Pool.Recycle | project/src/pool.c:47-67 | an envelope in use goes on top of the stack, or is destroyed when 127 are there; the same invariant |
| SubscriberTable.TestIsShortOfSeven | project/src/switch.c:479-481 | the bus test lets exactly 1 to 7 through; what it lets through denotes a row exactly when it is below 7, and the test falls short at 7 and nowhere else |
| SubscriberTable.Table.constructor | project/src/switch.c:88-94 | every slot is free |
| SubscriberTable.Table.FindMatch | project/src/switch.c:778-797 | the loop finds what FindFrom specifies |
| SubscriberTable.Table.GetNextSubscriber | project/src/switch.c:726-768 | code, connection and slot of the next recipient, or the end-of-list code with no connection and slot -1 |
| SubscriberTable.Table.Add | project/src/switch.c:473-513 | all return codes in the order of the tests, the bus code for every number outside 1 to 7; on success the first free slot of the bus is taken, otherwise, and on every other bus, nothing changes |
| SubscriberTable.Table.Remove | project/src/switch.c:516-554 | all return codes, the bus code for every number outside 1 to 7; on success the first slot of the connection is freed, otherwise, and on every other bus, nothing changes |
| Entities.Envelope.Fill | project/src/switch.c:592-603 | what a send writes in its envelope |
| Pictures.SameNextSlot | project/src/switch.c:778-797 | the scan of the table of connections and of the row of the protocol find the same slot |
| Pictures.SameSubscribed | project/src/switch.c:497-506 | subscribing in the table and in the protocol agree |
| Pictures.SameUnsubscribed | project/src/switch.c:539-547 | unsubscribing in the table and in the protocol agree |
| Switch.Switch.constructor | project/src/switch.c:71-94 | an empty switch is in the initial state of the protocol |
| Switch.Switch.TryDequeue | project/src/switch.c:140-149 | nothing, or the first envelope of the switch queue and the step Dequeue |
| Switch.Switch.NextSubscriber | project/src/switch.c:184-193 | finds the recipient the protocol chooses, or the end of the list exactly when the protocol is at the end of the row |
| Switch.Switch.Forward | project/src/switch.c:220-222 | the step Route when there is a next recipient: the envelope is addressed to it |
| Switch.Switch.Dispose | project/src/switch.c:688-695 | the trace of what the switch has disposed of gets the message with its cleaner |
| Switch.Switch.Finalize | project/src/switch.c:680-700 | disposes of the message and cleaner its sender gave, once, and puts the envelope away |
| Switch.Switch.EndOfList | project/src/switch.c:195-201 | the step Route at the end of the row, with the message disposed of; tells whether it was of type 1, a shutdown |
| Switch.Switch.TrySendingToRecipient | project/src/switch.c:418-469 | return codes, that of a failed allocation included; a shutdown goes to the head, anything else to the tail unless the lock is taken; no other queue is disturbed |
| Switch.Switch.Deliver | project/src/switch.c:418-469 | the step Put, or nothing and the busy code exactly when the lock is taken and the message is no shutdown |
| Switch.Switch.CountDelivery | project/src/switch.c:384-387 | the step Count |
| Switch.Switch.Requeue | project/src/switch.c:390-396 | the step Busy |
| Switch.Switch.TrySendingOrRequeue | project/src/switch.c:377-409 | Put and Count, or Busy; the code tells which |
| Switch.Switch.HandlePending | project/src/switch.c:284-326 | Retry, then Busy exactly when the lock is taken and the type is not 1, otherwise Put and Count, with the recipient the envelope was parked with |
| Switch.Switch.Dispatch | project/src/switch.c:175-269 | Route, and unless the row is at its end Busy exactly when the lock is taken and the type is not 1, otherwise Put and Count; a shutdown is reported exactly at the end of its row |
| Switch.Switch.Turn | project/src/switch.c:133-272 | one iteration of the loop takes the objects exactly where the protocol goes, which Thread.Iterate says without naming that function; the flag that ends the loop is the one of the protocol |
| Switch.Switch.ReceiveNb | project/src/litm.c:137-154 | return codes and the step Receive |
| Switch.Switch.Release | project/src/switch.c:334-367 | return codes and the step Release |
| Switch.Switch.Prepare | project/src/switch.c:591-603 | the step Offer: an envelope that is not in use, filled in with the bus, type, sender, message and cleaner of the call, and a new message with the same |
| Switch.Switch.Submit | project/src/switch.c:617-658 | the step Accept, or Refuse without memory for the queue node |
| Switch.Switch.Send | project/src/switch.c:567-671 | return codes in the order of the tests; Offer then Accept or Refuse; the new message has the sender, bus, type, message and cleaner of the call; nothing changes on a null connection or a bus number outside 1 to 7 |
| Switch.Switch.Connect | project/src/connection.c:106-158 | the step Open: a fresh connection with an empty queue |
| Switch.Switch.Subscribe | project/src/switch.c:473-513 | return codes and the step Subscribe; nothing changes on any other code |
| Switch.Switch.Unsubscribe | project/src/switch.c:516-554 | return codes and the step Unsubscribe; nothing changes on any other code |
| History.Step | project/src/switch.c:133-272 | in the last state of a run a step whose guard holds can be taken and extends the run |
| History.SameStepsSameStates | project/src/switch.c:133-272 | two histories with the same steps have gone through the same states, so a contract that names the steps of a call leaves no choice about its effect |
| Thread.TurnReady | project/src/switch.c:140-182 | what an iteration relies on holds in every state a run leads to |
| Thread.TriedSteps | project/src/switch.c:377-409 | a try to deliver is the step Busy exactly when the lock is taken and the type is not 1, otherwise Put and Count |
| Thread.TurnSteps | project/src/switch.c:133-272 | the exact steps of an iteration that takes up an envelope: Dequeue; Retry if it is pending, otherwise Route; nothing more at the end of the row; otherwise Busy exactly when the lock is taken and the type is not 1, and Put and Count in every other case. And what they do: at the end of the row the message is cleaned; a delivery adds the slot and the recipient to the hops of the message and puts the envelope in the input queue of that recipient, a shutdown in front and anything else at the back; a BUSY outcome puts it at the tail of the switch queue, parked for that slot and recipient |
| Thread.Iterate | project/src/switch.c:133-272 | the loop body on the objects, from a state some run leads to, back to one, with the objects in step: nothing if the flag is set, the queue is locked or empty; otherwise exactly those steps with exactly that effect |
| Thread.InboxShows | project/src/switch.c:435-458 | the input queue of a connection holds the envelopes the state gives for it, in that order |
| Thread.TakeUp | project/src/switch.c:140-149 | one call: the dequeue on the objects extends the run |
| Thread.Look | project/src/switch.c:175-222 | one call: the look at the row on the objects extends the run; either the message is finished with, reported as a shutdown exactly if it is of type 1, or the envelope is addressed |
| Thread.Retake | project/src/switch.c:291-292 | a pending envelope is aimed again; the objects stay in step |
| Thread.Hand | project/src/switch.c:418-469 | one call: the put on the objects extends the run, or nothing has happened when the lock is taken |
| Thread.Tally | project/src/switch.c:384-387 | one call: the count on the objects extends the run |
| Thread.SendBack | project/src/switch.c:390-396 | one call: the return to the switch queue on the objects extends the run |
| Thread.PutAndCountSteps | project/src/switch.c:377-387 | in every state of a run with a put due there is a recipient, and put and count extend the run |
| Thread.BusyStep | project/src/switch.c:390-396 | a BUSY outcome extends the run |
| Clients.OfferStep | project/src/switch.c:591-603 | the envelope the pool gives out is never on its way, and the send extends the run |
| Clients.SendSteps | project/src/switch.c:583-671 | a whole send, with either outcome, extends the run |
| Clients.ReceiveStep | project/src/litm.c:145-151 | the first envelope of an input queue is on its way, and the receive extends the run |
| Clients.ShowsItsMessage | project/src/switch.c:591-603 | an envelope on its way has the type, bus, message and cleaner of the send it comes from |
| Clients.ReleaseStep | project/src/switch.c:334-367 | an envelope a client holds is on its way, and the release extends the run |
| Clients.CallConnect | project/src/connection.c:106-158 | one call: opening a connection with an empty queue and zero counters extends the run, with the objects in step, and leaves the thread where it is |
| Clients.CallSubscribe | project/src/litm.c:81-85 | one call: the same of a subscription, with all return codes by the row of the bus: full exactly when slots 1 to 15 are taken; any code but success leaves the run as it is |
| Clients.CallUnsubscribe | project/src/litm.c:88-92 | one call: the same of an unsubscription: not found exactly when the connection is in none of slots 1 to 15 |
| Clients.CallPrepare | project/src/switch.c:591-603 | one call: the same of the first half of a send; envelope and message are as asked for |
| Clients.CallSubmit | project/src/switch.c:617-658 | one call: the same of the second half |
| Clients.CallSend | project/src/litm.c:94-102 | one call: the same of a whole send, with all return codes; the new message is as asked for |
| Clients.CallReceiveNb | project/src/litm.c:137-154 | one call: the same of a receive, with all return codes; the client gets the first envelope of its input queue, with the type, message and cleaner of the send it comes from, and it is the last of those the client now holds |
| Clients.CallRelease | project/src/litm.c:257-261 | one call: the same of a release of an envelope the client holds |
| Thread.CountersAgree | project/src/litm.c:145-151 | on the objects: received plus the length of the input queue is its total of puts, and the total of puts of the switch queue is sends plus releases plus BUSY outcomes |
| Thread.DisposedOnce | project/src/switch.c:680-700 | the trace of what the switch has disposed of lists the cleaned messages of the run, each once and in that order, each with the message and cleaner its sender gave |

## Left out

- Locks and conditions: each step is atomic, a lock that is taken is a parameter (`contended`, `lockTaken`) of the call that tries it; waiting, waking up and fairness are not modelled (`queue_wait`, `queue_wait_timer`, `queue_signal`, `queue_put_wait`, `litm_receive_wait`, `litm_receive_wait_timer`).
- `queue_put_head_wait`: modelled as `LinkedQueue.Queue.PutHead`, the put once the lock has been got; the wait before it is not.
- The scan of the row and the read of the slot it finds are one step, as the comment above the scan asks for.
- Switch.Switch.Turn: takes the steps of one iteration without a client call in between; `Thread.TakeUp`, `Look`, `Retake`, `Hand`, `Tally` and `SendBack` are the calls between which the clients can make theirs.
- Thread.Iterate: the same, on a run.
- Switch.Switch.Send: takes both halves of a send without another call in between, and needs a bus number the table has a row for; Prepare and Submit are the two halves.
- SubscriberTable.Table.Add: asks callers not to pass bus 7, for which the original reads and writes outside its table, so that it has no defined behaviour to model.
- SubscriberTable.Table.Remove: the same.
- Switch.Switch.Subscribe: the same.
- Switch.Switch.Unsubscribe: the same.
- Clients.CallSubscribe: the same.
- Clients.CallUnsubscribe: the same.
- Clients.CallSend: the same; the original accepts the message, and its scan then reads outside the table.
- Clients.CallPrepare: the same.
- Clients.OfferStep: the same.
- Clients.SendSteps: the same.
- Allocation failures are modelled in the queue, the pool, the try to deliver and the send; they do not happen to the other calls:
- Switch.Switch.Requeue: the put cannot fail; the original ignores a failure, and then has lost the envelope.
- Thread.SendBack: the same.
- Switch.Switch.Release: the put cannot fail; the original would finalize the envelope before the end of its row.
- Clients.CallRelease: the same.
- Switch.Switch.Deliver: the put cannot fail; the original would finalize the envelope before the end of its row.
- Switch.Switch.TrySendingOrRequeue: the same.
- Switch.Switch.HandlePending: the same.
- Switch.Switch.Dispatch: the same.
- Thread.Hand: the same.
- Switch.Switch.Prepare: a new envelope can always be allocated; the original uses the result without a test.
- Switch.Switch.Connect: always succeeds; the codes for a taken lock, a full table and a failed allocation are not modelled, nor is the table of connections.
- Clients.CallConnect: the same.
- `project/src/connection.c`: the table of connections, its limit and closing; opening gives a fresh connection with an empty queue, and the switch never reads the status that closing sets.
- The branch for LITM_CODE_ERROR_CONNECTION_NOT_ACTIVE: no queue operation returns the code 2 that leads to it (`project/src/switch.c:460-465`).
- What a cleaner does, and `free`: a disposal is recorded, with the cleaner and the message it was given. Messages are numbers.
- The wake-up of all connections by a timer message (`project/src/switch.c:202-205`); a timer message is otherwise like any other.
- Overflow of the C counters: the counters of the model are unbounded.
- Logging, debug timing, return-code texts and the statistics local to the thread.
