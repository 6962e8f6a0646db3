# The XCAN router and its gateway firmware, verified

A Dafny model of the XCAN routing stack (`stack/`) and of the PDU pipeline and firmware transfer
of the older gateway firmware (`_old/Framework/`), with proofs of what they keep. The stack moves
CAN frames from device to device by a routing table: descriptors that share payloads through a
one-byte counter, queues linked through the descriptors themselves, and service loops that spend
a score. The pipeline passes payloads from an interrupt handler through three bounded queues to
the tasks that free them. The transfer sends a firmware file to an ECU in acknowledged, padded
and encrypted frames.

`dafny verify dfyconfig.toml` checks everything.

## Layout

| file | contents |
|---|---|
| `Base.dfy` | machine integers and a few sequence facts |
| `Frames.dfy` | memory, descriptors, shared payloads and their counters (`Memory`) |
| `Queues.dfy` | linked queues over that memory (`Queue`) |
| `Routing.dfy` | the stack as values: what each operation does to the frames waiting, sent, refused and dropped |
| `Traces.dfy` | every service loop as a sequence of single moves |
| `Delivery.dfy` | what every run of it keeps: order, content, conservation, limits |
| `Provision.dfy` | how much memory and how high limits a run needs so that nothing is refused |
| `Moves.dfy`, `Stack.dfy`, `Startup.dfy` | the code itself (`Device`, `Stack`) over real queues and memory, proved to do what `Routing` says |
| `Scheduling.dfy`, `Sending.dfy`, `Ticking.dfy` | the incoming, routing and outgoing loops in closed form, ticks and bounded drain |
| `Counters.dfy`, `Overflow.dfy` | how far a one-byte counter carries, on memory and on the running stack; the counter as written |
| `Independence.dfy` | deep copies against any later operations |
| `Stages.dfy`, `Ownership.dfy`, `Resting.dfy`, `Tasks.dfy` | the PDU pipeline: steps, invariants under every interleaving, where it comes to rest, and the code (`Framework`) |
| `Firmware.dfy` | the firmware transfer (`Updater`) and what it achieves |
| `Answering.dfy` | the transfer over the pipeline |

How it fits together. A C address is an explicit value of type `Ptr`, and `Memory` maps addresses
to descriptors, links and payload bytes, so that sharing, release and reuse of memory can be
stated. A method of `Memory`, `Queue` and `Stack` works on those real fields; its `ensures`
equates the new state with a function of the old one, and the lemmas are about these functions.
Allocation, transmission and malloc are decided by arbitrary functions or event arguments, so
every outcome is covered. The stack's invariant `Inv` (linked queues, sharing, counters, books)
holds before and after every single offer, pull, release and send, not only between calls;
and `Memory` records in `peak` the most sharers any payload has had at any time, so that a bound on
`peak` after a run is a bound on every state the run went through.

## Repairs

The stack is unfinished. The model is of what it is meant to do; these points differ from the text.

- Allocation is zeroed, of the size asked for, and may fail (stack/include/xcan_config.h:21 asks for 0 bytes). A failed payload allocation gives the descriptor back and returns NULL (stack/xcan_frame.c:12-17 goes on with it).
- A new payload's counter starts at 1; as written it starts at 0, with the consequences of `Counters.AsWrittenIff`.
- Discarding always releases the descriptor, and the payload with the last one (stack/xcan_frame.c:28-31 releases both or neither).
- A deep copy checks both allocations and leaves the counter of the original as it was (stack/xcan_frame.c:55-64).
- `route_frame` offers a copy of its own to every interface of every matching entry and finally releases the frame (stack/xcan_router.c:8-26 stops mid-statement, and enqueuing one descriptor in several queues would break their links). `xcan_router_receive` routes; `xcan_router_loop` takes the device as a parameter; `xcan_get_device` passes over empty slots.
- `xcan_stack_recv` keeps the flags it is given (stack/xcan_stack.c:37-39 drops them).
- `xcan_stack_tick` has a budget for each direction. The comments at stack/xcan_stack.c:65 and 68 say ten frames for each, the code has one score of 20 for both, and `Ticking.AsWrittenNeverSends` shows what follows; the model keeps the budget a parameter.
- A device's send returns 0 for success, as stack/xcan_device.c:46 reads it.
- The pipeline drops a frame when malloc fails, and a data PDU with an identifier beyond the table has no destinations (the source checks neither).
- Every exit of the firmware transfer frees the payload received last, and every early exit is an error; `Firmware.Updater.UpdateFirmwareAsWritten` and `Firmware.AsWrittenStatusIff` say what the exits as written do and exactly when they are right.

## Model

| member | source | states |
|---|---|---|
| `Frames.Memory.Alloc` | stack/xcan_frame.c:3-19 | NULL exactly if one of the two allocations fails, and then nothing has changed; otherwise one new descriptor over one new zeroed payload with counter 1, and nothing else |
| `Frames.Memory.Copy` | stack/xcan_frame.c:40-51 | a second descriptor of equal value over the same payload, whose counter byte goes up by one, modulo 256; NULL and no change if memory is short |
| `Frames.Memory.DeepCopy` | stack/xcan_frame.c:53-66 | a frame of equal value over a payload of its own with counter 1; the original and all counters as before |
| `Frames.Memory.Discard` | stack/xcan_frame.c:21-32 | the descriptor goes, and its payload with it exactly if the lowered counter byte is 0; the memory stays sane if that byte is right about the last sharer |
| `Frames.SaneJoin` | stack/xcan_frame.c:47-49 | one more descriptor keeps every counter byte equal, modulo 256, to the number of descriptors that share the payload |
| `Frames.SaneLeave` | stack/xcan_frame.c:26-31 | one less keeps it too, and the payload is released if and only if no descriptor is left, unless 257, 513, ... shared it |
| `Frames.LeftAllCount` | stack/include/xcan_queue.h:67-74 | discarding a run of descriptors lowers each payload's count by exactly its own descriptors among them; it survives if and only if others share it |
| `Frames.LeftAllRest` | stack/include/xcan_queue.h:67-74 | every other descriptor keeps its value, link and place |
| `Queues.Queue.Enqueue` | stack/include/xcan_queue.h:14-35 | refuses exactly when a limit is set and reached, changing nothing; otherwise appends the frame, links it behind the old tail and changes no other link; the frame count is the length, unless a queue without a limit reaches 2^32 frames, where it reads 0 |
| `Queues.Queue.Dequeue` | stack/include/xcan_queue.h:37-56 | NULL and no change from an empty queue; otherwise removes and returns the first frame |
| `Queues.Queue.Peek` | stack/include/xcan_queue.h:58-65 | the first frame, still queued |
| `Queues.Queue.Empty` | stack/include/xcan_queue.h:67-74 | terminates with the queue empty and exactly its descriptors discarded |
| `Queues.ChainsDisjoint` | stack/include/xcan_queue.h:26-31 | queues of different devices or directions have no descriptor in common |
| `Queues.ChainAppend` | stack/include/xcan_queue.h:21-31 | linking at the tail turns a list of a sequence into the list of the sequence with the frame appended |
| `Queues.ChainRemove` | stack/include/xcan_queue.h:47-54 | unlinking the head leaves the list of the rest |
| `Stack.Stack.GetDevice` | stack/xcan_device.c:123-131 | the device in that slot, or none |
| `Stack.Stack.Offer` | stack/xcan_router.c:16-18 | one copy accepted, refused for lack of place and given back, or not allocated; all queues, counters and devices otherwise as before, and the sharers of the payload go up by the result |
| `Stack.Stack.CopyOut` | stack/xcan_router.c:10-22 | the two loops: one copy offered to every interface of every matching entry, in table order, whatever their number; the sharers of the payload are then one more than the copies accepted |
| `Stack.Stack.RouteFrame` | stack/xcan_router.c:8-26 | does to the real queues and memory what `Routing.Routed` says, if at most 255 destinations of this frame are registered; the score falls by one and by one per accepted copy; the frame is released |
| `Stack.Stack.RouterReceive` | stack/xcan_router.c:35-39 | routes the frame |
| `Stack.Stack.RouterLoop` | stack/xcan_router.c:42-58 | terminates from every state between calls and does what `Routing.RouterLoop` says |
| `Stack.Stack.DatalinkReceive` | stack/xcan_stack.c:12-15 | routes the frame |
| `Stack.Stack.DevLoopIn` | stack/xcan_device.c:6-26 | terminates and does what `Routing.LoopIn` says |
| `Stack.Stack.DevLoopOut` | stack/xcan_device.c:28-58 | what `Routing.LoopOut` says: a frame leaves the queue and is released only after it was sent, and the first failure ends the turn |
| `Stack.Stack.DevicesLoop` | stack/xcan_device.c:96-121 | passes over all slots as `Routing.DevicesLoop` says |
| `Stack.Stack.StackRecv` | stack/xcan_stack.c:26-47 | either one frame with the given identifier, flags and bytes enters the device's in-queue, or 1 is returned and queues, counters and live memory are as before |
| `Stack.Stack.Tick` | stack/xcan_stack.c:61-70 | one incoming and one outgoing loop, each with the whole budget |
| `Stack.Stack.TickAsWritten` | stack/xcan_stack.c:61-70 | the same with one score of 20 handed on |
| `Stack.Stack.Flush` | stack/include/xcan_queue.h:67-74 | empties one queue of one device; all others as before |
| `Stack.Stack.Run` | stack/xcan_stack.c:26-70 | any sequence of calls does to the real queues, memory and devices what `Routing.Run` says |
| `Stack.Stack.CountersTell` | stack/xcan_frame.c:26-48 | whatever is in the hand, no live descriptor points to a released payload and the last byte of a payload is the number of its descriptors modulo 256; with nothing in the hand, or at most 254 copies possible, it is that number, from 1 to 255 |
| `Stack.Stack.LiveAreWaiting` | stack/xcan_frame.c:21-51 | between calls the live descriptors are exactly those linked in the queues, each in one place |
| `Overflow.Flood` | stack/xcan_router.c:8-26 | for any table and devices, the running stack after start-up, one receive call and the two loops of route_frame: its books are those of `CopiedOut`, and min(destinations, free memory) copies share one payload with the frame in hand |
| `Overflow.Tight` | stack/xcan_frame.c:26-48 | for every table with 255 registered destinations for an identifier, the byte of the running stack reads 0 while that frame is in hand, so that 254 is the tight bound |
| `Overflow.Overrun` | stack/xcan_router.c:8-26 | for every table with more than 255 registered destinations for some identifier: the running stack, after one receive call and with all copies made, releases the payload under 256 queued copies by the release at the end of route_frame |
| `Overflow.CountableIff` | stack/xcan_frame.c:48 | the condition on tables under which frames are routed is the weakest: it holds if and only if no run from start-up, in whatever environment, comes to a frame of which it makes more than 255 copies |
| `Overflow.CopiesDoomedIff` | stack/xcan_frame.c:26-31 | which is when some order of discards, in the memory of the stack with the copies made, releases that frame's payload under live sharers |
| `Startup.DeviceInit` | stack/xcan_device.c:61-82 | 0 and a device with two empty queues, or -1 and nothing for a slot out of range or a failed allocation |
| `Startup.RunFromStart` | stack/xcan_stack.c:26-70 | from start-up through any given calls: the state is that of `Routing.Run`; each wanted device's real queues and transmissions are the table's image of the frames those calls brought in, less refusals and drops; and at no time did a payload have more sharers than the table allows for |
| `Routing.ReachBounds` | stack/xcan_router.c:14-18 | routing makes at most one copy per listed interface that has a device |
| `Routing.OfferedConcat` | stack/xcan_router.c:10-22 | offering entry by entry is offering the concatenated destination list |
| `Routing.DestsWhole` | stack/xcan_router.c:10-18 | the destinations of an identifier number as many as the interfaces of all matching entries together |
| `Routing.DestsEntry` | stack/xcan_router.c:10-18 | each interface of a matching entry is a destination, at the position that table order, and list order within the entry, give it |
| `Routing.RulingIff` | stack/xcan_frame.c:42-45 | a copy fails if and only if there is no room or its own allocation call fails; otherwise it is refused if and only if the queue has a limit and holds that many |
| `Routing.ReceivedIff` | stack/xcan_stack.c:26-47 | a frame is received if and only if both allocation calls succeed and the in-queue is below its limit; then it is the last there, and no other queue changes |
| `Routing.FlushedIs` | stack/include/xcan_queue.h:67-74 | emptying a queue leaves it empty and every other queue as it was |
| `Delivery.DestsImage` | stack/xcan_router.c:10-18 | the destinations computed over the nested loops are, device by device, the table's image of the frame |
| `Delivery.RunKeeps` | stack/xcan_stack.c:26-70 | every step of every run keeps the invariant of order, content, conservation and limits |
| `Delivery.EndToEnd` | stack/xcan_router.c:8-26 | for every run and device: the frames whose receive calls were accepted, in call order = left + waiting in the in-queue; routed in order; copies offered = the table's image of the routed frames; accepted = gone + waiting in the out-queue; every copy was accepted, refused for memory or refused for place exactly as the memory and the queue at that time demanded |
| `Delivery.LosslessIff` | stack/xcan_router.c:16-18 | gone followed by waiting is the whole image if and only if no copy was refused |
| `Provision.Provided` | stack/xcan_stack.c:26-70 | if allocations succeed and memory and limits are at least a number computed from the calls and the table, every receive call of the run succeeds and what left and waits is the whole image; without emptying, all of it was sent |
| `Delivery.AllSentIff` | stack/include/xcan_queue.h:67-74 | over a whole run, all that left the out-queue of a device was sent if and only if no call emptied that queue while a frame waited in it |
| `Delivery.Bounds` | stack/include/xcan_queue.h:16-19 | in every reachable state bounded queues keep their limits and there are as many live descriptors as frames in queues |
| `Scheduling.DevicesInClosed` | stack/xcan_device.c:96-121 | the incoming loop with score s handles exactly the first min(s, total) frames of the in-queues joined in slot order, and returns -1 if there were s of them and 0 otherwise |
| `Scheduling.RouterAccounting` | stack/xcan_router.c:42-58 | the router loop's result is the start less frames routed less copies accepted, and it stops with score left only when nothing waits |
| `Scheduling.RouterOvershoot` | stack/xcan_router.c:42-58 | after routing some frames of its device it comes to its last frame with a positive score, and ends below zero by at most the accepted copies of that frame |
| `Sending.OutAccounting` | stack/xcan_device.c:28-58 | whatever is sent or fails, with S frames sent in P passes the outgoing loop returns s - S - P in {-1, 0} and makes at most S + 4 P attempts |
| `Sending.OutConserves` | stack/xcan_device.c:40-54 | per device, the frames sent followed by those waiting are unchanged, so failed sends lose, repeat, reorder and drop nothing |
| `Sending.EveryDeviceTries` | stack/xcan_device.c:106-117 | whatever the other devices do, a pass that ends with score left has tried the first waiting frame of every device: a failed send ends only its own device's turn |
| `Sending.OwnLinkServes` | stack/xcan_device.c:96-121 | with a score that covers all that waits, a device whose own sends succeed sends its whole queue in order, however the sends of the other devices end |
| `Sending.DevicesOutClosed` | stack/xcan_device.c:96-121 | with sends that succeed each device sends the first frames of its queue, as many as its share of the score s in slot order; together the first min(s, total) of the joined out-queues |
| `Sending.OutSends` | stack/xcan_device.c:96-121 | over all devices exactly min(s, total) frames are sent |
| `Ticking.AsWrittenInOnly` | stack/xcan_stack.c:63-69 | a tick as written is its incoming loop alone |
| `Ticking.AsWrittenNeverSends` | stack/xcan_stack.c:63-69 | in any sequence of receive calls, emptied queues and ticks as written no device ever makes a send attempt |
| `Ticking.TickDrains` | stack/xcan_stack.c:61-70 | with a budget per direction and no input a tick sends exactly min(budget, backlog) frames, each device the first of its own queue |
| `Ticking.TickSendsRouted` | stack/xcan_stack.c:61-70 | with any input and sends that succeed, a tick sends exactly min(budget, backlog before it plus copies accepted in it): what it routes it also sends |
| `Ticking.TickRoutes` | stack/xcan_stack.c:61-70 | and it routes exactly the first min(budget, input) frames that waited before it |
| `Ticking.TicksDrain` | stack/xcan_stack.c:61-70 | n such ticks send exactly min(n * budget, backlog) frames, front first |
| `Ticking.DrainedIff` | stack/xcan_stack.c:61-70 | a backlog of N is sent after n ticks if and only if n is at least N / budget rounded up |
| `Ticking.DeliveredWithin` | stack/xcan_stack.c:61-70 | with I frames waiting to be routed and O waiting to be sent or still to be copied from them, nothing waits after I / budget and O / budget ticks, each rounded up |
| `Ticking.DeliveredDespite` | stack/xcan_stack.c:61-70 | the same although sends fail: with at most F failed sends in these ticks, I / budget and (O + F) / budget ticks, each rounded up, are enough |
| `Sending.OutEffort` | stack/xcan_device.c:28-58 | every point of the score goes to a frame sent or to a failed send, unless all out-queues are empty at the end |
| `Counters.RaisedCounts` | stack/xcan_frame.c:48 | raising the byte counts modulo 256 and spares the payload; lowering undoes it |
| `Counters.SpreadCounts` | stack/xcan_frame.c:40-51 | in any memory, n copies of a frame make n more descriptors of its payload; the byte counts them modulo 256 and the payload stays as it is |
| `Counters.LeaveIff` | stack/xcan_frame.c:26-31 | a discard leaves a live descriptor with a released payload if and only if the number of sharers was 257, 513, ... |
| `Counters.DoomedIff` | stack/xcan_frame.c:26-31 | some order of discarding sharers releases the payload under others if and only if there are more than 256 |
| `Counters.SpreadDoomedIff` | stack/xcan_frame.c:26-48 | from a frame that nobody shares, n copies come to that if and only if n is 256 or more |
| `Counters.InRangeIff` | stack/xcan_frame.c:26-48 | in any memory, while a frame that nobody shares is copied its byte stays within 1..255 if and only if at most 254 copies are made |
| `Counters.AllAccepted` | stack/xcan_router.c:10-22 | without limits, as many listed interfaces with a device get their copy as the memory has room for |
| `Counters.AsWrittenIff` | stack/xcan_frame.c:3-32 | on memory, with allocation, copy and discard as written and a new frame and its n copies discarded in any order: without copies nothing is ever released; with copies one discard, before the last, releases the payload and its own descriptor, all descriptors before it leak and all after it dangle |
| `Independence.DeepCopyIndependent` | stack/xcan_frame.c:53-66 | for every sharing pattern and every later sequence of writes, copies and discards on one side, the other keeps value, bytes and count |
| `Independence.ScriptIntact` | stack/xcan_frame.c:40-51 | operations through one payload's descriptors never show through those of another |
| `Independence.WriteShows` | stack/xcan_frame.c:40-51 | while a byte written through one descriptor shows through every other that shares its payload |
| `Tasks.Framework.BuildPdu` | _old/Framework/interfaces/can/can.c:128-149 | the first half of the interrupt handler: with a free address from malloc, a payload holding the frame's bytes if fewer than five PDUs wait, and nothing otherwise |
| `Tasks.Framework.QueueSendToBack` | _old/Framework/interfaces/can/can.c:151-161 | appends to the router's queue below five PDUs, to the two others below ten, and otherwise leaves the PDU to be freed |
| `Tasks.Framework.DiscardPdu` | _old/Framework/pdu_router/pdu_router.c:190-196 | frees the payload in hand |
| `Tasks.Framework.RouterTurn` | _old/Framework/pdu_router/pdu_router.c:59-131 | each piece of the router task is the step of the model, branch by branch |
| `Tasks.Framework.GatewayTurn` | _old/Framework/gateway/gateway.c:31-43 | each piece of the gateway task is the step of the model, including the branch that forgets a PDU |
| `Tasks.Framework.Forward` | _old/Framework/pdu_router/pdu_router.c:73-84 | for a data identifier the destination loop sends the message to each destination of the table entry that the identifier without its type bit numbers, once and in order, and to nobody if there is no such entry; its payload is still allocated afterwards |
| `Tasks.Framework.Interleave` | _old/Framework/pdu_router/pdu_router.c:59-131 | any interleaving of the pieces keeps the invariant for the real queues and heap |
| `Stages.DestsAt` | _old/Framework/pdu_router/pdu_router.c:73-80 | an identifier of 29 bits with the data bit picks the table entry numbered by its other bits, and none beyond the table |
| `Stages.DestsOf` | _old/Framework/pdu_router/pdu_router.c:75-80 | identifier 0x10000000 + k picks entry k |
| `Stages.KindsIff` | _old/Framework/pdu_router/pdu_router.c:73-108 | which bits make a PDU data, command or firmware: data before command before firmware |
| `Stages.InterruptedIff` | _old/Framework/interfaces/can/can.c:131-156 | a frame is taken if and only if fewer than five PDUs wait, given memory; otherwise nothing changes |
| `Stages.OfferedIff` | _old/Framework/config.h:21-26 | queues of five, ten and ten PDUs: below that a PDU is appended, at that it is left to be freed |
| `Ownership.BurstAccepted` | _old/Framework/interfaces/can/can.c:131-161 | while the router does not run, a burst of frames is accepted whole, in order and with its bytes, as long as no more than five come to wait |
| `Ownership.ImagePush` | _old/Framework/pdu_router/pdu_router.c:73-84 | each data message adds to the image one transmission to each entry of its table row |
| `Ownership.OnlyPush` | _old/Framework/pdu_router/pdu_router.c:88-108 | each message with the command bit and without the data bit, or with the firmware bit and neither, adds itself to those for the other tasks |
| `Ownership.StepKeeps` | _old/Framework/pdu_router/pdu_router.c:59-131 | every step of every task and interrupt keeps the invariant |
| `Ownership.OneOwner` | _old/Framework/pdu_router/pdu_router.c:59-131 | after every interleaving each allocated payload is in exactly one queue or hand and no other address in any; nothing was freed or read while not allocated; allocations less frees is what is held |
| `Ownership.Dispatched` | _old/Framework/pdu_router/pdu_router.c:73-122 | capacities are kept; the gateway queue holds only command PDUs, the firmware queue only firmware PDUs |
| `Ownership.GuardHolds` | _old/Framework/gateway/gateway.c:36-42 | the gateway task's guard is always true, so that the branch that forgets a PDU is never taken |
| `Resting.GatewayFrees` | _old/Framework/gateway/gateway.c:34-43 | whatever the others do meanwhile, the gateway task's next two turns read the message it received and give its payload back |
| `Ownership.Delivered` | _old/Framework/pdu_router/pdu_router.c:73-114 | what went out is the table's image of the accepted data frames in order and with their bytes; command and firmware frames reach their tasks in order, less those a full queue refused |
| `Resting.TurnWorks` | _old/Framework/pdu_router/pdu_router.c:59-131 | every step of a task or interrupt leaves strictly less to do |
| `Resting.QuietAll` | _old/Framework/pdu_router/pdu_router.c:88-114 | when nobody can make a step every accepted frame has reached its end, in order, or waits for the next firmware transfer |
| `Resting.QuietHeap` | _old/Framework/interfaces/can/can.c:204-263 | when nobody can make a step, exactly the payloads waiting in the firmware queue are allocated |
| `Resting.QuietEmptyIff` | _old/Framework/interfaces/can/can.c:204-263 | then nothing is allocated if and only if that queue is empty, as it is while a transfer runs |
| `Resting.StaleAnswer` | _old/Framework/interfaces/can/can.c:204-206 | one firmware frame received while no transfer runs stays allocated, and is the first answer the next transfer gets |
| `Resting.SchedulesEnd` | _old/Framework/pdu_router/pdu_router.c:59-131 | any schedule of turns costs a unit of work a turn, so none is longer than the work there is at its start |
| `Resting.ScheduleRests` | _old/Framework/pdu_router/pdu_router.c:59-131 | any schedule that cannot be continued has come to rest with only the firmware queue's payloads allocated |
| `Firmware.FramesCeiling` | _old/Framework/interfaces/can/can.c:230-257 | n bytes need n / 48 frames, rounded up |
| `Firmware.RoundTrip` | _old/Framework/interfaces/can/can.c:230-257 | the parts joined and cut to the file's length are the file, with only zeros after it; each frame is 64 bytes before encryption and ends with the nonce |
| `Firmware.TransferTells` | _old/Framework/interfaces/can/can.c:233-257 | for an injective encryption, two complete transfers look alike on the wire if and only if their files are equal when filled up with zeros to whole frames |
| `Firmware.SameFile` | _old/Framework/interfaces/can/can.c:233-257 | so files of one length are told apart |
| `Firmware.MessagesAt` | _old/Framework/interfaces/can/can.c:199-261 | the messages of a transfer are FF, then FC or FA, then the encrypted parts with the nonce as long as the file lasts, then FD |
| `Firmware.NonceIs` | _old/Framework/interfaces/can/can.c:219-222 | the nonce is the first 16 bytes of the answer to a secure BEGIN, and zero if the transfer is not secure |
| `Firmware.Updater.Seal` | _old/Framework/interfaces/can/can.c:235-245 | the buffer becomes the encryption of the zero-padded part and the nonce |
| `Firmware.Updater.UpdateFirmware` | _old/Framework/interfaces/can/can.c:180-270 | for all answers and timeouts the messages sent are the first k of the complete transfer; BEGIN is sent only after the answer C4, data only after any answer to a secure BEGIN or FF to another, and what follows a data frame only after C3; every payload received is freed once |
| `Firmware.PayloadsAre` | _old/Framework/interfaces/can/can.c:204-266 | the payloads freed are those of exactly the receive calls that yielded one, each once and in order |
| `Firmware.Updater.UpdateFirmwareAsWritten` | _old/Framework/interfaces/can/can.c:199-270 | with the exits as written: the same messages; an early exit returns the result of the last queue call, and the payload of that call is the one received payload never freed |
| `Firmware.SuccessIff` | _old/Framework/interfaces/can/can.c:199-269 | success exactly if RESET is answered C4, BEGIN is answered, with FF if not secure, every one of the data frames of the file is answered C3, and END C1 |
| `Firmware.EndedSays` | _old/Framework/interfaces/can/can.c:204-254 | however a transfer ends, each message but the last was answered with its code |
| `Firmware.EndedUnique` | _old/Framework/interfaces/can/can.c:199-269 | the answers alone decide how far a transfer gets and how it ends |
| `Firmware.AsWrittenStatusIff` | _old/Framework/interfaces/can/can.c:205-206 | the value returned as written is read rightly if and only if the first message not answered as it should be, if there is one, is answered at all |
| `Firmware.SilentSucceeds` | _old/Framework/interfaces/can/can.c:204-206 | an ECU that never answers fails every transfer, and as written the value returned is 0 |
| `Firmware.ConfusedLeaks` | _old/Framework/interfaces/can/can.c:204-206 | an ECU that answers wrongly fails it too, with a value that is read rightly and a payload that is never freed |
| `Answering.Answered` | _old/Framework/pdu_router/pdu_router.c:108-122 | over the pipeline, the n-th answer of a transfer is the n-th firmware frame that the firmware queue accepted, with its bytes; and the n-th of all firmware frames if that queue refused none |
| `Answering.StaleFails` | _old/Framework/interfaces/can/can.c:204-206 | one firmware frame that arrives before a transfer begins fails it at its first message, whatever the file and whatever happens afterwards |

## Left out

- Stack.Stack.RouteFrame: requires at most 255 registered destinations for its frame, because with more the counter byte releases the payload too early (`Overflow.Overrun`); what the C program does with a released payload afterwards is undefined and not modelled.
- Stack.Stack.RouterReceive: requires the same of all identifiers of the table (`Suits`), as do Stack.Stack.DatalinkReceive, Stack.Stack.DevLoopIn, Stack.Stack.RouterLoop, Stack.Stack.Run and both ticks; `Overflow.CountableIff` and `Overflow.Overrun` show that no weaker condition on the table would do. Receiving, sending and emptying require nothing of the table.
- Stack.Stack.DevicesLoop: requires it in the incoming direction only; its score is an unbounded integer, which only ever falls from its start, by at most the copies of one frame below zero, so the width of int plays no part.
- Startup.DeviceInit: takes the queue limits from the environment; the source leaves them 0, that is without limit, and has no operation that sets them.
- Queues.Queue.Empty: requires at most 256 sharers of each payload in the queue, beyond which its discards would release payloads too early.
- Stack.Stack.StackRecv: memory has room for fewer than 2^32 descriptors, so that the frame count of a queue without a limit does not reach the value at which it wraps.
- Frames.Memory.Copy: descriptors and payloads are entries of the maps in `Memory`, at explicit addresses, rather than objects and arrays of the proof language, so that use of a released address can be expressed.
- Firmware.Updater.UpdateFirmware: the encryption of section 6.2 of NIST SP 800-38A is an arbitrary length-preserving function and its result code is ignored, as in the source; reading past the end of a short answer yields arbitrary bytes.
- Firmware.AsWrittenStatusIff: the value of STATUS_SUCCESS is not in the repository and is taken to be 0.
- Tasks.Framework.Examine: what the gateway does with a command's bytes (GW_parsePDU) and what the updater makes of an answer is not part of the pipeline model; the latter is in `Firmware`.
- Tasks.Framework.BuildPdu: the receive buffer shared by all CAN instances is taken to hold the frame the handler was called for, and the frame filter, which lets everything pass, is left out.
- Destroying devices, registering them again, replacing the routing table, link state and device names.
- xcan_datalink_send, the poll operation, and the socket driver, whose send returns a byte count; it appears as the outcome of a send call.
- The heartbeat task, the ECU status switch, the console and all printing, the SD card and its file system (the firmware file is a byte sequence with a cursor), LIN and Ethernet stubs, the security module.
- FreeRTOS itself: queues are bounded sequences with atomic operations, and a task waiting for an empty queue simply makes no step. Nothing empties the firmware queue between transfers, as in the source, where the only call that leads to CAN_updateFirmware is commented out (_old/Sources/main.c:193).
- Real time: a timeout is one possible answer to a receive call.
