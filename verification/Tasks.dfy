/**
 * The code of the PDU pipeline: the bodies of PDU_Task, Gateway_Task, the firmware updater's
 * receive and free, and CAN_buildPDU over the queues and the heap they share, cut at the points
 * where another task or interrupt may come in. Each piece is proved to be a step of Stages.
 */
module Tasks {
  import opened Base
  import opened Stages
  import opened Ownership

  class Framework {
    const descriptors: seq<seq<byte>>      // PDU_Descriptors: destinations by identifier
    var heap: map<int, Payload>            // allocated payloads
    var pduQueue: seq<Pdu>
    var gatewayQueue: seq<Pdu>
    var fwUpdateQueue: seq<Pdu>
    var updating: bool                     // a firmware transfer runs
    var locals: seq<Hand>                  // local variables of the tasks and the interrupt handler
    var bus: seq<Transmission>
    ghost var now: State                   // the state as Stages sees it

    ghost predicate Valid()
      reads this
    {
      && Shape(now)
      && heap == now.heap && locals == now.hands && bus == now.bus && updating == now.updating
      && pduQueue == now.lanes[ROUTER].queue
      && gatewayQueue == now.lanes[GATEWAY].queue
      && fwUpdateQueue == now.lanes[UPDATER].queue
    }

    /** PDU_initialise and GW_initialise, with `levels` of nested interrupts. */
    constructor (descriptors: seq<seq<byte>>, levels: nat)
      ensures Valid() && this.descriptors == descriptors && now == Initial(levels) && Good(descriptors, now)
    {
      InitialGood(descriptors, levels);
      this.descriptors, heap, bus, updating := descriptors, map[], [], false;
      pduQueue, gatewayQueue, fwUpdateQueue := [], [], [];
      locals := seq(TASKS + levels, _ => Idle);
      now := Initial(levels);
    }

    /**
     * CAN_buildPDU up to its queue call; `at` is the result of malloc. Repair: when malloc
     * fails the frame is dropped.
     */
    method BuildPdu(k: int, frame: Message, at: Option<int>)
      requires Valid()
      modifies this
      ensures Valid() && now == Interrupted(old(now), k, frame, at)
      ensures TASKS <= k < |old(locals)| && old(locals)[k].Idle? && at.Some? && at.value !in old(heap) ==>
        if |old(pduQueue)| < 5 then
          heap == old(heap)[at.value := frame.bytes] && locals[k].Busy? && locals[k].message == frame
        else
          heap == old(heap) && locals == old(locals)
    {
      if TASKS <= k < |locals| && locals[k].Idle? && |pduQueue| < 5 {
        if at.Some? && at.value !in heap {
          locals := locals[k := Busy(Pdu(frame.id, |frame.bytes| as byte, at.value), frame, 0, false)];
          heap := heap[at.value := frame.bytes];
        }
      }
      now := Interrupted(now, k, frame, at);
    }

    /** xQueueReceive from the queue of task `k`, which waits while it is empty. */
    method QueueReceive(k: int)
      requires Valid() && 0 <= k < TASKS && locals[k].Idle?
      modifies this
      ensures Valid() && now == Act(descriptors, old(now), k)
    {
      ghost var next := Act(descriptors, now, k);
      if k == ROUTER && |pduQueue| > 0 {
        locals := locals[k := Busy(pduQueue[0], Text(heap, pduQueue[0]), 0, false)];
        pduQueue := pduQueue[1..];
      } else if k == GATEWAY && |gatewayQueue| > 0 {
        locals := locals[k := Busy(gatewayQueue[0], Text(heap, gatewayQueue[0]), 0, false)];
        gatewayQueue := gatewayQueue[1..];
      } else if k == UPDATER && updating && |fwUpdateQueue| > 0 {
        locals := locals[k := Busy(fwUpdateQueue[0], Text(heap, fwUpdateQueue[0]), 0, false)];
        fwUpdateQueue := fwUpdateQueue[1..];
      }
      now := next;
    }

    /** xQueueSendToBack without waiting; if the queue is full the PDU has to be discarded. */
    method QueueSendToBack(k: int, l: int)
      requires Valid() && HandAt(now, k) && 0 <= l < TASKS
      modifies this
      ensures Valid() && now == Offered(old(now), k, l)
      ensures l == 0 ==> pduQueue == old(pduQueue) + if |old(pduQueue)| < 5 then [old(locals)[k].pdu] else []
      ensures l == 1 ==>
        gatewayQueue == old(gatewayQueue) + if |old(gatewayQueue)| < 10 then [old(locals)[k].pdu] else []
      ensures l == 2 ==>
        fwUpdateQueue == old(fwUpdateQueue) + if |old(fwUpdateQueue)| < 10 then [old(locals)[k].pdu] else []
    {
      ghost var next := Offered(now, k, l);
      var pdu := locals[k].pdu;
      var sent := true;
      if l == ROUTER && |pduQueue| < 5 {
        pduQueue := pduQueue + [pdu];
      } else if l == GATEWAY && |gatewayQueue| < 10 {
        gatewayQueue := gatewayQueue + [pdu];
      } else if l == UPDATER && |fwUpdateQueue| < 10 {
        fwUpdateQueue := fwUpdateQueue + [pdu];
      } else {
        sent := false;
      }
      locals := locals[k := if sent then Idle else locals[k].(done := true)];
      now := next;
    }

    /** PDU_discardPDU */
    method DiscardPdu(k: int)
      requires Valid() && HandAt(now, k)
      modifies this
      ensures Valid() && now == Freed(old(now), k)
    {
      ghost var next := Freed(now, k);
      heap := heap - {locals[k].pdu.data};
      locals := locals[k := Idle];
      now := next;
    }

    /** ECU_sendPDU */
    method SendPdu(k: int, ecu: byte)
      requires Valid() && HandAt(now, k)
      modifies this
      ensures Valid() && now == Sent(old(now), k, ecu)
    {
      ghost var next := Sent(now, k, ecu);
      bus := bus + [Transmission(ecu, Text(heap, locals[k].pdu))];
      locals := locals[k := locals[k].(sent := locals[k].sent + 1)];
      now := next;
    }

    /** What a task does with a payload between receiving and freeing it. */
    method Examine(k: int) returns (m: Message)
      requires Valid() && HandAt(now, k) && k < TASKS
      modifies this
      ensures Valid() && now == Read(old(now), k) && m == Text(old(heap), old(locals)[k].pdu)
    {
      ghost var next := Read(now, k);
      m := Text(heap, locals[k].pdu);
      locals := locals[k := locals[k].(done := true)];
      now := next;
    }

    /** One piece of the loop of PDU_Task. */
    method RouterTurn()
      requires Valid()
      modifies this
      ensures Valid() && now == Act(descriptors, old(now), ROUTER)
    {
      if locals[ROUTER].Idle? {
        QueueReceive(ROUTER);
      } else if locals[ROUTER].done {
        DiscardPdu(ROUTER);
      } else {
        var pdu, i := locals[ROUTER].pdu, locals[ROUTER].sent;
        if pdu.id & PDU_ID_MASK_TYPE_DATA != 0 {
          var dest := Dests(descriptors, pdu.id);
          if i < |dest| {
            SendPdu(ROUTER, dest[i]);
          } else {
            MarkDone(ROUTER);
          }
        } else if pdu.id & PDU_ID_MASK_TYPE_CMD != 0 {
          QueueSendToBack(ROUTER, GATEWAY);
        } else if pdu.id & PDU_ID_MASK_TYPE_FW != 0 {
          QueueSendToBack(ROUTER, UPDATER);
        } else {
          MarkDone(ROUTER);
        }
      }
    }

    method MarkDone(k: int)
      requires Valid() && HandAt(now, k)
      modifies this
      ensures Valid() && now == Finished(old(now), k)
    {
      ghost var next := Finished(now, k);
      locals := locals[k := locals[k].(done := true)];
      now := next;
    }

    /** One piece of the loop of Gateway_Task: without the command bit the PDU is simply forgotten. */
    method GatewayTurn()
      requires Valid()
      modifies this
      ensures Valid() && now == Act(descriptors, old(now), GATEWAY)
    {
      if locals[GATEWAY].Idle? {
        QueueReceive(GATEWAY);
      } else if locals[GATEWAY].done {
        DiscardPdu(GATEWAY);
      } else if locals[GATEWAY].pdu.id & PDU_ID_MASK_TYPE_CMD != 0 {
        var m := Examine(GATEWAY);
      } else {
        ghost var next := Lost(now, GATEWAY);
        locals := locals[GATEWAY := Idle];
        now := next;
      }
    }

    /** One piece of a firmware update: receive, look at the answer, free. */
    method UpdaterTurn()
      requires Valid()
      modifies this
      ensures Valid() && now == Act(descriptors, old(now), UPDATER)
    {
      if locals[UPDATER].Idle? {
        QueueReceive(UPDATER);
      } else if locals[UPDATER].done {
        DiscardPdu(UPDATER);
      } else {
        var m := Examine(UPDATER);
      }
    }

    /** The rest of CAN_buildPDU: the queue call, and the free if it failed. */
    method InterruptTurn(k: int)
      requires Valid() && TASKS <= k < |locals|
      modifies this
      ensures Valid() && now == Act(descriptors, old(now), k)
    {
      if locals[k].Busy? {
        if locals[k].done {
          DiscardPdu(k);
        } else {
          QueueSendToBack(k, ROUTER);
        }
      }
    }

    /** CAN_updateFirmware is called. */
    method BeginUpdate()
      requires Valid()
      modifies this
      ensures Valid() && now == Step(descriptors, old(now), Begin)
    {
      updating := true;
      now := Step(descriptors, now, Begin);
    }

    /** CAN_updateFirmware returns, holding nothing. */
    method EndUpdate()
      requires Valid()
      modifies this
      ensures Valid() && now == Step(descriptors, old(now), End)
    {
      if locals[UPDATER].Idle? {
        updating := false;
      }
      now := Step(descriptors, now, End);
    }

    method Perform(e: Event)
      requires Valid()
      modifies this
      ensures Valid() && now == Step(descriptors, old(now), e)
    {
      match e
      case Interrupt(k, frame, at) => BuildPdu(k, frame, at);
      case Turn(k) =>
        if k == ROUTER {
          RouterTurn();
        } else if k == GATEWAY {
          GatewayTurn();
        } else if k == UPDATER {
          UpdaterTurn();
        } else if TASKS <= k < |locals| {
          InterruptTurn(k);
        }
      case Begin => BeginUpdate();
      case End => EndUpdate();
    }

    /** Any interleaving, piece by piece, keeps the invariant of Ownership for the real queues and heap. */
    method Interleave(es: seq<Event>)
      requires Valid() && Good(descriptors, now)
      modifies this
      ensures Valid() && Good(descriptors, now) && now == Run(descriptors, old(now), es)
    {
      RunKeeps(descriptors, now, es);
      var k := 0;
      assert es[..0] == [];
      while k < |es|
        invariant 0 <= k <= |es| && Valid() && now == Run(descriptors, old(now), es[..k])
      {
        assert es[..k + 1][..k] == es[..k];
        Perform(es[k]);
        k := k + 1;
      }
      assert es[..k] == es;
    }

    /** One turn of the loop below. */
    method ForwardOne(dest: seq<byte>, ghost m: Message)
      requires Valid() && Good(descriptors, now) && HandAt(now, ROUTER) && m == Text(heap, locals[ROUTER].pdu)
      requires KindOf(locals[ROUTER].pdu.id) == Data && !locals[ROUTER].done
      requires dest == Dests(descriptors, locals[ROUTER].pdu.id) && locals[ROUTER].sent < |dest|
      modifies this
      ensures Valid() && Good(descriptors, now) && HandAt(now, ROUTER)
      ensures heap == old(heap) && locals[ROUTER] == old(locals)[ROUTER].(sent := old(locals)[ROUTER].sent + 1)
      ensures var i := old(locals)[ROUTER].sent;
        Fanout(m, dest[..i + 1]) == Fanout(m, dest[..i]) + [Transmission(dest[i], m)]
        && bus == old(bus) + [Transmission(dest[i], m)]
    {
      var i := locals[ROUTER].sent;
      assert dest[..i + 1][..i] == dest[..i];
      SendKeeps(descriptors, now);
      SendPdu(ROUTER, dest[i]);
    }

    /**
     * The loop over the destinations of a data PDU, run without interruption: the message goes
     * to each destination of table entry `i`, which its identifier numbers, once and in table
     * order, and its payload is still allocated afterwards.
     */
    method Forward(i: int)
      requires Valid() && Good(descriptors, now) && HandAt(now, ROUTER)
      requires locals[ROUTER].pdu.id as int == 0x1000_0000 + i && 0 <= i < 0x1000_0000
      requires locals[ROUTER].sent == 0 && !locals[ROUTER].done
      modifies this
      ensures Valid() && Good(descriptors, now) && HandAt(now, ROUTER)
      ensures var m := Text(old(heap), old(locals)[ROUTER].pdu);
        bus == old(bus) + if i < |descriptors| then Fanout(m, descriptors[i]) else []
      ensures heap == old(heap) && locals[ROUTER].pdu == old(locals)[ROUTER].pdu
      ensures locals[ROUTER].pdu.data in heap
    {
      DestsRow(descriptors, locals[ROUTER].pdu.id, i);
      ForwardAll();
    }

    /** The same for any identifier with the data bit. */
    method ForwardAll()
      requires Valid() && Good(descriptors, now) && HandAt(now, ROUTER)
      requires KindOf(locals[ROUTER].pdu.id) == Data && locals[ROUTER].sent == 0 && !locals[ROUTER].done
      modifies this
      ensures Valid() && Good(descriptors, now) && HandAt(now, ROUTER)
      ensures var m := Text(old(heap), old(locals)[ROUTER].pdu);
        bus == old(bus) + Fanout(m, Dests(descriptors, m.id))
      ensures heap == old(heap) && locals[ROUTER].pdu == old(locals)[ROUTER].pdu
      ensures locals[ROUTER].pdu.data in heap
    {
      ghost var st, m := now, Text(heap, locals[ROUTER].pdu);
      var dest := Dests(descriptors, locals[ROUTER].pdu.id);
      assert dest[..0] == [];
      while locals[ROUTER].sent < |dest|
        invariant Valid() && Good(descriptors, now) && HandAt(now, ROUTER)
        invariant heap == old(heap) && locals[ROUTER].pdu == old(locals)[ROUTER].pdu && !locals[ROUTER].done
        invariant locals[ROUTER].sent <= |dest|
        invariant bus == old(bus) + Fanout(m, dest[..locals[ROUTER].sent])
        decreases |dest| - locals[ROUTER].sent
      {
        ForwardOne(dest, m);
      }
      assert dest[..|dest|] == dest;
      HeldIsLive(descriptors, now, ROUTER);
    }
  }
}
