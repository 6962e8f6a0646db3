/**
 * The gateway firmware's PDU pipeline (_old/Framework): the CAN interrupt handler, the PDU
 * router, the gateway task and the firmware updater, which pass payloads to each other through
 * three bounded queues. One event is one step that nothing else can cut into; a run is any
 * interleaving of them.
 */
module Stages {
  import opened Base

  const PDU_ID_MASK_TYPE_DATA: bv32 := 0x1000_0000
  const PDU_ID_MASK_TYPE_CMD: bv32 := 0x0800_0000
  const PDU_ID_MASK_TYPE_FW: bv32 := 0x0400_0000

  /** Tasks, and the queues they read. Agents from TASKS on are activations of the interrupt handler. */
  const ROUTER: int := 0
  const GATEWAY: int := 1
  const UPDATER: int := 2
  const TASKS: int := 3

  /** PDU_QUEUE_SIZE, GW_QUEUE_SIZE and FW_QUEUE_SIZE */
  function Capacity(l: int): nat {
    if l == ROUTER then 5 else 10
  }

  datatype Kind = Data | Command | Update | Other

  /** The type of a PDU: the first of the three bits that is set. */
  function KindOf(id: bv32): Kind {
    if id & PDU_ID_MASK_TYPE_DATA != 0 then Data
    else if id & PDU_ID_MASK_TYPE_CMD != 0 then Command
    else if id & PDU_ID_MASK_TYPE_FW != 0 then Update
    else Other
  }

  predicate IsCommand(id: bv32) {
    id & PDU_ID_MASK_TYPE_CMD != 0
  }

  /** A PDU as the queues hold it, with the address of its payload. */
  datatype Pdu = Pdu(id: bv32, length: byte, data: int)

  /** What a PDU says. */
  datatype Message = Message(id: bv32, bytes: Payload)

  /** What a PDU says over a heap. */
  function Text(heap: map<int, Payload>, pdu: Pdu): Message {
    Message(pdu.id,
            if pdu.data in heap && pdu.length as int <= |heap[pdu.data]| then heap[pdu.data][..pdu.length] else [])
  }

  function Texts(heap: map<int, Payload>, q: seq<Pdu>): seq<Message> {
    if |q| == 0 then [] else Texts(heap, q[..|q| - 1]) + [Text(heap, q[|q| - 1])]
  }

  /**
   * Local variables of an agent: the PDU it works on and the message this had when the agent got
   * hold of it, the destinations served so far, and whether only freeing it is left to do.
   */
  datatype Hand = Idle | Busy(pdu: Pdu, message: Message, sent: nat, done: bool)

  datatype Offer = Offer(message: Message, accepted: bool)

  /** A queue, and its history: messages offered to it, taken from it, and read by the taker. */
  datatype Lane = Lane(queue: seq<Pdu>, offers: seq<Offer>, taken: seq<Message>, read: seq<Message>)

  /** A message passed to ECU_sendPDU. */
  datatype Transmission = Transmission(ecu: byte, message: Message)

  /** `updating`: a firmware transfer runs; `faults`: payloads freed or read while not allocated. */
  datatype State = State(
    heap: map<int, Payload>,
    hands: seq<Hand>,
    lanes: seq<Lane>,
    bus: seq<Transmission>,
    updating: bool,
    allocs: nat,
    frees: nat,
    faults: nat
  )

  predicate Shape(st: State) {
    |st.hands| >= TASKS && |st.lanes| == TASKS
  }

  predicate HandAt(st: State, k: int) {
    Shape(st) && 0 <= k < |st.hands| && st.hands[k].Busy?
  }

  /** The destinations of a data PDU. Repair: an identifier beyond the table has none. */
  function Dests(tbl: seq<seq<byte>>, id: bv32): seq<byte> {
    if Index(id) < |tbl| then tbl[Index(id)] else []
  }

  /** The identifier without its type bit. */
  function Index(id: bv32): nat {
    (id & !PDU_ID_MASK_TYPE_DATA) as int
  }

  /** A step that touches the local variables of agent `k` only. */
  predicate OnlyHand(st: State, r: State, k: int) {
    && |r.hands| == |st.hands|
    && if 0 <= k < |st.hands| then r.hands == st.hands[k := r.hands[k]] else r.hands == st.hands
  }

  // ---------------------------------------------------------------- the steps

  /**
   * CAN_buildPDU up to its queue call, by the idle activation `k`: `at` is what malloc returns.
   * Repair: a frame is dropped when malloc fails.
   */
  function Interrupted(st: State, k: int, m: Message, at: Option<int>): (r: State)
    requires Shape(st)
    ensures Shape(r) && OnlyHand(st, r, k)
  {
    if !(TASKS <= k < |st.hands|) || st.hands[k].Busy? || |st.lanes[ROUTER].queue| >= Capacity(ROUTER) then st
    else if at.None? || at.value in st.heap then st
    else
      var pdu := Pdu(m.id, |m.bytes| as byte, at.value);
      st.(heap := st.heap[at.value := m.bytes], hands := st.hands[k := Busy(pdu, m, 0, false)], allocs := st.allocs + 1)
  }

  /** xQueueReceive by task `k`, from a queue that is not empty. */
  function Taken(st: State, k: int): (r: State)
    requires Shape(st) && 0 <= k < TASKS && |st.lanes[k].queue| > 0
    ensures Shape(r) && OnlyHand(st, r, k)
  {
    var lane := st.lanes[k];
    var m := Text(st.heap, lane.queue[0]);
    st.(lanes := st.lanes[k := lane.(queue := lane.queue[1..], taken := lane.taken + [m])],
        hands := st.hands[k := Busy(lane.queue[0], m, 0, false)])
  }

  /** xQueueSendToBack of the PDU of agent `k` to queue `l`, without waiting; a full queue refuses it. */
  function Offered(st: State, k: int, l: int): (r: State)
    requires HandAt(st, k) && 0 <= l < TASKS
    ensures Shape(r) && OnlyHand(st, r, k)
  {
    var lane, hand := st.lanes[l], st.hands[k];
    if |lane.queue| < Capacity(l) then
      st.(lanes := st.lanes[l := lane.(queue := lane.queue + [hand.pdu],
                                       offers := lane.offers + [Offer(hand.message, true)])],
          hands := st.hands[k := Idle])
    else
      st.(lanes := st.lanes[l := lane.(offers := lane.offers + [Offer(hand.message, false)])],
          hands := st.hands[k := hand.(done := true)])
  }

  /** A read of the payload of agent `k`. */
  function Touched(st: State, k: int): (r: State)
    requires HandAt(st, k)
    ensures Shape(r) && HandAt(r, k) && r.hands == st.hands
  {
    if st.hands[k].pdu.data in st.heap then st else st.(faults := st.faults + 1)
  }

  /** ECU_sendPDU to one destination. */
  function Sent(st: State, k: int, ecu: byte): (r: State)
    requires HandAt(st, k)
    ensures Shape(r) && OnlyHand(st, r, k)
  {
    var hand := st.hands[k];
    Touched(st, k).(bus := st.bus + [Transmission(ecu, Text(st.heap, hand.pdu))],
                    hands := st.hands[k := hand.(sent := hand.sent + 1)])
  }

  /** Nothing but freeing is left to do. */
  function Finished(st: State, k: int): (r: State)
    requires HandAt(st, k)
    ensures Shape(r) && OnlyHand(st, r, k)
  {
    st.(hands := st.hands[k := st.hands[k].(done := true)])
  }

  /** The task reads what it took. */
  function Read(st: State, k: int): (r: State)
    requires HandAt(st, k) && k < TASKS
    ensures Shape(r) && OnlyHand(st, r, k)
  {
    var lane := st.lanes[k];
    var m := Text(st.heap, st.hands[k].pdu);
    Finished(Touched(st, k).(lanes := st.lanes[k := lane.(read := lane.read + [m])]), k)
  }

  /** PDU_discardPDU, or free */
  function Freed(st: State, k: int): (r: State)
    requires HandAt(st, k)
    ensures Shape(r) && OnlyHand(st, r, k)
  {
    var a := st.hands[k].pdu.data;
    var idle := st.hands[k := Idle];
    if a in st.heap then st.(heap := st.heap - {a}, hands := idle, frees := st.frees + 1)
    else st.(hands := idle, faults := st.faults + 1)
  }

  /** The PDU is forgotten without being freed. */
  function Lost(st: State, k: int): (r: State)
    requires HandAt(st, k)
    ensures Shape(r) && OnlyHand(st, r, k)
  {
    st.(hands := st.hands[k := Idle])
  }

  /** PDU_Task with a PDU in hand: one destination, one queue call, or the end of its turn. */
  function RouterStep(tbl: seq<seq<byte>>, st: State): (r: State)
    requires HandAt(st, ROUTER)
    ensures Shape(r) && OnlyHand(st, r, ROUTER)
  {
    var hand := st.hands[ROUTER];
    var ds := Dests(tbl, hand.pdu.id);
    match KindOf(hand.pdu.id)
    case Data => if hand.sent < |ds| then Sent(st, ROUTER, ds[hand.sent]) else Finished(st, ROUTER)
    case Command => Offered(st, ROUTER, GATEWAY)
    case Update => Offered(st, ROUTER, UPDATER)
    case Other => Finished(st, ROUTER)
  }

  /** Agent `k` has something to do. The firmware queue is read only while a transfer runs. */
  predicate Ready(st: State, k: int) {
    && Shape(st) && 0 <= k < |st.hands|
    && (st.hands[k].Busy? || (k < TASKS && |st.lanes[k].queue| > 0 && (k == UPDATER ==> st.updating)))
  }

  /** The next step of agent `k`, if it can make one. */
  function Act(tbl: seq<seq<byte>>, st: State, k: int): (r: State)
    requires Shape(st)
    ensures Shape(r) && OnlyHand(st, r, k)
  {
    if !Ready(st, k) then st
    else if st.hands[k].Idle? then Taken(st, k)
    else if st.hands[k].done then Freed(st, k)
    else if k == ROUTER then RouterStep(tbl, st)
    else if k == GATEWAY then if IsCommand(st.hands[k].pdu.id) then Read(st, k) else Lost(st, k)
    else if k == UPDATER then Read(st, k)
    else Offered(st, k, ROUTER)
  }

  datatype Event =
    | Interrupt(isr: int, message: Message, at: Option<int>)
    | Turn(agent: int)
    | Begin      // CAN_updateFirmware is called
    | End        // and returns: at a timeout, a wrong answer, or after END

  function Step(tbl: seq<seq<byte>>, st: State, e: Event): (r: State)
    requires Shape(st)
    ensures Shape(r)
  {
    match e
    case Interrupt(k, m, at) => Interrupted(st, k, m, at)
    case Turn(k) => Act(tbl, st, k)
    case Begin => st.(updating := true)
    case End => if st.hands[UPDATER].Idle? then st.(updating := false) else st
  }

  function Run(tbl: seq<seq<byte>>, st: State, es: seq<Event>): (r: State)
    requires Shape(st)
    ensures Shape(r)
  {
    if |es| == 0 then st else Step(tbl, Run(tbl, st, es[..|es| - 1]), es[|es| - 1])
  }

  const EMPTY: Lane := Lane([], [], [], [])

  /** Empty queues, idle agents, `levels` of nested interrupts possible. */
  function Initial(levels: nat): State {
    State(map[], seq(TASKS + levels, _ => Idle), [EMPTY, EMPTY, EMPTY], [], false, 0, 0, 0)
  }

  // ---------------------------------------------------------------- identifiers and limits

  /** The type bits of an identifier: data before command before firmware. */
  lemma KindsIff(id: bv32)
    ensures KindOf(id) == Data <==> id & 0x1000_0000 != 0
    ensures KindOf(id) == Command <==> id & 0x1000_0000 == 0 && id & 0x0800_0000 != 0
    ensures KindOf(id) == Update <==> id & 0x1000_0000 == 0 && id & 0x0800_0000 == 0 && id & 0x0400_0000 != 0
    ensures id <= 0xFF ==> KindOf(0x0800_0000 | id) == Command && KindOf(0x0400_0000 | id) == Update
  {
  }

  lemma Masked(id: bv32)
    requires 0x1000_0000 <= id < 0x2000_0000
    ensures id & !PDU_ID_MASK_TYPE_DATA == id - 0x1000_0000
    ensures KindOf(id) == Data
  {
  }

  lemma Lessened(id: bv32)
    requires 0x1000_0000 <= id < 0x2000_0000
    ensures (id - 0x1000_0000) as int == id as int - 0x1000_0000
  {
  }

  lemma Range(id: bv32)
    requires 0x1000_0000 <= id as int < 0x2000_0000
    ensures 0x1000_0000 <= id < 0x2000_0000
  {
    if id < 0x1000_0000 {
      Small(id);
    } else if id >= 0x2000_0000 {
      Large(id);
    }
  }

  lemma Small(id: bv32)
    requires id < 0x1000_0000
    ensures id as int < 0x1000_0000
  {
    assert (id + 0xF000_0000) as int == id as int + 0xF000_0000;
  }

  lemma Large(id: bv32)
    requires id >= 0x2000_0000
    ensures id as int >= 0x2000_0000
  {
  }

  /** With the data bit removed, an identifier of 29 bits is the number of a table entry. */
  lemma IndexIs(id: bv32)
    requires 0x1000_0000 <= id as int < 0x2000_0000
    ensures Index(id) == id as int - 0x1000_0000
    ensures KindOf(id) == Data
  {
    Range(id);
    Masked(id);
    Lessened(id);
  }

  /**
   * An identifier of 29 bits with the data bit set picks the table entry that the other bits
   * number, and none if the table has no such entry.
   */
  lemma DestsAt(tbl: seq<seq<byte>>, id: bv32)
    requires 0x1000_0000 <= id as int < 0x2000_0000
    ensures KindOf(id) == Data
    ensures id as int - 0x1000_0000 < |tbl| ==> Dests(tbl, id) == tbl[id as int - 0x1000_0000]
    ensures id as int - 0x1000_0000 >= |tbl| ==> Dests(tbl, id) == []
  {
    IndexIs(id);
  }

  /** The table entry that a number names. */
  function Row(tbl: seq<seq<byte>>, i: int): seq<byte> {
    if 0 <= i < |tbl| then tbl[i] else []
  }

  lemma DestsRow(tbl: seq<seq<byte>>, id: bv32, i: int)
    requires id as int == 0x1000_0000 + i && 0 <= i < 0x1000_0000
    ensures KindOf(id) == Data && Dests(tbl, id) == Row(tbl, i)
  {
    DestsAt(tbl, id);
  }

  lemma Widened(k: nat)
    requires k < 0x1000_0000
    ensures (0x1000_0000 + k) as bv32 as int == 0x1000_0000 + k
  {
  }

  lemma DestsOf(tbl: seq<seq<byte>>, k: nat)
    requires k < |tbl| && k < 0x1000_0000
    ensures Dests(tbl, (0x1000_0000 + k) as bv32) == tbl[k]
  {
    Widened(k);
    DestsAt(tbl, (0x1000_0000 + k) as bv32);
  }

  /**
   * An idle activation takes the frame it was called for if and only if fewer than five PDUs
   * wait for the router, provided that malloc has memory; and otherwise nothing happens.
   */
  lemma InterruptedIff(st: State, k: int, m: Message, a: int)
    requires Shape(st) && TASKS <= k < |st.hands| && st.hands[k].Idle? && a !in st.heap
    ensures var r := Interrupted(st, k, m, Some(a));
      && (|st.lanes[ROUTER].queue| < 5 ==>
            && r.heap == st.heap[a := m.bytes] && r.allocs == st.allocs + 1 && r.lanes == st.lanes
            && r.hands[k] == Busy(Pdu(m.id, |m.bytes| as byte, a), m, 0, false))
      && (|st.lanes[ROUTER].queue| >= 5 ==> r == st)
    ensures Interrupted(st, k, m, None) == st
  {
  }

  /** A transfer starts at any time, and ends when the updater holds nothing. */
  lemma TransferIff(tbl: seq<seq<byte>>, st: State)
    requires Shape(st)
    ensures Step(tbl, st, Begin) == st.(updating := true)
    ensures st.hands[2].Idle? ==> Step(tbl, st, End) == st.(updating := false)
    ensures st.hands[2].Busy? ==> Step(tbl, st, End) == st
  {
  }

  /** A queue takes a PDU if and only if it holds fewer than five, or ten for the second and third. */
  lemma OfferedIff(st: State, k: int, l: int)
    requires HandAt(st, k) && 0 <= l < TASKS
    ensures var r, q := Offered(st, k, l), st.lanes[l].queue;
      if |q| < (if l == 0 then 5 else 10) then
        r.lanes[l].queue == q + [st.hands[k].pdu] && r.hands[k].Idle?
      else
        r.lanes[l].queue == q && r.hands[k] == st.hands[k].(done := true)
  {
  }
}
