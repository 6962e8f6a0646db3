/**
 * What the stack does, seen from outside its memory: for every device slot the frames waiting,
 * accepted, refused, sent and dropped, as values. The environment decides each allocation and
 * each transmission by its index, so that every behaviour of both is one choice of `Env`.
 */
module Routing {
  import opened Base
  import opened Frames
  import opened Queues

  /** XCAN_MAX_DEVICES */
  const SLOTS: int := 4

  /** Loop directions of stack/xcan_stack.c. */
  const DIR_IN: int := 0
  const DIR_OUT: int := 1

  /** An entry of the routing table; an identifier may have several. */
  datatype Entry = Entry(canId: uint32, interfaces: seq<byte>)

  datatype Env = Env(
    grant: nat -> bool,              // does the n-th allocation call succeed
    capacity: nat,                   // descriptors the memory has room for
    link: int -> (nat -> bool),      // does the n-th send call of a device succeed
    inLimit: int -> uint32,          // queue limits of a device, 0 for none
    outLimit: int -> uint32
  )

  datatype Verdict = Accepted | QueueFull | NoMemory

  /** A copy offered to a device queue, and what became of it. */
  datatype Offer = Offer(
    pkt: Packet,
    verdict: Verdict,
    left: nat,                   // frames that had left that queue by then
    call: nat,                   // the allocation call made for it
    live: int                    // descriptors alive before that
  )

  /** A frame that left a queue: served (routed or sent), or dropped by emptying the queue. */
  datatype Departure = Departure(pkt: Packet, served: bool)

  datatype Port = Port(
    inq: seq<Packet>,            // waiting to be routed
    arrived: seq<Packet>,        // all that ever entered inq
    taken: seq<Departure>,       // all that ever left inq
    outq: seq<Packet>,           // waiting to be sent
    offers: seq<Offer>,          // all copies ever offered to outq
    gone: seq<Departure>,        // all that ever left outq
    attempts: nat                // send calls made
  )

  /** Registered devices by slot; allocation calls, live descriptors; frames routed, in order. */
  datatype Net = Net(ports: map<int, Port>, tick: nat, used: int, routed: seq<Packet>)

  /** A state with a number: a loop score, a count of copies or a return value. */
  datatype Outcome = Outcome(net: Net, n: int)

  /** What waits at device `d`; nothing in a slot without a device. */
  function InQ(net: Net, d: int): seq<Packet> {
    if d in net.ports then net.ports[d].inq else []
  }

  function OutQ(net: Net, d: int): seq<Packet> {
    if d in net.ports then net.ports[d].outq else []
  }

  // ---------------------------------------------------------------- stack/xcan_router.c

  /** The interfaces a frame goes to: those of every matching entry, in table order. */
  function Dests(tbl: seq<Entry>, id: uint32): seq<byte> {
    if |tbl| == 0 then []
    else
      var last := tbl[|tbl| - 1];
      Dests(tbl[..|tbl| - 1], id) + if last.canId == id then last.interfaces else []
  }

  /** How many destinations the entries before entry `e` contribute. */
  function Before(tbl: seq<Entry>, id: uint32, e: nat): nat
    requires e <= |tbl|
  {
    if e == 0 then 0
    else Before(tbl, id, e - 1) + if tbl[e - 1].canId == id then |tbl[e - 1].interfaces| else 0
  }

  lemma {:induction false} BeforePrefix(tbl: seq<Entry>, id: uint32, e: nat, n: nat)
    requires e <= n <= |tbl|
    ensures Before(tbl[..n], id, e) == Before(tbl, id, e)
  {
    if e > 0 {
      BeforePrefix(tbl, id, e - 1, n);
    }
  }

  /** The destinations are the interfaces of all matching entries and no others... */
  lemma {:induction false} DestsWhole(tbl: seq<Entry>, id: uint32)
    ensures |Dests(tbl, id)| == Before(tbl, id, |tbl|)
  {
    if |tbl| > 0 {
      DestsWhole(tbl[..|tbl| - 1], id);
      BeforePrefix(tbl, id, |tbl| - 1, |tbl| - 1);
    }
  }

  /** ...in table order, and within an entry in the order of its list. */
  lemma {:induction false} DestsEntry(tbl: seq<Entry>, id: uint32, e: nat, j: nat)
    requires e < |tbl| && tbl[e].canId == id && j < |tbl[e].interfaces|
    ensures Before(tbl, id, e) + j < |Dests(tbl, id)|
    ensures Dests(tbl, id)[Before(tbl, id, e) + j] == tbl[e].interfaces[j]
  {
    var n := |tbl| - 1;
    BeforePrefix(tbl, id, e, n);
    if e < n {
      DestsEntry(tbl[..n], id, e, j);
    } else {
      DestsWhole(tbl[..n], id);
      BeforePrefix(tbl, id, n, n);
    }
  }

  predicate Room(env: Env, net: Net) {
    net.used < env.capacity && env.grant(net.tick)
  }

  /** What becomes of a copy offered to a queue of `held` frames: no memory for it, no place, or accepted. */
  function Ruling(env: Env, d: int, held: nat, call: nat, live: int): Verdict {
    if !(live < env.capacity && env.grant(call)) then NoMemory
    else if Full(env.outLimit(d), held) then QueueFull
    else Accepted
  }

  /** When there is no room or the allocation call fails, there is no copy; else the queue limit decides. */
  lemma RulingIff(env: Env, d: int, held: nat, call: nat, live: int)
    ensures var v := Ruling(env, d, held, call, live);
      && (v == NoMemory <==> live >= env.capacity || !env.grant(call))
      && (v == QueueFull <==>
            live < env.capacity && env.grant(call) && env.outLimit(d) != 0 && held >= env.outLimit(d) as int)
      && (v == Accepted <==>
            live < env.capacity && env.grant(call) && (env.outLimit(d) == 0 || held < env.outLimit(d) as int))
  {
  }

  function Judged(env: Env, net: Net, d: int): Verdict
    requires d in net.ports
  {
    Ruling(env, d, |net.ports[d].outq|, net.tick, net.used)
  }

  function Logged(port: Port, p: Packet, v: Verdict, call: nat, live: int): Port {
    port.(offers := port.offers + [Offer(p, v, |port.gone|, call, live)],
          outq := if v == Accepted then port.outq + [p] else port.outq)
  }

  /** Offers one copy of `p` to the device in slot `d`; an empty slot is skipped. */
  function Offered(env: Env, net: Net, d: int, p: Packet): Outcome {
    if d !in net.ports then Outcome(net, 0)
    else
      var v := Judged(env, net, d);
      var n := if v == Accepted then 1 else 0;
      var port := Logged(net.ports[d], p, v, net.tick, net.used);
      Outcome(net.(ports := net.ports[d := port], tick := net.tick + 1, used := net.used + n), n)
  }

  /** Destinations of a longer table continue those of a shorter one. */
  lemma {:induction false} DestsPrefix(tbl: seq<Entry>, k: nat, id: uint32)
    requires k <= |tbl|
    ensures Dests(tbl[..k], id) <= Dests(tbl, id)
  {
    if k == |tbl| {
      assert tbl[..k] == tbl;
    } else {
      DestsPrefix(tbl[..|tbl| - 1], k, id);
      assert tbl[..|tbl| - 1][..k] == tbl[..k];
    }
  }

  /** Offers a copy to each of `ds` in turn and counts the accepted ones. */
  function OfferedAll(env: Env, net: Net, ds: seq<byte>, p: Packet): Outcome {
    if |ds| == 0 then Outcome(net, 0)
    else
      var before := OfferedAll(env, net, ds[..|ds| - 1], p);
      var last := Offered(env, before.net, ds[|ds| - 1] as int, p);
      Outcome(last.net, before.n + last.n)
  }

  /** route_frame: a copy to every destination, then the frame itself is released. */
  function Routed(env: Env, tbl: seq<Entry>, net: Net, p: Packet): Outcome {
    var all := OfferedAll(env, net, Dests(tbl, p.id), p);
    Outcome(all.net.(used := all.net.used - 1, routed := net.routed + [p]), all.n)
  }

  predicate Pending(net: Net, d: int) {
    d in net.ports && |net.ports[d].inq| > 0
  }

  function Pulled(net: Net, d: int): Net
    requires Pending(net, d)
  {
    var port := net.ports[d];
    net.(ports := net.ports[d := port.(inq := port.inq[1..], taken := port.taken + [Departure(port.inq[0], true)])])
  }

  /** Takes the first waiting frame of device `d` and routes it. */
  function Handled(env: Env, tbl: seq<Entry>, net: Net, d: int): Outcome
    requires Pending(net, d)
  {
    Routed(env, tbl, Pulled(net, d), net.ports[d].inq[0])
  }

  /** xcan_router_loop on device `d`: each frame costs one, and one more per accepted copy. */
  function RouterLoop(env: Env, tbl: seq<Entry>, net: Net, d: int, score: int): Outcome
    decreases score
  {
    if score <= 0 || !Pending(net, d) then Outcome(net, score)
    else
      var r := Handled(env, tbl, net, d);
      CopiesNatural(env, Pulled(net, d), Dests(tbl, net.ports[d].inq[0].id), net.ports[d].inq[0]);
      RouterLoop(env, tbl, r.net, d, score - r.n - 1)
  }

  lemma CopiesNatural(env: Env, net: Net, ds: seq<byte>, p: Packet)
    ensures 0 <= OfferedAll(env, net, ds, p).n <= |ds|
  {
  }

  /** Offering in two stages is offering in one. */
  lemma {:induction false} OfferedConcat(env: Env, net: Net, a: seq<byte>, b: seq<byte>, p: Packet)
    ensures OfferedAll(env, net, a + b, p)
         == Outcome(OfferedAll(env, OfferedAll(env, net, a, p).net, b, p).net,
                    OfferedAll(env, net, a, p).n + OfferedAll(env, OfferedAll(env, net, a, p).net, b, p).n)
  {
    if |b| == 0 {
      assert a + b == a;
    } else {
      assert (a + b)[..|a + b| - 1] == a + b[..|b| - 1];
      OfferedConcat(env, net, a, b[..|b| - 1], p);
    }
  }

  /** How many of the interfaces `ds` have a device. */
  function Reach(slots: set<int>, ds: seq<byte>): (r: nat)
    ensures r <= |ds|
  {
    if |ds| == 0 then 0
    else Reach(slots, ds[..|ds| - 1]) + if ds[|ds| - 1] as int in slots then 1 else 0
  }

  /** Routing a frame takes the registered devices as they are, and makes at most one copy for each. */
  lemma {:induction false} ReachBounds(env: Env, net: Net, ds: seq<byte>, p: Packet)
    ensures OfferedAll(env, net, ds, p).net.ports.Keys == net.ports.Keys
    ensures OfferedAll(env, net, ds, p).n <= Reach(net.ports.Keys, ds)
  {
    if |ds| == 0 {
    } else {
      ReachBounds(env, net, ds[..|ds| - 1], p);
    }
  }

  lemma {:induction false} ReachConcat(slots: set<int>, a: seq<byte>, b: seq<byte>)
    ensures Reach(slots, a + b) == Reach(slots, a) + Reach(slots, b)
  {
    if |b| == 0 {
      assert a + b == a;
    } else {
      assert (a + b)[..|a + b| - 1] == a + b[..|b| - 1];
      ReachConcat(slots, a, b[..|b| - 1]);
    }
  }

  /** What a prefix of a destination list and the destination after it contribute. */
  lemma ReachPrefix(slots: set<int>, ds: seq<byte>, j: nat)
    requires j < |ds|
    ensures Reach(slots, ds[..j]) + (if ds[j] as int in slots then 1 else 0) <= Reach(slots, ds)
  {
    assert ds[..j + 1][..j] == ds[..j];
    assert ds == ds[..j + 1] + ds[j + 1..];
    ReachConcat(slots, ds[..j + 1], ds[j + 1..]);
  }

  lemma OfferedNext(env: Env, net: Net, ds: seq<byte>, p: Packet, j: nat)
    requires j < |ds|
    ensures var before := OfferedAll(env, net, ds[..j], p);
      var last := Offered(env, before.net, ds[j] as int, p);
      OfferedAll(env, net, ds[..j + 1], p) == Outcome(last.net, before.n + last.n)
  {
    assert ds[..j + 1][..j] == ds[..j];
  }

  /** The table offers no frame to more than 255 registered devices, so that its counter byte suffices. */
  ghost predicate Countable(slots: set<int>, tbl: seq<Entry>) {
    forall id :: Reach(slots, Dests(tbl, id)) <= 0xFF
  }

  // ---------------------------------------------------------------- stack/xcan_device.c

  /** devloop_in: routes waiting frames of one device while the score lasts. */
  function LoopIn(env: Env, tbl: seq<Entry>, net: Net, d: int, score: int): (r: Outcome)
    ensures r.n <= score
    decreases score
  {
    if score <= 0 || !Pending(net, d) then Outcome(net, score)
    else LoopIn(env, tbl, Handled(env, tbl, net, d).net, d, score - 1)
  }

  predicate Sendable(net: Net, d: int) {
    d in net.ports && |net.ports[d].outq| > 0
  }

  /** One send call of device `d` for its first frame, which leaves the queue only on success. */
  function Sent(env: Env, net: Net, d: int): Outcome
    requires Sendable(net, d)
  {
    var port := net.ports[d];
    if env.link(d)(port.attempts) then
      Outcome(net.(used := net.used - 1,
                   ports := net.ports[d := port.(outq := port.outq[1..], attempts := port.attempts + 1,
                                                gone := port.gone + [Departure(port.outq[0], true)])]), 1)
    else
      Outcome(net.(ports := net.ports[d := port.(attempts := port.attempts + 1)]), 0)
  }

  /** devloop_out: sends frames of one device while the score lasts, up to the first failure. */
  function LoopOut(env: Env, net: Net, d: int, score: int): (r: Outcome)
    ensures r.n <= score
    decreases score
  {
    if score <= 0 || !Sendable(net, d) then Outcome(net, score)
    else
      var r := Sent(env, net, d);
      if r.n == 0 then Outcome(r.net, score) else LoopOut(env, r.net, d, score - 1)
  }

  /** One pass of xcan_devices_loop over the slots from `i` on. */
  function PassIn(env: Env, tbl: seq<Entry>, net: Net, i: int, score: int): (r: Outcome)
    ensures r.n <= score
    decreases SLOTS - i
  {
    if i >= SLOTS then Outcome(net, score)
    else
      var r := LoopIn(env, tbl, net, i, score);
      PassIn(env, tbl, r.net, i + 1, r.n)
  }

  function PassOut(env: Env, net: Net, i: int, score: int): (r: Outcome)
    ensures r.n <= score
    decreases SLOTS - i
  {
    if i >= SLOTS then Outcome(net, score)
    else
      var r := LoopOut(env, net, i, score);
      PassOut(env, r.net, i + 1, r.n)
  }

  function Pass(env: Env, tbl: seq<Entry>, net: Net, dir: int, score: int): (r: Outcome)
    ensures r.n <= score
  {
    if dir == DIR_IN then PassIn(env, tbl, net, 0, score)
    else if dir == DIR_OUT then PassOut(env, net, 0, score)
    else Outcome(net, score)
  }

  /** xcan_devices_loop: passes over all slots, each costing one more point of the score. */
  function DevicesLoop(env: Env, tbl: seq<Entry>, net: Net, dir: int, score: int): (r: Outcome)
    decreases score
  {
    if score <= 0 then Outcome(net, score)
    else
      var r := Pass(env, tbl, net, dir, score);
      DevicesLoop(env, tbl, r.net, dir, r.n - 1)
  }

  // ---------------------------------------------------------------- stack/xcan_stack.c

  /** Frame `p` enters the in-queue of device `d`. */
  function Entered(net: Net, d: int, p: Packet): Net
    requires d in net.ports
  {
    var port := net.ports[d];
    net.(ports := net.ports[d := port.(inq := port.inq + [p], arrived := port.arrived + [p])], used := net.used + 1)
  }

  /** xcan_stack_recv: 0 when the frame entered the in-queue, 1 when it was refused. */
  function Received(env: Env, net: Net, d: int, id: uint32, flags: byte, payload: seq<byte>): Outcome
    requires d in net.ports
  {
    if !Room(env, net) then Outcome(net.(tick := net.tick + 1), 1)
    else if !env.grant(net.tick + 1) || Full(env.inLimit(d), |net.ports[d].inq|) then
      Outcome(net.(tick := net.tick + 2), 1)
    else Outcome(Entered(net.(tick := net.tick + 2), d, Packet(d, id, flags, payload)), 0)
  }

  /** A frame is received if and only if both its allocations succeed and the in-queue is not at its limit. */
  lemma ReceivedIff(env: Env, net: Net, d: int, id: uint32, flags: byte, payload: seq<byte>, e: int)
    requires d in net.ports
    ensures var r := Received(env, net, d, id, flags, payload);
      && (r.n == 0 <==>
            && net.used < env.capacity && env.grant(net.tick) && env.grant(net.tick + 1)
            && (env.inLimit(d) == 0 || |net.ports[d].inq| < env.inLimit(d) as int))
      && InQ(r.net, e) == InQ(net, e) + (if e == d && r.n == 0 then [Packet(d, id, flags, payload)] else [])
      && OutQ(r.net, e) == OutQ(net, e)
  {
  }

  /** xcan_stack_tick with one score for both directions, as the source has it. */
  function TickAsWritten(env: Env, tbl: seq<Entry>, net: Net, score: int): Outcome {
    var r := DevicesLoop(env, tbl, net, DIR_IN, score);
    DevicesLoop(env, tbl, r.net, DIR_OUT, r.n)
  }

  /** xcan_stack_tick with a budget for each direction, as its comments have it. */
  function Tick(env: Env, tbl: seq<Entry>, net: Net, budget: int): Net {
    DevicesLoop(env, tbl, DevicesLoop(env, tbl, net, DIR_IN, budget).net, DIR_OUT, budget).net
  }

  /** Everything waiting leaves as dropped. */
  function Dropped(q: seq<Packet>): seq<Departure> {
    if |q| == 0 then [] else Dropped(q[..|q| - 1]) + [Departure(q[|q| - 1], false)]
  }

  /** xcan_queue_empty on a queue of device `d`. */
  function Flushed(net: Net, d: int, outgoing: bool): Net
    requires d in net.ports
  {
    var port := net.ports[d];
    if outgoing then
      net.(used := net.used - |port.outq|,
           ports := net.ports[d := port.(outq := [], gone := port.gone + Dropped(port.outq))])
    else
      net.(used := net.used - |port.inq|,
           ports := net.ports[d := port.(inq := [], taken := port.taken + Dropped(port.inq))])
  }

  /** The queue is empty afterwards, and no other queue is touched. */
  lemma FlushedIs(net: Net, d: int, outgoing: bool, e: int)
    requires d in net.ports
    ensures var r := Flushed(net, d, outgoing);
      && InQ(r, e) == (if e == d && !outgoing then [] else InQ(net, e))
      && OutQ(r, e) == (if e == d && outgoing then [] else OutQ(net, e))
  {
  }

  // ---------------------------------------------------------------- runs

  datatype Event =
    | Receive(dev: int, id: uint32, flags: byte, data: Payload)
    | Service(dir: int, score: int)
    | RunRouter(dev: int, score: int)
    | Flush(dev: int, outgoing: bool)

  /** One step of a run; calls for a slot without a device do not happen. */
  function Step(env: Env, tbl: seq<Entry>, net: Net, e: Event): Net {
    match e
    case Receive(d, id, flags, data) =>
      if d in net.ports then Received(env, net, d, id, flags, data).net else net
    case Service(dir, score) => DevicesLoop(env, tbl, net, dir, score).net
    case RunRouter(d, score) => RouterLoop(env, tbl, net, d, score).net
    case Flush(d, outgoing) => if d in net.ports then Flushed(net, d, outgoing) else net
  }

  function Run(env: Env, tbl: seq<Entry>, net: Net, es: seq<Event>): Net {
    if |es| == 0 then net
    else Step(env, tbl, Run(env, tbl, net, es[..|es| - 1]), es[|es| - 1])
  }

  const IDLE: Port := Port([], [], [], [], [], [], 0)

  /** All devices registered, nothing received yet. */
  predicate Initial(net: Net) {
    && net.used == 0 && net.routed == []
    && (forall d | d in net.ports :: 0 <= d < SLOTS && net.ports[d] == IDLE)
  }
}
