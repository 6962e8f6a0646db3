/**
 * What every run of the stack keeps: nothing is lost, duplicated, reordered or misdirected
 * between the frames a device receives and the frames the devices send, except the copies a
 * full queue or the memory refused and the frames dropped by emptying a queue.
 */
module Delivery {
  import opened Base
  import opened Frames
  import opened Queues
  import opened Routing
  import opened Traces

  // ---------------------------------------------------------------- reading the logs

  /** The frames that left a queue, in order. */
  function Gone(ds: seq<Departure>): seq<Packet> {
    if |ds| == 0 then [] else Gone(ds[..|ds| - 1]) + [ds[|ds| - 1].pkt]
  }

  /** Those of them that were served rather than dropped. */
  function Served(ds: seq<Departure>): seq<Packet> {
    if |ds| == 0 then []
    else Served(ds[..|ds| - 1]) + if ds[|ds| - 1].served then [ds[|ds| - 1].pkt] else []
  }

  /** The copies offered to a queue, in order. */
  function Copies(os: seq<Offer>): seq<Packet> {
    if |os| == 0 then [] else Copies(os[..|os| - 1]) + [os[|os| - 1].pkt]
  }

  /** Those of them that were accepted. */
  function Kept(os: seq<Offer>): seq<Packet> {
    if |os| == 0 then []
    else Kept(os[..|os| - 1]) + if os[|os| - 1].verdict == Accepted then [os[|os| - 1].pkt] else []
  }

  lemma DeparturePush(ds: seq<Departure>, x: Departure)
    ensures Gone(ds + [x]) == Gone(ds) + [x.pkt]
    ensures Served(ds + [x]) == Served(ds) + if x.served then [x.pkt] else []
  {
    assert (ds + [x])[..|ds|] == ds;
  }

  lemma OfferPush(os: seq<Offer>, o: Offer)
    ensures Copies(os + [o]) == Copies(os) + [o.pkt]
    ensures Kept(os + [o]) == Kept(os) + if o.verdict == Accepted then [o.pkt] else []
  {
    assert (os + [o])[..|os|] == os;
  }

  function FromDevice(ps: seq<Packet>, d: int): seq<Packet> {
    if |ps| == 0 then []
    else FromDevice(ps[..|ps| - 1], d) + if ps[|ps| - 1].dev == d then [ps[|ps| - 1]] else []
  }

  // ---------------------------------------------------------------- the routing table's image

  /** One copy of `p` for every time an interface list names device `d`. */
  function Hits(ids: seq<byte>, p: Packet, d: int): seq<Packet> {
    if |ids| == 0 then []
    else Hits(ids[..|ids| - 1], p, d) + if ids[|ids| - 1] as int == d then [p] else []
  }

  lemma HitsPush(ids: seq<byte>, i: byte, p: Packet, d: int)
    ensures Hits(ids + [i], p, d) == Hits(ids, p, d) + if i as int == d then [p] else []
  {
    assert (ids + [i])[..|ids|] == ids;
  }

  /** What the table makes of one frame at device `d`: matching entries in order, interfaces in order. */
  function ImageOf(tbl: seq<Entry>, p: Packet, d: int): seq<Packet> {
    if |tbl| == 0 then []
    else
      var last := tbl[|tbl| - 1];
      ImageOf(tbl[..|tbl| - 1], p, d) + if last.canId == p.id then Hits(last.interfaces, p, d) else []
  }

  /** What it makes of several frames, in their order. */
  function Image(tbl: seq<Entry>, ps: seq<Packet>, d: int): seq<Packet> {
    if |ps| == 0 then [] else Image(tbl, ps[..|ps| - 1], d) + ImageOf(tbl, ps[|ps| - 1], d)
  }

  lemma {:induction false} HitsConcat(a: seq<byte>, b: seq<byte>, p: Packet, d: int)
    ensures Hits(a + b, p, d) == Hits(a, p, d) + Hits(b, p, d)
  {
    if |b| == 0 {
      assert a + b == a;
    } else {
      assert (a + b)[..|a + b| - 1] == a + b[..|b| - 1];
      HitsConcat(a, b[..|b| - 1], p, d);
    }
  }

  /** The destination list of a frame holds exactly its image, device by device. */
  lemma {:induction false} DestsImage(tbl: seq<Entry>, p: Packet, d: int)
    ensures Hits(Dests(tbl, p.id), p, d) == ImageOf(tbl, p, d)
  {
    if |tbl| == 0 {
    } else {
      var last := tbl[|tbl| - 1];
      DestsImage(tbl[..|tbl| - 1], p, d);
      HitsConcat(Dests(tbl[..|tbl| - 1], p.id), if last.canId == p.id then last.interfaces else [], p, d);
    }
  }

  // ---------------------------------------------------------------- the invariant

  /** Incoming: received == left + waiting, and what was served is what was routed of this device. */
  ghost predicate InLane(env: Env, port: Port, d: int, routed: seq<Packet>) {
    && port.arrived == Gone(port.taken) + port.inq
    && Served(port.taken) == routed
    && (forall i | 0 <= i < |port.inq| :: port.inq[i].dev == d)
    && (env.inLimit(d) != 0 ==> |port.inq| <= env.inLimit(d) as int)
  }

  /**
   * Offer `k` was ruled as it had to be: refused for want of memory, refused for want of place by
   * a queue that was full, or accepted. What the queue held is told by the offers and departures
   * before.
   */
  ghost predicate Justified(env: Env, d: int, os: seq<Offer>, k: int) {
    0 <= k < |os| ==>
      var held := |Kept(os[..k])| - os[k].left;
      held >= 0 && os[k].verdict == Ruling(env, d, held, os[k].call, os[k].live)
  }

  /** Outgoing: offered == image of the routed frames, accepted == left + waiting. */
  ghost predicate OutLane(env: Env, port: Port, d: int, image: seq<Packet>) {
    && Copies(port.offers) == image
    && Kept(port.offers) == Gone(port.gone) + port.outq
    && (env.outLimit(d) != 0 ==> |port.outq| <= env.outLimit(d) as int)
    && (forall k {:trigger Justified(env, d, port.offers, k)} :: Justified(env, d, port.offers, k))
  }

  /**
   * One device. `copies` and `taken` are what the frame in hand, if any, has added so far to
   * the device's offers and departures without being counted as routed yet.
   */
  ghost predicate PortOk(env: Env, tbl: seq<Entry>, net: Net, d: int, copies: seq<Packet>, taken: seq<Packet>) {
    d in net.ports ==>
      && 0 <= d < SLOTS
      && InLane(env, net.ports[d], d, FromDevice(net.routed, d) + taken)
      && OutLane(env, net.ports[d], d, Image(tbl, net.routed, d) + copies)
  }

  function Waiting(net: Net, d: int): int {
    if d in net.ports then |net.ports[d].inq| + |net.ports[d].outq| else 0
  }

  function Backlog(net: Net): int {
    Waiting(net, 0) + Waiting(net, 1) + Waiting(net, 2) + Waiting(net, 3)
  }

  /** Every live descriptor waits in a queue, but for `hand` of them. */
  ghost predicate Counted(env: Env, net: Net, hand: int) {
    net.used == Backlog(net) + hand <= env.capacity
  }

  /** Between calls: no frame in hand. (Triggers make the parts available where they are asked for.) */
  ghost predicate Good(env: Env, tbl: seq<Entry>, net: Net) {
    && (forall h {:trigger Counted(env, net, h)} | h == 0 :: Counted(env, net, h))
    && (forall d {:trigger PortOk(env, tbl, net, d, [], [])} :: PortOk(env, tbl, net, d, [], []))
  }

  /** While frame `p` is in hand and has been offered to the interfaces `ds`. */
  ghost predicate InHand(env: Env, tbl: seq<Entry>, net: Net, p: Packet, ds: seq<byte>) {
    && (forall h {:trigger Counted(env, net, h)} | h == 1 :: Counted(env, net, h))
    && (forall d {:trigger Offers(env, tbl, net, p, ds, d)} :: Offers(env, tbl, net, p, ds, d))
  }

  ghost predicate Offers(env: Env, tbl: seq<Entry>, net: Net, p: Packet, ds: seq<byte>, d: int) {
    PortOk(env, tbl, net, d, Hits(ds, p, d), if p.dev == d then [p] else [])
  }

  /** The backlog of a state that differs from another in one device only. */
  lemma BacklogChange(net: Net, d: int, port: Port)
    requires d in net.ports && 0 <= d < SLOTS
    ensures Backlog(net.(ports := net.ports[d := port]))
         == Backlog(net) - Waiting(net, d) + |port.inq| + |port.outq|
  {
  }

  lemma BacklogBound(net: Net, d: int)
    requires 0 <= d < SLOTS
    ensures 0 <= Waiting(net, d) <= Backlog(net)
  {
  }

  /** The backlog only depends on the queues. */
  lemma BacklogSame(net: Net, net': Net)
    requires forall d :: d in net.ports <==> d in net'.ports
    requires forall d | d in net.ports ::
      net'.ports[d].inq == net.ports[d].inq && net'.ports[d].outq == net.ports[d].outq
    ensures Backlog(net') == Backlog(net)
  {
  }

  /** A step that replaces the port of device `d` and books the difference in `used`. */
  lemma CountedStep(env: Env, net: Net, hand: int, net': Net, hand': int, d: int)
    requires Counted(env, net, hand) && d in net.ports && 0 <= d < SLOTS && d in net'.ports
    requires net'.ports == net.ports[d := net'.ports[d]]
    requires net'.used - hand' == net.used - hand + Waiting(net', d) - Waiting(net, d)
    requires net'.used <= env.capacity
    ensures Counted(env, net', hand')
  {
    BacklogChange(net, d, net'.ports[d]);
    assert Backlog(net') == Backlog(net.(ports := net'.ports));
  }

  // ---------------------------------------------------------------- each step keeps it

  lemma PullKeeps(env: Env, tbl: seq<Entry>, net: Net, d: int)
    requires Good(env, tbl, net) && Pending(net, d)
    ensures InHand(env, tbl, Pulled(net, d), net.ports[d].inq[0], [])
  {
    var p := net.ports[d].inq[0];
    var net' := Pulled(net, d);
    assert PortOk(env, tbl, net, d, [], []);
    CountedStep(env, net, 0, net', 1, d);
    forall i
      ensures Offers(env, tbl, net', p, [], i)
    {
      assert PortOk(env, tbl, net, i, [], []);
      if i == d {
        DeparturePush(net.ports[d].taken, Departure(p, true));
        HeadTail(Gone(net.ports[d].taken), net.ports[d].inq);
      }
    }
  }

  lemma OfferLane(env: Env, port: Port, d: int, image: seq<Packet>, p: Packet, call: nat, live: int)
    requires OutLane(env, port, d, image)
    ensures OutLane(env, Logged(port, p, Ruling(env, d, |port.outq|, call, live), call, live), d, image + [p])
  {
    var o := Offer(p, Ruling(env, d, |port.outq|, call, live), |port.gone|, call, live);
    OfferPush(port.offers, o);
    Assoc(Gone(port.gone), port.outq, [p]);
    ServedLength(port.gone);
    forall k
      ensures Justified(env, d, port.offers + [o], k)
    {
      assert Justified(env, d, port.offers, k);
      assert 0 <= k <= |port.offers| ==> (port.offers + [o])[..k] == port.offers[..k];
      assert port.offers[..|port.offers|] == port.offers;
    }
  }

  lemma OfferPort(env: Env, tbl: seq<Entry>, net: Net, p: Packet, ds: seq<byte>, i: byte)
    requires Offers(env, tbl, net, p, ds, i as int)
    ensures Offers(env, tbl, Offered(env, net, i as int, p).net, p, ds + [i], i as int)
  {
    var d := i as int;
    if d in net.ports {
      var before := Image(tbl, net.routed, d) + Hits(ds, p, d);
      OfferLane(env, net.ports[d], d, before, p, net.tick, net.used);
      HitsPush(ds, i, p, d);
      Assoc(Image(tbl, net.routed, d), Hits(ds, p, d), [p]);
    }
  }

  lemma OfferKeeps(env: Env, tbl: seq<Entry>, net: Net, p: Packet, ds: seq<byte>, i: byte)
    requires InHand(env, tbl, net, p, ds)
    ensures InHand(env, tbl, Offered(env, net, i as int, p).net, p, ds + [i])
  {
    var net' := Offered(env, net, i as int, p).net;
    assert Offers(env, tbl, net, p, ds, i as int) && Counted(env, net, 1);
    if i as int in net.ports {
      CountedStep(env, net, 1, net', 1, i as int);
    }
    forall d
      ensures Offers(env, tbl, net', p, ds + [i], d)
    {
      assert Offers(env, tbl, net, p, ds, d);
      if d == i as int {
        OfferPort(env, tbl, net, p, ds, i);
      } else {
        HitsPush(ds, i, p, d);
        assert Hits(ds, p, d) + [] == Hits(ds, p, d);
      }
    }
  }

  lemma {:induction false} OfferAllKeeps(env: Env, tbl: seq<Entry>, net: Net, p: Packet, ds: seq<byte>)
    requires InHand(env, tbl, net, p, [])
    ensures InHand(env, tbl, OfferedAll(env, net, ds, p).net, p, ds)
    ensures OfferedAll(env, net, ds, p).net.routed == net.routed
  {
    if |ds| == 0 {
      assert ds == [];
    } else {
      var n := |ds| - 1;
      OfferAllKeeps(env, tbl, net, p, ds[..n]);
      OfferKeeps(env, tbl, OfferedAll(env, net, ds[..n], p).net, p, ds[..n], ds[n]);
      assert ds == ds[..n] + [ds[n]];
    }
  }

  lemma HandleKeeps(env: Env, tbl: seq<Entry>, net: Net, d: int)
    requires Good(env, tbl, net) && Pending(net, d)
    ensures Good(env, tbl, Handled(env, tbl, net, d).net)
    ensures Handled(env, tbl, net, d).net.routed == net.routed + [net.ports[d].inq[0]]
  {
    var p := net.ports[d].inq[0];
    PullKeeps(env, tbl, net, d);
    OfferAllKeeps(env, tbl, Pulled(net, d), p, Dests(tbl, p.id));
    var mid := OfferedAll(env, Pulled(net, d), Dests(tbl, p.id), p).net;
    var net' := Handled(env, tbl, net, d).net;
    assert net'.routed[..|net'.routed| - 1] == net.routed;
    assert Counted(env, mid, 1) && Backlog(net') == Backlog(mid);
    forall i
      ensures PortOk(env, tbl, net', i, [], [])
    {
      assert Offers(env, tbl, mid, p, Dests(tbl, p.id), i);
      DestsImage(tbl, p, i);
    }
  }

  lemma SendPort(env: Env, tbl: seq<Entry>, net: Net, d: int)
    requires PortOk(env, tbl, net, d, [], []) && Sendable(net, d)
    ensures PortOk(env, tbl, Sent(env, net, d).net, d, [], [])
  {
    var port := net.ports[d];
    DeparturePush(port.gone, Departure(port.outq[0], true));
    HeadTail(Gone(port.gone), port.outq);
  }

  lemma SendKeeps(env: Env, tbl: seq<Entry>, net: Net, d: int)
    requires Good(env, tbl, net) && Sendable(net, d)
    ensures Good(env, tbl, Sent(env, net, d).net)
  {
    var net' := Sent(env, net, d).net;
    assert PortOk(env, tbl, net, d, [], []);
    CountedStep(env, net, 0, net', 0, d);
    SendPort(env, tbl, net, d);
    forall i
      ensures PortOk(env, tbl, net', i, [], [])
    {
      assert PortOk(env, tbl, net, i, [], []);
    }
  }

  lemma ReceivePort(env: Env, tbl: seq<Entry>, net: Net, d: int, id: uint32, flags: byte, data: seq<byte>)
    requires PortOk(env, tbl, net, d, [], []) && d in net.ports
    ensures PortOk(env, tbl, Received(env, net, d, id, flags, data).net, d, [], [])
  {
    var port, p := net.ports[d], Packet(d, id, flags, data);
    Assoc(Gone(port.taken), port.inq, [p]);
  }

  lemma ReceiveKeeps(env: Env, tbl: seq<Entry>, net: Net, d: int, id: uint32, flags: byte, data: seq<byte>)
    requires Good(env, tbl, net) && d in net.ports
    ensures Good(env, tbl, Received(env, net, d, id, flags, data).net)
  {
    var net' := Received(env, net, d, id, flags, data).net;
    assert PortOk(env, tbl, net, d, [], []) && Counted(env, net, 0);
    CountedStep(env, net, 0, net', 0, d);
    ReceivePort(env, tbl, net, d, id, flags, data);
    forall i
      ensures PortOk(env, tbl, net', i, [], [])
    {
      assert PortOk(env, tbl, net, i, [], []);
    }
  }

  lemma {:induction false} DroppedAll(ds: seq<Departure>, q: seq<Packet>)
    ensures Gone(ds + Dropped(q)) == Gone(ds) + q
    ensures Served(ds + Dropped(q)) == Served(ds)
  {
    if |q| == 0 {
      assert ds + Dropped(q) == ds;
    } else {
      var n := |q| - 1;
      DroppedAll(ds, q[..n]);
      DeparturePush(ds + Dropped(q[..n]), Departure(q[n], false));
      assert ds + Dropped(q) == ds + Dropped(q[..n]) + [Departure(q[n], false)];
      assert q == q[..n] + [q[n]];
    }
  }

  lemma FlushKeeps(env: Env, tbl: seq<Entry>, net: Net, d: int, outgoing: bool)
    requires Good(env, tbl, net) && d in net.ports
    ensures Good(env, tbl, Flushed(net, d, outgoing))
  {
    var net' := Flushed(net, d, outgoing);
    assert PortOk(env, tbl, net, d, [], []);
    CountedStep(env, net, 0, net', 0, d);
    forall i
      ensures PortOk(env, tbl, net', i, [], [])
    {
      assert PortOk(env, tbl, net, i, [], []);
      if i == d {
        DroppedAll(net.ports[d].gone, net.ports[d].outq);
        DroppedAll(net.ports[d].taken, net.ports[d].inq);
      }
    }
  }

  // ---------------------------------------------------------------- and so does every loop

  lemma {:induction false} TraceKeeps(env: Env, tbl: seq<Entry>, net: Net, ms: seq<Move>)
    requires Good(env, tbl, net)
    ensures Good(env, tbl, Traced(env, tbl, net, ms))
    decreases |ms|
  {
    if |ms| > 0 {
      if ms[0].Route? && Pending(net, ms[0].dev) {
        HandleKeeps(env, tbl, net, ms[0].dev);
      } else if ms[0].Transmit? && Sendable(net, ms[0].dev) {
        SendKeeps(env, tbl, net, ms[0].dev);
      }
      TraceKeeps(env, tbl, Moved(env, tbl, net, ms[0]), ms[1..]);
    }
  }

  lemma StepKeeps(env: Env, tbl: seq<Entry>, net: Net, e: Event)
    requires Good(env, tbl, net)
    ensures Good(env, tbl, Step(env, tbl, net, e))
  {
    match e
    case Receive(d, id, flags, data) =>
      if d in net.ports {
        ReceiveKeeps(env, tbl, net, d, id, flags, data);
      }
    case Flush(d, outgoing) =>
      if d in net.ports {
        FlushKeeps(env, tbl, net, d, outgoing);
      }
    case Service(_, _) | RunRouter(_, _) =>
      var ms := ServiceTrace(env, tbl, net, e);
      TraceKeeps(env, tbl, net, ms);
  }

  /** Safety over whole runs: the invariant holds in every reachable state. */
  lemma {:induction false} RunKeeps(env: Env, tbl: seq<Entry>, net: Net, es: seq<Event>)
    requires Good(env, tbl, net)
    ensures Good(env, tbl, Run(env, tbl, net, es))
  {
    if |es| == 0 {
    } else {
      RunKeeps(env, tbl, net, es[..|es| - 1]);
      StepKeeps(env, tbl, Run(env, tbl, net, es[..|es| - 1]), es[|es| - 1]);
    }
  }

  lemma InitialGood(env: Env, tbl: seq<Entry>, net: Net)
    requires Initial(net)
    ensures Good(env, tbl, net)
  {
    assert Counted(env, net, 0);
    forall d, k
      ensures PortOk(env, tbl, net, d, [], []) && Justified(env, d, [], k)
    {
    }
  }

  // ---------------------------------------------------------------- main results

  lemma {:induction false} KeptLength(os: seq<Offer>)
    ensures |Copies(os)| == |os| && |Kept(os)| <= |os|
    ensures |Kept(os)| == |os| <==> forall i | 0 <= i < |os| :: os[i].verdict == Accepted
    ensures |Kept(os)| == |os| ==> Kept(os) == Copies(os)
  {
    if |os| == 0 {
    } else {
      KeptLength(os[..|os| - 1]);
    }
  }

  lemma {:induction false} ServedLength(ds: seq<Departure>)
    ensures |Gone(ds)| == |ds| && |Served(ds)| <= |ds|
    ensures |Served(ds)| == |ds| <==> forall i | 0 <= i < |ds| :: ds[i].served
    ensures |Served(ds)| == |ds| ==> Served(ds) == Gone(ds)
  {
    if |ds| == 0 {
    } else {
      ServedLength(ds[..|ds| - 1]);
    }
  }

  /** The frames that the calls of a run really brought into the in-queue of device `d`, in their order. */
  function Arrivals(env: Env, tbl: seq<Entry>, net0: Net, es: seq<Event>, d: int): seq<Packet> {
    if |es| == 0 then []
    else
      var n := |es| - 1;
      var net := Run(env, tbl, net0, es[..n]);
      Arrivals(env, tbl, net0, es[..n], d) + Arrival(env, net, es[n], d)
  }

  function Arrival(env: Env, net: Net, e: Event, d: int): seq<Packet> {
    if e.Receive? && e.dev == d && d in net.ports && Received(env, net, d, e.id, e.flags, e.data).n == 0
    then [Packet(d, e.id, e.flags, e.data)] else []
  }

  /** What a call leaves alone at device `d`: registration, and the log of arrivals but for its own. */
  ghost predicate Registered(net: Net, net': Net, d: int, more: seq<Packet>) {
    && (d in net.ports <==> d in net'.ports)
    && (d in net.ports ==> net'.ports[d].arrived == net.ports[d].arrived + more)
  }

  /** Offering copies touches no in-queue. */
  lemma {:induction false} OffersInQ(env: Env, net: Net, ds: seq<byte>, p: Packet, d: int)
    ensures InQ(OfferedAll(env, net, ds, p).net, d) == InQ(net, d)
    ensures d in OfferedAll(env, net, ds, p).net.ports <==> d in net.ports
    ensures OfferedAll(env, net, ds, p).net.routed == net.routed
  {
    if |ds| > 0 {
      OffersInQ(env, net, ds[..|ds| - 1], p, d);
    }
  }

  lemma {:induction false} OffersRegistered(env: Env, net: Net, ds: seq<byte>, p: Packet, d: int)
    ensures Registered(net, OfferedAll(env, net, ds, p).net, d, [])
  {
    if |ds| > 0 {
      OffersRegistered(env, net, ds[..|ds| - 1], p, d);
    }
  }

  lemma {:induction false} TraceRegistered(env: Env, tbl: seq<Entry>, net: Net, ms: seq<Move>, d: int)
    ensures Registered(net, Traced(env, tbl, net, ms), d, [])
    decreases |ms|
  {
    if |ms| > 0 {
      if ms[0].Route? && Pending(net, ms[0].dev) {
        var p := net.ports[ms[0].dev].inq[0];
        OffersRegistered(env, Pulled(net, ms[0].dev), Dests(tbl, p.id), p, d);
      }
      TraceRegistered(env, tbl, Moved(env, tbl, net, ms[0]), ms[1..], d);
    }
  }

  lemma StepRegistered(env: Env, tbl: seq<Entry>, net: Net, e: Event, d: int)
    ensures Registered(net, Step(env, tbl, net, e), d, Arrival(env, net, e, d))
  {
    if Serves(e) {
      var ms := ServiceTrace(env, tbl, net, e);
      TraceRegistered(env, tbl, net, ms, d);
    }
  }

  lemma {:induction false} RunRegistered(env: Env, tbl: seq<Entry>, net0: Net, es: seq<Event>, d: int)
    ensures Registered(net0, Run(env, tbl, net0, es), d, Arrivals(env, tbl, net0, es, d))
  {
    if |es| > 0 {
      var n := |es| - 1;
      RunRegistered(env, tbl, net0, es[..n], d);
      StepRegistered(env, tbl, Run(env, tbl, net0, es[..n]), es[n], d);
    }
  }

  /**
   * End to end, for every run and every device: the frames whose receive calls were accepted, in
   * the order of these calls, are those that left the in-queue followed by those still in it;
   * those that left by being routed are the routed frames of this device in routing order; the
   * copies offered to it are the routing table's image of all routed frames; the accepted ones
   * are those that left the out-queue followed by those still in it; and every copy was accepted
   * or refused as the memory and the queue at that time demanded.
   */
  lemma EndToEnd(env: Env, tbl: seq<Entry>, net0: Net, es: seq<Event>, d: int)
    requires Initial(net0) && d in net0.ports
    ensures var net := Run(env, tbl, net0, es);
      && d in net.ports
      && var port := net.ports[d];
      && port.arrived == Arrivals(env, tbl, net0, es, d) == Gone(port.taken) + port.inq
      && Served(port.taken) == FromDevice(net.routed, d)
      && Copies(port.offers) == Image(tbl, net.routed, d)
      && Kept(port.offers) == Gone(port.gone) + port.outq
      && forall k {:trigger Justified(env, d, port.offers, k)} :: Justified(env, d, port.offers, k)
  {
    InitialGood(env, tbl, net0);
    RunKeeps(env, tbl, net0, es);
    RunArrivals(env, tbl, net0, es, d);
    PortFacts(env, tbl, Run(env, tbl, net0, es), d);
  }

  lemma RunArrivals(env: Env, tbl: seq<Entry>, net0: Net, es: seq<Event>, d: int)
    requires d in net0.ports && net0.ports[d].arrived == []
    ensures var net := Run(env, tbl, net0, es);
      d in net.ports && net.ports[d].arrived == Arrivals(env, tbl, net0, es, d)
  {
    RunRegistered(env, tbl, net0, es, d);
    assert [] + Arrivals(env, tbl, net0, es, d) == Arrivals(env, tbl, net0, es, d);
  }

  /** What the invariant says of device `d`. */
  lemma PortFacts(env: Env, tbl: seq<Entry>, net: Net, d: int)
    requires Good(env, tbl, net) && d in net.ports
    ensures var port := net.ports[d];
      && port.arrived == Gone(port.taken) + port.inq
      && Served(port.taken) == FromDevice(net.routed, d)
      && Copies(port.offers) == Image(tbl, net.routed, d)
      && Kept(port.offers) == Gone(port.gone) + port.outq
      && forall k {:trigger Justified(env, d, port.offers, k)} :: Justified(env, d, port.offers, k)
  {
    assert PortOk(env, tbl, net, d, [], []);
  }

  /** Without refusals, and only then, what was sent, dropped or still waits is the whole image. */
  lemma LosslessIff(env: Env, tbl: seq<Entry>, net0: Net, es: seq<Event>, d: int)
    requires Initial(net0) && d in net0.ports
    ensures var net := Run(env, tbl, net0, es);
      && d in net.ports
      && var port := net.ports[d];
      Gone(port.gone) + port.outq == Image(tbl, net.routed, d) <==>
      forall i | 0 <= i < |port.offers| :: port.offers[i].verdict == Accepted
  {
    EndToEnd(env, tbl, net0, es, d);
    KeptLength(Run(env, tbl, net0, es).ports[d].offers);
  }

  // ---------------------------------------------------------------- what was dropped

  /** Frames that left the out-queue of device `d` without being sent. */
  function Lost(net: Net, d: int): int {
    if d in net.ports then |net.ports[d].gone| - |Served(net.ports[d].gone)| else 0
  }

  lemma {:induction false} OffersLost(env: Env, net: Net, ds: seq<byte>, p: Packet, d: int)
    ensures Lost(OfferedAll(env, net, ds, p).net, d) == Lost(net, d)
  {
    if |ds| > 0 {
      OffersLost(env, net, ds[..|ds| - 1], p, d);
    }
  }

  lemma {:induction false} TraceLost(env: Env, tbl: seq<Entry>, net: Net, ms: seq<Move>, d: int)
    ensures Lost(Traced(env, tbl, net, ms), d) == Lost(net, d)
    decreases |ms|
  {
    if |ms| > 0 {
      var i := ms[0].dev;
      if ms[0].Route? && Pending(net, i) {
        var p := net.ports[i].inq[0];
        OffersLost(env, Pulled(net, i), Dests(tbl, p.id), p, d);
      } else if ms[0].Transmit? && Sendable(net, i) {
        DeparturePush(net.ports[i].gone, Departure(net.ports[i].outq[0], true));
      }
      TraceLost(env, tbl, Moved(env, tbl, net, ms[0]), ms[1..], d);
    }
  }

  /** Only emptying a queue loses frames, and it loses what the queue holds. */
  lemma StepLost(env: Env, tbl: seq<Entry>, net: Net, e: Event, d: int)
    ensures Lost(Step(env, tbl, net, e), d) == Lost(net, d) + if e == Flush(d, true) then |OutQ(net, d)| else 0
  {
    if Serves(e) {
      var ms := ServiceTrace(env, tbl, net, e);
      TraceLost(env, tbl, net, ms, d);
    } else if e.Flush? && d in net.ports {
      DroppedAll(net.ports[d].gone, net.ports[d].outq);
      ServedLength(net.ports[d].gone);
      ServedLength(net.ports[d].gone + Dropped(net.ports[d].outq));
    }
  }

  /** A call that empties the out-queue of device `d` while frames wait in it. */
  predicate Drops(env: Env, tbl: seq<Entry>, net0: Net, es: seq<Event>, d: int, k: int) {
    0 <= k < |es| && es[k] == Flush(d, true) && |OutQ(Run(env, tbl, net0, es[..k]), d)| > 0
  }

  lemma {:induction false} RunLost(env: Env, tbl: seq<Entry>, net0: Net, es: seq<Event>, d: int)
    requires Lost(net0, d) == 0
    ensures Lost(Run(env, tbl, net0, es), d) >= 0
    ensures Lost(Run(env, tbl, net0, es), d) == 0 <==> forall k :: !Drops(env, tbl, net0, es, d, k)
  {
    if |es| > 0 {
      var n := |es| - 1;
      RunLost(env, tbl, net0, es[..n], d);
      StepLost(env, tbl, Run(env, tbl, net0, es[..n]), es[n], d);
      forall k | 0 <= k < n
        ensures Drops(env, tbl, net0, es, d, k) <==> Drops(env, tbl, net0, es[..n], d, k)
      {
        assert es[..n][..k] == es[..k];
      }
      assert Drops(env, tbl, net0, es, d, n) <==>
        es[n] == Flush(d, true) && |OutQ(Run(env, tbl, net0, es[..n]), d)| > 0;
      assert forall k :: Drops(env, tbl, net0, es[..n], d, k) ==> 0 <= k < n;
    }
  }

  /**
   * Over a whole run, all that left the out-queue of device `d` was sent if and only if no call
   * emptied that queue while a frame waited in it.
   */
  lemma AllSentIff(env: Env, tbl: seq<Entry>, net0: Net, es: seq<Event>, d: int)
    requires Initial(net0) && d in net0.ports
    ensures var net := Run(env, tbl, net0, es);
      && d in net.ports
      && (Served(net.ports[d].gone) == Gone(net.ports[d].gone) <==> forall k :: !Drops(env, tbl, net0, es, d, k))
  {
    RunRegistered(env, tbl, net0, es, d);
    RunLost(env, tbl, net0, es, d);
    ServedLength(Run(env, tbl, net0, es).ports[d].gone);
  }

  /** In every reachable state bounded queues keep their limits, and memory holds exactly the waiting frames. */
  lemma Bounds(env: Env, tbl: seq<Entry>, net0: Net, es: seq<Event>, d: int)
    requires Initial(net0)
    ensures var net := Run(env, tbl, net0, es);
      && net.used == Backlog(net) <= env.capacity
      && (d in net.ports && env.inLimit(d) != 0 ==> |net.ports[d].inq| <= env.inLimit(d) as int)
      && (d in net.ports && env.outLimit(d) != 0 ==> |net.ports[d].outq| <= env.outLimit(d) as int)
  {
    InitialGood(env, tbl, net0);
    RunKeeps(env, tbl, net0, es);
    var net := Run(env, tbl, net0, es);
    assert Counted(env, net, 0) && PortOk(env, tbl, net, d, [], []);
  }
}
