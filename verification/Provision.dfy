/**
 * How much a run needs so that nothing is refused: a bound on the memory and on the queue limits
 * that can be computed from the calls and the routing table before the first call is made.
 */
module Provision {
  import opened Base
  import opened Frames
  import opened Queues
  import opened Routing
  import opened Traces
  import opened Delivery

  /** A frame received, and all its copies, for every receive call of a run. */
  function Demand(slots: set<int>, tbl: seq<Entry>, es: seq<Event>): nat {
    if |es| == 0 then 0
    else
      var e := es[|es| - 1];
      Demand(slots, tbl, es[..|es| - 1]) + if e.Receive? then 1 + Reach(slots, Dests(tbl, e.id)) else 0
  }

  lemma {:induction false} DemandGrows(slots: set<int>, tbl: seq<Entry>, es: seq<Event>, k: nat)
    requires k <= |es|
    ensures Demand(slots, tbl, es[..k]) <= Demand(slots, tbl, es)
  {
    if k == |es| {
      assert es[..k] == es;
    } else {
      DemandGrows(slots, tbl, es[..|es| - 1], k);
      assert es[..|es| - 1][..k] == es[..k];
    }
  }

  /** No allocation fails before `demand` descriptors are live, and no queue limit is lower than that. */
  ghost predicate Ample(env: Env, demand: nat) {
    && (forall n: nat :: env.grant(n)) && env.capacity >= demand
    && (forall d: int :: env.inLimit(d) == 0 || env.inLimit(d) as int >= demand)
    && (forall d: int :: env.outLimit(d) == 0 || env.outLimit(d) as int >= demand)
  }

  /** Copies that the frames of a queue have yet to give. */
  function Fan(slots: set<int>, tbl: seq<Entry>, q: seq<Packet>): nat {
    if |q| == 0 then 0 else Fan(slots, tbl, q[..|q| - 1]) + Reach(slots, Dests(tbl, q[|q| - 1].id))
  }

  lemma FanPush(slots: set<int>, tbl: seq<Entry>, q: seq<Packet>, p: Packet)
    ensures Fan(slots, tbl, q + [p]) == Fan(slots, tbl, q) + Reach(slots, Dests(tbl, p.id))
  {
    assert (q + [p])[..|q|] == q;
  }

  lemma {:induction false} FanPop(slots: set<int>, tbl: seq<Entry>, q: seq<Packet>)
    requires |q| > 0
    ensures Fan(slots, tbl, q) == Reach(slots, Dests(tbl, q[0].id)) + Fan(slots, tbl, q[1..])
  {
    if |q| > 1 {
      FanPop(slots, tbl, q[..|q| - 1]);
      assert q[..|q| - 1][1..] == q[1..][..|q| - 2];
    }
  }

  function FanAt(slots: set<int>, tbl: seq<Entry>, net: Net, d: int): nat {
    Fan(slots, tbl, InQ(net, d))
  }

  /** Live descriptors, and those still to come from the frames waiting to be routed. */
  function Load(slots: set<int>, tbl: seq<Entry>, net: Net): int {
    net.used + FanAt(slots, tbl, net, 0) + FanAt(slots, tbl, net, 1)
    + FanAt(slots, tbl, net, 2) + FanAt(slots, tbl, net, 3)
  }

  lemma LoadSame(slots: set<int>, tbl: seq<Entry>, net: Net, net': Net)
    requires forall d :: InQ(net', d) == InQ(net, d)
    ensures Load(slots, tbl, net') == Load(slots, tbl, net) + net'.used - net.used
  {
  }

  lemma LoadChange(slots: set<int>, tbl: seq<Entry>, net: Net, net': Net, i: int)
    requires 0 <= i < SLOTS && forall d | d != i :: InQ(net', d) == InQ(net, d)
    ensures Load(slots, tbl, net') == Load(slots, tbl, net) + net'.used - net.used
                                    + FanAt(slots, tbl, net', i) - FanAt(slots, tbl, net, i)
  {
  }

  /** Every copy offered so far was accepted, and the registered devices are those of `slots`. */
  ghost predicate Spotless(slots: set<int>, net: Net, d: int) {
    && (d in slots <==> d in net.ports)
    && (d in net.ports ==> forall k | 0 <= k < |net.ports[d].offers| :: net.ports[d].offers[k].verdict == Accepted)
  }

  /** The state of a run that is amply provided for. */
  ghost predicate Well(env: Env, slots: set<int>, tbl: seq<Entry>, net: Net, demand: nat) {
    && Good(env, tbl, net) && Load(slots, tbl, net) <= demand
    && forall d {:trigger Spotless(slots, net, d)} :: Spotless(slots, net, d)
  }

  // ---------------------------------------------------------------- single steps

  /** With memory and place every copy is accepted. */
  lemma OfferAccepted(env: Env, tbl: seq<Entry>, net: Net, p: Packet, ds: seq<byte>, i: int, demand: nat)
    requires Ample(env, demand) && InHand(env, tbl, net, p, ds) && i in net.ports && net.used < demand
    ensures Judged(env, net, i) == Accepted
  {
    assert Counted(env, net, 1) && Offers(env, tbl, net, p, ds, i);
    BacklogBound(net, i);
    assert env.grant(net.tick);
  }

  lemma {:induction false} OffersAccepted(env: Env, slots: set<int>, tbl: seq<Entry>, net: Net, p: Packet,
                                          ds: seq<byte>, demand: nat)
    requires Ample(env, demand) && InHand(env, tbl, net, p, [])
    requires forall d {:trigger Spotless(slots, net, d)} :: Spotless(slots, net, d)
    requires net.used + Reach(slots, ds) <= demand
    ensures var r := OfferedAll(env, net, ds, p);
      && r.n == Reach(slots, ds) && r.net.used == net.used + r.n
      && forall d {:trigger Spotless(slots, r.net, d)} :: Spotless(slots, r.net, d)
  {
    if |ds| > 0 {
      var n := |ds| - 1;
      OffersAccepted(env, slots, tbl, net, p, ds[..n], demand);
      OfferAllKeeps(env, tbl, net, p, ds[..n]);
      var before := OfferedAll(env, net, ds[..n], p);
      var i := ds[n] as int;
      assert Spotless(slots, before.net, i);
      if i in before.net.ports {
        OfferAccepted(env, tbl, before.net, p, ds[..n], i, demand);
      }
      forall d
        ensures Spotless(slots, OfferedAll(env, net, ds, p).net, d)
      {
        assert Spotless(slots, before.net, d);
      }
    }
  }

  lemma RouteWell(env: Env, slots: set<int>, tbl: seq<Entry>, net: Net, i: int, demand: nat)
    requires Ample(env, demand) && Well(env, slots, tbl, net, demand) && Pending(net, i)
    ensures Well(env, slots, tbl, Handled(env, tbl, net, i).net, demand)
  {
    var p := net.ports[i].inq[0];
    var pulled := Pulled(net, i);
    var net' := Handled(env, tbl, net, i).net;
    assert PortOk(env, tbl, net, i, [], []);
    FanPop(slots, tbl, net.ports[i].inq);
    LoadChange(slots, tbl, net, pulled, i);
    PullKeeps(env, tbl, net, i);
    HandleKeeps(env, tbl, net, i);
    forall d
      ensures Spotless(slots, pulled, d)
    {
      assert Spotless(slots, net, d);
    }
    OffersAccepted(env, slots, tbl, pulled, p, Dests(tbl, p.id), demand);
    forall d
      ensures InQ(net', d) == InQ(pulled, d) && Spotless(slots, net', d)
    {
      OffersInQ(env, pulled, Dests(tbl, p.id), p, d);
      assert Spotless(slots, OfferedAll(env, pulled, Dests(tbl, p.id), p).net, d);
    }
    LoadSame(slots, tbl, pulled, net');
  }

  lemma TransmitWell(env: Env, slots: set<int>, tbl: seq<Entry>, net: Net, i: int, demand: nat)
    requires Well(env, slots, tbl, net, demand) && Sendable(net, i)
    ensures Well(env, slots, tbl, Sent(env, net, i).net, demand)
  {
    var net' := Sent(env, net, i).net;
    SendKeeps(env, tbl, net, i);
    forall d
      ensures InQ(net', d) == InQ(net, d) && Spotless(slots, net', d)
    {
      assert Spotless(slots, net, d);
    }
    LoadSame(slots, tbl, net, net');
  }

  lemma {:induction false} TraceWell(env: Env, slots: set<int>, tbl: seq<Entry>, net: Net, ms: seq<Move>, demand: nat)
    requires Ample(env, demand) && Well(env, slots, tbl, net, demand)
    ensures Well(env, slots, tbl, Traced(env, tbl, net, ms), demand)
    decreases |ms|
  {
    if |ms| > 0 {
      if ms[0].Route? && Pending(net, ms[0].dev) {
        RouteWell(env, slots, tbl, net, ms[0].dev, demand);
      } else if ms[0].Transmit? && Sendable(net, ms[0].dev) {
        TransmitWell(env, slots, tbl, net, ms[0].dev, demand);
      }
      TraceWell(env, slots, tbl, Moved(env, tbl, net, ms[0]), ms[1..], demand);
    }
  }

  lemma ReceiveAccepted(env: Env, tbl: seq<Entry>, net: Net, d: int, demand: nat)
    requires Ample(env, demand) && Good(env, tbl, net) && d in net.ports && net.used < demand
    ensures Room(env, net) && env.grant(net.tick + 1) && !Full(env.inLimit(d), |net.ports[d].inq|)
  {
    assert PortOk(env, tbl, net, d, [], []) && Counted(env, net, 0);
    BacklogBound(net, d);
    assert env.grant(net.tick) && env.grant(net.tick + 1);
  }

  lemma ReceiveLoad(slots: set<int>, tbl: seq<Entry>, net: Net, d: int, p: Packet)
    requires d in net.ports && 0 <= d < SLOTS
    ensures Load(slots, tbl, Entered(net, d, p)) == Load(slots, tbl, net) + 1 + Reach(slots, Dests(tbl, p.id))
  {
    FanPush(slots, tbl, net.ports[d].inq, p);
    LoadChange(slots, tbl, net, Entered(net, d, p), d);
  }

  lemma EnteredWell(env: Env, slots: set<int>, tbl: seq<Entry>, net: Net, net': Net, d: int, p: Packet, demand: nat)
    requires Well(env, slots, tbl, net, demand) && d in net.ports && Good(env, tbl, net')
    requires net' == Entered(net.(tick := net.tick + 2), d, p)
    ensures Well(env, slots, tbl, net', demand + 1 + Reach(slots, Dests(tbl, p.id)))
  {
    assert PortOk(env, tbl, net, d, [], []);
    ReceiveLoad(slots, tbl, net.(tick := net.tick + 2), d, p);
    LoadSame(slots, tbl, net, net.(tick := net.tick + 2));
    forall i
      ensures Spotless(slots, net', i)
    {
      assert Spotless(slots, net, i);
    }
  }

  lemma LoadCounts(env: Env, slots: set<int>, tbl: seq<Entry>, net: Net, demand: nat)
    requires Well(env, slots, tbl, net, demand)
    ensures net.used <= demand
  {
  }

  /** A receive call that is provided for succeeds, and uses up its share. */
  lemma ReceiveWell(env: Env, slots: set<int>, tbl: seq<Entry>, net: Net, d: int, id: uint32, flags: byte,
                    data: Payload, before: nat, demand: nat)
    requires Ample(env, demand) && Well(env, slots, tbl, net, before) && d in net.ports
    requires before + 1 + Reach(slots, Dests(tbl, id)) <= demand
    ensures Received(env, net, d, id, flags, data).n == 0
    ensures Well(env, slots, tbl, Received(env, net, d, id, flags, data).net, before + 1 + Reach(slots, Dests(tbl, id)))
  {
    LoadCounts(env, slots, tbl, net, before);
    ReceiveAccepted(env, tbl, net, d, demand);
    ReceiveKeeps(env, tbl, net, d, id, flags, data);
    var net' := Received(env, net, d, id, flags, data).net;
    EnteredWell(env, slots, tbl, net, net', d, Packet(d, id, flags, data), before);
  }

  lemma FlushWell(env: Env, slots: set<int>, tbl: seq<Entry>, net: Net, d: int, outgoing: bool, demand: nat)
    requires Well(env, slots, tbl, net, demand) && d in net.ports
    ensures Well(env, slots, tbl, Flushed(net, d, outgoing), demand)
  {
    var net' := Flushed(net, d, outgoing);
    assert PortOk(env, tbl, net, d, [], []);
    FlushKeeps(env, tbl, net, d, outgoing);
    LoadChange(slots, tbl, net, net', d);
    forall i
      ensures Spotless(slots, net', i)
    {
      assert Spotless(slots, net, i);
    }
  }

  // ---------------------------------------------------------------- whole runs

  /** All frames that the calls of a run hand in at device `d`. */
  function Requests(es: seq<Event>, d: int): seq<Packet> {
    if |es| == 0 then []
    else
      var e := es[|es| - 1];
      Requests(es[..|es| - 1], d)
      + if e.Receive? && e.dev == d then [Packet(d, e.id, e.flags, e.data)] else []
  }

  lemma StepWell(env: Env, slots: set<int>, tbl: seq<Entry>, net: Net, e: Event, before: nat, demand: nat)
    requires Ample(env, demand) && Well(env, slots, tbl, net, before) && before <= demand
    requires e.Receive? ==> before + 1 + Reach(slots, Dests(tbl, e.id)) <= demand
    ensures Well(env, slots, tbl, Step(env, tbl, net, e),
                 before + if e.Receive? then 1 + Reach(slots, Dests(tbl, e.id)) else 0)
    ensures e.Receive? && e.dev in net.ports ==> Received(env, net, e.dev, e.id, e.flags, e.data).n == 0
  {
    match e
    case Receive(d, id, flags, data) =>
      if d in net.ports {
        ReceiveWell(env, slots, tbl, net, d, id, flags, data, before, demand);
      }
    case Flush(d, outgoing) =>
      if d in net.ports {
        FlushWell(env, slots, tbl, net, d, outgoing, before);
      }
    case Service(_, _) | RunRouter(_, _) =>
      var ms := ServiceTrace(env, tbl, net, e);
      AmpleLess(env, before, demand);
      TraceWell(env, slots, tbl, net, ms, before);
  }

  lemma AmpleLess(env: Env, less: nat, demand: nat)
    requires Ample(env, demand) && less <= demand
    ensures Ample(env, less)
  {
  }

  lemma {:induction false} RunWell(env: Env, slots: set<int>, tbl: seq<Entry>, net0: Net, es: seq<Event>,
                                   demand: nat, d: int)
    requires Initial(net0) && (forall i :: i in slots <==> i in net0.ports)
    requires Ample(env, demand) && Demand(slots, tbl, es) <= demand
    ensures Well(env, slots, tbl, Run(env, tbl, net0, es), Demand(slots, tbl, es))
    ensures d in net0.ports ==> Arrivals(env, tbl, net0, es, d) == Requests(es, d)
  {
    if |es| == 0 {
      InitialGood(env, tbl, net0);
      forall i
        ensures Spotless(slots, net0, i)
      {
      }
    } else {
      var n := |es| - 1;
      RunWell(env, slots, tbl, net0, es[..n], demand, d);
      RunRegistered(env, tbl, net0, es[..n], d);
      StepWell(env, slots, tbl, Run(env, tbl, net0, es[..n]), es[n], Demand(slots, tbl, es[..n]), demand);
    }
  }

  /**
   * In a run that is amply provided for every receive call succeeds and no copy is refused:
   * what left the out-queue of a device followed by what waits there is the routing table's
   * whole image of the frames routed; and if moreover no queue is emptied, the frames handed in
   * are those routed followed by those waiting, and what left was sent.
   */
  lemma Provided(env: Env, tbl: seq<Entry>, net0: Net, es: seq<Event>, d: int)
    requires Initial(net0) && d in net0.ports && Ample(env, Demand(net0.ports.Keys, tbl, es))
    ensures var net := Run(env, tbl, net0, es);
      && d in net.ports
      && var port := net.ports[d];
      && port.arrived == Requests(es, d)
      && Gone(port.gone) + port.outq == Image(tbl, net.routed, d)
      && ((forall k | 0 <= k < |es| :: !es[k].Flush?) ==>
            && Served(port.gone) + port.outq == Image(tbl, net.routed, d)
            && FromDevice(net.routed, d) + port.inq == Requests(es, d))
  {
    var slots := net0.ports.Keys;
    var net := Run(env, tbl, net0, es);
    RunWell(env, slots, tbl, net0, es, Demand(slots, tbl, es), d);
    EndToEnd(env, tbl, net0, es, d);
    LosslessIff(env, tbl, net0, es, d);
    assert Spotless(slots, net, d);
    if forall k | 0 <= k < |es| :: !es[k].Flush? {
      AllSentIff(env, tbl, net0, es, d);
      RunTaken(env, tbl, net0, es, d);
      ServedLength(net.ports[d].taken);
    }
  }

  /** Without emptying, what left an in-queue was routed. */
  lemma {:induction false} RunTaken(env: Env, tbl: seq<Entry>, net0: Net, es: seq<Event>, d: int)
    requires Initial(net0) && forall k | 0 <= k < |es| :: !es[k].Flush?
    ensures var net := Run(env, tbl, net0, es);
      d in net.ports ==> |Served(net.ports[d].taken)| == |net.ports[d].taken|
  {
    if |es| > 0 {
      var n := |es| - 1;
      var net := Run(env, tbl, net0, es[..n]);
      RunTaken(env, tbl, net0, es[..n], d);
      if Serves(es[n]) {
        var ms := ServiceTrace(env, tbl, net, es[n]);
        TraceTaken(env, tbl, net, ms, d);
      }
    }
  }

  function Untaken(net: Net, d: int): int {
    if d in net.ports then |net.ports[d].taken| - |Served(net.ports[d].taken)| else 0
  }

  lemma {:induction false} OffersTaken(env: Env, net: Net, ds: seq<byte>, p: Packet, d: int)
    ensures Untaken(OfferedAll(env, net, ds, p).net, d) == Untaken(net, d)
  {
    if |ds| > 0 {
      OffersTaken(env, net, ds[..|ds| - 1], p, d);
    }
  }

  lemma {:induction false} TraceTaken(env: Env, tbl: seq<Entry>, net: Net, ms: seq<Move>, d: int)
    ensures Untaken(Traced(env, tbl, net, ms), d) == Untaken(net, d)
    decreases |ms|
  {
    if |ms| > 0 {
      var i := ms[0].dev;
      if ms[0].Route? && Pending(net, i) {
        var p := net.ports[i].inq[0];
        DeparturePush(net.ports[i].taken, Departure(p, true));
        OffersTaken(env, Pulled(net, i), Dests(tbl, p.id), p, d);
      }
      TraceTaken(env, tbl, Moved(env, tbl, net, ms[0]), ms[1..], d);
    }
  }
}
