/**
 * The running stack: devices with their queues, the routing table and the service loops of
 * stack/xcan_device.c, stack/xcan_router.c and stack/xcan_stack.c, over the shared memory of
 * frames. Every method is proved to do to the real queues what Routing says of `net`.
 */
module Stack {
  import opened Base
  import opened Frames
  import opened Queues
  import opened Routing
  import opened Delivery
  import opened Moves

  /** What a device is asked to transmit. */
  datatype OnWire = OnWire(id: uint32, flags: byte, data: seq<byte>)

  function Wire(ds: seq<Departure>): seq<OnWire> {
    if |ds| == 0 then []
    else
      var last := ds[|ds| - 1];
      Wire(ds[..|ds| - 1]) + if last.served then [OnWire(last.pkt.id, last.pkt.flags, last.pkt.payload)] else []
  }

  /** What a device transmits for the frames it has sent. */
  function OnWires(ps: seq<Packet>): seq<OnWire> {
    if |ps| == 0 then []
    else
      var p := ps[|ps| - 1];
      OnWires(ps[..|ps| - 1]) + [OnWire(p.id, p.flags, p.payload)]
  }

  lemma {:induction false} WireServed(ds: seq<Departure>)
    ensures Wire(ds) == OnWires(Served(ds))
  {
    if |ds| > 0 {
      var before, ps := Served(ds[..|ds| - 1]), Served(ds);
      WireServed(ds[..|ds| - 1]);
      if ds[|ds| - 1].served {
        assert ps == before + [ds[|ds| - 1].pkt] && ps[..|before|] == before;
      } else {
        assert ps == before;
      }
    }
  }

  class Device {
    const id: int
    const q_in: Queue
    const q_out: Queue
    const link: nat -> bool      // does the n-th transmission succeed
    var attempts: nat            // transmissions asked for
    var wire: seq<OnWire>        // transmissions that succeeded

    constructor (id: int, q_in: Queue, q_out: Queue, link: nat -> bool)
      ensures this.id == id && this.q_in == q_in && this.q_out == q_out && this.link == link
      ensures attempts == 0 && wire == []
    {
      this.id, this.q_in, this.q_out, this.link := id, q_in, q_out, link;
      attempts, wire := 0, [];
    }

    /** The driver's send operation, as devloop_out reads its result: 0 is success. */
    method Send(id: uint32, flags: byte, data: seq<byte>, len: byte) returns (r: int)
      requires len as int <= |data|
      modifies this
      ensures attempts == old(attempts) + 1
      ensures r == 0 <==> link(old(attempts))
      ensures wire == old(wire) + if r == 0 then [OnWire(id, flags, data[..len])] else []
    {
      r := if link(attempts) then 0 else -1;
      attempts := attempts + 1;
      if r == 0 {
        wire := wire + [OnWire(id, flags, data[..len])];
      }
    }
  }

  /** A port after a send call for its first frame, which is still queued. */
  ghost function Tried(port: Port, ok: bool): Port
    requires |port.outq| > 0
  {
    port.(attempts := port.attempts + 1, gone := if ok then port.gone + [Departure(port.outq[0], true)] else port.gone)
  }

  lemma TriedWire(port: Port, ok: bool)
    requires |port.outq| > 0
    ensures var p := port.outq[0];
      Wire(Tried(port, ok).gone) == Wire(port.gone) + if ok then [OnWire(p.id, p.flags, p.payload)] else []
  {
    assert ok ==> Tried(port, ok).gone[..|port.gone|] == port.gone;
  }

  lemma {:induction false} DroppedWire(ds: seq<Departure>, q: seq<Packet>)
    ensures Wire(ds + Dropped(q)) == Wire(ds)
  {
    if |q| == 0 {
      assert ds + Dropped(q) == ds;
    } else {
      DroppedWire(ds, q[..|q| - 1]);
      var all := ds + Dropped(q);
      assert all[..|all| - 1] == ds + Dropped(q[..|q| - 1]);
    }
  }

  function WaitingUpTo(net: Net, i: nat): int {
    if i == 0 then 0 else WaitingUpTo(net, i - 1) + |InQ(net, i - 1)| + |OutQ(net, i - 1)|
  }

  lemma WaitingAll(net: Net)
    ensures WaitingUpTo(net, SLOTS) == Backlog(net)
  {
    assert WaitingUpTo(net, 1) == Waiting(net, 0);
    assert WaitingUpTo(net, 2) == Waiting(net, 0) + Waiting(net, 1);
    assert WaitingUpTo(net, 3) == Waiting(net, 0) + Waiting(net, 1) + Waiting(net, 2);
  }

  function Elements(s: seq<Ptr>): set<Ptr> {
    set x | x in s
  }

  lemma {:induction false} ElementsSize(s: seq<Ptr>)
    requires forall i, j | 0 <= i < j < |s| :: s[i] != s[j]
    ensures |Elements(s)| == |s|
  {
    if |s| > 0 {
      var n := |s| - 1;
      ElementsSize(s[..n]);
      assert Elements(s) == Elements(s[..n]) + {s[n]};
    }
  }

  lemma DisjointSize(a: set<Ptr>, b: set<Ptr>)
    requires a !! b
    ensures |a + b| == |a| + |b|
  {
  }

  lemma SubsetSize(a: set<Ptr>, b: set<Ptr>)
    requires a <= b && |a| == |b|
    ensures a == b
  {
    assert |b - a| == 0;
  }

  /** The memory after a queue has been emptied. */
  lemma Emptied(m: Store, nodes: seq<Ptr>, packets: seq<Packet>, place: Home)
    requires Sane(m) && Tidy(m, NULL) && Batch(m, nodes) && Chain(m, nodes, packets, place)
    ensures Tidy(LeftAll(m, nodes), NULL)
    ensures LeftAll(m, nodes).h.used == m.h.used - |packets| && LeftAll(m, nodes).h.tick == m.h.tick
  {
    TidyLeftAll(m, nodes);
    LeftAllRest(m, nodes, NULL);
  }

  class Stack {
    const env: Env
    const tbl: seq<Entry>
    const mem: Memory
    const devices: seq<Device?>    // by slot; null where no device is registered
    ghost const parts: set<object> // memory, devices and queues
    ghost const most: int          // how many descriptors may come to share a payload
    ghost var net: Net             // the state as Routing sees it

    constructor (env: Env, tbl: seq<Entry>, mem: Memory, devices: seq<Device?>, ghost parts: set<object>,
                 ghost most: int, ghost net: Net)
      ensures this.env == env && this.tbl == tbl && this.mem == mem && this.devices == devices
      ensures this.parts == parts && this.most == most && this.net == net
    {
      this.env, this.tbl, this.mem, this.devices := env, tbl, mem, devices;
      this.parts, this.most, this.net := parts, most, net;
    }

    predicate Plugged(i: int) {
      0 <= i < |devices| && devices[i] != null
    }

    /** A copy that a full queue refuses is discarded, which the counter byte only allows up to 256 sharers. */
    ghost predicate Offerable() {
      most >= 1 && (most <= 0x100 || forall d: int :: env.outLimit(d) == 0)
    }

    /** What never changes once devices are registered. */
    ghost predicate Wired() {
      && Offerable()
      && mem in parts && this !in parts && |devices| == SLOTS
      && env.capacity < 0x1_0000_0000
      && mem.grant == env.grant && mem.capacity == env.capacity
      && (forall i | Plugged(i) ::
            && {devices[i] as object, devices[i].q_in, devices[i].q_out} <= parts
            && devices[i].id == i && devices[i].link == env.link(i)
            && devices[i].q_in.place == Queued(i, false) && devices[i].q_in.max_frames == env.inLimit(i)
            && devices[i].q_out.place == Queued(i, true) && devices[i].q_out.max_frames == env.outLimit(i))
    }

    ghost predicate SlotOk(m: Store, n: Net, i: int)
      reads if Plugged(i) then {devices[i], devices[i].q_in, devices[i].q_out} else {}
    {
      && (i in n.ports <==> Plugged(i))
      && (Plugged(i) ==>
            && i >= 0
            && devices[i].q_in.Valid(m) && devices[i].q_in.contents == n.ports[i].inq
            && devices[i].q_out.Valid(m) && devices[i].q_out.contents == n.ports[i].outq
            && devices[i].attempts == n.ports[i].attempts
            && devices[i].wire == Wire(n.ports[i].gone))
    }

    /** The stack over memory `m` with books `n`, while `hand` is in a hand, or nothing when it is NULL. */
    ghost predicate InvAt(m: Store, n: Net, hand: Ptr)
      reads parts
    {
      && Wired()
      && Sane(m)
      && m.h.tick == n.tick && m.h.used == n.used
      && (forall h {:trigger Counted(env, n, h)} | h == (if hand == NULL then 0 else 1) :: Counted(env, n, h))
      && (forall i {:trigger SlotOk(m, n, i)} :: SlotOk(m, n, i))
      && Tidy(m, hand)
    }

    ghost predicate Inv(hand: Ptr)
      reads this, mem, parts
    {
      InvAt(mem.Now(), net, hand) && mem.Valid() && mem.peak <= most
    }

    /** A step that leaves the queues of device `j` and its entry in `n` alone. */
    lemma SlotKept(m: Store, n: Net, m': Store, n': Net, j: int)
      requires Wired() && SlotOk(m, n, j) && SlotSame(m, m', j)
      requires j in n'.ports <==> j in n.ports
      requires j in n.ports ==> n'.ports[j] == n.ports[j]
      ensures SlotOk(m', n', j)
    {
      if Plugged(j) {
        devices[j].q_in.Kept(m, m');
        devices[j].q_out.Kept(m, m');
      }
    }

    /** Takes a waiting frame of device `i` into the hand. */
    method Pull(i: int) returns (f: Ptr)
      requires Inv(NULL) && Plugged(i) && Pending(net, i)
      modifies this, parts
      ensures mem.peak >= old(mem.peak)
      ensures Inv(f) && Held(mem.Now(), f) && Shares(mem.Now(), f) == 1
      ensures f in mem.s.pkts && mem.s.pkts[f] == old(net).ports[i].inq[0]
      ensures net == Pulled(old(net), i)
    {
      ghost var m, n := mem.Now(), net;
      assert SlotOk(m, n, i) && Counted(env, n, 0);
      f := devices[i].q_in.Dequeue(mem);
      TidyPull(m, f);
      net := Pulled(n, i);
      CountedStep(env, n, 0, net, 1, i);
      PullSame(m, f, i, false, i);
      devices[i].q_out.Kept(m, mem.Now());
      forall j
        ensures SlotOk(mem.Now(), net, j)
      {
        if j != i {
          assert old(SlotOk(mem.Now(), net, j));
          PullSame(m, f, i, false, j);
          SlotKept(m, n, mem.Now(), net, j);
        }
      }
    }

    /** A copy offered to device `i` but not accepted: only the books change. */
    lemma Refused(m: Store, n: Net, f: Ptr, i: int, p: Packet)
      requires InvAt(m, n, f) && f != NULL && i in n.ports && Judged(env, n, i) != Accepted
      ensures InvAt(m.(h := m.h.(tick := m.h.tick + 1)), Offered(env, n, i, p).net, f)
    {
      var m', n' := m.(h := m.h.(tick := m.h.tick + 1)), Offered(env, n, i, p).net;
      assert SlotOk(m, n, i) && Counted(env, n, 1);
      CountedStep(env, n, 1, n', 1, i);
      SaneTick(m, m'.h.tick);
      TidyTick(m, f, m'.h.tick);
      forall j
        ensures SlotOk(m', n', j)
      {
        assert SlotOk(m, n, j);
        if Plugged(j) {
          devices[j].q_in.Kept(m, m');
          devices[j].q_out.Kept(m, m');
        }
      }
    }

    /** What Place needs to know before it enqueues. */
    lemma Prepared(m: Store, n: Net, m0: Store, f: Ptr, c: Ptr, i: int, tail: Ptr)
      requires InvAt(m, n, f) && f != NULL && Held(m, f) && Plugged(i)
      requires m0 == m.(h := m.h.(tick := m.h.tick + 1)) && Routing.Room(env, n)
      requires c != NULL && c !in m.h.descs && tail == devices[i].q_out.tail
      requires m.h.descs[f].data in m.h.bufs && m.h.descs[f].len < |m.h.bufs[m.h.descs[f].data]|
      ensures Sane(m0) && Tidy(m0, f) && Counted(env, n, 1) && i in n.ports
      ensures forall j {:trigger SlotOk(m0, n, j)} :: SlotOk(m0, n, j)
      ensures devices[i].q_out.Valid(Joined(m0, c, m.h.descs[f])) && devices[i].q_out.contents == n.ports[i].outq
      ensures Joined(m0, c, m.h.descs[f]).s.pkts[c] == m.s.pkts[f]
      ensures devices[i].q_in.Valid(Copied(m0, f, c, tail, i)) && devices[i].q_in.contents == n.ports[i].inq
      ensures devices[i].attempts == n.ports[i].attempts && devices[i].wire == Wire(n.ports[i].gone)
      ensures tail != NULL ==> tail in m0.s.home && m0.s.home[tail] == Queued(i, true)
      ensures |devices[i].q_out.nodes| + 1 < 0x1_0000_0000
    {
      SaneTick(m, m0.h.tick);
      TidyTick(m, f, m0.h.tick);
      assert SlotOk(m, n, i) && DescOk(m, c) && Counted(env, n, 1);
      BacklogBound(n, i);
      var q := devices[i].q_out;
      if |q.nodes| > 0 {
        assert Node(m, q.nodes, q.contents, q.place, |q.nodes| - 1);
      }
      q.Kept(m, Joined(m0, c, m.h.descs[f]));
      forall j
        ensures SlotOk(m0, n, j)
      {
        assert SlotOk(m, n, j);
        SlotKept(m, n, m0, n, j);
      }
      CopySame(m0, f, c, tail, i, i);
      assert SlotOk(m0, n, i) && DescOk(m, f);
      devices[i].q_in.Kept(m0, Copied(m0, f, c, tail, i));
    }

    /** One turn of the inner loop of route_frame: a copy of `f` for device `i`; 1 when it was accepted. */
    method Offer(f: Ptr, i: int) returns (n: int)
      requires Inv(f) && Held(mem.Now(), f) && Plugged(i) && Shares(mem.Now(), f) < most
      modifies this, parts
      ensures mem.peak >= old(mem.peak)
      ensures Inv(f) && Held(mem.Now(), f) && f in old(mem.s).pkts && mem.s.pkts[f] == old(mem.s).pkts[f]
      ensures Outcome(net, n) == Offered(env, old(net), i, mem.s.pkts[f])
      ensures Shares(mem.Now(), f) == old(Shares(mem.Now(), f)) + n
    {
      ghost var m, p := mem.Now(), mem.s.pkts[f];
      assert SlotOk(m, net, i) && DescOk(m, f);
      var c := mem.Copy(f);
      if c == NULL {
        Refused(m, net, f, i, p);
        net := Offered(env, net, i, p).net;
        return 0;
      }
      n := Place(f, c, i, m);
    }

    /** A copy accepted by device `i`: the queue there has grown, and nothing else has changed. */
    lemma Joins(m: Store, n: Net, f: Ptr, c: Ptr, tail: Ptr, i: int)
      requires Wired() && Sane(m) && Tidy(m, f) && Held(m, f)
      requires m.h.tick == n.tick + 1 && m.h.used == n.used && Counted(env, n, 1)
      requires Plugged(i) && i in n.ports && Judged(env, n, i) == Accepted
      requires c != NULL && c !in m.h.descs && f != NULL
      requires tail != NULL ==> tail in m.s.home && m.s.home[tail] == Queued(i, true)
      requires forall j {:trigger SlotOk(m, n, j)} | j != i :: SlotOk(m, n, j)
      requires Sane(Copied(m, f, c, tail, i))
      requires SlotOk(Copied(m, f, c, tail, i), Offered(env, n, i, m.s.pkts[f]).net, i)
      ensures InvAt(Copied(m, f, c, tail, i), Offered(env, n, i, m.s.pkts[f]).net, f)
      ensures Held(Copied(m, f, c, tail, i), f) && Copied(m, f, c, tail, i).s.pkts[f] == m.s.pkts[f]
      ensures Shares(Copied(m, f, c, tail, i), f) == Shares(m, f) + 1
    {
      var m', n' := Copied(m, f, c, tail, i), Offered(env, n, i, m.s.pkts[f]).net;
      TidyCopy(m, f, c, tail, i);
      CountedStep(env, n, 1, n', 1, i);
      forall j
        ensures SlotOk(m', n', j)
      {
        if j != i {
          assert SlotOk(m, n, j);
          CopySame(m, f, c, tail, i, j);
          SlotKept(m, n, m', n', j);
        }
      }
    }

    /** The copy `c` of `f`, made from memory `m`, found the queue of device `i` full: it is discarded. */
    method GiveBack(f: Ptr, c: Ptr, i: int, ghost m: Store)
      requires InvAt(m, net, f) && Held(m, f) && i in net.ports && Judged(env, net, i) != Accepted
      requires mem in parts && mem.Valid() && mem.peak <= most && c != NULL && c !in m.h.descs && Shares(m, f) < 0x100
      requires m.h.descs[f].data in m.h.bufs && m.h.descs[f].len < |m.h.bufs[m.h.descs[f].data]|
      requires mem.Now() == Joined(m.(h := m.h.(tick := m.h.tick + 1)), c, m.h.descs[f])
      modifies this, mem
      ensures mem.peak >= old(mem.peak)
      ensures Inv(f) && mem.Now() == m.(h := m.h.(tick := m.h.tick + 1))
      ensures net == Offered(env, old(net), i, m.s.pkts[f]).net
    {
      assert DescOk(m, f);
      SaneTick(m, m.h.tick + 1);
      Refused(m, net, f, i, m.s.pkts[f]);
      LeftJoined(m.(h := m.h.(tick := m.h.tick + 1)), c, m.h.descs[f]);
      FewSpared(mem.Now(), c);
      mem.Discard(c);
      net := Offered(env, net, i, m.s.pkts[f]).net;
    }

    /** The copy `c` of `f` exists, made from memory `m`: it is queued at device `i`, or discarded. */
    method Place(f: Ptr, c: Ptr, i: int, ghost m: Store) returns (n: int)
      requires InvAt(m, net, f) && Held(m, f) && Plugged(i) && Shares(m, f) < most
      requires c != NULL && c !in m.h.descs && Routing.Room(env, net) && mem.Valid() && mem.peak <= most
      requires m.h.descs[f].data in m.h.bufs && m.h.descs[f].len < |m.h.bufs[m.h.descs[f].data]|
      requires mem.Now() == Joined(m.(h := m.h.(tick := m.h.tick + 1)), c, m.h.descs[f])
      modifies this, parts
      ensures mem.peak >= old(mem.peak)
      ensures Inv(f) && Held(mem.Now(), f) && mem.s.pkts[f] == m.s.pkts[f]
      ensures Outcome(net, n) == Offered(env, old(net), i, m.s.pkts[f])
      ensures Shares(mem.Now(), f) == Shares(m, f) + n
    {
      ghost var m0, n0, p := m.(h := m.h.(tick := m.h.tick + 1)), net, m.s.pkts[f];
      ghost var tail := devices[i].q_out.tail;
      assert DescOk(m, f);
      Prepared(m, n0, m0, f, c, i, tail);
      var r := devices[i].q_out.Enqueue(mem, c);
      if r == 0 {
        forall j | j != i
          ensures SlotOk(m0, n0, j)
        {
          assert old(SlotOk(m0, n0, j));
        }
        Joins(m0, n0, f, c, tail, i);
        net := Offered(env, net, i, p).net;
        n := 1;
      } else {
        GiveBack(f, c, i, m);
        n := 0;
      }
    }

    /** Releases the frame in the hand; `routed` is what has been routed by then. */
    method Release(f: Ptr, ghost routed: seq<Packet>)
      requires Inv(f) && Held(mem.Now(), f) && Shares(mem.Now(), f) <= 0x100
      modifies this, mem
      ensures mem.peak >= old(mem.peak)
      ensures Inv(NULL) && net == old(net).(used := old(net).used - 1, routed := routed)
      ensures mem.Now() == Left(old(mem.Now()), f)
    {
      ghost var m, n := mem.Now(), net;
      assert DescOk(m, f) && Counted(env, n, 1);
      FewSpared(m, f);
      SaneLeave(m, f);
      TidyRelease(m, f);
      mem.Discard(f);
      net := n.(used := n.used - 1, routed := routed);
      assert Backlog(net) == Backlog(n);
      forall j
        ensures SlotOk(mem.Now(), net, j)
      {
        assert old(SlotOk(mem.Now(), net, j));
        LeftSame(m, f, j);
        SlotKept(m, n, mem.Now(), net, j);
      }
    }

    /** xcan_get_device. Repair: empty slots are passed over. */
    method GetDevice(id: byte) returns (d: Device?)
      requires Wired()
      ensures d == if Plugged(id as int) then devices[id as int] else null
    {
      var i := 0;
      while i < |devices|
        invariant 0 <= i <= |devices|
        invariant forall j | 0 <= j < i :: j != id as int || devices[j] == null
      {
        if devices[i] != null && devices[i].id == id as int {
          return devices[i];
        }
        i := i + 1;
      }
      return null;
    }

    /** A copy of `f` for the device of interface `id`, if there is one. */
    method OfferTo(f: Ptr, id: byte) returns (n: int)
      requires Inv(f) && Held(mem.Now(), f)
      requires id as int in net.ports ==> Shares(mem.Now(), f) < most
      modifies this, parts
      ensures mem.peak >= old(mem.peak)
      ensures Inv(f) && Held(mem.Now(), f) && f in old(mem.s).pkts && mem.s.pkts[f] == old(mem.s).pkts[f]
      ensures Outcome(net, n) == Offered(env, old(net), id as int, mem.s.pkts[f])
      ensures Shares(mem.Now(), f) == old(Shares(mem.Now(), f)) + n
    {
      assert SlotOk(mem.Now(), net, id as int);
      n := 0;
      var d := GetDevice(id);
      if d != null {
        n := Offer(f, d.id);
      }
    }

    /** Offers a copy of `f` to every interface of one table entry, in order; counts the accepted ones. */
    method OfferEntry(f: Ptr, ids: seq<byte>) returns (n: int)
      requires Inv(f) && Held(mem.Now(), f)
      requires Shares(mem.Now(), f) + Reach(net.ports.Keys, ids) <= most
      modifies this, parts
      ensures mem.peak >= old(mem.peak)
      ensures Inv(f) && Held(mem.Now(), f) && f in old(mem.s).pkts && mem.s.pkts[f] == old(mem.s).pkts[f]
      ensures Outcome(net, n) == OfferedAll(env, old(net), ids, mem.s.pkts[f])
      ensures Shares(mem.Now(), f) == old(Shares(mem.Now(), f)) + n
    {
      ghost var p, n0, shares := mem.s.pkts[f], net, Shares(mem.Now(), f);
      var j := 0;
      n := 0;
      assert ids[..0] == [];
      while j < |ids|
        invariant mem.peak >= old(mem.peak)
        invariant 0 <= j <= |ids|
        invariant Inv(f) && Held(mem.Now(), f) && mem.s.pkts[f] == p
        invariant Outcome(net, n) == OfferedAll(env, n0, ids[..j], p)
        invariant Shares(mem.Now(), f) == shares + n
      {
        ReachBounds(env, n0, ids[..j], p);
        ReachPrefix(n0.ports.Keys, ids, j);
        OfferedNext(env, n0, ids, p, j);
        var a := OfferTo(f, ids[j]);
        n := n + a;
        j := j + 1;
      }
      assert ids[..j] == ids;
    }

    /** The two loops of route_frame: offers a copy of `f` to every interface of every matching entry. */
    method CopyOut(f: Ptr) returns (copies: int)
      requires Inv(f) && Held(mem.Now(), f) && Shares(mem.Now(), f) == 1
      requires f in mem.s.pkts && Reach(net.ports.Keys, Dests(tbl, mem.s.pkts[f].id)) < most
      modifies this, parts
      ensures mem.peak >= old(mem.peak)
      ensures Inv(f) && Held(mem.Now(), f) && f in old(mem.s).pkts && mem.s.pkts[f] == old(mem.s).pkts[f]
      ensures Outcome(net, copies) == OfferedAll(env, old(net), Dests(tbl, mem.s.pkts[f].id), mem.s.pkts[f])
      ensures Shares(mem.Now(), f) == 1 + copies
    {
      ghost var p, n0 := mem.s.pkts[f], net;
      copies := 0;
      var i := 0;
      assert tbl[..0] == [];
      while i < |tbl|
        invariant mem.peak >= old(mem.peak)
        invariant 0 <= i <= |tbl|
        invariant Inv(f) && Held(mem.Now(), f) && mem.s.pkts[f] == p
        invariant Outcome(net, copies) == OfferedAll(env, n0, Dests(tbl[..i], p.id), p)
        invariant Shares(mem.Now(), f) == 1 + copies
      {
        assert DescOk(mem.Now(), f);
        ghost var done := Dests(tbl[..i], p.id);
        ReachBounds(env, n0, done, p);
        assert tbl[..i + 1][..i] == tbl[..i];
        if tbl[i].canId == mem.h.descs[f].id {
          EnoughRoom(n0.ports.Keys, i, p.id);
          var n := OfferEntry(f, tbl[i].interfaces);
          OfferedConcat(env, n0, done, tbl[i].interfaces, p);
          copies := copies + n;
        } else {
          assert done + [] == done;
        }
        i := i + 1;
      }
      assert tbl[..i] == tbl;
    }

    /**
     * route_frame. Repairs: every destination gets a copy of its own, and the frame itself is
     * released at the end. Returns the score less one, and less one per accepted copy.
     */
    method RouteFrame(f: Ptr, score: int) returns (left: int)
      requires Inv(f) && Held(mem.Now(), f) && Shares(mem.Now(), f) == 1
      requires f in mem.s.pkts && Reach(net.ports.Keys, Dests(tbl, mem.s.pkts[f].id)) < most <= 0x100
      modifies this, parts
      ensures mem.peak >= old(mem.peak)
      ensures Inv(NULL) && f in old(mem.s).pkts && net.ports.Keys == old(net).ports.Keys
      ensures Outcome(net, score - left - 1) == Routed(env, tbl, old(net), old(mem.s).pkts[f])
    {
      ghost var p, n0 := mem.s.pkts[f], net;
      var copies := CopyOut(f);
      ReachBounds(env, n0, Dests(tbl, p.id), p);
      left := score - copies - 1;
      Release(f, n0.routed + [p]);
    }

    /** The entries up to `i` leave room for the interfaces of entry `i`. */
    lemma EnoughRoom(slots: set<int>, i: nat, id: uint32)
      requires i < |tbl| && tbl[i].canId == id
      ensures Reach(slots, Dests(tbl[..i], id)) + Reach(slots, tbl[i].interfaces) <= Reach(slots, Dests(tbl, id))
    {
      var done := Dests(tbl[..i], id);
      assert tbl[..i + 1][..i] == tbl[..i];
      assert Dests(tbl[..i + 1], id) == done + tbl[i].interfaces;
      DestsPrefix(tbl, i + 1, id);
      ReachConcat(slots, done, tbl[i].interfaces);
      var all := Dests(tbl, id);
      assert all == Dests(tbl[..i + 1], id) + all[|Dests(tbl[..i + 1], id)|..];
      ReachConcat(slots, Dests(tbl[..i + 1], id), all[|Dests(tbl[..i + 1], id)|..]);
    }

    /** The slots with a device. */
    ghost function Slots(): set<int> {
      set i | 0 <= i < |devices| && Plugged(i)
    }

    lemma SlotsAreKeys(hand: Ptr)
      requires Inv(hand)
      ensures net.ports.Keys == Slots()
    {
      forall i
        ensures i in net.ports <==> i in Slots()
      {
        assert SlotOk(mem.Now(), net, i);
      }
    }

    /** Any frame may be routed: the counter byte suffices for what the table makes of it. */
    ghost predicate Suits() {
      most <= 0x100 && forall id {:trigger Dests(tbl, id)} :: Reach(Slots(), Dests(tbl, id)) < most
    }

    /** xcan_router_receive. Repair: the frame is routed, and released by doing so. */
    method RouterReceive(f: Ptr) returns (r: int)
      requires Inv(f) && Held(mem.Now(), f) && Shares(mem.Now(), f) == 1 && Suits()
      modifies this, parts
      ensures mem.peak >= old(mem.peak)
      ensures Inv(NULL) && f in old(mem.s).pkts
      ensures net == Routed(env, tbl, old(net), old(mem.s).pkts[f]).net
    {
      SlotsAreKeys(f);
      var left := RouteFrame(f, 0);
      return 0;
    }

    /** xcan_datalink_receive */
    method DatalinkReceive(f: Ptr) returns (r: int)
      requires Inv(f) && Held(mem.Now(), f) && Shares(mem.Now(), f) == 1 && Suits()
      modifies this, parts
      ensures mem.peak >= old(mem.peak)
      ensures Inv(NULL) && f in old(mem.s).pkts
      ensures net == Routed(env, tbl, old(net), old(mem.s).pkts[f]).net
    {
      r := RouterReceive(f);
    }

    /** The frame counters tell which queues of device `i` are empty. */
    lemma QueueState(i: int)
      requires Inv(NULL) && Plugged(i)
      ensures devices[i].q_in.frames == 0 <==> !Pending(net, i)
      ensures devices[i].q_out.frames == 0 <==> !Sendable(net, i)
    {
      assert SlotOk(mem.Now(), net, i);
    }

    /** One turn of devloop_in. */
    method ReceiveFirst(i: int)
      requires Inv(NULL) && Suits() && Plugged(i) && Pending(net, i)
      modifies this, parts
      ensures mem.peak >= old(mem.peak)
      ensures Inv(NULL) && net == Handled(env, tbl, old(net), i).net
    {
      var f := Pull(i);
      var r := DatalinkReceive(f);
    }

    /** devloop_in on slot `i`. */
    method DevLoopIn(i: int, score: int) returns (left: int)
      requires Inv(NULL) && Suits() && 0 <= i < SLOTS
      modifies this, parts
      ensures mem.peak >= old(mem.peak)
      ensures Inv(NULL) && Outcome(net, left) == LoopIn(env, tbl, old(net), i, score)
    {
      left := score;
      ghost var goal := LoopIn(env, tbl, net, i, score);
      assert SlotOk(mem.Now(), net, i);
      if devices[i] == null {
        return;
      }
      while left > 0
        invariant mem.peak >= old(mem.peak)
        invariant Inv(NULL) && LoopIn(env, tbl, net, i, left) == goal
      {
        QueueState(i);
        if devices[i].q_in.frames == 0 {
          break;
        }
        ReceiveFirst(i);
        left := left - 1;
      }
    }

    /** xcan_router_loop. Repair: the device whose frames it routes is a parameter. */
    method RouterLoop(i: int, score: int) returns (left: int)
      requires Inv(NULL) && Suits() && Plugged(i)
      modifies this, parts
      ensures mem.peak >= old(mem.peak)
      ensures Inv(NULL) && Outcome(net, left) == Routing.RouterLoop(env, tbl, old(net), i, score)
    {
      left := score;
      while left > 0
        invariant mem.peak >= old(mem.peak)
        invariant Inv(NULL)
        invariant Routing.RouterLoop(env, tbl, net, i, left) == Routing.RouterLoop(env, tbl, old(net), i, score)
      {
        QueueState(i);
        if devices[i].q_in.frames == 0 {
          break;
        }
        left := HandleFirst(i, left);
      }
    }

    /** One turn of xcan_router_loop. */
    method HandleFirst(i: int, score: int) returns (left: int)
      requires Inv(NULL) && Suits() && Plugged(i) && Pending(net, i)
      modifies this, parts
      ensures mem.peak >= old(mem.peak)
      ensures Inv(NULL) && left < score
      ensures Outcome(net, score - left - 1) == Handled(env, tbl, old(net), i)
    {
      ghost var p := net.ports[i].inq[0];
      CopiesNatural(env, Pulled(net, i), Dests(tbl, p.id), p);
      var f := Pull(i);
      SlotsAreKeys(f);
      left := RouteFrame(f, score);
    }

    /** Peeks at the out-queue of device `i` and hands its first frame to the driver. */
    method SendFirst(i: int) returns (r: int)
      requires Inv(NULL) && Plugged(i) && Sendable(net, i)
      modifies devices[i]
      ensures r == 0 <==> env.link(i)(old(devices[i].attempts))
      ensures devices[i].attempts == old(devices[i].attempts) + 1
      ensures var p := net.ports[i].outq[0];
        devices[i].wire == old(devices[i].wire) + if r == 0 then [OnWire(p.id, p.flags, p.payload)] else []
    {
      assert SlotOk(mem.Now(), net, i);
      var f := devices[i].q_out.Peek(mem.Now());
      assert DescOk(mem.Now(), f) && TidyAt(mem.Now(), NULL, f);
      var d := mem.h.descs[f];
      r := devices[i].Send(d.id, d.flags, mem.h.bufs[d.data], d.len as byte);
    }

    /** The first frame of the out-queue of device `i` is transmitted, or not; it stays queued. */
    method Transmit(i: int) returns (r: int)
      requires Inv(NULL) && Plugged(i) && Sendable(net, i)
      modifies this, parts
      ensures mem.peak >= old(mem.peak)
      ensures Inv(NULL) && mem.Now() == old(mem.Now())
      ensures r == 0 <==> env.link(i)(old(net).ports[i].attempts)
      ensures net == old(net).(ports := old(net).ports[i := Tried(old(net).ports[i], r == 0)])
    {
      ghost var n := net;
      assert SlotOk(mem.Now(), n, i) && Counted(env, n, 0);
      r := SendFirst(i);
      TriedWire(n.ports[i], r == 0);
      net := n.(ports := n.ports[i := Tried(n.ports[i], r == 0)]);
      BacklogSame(n, net);
      forall j
        ensures SlotOk(mem.Now(), net, j)
      {
        assert old(SlotOk(mem.Now(), net, j));
      }
    }

    /** Takes the first frame of the out-queue of device `i`, already transmitted, into the hand. */
    method PullOut(i: int) returns (f: Ptr)
      requires Inv(NULL) && Plugged(i) && Sendable(net, i)
      modifies this, parts
      ensures mem.peak >= old(mem.peak)
      ensures Inv(f) && Held(mem.Now(), f) && Shares(mem.Now(), f) < 0x100
      ensures net == old(net).(ports := old(net).ports[i := old(net).ports[i].(outq := old(net).ports[i].outq[1..])])
    {
      ghost var m, n := mem.Now(), net;
      assert SlotOk(m, n, i) && Counted(env, n, 0);
      f := devices[i].q_out.Dequeue(mem);
      TidyPull(m, f);
      net := n.(ports := n.ports[i := n.ports[i].(outq := n.ports[i].outq[1..])]);
      CountedStep(env, n, 0, net, 1, i);
      PullSame(m, f, i, true, i);
      devices[i].q_in.Kept(m, mem.Now());
      forall j
        ensures SlotOk(mem.Now(), net, j)
      {
        if j != i {
          assert old(SlotOk(mem.Now(), net, j));
          PullSame(m, f, i, true, j);
          SlotKept(m, n, mem.Now(), net, j);
        }
      }
    }

    /** One turn of devloop_out: 1 when the first frame was sent and left the queue, 0 when it stayed. */
    method SendHead(i: int) returns (n: int)
      requires Inv(NULL) && Plugged(i) && Sendable(net, i)
      modifies this, parts
      ensures mem.peak >= old(mem.peak)
      ensures Inv(NULL) && Outcome(net, n) == Sent(env, old(net), i)
    {
      ghost var n0 := net;
      var r := Transmit(i);
      if r != 0 {
        return 0;
      }
      var f := PullOut(i);
      Release(f, net.routed);
      assert net.ports == n0.ports[i := Sent(env, n0, i).net.ports[i]];
      n := 1;
    }

    /** One turn of devloop_out, which is the last unless a frame was sent. */
    method SendTurn(i: int, score: int) returns (more: bool, left: int)
      requires Inv(NULL) && Plugged(i) && score > 0
      modifies this, parts
      ensures mem.peak >= old(mem.peak)
      ensures Inv(NULL) && (more ==> left < score)
      ensures LoopOut(env, old(net), i, score) == if more then LoopOut(env, net, i, left) else Outcome(net, left)
    {
      QueueState(i);
      if devices[i].q_out.frames == 0 {
        return false, score;
      }
      var n := SendHead(i);
      more, left := n != 0, score - n;
    }

    /** devloop_out on slot `i`. */
    method DevLoopOut(i: int, score: int) returns (left: int)
      requires Inv(NULL) && 0 <= i < SLOTS
      modifies this, parts
      ensures mem.peak >= old(mem.peak)
      ensures Inv(NULL) && Outcome(net, left) == LoopOut(env, old(net), i, score)
    {
      left := score;
      assert SlotOk(mem.Now(), net, i);
      if devices[i] == null {
        return;
      }
      ghost var goal := LoopOut(env, net, i, score);
      var more := true;
      while more && left > 0
        invariant mem.peak >= old(mem.peak)
        invariant Inv(NULL) && goal == if more then LoopOut(env, net, i, left) else Outcome(net, left)
        decreases more, left
      {
        more, left := SendTurn(i, left);
      }
    }

    /** xcan_devices_loop */
    method DevicesLoop(score: int, direction: int) returns (left: int)
      requires Inv(NULL) && (direction == DIR_IN ==> Suits())
      modifies this, parts
      ensures mem.peak >= old(mem.peak)
      ensures Inv(NULL) && Outcome(net, left) == Routing.DevicesLoop(env, tbl, old(net), direction, score)
    {
      left := score;
      while left > 0
        invariant mem.peak >= old(mem.peak)
        invariant Inv(NULL)
        invariant Routing.DevicesLoop(env, tbl, net, direction, left)
               == Routing.DevicesLoop(env, tbl, old(net), direction, score)
      {
        left := OnePass(left, direction);
        left := left - 1;
      }
    }

    /** One pass of xcan_devices_loop over all slots. */
    method OnePass(score: int, direction: int) returns (left: int)
      requires Inv(NULL) && (direction == DIR_IN ==> Suits())
      modifies this, parts
      ensures mem.peak >= old(mem.peak)
      ensures Inv(NULL) && Outcome(net, left) == Pass(env, tbl, old(net), direction, score)
    {
      left := score;
      if direction == DIR_IN {
        var i := 0;
        while i < |devices|
          invariant mem.peak >= old(mem.peak)
          invariant Inv(NULL) && 0 <= i <= SLOTS
          invariant PassIn(env, tbl, net, i, left) == PassIn(env, tbl, old(net), 0, score)
        {
          left := DevLoopIn(i, left);
          i := i + 1;
        }
      } else if direction == DIR_OUT {
        var i := 0;
        while i < |devices|
          invariant mem.peak >= old(mem.peak)
          invariant Inv(NULL) && 0 <= i <= SLOTS
          invariant PassOut(env, net, i, left) == PassOut(env, old(net), 0, score)
        {
          left := DevLoopOut(i, left);
          i := i + 1;
        }
      }
    }

    /**
     * xcan_stack_recv: 0 when the frame entered the in-queue of device `i`; otherwise 1, and the
     * memory is as before but for the allocation calls made. Repair: the flags are kept.
     */
    method StackRecv(i: int, id: uint32, flags: byte, data: Payload) returns (r: int)
      requires Inv(NULL) && Plugged(i)
      modifies this, parts
      ensures mem.peak >= old(mem.peak)
      ensures Inv(NULL) && i in old(net).ports && Outcome(net, r) == Received(env, old(net), i, id, flags, data)
      ensures r == 0 <==>
        && old(net).used < env.capacity && env.grant(old(net).tick) && env.grant(old(net).tick + 1)
        && (env.inLimit(i) == 0 || |old(net).ports[i].inq| < env.inLimit(i) as int)
      ensures r == 0 ==> InQ(net, i) == InQ(old(net), i) + [Packet(i, id, flags, data)]
      ensures r != 0 ==> mem.Now() == old(mem.Now()).(h := old(mem.h).(tick := mem.h.tick))
    {
      ghost var m := mem.Now();
      assert SlotOk(m, net, i);
      var f := mem.Alloc(|data| as uint32);
      Refuse(m, net, mem.h.tick);
      net := net.(tick := mem.h.tick);
      if f == NULL {
        return 1;
      }
      r := Deliver(f, i, id, flags, data, m.(h := m.h.(tick := mem.h.tick)));
    }

    /** Allocation calls that came to nothing. */
    lemma Refuse(m: Store, n: Net, tick: nat)
      requires InvAt(m, n, NULL)
      ensures InvAt(m.(h := m.h.(tick := tick)), n.(tick := tick), NULL)
    {
      var m', n' := m.(h := m.h.(tick := tick)), n.(tick := tick);
      assert Counted(env, n, 0);
      SaneTick(m, tick);
      TidyTick(m, NULL, tick);
      BacklogSame(n, n');
      forall j
        ensures SlotOk(m', n', j)
      {
        assert SlotOk(m, n, j);
        SlotKept(m, n, m', n', j);
      }
    }

    /** What Deliver needs to know before it enqueues. */
    lemma AdmitPrepared(m: Store, n: Net, p: Ptr, f: Frame, data: Payload, i: int, tail: Ptr)
      requires InvAt(m, n, NULL) && Plugged(i) && n.used < env.capacity
      requires p != NULL && p !in m.h.descs && f.data !in m.h.bufs && f.len == |data|
      requires tail == devices[i].q_in.tail
      ensures Sane(Minted(m, p, f, data)) && Counted(env, n, 0) && i in n.ports
      ensures devices[i].q_in.Valid(Minted(m, p, f, data)) && devices[i].q_in.contents == n.ports[i].inq
      ensures devices[i].q_out.Valid(Admitted(m, p, f, data, tail, i)) && devices[i].q_out.contents == n.ports[i].outq
      ensures devices[i].attempts == n.ports[i].attempts && devices[i].wire == Wire(n.ports[i].gone)
      ensures tail != NULL ==> tail in m.s.home && m.s.home[tail] == Queued(i, false)
      ensures |devices[i].q_in.nodes| + 1 < 0x1_0000_0000
    {
      assert SlotOk(m, n, i) && DescOk(m, p) && Counted(env, n, 0);
      BacklogBound(n, i);
      SaneMint(m, p, f, data);
      var q := devices[i].q_in;
      if |q.nodes| > 0 {
        assert Node(m, q.nodes, q.contents, q.place, |q.nodes| - 1);
      }
      q.Kept(m, Minted(m, p, f, data));
      AdmitSame(m, p, f, data, tail, i, i);
      devices[i].q_out.Kept(m, Admitted(m, p, f, data, tail, i));
    }

    /** A frame entered the in-queue of device `i`: the queue there has grown, and nothing else has changed. */
    lemma Admits(m: Store, n: Net, n': Net, p: Ptr, f: Frame, data: Payload, i: int, tail: Ptr)
      requires Wired() && Sane(m) && Tidy(m, NULL) && m.h.tick == n'.tick && m.h.used == n.used
      requires Counted(env, n, 0) && n.used < env.capacity && Plugged(i) && i in n.ports && i in n'.ports
      requires p != NULL && p !in m.h.descs && f.data !in m.h.bufs && f.len == |data|
      requires tail != NULL ==> tail in m.s.home && m.s.home[tail] == Queued(i, false)
      requires n'.used == n.used + 1 && n'.ports == n.ports[i := n'.ports[i]]
      requires |n'.ports[i].inq| == |n.ports[i].inq| + 1 && n'.ports[i].outq == n.ports[i].outq
      requires forall j {:trigger SlotOk(m, n, j)} | j != i :: SlotOk(m, n, j)
      requires Sane(Admitted(m, p, f, data, tail, i)) && SlotOk(Admitted(m, p, f, data, tail, i), n', i)
      ensures InvAt(Admitted(m, p, f, data, tail, i), n', NULL)
    {
      var m' := Admitted(m, p, f, data, tail, i);
      TidyReceive(m, p, f, data, tail, i);
      CountedStep(env, n, 0, n', 0, i);
      forall j
        ensures SlotOk(m', n', j)
      {
        if j != i {
          assert SlotOk(m, n, j);
          AdmitSame(m, p, f, data, tail, i, j);
          SlotKept(m, n, m', n', j);
        }
      }
    }

    /**
     * The frame `f`, just allocated from memory `m`, is filled in and enters the in-queue of
     * device `i`; if that is full it is discarded again.
     */
    method Deliver(f: Ptr, i: int, id: uint32, flags: byte, data: Payload, ghost m: Store) returns (r: int)
      requires InvAt(m, net, NULL) && Plugged(i) && i in net.ports && net.used < env.capacity
      requires mem.Valid() && mem.peak <= most
      requires f != NULL && f !in m.h.descs && f in mem.h.descs && mem.h.descs[f].data !in m.h.bufs
      requires mem.h.descs[f] == Frame(0, 0, 0, |data|, mem.h.descs[f].data)
      requires mem.Now() == Minted(m, f, mem.h.descs[f], seq(|data|, _ => 0))
      modifies this, parts
      ensures mem.peak >= old(mem.peak)
      ensures Inv(NULL) && r == if Full(env.inLimit(i), |old(net).ports[i].inq|) then 1 else 0
      ensures r == 0 ==> net == Entered(old(net), i, Packet(i, id, flags, data))
      ensures r != 0 ==> net == old(net) && mem.Now() == m
    {
      ghost var d := Frame(i, id, flags, |data|, mem.h.descs[f].data);
      FilledMinted(m, f, mem.h.descs[f], seq(|data|, _ => 0), d, data);
      mem.Fill(f, i, id, flags, data);
      r := Admit(f, i, data, m, d);
    }

    /** The frame `f`, just allocated from memory `m`, found the in-queue full: it is discarded. */
    method Return(f: Ptr, ghost data: Payload, ghost m: Store, ghost d: Frame)
      requires InvAt(m, net, NULL) && mem.Valid() && mem.peak <= most && f != NULL && f !in m.h.descs
      requires d.data !in m.h.bufs && d.len == |data| && mem.Now() == Minted(m, f, d, data)
      modifies mem
      ensures mem.peak >= old(mem.peak)
      ensures Inv(NULL) && mem.Now() == m
    {
      LeftMinted(m, f, d, data);
      FewSpared(mem.Now(), f);
      mem.Discard(f);
    }

    /** The second half of Deliver, with the frame filled in as `d`. */
    method Admit(f: Ptr, i: int, ghost data: Payload, ghost m: Store, ghost d: Frame) returns (r: int)
      requires InvAt(m, net, NULL) && Plugged(i) && i in net.ports && net.used < env.capacity
      requires mem.Valid() && mem.peak <= most && f != NULL && f !in m.h.descs && d.data !in m.h.bufs && d.len == |data|
      requires mem.Now() == Minted(m, f, d, data) && d.dev == i
      modifies this, parts
      ensures mem.peak >= old(mem.peak)
      ensures Inv(NULL) && r == if Full(env.inLimit(i), |old(net).ports[i].inq|) then 1 else 0
      ensures r == 0 ==> net == Entered(old(net), i, Packet(i, d.id, d.flags, data))
      ensures r != 0 ==> net == old(net) && mem.Now() == m
    {
      ghost var n, tail := net, devices[i].q_in.tail;
      assert data[..d.len] == data;
      AdmitPrepared(m, n, f, d, data, i, tail);
      r := devices[i].q_in.Enqueue(mem, f);
      if r == 0 {
        forall j | j != i
          ensures SlotOk(m, n, j)
        {
          assert old(SlotOk(m, net, j));
        }
        net := Entered(n, i, Packet(i, d.id, d.flags, data));
        Admits(m, n, net, f, d, data, i, tail);
      } else {
        Return(f, data, m, d);
        r := 1;
      }
    }

    /** Emptying a queue of device `i` leaves the other devices alone. */
    lemma FlushSlot(m: Store, n: Net, nodes: seq<Ptr>, packets: seq<Packet>, i: int, outgoing: bool, j: int)
      requires Wired() && Sane(m) && Batch(m, nodes) && Chain(m, nodes, packets, Queued(i, outgoing))
      requires i in n.ports && j != i && SlotOk(m, n, j)
      ensures SlotOk(LeftAll(m, nodes), Flushed(n, i, outgoing), j)
    {
      if Plugged(j) {
        LeftAllSame(m, nodes, packets, Queued(i, outgoing), Queued(j, false));
        LeftAllSame(m, nodes, packets, Queued(i, outgoing), Queued(j, true));
        devices[j].q_in.Kept(m, LeftAll(m, nodes));
        devices[j].q_out.Kept(m, LeftAll(m, nodes));
      }
    }

    /** The queue `q` of device `i` has just been emptied; it was `nodes`, saying `packets`. */
    lemma FlushOk(m: Store, n: Net, nodes: seq<Ptr>, packets: seq<Packet>, i: int, outgoing: bool)
      requires Wired() && Sane(m) && Tidy(m, NULL) && Batch(m, nodes) && Chain(m, nodes, packets, Queued(i, outgoing))
      requires Plugged(i) && i in n.ports && Counted(env, n, 0)
      requires m.h.tick == n.tick && m.h.used == n.used
      requires packets == if outgoing then n.ports[i].outq else n.ports[i].inq
      requires forall j {:trigger SlotOk(m, n, j)} | j != i :: SlotOk(m, n, j)
      requires SlotOk(LeftAll(m, nodes), Flushed(n, i, outgoing), i)
      ensures InvAt(LeftAll(m, nodes), Flushed(n, i, outgoing), NULL)
    {
      Emptied(m, nodes, packets, Queued(i, outgoing));
      CountedStep(env, n, 0, Flushed(n, i, outgoing), 0, i);
      forall j
        ensures SlotOk(LeftAll(m, nodes), Flushed(n, i, outgoing), j)
      {
        if j != i {
          assert SlotOk(m, n, j);
          FlushSlot(m, n, nodes, packets, i, outgoing, j);
        }
      }
    }

    /** xcan_queue_empty on a queue of device `i`. */
    method Flush(i: int, outgoing: bool)
      requires Inv(NULL) && Plugged(i)
      modifies this, parts
      ensures mem.peak >= old(mem.peak)
      ensures Inv(NULL) && i in old(net).ports && net == Flushed(old(net), i, outgoing)
      ensures if outgoing then OutQ(net, i) == [] && InQ(net, i) == InQ(old(net), i)
              else InQ(net, i) == [] && OutQ(net, i) == OutQ(old(net), i)
    {
      assert SlotOk(mem.Now(), net, i);
      if outgoing {
        FlushOut(i);
      } else {
        FlushIn(i);
      }
    }

    /** The device whose out-queue has just been emptied. */
    lemma FlushedOut(m: Store, n: Net, i: int)
      requires Plugged(i) && i in n.ports
      requires devices[i].q_out.Valid(m) && devices[i].q_out.contents == []
      requires devices[i].q_in.Valid(m) && devices[i].q_in.contents == n.ports[i].inq
      requires devices[i].attempts == n.ports[i].attempts && devices[i].wire == Wire(n.ports[i].gone)
      ensures SlotOk(m, Flushed(n, i, true), i)
    {
      DroppedWire(n.ports[i].gone, n.ports[i].outq);
    }

    method FlushOut(i: int)
      requires Inv(NULL) && Plugged(i) && i in net.ports
      modifies this, parts
      ensures mem.peak >= old(mem.peak)
      ensures Inv(NULL) && net == Flushed(old(net), i, true)
    {
      ghost var m, n := mem.Now(), net;
      assert SlotOk(m, n, i) && Counted(env, n, 0);
      ghost var nodes, packets := devices[i].q_out.nodes, devices[i].q_out.contents;
      FewAll(m);
      devices[i].q_out.Empty(mem);
      LeftAllSame(m, nodes, packets, Queued(i, true), Queued(i, false));
      devices[i].q_in.Kept(m, mem.Now());
      FlushedOut(mem.Now(), n, i);
      net := Flushed(n, i, true);
      forall j | j != i
        ensures SlotOk(m, n, j)
      {
        assert old(SlotOk(mem.Now(), net, j));
      }
      FlushOk(m, n, nodes, packets, i, true);
    }

    method FlushIn(i: int)
      requires Inv(NULL) && Plugged(i) && i in net.ports
      modifies this, parts
      ensures mem.peak >= old(mem.peak)
      ensures Inv(NULL) && net == Flushed(old(net), i, false)
    {
      ghost var m, n := mem.Now(), net;
      assert SlotOk(m, n, i) && Counted(env, n, 0);
      ghost var nodes, packets := devices[i].q_in.nodes, devices[i].q_in.contents;
      FewAll(m);
      devices[i].q_in.Empty(mem);
      LeftAllSame(m, nodes, packets, Queued(i, false), Queued(i, true));
      devices[i].q_out.Kept(m, mem.Now());
      net := Flushed(n, i, false);
      forall j | j != i
        ensures SlotOk(m, n, j)
      {
        assert old(SlotOk(mem.Now(), net, j));
      }
      FlushOk(m, n, nodes, packets, i, false);
    }

    /**
     * In every state between two operations on the memory, whatever is in the hand: every live
     * descriptor has a live payload, and the last byte of a payload is the number of descriptors
     * that share it, modulo 256. If at most 254 copies of a frame can be made, or if nothing is
     * in the hand, that number is from 1 to 255, so that the byte tells it exactly.
     */
    lemma CountersTell(hand: Ptr, b: Ptr)
      requires Inv(hand)
      ensures forall p | p in mem.h.descs :: mem.h.descs[p].data in mem.h.bufs
      ensures b in mem.h.bufs ==>
        && |mem.h.bufs[b]| > 0 && 1 <= Count(mem.h.descs, b) <= most
        && var counter := mem.h.bufs[b][|mem.h.bufs[b]| - 1] as int;
           && counter == Count(mem.h.descs, b) % 0x100
           && (hand == NULL || most <= 0xFF ==> counter == Count(mem.h.descs, b) <= 0xFF)
    {
      var m := mem.Now();
      assert BufOk(m, b) && RoomyAt(m, hand, b) && DescOk(m, NULL) && BelowAt(m.s.tally, mem.peak, b);
      forall p | p in mem.h.descs
        ensures mem.h.descs[p].data in mem.h.bufs
      {
        assert DescOk(m, p);
      }
    }

    /** The descriptors linked in the queues of the first `i` slots. */
    ghost function NodesUpTo(i: nat): set<Ptr>
      reads parts
      requires Wired()
    {
      if i == 0 then {}
      else if Plugged(i - 1) then
        NodesUpTo(i - 1) + Elements(devices[i - 1].q_in.nodes) + Elements(devices[i - 1].q_out.nodes)
      else NodesUpTo(i - 1)
    }

    lemma SlotNodes(m: Store, n: Net, i: int, outgoing: bool) returns (s: set<Ptr>)
      requires Wired() && Plugged(i) && SlotOk(m, n, i)
      ensures s == Elements(if outgoing then devices[i].q_out.nodes else devices[i].q_in.nodes)
      ensures |s| == if outgoing then |OutQ(n, i)| else |InQ(n, i)|
      ensures forall p | p in s :: p in m.h.descs && p in m.s.home && m.s.home[p] == Queued(i, outgoing)
    {
      var q := if outgoing then devices[i].q_out else devices[i].q_in;
      s := Elements(q.nodes);
      ElementsSize(q.nodes);
      forall p | p in s
        ensures p in m.h.descs && p in m.s.home && m.s.home[p] == Queued(i, outgoing)
      {
        var k :| 0 <= k < |q.nodes| && q.nodes[k] == p;
        assert Node(m, q.nodes, q.contents, q.place, k);
      }
    }

    /** They are live, they lie in the queues of these slots, and there are as many as frames waiting there. */
    ghost predicate Collected(i: nat)
      reads this, mem, parts
      requires Wired()
    {
      && |NodesUpTo(i)| == WaitingUpTo(net, i)
      && forall p | p in NodesUpTo(i) ::
           p in mem.h.descs && p in mem.s.home && mem.s.home[p].Queued? && mem.s.home[p].port < i
    }

    lemma CollectNext(i: nat)
      requires Inv(NULL) && Collected(i)
      ensures Collected(i + 1)
    {
      assert SlotOk(mem.Now(), net, i);
      if Plugged(i) {
        var a := SlotNodes(mem.Now(), net, i, false);
        var b := SlotNodes(mem.Now(), net, i, true);
        DisjointSize(NodesUpTo(i), a);
        DisjointSize(NodesUpTo(i) + a, b);
        assert NodesUpTo(i + 1) == NodesUpTo(i) + a + b;
      }
    }

    lemma {:induction false} NodesCount(i: nat)
      requires Inv(NULL)
      ensures Collected(i)
    {
      if i > 0 {
        NodesCount(i - 1);
        CollectNext(i - 1);
      }
    }

    /** Between calls the live descriptors are exactly those linked in the queues, each in one place. */
    lemma LiveAreWaiting()
      requires Inv(NULL)
      ensures mem.h.descs.Keys == NodesUpTo(SLOTS) && |mem.h.descs| == mem.h.used == Backlog(net)
    {
      var m := mem.Now();
      assert SizeOk(m, m.h.descs) && Counted(env, net, 0);
      NodesCount(SLOTS);
      WaitingAll(net);
      assert |mem.h.descs.Keys| == |mem.h.descs|;
      assert NodesUpTo(SLOTS) <= mem.h.descs.Keys;
      SubsetSize(NodesUpTo(SLOTS), mem.h.descs.Keys);
    }

    /** xcan_stack_tick as written: what is left of the score after receiving is the score for sending. */
    method TickAsWritten()
      requires Inv(NULL) && Suits()
      modifies this, parts
      ensures mem.peak >= old(mem.peak)
      ensures Inv(NULL) && net == Routing.TickAsWritten(env, tbl, old(net), 20).net
    {
      var score := 20;
      score := DevicesLoop(score, DIR_IN);
      score := DevicesLoop(score, DIR_OUT);
    }

    /** xcan_stack_tick with a budget of its own for each direction. */
    method Tick(budget: int)
      requires Inv(NULL) && Suits()
      modifies this, parts
      ensures mem.peak >= old(mem.peak)
      ensures Inv(NULL) && net == Routing.Tick(env, tbl, old(net), budget)
    {
      var a := DevicesLoop(budget, DIR_IN);
      var b := DevicesLoop(budget, DIR_OUT);
    }

    /** Any run of calls does to the real queues, frames and devices what Routing.Run says. */
    method Run(es: seq<Event>)
      requires Inv(NULL) && Suits()
      modifies this, parts
      ensures mem.peak >= old(mem.peak)
      ensures Inv(NULL) && net == Routing.Run(env, tbl, old(net), es)
    {
      var k := 0;
      assert es[..0] == [];
      while k < |es|
        invariant mem.peak >= old(mem.peak)
        invariant 0 <= k <= |es| && Inv(NULL) && net == Routing.Run(env, tbl, old(net), es[..k])
      {
        assert es[..k + 1][..k] == es[..k];
        Perform(es[k]);
        k := k + 1;
      }
      assert es[..k] == es;
    }

    method Perform(e: Event)
      requires Inv(NULL) && Suits()
      modifies this, parts
      ensures mem.peak >= old(mem.peak)
      ensures Inv(NULL) && net == Step(env, tbl, old(net), e)
    {
      match e
      case Receive(i, id, flags, data) =>
        assert SlotOk(mem.Now(), net, i);
        if Plugged(i) {
          var r := StackRecv(i, id, flags, data);
        }
      case Service(dir, score) =>
        var left := DevicesLoop(score, dir);
      case RunRouter(i, score) =>
        assert SlotOk(mem.Now(), net, i);
        if Plugged(i) {
          var left := RouterLoop(i, score);
        }
      case Flush(i, outgoing) =>
        assert SlotOk(mem.Now(), net, i);
        if Plugged(i) {
          Flush(i, outgoing);
        }
    }
  }
}
