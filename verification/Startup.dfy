/** Registration of devices, and a stack ready to run. */
module Startup {
  import opened Base
  import opened Frames
  import opened Queues
  import opened Routing
  import opened Delivery
  import opened Moves
  import opened Stack

  /**
   * xcan_device_init: 0 and a device with two empty queues for slot `id`; -1 and nothing at all
   * for a slot out of range, or if the allocation of one of the queue records fails.
   */
  method DeviceInit(id: int, env: Env, first: bool, second: bool, ghost m: Store) returns (r: int, d: Device?)
    ensures r == if 0 <= id < SLOTS && first && second then 0 else -1
    ensures d != null <==> r == 0
    ensures d != null ==>
      && fresh(d) && fresh(d.q_in) && fresh(d.q_out)
      && d.id == id && d.link == env.link(id) && d.attempts == 0 && d.wire == []
      && d.q_in.Valid(m) && d.q_in.contents == [] && d.q_out.Valid(m) && d.q_out.contents == []
      && d.q_in.place == Queued(id, false) && d.q_in.max_frames == env.inLimit(id)
      && d.q_out.place == Queued(id, true) && d.q_out.max_frames == env.outLimit(id)
  {
    if id < 0 || id >= SLOTS {
      return -1, null;
    }
    if !first {
      return -1, null;
    }
    var q_in := new Queue(env.inLimit(id), Queued(id, false), m);
    if !second {
      return -1, null;
    }
    var q_out := new Queue(env.outLimit(id), Queued(id, true), m);
    d := new Device(id, q_in, q_out, env.link(id));
    r := 0;
  }

  ghost predicate Installed(d: Device?, i: int, env: Env, m: Store, parts: set<object>, wanted: bool)
    reads if d == null then {} else {d, d.q_in, d.q_out}
  {
    && (d != null <==> wanted)
    && (d != null ==>
          && {d as object, d.q_in, d.q_out} <= parts
          && d.id == i && d.link == env.link(i) && d.attempts == 0 && d.wire == []
          && d.q_in.Valid(m) && d.q_in.contents == [] && d.q_out.Valid(m) && d.q_out.contents == []
          && d.q_in.place == Queued(i, false) && d.q_in.max_frames == env.inLimit(i)
          && d.q_out.place == Queued(i, true) && d.q_out.max_frames == env.outLimit(i))
  }

  /** Devices for the wanted slots. */
  method Install(env: Env, wanted: seq<bool>, ghost m: Store) returns (devices: seq<Device?>, ghost parts: set<object>)
    requires |wanted| == SLOTS
    ensures |devices| == SLOTS && fresh(parts)
    ensures forall j | 0 <= j < SLOTS :: Installed(devices[j], j, env, m, parts, wanted[j])
  {
    devices, parts := [], {};
    var i := 0;
    while i < |wanted|
      invariant 0 <= i <= |wanted| && |devices| == i && fresh(parts)
      invariant forall j | 0 <= j < i :: Installed(devices[j], j, env, m, parts, wanted[j])
    {
      var d: Device? := null;
      if wanted[i] {
        var r;
        r, d := DeviceInit(i, env, true, true, m);
        parts := parts + {d, d.q_in, d.q_out};
      }
      devices := devices + [d];
      i := i + 1;
    }
  }

  /** Devices in the wanted slots, and nothing has happened yet. */
  function Blank(wanted: seq<bool>): Net {
    Net(map j | 0 <= j < |wanted| && wanted[j] :: IDLE, 0, 0, [])
  }

  function Slots(wanted: seq<bool>): set<int> {
    set j | 0 <= j < |wanted| && wanted[j]
  }

  /** A stack with devices in the wanted slots, before any frame has been received. */
  method Start(env: Env, tbl: seq<Entry>, wanted: seq<bool>, ghost most: int) returns (s: Stack)
    requires |wanted| == SLOTS && env.capacity < 0x1_0000_0000
    requires most >= 1 && (most <= 0x100 || forall d: int :: env.outLimit(d) == 0)
    ensures fresh(s) && fresh(s.parts) && s.env == env && s.tbl == tbl && s.most == most
    ensures s.Inv(NULL) && s.Slots() == Slots(wanted) && s.net == Blank(wanted)
    ensures forall i :: s.Plugged(i) <==> 0 <= i < SLOTS && wanted[i]
  {
    var mem := new Memory(env.grant, env.capacity);
    var devices, parts := Install(env, wanted, mem.Now());
    s := new Stack(env, tbl, mem, devices, parts + {mem}, most, Blank(wanted));
    Idle(s, wanted);
  }

  /**
   * After the calls `es` from state `net0`, what device `d` has really sent and still has queued,
   * and what waits in its in-queue, are what the routing table makes of the frames that these
   * calls brought in, in order, less the copies refused and the frames dropped by emptying a queue.
   */
  ghost predicate Faithful(s: Stack, net0: Net, es: seq<Event>, d: int)
    reads s, s.mem, s.parts
    requires s.Wired() && s.Plugged(d)
  {
    && d in s.net.ports
    && var port, q_in, q_out := s.net.ports[d], s.devices[d].q_in, s.devices[d].q_out;
       && Chain(s.mem.Now(), q_in.nodes, q_in.contents, Queued(d, false))
       && Chain(s.mem.Now(), q_out.nodes, q_out.contents, Queued(d, true))
       && Arrivals(s.env, s.tbl, net0, es, d) == Gone(port.taken) + q_in.contents
       && Served(port.taken) == FromDevice(s.net.routed, d)
       && Copies(port.offers) == Image(s.tbl, s.net.routed, d)
       && Kept(port.offers) == Gone(port.gone) + q_out.contents
       && s.devices[d].wire == OnWires(Served(port.gone))
  }

  /**
   * From start-up through any calls whatever, every wanted device is served faithfully; and at no
   * time, not even while a frame was being routed, did more than `most` descriptors share a
   * payload, if the table makes fewer copies than that of any frame. With at most 254 copies,
   * `most` is 255, which the counter byte can tell.
   */
  method RunFromStart(env: Env, tbl: seq<Entry>, wanted: seq<bool>, es: seq<Event>, ghost most: int) returns (s: Stack)
    requires |wanted| == SLOTS && env.capacity < 0x1_0000_0000
    requires 1 <= most <= 0x100 && forall id :: Reach(Slots(wanted), Dests(tbl, id)) < most
    ensures fresh(s) && fresh(s.parts) && s.env == env && s.tbl == tbl && s.Inv(NULL)
    ensures Initial(Blank(wanted)) && s.net == Routing.Run(env, tbl, Blank(wanted), es)
    ensures forall i :: s.Plugged(i) <==> 0 <= i < SLOTS && wanted[i]
    ensures forall d | s.Plugged(d) :: Faithful(s, Blank(wanted), es, d)
    ensures s.mem.Valid() && s.mem.peak <= most
  {
    s := Start(env, tbl, wanted, most);
    s.Run(es);
    forall d | s.Plugged(d)
      ensures Faithful(s, Blank(wanted), es, d)
    {
      assert s.SlotOk(s.mem.Now(), s.net, d);
      EndToEnd(env, tbl, Blank(wanted), es, d);
      WireServed(s.net.ports[d].gone);
    }
  }

  /** The stack has been put together from installed devices and nothing else has happened. */
  ghost predicate Fresh(s: Stack, wanted: seq<bool>)
    reads s, s.mem, s.parts
  {
    && |wanted| == |s.devices| == SLOTS && s.env.capacity < 0x1_0000_0000 && s.Offerable()
    && s.mem in s.parts && s !in s.parts
    && s.mem.grant == s.env.grant && s.mem.capacity == s.env.capacity
    && s.mem.Now() == Store(Heap(0, 0, map[], map[], map[]), Shadow(map[], map[], map[])) && s.mem.Valid()
    && s.mem.peak == 0 && s.net == Blank(wanted)
    && forall j | 0 <= j < SLOTS ::
         (s.devices[j] != null ==> {s.devices[j] as object, s.devices[j].q_in, s.devices[j].q_out} <= s.parts)
         && Installed(s.devices[j], j, s.env, s.mem.Now(), s.parts, wanted[j])
  }

  lemma IdleSlot(s: Stack, wanted: seq<bool>, j: int)
    requires Fresh(s, wanted)
    ensures s.SlotOk(s.mem.Now(), s.net, j)
    ensures s.Plugged(j) <==> 0 <= j < |wanted| && wanted[j]
  {
    if s.Plugged(j) {
      assert Installed(s.devices[j], j, s.env, s.mem.Now(), s.parts, wanted[j]);
    }
  }

  lemma IdleWired(s: Stack, wanted: seq<bool>)
    requires Fresh(s, wanted)
    ensures s.Wired()
  {
    forall i | s.Plugged(i)
      ensures {s.devices[i] as object, s.devices[i].q_in, s.devices[i].q_out} <= s.parts
      ensures s.devices[i].id == i && s.devices[i].link == s.env.link(i)
      ensures s.devices[i].q_in.place == Queued(i, false) && s.devices[i].q_in.max_frames == s.env.inLimit(i)
      ensures s.devices[i].q_out.place == Queued(i, true) && s.devices[i].q_out.max_frames == s.env.outLimit(i)
    {
      assert Installed(s.devices[i], i, s.env, s.mem.Now(), s.parts, wanted[i]);
    }
  }

  lemma Idle(s: Stack, wanted: seq<bool>)
    requires Fresh(s, wanted)
    ensures s.Inv(NULL) && s.Slots() == Slots(wanted)
    ensures forall i :: s.Plugged(i) <==> 0 <= i < SLOTS && wanted[i]
  {
    Empty(s.mem.Now());
    IdleWired(s, wanted);
    assert Counted(s.env, s.net, 0);
    forall j
      ensures s.SlotOk(s.mem.Now(), s.net, j)
      ensures s.Plugged(j) <==> 0 <= j < |wanted| && wanted[j]
    {
      IdleSlot(s, wanted, j);
    }
  }

  /** An empty memory is in order. */
  lemma Empty(m: Store)
    requires m == Store(Heap(0, 0, map[], map[], map[]), Shadow(map[], map[], map[]))
    ensures Sane(m) && Tidy(m, NULL)
  {
    forall p
      ensures DescOk(m, p) && TidyAt(m, NULL, p)
    {
    }
    forall b
      ensures BufOk(m, b) && RoomyAt(m, NULL, b)
    {
    }
  }
}
