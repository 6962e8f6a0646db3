/**
 * What becomes of the counter byte when a frame is routed with more copies than it can count.
 * The very code of Stack is driven from start-up into these states.
 */
module Overflow {
  import opened Base
  import opened Frames
  import opened Queues
  import opened Routing
  import opened Delivery
  import opened Moves
  import opened Stack
  import opened Startup
  import opened Counters

  /** Allocations succeed as long as there is room for `capacity` descriptors; queues have no limit. */
  function Generous(capacity: nat): Env {
    Env(n => true, capacity, d => (n => true), d => 0, d => 0)
  }

  /** The books after start-up and one receive call, an empty frame with identifier `id` at device `d`. */
  function Arrived(wanted: seq<bool>, d: int, id: uint32, capacity: nat): (r: Net)
    requires 0 <= d < |wanted| && wanted[d] && capacity > 0
    ensures Pending(r, d) && r.ports[d].inq == [Packet(d, id, 0, [])]
  {
    Received(Generous(capacity), Blank(wanted), d, id, 0, []).net
  }

  /** And after the router has taken that frame and offered it to all its destinations, before it is released. */
  function CopiedOut(tbl: seq<Entry>, wanted: seq<bool>, d: int, id: uint32, capacity: nat): Net
    requires 0 <= d < |wanted| && wanted[d] && capacity > 0
  {
    var taken := Pulled(Arrived(wanted, d, id, capacity), d);
    OfferedAll(Generous(capacity), taken, Dests(tbl, id), Packet(d, id, 0, [])).net
  }

  /** The stack is that of the given table and devices, in this state. */
  ghost predicate InState(s: Stack, tbl: seq<Entry>, wanted: seq<bool>, d: int, id: uint32, capacity: nat)
    requires 0 <= d < |wanted| && wanted[d] && capacity > 0
    reads s
  {
    && s.env == Generous(capacity) && s.tbl == tbl && s.Slots() == Slots(wanted)
    && s.net == CopiedOut(tbl, wanted, d, id, capacity)
  }

  /**
   * From start-up, device `d` receives one frame with identifier `id`, and the router copies it
   * out: as many copies are made as there are destinations or as the memory has room for, and
   * the frame is still in hand.
   */
  method Flood(tbl: seq<Entry>, wanted: seq<bool>, d: int, id: uint32, capacity: nat, ghost most: int)
    returns (s: Stack, f: Ptr)
    requires |wanted| == SLOTS && 0 <= d < SLOTS && wanted[d] && 1 <= capacity < 0x1_0000_0000
    requires Reach(Slots(wanted), Dests(tbl, id)) < most
    ensures fresh(s) && fresh(s.parts) && InState(s, tbl, wanted, d, id, capacity)
    ensures s.Inv(f) && Held(s.mem.Now(), f) && s.mem.s.pkts[f] == Packet(d, id, 0, [])
    ensures Shares(s.mem.Now(), f) == 1 + Min(Reach(Slots(wanted), Dests(tbl, id)), capacity - 1)
  {
    s, f := Take(tbl, wanted, d, id, capacity, most);
    AllAccepted(s.env, s.net, Dests(tbl, id), s.mem.s.pkts[f]);
    var copies := s.CopyOut(f);
  }

  /** Start-up, the receive call, and the frame in the router's hand. */
  method Take(tbl: seq<Entry>, wanted: seq<bool>, d: int, id: uint32, capacity: nat, ghost most: int)
    returns (s: Stack, f: Ptr)
    requires |wanted| == SLOTS && 0 <= d < SLOTS && wanted[d] && 1 <= capacity < 0x1_0000_0000 && most >= 1
    ensures fresh(s) && fresh(s.parts) && s.env == Generous(capacity) && s.tbl == tbl && s.most == most
    ensures s.net == Pulled(Arrived(wanted, d, id, capacity), d) && s.net.used == 1
    ensures s.Slots() == Slots(wanted) == s.net.ports.Keys
    ensures s.Inv(f) && Held(s.mem.Now(), f) && s.mem.s.pkts[f] == Packet(d, id, 0, [])
    ensures Shares(s.mem.Now(), f) == 1
  {
    s := Start(Generous(capacity), tbl, wanted, most);
    var r := s.StackRecv(d, id, 0, []);
    f := s.Pull(d);
    s.SlotsAreKeys(f);
  }

  /** 254 is the bound for a byte that is never 0: with 255 destinations it reads 0 while the frame is in hand. */
  method Tight(tbl: seq<Entry>, wanted: seq<bool>, d: int, id: uint32) returns (s: Stack, f: Ptr)
    requires |wanted| == SLOTS && 0 <= d < SLOTS && wanted[d]
    requires Reach(Slots(wanted), Dests(tbl, id)) == 0xFF
    ensures InState(s, tbl, wanted, d, id, 1000)
    ensures s.Inv(f) && Held(s.mem.Now(), f) && s.mem.s.pkts[f] == Packet(d, id, 0, [])
    ensures var b := s.mem.h.descs[f].data;
      && b in s.mem.h.bufs && |s.mem.h.bufs[b]| > 0
      && Count(s.mem.h.descs, b) == 0x100 && Counter(s.mem.Now(), b) == 0
  {
    s, f := Flood(tbl, wanted, d, id, 1000, 0x100);
    LiveAt(s.mem.Now(), f);
    ByteTells(s.mem.Now(), s.mem.h.descs[f].data);
  }

  /**
   * For every table that offers some identifier to more than 255 registered devices, routing one
   * frame can release its payload while 256 queued copies still point to it: it takes a memory
   * with room for 257 descriptors. `m` is the memory of the running stack when all copies have
   * been made; the last step is the release of the frame at the end of route_frame.
   */
  method Overrun(tbl: seq<Entry>, wanted: seq<bool>, d: int, id: uint32) returns (s: Stack, f: Ptr, ghost m: Store)
    requires |wanted| == SLOTS && 0 <= d < SLOTS && wanted[d]
    requires Reach(Slots(wanted), Dests(tbl, id)) > 0xFF
    ensures InState(s, tbl, wanted, d, id, 0x101)
    ensures s.InvAt(m, s.net, f) && Held(m, f) && m.s.pkts[f] == Packet(d, id, 0, []) && Shares(m, f) == 0x101
    ensures s.mem.Now() == Left(m, f) && Dangling(s.mem.Now())
    ensures var b := m.h.descs[f].data;
      b !in s.mem.h.bufs && Count(s.mem.h.descs, b) == 0x100
  {
    s, f := Flood(tbl, wanted, d, id, 0x101, Reach(Slots(wanted), Dests(tbl, id)) + 1);
    m := s.mem.Now();
    OneTooMany(m, f);
    LetGo(s, f);
  }

  /** With 257 sharers the next discard releases the payload under the other 256. */
  lemma OneTooMany(m: Store, f: Ptr)
    requires Sane(m) && Held(m, f) && Shares(m, f) == 0x101
    ensures Dangling(Left(m, f))
    ensures m.h.descs[f].data !in Left(m, f).h.bufs && Count(Left(m, f).h.descs, m.h.descs[f].data) == 0x100
  {
    LeaveIff(m, f);
  }

  /** The release at the end of route_frame, without regard to the counter: it touches the memory only. */
  method LetGo(s: Stack, f: Ptr)
    requires s.Inv(f) && Held(s.mem.Now(), f)
    modifies s.mem
    ensures s.mem.Now() == Left(old(s.mem.Now()), f) && s.InvAt(old(s.mem.Now()), s.net, f)
  {
    LiveAt(s.mem.Now(), f);
    s.mem.Discard(f);
    forall i
      ensures s.SlotOk(old(s.mem.Now()), s.net, i)
    {
      assert old(s.SlotOk(s.mem.Now(), s.net, i));
    }
  }

  // ---------------------------------------------------------------- which tables need how much

  /** After the calls `es` from start-up, routing the first frame of device `d` makes more than 255 copies. */
  predicate Overruns(env: Env, tbl: seq<Entry>, wanted: seq<bool>, es: seq<Event>, d: int) {
    var net := Run(env, tbl, Blank(wanted), es);
    && Pending(net, d)
    && var p := net.ports[d].inq[0];
       OfferedAll(env, Pulled(net, d), Dests(tbl, p.id), p).n > 0xFF
  }

  /** Which is when its payload is doomed, in the memory of the stack as CopyOut leaves it. */
  lemma CopiesDoomedIff(s: Stack, f: Ptr, copies: int)
    requires s.Inv(f) && Held(s.mem.Now(), f) && Shares(s.mem.Now(), f) == 1 + copies
    ensures Doomed(s.mem.Now(), s.mem.h.descs[f].data) <==> copies > 0xFF
  {
    DoomedIff(s.mem.Now(), s.mem.h.descs[f].data);
  }

  lemma {:induction false} ReachSome(slots: set<int>, ds: seq<byte>) returns (d: int)
    requires Reach(slots, ds) > 0
    ensures d in slots
  {
    if ds[|ds| - 1] as int in slots {
      d := ds[|ds| - 1] as int;
    } else {
      d := ReachSome(slots, ds[..|ds| - 1]);
    }
  }

  lemma RunSlots(env: Env, tbl: seq<Entry>, wanted: seq<bool>, es: seq<Event>)
    ensures Run(env, tbl, Blank(wanted), es).ports.Keys == Slots(wanted)
  {
    forall d
      ensures d in Run(env, tbl, Blank(wanted), es).ports <==> d in Slots(wanted)
    {
      RunRegistered(env, tbl, Blank(wanted), es, d);
    }
  }

  lemma NoOverrun(env: Env, tbl: seq<Entry>, wanted: seq<bool>, es: seq<Event>, d: int)
    requires Countable(Slots(wanted), tbl)
    ensures !Overruns(env, tbl, wanted, es, d)
  {
    var net := Run(env, tbl, Blank(wanted), es);
    if Pending(net, d) {
      var p := net.ports[d].inq[0];
      RunSlots(env, tbl, wanted, es);
      assert Pulled(net, d).ports.Keys == net.ports.Keys;
      ReachBounds(env, Pulled(net, d), Dests(tbl, p.id), p);
    }
  }

  lemma SomeOverrun(tbl: seq<Entry>, wanted: seq<bool>, id: uint32) returns (env: Env, es: seq<Event>, d: int)
    requires Reach(Slots(wanted), Dests(tbl, id)) > 0xFF
    ensures Overruns(env, tbl, wanted, es, d)
  {
    d := ReachSome(Slots(wanted), Dests(tbl, id));
    env := Generous(0x101);
    es := [Receive(d, id, 0, [])];
    var net := Arrived(wanted, d, id, 0x101);
    assert es[..0] == [];
    assert Run(env, tbl, Blank(wanted), es) == net;
    assert Pulled(net, d).ports.Keys == Slots(wanted);
    AllAccepted(env, Pulled(net, d), Dests(tbl, id), Packet(d, id, 0, []));
  }

  /**
   * The condition on tables under which frames may be routed (Countable) is the weakest: it holds
   * if and only if no run from start-up, in whatever environment, comes to a frame with more
   * copies than the counter byte can tell.
   */
  lemma CountableIff(tbl: seq<Entry>, wanted: seq<bool>)
    ensures Countable(Slots(wanted), tbl) <==> forall env, es, d :: !Overruns(env, tbl, wanted, es, d)
  {
    if Countable(Slots(wanted), tbl) {
      forall env, es, d
        ensures !Overruns(env, tbl, wanted, es, d)
      {
        NoOverrun(env, tbl, wanted, es, d);
      }
    } else {
      var id :| Reach(Slots(wanted), Dests(tbl, id)) > 0xFF;
      var env, es, d := SomeOverrun(tbl, wanted, id);
    }
  }
}
