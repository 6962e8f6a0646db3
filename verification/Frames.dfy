/**
 * stack/xcan_frame.c: frame descriptors, the payload buffers they share and the one-byte
 * usage counter in the cell after the last payload byte. Descriptors and payloads live at
 * addresses of an explicit memory, so that sharing, release and reuse of memory are visible.
 */
module Frames {
  import opened Base

  /** An address; NULL is never allocated. */
  datatype Ptr = NULL | At(n: int)

  /** A descriptor, apart from its `next` link, which Heap keeps beside it. */
  datatype Frame = Frame(dev: int, id: uint32, flags: byte, len: nat, data: Ptr)

  /** What a descriptor and its payload say: all the rest of the stack may observe of a frame. */
  datatype Packet = Packet(dev: int, id: uint32, flags: byte, payload: seq<byte>)

  /** Where a live descriptor is: in the hand of running code, or linked in a device queue. */
  datatype Home = Hand | Queued(port: int, outgoing: bool)

  /** The memory: allocation calls made, descriptors allocated now, and what is allocated. */
  datatype Heap = Heap(
    tick: nat,
    used: nat,
    descs: map<Ptr, Frame>,      // live descriptors
    next: map<Ptr, Ptr>,         // and their links
    bufs: map<Ptr, seq<byte>>    // live payloads, each with its usage counter in the last byte
  )

  /** What the proofs know of a memory: sharers per payload; packet and whereabouts per descriptor. */
  datatype Shadow = Shadow(tally: map<Ptr, int>, pkts: map<Ptr, Packet>, home: map<Ptr, Home>)

  datatype Store = Store(h: Heap, s: Shadow)

  /** The packet a descriptor encodes over the bytes of its payload buffer. */
  function Decode(f: Frame, buf: seq<byte>): Packet
    requires f.len <= |buf|
  {
    Packet(f.dev, f.id, f.flags, buf[..f.len])
  }

  // ---------------------------------------------------------------- counting sharers

  /** The descriptors that point at payload `b`. */
  ghost function Sharers(descs: map<Ptr, Frame>, b: Ptr): set<Ptr> {
    set p | p in descs && descs[p].data == b
  }

  /** How many of them there are. */
  ghost function Count(descs: map<Ptr, Frame>, b: Ptr): nat {
    |Sharers(descs, b)|
  }

  lemma CountJoin(descs: map<Ptr, Frame>, p: Ptr, f: Frame, b: Ptr)
    requires p !in descs
    ensures Count(descs[p := f], b) == Count(descs, b) + if b == f.data then 1 else 0
  {
    assert Sharers(descs[p := f], b) == if b == f.data then Sharers(descs, b) + {p} else Sharers(descs, b);
  }

  lemma CountLeave(descs: map<Ptr, Frame>, p: Ptr, b: Ptr)
    requires p in descs
    ensures Count(descs, b) == Count(descs - {p}, b) + if b == descs[p].data then 1 else 0
  {
    assert (descs - {p})[p := descs[p]] == descs;
    CountJoin(descs - {p}, p, descs[p], b);
  }

  lemma CountZero(descs: map<Ptr, Frame>, b: Ptr)
    ensures Count(descs, b) == 0 <==> forall p | p in descs :: descs[p].data != b
  {
    if p :| p in descs && descs[p].data == b {
      assert p in Sharers(descs, b);
    } else {
      assert Sharers(descs, b) == {};
    }
  }

  lemma SizeLeave(descs: map<Ptr, Frame>, p: Ptr)
    requires p in descs
    ensures |descs| == |descs - {p}| + 1
  {
    assert (descs - {p})[p := descs[p]] == descs;
  }

  // ---------------------------------------------------------------- the sharing invariant

  /** A counter byte tells a number of sharers, modulo 256. */
  ghost predicate Tells(counter: byte, sharers: int) {
    sharers >= 1 && counter as int == sharers % 0x100
  }

  /** Lowering such a byte gives 0 for the last of `sharers` sharers and for no other. */
  ghost predicate Spares(sharers: int) {
    sharers == 1 || sharers % 0x100 != 1
  }

  lemma Wraps(c: byte, n: int)
    requires Tells(c, n)
    ensures Tells(if c == 0xFF then 0 else c + 1, n + 1)
    ensures n > 1 ==> Tells(if c == 0 then 0xFF else c - 1, n - 1)
    ensures (if c == 0 then 0xFF else c - 1) == 0 <==> n % 0x100 == 1
  {
  }

  /** A live descriptor has a live payload and encodes its packet. */
  ghost predicate DescOk(m: Store, p: Ptr) {
    && (p in m.h.descs <==> p in m.h.next) && (p in m.h.descs <==> p in m.s.home)
    && (p in m.h.descs <==> p in m.s.pkts)
    && (p in m.h.descs ==>
          && p != NULL
          && m.h.descs[p].data in m.h.bufs && m.h.descs[p].len < |m.h.bufs[m.h.descs[p].data]|
          && m.s.pkts[p] == Decode(m.h.descs[p], m.h.bufs[m.h.descs[p].data]))
  }

  /** A live payload is shared by somebody, and its last byte tells by how many descriptors. */
  ghost predicate BufOk(m: Store, b: Ptr) {
    && (b in m.h.bufs <==> b in m.s.tally)
    && (b in m.h.bufs ==>
          && m.s.tally[b] == Count(m.h.descs, b) && |m.h.bufs[b]| > 0
          && Tells(m.h.bufs[b][|m.h.bufs[b]| - 1], m.s.tally[b]))
  }

  /** `used` is the number of live descriptors. */
  ghost predicate SizeOk(m: Store, descs: map<Ptr, Frame>) {
    descs == m.h.descs ==> m.h.used == |descs|
  }

  /** The invariant of the memory. Its parts are consulted address by address. */
  ghost predicate Sane(m: Store) {
    && (forall d {:trigger SizeOk(m, d)} :: SizeOk(m, d))
    && (forall p {:trigger DescOk(m, p)} :: DescOk(m, p))
    && (forall b {:trigger BufOk(m, b)} :: BufOk(m, b))
  }

  /** A payload buffer with its counter byte one up, or one down, wrapping around. */
  function Up(buf: seq<byte>): (r: seq<byte>)
    requires |buf| > 0
    ensures |r| == |buf| && forall n | 0 <= n < |buf| :: r[..n] == buf[..n]
  {
    var c := buf[|buf| - 1];
    buf[|buf| - 1 := if c == 0xFF then 0 else c + 1]
  }

  function Down(buf: seq<byte>): (r: seq<byte>)
    requires |buf| > 0
    ensures |r| == |buf| && forall n | 0 <= n < |buf| :: r[..n] == buf[..n]
  {
    var c := buf[|buf| - 1];
    buf[|buf| - 1 := if c == 0 then 0xFF else c - 1]
  }

  /** Descriptor `f` appears at `p` over a live payload, which counts it. */
  ghost function Joined(m: Store, p: Ptr, f: Frame): Store
    requires f.data in m.h.bufs && f.len < |m.h.bufs[f.data]| && f.data in m.s.tally
  {
    var buf := m.h.bufs[f.data];
    Store(m.h.(used := m.h.used + 1, descs := m.h.descs[p := f], next := m.h.next[p := NULL],
               bufs := m.h.bufs[f.data := Up(buf)]),
          Shadow(m.s.tally[f.data := m.s.tally[f.data] + 1], m.s.pkts[p := Decode(f, buf)], m.s.home[p := Hand]))
  }

  /** One more descriptor keeps the memory sane. */
  lemma SaneJoin(m: Store, p: Ptr, f: Frame)
    requires Sane(m) && p != NULL && p !in m.h.descs
    requires f.data in m.h.bufs && f.len < |m.h.bufs[f.data]|
    requires f.data in m.s.tally
    ensures Sane(Joined(m, p, f))
  {
    var m' := Joined(m, p, f);
    assert BufOk(m, f.data);
    Wraps(m.h.bufs[f.data][|m.h.bufs[f.data]| - 1], m.s.tally[f.data]);
    assert SizeOk(m, m.h.descs);
    forall q
      ensures DescOk(m', q)
    {
      assert DescOk(m, q);
    }
    forall b
      ensures BufOk(m', b)
    {
      assert BufOk(m, b);
      CountJoin(m.h.descs, p, f, b);
    }
  }

  /** The counter byte is right about whether the descriptor at `p` is the last of its payload. */
  ghost predicate Spared(m: Store, p: Ptr) {
    p in m.h.descs && m.h.descs[p].data in m.s.tally ==> Spares(m.s.tally[m.h.descs[p].data])
  }

  /** Few enough share its payload for the byte to be right until the last of them is gone. */
  ghost predicate Few(m: Store, p: Ptr) {
    p in m.h.descs && m.h.descs[p].data in m.s.tally ==> m.s.tally[m.h.descs[p].data] <= 0x100
  }

  /** The descriptor at `p` goes; its payload goes too when the counter says nobody is left. */
  ghost function Left(m: Store, p: Ptr): (r: Store)
    requires Sane(m) && p in m.h.descs
    ensures Spared(m, p) ==> Sane(r)
  {
    LiveAt(m, p);
    if Spared(m, p) then SaneLeave(m, p); Without(m, p) else Without(m, p)
  }

  /** What a live descriptor implies. */
  lemma LiveAt(m: Store, p: Ptr)
    requires Sane(m) && p in m.h.descs
    ensures p != NULL && m.h.used > 0
    ensures m.h.descs[p].data in m.h.bufs && |m.h.bufs[m.h.descs[p].data]| > 0
    ensures m.h.descs[p].len < |m.h.bufs[m.h.descs[p].data]|
    ensures m.h.descs[p].data in m.s.tally && m.s.tally[m.h.descs[p].data] > 0
  {
    SizeLeave(m.h.descs, p);
    assert SizeOk(m, m.h.descs);
    assert DescOk(m, p) && BufOk(m, m.h.descs[p].data);
  }

  ghost function Without(m: Store, p: Ptr): Store
    requires p in m.h.descs && m.h.descs[p].data in m.h.bufs && |m.h.bufs[m.h.descs[p].data]| > 0
    requires m.h.used > 0 && m.h.descs[p].data in m.s.tally
  {
    var b := m.h.descs[p].data;
    var buf := Down(m.h.bufs[b]);
    var last := buf[|buf| - 1] == 0;
    Store(m.h.(used := m.h.used - 1, descs := m.h.descs - {p}, next := m.h.next - {p},
               bufs := if last then m.h.bufs - {b} else m.h.bufs[b := buf]),
          Shadow(if last then m.s.tally - {b} else m.s.tally[b := m.s.tally[b] - 1],
                 m.s.pkts - {p}, m.s.home - {p}))
  }

  /** One descriptor less keeps it sane, and releases the payload exactly with its last sharer. */
  lemma SaneLeave(m: Store, p: Ptr)
    requires Sane(m) && p in m.h.descs && Spared(m, p)
    ensures m.h.used > 0
    ensures m.h.descs[p].data in m.h.bufs && |m.h.bufs[m.h.descs[p].data]| > 0
    ensures m.h.descs[p].data in m.s.tally && m.s.tally[m.h.descs[p].data] > 0
    ensures Sane(Without(m, p))
    ensures m.h.descs[p].data in Without(m, p).h.bufs <==> m.s.tally[m.h.descs[p].data] > 1
  {
    var b0 := m.h.descs[p].data;
    LiveAt(m, p);
    SizeLeave(m.h.descs, p);
    assert SizeOk(m, m.h.descs);
    assert BufOk(m, b0);
    Wraps(m.h.bufs[b0][|m.h.bufs[b0]| - 1], m.s.tally[b0]);
    var m' := Without(m, p);
    CountZero(m'.h.descs, b0);
    CountLeave(m.h.descs, p, b0);
    forall q
      ensures DescOk(m', q)
    {
      assert DescOk(m, q);
    }
    forall b
      ensures BufOk(m', b)
    {
      assert BufOk(m, b);
      CountLeave(m.h.descs, p, b);
    }
  }

  /** Descriptor `f` appears at `p` over a new payload at `f.data`, counter byte 1. */
  ghost function Minted(m: Store, p: Ptr, f: Frame, payload: seq<byte>): Store
    requires f.len <= |payload|
  {
    Store(m.h.(used := m.h.used + 1, descs := m.h.descs[p := f], next := m.h.next[p := NULL],
               bufs := m.h.bufs[f.data := payload + [1]]),
          Shadow(m.s.tally[f.data := 1], m.s.pkts[p := Decode(f, payload)], m.s.home[p := Hand]))
  }

  lemma SaneMint(m: Store, p: Ptr, f: Frame, payload: seq<byte>)
    requires Sane(m) && p != NULL && p !in m.h.descs && f.data !in m.h.bufs && f.len <= |payload|
    ensures Sane(Minted(m, p, f, payload))
  {
    var m' := Minted(m, p, f, payload);
    assert SizeOk(m, m.h.descs);
    assert (payload + [1])[..f.len] == payload[..f.len];
    forall q | q in m.h.descs
      ensures m.h.descs[q].data != f.data
    {
      assert DescOk(m, q);
    }
    CountZero(m.h.descs, f.data);
    forall q
      ensures DescOk(m', q)
    {
      assert DescOk(m, q);
    }
    forall b
      ensures BufOk(m', b)
    {
      assert BufOk(m, b);
      CountJoin(m.h.descs, p, f, b);
    }
  }

  /** The descriptor at `p` is rewritten to `f`, and the bytes of its payload with it. */
  ghost function Filled(m: Store, p: Ptr, f: Frame, payload: seq<byte>): Store
    requires f.len <= |payload|
  {
    Store(m.h.(descs := m.h.descs[p := f], bufs := m.h.bufs[f.data := payload + [1]]),
          m.s.(pkts := m.s.pkts[p := Decode(f, payload)]))
  }

  /** Which a descriptor that shares its payload with nobody may do. */
  lemma SaneFill(m: Store, p: Ptr, f: Frame, payload: seq<byte>)
    requires Sane(m) && p in m.h.descs && m.h.descs[p].data == f.data && f.len <= |payload|
    requires f.data in m.s.tally && m.s.tally[f.data] == 1
    ensures Sane(Filled(m, p, f, payload))
  {
    var m' := Filled(m, p, f, payload);
    assert SizeOk(m, m.h.descs);
    assert (payload + [1])[..f.len] == payload[..f.len];
    assert DescOk(m, p) && BufOk(m, f.data);
    CountLeave(m.h.descs, p, f.data);
    CountZero(m.h.descs - {p}, f.data);
    assert m'.h.descs.Keys == m.h.descs.Keys;
    forall q
      ensures DescOk(m', q)
    {
      assert DescOk(m, q);
      assert q in m.h.descs && q != p ==> q in m.h.descs - {p};
    }
    forall b
      ensures BufOk(m', b)
    {
      assert BufOk(m, b);
      assert Sharers(m'.h.descs, b) == Sharers(m.h.descs, b);
    }
  }

  // ---------------------------------------------------------------- several descriptors

  /** Descriptors that may go one after another: each live, none twice, no payload with too many sharers. */
  ghost predicate Batch(m: Store, ps: seq<Ptr>) {
    && (forall i | 0 <= i < |ps| :: ps[i] in m.h.descs && Few(m, ps[i]))
    && (forall i, j | 0 <= i < j < |ps| :: ps[i] != ps[j])
  }

  lemma FewSpared(m: Store, p: Ptr)
    requires Sane(m) && Few(m, p)
    ensures Spared(m, p)
  {
    if p in m.h.descs {
      LiveAt(m, p);
    }
  }

  lemma BatchStep(m: Store, ps: seq<Ptr>)
    requires Sane(m) && Batch(m, ps) && |ps| > 0
    ensures Spared(m, ps[0]) && Sane(Left(m, ps[0])) && Batch(Left(m, ps[0]), ps[1..])
  {
    FewSpared(m, ps[0]);
    SaneLeave(m, ps[0]);
  }

  /** The descriptors `ps` go, front first. */
  ghost function LeftAll(m: Store, ps: seq<Ptr>): (r: Store)
    requires Sane(m) && Batch(m, ps)
    ensures Sane(r)
    decreases |ps|
  {
    if |ps| == 0 then m else BatchStep(m, ps); LeftAll(Left(m, ps[0]), ps[1..])
  }

  /** How many of the descriptors `ps` point at payload `b`. */
  ghost function Points(m: Store, ps: seq<Ptr>, b: Ptr): nat
    requires Batch(m, ps)
  {
    if |ps| == 0 then 0 else (if m.h.descs[ps[0]].data == b then 1 else 0) + Points(m, ps[1..], b)
  }

  lemma {:induction false} PointsAfter(m: Store, p: Ptr, ps: seq<Ptr>, b: Ptr)
    requires Sane(m) && p in m.h.descs && Batch(m, ps) && Batch(Left(m, p), ps)
    ensures Points(Left(m, p), ps, b) == Points(m, ps, b)
  {
    if |ps| == 0 {
    } else {
      PointsAfter(m, p, ps[1..], b);
    }
  }

  /** Nothing live points at a payload that is not. */
  lemma {:induction false} NoPoints(m: Store, ps: seq<Ptr>, b: Ptr)
    requires Sane(m) && Batch(m, ps) && b !in m.h.bufs
    ensures Points(m, ps, b) == 0
  {
    if |ps| == 0 {
    } else {
      assert DescOk(m, ps[0]);
      NoPoints(m, ps[1..], b);
    }
  }

  /**
   * Each payload loses exactly its own descriptors among those that go: it stays, with the
   * difference as its count, if others share it, and is released otherwise.
   */
  lemma {:induction false} LeftAllCount(m: Store, ps: seq<Ptr>, b: Ptr)
    requires Sane(m) && Batch(m, ps)
    ensures b !in m.h.bufs ==> b !in LeftAll(m, ps).h.bufs
    ensures b in m.h.bufs ==>
      && b in m.s.tally && Points(m, ps, b) <= m.s.tally[b]
      && (b in LeftAll(m, ps).h.bufs <==> Points(m, ps, b) < m.s.tally[b])
    ensures b in LeftAll(m, ps).h.bufs ==>
      && b in LeftAll(m, ps).s.tally && b in m.s.tally
      && LeftAll(m, ps).s.tally[b] == m.s.tally[b] - Points(m, ps, b)
    decreases |ps|
  {
    assert BufOk(m, b);
    if |ps| == 0 {
    } else {
      var m' := Left(m, ps[0]);
      BatchStep(m, ps);
      SaneLeave(m, ps[0]);
      PointsAfter(m, ps[0], ps[1..], b);
      LeftAllCount(m', ps[1..], b);
      assert BufOk(m', b);
      if b !in m'.h.bufs {
        NoPoints(m', ps[1..], b);
      }
    }
  }

  /** Descriptor `p` reads the same in both memories, if it is live in the second. */
  ghost predicate Retained(m: Store, m': Store, p: Ptr) {
    p in m'.h.descs ==>
      && p in m.h.descs && m'.h.descs[p] == m.h.descs[p]
      && p in m.h.next && p in m'.h.next && m'.h.next[p] == m.h.next[p]
      && p in m.s.pkts && p in m'.s.pkts && m'.s.pkts[p] == m.s.pkts[p]
      && p in m.s.home && p in m'.s.home && m'.s.home[p] == m.s.home[p]
  }

  /** What is left is what was there, without the descriptors that went. */
  lemma {:induction false} LeftAllRest(m: Store, ps: seq<Ptr>, p: Ptr)
    requires Sane(m) && Batch(m, ps)
    ensures LeftAll(m, ps).h.used == m.h.used - |ps| && LeftAll(m, ps).h.tick == m.h.tick
    ensures p in LeftAll(m, ps).h.descs <==> p in m.h.descs && p !in ps
    ensures Retained(m, LeftAll(m, ps), p)
    decreases |ps|
  {
    assert DescOk(m, p);
    if |ps| == 0 {
    } else {
      BatchStep(m, ps);
      LeftAllRest(Left(m, ps[0]), ps[1..], p);
    }
  }

  // ---------------------------------------------------------------- the allocator

  lemma SaneTick(m: Store, tick: nat)
    requires Sane(m)
    ensures Sane(m.(h := m.h.(tick := tick)))
  {
    var m' := m.(h := m.h.(tick := tick));
    assert SizeOk(m, m.h.descs);
    forall p
      ensures DescOk(m', p)
    {
      assert DescOk(m, p);
    }
    forall b
      ensures BufOk(m', b)
    {
      assert BufOk(m, b);
    }
  }

  /** Some address is always free: memory runs out by `capacity` and `grant`, not by addresses. */
  lemma FreeAddress(used: set<Ptr>)
    ensures exists p :: p != NULL && p !in used
  {
    var top := Ceiling(used);
    assert At(top + 1) !in used;
  }

  lemma Ceiling(s: set<Ptr>) returns (top: int)
    ensures forall n | At(n) in s :: n <= top
  {
    if n :| At(n) in s {
      var rest := Ceiling(s - {At(n)});
      top := if n <= rest then rest else n;
      assert forall m | At(m) in s :: m == n || At(m) in s - {At(n)};
    } else {
      top := 0;
    }
  }

  ghost predicate BelowAt(tally: map<Ptr, int>, peak: int, b: Ptr) {
    b in tally ==> tally[b] <= peak
  }

  /** No payload has more than `peak` sharers. */
  ghost predicate Below(tally: map<Ptr, int>, peak: int) {
    forall b {:trigger BelowAt(tally, peak, b)} :: BelowAt(tally, peak, b)
  }

  lemma BelowPut(tally: map<Ptr, int>, peak: int, b: Ptr, n: int)
    requires Below(tally, peak)
    ensures Below(tally[b := n], Max(peak, n))
  {
    var tally', peak' := tally[b := n], Max(peak, n);
    forall c
      ensures BelowAt(tally', peak', c)
    {
      assert BelowAt(tally, peak, c);
    }
  }

  lemma BelowLeft(m: Store, p: Ptr, peak: int)
    requires Sane(m) && p in m.h.descs && Below(m.s.tally, peak)
    ensures Below(Left(m, p).s.tally, peak)
  {
    LiveAt(m, p);
    assert BelowAt(m.s.tally, peak, m.h.descs[p].data);
    forall c
      ensures BelowAt(Left(m, p).s.tally, peak, c)
    {
      assert BelowAt(m.s.tally, peak, c);
    }
  }

  /**
   * The allocator and all it handed out. `grant` decides, call by call, whether the next
   * allocation succeeds; `capacity` bounds the descriptors alive at one time.
   */
  class Memory {
    const grant: nat -> bool
    const capacity: nat
    var h: Heap
    ghost var s: Shadow
    ghost var peak: int            // the most sharers any payload has had at any time

    ghost function Now(): Store
      reads this
    {
      Store(h, s)
    }

    ghost predicate Valid()
      reads this
    {
      Sane(Now()) && Below(s.tally, peak)
    }

    constructor (grant: nat -> bool, capacity: nat)
      ensures Valid() && Now() == Store(Heap(0, 0, map[], map[], map[]), Shadow(map[], map[], map[]))
      ensures this.grant == grant && this.capacity == capacity && peak == 0
    {
      this.grant, this.capacity, peak := grant, capacity, 0;
      h, s := Heap(0, 0, map[], map[], map[]), Shadow(map[], map[], map[]);
    }

    /** Whether the next descriptor allocation succeeds. */
    predicate Room()
      reads this
    {
      h.used < capacity && grant(h.tick)
    }

    /**
     * xcan_frame_alloc. Two allocation calls: the descriptor, then payload and counter.
     * Repairs: a failed payload allocation gives the descriptor back and returns NULL; the
     * counter of a new payload starts at 1.
     */
    method Alloc(size: uint32) returns (p: Ptr)
      requires Valid()
      modifies this
      ensures Valid() && h.tick == old(h.tick) + if old(Room()) then 2 else 1
      ensures p == NULL <==> !(old(h.used) < capacity && grant(old(h.tick)) && grant(old(h.tick) + 1))
      ensures p == NULL ==> Now() == old(Now()).(h := old(h).(tick := h.tick)) && peak == old(peak)
      ensures p != NULL ==>
        && peak == Max(old(peak), 1)
        && p !in old(h).descs && p in h.descs && h.descs[p].data !in old(h).bufs
        && h.descs[p] == Frame(0, 0, 0, size as int % 0x1_0000, h.descs[p].data)
        && Now() == Minted(old(Now()).(h := old(h).(tick := h.tick)), p, h.descs[p], seq(size as int, _ => 0))
    {
      if !Room() || !grant(h.tick + 1) {
        ghost var m := Now();
        h := h.(tick := h.tick + if Room() then 2 else 1);
        SaneTick(m, h.tick);
        return NULL;
      }
      p := Mint(0, 0, 0, size as int % 0x1_0000, seq(size as int, _ => 0));
    }

    /** A new descriptor over a new payload, both at free addresses. */
    method Mint(dev: int, id: uint32, flags: byte, len: nat, payload: seq<byte>) returns (p: Ptr)
      requires Valid() && len <= |payload|
      modifies this
      ensures Valid() && p != NULL && p !in old(h).descs && p in h.descs && h.descs[p].data !in old(h).bufs
      ensures h.descs[p] == Frame(dev, id, flags, len, h.descs[p].data) && peak == Max(old(peak), 1)
      ensures Now() == Minted(old(Now()).(h := old(h).(tick := old(h).tick + 2)), p, h.descs[p], payload)
    {
      FreeAddress(h.descs.Keys);
      FreeAddress(h.bufs.Keys);
      var d: Ptr;
      p :| p != NULL && p !in h.descs.Keys;
      d :| d != NULL && d !in h.bufs.Keys;
      var f := Frame(dev, id, flags, len, d);
      h := h.(tick := h.tick + 2);
      SaneTick(Store(old(h), s), h.tick);
      SaneMint(Now(), p, f, payload);
      ghost var m := Minted(Now(), p, f, payload);
      BelowPut(s.tally, peak, d, 1);
      peak := Max(peak, 1);
      h := h.(used := h.used + 1, descs := h.descs[p := f], next := h.next[p := NULL],
              bufs := h.bufs[d := payload + [1]]);
      s := m.s;
    }

    /** xcan_frame_copy: a second descriptor over the same payload. */
    method Copy(f: Ptr) returns (p: Ptr)
      requires Valid() && f in h.descs
      modifies this
      ensures Valid() && h.tick == old(h.tick) + 1
      ensures p == NULL <==> !(old(h.used) < capacity && grant(old(h.tick)))
      ensures p == NULL ==> Now() == old(Now()).(h := old(h).(tick := h.tick)) && peak == old(peak)
      ensures p != NULL ==>
        && p !in old(h).descs && h.descs == old(h).descs[p := old(h).descs[f]]
        && old(h).descs[f].data in old(h).bufs && old(h).descs[f].len < |old(h).bufs[old(h).descs[f].data]|
        && old(h).descs[f].data in old(s).tally
        && peak == Max(old(peak), old(s).tally[old(h).descs[f].data] + 1)
        && Now() == Joined(old(Now()).(h := old(h).(tick := h.tick)), p, old(h).descs[f])
    {
      var was := h;
      var ok := Room();
      h := h.(tick := h.tick + 1);
      SaneTick(Store(was, s), h.tick);
      if !ok {
        return NULL;
      }
      FreeAddress(h.descs.Keys);
      p :| p != NULL && p !in h.descs.Keys;
      var d := h.descs[f];
      LiveAt(Now(), f);
      SaneJoin(Now(), p, d);
      ghost var m := Joined(Now(), p, d);
      BelowPut(s.tally, peak, d.data, s.tally[d.data] + 1);
      peak := Max(peak, s.tally[d.data] + 1);
      h := h.(used := h.used + 1, descs := h.descs[p := d], next := h.next[p := NULL],
              bufs := h.bufs[d.data := Up(h.bufs[d.data])]);
      s := m.s;
    }

    /**
     * xcan_frame_deepcopy: an independent frame of the same value over a payload of its own.
     * Repair: both allocations are checked, and the count of the original, which the copy it
     * starts from would raise, ends as it was.
     */
    method DeepCopy(f: Ptr) returns (p: Ptr)
      requires Valid() && f in h.descs
      modifies this
      ensures Valid() && h.tick == old(h.tick) + if old(Room()) then 2 else 1
      ensures p == NULL <==> !(old(h.used) < capacity && grant(old(h.tick)) && grant(old(h.tick) + 1))
      ensures p == NULL ==> Now() == old(Now()).(h := old(h).(tick := h.tick)) && peak == old(peak)
      ensures p != NULL ==>
        && peak == Max(old(peak), 1)
        && p !in old(h).descs && p in h.descs && h.descs[p].data !in old(h).bufs
        && h.descs[p] == old(h).descs[f].(data := h.descs[p].data)
        && f in s.pkts && h.descs[p].len == |s.pkts[f].payload|
        && Now() == Minted(old(Now()).(h := old(h).(tick := h.tick)), p, h.descs[p], s.pkts[f].payload)
        && p in s.pkts && s.pkts[p] == s.pkts[f] == old(s).pkts[f]
    {
      assert DescOk(Now(), f);
      if !Room() || !grant(h.tick + 1) {
        ghost var m := Now();
        h := h.(tick := h.tick + if Room() then 2 else 1);
        SaneTick(m, h.tick);
        return NULL;
      }
      var d := h.descs[f];
      p := Mint(d.dev, d.id, d.flags, d.len, h.bufs[d.data][..d.len]);
    }

    /**
     * xcan_frame_discard: gives one descriptor back and releases the payload when the counter
     * byte reaches zero. Repair: the descriptor is always released.
     */
    method Discard(p: Ptr)
      requires Valid() && (p != NULL ==> p in h.descs)
      modifies this
      ensures p == NULL || Spared(old(Now()), p) ==> Valid()
      ensures peak == old(peak)
      ensures Now() == if p == NULL then old(Now()) else Left(old(Now()), p)
    {
      if p == NULL {
        return;
      }
      LiveAt(Now(), p);
      BelowLeft(Now(), p, peak);
      ghost var m := Left(Now(), p);
      assert m == Without(Now(), p);
      var b := h.descs[p].data;
      var buf := Down(h.bufs[b]);
      var bufs := if buf[|buf| - 1] == 0 then h.bufs - {b} else h.bufs[b := buf];
      h := Heap(h.tick, h.used - 1, h.descs - {p}, h.next - {p}, bufs);
      s := m.s;
    }

    /** What xcan_stack_recv writes through a frame it has just allocated. */
    method Fill(p: Ptr, dev: int, id: uint32, flags: byte, data: seq<byte>)
      requires Valid() && p in h.descs && h.descs[p].data in s.tally && s.tally[h.descs[p].data] == 1
      requires h.descs[p].data in h.bufs && |h.bufs[h.descs[p].data]| == |data| + 1 && h.descs[p].len == |data|
      modifies this
      ensures Valid() && peak == old(peak)
      ensures Now() == Filled(old(Now()), p, Frame(dev, id, flags, |data|, old(h).descs[p].data), data)
    {
      var b := h.descs[p].data;
      var f := Frame(dev, id, flags, |data|, b);
      SaneFill(Now(), p, f, data);
      assert BufOk(Now(), b);
      ghost var m := Filled(Now(), p, f, data);
      assert data + h.bufs[b][|data|..] == data + [1];
      h := h.(descs := h.descs[p := f], bufs := h.bufs[b := data + h.bufs[b][|data|..]]);
      s := m.s;
    }
  }
}
