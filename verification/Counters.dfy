/**
 * How far the one-byte usage counter of stack/xcan_frame.c carries. A payload with many copies
 * is safe exactly as long as the byte can tell "one left" from any other number.
 */
module Counters {
  import opened Base
  import opened Frames
  import opened Queues
  import opened Routing

  /** A payload buffer after its counter was raised `n` times. */
  function Raised(buf: seq<byte>, n: nat): (r: seq<byte>)
    requires |buf| > 0
    ensures |r| == |buf|
  {
    if n == 0 then buf else Up(Raised(buf, n - 1))
  }

  /** Raising counts modulo 256 and leaves the payload alone; lowering undoes it. */
  lemma {:induction false} RaisedCounts(buf: seq<byte>, n: nat)
    requires |buf| > 0
    ensures Raised(buf, n)[|buf| - 1] as int == (buf[|buf| - 1] as int + n) % 0x100
    ensures Raised(buf, n)[..|buf| - 1] == buf[..|buf| - 1]
    ensures Down(Raised(buf, n + 1)) == Raised(buf, n)
  {
    if n == 0 {
    } else {
      RaisedCounts(buf, n - 1);
    }
  }

  // ---------------------------------------------------------------- many copies of one frame

  /** A frame that can be copied: over a live payload. */
  ghost predicate Sharable(m: Store, f: Frame) {
    f.data in m.h.bufs && f.len < |m.h.bufs[f.data]| && f.data in m.s.tally
  }

  /** Free addresses, none twice. */
  ghost predicate Fresh(m: Store, cs: seq<Ptr>) {
    && (forall i | 0 <= i < |cs| :: cs[i] != NULL && cs[i] !in m.h.descs)
    && (forall i, j | 0 <= i < j < |cs| :: cs[i] != cs[j])
  }

  lemma FreshPrefix(m: Store, cs: seq<Ptr>, k: nat)
    requires Fresh(m, cs) && k <= |cs|
    ensures Fresh(m, cs[..k])
  {
  }

  /** The memory after frame `f` has been copied to each of the addresses `cs`. */
  ghost function Spread(m: Store, f: Frame, cs: seq<Ptr>): (r: Store)
    requires Sane(m) && Sharable(m, f) && Fresh(m, cs)
    ensures Sane(r) && Sharable(r, f)
    ensures forall p | p in r.h.descs :: p in m.h.descs || p in cs
  {
    if |cs| == 0 then m
    else
      var n := |cs| - 1;
      FreshPrefix(m, cs, n);
      var before := Spread(m, f, cs[..n]);
      SaneJoin(before, cs[n], f);
      Joined(before, cs[n], f)
  }

  ghost function Counter(m: Store, b: Ptr): byte
    requires b in m.h.bufs && |m.h.bufs[b]| > 0
  {
    m.h.bufs[b][|m.h.bufs[b]| - 1]
  }

  lemma ByteTells(m: Store, b: Ptr)
    requires Sane(m) && b in m.h.bufs
    ensures b in m.s.tally && m.s.tally[b] == Count(m.h.descs, b)
    ensures |m.h.bufs[b]| > 0 && Counter(m, b) as int == m.s.tally[b] % 0x100
  {
    assert BufOk(m, b);
  }

  lemma {:induction false} SpreadTally(m: Store, f: Frame, cs: seq<Ptr>)
    requires Sane(m) && Sharable(m, f) && Fresh(m, cs)
    ensures var r := Spread(m, f, cs);
      && r.s.tally[f.data] == m.s.tally[f.data] + |cs|
      && |r.h.bufs[f.data]| == |m.h.bufs[f.data]|
      && r.h.bufs[f.data][..f.len] == m.h.bufs[f.data][..f.len]
  {
    if |cs| > 0 {
      FreshPrefix(m, cs, |cs| - 1);
      SpreadTally(m, f, cs[..|cs| - 1]);
    }
  }

  /** `n` copies make `n` more sharers; the byte counts them modulo 256, and the payload stays as it is. */
  lemma SpreadCounts(m: Store, f: Frame, cs: seq<Ptr>)
    requires Sane(m) && Sharable(m, f) && Fresh(m, cs)
    ensures var r := Spread(m, f, cs);
      && r.s.tally[f.data] == m.s.tally[f.data] + |cs| == Count(r.h.descs, f.data)
      && Counter(r, f.data) as int == (m.s.tally[f.data] + |cs|) % 0x100
      && |r.h.bufs[f.data]| == |m.h.bufs[f.data]|
      && r.h.bufs[f.data][..f.len] == m.h.bufs[f.data][..f.len]
  {
    SpreadTally(m, f, cs);
    ByteTells(Spread(m, f, cs), f.data);
  }

  /** The counter byte after the first `k` of these copies. */
  ghost function CounterAfter(m: Store, f: Frame, cs: seq<Ptr>, k: nat): int
    requires Sane(m) && Sharable(m, f) && Fresh(m, cs) && k <= |cs|
  {
    FreshPrefix(m, cs, k);
    Counter(Spread(m, f, cs[..k]), f.data) as int
  }

  lemma CounterIs(m: Store, f: Frame, cs: seq<Ptr>, k: nat)
    requires Sane(m) && Sharable(m, f) && Fresh(m, cs) && k <= |cs|
    ensures CounterAfter(m, f, cs, k) == (m.s.tally[f.data] + k) % 0x100
  {
    var some := cs[..k];
    FreshPrefix(m, cs, k);
    SpreadCounts(m, f, some);
    assert |some| == k;
  }

  /**
   * From a frame that nobody shares, the byte stays within 1 .. 255 while copies are made if and
   * only if they are at most 254.
   */
  lemma InRangeIff(m: Store, f: Frame, cs: seq<Ptr>)
    requires Sane(m) && Sharable(m, f) && Fresh(m, cs) && m.s.tally[f.data] == 1
    ensures (forall k | 0 <= k <= |cs| :: CounterAfter(m, f, cs, k) != 0) <==> |cs| <= 0xFE
  {
    if |cs| > 0xFE {
      CounterIs(m, f, cs, 0xFF);
    } else {
      forall k | 0 <= k <= |cs|
        ensures CounterAfter(m, f, cs, k) != 0
      {
        CounterIs(m, f, cs, k);
      }
    }
  }

  // ---------------------------------------------------------------- discards in any order

  /** Some live descriptor points at a payload that has been released. */
  ghost predicate Dangling(m: Store) {
    exists p :: p in m.h.descs && m.h.descs[p].data !in m.h.bufs
  }

  lemma SaneSound(m: Store)
    requires Sane(m)
    ensures !Dangling(m)
  {
    forall p | p in m.h.descs
      ensures m.h.descs[p].data in m.h.bufs
    {
      assert DescOk(m, p);
    }
  }

  /** A discard keeps the memory sane exactly if the byte is right about the last sharer; otherwise pointers dangle. */
  lemma LeaveIff(m: Store, p: Ptr)
    requires Sane(m) && p in m.h.descs
    ensures Sane(Left(m, p)) <==> Spared(m, p)
    ensures Dangling(Left(m, p)) <==> !Spared(m, p)
    ensures !Spared(m, p) ==>
      var b := m.h.descs[p].data;
      b in m.s.tally && b !in Left(m, p).h.bufs && Count(Left(m, p).h.descs, b) == m.s.tally[b] - 1
  {
    var b := m.h.descs[p].data;
    LiveAt(m, p);
    if Spared(m, p) {
      SaneSound(Left(m, p));
    } else {
      assert BufOk(m, b);
      Wraps(Counter(m, b), m.s.tally[b]);
      CountLeave(m.h.descs, p, b);
      CountZero(m.h.descs - {p}, b);
      assert Left(m, p) == Without(m, p);
      var q :| q in m.h.descs - {p} && (m.h.descs - {p})[q].data == b;
      assert Dangling(Left(m, p));
      if Sane(Left(m, p)) {
        SaneSound(Left(m, p));
      }
    }
  }

  /** The memory after the descriptors `ds` have been discarded, as far as their payloads were live. */
  ghost function Shed(m: Store, ds: seq<Ptr>): Store
    decreases |ds|
  {
    if |ds| == 0 || !Sane(m) || ds[0] !in m.h.descs then m else Shed(Left(m, ds[0]), ds[1..])
  }

  ghost predicate SharersOf(m: Store, b: Ptr, ds: seq<Ptr>) {
    forall i | 0 <= i < |ds| :: ds[i] in m.h.descs ==> m.h.descs[ds[i]].data == b
  }

  /** Some order of discarding sharers of payload `b` leaves others of them with a released payload. */
  ghost predicate Doomed(m: Store, b: Ptr) {
    exists ds :: SharersOf(m, b, ds) && Dangling(Shed(m, ds))
  }

  lemma {:induction false} ShedSane(m: Store, b: Ptr, ds: seq<Ptr>)
    requires Sane(m) && SharersOf(m, b, ds) && (b in m.s.tally ==> m.s.tally[b] <= 0x100)
    ensures Sane(Shed(m, ds))
    decreases |ds|
  {
    if |ds| > 0 && ds[0] in m.h.descs {
      LiveAt(m, ds[0]);
      FewSpared(m, ds[0]);
      ShedSane(Left(m, ds[0]), b, ds[1..]);
    }
  }

  lemma {:induction false} Dooming(m: Store, b: Ptr) returns (ds: seq<Ptr>)
    requires Sane(m) && b in m.s.tally && m.s.tally[b] > 0x100
    ensures SharersOf(m, b, ds) && Dangling(Shed(m, ds))
    decreases m.s.tally[b]
  {
    assert BufOk(m, b);
    CountZero(m.h.descs, b);
    var p :| p in m.h.descs && m.h.descs[p].data == b;
    LeaveIff(m, p);
    LiveAt(m, p);
    var rest := [];
    if Spared(m, p) {
      rest := Dooming(Left(m, p), b);
    } else {
      assert Shed(Left(m, p), rest) == Left(m, p);
    }
    ds := [p] + rest;
    assert ds[1..] == rest && Shed(m, ds) == Shed(Left(m, p), rest);
    DoomingFirst(m, b, p, rest);
  }

  lemma DoomingFirst(m: Store, b: Ptr, p: Ptr, rest: seq<Ptr>)
    requires Sane(m) && p in m.h.descs && m.h.descs[p].data == b && SharersOf(Left(m, p), b, rest)
    ensures SharersOf(m, b, [p] + rest)
  {
    LiveAt(m, p);
    forall i | 0 <= i < |rest| && rest[i] in m.h.descs
      ensures m.h.descs[rest[i]].data == b
    {
      assert rest[i] != p ==> rest[i] in Left(m, p).h.descs;
    }
  }

  /** A payload is doomed if and only if it has more than 256 sharers. */
  lemma DoomedIff(m: Store, b: Ptr)
    requires Sane(m) && b in m.s.tally
    ensures Doomed(m, b) <==> m.s.tally[b] > 0x100
  {
    if m.s.tally[b] > 0x100 {
      var ds := Dooming(m, b);
    } else {
      forall ds | SharersOf(m, b, ds)
        ensures !Dangling(Shed(m, ds))
      {
        ShedSane(m, b, ds);
        SaneSound(Shed(m, ds));
      }
    }
  }

  /** So that `n` copies of a frame that nobody shares doom its payload if and only if n is 256 or more. */
  lemma SpreadDoomedIff(m: Store, f: Frame, cs: seq<Ptr>)
    requires Sane(m) && Sharable(m, f) && Fresh(m, cs) && m.s.tally[f.data] == 1
    ensures Doomed(Spread(m, f, cs), f.data) <==> |cs| >= 0x100
  {
    SpreadCounts(m, f, cs);
    DoomedIff(Spread(m, f, cs), f.data);
  }

  // ---------------------------------------------------------------- the counter as written

  /** Descriptors and payloads of a memory with the counters as written, whatever they are worth. */
  datatype Raw = Raw(descs: map<Ptr, Frame>, bufs: map<Ptr, seq<byte>>)

  predicate Readable(h: Raw, b: Ptr) {
    b in h.bufs && |h.bufs[b]| > 0
  }

  /** The counter of a payload. */
  function Last(h: Raw, b: Ptr): int
    requires Readable(h, b)
  {
    h.bufs[b][|h.bufs[b]| - 1] as int
  }

  /** xcan_frame_do_alloc as written: the counter of the new payload is 0. */
  function RawMint(h: Raw, p: Ptr, f: Frame, payload: seq<byte>): Raw {
    Raw(h.descs[p := f], h.bufs[f.data := payload + [0]])
  }

  function RawCopy(h: Raw, p: Ptr, f: Frame): Raw
    requires Readable(h, f.data)
  {
    Raw(h.descs[p := f], h.bufs[f.data := Up(h.bufs[f.data])])
  }

  /** xcan_frame_discard as written: payload and descriptor go when the lowered counter is 0, and else neither. */
  function RawDiscard(h: Raw, p: Ptr): Raw
    requires p in h.descs && Readable(h, h.descs[p].data)
  {
    var b := h.descs[p].data;
    var buf := Down(h.bufs[b]);
    if buf[|buf| - 1] == 0 then Raw(h.descs - {p}, h.bufs - {b}) else h.(bufs := h.bufs[b := buf])
  }

  /** A new frame at the first of the addresses `ps`, and copies of it at the others. */
  function RawMade(h: Raw, f: Frame, payload: seq<byte>, ps: seq<Ptr>): (r: Raw)
    requires |ps| > 0
    ensures Readable(r, f.data)
  {
    var n := |ps| - 1;
    if n == 0 then RawMint(h, ps[0], f, payload) else RawCopy(RawMade(h, f, payload, ps[..n]), ps[n], f)
  }

  lemma {:induction false} MadeCounts(h: Raw, f: Frame, payload: seq<byte>, ps: seq<Ptr>)
    requires |ps| > 0
    ensures var r := RawMade(h, f, payload, ps);
      && Last(r, f.data) == (|ps| - 1) % 0x100
      && forall i | 0 <= i < |ps| :: ps[i] in r.descs && r.descs[ps[i]] == f
  {
    if |ps| > 1 {
      MadeCounts(h, f, payload, ps[..|ps| - 1]);
    }
  }

  /** The descriptors `ds` are discarded in turn, until one of them would touch a released payload. */
  function RawShed(h: Raw, ds: seq<Ptr>): Raw
    decreases |ds|
  {
    if |ds| == 0 || ds[0] !in h.descs || !Readable(h, h.descs[ds[0]].data) then h
    else RawShed(RawDiscard(h, ds[0]), ds[1..])
  }

  /** The discard that a counter makes release the payload. */
  function Release(counter: int): int {
    if counter == 0 then 0x100 else counter
  }

  /** It alone takes its descriptor along, too. */
  lemma {:induction false} RawSheds(h: Raw, b: Ptr, ds: seq<Ptr>)
    requires Readable(h, b)
    requires forall i | 0 <= i < |ds| :: ds[i] in h.descs && h.descs[ds[i]].data == b
    requires forall i, j | 0 <= i < j < |ds| :: ds[i] != ds[j]
    ensures var r := Release(Last(h, b));
      var after := RawShed(h, ds);
      && (|ds| < r ==> b in after.bufs && after.descs == h.descs)
      && (|ds| >= r ==> b !in after.bufs && after.descs == h.descs - {ds[r - 1]})
    decreases |ds|
  {
    if |ds| > 0 {
      var h' := RawDiscard(h, ds[0]);
      if Last(h, b) == 1 {
        assert ds[1..] == [] || h'.descs[ds[1..][0]].data == b;
        assert RawShed(h', ds[1..]) == h';
      } else {
        RawSheds(h', b, ds[1..]);
      }
    }
  }

  /**
   * As written, with `n` copies of a new frame, and the frame and its copies discarded in any
   * order: without copies nothing is released at all, so that descriptor and payload leak. With
   * copies the payload is released by the discard number n (modulo 256, from 1 to 256), always
   * before the last one; that discard releases its own descriptor, those before leak, and those
   * after it are left with a released payload.
   */
  lemma AsWrittenIff(h: Raw, f: Frame, payload: seq<byte>, ps: seq<Ptr>, ds: seq<Ptr>)
    requires |ps| == |ds| > 0
    requires forall i | 0 <= i < |ds| :: ds[i] in ps
    requires forall i, j | 0 <= i < j < |ds| :: ds[i] != ds[j]
    ensures var n := |ps| - 1;
      var made := RawMade(h, f, payload, ps);
      var after := RawShed(made, ds);
      var r := Release(n % 0x100);
      && (f.data in after.bufs <==> n == 0)
      && (n == 0 ==> after.descs == made.descs)
      && (n > 0 ==> r <= n && after.descs == made.descs - {ds[r - 1]})
      && forall i | 0 <= i < |ds| && (n > 0 ==> i != r - 1) :: ds[i] in after.descs && after.descs[ds[i]] == f
  {
    var made := RawMade(h, f, payload, ps);
    MadeCounts(h, f, payload, ps);
    ReleaseBound(|ps| - 1);
    forall i | 0 <= i < |ds|
      ensures ds[i] in made.descs && made.descs[ds[i]] == f
    {
      var k :| 0 <= k < |ps| && ps[k] == ds[i];
    }
    RawSheds(made, f.data, ds);
  }

  lemma ReleaseBound(n: nat)
    ensures if n == 0 then Release(n % 0x100) > 1 else 1 <= Release(n % 0x100) <= n
  {
  }

  // ---------------------------------------------------------------- which tables need how much

  /** Without limits, destinations take their copies until the memory is full. */
  lemma {:induction false} AllAccepted(env: Env, net: Net, ds: seq<byte>, p: Packet)
    requires forall n: nat :: env.grant(n)
    requires forall d: int :: env.outLimit(d) == 0
    requires net.used <= env.capacity
    ensures var r := OfferedAll(env, net, ds, p);
      && r.n == Min(Reach(net.ports.Keys, ds), env.capacity - net.used)
      && r.net.used == net.used + r.n && r.net.ports.Keys == net.ports.Keys
  {
    if |ds| == 0 {
    } else {
      AllAccepted(env, net, ds[..|ds| - 1], p);
      ReachBounds(env, net, ds, p);
    }
  }
}
