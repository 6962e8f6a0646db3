/** stack/include/xcan_queue.h: a FIFO of frame descriptors linked through their own `next` field. */
module Queues {
  import opened Base
  import opened Frames

  /** A queue with a limit refuses frames once it holds that many; limit 0 means no limit. */
  predicate Full(limit: uint32, held: nat) {
    limit != 0 && held >= limit as int
  }

  /** The descriptor at position `i` of a run, or NULL past its end. */
  ghost function Link(nodes: seq<Ptr>, i: int): Ptr {
    if 0 <= i < |nodes| then nodes[i] else NULL
  }

  /** Position `i` of a chain: live, linked to position `i + 1`, at its place, saying its packet. */
  ghost predicate Node(m: Store, nodes: seq<Ptr>, packets: seq<Packet>, place: Home, i: int) {
    0 <= i < |nodes| && i < |packets| ==>
      && nodes[i] != NULL && nodes[i] in m.h.descs
      && nodes[i] in m.h.next && m.h.next[nodes[i]] == Link(nodes, i + 1)
      && nodes[i] in m.s.home && m.s.home[nodes[i]] == place
      && nodes[i] in m.s.pkts && m.s.pkts[nodes[i]] == packets[i]
  }

  /** The descriptors `nodes` form an acyclic list, at one place, saying `packets` in order. */
  ghost predicate Chain(m: Store, nodes: seq<Ptr>, packets: seq<Packet>, place: Home) {
    && |nodes| == |packets|
    && (forall i, j | 0 <= i < j < |nodes| :: nodes[i] != nodes[j])
    && (forall i {:trigger Node(m, nodes, packets, place, i)} :: Node(m, nodes, packets, place, i))
  }

  /** A live descriptor reads the same, linked and placed as before, in both memories. */
  ghost predicate Same(m: Store, m': Store, p: Ptr) {
    p in m.h.descs && p in m.h.next && p in m.s.home && p in m.s.pkts ==>
      && p in m'.h.descs
      && p in m'.h.next && m'.h.next[p] == m.h.next[p]
      && p in m'.s.home && m'.s.home[p] == m.s.home[p]
      && p in m'.s.pkts && m'.s.pkts[p] == m.s.pkts[p]
  }

  /** A memory step that leaves the descriptors at a place alone leaves the chain there alone. */
  lemma ChainKept(m: Store, m': Store, nodes: seq<Ptr>, packets: seq<Packet>, place: Home)
    requires Chain(m, nodes, packets, place)
    requires forall p {:trigger Same(m, m', p)} | p in m.s.home && m.s.home[p] == place :: Same(m, m', p)
    ensures Chain(m', nodes, packets, place)
  {
    forall i
      ensures Node(m', nodes, packets, place, i)
    {
      assert Node(m, nodes, packets, place, i);
      if 0 <= i < |nodes| {
        assert Same(m, m', nodes[i]);
      }
    }
  }

  /** Queues at different places have no descriptor in common, though their descriptors may share payloads. */
  lemma ChainsDisjoint(m: Store, a: seq<Ptr>, ap: seq<Packet>, at: Home, b: seq<Ptr>, bp: seq<Packet>, bt: Home)
    requires Chain(m, a, ap, at) && Chain(m, b, bp, bt) && at != bt
    ensures forall i, j | 0 <= i < |a| && 0 <= j < |b| :: a[i] != b[j]
  {
    forall i, j | 0 <= i < |a| && 0 <= j < |b|
      ensures a[i] != b[j]
    {
      assert Node(m, a, ap, at, i) && Node(m, b, bp, bt, j);
    }
  }

  /** The memory after a descriptor has been linked behind `tail`, or unlinked from the front. */
  ghost function Relinked(m: Store, f: Ptr, tail: Ptr, place: Home): Store {
    var next := m.h.next[f := NULL];
    Store(m.h.(next := if tail == NULL then next else next[tail := f]), m.s.(home := m.s.home[f := place]))
  }

  lemma SaneRelinked(m: Store, f: Ptr, tail: Ptr, place: Home)
    requires Sane(m) && f in m.h.descs && (tail != NULL ==> tail in m.h.descs)
    ensures Sane(Relinked(m, f, tail, place))
  {
    var m' := Relinked(m, f, tail, place);
    assert SizeOk(m, m.h.descs);
    forall p
      ensures DescOk(m', p)
    {
      assert DescOk(m, p);
    }
    forall b
      ensures BufOk(m', b)
    {
      assert BufOk(m, b);
    }
  }

  lemma ChainAppend(m: Store, nodes: seq<Ptr>, packets: seq<Packet>, place: Home, f: Ptr)
    requires Chain(m, nodes, packets, place) && place != Hand
    requires f != NULL && f in m.h.descs && f in m.s.home && m.s.home[f] == Hand && f in m.s.pkts
    ensures var tail := if |nodes| == 0 then NULL else nodes[|nodes| - 1];
      Chain(Relinked(m, f, tail, place), nodes + [f], packets + [m.s.pkts[f]], place)
  {
    var tail := if |nodes| == 0 then NULL else nodes[|nodes| - 1];
    var m' := Relinked(m, f, tail, place);
    if |nodes| > 0 {
      assert Node(m, nodes, packets, place, |nodes| - 1);
    }
    forall i
      ensures Node(m', nodes + [f], packets + [m.s.pkts[f]], place, i)
      ensures 0 <= i < |nodes| ==> nodes[i] != f
    {
      assert Node(m, nodes, packets, place, i);
    }
  }

  lemma ChainRemove(m: Store, nodes: seq<Ptr>, packets: seq<Packet>, place: Home)
    requires Chain(m, nodes, packets, place) && |nodes| > 0
    ensures Chain(Relinked(m, nodes[0], NULL, Hand), nodes[1..], packets[1..], place)
  {
    var m' := Relinked(m, nodes[0], NULL, Hand);
    forall i
      ensures Node(m', nodes[1..], packets[1..], place, i)
    {
      assert Node(m, nodes, packets, place, i + 1);
      if 0 <= i < |nodes| - 1 {
        assert nodes[1..][i] == nodes[i + 1] != nodes[0];
      }
    }
  }

  lemma ChainBatch(m: Store, nodes: seq<Ptr>, packets: seq<Packet>, place: Home)
    requires Chain(m, nodes, packets, place)
    requires forall i | 0 <= i < |nodes| :: Few(m, nodes[i])
    ensures Batch(m, nodes)
  {
    forall i | 0 <= i < |nodes|
      ensures nodes[i] in m.h.descs
    {
      assert Node(m, nodes, packets, place, i);
    }
  }

  /** Unlinking a descriptor that is then discarded leaves no trace. */
  lemma LeftRelinked(m: Store, f: Ptr)
    requires Sane(m) && f in m.h.descs && Spared(m, f)
    ensures Sane(Relinked(m, f, NULL, Hand)) && Left(Relinked(m, f, NULL, Hand), f) == Left(m, f)
  {
    SaneRelinked(m, f, NULL, Hand);
    assert m.h.next[f := NULL] - {f} == m.h.next - {f};
    assert m.s.home[f := Hand] - {f} == m.s.home - {f};
  }

  /** Discarding a descriptor in a hand leaves every queue alone. */
  lemma LeftChain(m: Store, nodes: seq<Ptr>, packets: seq<Packet>, place: Home, f: Ptr)
    requires Sane(m) && f in m.h.descs && f in m.s.home && m.s.home[f] == Hand && Spared(m, f)
    requires Chain(m, nodes, packets, place) && place != Hand
    ensures Chain(Left(m, f), nodes, packets, place)
  {
    ChainKept(m, Left(m, f), nodes, packets, place);
  }

  /** Discarding the frame just dequeued goes one frame towards the empty queue. */
  lemma EmptyStep(m: Store, rest: seq<Ptr>, packets: seq<Packet>, place: Home)
    requires Sane(m) && Batch(m, rest) && |rest| > 0 && place != Hand
    requires Chain(Relinked(m, rest[0], NULL, Hand), rest[1..], packets, place)
    ensures Sane(Relinked(m, rest[0], NULL, Hand))
    ensures var m' := Left(Relinked(m, rest[0], NULL, Hand), rest[0]);
      && m' == Left(m, rest[0])
      && Chain(m', rest[1..], packets, place) && Batch(m', rest[1..])
  {
    BatchStep(m, rest);
    LeftRelinked(m, rest[0]);
    LeftChain(Relinked(m, rest[0], NULL, Hand), rest[1..], packets, place, rest[0]);
  }

  class Queue {
    const max_frames: uint32
    var frames: uint32
    var head: Ptr
    var tail: Ptr
    ghost const place: Home            // the device slot and direction this queue serves
    ghost var nodes: seq<Ptr>          // the linked descriptors, head first
    ghost var contents: seq<Packet>    // what they say

    /** The linked list, whatever the frame count says. */
    ghost predicate Linked(m: Store)
      reads this
    {
      && place != Hand
      && head == Link(nodes, 0)
      && tail == (if |nodes| == 0 then NULL else nodes[|nodes| - 1])
      && Chain(m, nodes, contents, place)
    }

    ghost predicate Valid(m: Store)
      reads this
    {
      Linked(m) && frames as int == |nodes| && (max_frames != 0 ==> frames <= max_frames)
    }

    constructor (limit: uint32, ghost place: Home, ghost m: Store)
      requires place != Hand
      ensures Valid(m) && nodes == [] && contents == []
      ensures max_frames == limit && this.place == place
    {
      max_frames, frames, head, tail := limit, 0, NULL, NULL;
      this.place, nodes, contents := place, [], [];
      new;
      forall i
        ensures Node(m, [], [], place, i)
      {
      }
    }

    /** A memory step that leaves the descriptors of this queue alone leaves the queue valid. */
    lemma Kept(m: Store, m': Store)
      requires Valid(m)
      requires forall p {:trigger Same(m, m', p)} | p in m.s.home && m.s.home[p] == place :: Same(m, m', p)
      ensures Valid(m')
    {
      ChainKept(m, m', nodes, contents, place);
    }

    /**
     * xcan_enqueue: 0 when the frame was linked at the tail, -1 when the queue is full. The
     * frame count of a queue without a limit wraps around at 2^32.
     */
    method Enqueue(mem: Memory, f: Ptr) returns (r: int)
      requires mem.Valid() && Valid(mem.Now())
      requires f in mem.h.descs && f in mem.s.home && mem.s.home[f] == Hand && f in mem.s.pkts
      modifies this, mem
      ensures mem.Valid() && Linked(mem.Now()) && mem.peak == old(mem.peak)
      ensures Valid(mem.Now()) <==> max_frames != 0 || |nodes| < 0x1_0000_0000
      ensures r == 0 ==> frames as int == if |nodes| == 0x1_0000_0000 then 0 else |nodes|
      ensures r == if max_frames != 0 && |old(nodes)| >= max_frames as int then -1 else 0
      ensures r == 0 ==>
        && nodes == old(nodes) + [f] && contents == old(contents) + [old(mem.s).pkts[f]]
        && mem.Now() == Relinked(old(mem.Now()), f, old(tail), place)
      ensures r != 0 ==> unchanged(this) && unchanged(mem)
    {
      if max_frames != 0 && frames >= max_frames {
        return -1;
      }
      assert DescOk(mem.Now(), f);
      assert Node(mem.Now(), nodes, contents, place, 0) && Node(mem.Now(), nodes, contents, place, |nodes| - 1);
      ChainAppend(mem.Now(), nodes, contents, place, f);
      SaneRelinked(mem.Now(), f, tail, place);
      ghost var m := Relinked(mem.Now(), f, tail, place);
      var next := mem.h.next[f := NULL];
      if head == NULL {
        head := f;
        frames := 0;
      } else {
        next := next[tail := f];
      }
      tail := f;
      frames := if frames == 0xFFFF_FFFF then 0 else frames + 1;
      mem.h := mem.h.(next := next);
      mem.s := m.s;
      nodes, contents := nodes + [f], contents + [m.s.pkts[f]];
      return 0;
    }

    /** xcan_dequeue: unlinks and returns the head, or NULL from an empty queue. */
    method Dequeue(mem: Memory) returns (f: Ptr)
      requires mem.Valid() && Valid(mem.Now())
      modifies this, mem
      ensures mem.Valid() && Valid(mem.Now()) && mem.peak == old(mem.peak)
      ensures |old(nodes)| == 0 ==>
        f == NULL && unchanged(this) && unchanged(mem)
      ensures |old(nodes)| > 0 ==>
        && |old(contents)| > 0 && f == old(nodes)[0] && f != NULL
        && f in old(mem.h).descs && f in old(mem.s).pkts && old(mem.s).pkts[f] == old(contents)[0]
        && f in old(mem.s).home && old(mem.s).home[f] == place
        && nodes == old(nodes)[1..] && contents == old(contents)[1..]
        && mem.Now() == Relinked(old(mem.Now()), f, NULL, Hand)
    {
      assert Node(mem.Now(), nodes, contents, place, 0);
      f := head;
      if f == NULL {
        return NULL;
      }
      if frames < 1 {
        return NULL;
      }
      assert Node(mem.Now(), nodes, contents, place, 1);
      ChainRemove(mem.Now(), nodes, contents, place);
      SaneRelinked(mem.Now(), f, NULL, Hand);
      ghost var m := Relinked(mem.Now(), f, NULL, Hand);
      head := mem.h.next[f];
      frames := frames - 1;
      if head == NULL {
        tail := NULL;
      }
      mem.h := mem.h.(next := mem.h.next[f := NULL]);
      mem.s := m.s;
      nodes, contents := nodes[1..], contents[1..];
    }

    /** xcan_queue_peek: the head, still linked. */
    method Peek(ghost m: Store) returns (f: Ptr)
      requires Valid(m)
      ensures |nodes| == 0 ==> f == NULL
      ensures |nodes| > 0 ==> |contents| > 0 && f == nodes[0] && f in m.h.descs
      ensures |nodes| > 0 ==> f != NULL && f in m.s.pkts && m.s.pkts[f] == contents[0]
    {
      assert Node(m, nodes, contents, place, 0);
      f := head;
      if frames < 1 {
        return NULL;
      }
    }

    /** `f` is what Dequeue just took from memory `m`, where the queue was `rest`. */
    ghost predicate Emptying(now: Store, m: Store, rest: seq<Ptr>, f: Ptr)
      reads this
    {
      && Sane(m) && Batch(m, rest)
      && if f == NULL then |rest| == |nodes| == 0 && now == m
         else |rest| > 0 && rest[0] == f && rest[1..] == nodes && now == Relinked(m, f, NULL, Hand)
    }

    /** One turn of the loop below: discards the frame in hand and takes the next. */
    method DiscardNext(mem: Memory, f: Ptr, ghost m: Store, ghost rest: seq<Ptr>) returns (g: Ptr)
      requires mem.Valid() && Valid(mem.Now()) && f != NULL && Emptying(mem.Now(), m, rest, f)
      modifies this, mem
      ensures mem.Valid() && Valid(mem.Now()) && mem.peak == old(mem.peak)
      ensures Sane(Left(m, f)) && Emptying(mem.Now(), Left(m, f), rest[1..], g)
    {
      EmptyStep(m, rest, contents, place);
      BatchStep(m, rest);
      assert Spared(mem.Now(), f);
      mem.Discard(f);
      g := Dequeue(mem);
    }

    /**
     * xcan_queue_empty: discards every frame of the queue, head first. Payloads that other
     * descriptors share survive with their counts lowered (LeftAllCount, LeftAllRest).
     */
    method Empty(mem: Memory)
      requires mem.Valid() && Valid(mem.Now())
      requires forall i | 0 <= i < |nodes| :: Few(mem.Now(), nodes[i])
      modifies this, mem
      ensures mem.Valid() && Valid(mem.Now()) && nodes == [] && contents == [] && mem.peak == old(mem.peak)
      ensures Sane(old(mem.Now())) && Batch(old(mem.Now()), old(nodes))
      ensures mem.Now() == LeftAll(old(mem.Now()), old(nodes))
    {
      ChainBatch(mem.Now(), nodes, contents, place);
      ghost var goal := LeftAll(mem.Now(), nodes);
      ghost var m, rest := mem.Now(), nodes;    // the memory and the queue before the last Dequeue
      var f := Dequeue(mem);
      while f != NULL
        invariant mem.Valid() && Valid(mem.Now()) && mem.peak == old(mem.peak) && Emptying(mem.Now(), m, rest, f)
        invariant LeftAll(m, rest) == goal
        decreases |rest|
      {
        ghost var taken := f;
        f := DiscardNext(mem, f, m, rest);
        m, rest := Left(m, taken), rest[1..];
      }
    }
  }
}
