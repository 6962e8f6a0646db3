/**
 * What moving one descriptor between a hand and a queue does to the memory as a whole: who is
 * in a hand, who may share a payload with whom, and which descriptors stay as they are.
 */
module Moves {
  import opened Base
  import opened Frames
  import opened Queues

  /** A live descriptor: short enough to send, and alone with its payload while incoming. */
  ghost predicate TidyAt(m: Store, hand: Ptr, p: Ptr) {
    p in m.h.descs && p in m.s.home && p in m.s.pkts ==>
      && |m.s.pkts[p].payload| < 0x100
      && (m.s.home[p] == Hand ==> p == hand)
      && (m.s.home[p].Queued? && !m.s.home[p].outgoing ==>
            m.h.descs[p].data in m.s.tally && m.s.tally[m.h.descs[p].data] == 1)
  }

  /** A payload that is not in the hand is shared by at most 255. */
  ghost predicate RoomyAt(m: Store, hand: Ptr, b: Ptr) {
    b in m.s.tally && !(hand in m.h.descs && m.h.descs[hand].data == b) ==> m.s.tally[b] < 0x100
  }

  ghost predicate Tidy(m: Store, hand: Ptr) {
    && (forall p {:trigger TidyAt(m, hand, p)} :: TidyAt(m, hand, p))
    && (forall b {:trigger RoomyAt(m, hand, b)} :: RoomyAt(m, hand, b))
  }

  /** The descriptor `f` is in the hand. */
  ghost predicate Held(m: Store, f: Ptr) {
    && f in m.h.descs && f in m.s.home && m.s.home[f] == Hand && f in m.s.pkts
    && m.h.descs[f].data in m.s.tally
  }

  /** How many descriptors share the payload of `f`. */
  ghost function Shares(m: Store, f: Ptr): int {
    if f in m.h.descs && m.h.descs[f].data in m.s.tally then m.s.tally[m.h.descs[f].data] else 0
  }

  /** With nothing in a hand every payload has few enough sharers for any discard. */
  lemma FewAll(m: Store)
    requires Sane(m) && Tidy(m, NULL)
    ensures forall p {:trigger Few(m, p)} :: Few(m, p)
  {
    assert DescOk(m, NULL);
    forall p
      ensures Few(m, p)
    {
      assert p in m.h.descs ==> RoomyAt(m, NULL, m.h.descs[p].data);
    }
  }

  /** A payload shared by one descriptor is shared by nobody else. */
  lemma Sole(m: Store, p: Ptr, q: Ptr)
    requires Sane(m) && p in m.h.descs && q in m.h.descs && m.h.descs[p].data == m.h.descs[q].data
    requires Shares(m, p) == 1
    ensures p == q
  {
    var b := m.h.descs[p].data;
    assert DescOk(m, p) && BufOk(m, b);
    CountLeave(m.h.descs, p, b);
    CountZero(m.h.descs - {p}, b);
    assert forall x | x in m.h.descs && x != p :: x in m.h.descs - {p};
  }

  lemma TidyPull(m: Store, f: Ptr)
    requires Sane(m) && Tidy(m, NULL) && f in m.h.descs && f in m.s.home && m.s.home[f].Queued?
    ensures Tidy(Relinked(m, f, NULL, Hand), f) && Held(Relinked(m, f, NULL, Hand), f)
    ensures Shares(m, f) < 0x100
    ensures !m.s.home[f].outgoing ==> Shares(m, f) == 1
  {
    var m' := Relinked(m, f, NULL, Hand);
    assert TidyAt(m, NULL, f) && DescOk(m, NULL) && DescOk(m, f) && BufOk(m, m.h.descs[f].data);
    assert RoomyAt(m, NULL, m.h.descs[f].data);
    forall p
      ensures TidyAt(m', f, p)
    {
      assert TidyAt(m, NULL, p);
    }
    forall b
      ensures RoomyAt(m', f, b)
    {
      assert RoomyAt(m, NULL, b);
    }
  }

  /** Releasing the frame in the hand leaves the memory tidy again. */
  lemma TidyRelease(m: Store, f: Ptr)
    requires Sane(m) && Tidy(m, f) && Held(m, f) && Shares(m, f) <= 0x100
    ensures Tidy(Left(m, f), NULL)
  {
    var m' := Left(m, f);
    FewSpared(m, f);
    SaneLeave(m, f);
    assert DescOk(m', NULL);
    forall p
      ensures TidyAt(m', NULL, p)
    {
      assert TidyAt(m, f, p) && DescOk(m, p);
      if p in m'.h.descs && m.h.descs[p].data == m.h.descs[f].data && Shares(m, p) == 1 {
        Sole(m, p, f);
      }
    }
    forall b
      ensures RoomyAt(m', NULL, b)
    {
      assert RoomyAt(m, f, b);
    }
  }

  /** A copy of the frame in the hand, queued for sending at device `i`. */
  ghost function Copied(m: Store, f: Ptr, c: Ptr, tail: Ptr, i: int): Store
    requires Sane(m) && f in m.h.descs
  {
    assert DescOk(m, f) && BufOk(m, m.h.descs[f].data);
    Relinked(Joined(m, c, m.h.descs[f]), c, tail, Queued(i, true))
  }

  lemma TidyCopy(m: Store, f: Ptr, c: Ptr, tail: Ptr, i: int)
    requires Sane(m) && Tidy(m, f) && Held(m, f) && c !in m.h.descs
    ensures Tidy(Copied(m, f, c, tail, i), f)
  {
    var m' := Copied(m, f, c, tail, i);
    assert DescOk(m, f) && TidyAt(m, f, f) && DescOk(m, c);
    forall p
      ensures TidyAt(m', f, p)
    {
      assert TidyAt(m, f, p) && DescOk(m, p);
      if p in m.h.descs && m.h.descs[p].data == m.h.descs[f].data && Shares(m, p) == 1 {
        Sole(m, p, f);
      }
    }
    forall b
      ensures RoomyAt(m', f, b)
    {
      assert RoomyAt(m, f, b);
    }
  }

  lemma TidyReceive(m: Store, p: Ptr, f: Frame, payload: seq<byte>, tail: Ptr, i: int)
    requires Sane(m) && Tidy(m, NULL) && p !in m.h.descs && f.data !in m.h.bufs
    requires f.len == |payload| < 0x100
    ensures Tidy(Admitted(m, p, f, payload, tail, i), NULL)
  {
    var m' := Admitted(m, p, f, payload, tail, i);
    assert DescOk(m, NULL);
    forall q
      ensures TidyAt(m', NULL, q)
    {
      assert TidyAt(m, NULL, q) && DescOk(m, q);
    }
    forall b
      ensures RoomyAt(m', NULL, b)
    {
      assert RoomyAt(m, NULL, b);
    }
  }

  lemma TidyTick(m: Store, hand: Ptr, tick: nat)
    requires Tidy(m, hand)
    ensures Tidy(m.(h := m.h.(tick := tick)), hand)
  {
    var m' := m.(h := m.h.(tick := tick));
    forall p
      ensures TidyAt(m', hand, p)
    {
      assert TidyAt(m, hand, p);
    }
    forall b
      ensures RoomyAt(m', hand, b)
    {
      assert RoomyAt(m, hand, b);
    }
  }

  /** Adding a key and removing it again. */
  lemma PutRemove<K, V>(m: map<K, V>, k: K, v: V)
    requires k !in m
    ensures m[k := v] - {k} == m
  {
  }

  /** Taking a descriptor and giving it straight back changes nothing. */
  lemma LeftJoined(m: Store, p: Ptr, f: Frame)
    requires Sane(m) && p != NULL && p !in m.h.descs
    requires f.data in m.h.bufs && f.len < |m.h.bufs[f.data]|
    requires f.data in m.s.tally && m.s.tally[f.data] < 0x100
    ensures Sane(Joined(m, p, f)) && Left(Joined(m, p, f), p) == m
  {
    SaneJoin(m, p, f);
    FewSpared(Joined(m, p, f), p);
    SaneLeave(Joined(m, p, f), p);
    assert DescOk(m, p) && BufOk(m, f.data);
    var buf := m.h.bufs[f.data];
    assert Down(Up(buf)) == buf;
    PutRemove(m.h.descs, p, f);
    PutRemove(m.h.next, p, NULL);
    PutRemove(m.s.home, p, Hand);
    PutRemove(m.s.pkts, p, Decode(f, buf));
    assert m.h.bufs[f.data := Up(buf)][f.data := buf] == m.h.bufs;
  }

  lemma LeftMinted(m: Store, p: Ptr, f: Frame, payload: seq<byte>)
    requires Sane(m) && p != NULL && p !in m.h.descs && f.data !in m.h.bufs && f.len <= |payload|
    ensures Sane(Minted(m, p, f, payload)) && Left(Minted(m, p, f, payload), p) == m
  {
    SaneMint(m, p, f, payload);
    FewSpared(Minted(m, p, f, payload), p);
    SaneLeave(Minted(m, p, f, payload), p);
    assert DescOk(m, p) && BufOk(m, f.data);
    PutRemove(m.h.descs, p, f);
    PutRemove(m.h.next, p, NULL);
    PutRemove(m.s.home, p, Hand);
    PutRemove(m.s.pkts, p, Decode(f, payload));
    PutRemove(m.h.bufs, f.data, payload + [1]);
    PutRemove(m.s.tally, f.data, 1);
  }

  /** Filling in a frame just allocated is the same as allocating it filled in. */
  lemma FilledMinted(m: Store, p: Ptr, f0: Frame, zeros: seq<byte>, f: Frame, payload: seq<byte>)
    requires f.data == f0.data && |zeros| == |payload| && f0.len <= |zeros| && f.len <= |payload|
    ensures Filled(Minted(m, p, f0, zeros), p, f, payload) == Minted(m, p, f, payload)
  {
    assert m.h.descs[p := f0][p := f] == m.h.descs[p := f];
    assert m.h.bufs[f.data := zeros + [1]][f.data := payload + [1]] == m.h.bufs[f.data := payload + [1]];
    assert m.s.pkts[p := Decode(f0, zeros)][p := Decode(f, payload)] == m.s.pkts[p := Decode(f, payload)];
  }

  /** The descriptors queued at device `j` read the same in both memories. */
  ghost predicate SlotSame(m: Store, m': Store, j: int) {
    forall p {:trigger Same(m, m', p)} | p in m.s.home && m.s.home[p].Queued? && m.s.home[p].port == j :: Same(m, m', p)
  }

  /** Moving a descriptor of device `i` between its queue and the hand leaves the other devices alone. */
  lemma PullSame(m: Store, f: Ptr, i: int, outgoing: bool, j: int)
    requires f in m.s.home && m.s.home[f] == Queued(i, outgoing)
    ensures j != i ==> SlotSame(m, Relinked(m, f, NULL, Hand), j)
    ensures forall p {:trigger Same(m, Relinked(m, f, NULL, Hand), p)} |
      p in m.s.home && m.s.home[p] == Queued(i, !outgoing) :: Same(m, Relinked(m, f, NULL, Hand), p)
  {
  }

  lemma CopySame(m: Store, f: Ptr, c: Ptr, tail: Ptr, i: int, j: int)
    requires Sane(m) && f in m.h.descs && c !in m.h.descs
    requires tail != NULL ==> tail in m.s.home && m.s.home[tail] == Queued(i, true)
    ensures j != i ==> SlotSame(m, Copied(m, f, c, tail, i), j)
    ensures forall p {:trigger Same(m, Copied(m, f, c, tail, i), p)} |
      p in m.s.home && m.s.home[p] == Queued(i, false) :: Same(m, Copied(m, f, c, tail, i), p)
  {
    assert DescOk(m, c);
  }

  lemma LeftSame(m: Store, f: Ptr, j: int)
    requires Sane(m) && Held(m, f)
    ensures SlotSame(m, Left(m, f), j)
  {
    LiveAt(m, f);
  }

  /** Emptying a queue leaves the rest of the memory tidy, and the other queues as they are. */
  lemma TidyLeftAll(m: Store, ps: seq<Ptr>)
    requires Sane(m) && Tidy(m, NULL) && Batch(m, ps)
    ensures Tidy(LeftAll(m, ps), NULL)
  {
    var m' := LeftAll(m, ps);
    assert DescOk(m, NULL);
    forall p
      ensures TidyAt(m', NULL, p)
    {
      assert TidyAt(m, NULL, p) && DescOk(m', p);
      LeftAllRest(m, ps, p);
      if p in m'.h.descs {
        LeftAllCount(m, ps, m'.h.descs[p].data);
        assert BufOk(m', m'.h.descs[p].data);
      }
    }
    forall b
      ensures RoomyAt(m', NULL, b)
    {
      assert RoomyAt(m, NULL, b) && BufOk(m', b);
      LeftAllCount(m, ps, b);
    }
  }

  lemma LeftAllSame(m: Store, nodes: seq<Ptr>, packets: seq<Packet>, place: Home, place': Home)
    requires Sane(m) && Batch(m, nodes) && Chain(m, nodes, packets, place) && place' != place
    ensures forall p {:trigger Same(m, LeftAll(m, nodes), p)} |
      p in m.s.home && m.s.home[p] == place' :: Same(m, LeftAll(m, nodes), p)
  {
    forall i | 0 <= i < |nodes|
      ensures nodes[i] in m.s.home && m.s.home[nodes[i]] == place
    {
      assert Node(m, nodes, packets, place, i);
    }
    forall p | p in m.s.home && m.s.home[p] == place'
      ensures Same(m, LeftAll(m, nodes), p)
    {
      LeftAllRest(m, nodes, p);
      assert DescOk(LeftAll(m, nodes), p);
    }
  }

  /** A new frame, queued as received at device `i`. */
  ghost function Admitted(m: Store, p: Ptr, f: Frame, payload: seq<byte>, tail: Ptr, i: int): Store
    requires f.len <= |payload|
  {
    Relinked(Minted(m, p, f, payload), p, tail, Queued(i, false))
  }

  lemma AdmitSame(m: Store, p: Ptr, f: Frame, payload: seq<byte>, tail: Ptr, i: int, j: int)
    requires Sane(m) && p !in m.h.descs && f.len <= |payload|
    requires tail != NULL ==> tail in m.s.home && m.s.home[tail] == Queued(i, false)
    ensures j != i ==> SlotSame(m, Admitted(m, p, f, payload, tail, i), j)
    ensures forall q {:trigger Same(m, Admitted(m, p, f, payload, tail, i), q)} |
      q in m.s.home && m.s.home[q] == Queued(i, true) :: Same(m, Admitted(m, p, f, payload, tail, i), q)
  {
    assert DescOk(m, p);
  }
}
