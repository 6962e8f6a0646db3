/** Payload writes, copies and discards act on one payload; a deep copy has one of its own. */
module Independence {
  import opened Base
  import opened Frames

  /** What running code may do through a descriptor `p`. */
  datatype Op =
    | Write(p: Ptr, i: nat, v: byte)     // store a byte of its payload
    | Duplicate(p: Ptr, c: Ptr)          // copy it to a new descriptor `c`
    | Drop(p: Ptr)                       // discard it

  ghost predicate Enabled(m: Store, op: Op) {
    && op.p in m.h.descs && m.h.descs[op.p].data in m.h.bufs
    && m.h.descs[op.p].data in m.s.tally
    && m.h.descs[op.p].len < |m.h.bufs[m.h.descs[op.p].data]|
    && match op
       case Write(p, i, v) => i < |m.h.bufs[m.h.descs[p].data]| - 1
       case Duplicate(p, c) => c != NULL && c !in m.h.descs
       case Drop(p) => Spared(m, p)
  }

  /** Storing a byte changes the packet of every descriptor that shares the payload. */
  ghost function Written(m: Store, b: Ptr, i: nat, v: byte): Store
    requires Sane(m) && b in m.h.bufs && i < |m.h.bufs[b]| - 1
  {
    var buf := m.h.bufs[b][i := v];
    Store(m.h.(bufs := m.h.bufs[b := buf]),
          m.s.(pkts := map q | q in m.h.descs :: Repacked(m, q, b, buf)))
  }

  ghost function Repacked(m: Store, q: Ptr, b: Ptr, buf: seq<byte>): Packet
    requires Sane(m) && q in m.h.descs && b in m.h.bufs && |buf| == |m.h.bufs[b]|
  {
    assert DescOk(m, q);
    if m.h.descs[q].data == b then Decode(m.h.descs[q], buf) else m.s.pkts[q]
  }

  lemma SaneWritten(m: Store, b: Ptr, i: nat, v: byte)
    requires Sane(m) && b in m.h.bufs && i < |m.h.bufs[b]| - 1
    ensures Sane(Written(m, b, i, v))
  {
    var m' := Written(m, b, i, v);
    assert SizeOk(m, m.h.descs);
    forall p
      ensures DescOk(m', p)
    {
      assert DescOk(m, p);
    }
    forall c
      ensures BufOk(m', c)
    {
      assert BufOk(m, c);
    }
  }

  /** A write shows through every descriptor that shares the payload and reaches that far. */
  lemma WriteShows(m: Store, b: Ptr, i: nat, v: byte, q: Ptr)
    requires Sane(m) && b in m.h.bufs && i < |m.h.bufs[b]| - 1
    requires q in m.h.descs && m.h.descs[q].data == b && i < m.h.descs[q].len
    ensures q in m.s.pkts && m.h.descs[q].len == |m.s.pkts[q].payload|
    ensures q in Written(m, b, i, v).s.pkts
    ensures Written(m, b, i, v).s.pkts[q] == m.s.pkts[q].(payload := m.s.pkts[q].payload[i := v])
  {
    assert DescOk(m, q);
    assert m.h.bufs[b][i := v][..m.h.descs[q].len] == m.h.bufs[b][..m.h.descs[q].len][i := v];
  }

  ghost function Apply(m: Store, op: Op): (r: Store)
    requires Sane(m) && Enabled(m, op)
    ensures Sane(r)
  {
    match op
    case Write(p, i, v) => SaneWritten(m, m.h.descs[p].data, i, v); Written(m, m.h.descs[p].data, i, v)
    case Duplicate(p, c) => SaneJoin(m, c, m.h.descs[p]); Joined(m, c, m.h.descs[p])
    case Drop(p) => Left(m, p)
  }

  /** Operations that can be carried out one after another, each through a descriptor of payload `b`. */
  ghost predicate Script(m: Store, ops: seq<Op>, b: Ptr)
    requires Sane(m)
    decreases |ops|
  {
    |ops| > 0 ==>
      && Enabled(m, ops[0]) && m.h.descs[ops[0].p].data == b
      && Script(Apply(m, ops[0]), ops[1..], b)
  }

  ghost function After(m: Store, ops: seq<Op>, b: Ptr): (r: Store)
    requires Sane(m) && Script(m, ops, b)
    ensures Sane(r)
    decreases |ops|
  {
    if |ops| == 0 then m else After(Apply(m, ops[0]), ops[1..], b)
  }

  /** A descriptor and the payload under it, with its counter, are as they were. */
  ghost predicate Intact(m: Store, m': Store, p: Ptr) {
    p in m.h.descs && p in m.s.pkts && m.h.descs[p].data in m.h.bufs && m.h.descs[p].data in m.s.tally ==>
      && p in m'.h.descs && m'.h.descs[p] == m.h.descs[p]
      && p in m'.s.pkts && m'.s.pkts[p] == m.s.pkts[p]
      && m.h.descs[p].data in m'.h.bufs && m'.h.bufs[m.h.descs[p].data] == m.h.bufs[m.h.descs[p].data]
      && m.h.descs[p].data in m'.s.tally && m'.s.tally[m.h.descs[p].data] == m.s.tally[m.h.descs[p].data]
  }

  lemma ApplyIntact(m: Store, op: Op, p: Ptr)
    requires Sane(m) && Enabled(m, op) && p in m.h.descs && m.h.descs[p].data != m.h.descs[op.p].data
    ensures Intact(m, Apply(m, op), p)
  {
    assert DescOk(m, p) && BufOk(m, m.h.descs[p].data);
    if op.Drop? {
      SaneLeave(m, op.p);
    }
  }

  /** Nothing done to one payload shows through a descriptor of another. */
  lemma {:induction false} ScriptIntact(m: Store, ops: seq<Op>, b: Ptr, p: Ptr)
    requires Sane(m) && Script(m, ops, b) && p in m.h.descs && m.h.descs[p].data != b
    ensures Intact(m, After(m, ops, b), p)
    decreases |ops|
  {
    if |ops| == 0 {
    } else {
      assert DescOk(m, p) && BufOk(m, m.h.descs[p].data);
      ApplyIntact(m, ops[0], p);
      ScriptIntact(Apply(m, ops[0]), ops[1..], b, p);
      assert DescOk(Apply(m, ops[0]), p) && BufOk(Apply(m, ops[0]), m.h.descs[p].data);
    }
  }

  /**
   * A deep copy `c` of `f`, over a payload of its own, equals it; and whatever is then done to
   * the payload of one of them, the other keeps its value, its payload bytes and its count.
   */
  lemma DeepCopyIndependent(m: Store, f: Ptr, c: Ptr, d: Ptr, ops: seq<Op>)
    requires Sane(m) && f in m.h.descs && c != NULL && c !in m.h.descs && d !in m.h.bufs
    ensures f in m.s.pkts && m.h.descs[f].len == |m.s.pkts[f].payload|
    ensures var m' := Minted(m, c, m.h.descs[f].(data := d), m.s.pkts[f].payload);
      && Sane(m') && Intact(m, m', f)
      && c in m'.s.pkts && m'.s.pkts[c] == m.s.pkts[f] && d in m'.s.tally && m'.s.tally[d] == 1
      && (Script(m', ops, d) ==> Intact(m', After(m', ops, d), f))
      && (Script(m', ops, m.h.descs[f].data) ==> Intact(m', After(m', ops, m.h.descs[f].data), c))
  {
    assert DescOk(m, f) && BufOk(m, m.h.descs[f].data);
    var g, payload := m.h.descs[f].(data := d), m.s.pkts[f].payload;
    SaneMint(m, c, g, payload);
    var m' := Minted(m, c, g, payload);
    if Script(m', ops, d) {
      ScriptIntact(m', ops, d, f);
    }
    if Script(m', ops, m.h.descs[f].data) {
      ScriptIntact(m', ops, m.h.descs[f].data, c);
    }
  }
}
