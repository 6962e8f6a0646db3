/**
 * What every run of the PDU pipeline keeps, under every interleaving of its tasks and interrupts:
 * each payload has one owner and is freed once, by it; each queue holds what belongs there; and
 * what is sent and read is what the routing table makes of the frames received, in their order.
 */
module Ownership {
  import opened Base
  import opened Stages

  // ---------------------------------------------------------------- who owns a payload

  function OccursIn(q: seq<Pdu>, a: int): nat {
    if |q| == 0 then 0 else OccursIn(q[..|q| - 1], a) + if q[|q| - 1].data == a then 1 else 0
  }

  function Owns(h: Hand, a: int): nat {
    if h.Busy? && h.pdu.data == a then 1 else 0
  }

  function InHands(hands: seq<Hand>, a: int): nat {
    if |hands| == 0 then 0 else InHands(hands[..|hands| - 1], a) + Owns(hands[|hands| - 1], a)
  }

  /** In how many places, over all queues and agents, payload `a` is. */
  function Owners(st: State, a: int): nat
    requires Shape(st)
  {
    OccursIn(st.lanes[ROUTER].queue, a) + OccursIn(st.lanes[GATEWAY].queue, a)
    + OccursIn(st.lanes[UPDATER].queue, a) + InHands(st.hands, a)
  }

  lemma OccursPush(q: seq<Pdu>, p: Pdu, a: int)
    ensures OccursIn(q + [p], a) == OccursIn(q, a) + if p.data == a then 1 else 0
  {
    assert (q + [p])[..|q|] == q;
  }

  lemma {:induction false} OccursPop(q: seq<Pdu>, a: int)
    requires |q| > 0
    ensures OccursIn(q, a) == OccursIn(q[1..], a) + if q[0].data == a then 1 else 0
  {
    if |q| > 1 {
      OccursPop(q[..|q| - 1], a);
      assert q[..|q| - 1][1..] == q[1..][..|q| - 2];
    }
  }

  lemma {:induction false} OccursAt(q: seq<Pdu>, i: nat)
    requires i < |q|
    ensures OccursIn(q, q[i].data) > 0
  {
    if i < |q| - 1 {
      OccursAt(q[..|q| - 1], i);
    }
  }

  lemma {:induction false} HandsUpdate(hands: seq<Hand>, k: nat, h: Hand, a: int)
    requires k < |hands|
    ensures InHands(hands[k := h], a) == InHands(hands, a) - Owns(hands[k], a) + Owns(h, a)
    ensures Owns(hands[k], a) <= InHands(hands, a)
  {
    var n := |hands| - 1;
    if k < n {
      HandsUpdate(hands[..n], k, h, a);
      assert hands[k := h][..n] == hands[..n][k := h];
    } else {
      assert hands[k := h][..n] == hands[..n];
    }
  }

  lemma TwoHands(hands: seq<Hand>, k: nat, i: nat, a: int)
    requires k < |hands| && i < |hands| && k != i
    ensures Owns(hands[k], a) + Owns(hands[i], a) <= InHands(hands, a)
  {
    HandsUpdate(hands, k, Idle, a);
    HandsUpdate(hands[k := Idle], i, Idle, a);
  }

  /** A payload has one owner while it is allocated, and none otherwise. */
  ghost predicate OwnedAt(st: State, a: int) {
    Shape(st) && Owners(st, a) == if a in st.heap then 1 else 0
  }

  ghost predicate Owned(st: State) {
    forall a {:trigger OwnedAt(st, a)} :: OwnedAt(st, a)
  }

  /** Not in any queue, nor in a hand other than that of agent `k`. */
  ghost predicate Apart(st: State, k: int, a: int) {
    Shape(st)
    && (forall i | 0 <= i < |st.hands| && i != k && st.hands[i].Busy? :: st.hands[i].pdu.data != a)
    && (forall l, j | 0 <= l < TASKS && 0 <= j < |st.lanes[l].queue| :: st.lanes[l].queue[j].data != a)
  }

  /** What an agent works on belongs to nobody else. */
  lemma SoleOwner(st: State, k: int)
    requires HandAt(st, k) && OwnedAt(st, st.hands[k].pdu.data)
    ensures st.hands[k].pdu.data in st.heap && Apart(st, k, st.hands[k].pdu.data)
  {
    var a := st.hands[k].pdu.data;
    HandsUpdate(st.hands, k, Idle, a);
    forall i | 0 <= i < |st.hands| && i != k && st.hands[i].Busy?
      ensures st.hands[i].pdu.data != a
    {
      TwoHands(st.hands, k, i, a);
    }
    NotQueued(st, a);
  }

  lemma NotQueued(st: State, a: int)
    requires Shape(st) && Owners(st, a) == InHands(st.hands, a)
    ensures forall l, j | 0 <= l < TASKS && 0 <= j < |st.lanes[l].queue| :: st.lanes[l].queue[j].data != a
  {
    forall l, j | 0 <= l < TASKS && 0 <= j < |st.lanes[l].queue|
      ensures st.lanes[l].queue[j].data != a
    {
      OccursAt(st.lanes[l].queue, j);
      assert l == ROUTER || l == GATEWAY || l == UPDATER;
    }
  }

  /** A free address belongs to nobody. */
  lemma NoOwner(st: State, a: int)
    requires Shape(st) && OwnedAt(st, a) && a !in st.heap
    ensures Apart(st, -1, a)
  {
    forall i | 0 <= i < |st.hands| && st.hands[i].Busy?
      ensures st.hands[i].pdu.data != a
    {
      HandsUpdate(st.hands, i, Idle, a);
    }
    NotQueued(st, a);
  }

  // ---------------------------------------------------------------- what is where

  /** Agents and queues by what they may hold. */
  predicate Fits(l: int, id: bv32) {
    (l == GATEWAY ==> KindOf(id) == Command) && (l == UPDATER ==> KindOf(id) == Update)
  }

  /** The messages accepted by a queue, in order, and all those offered to it. */
  function Accepted(os: seq<Offer>): seq<Message> {
    if |os| == 0 then []
    else Accepted(os[..|os| - 1]) + if os[|os| - 1].accepted then [os[|os| - 1].message] else []
  }

  function All(os: seq<Offer>): seq<Message> {
    if |os| == 0 then [] else All(os[..|os| - 1]) + [os[|os| - 1].message]
  }

  lemma OfferPush(os: seq<Offer>, o: Offer)
    ensures Accepted(os + [o]) == Accepted(os) + if o.accepted then [o.message] else []
    ensures All(os + [o]) == All(os) + [o.message]
  {
    assert (os + [o])[..|os|] == os;
  }

  /** Those of the messages that have a certain type. */
  function Only(kind: Kind, ms: seq<Message>): seq<Message> {
    if |ms| == 0 then []
    else Only(kind, ms[..|ms| - 1]) + if KindOf(ms[|ms| - 1].id) == kind then [ms[|ms| - 1]] else []
  }

  /** One message to several destinations. */
  function Fanout(m: Message, ds: seq<byte>): seq<Transmission> {
    if |ds| == 0 then [] else Fanout(m, ds[..|ds| - 1]) + [Transmission(ds[|ds| - 1], m)]
  }

  /** What the table makes of the data messages among `ms`. */
  function Image(tbl: seq<seq<byte>>, ms: seq<Message>): seq<Transmission> {
    if |ms| == 0 then []
    else
      var m := ms[|ms| - 1];
      Image(tbl, ms[..|ms| - 1]) + if KindOf(m.id) == Data then Fanout(m, Dests(tbl, m.id)) else []
  }

  /** What an agent holds reads as it did when the agent got hold of it, and fits the agent. */
  ghost predicate HandOk(st: State, k: int) {
    HandAt(st, k) ==>
      && Text(st.heap, st.hands[k].pdu) == st.hands[k].message
      && Fits(k, st.hands[k].pdu.id)
      && (k < TASKS ==>
            var taken := st.lanes[k].taken;
            |taken| > 0 && taken[|taken| - 1] == st.hands[k].message)
  }

  /** A queue is within its capacity, fits, and loses, repeats or reorders nothing it accepted. */
  ghost predicate LaneOk(st: State, l: int) {
    Shape(st) && 0 <= l < TASKS ==>
      var lane := st.lanes[l];
      && |lane.queue| <= Capacity(l)
      && (forall j | 0 <= j < |lane.queue| :: Fits(l, lane.queue[j].id))
      && Accepted(lane.offers) == lane.taken + Texts(st.heap, lane.queue)
  }

  /** What task `k` has taken, without the message it has yet to deal with. */
  function Settled(st: State, k: int): seq<Message>
    requires Shape(st) && 0 <= k < TASKS
  {
    var taken := st.lanes[k].taken;
    if st.hands[k].Busy? && !st.hands[k].done && |taken| > 0 then taken[..|taken| - 1] else taken
  }

  /** What the router has begun to send and not finished. */
  function Partial(tbl: seq<seq<byte>>, st: State): seq<Transmission>
    requires Shape(st)
  {
    var hand := st.hands[ROUTER];
    if hand.Busy? && !hand.done && hand.sent <= |Dests(tbl, hand.message.id)|
    then Fanout(hand.message, Dests(tbl, hand.message.id)[..hand.sent]) else []
  }

  /** The router is where it should be in its work on the PDU it holds. */
  ghost predicate OnCourse(tbl: seq<seq<byte>>, hand: Hand) {
    hand.Busy? ==>
      && hand.sent <= |Dests(tbl, hand.message.id)|
      && (KindOf(hand.message.id) != Data ==> hand.sent == 0)
  }

  /** What went out, and what was offered to the two other tasks, is the image of what the router took. */
  ghost predicate Trail(tbl: seq<seq<byte>>, st: State) {
    && Shape(st) && OnCourse(tbl, st.hands[ROUTER])
    && st.bus == Image(tbl, Settled(st, ROUTER)) + Partial(tbl, st)
    && All(st.lanes[GATEWAY].offers) == Only(Command, Settled(st, ROUTER))
    && All(st.lanes[UPDATER].offers) == Only(Update, Settled(st, ROUTER))
  }

  /** The two other tasks read what they take. */
  ghost predicate AllRead(st: State, k: int) {
    Shape(st) && (k == GATEWAY || k == UPDATER ==> st.lanes[k].read == Settled(st, k))
  }

  function Working(hands: seq<Hand>): nat {
    if |hands| == 0 then 0 else Working(hands[..|hands| - 1]) + if hands[|hands| - 1].Busy? then 1 else 0
  }

  lemma {:induction false} WorkingUpdate(hands: seq<Hand>, k: nat, h: Hand)
    requires k < |hands|
    ensures Working(hands[k := h]) + (if hands[k].Busy? then 1 else 0) == Working(hands) + if h.Busy? then 1 else 0
  {
    var n := |hands| - 1;
    if k < n {
      WorkingUpdate(hands[..n], k, h);
      assert hands[k := h][..n] == hands[..n][k := h];
    } else {
      assert hands[k := h][..n] == hands[..n];
    }
  }

  /** Payloads in queues and hands. */
  function Held(st: State): nat
    requires Shape(st)
  {
    |st.lanes[ROUTER].queue| + |st.lanes[GATEWAY].queue| + |st.lanes[UPDATER].queue| + Working(st.hands)
  }

  /** Nothing has gone wrong, and the allocator's books balance. */
  ghost predicate Balanced(st: State) {
    Shape(st) && st.faults == 0 && st.allocs == st.frees + |st.heap| && |st.heap| == Held(st)
  }

  ghost predicate Good(tbl: seq<seq<byte>>, st: State) {
    && Owned(st) && Balanced(st) && Trail(tbl, st)
    && (forall k {:trigger HandOk(st, k)} :: HandOk(st, k))
    && (forall l {:trigger LaneOk(st, l)} :: LaneOk(st, l))
    && (forall k {:trigger AllRead(st, k)} :: AllRead(st, k))
  }

  // ---------------------------------------------------------------- texts

  lemma {:induction false} TextsKept(h: map<int, Payload>, h': map<int, Payload>, q: seq<Pdu>)
    requires forall j | 0 <= j < |q| :: Text(h', q[j]) == Text(h, q[j])
    ensures Texts(h', q) == Texts(h, q)
  {
    if |q| > 0 {
      TextsKept(h, h', q[..|q| - 1]);
    }
  }

  lemma TextsPush(h: map<int, Payload>, q: seq<Pdu>, p: Pdu)
    ensures Texts(h, q + [p]) == Texts(h, q) + [Text(h, p)]
  {
    assert (q + [p])[..|q|] == q;
  }

  lemma {:induction false} TextsPop(h: map<int, Payload>, q: seq<Pdu>)
    requires |q| > 0
    ensures Texts(h, q) == [Text(h, q[0])] + Texts(h, q[1..])
  {
    if |q| > 1 {
      TextsPop(h, q[..|q| - 1]);
      assert q[..|q| - 1][1..] == q[1..][..|q| - 2];
    }
  }

  /** Allocating or freeing `a` changes nothing that is said by PDUs elsewhere. */
  lemma ElsewhereKept(st: State, st': State, k: int, a: int)
    requires Shape(st) && Shape(st') && Apart(st, k, a) && st'.lanes == st.lanes && 0 <= k < |st.hands|
    requires |st'.hands| == |st.hands| && st'.hands == st.hands[k := st'.hands[k]]
    requires st'.heap - {a} == st.heap - {a}
    requires forall i {:trigger HandOk(st, i)} :: HandOk(st, i)
    requires forall l {:trigger LaneOk(st, l)} :: LaneOk(st, l)
    ensures forall i {:trigger HandOk(st', i)} | i != k :: HandOk(st', i)
    ensures forall l {:trigger LaneOk(st', l)} :: LaneOk(st', l)
  {
    forall p: Pdu | p.data != a
      ensures Text(st'.heap, p) == Text(st.heap, p)
    {
      assert p.data in st.heap <==> p.data in st.heap - {a};
      assert p.data in st'.heap <==> p.data in st'.heap - {a};
      assert p.data in st.heap ==> (st.heap - {a})[p.data] == st.heap[p.data];
      assert p.data in st'.heap ==> (st'.heap - {a})[p.data] == st'.heap[p.data];
    }
    forall i | i != k
      ensures HandOk(st', i)
    {
      assert HandOk(st, i);
    }
    forall l
      ensures LaneOk(st', l)
    {
      assert LaneOk(st, l);
      if 0 <= l < TASKS {
        TextsKept(st.heap, st'.heap, st.lanes[l].queue);
      }
    }
  }

  // ---------------------------------------------------------------- every step keeps it

  lemma TrailSame(tbl: seq<seq<byte>>, st: State, st': State)
    requires Trail(tbl, st) && Shape(st')
    requires st'.hands[ROUTER] == st.hands[ROUTER] && st'.lanes[ROUTER].taken == st.lanes[ROUTER].taken
    requires st'.lanes[GATEWAY].offers == st.lanes[GATEWAY].offers && st'.bus == st.bus
    requires st'.lanes[UPDATER].offers == st.lanes[UPDATER].offers
    ensures Trail(tbl, st')
  {
    assert Settled(st', ROUTER) == Settled(st, ROUTER) && Partial(tbl, st') == Partial(tbl, st);
  }

  lemma InterruptOwned(st: State, k: int, m: Message, at: Option<int>)
    requires Shape(st) && Owned(st) && Balanced(st)
    ensures Owned(Interrupted(st, k, m, at)) && Balanced(Interrupted(st, k, m, at))
  {
    var st' := Interrupted(st, k, m, at);
    if st' != st {
      WorkingUpdate(st.hands, k, st'.hands[k]);
      forall b
        ensures OwnedAt(st', b)
      {
        assert OwnedAt(st, b);
        HandsUpdate(st.hands, k, st'.hands[k], b);
      }
    }
  }

  lemma InterruptKeeps(tbl: seq<seq<byte>>, st: State, k: int, m: Message, at: Option<int>)
    requires Good(tbl, st)
    ensures Good(tbl, Interrupted(st, k, m, at))
  {
    var st' := Interrupted(st, k, m, at);
    InterruptOwned(st, k, m, at);
    if st' != st {
      var a := at.value;
      assert OwnedAt(st, a);
      NoOwner(st, a);
      assert st'.heap - {a} == st.heap - {a};
      ElsewhereKept(st, st', k, a);
      TrailSame(tbl, st, st');
      forall i
        ensures HandOk(st', i) && AllRead(st', i)
      {
        assert AllRead(st, i);
      }
    }
  }

  lemma FreeKeeps(tbl: seq<seq<byte>>, st: State, k: int)
    requires Good(tbl, st) && HandAt(st, k) && st.hands[k].done
    ensures Good(tbl, Freed(st, k))
  {
    var st' := Freed(st, k);
    var a := st.hands[k].pdu.data;
    assert OwnedAt(st, a);
    SoleOwner(st, k);
    ElsewhereKept(st, st', k, a);
    WorkingUpdate(st.hands, k, Idle);
    forall b
      ensures OwnedAt(st', b)
    {
      assert OwnedAt(st, b);
      HandsUpdate(st.hands, k, Idle, b);
    }
    forall i
      ensures HandOk(st', i) && AllRead(st', i)
    {
      assert AllRead(st, i);
    }
  }

  lemma TakeOwned(st: State, k: int)
    requires Owned(st) && Shape(st) && 0 <= k < TASKS && st.hands[k].Idle? && |st.lanes[k].queue| > 0
    ensures Owned(Taken(st, k))
  {
    var st' := Taken(st, k);
    forall b
      ensures OwnedAt(st', b)
    {
      assert OwnedAt(st, b);
      HandsUpdate(st.hands, k, st'.hands[k], b);
      OccursPop(st.lanes[k].queue, b);
    }
  }

  lemma TakeLane(st: State, k: int)
    requires Shape(st) && 0 <= k < TASKS && |st.lanes[k].queue| > 0 && LaneOk(st, k)
    ensures LaneOk(Taken(st, k), k)
  {
    var q := st.lanes[k].queue;
    TextsPop(st.heap, q);
    Assoc(st.lanes[k].taken, [Text(st.heap, q[0])], Texts(st.heap, q[1..]));
  }

  lemma TakeTrail(tbl: seq<seq<byte>>, st: State, k: int)
    requires Trail(tbl, st) && 0 <= k < TASKS && st.hands[k].Idle? && |st.lanes[k].queue| > 0
    requires AllRead(st, k)
    ensures Trail(tbl, Taken(st, k)) && AllRead(Taken(st, k), k)
  {
    var st' := Taken(st, k);
    assert st'.lanes[k].taken[..|st.lanes[k].taken|] == st.lanes[k].taken;
    assert Dests(tbl, st.lanes[k].queue[0].id)[..0] == [];
  }

  lemma TakeElsewhere(st: State, k: int, i: int)
    requires Shape(st) && 0 <= k < TASKS && st.hands[k].Idle? && |st.lanes[k].queue| > 0
    requires LaneOk(st, k) && HandOk(st, i) && LaneOk(st, i) && AllRead(st, i)
    ensures HandOk(Taken(st, k), i)
    ensures i != k ==> LaneOk(Taken(st, k), i) && AllRead(Taken(st, k), i)
  {
  }

  lemma TakeBalanced(st: State, k: int)
    requires Shape(st) && 0 <= k < TASKS && st.hands[k].Idle? && |st.lanes[k].queue| > 0 && Balanced(st)
    ensures Balanced(Taken(st, k))
  {
    WorkingUpdate(st.hands, k, Taken(st, k).hands[k]);
  }

  lemma TakeKeeps(tbl: seq<seq<byte>>, st: State, k: int)
    requires Good(tbl, st) && 0 <= k < TASKS && st.hands[k].Idle? && |st.lanes[k].queue| > 0
    ensures Good(tbl, Taken(st, k))
  {
    assert LaneOk(st, k) && AllRead(st, k);
    TakeBalanced(st, k);
    TakeOwned(st, k);
    TakeLane(st, k);
    TakeTrail(tbl, st, k);
    forall i
      ensures LaneOk(Taken(st, k), i) && HandOk(Taken(st, k), i) && AllRead(Taken(st, k), i)
    {
      assert LaneOk(st, i) && HandOk(st, i) && AllRead(st, i);
      TakeElsewhere(st, k, i);
    }
  }

  lemma OfferOwned(st: State, k: int, l: int)
    requires HandAt(st, k) && 0 <= l < TASKS && Owned(st)
    ensures Owned(Offered(st, k, l))
  {
    var st' := Offered(st, k, l);
    forall b
      ensures OwnedAt(st', b)
    {
      assert OwnedAt(st, b);
      HandsUpdate(st.hands, k, st'.hands[k], b);
      OccursPush(st.lanes[l].queue, st.hands[k].pdu, b);
    }
  }

  lemma OfferLane(st: State, k: int, l: int)
    requires HandAt(st, k) && 0 <= l < TASKS && LaneOk(st, l) && HandOk(st, k) && Fits(l, st.hands[k].pdu.id)
    ensures LaneOk(Offered(st, k, l), l)
  {
    var lane, hand := st.lanes[l], st.hands[k];
    OfferPush(lane.offers, Offer(hand.message, |lane.queue| < Capacity(l)));
    TextsPush(st.heap, lane.queue, hand.pdu);
    Assoc(lane.taken, Texts(st.heap, lane.queue), [hand.message]);
  }

  lemma OfferBalanced(st: State, k: int, l: int)
    requires HandAt(st, k) && 0 <= l < TASKS && Balanced(st)
    ensures Balanced(Offered(st, k, l))
  {
    WorkingUpdate(st.hands, k, Offered(st, k, l).hands[k]);
  }

  lemma OfferElsewhere(st: State, k: int, l: int, i: int)
    requires HandAt(st, k) && 0 <= l < TASKS && HandOk(st, i) && LaneOk(st, i)
    ensures HandOk(Offered(st, k, l), i)
    ensures i != l ==> LaneOk(Offered(st, k, l), i)
  {
  }

  /** The router is through with a PDU whose destinations, if any, are all served. */
  lemma Settles(tbl: seq<seq<byte>>, st: State)
    requires Trail(tbl, st) && HandAt(st, ROUTER) && HandOk(st, ROUTER) && !st.hands[ROUTER].done
    requires KindOf(st.hands[ROUTER].message.id) == Data ==>
      st.hands[ROUTER].sent == |Dests(tbl, st.hands[ROUTER].message.id)|
    ensures var m := st.hands[ROUTER].message;
      && st.lanes[ROUTER].taken == Settled(st, ROUTER) + [m]
      && st.bus == Image(tbl, st.lanes[ROUTER].taken)
      && Only(Command, st.lanes[ROUTER].taken)
         == Only(Command, Settled(st, ROUTER)) + (if KindOf(m.id) == Command then [m] else [])
      && Only(Update, st.lanes[ROUTER].taken)
         == Only(Update, Settled(st, ROUTER)) + if KindOf(m.id) == Update then [m] else []
  {
    var m := st.hands[ROUTER].message;
    var ds := Dests(tbl, m.id);
    assert ds[..|ds|] == ds && ds[..0] == [];
  }

  lemma RouterOfferTrail(tbl: seq<seq<byte>>, st: State, l: int)
    requires Trail(tbl, st) && HandAt(st, ROUTER) && HandOk(st, ROUTER) && !st.hands[ROUTER].done
    requires l == GATEWAY || l == UPDATER
    requires KindOf(st.hands[ROUTER].message.id) == if l == GATEWAY then Command else Update
    ensures Trail(tbl, Offered(st, ROUTER, l))
  {
    var lane, hand := st.lanes[l], st.hands[ROUTER];
    Settles(tbl, st);
    OfferPush(lane.offers, Offer(hand.message, |lane.queue| < Capacity(l)));
  }

  lemma RouterOfferKeeps(tbl: seq<seq<byte>>, st: State, l: int)
    requires Good(tbl, st) && HandAt(st, ROUTER) && !st.hands[ROUTER].done
    requires l == GATEWAY || l == UPDATER
    requires KindOf(st.hands[ROUTER].pdu.id) == if l == GATEWAY then Command else Update
    ensures Good(tbl, Offered(st, ROUTER, l))
  {
    assert HandOk(st, ROUTER) && LaneOk(st, l);
    RouterOfferTrail(tbl, st, l);
    OfferOwned(st, ROUTER, l);
    OfferBalanced(st, ROUTER, l);
    OfferLane(st, ROUTER, l);
    OfferAllRead(st, ROUTER, l);
    forall i
      ensures LaneOk(Offered(st, ROUTER, l), i) && HandOk(Offered(st, ROUTER, l), i)
    {
      assert HandOk(st, i) && LaneOk(st, i);
      OfferElsewhere(st, ROUTER, l, i);
    }
  }

  lemma OfferAllRead(st: State, k: int, l: int)
    requires HandAt(st, k) && 0 <= l < TASKS && k != GATEWAY && k != UPDATER
    requires forall i {:trigger AllRead(st, i)} :: AllRead(st, i)
    ensures forall i {:trigger AllRead(Offered(st, k, l), i)} :: AllRead(Offered(st, k, l), i)
  {
    forall i
      ensures AllRead(Offered(st, k, l), i)
    {
      assert AllRead(st, i);
    }
  }

  lemma IsrOfferTrail(tbl: seq<seq<byte>>, st: State, k: int)
    requires Trail(tbl, st) && HandAt(st, k) && k >= TASKS
    ensures Trail(tbl, Offered(st, k, ROUTER))
  {
    TrailSame(tbl, st, Offered(st, k, ROUTER));
  }

  lemma IsrOfferKeeps(tbl: seq<seq<byte>>, st: State, k: int)
    requires Good(tbl, st) && HandAt(st, k) && k >= TASKS && !st.hands[k].done
    ensures Good(tbl, Offered(st, k, ROUTER))
  {
    assert HandOk(st, k) && LaneOk(st, ROUTER);
    IsrOfferTrail(tbl, st, k);
    OfferOwned(st, k, ROUTER);
    OfferBalanced(st, k, ROUTER);
    OfferLane(st, k, ROUTER);
    OfferAllRead(st, k, ROUTER);
    forall i
      ensures LaneOk(Offered(st, k, ROUTER), i) && HandOk(Offered(st, k, ROUTER), i)
    {
      assert HandOk(st, i) && LaneOk(st, i);
      OfferElsewhere(st, k, ROUTER, i);
    }
  }

  /** A step of task `k` that keeps hold of its PDU and touches neither heap nor queues. */
  ghost predicate Holds(st: State, st': State, k: int) {
    && HandAt(st, k) && HandAt(st', k) && k < TASKS
    && st'.hands == st.hands[k := st'.hands[k]]
    && st'.hands[k].pdu == st.hands[k].pdu && st'.hands[k].message == st.hands[k].message
    && st'.heap == st.heap && st'.allocs == st.allocs && st'.frees == st.frees && st'.faults == st.faults
    && forall l | 0 <= l < TASKS ::
         && st'.lanes[l].queue == st.lanes[l].queue && st'.lanes[l].taken == st.lanes[l].taken
         && st'.lanes[l].offers == st.lanes[l].offers
  }

  lemma HoldOwned(st: State, st': State, k: int)
    requires Holds(st, st', k) && Owned(st) && Balanced(st)
    ensures Owned(st') && Balanced(st')
  {
    WorkingUpdate(st.hands, k, st'.hands[k]);
    forall b
      ensures OwnedAt(st', b)
    {
      assert OwnedAt(st, b);
      HandsUpdate(st.hands, k, st'.hands[k], b);
    }
  }

  lemma HoldKeeps(tbl: seq<seq<byte>>, st: State, st': State, k: int)
    requires Good(tbl, st) && Holds(st, st', k)
    ensures Owned(st') && Balanced(st')
    ensures forall i {:trigger HandOk(st', i)} :: HandOk(st', i)
    ensures forall l {:trigger LaneOk(st', l)} :: LaneOk(st', l)
  {
    HoldOwned(st, st', k);
    forall i
      ensures HandOk(st', i) && LaneOk(st', i)
    {
      assert HandOk(st, i) && LaneOk(st, i);
    }
  }

  lemma FinishKeeps(tbl: seq<seq<byte>>, st: State)
    requires Good(tbl, st) && HandAt(st, ROUTER) && !st.hands[ROUTER].done
    requires KindOf(st.hands[ROUTER].pdu.id) == Data || KindOf(st.hands[ROUTER].pdu.id) == Other
    requires KindOf(st.hands[ROUTER].pdu.id) == Data ==>
      st.hands[ROUTER].sent >= |Dests(tbl, st.hands[ROUTER].pdu.id)|
    ensures Good(tbl, Finished(st, ROUTER))
  {
    var st' := Finished(st, ROUTER);
    assert HandOk(st, ROUTER);
    HoldKeeps(tbl, st, st', ROUTER);
    Settles(tbl, st);
    forall i
      ensures AllRead(st', i)
    {
      assert AllRead(st, i);
    }
  }

  lemma SendKeeps(tbl: seq<seq<byte>>, st: State)
    requires Good(tbl, st) && HandAt(st, ROUTER) && !st.hands[ROUTER].done
    requires KindOf(st.hands[ROUTER].pdu.id) == Data
    requires st.hands[ROUTER].sent < |Dests(tbl, st.hands[ROUTER].pdu.id)|
    ensures Good(tbl, Sent(st, ROUTER, Dests(tbl, st.hands[ROUTER].pdu.id)[st.hands[ROUTER].sent]))
  {
    var hand := st.hands[ROUTER];
    var ds := Dests(tbl, hand.pdu.id);
    var st' := Sent(st, ROUTER, ds[hand.sent]);
    assert HandOk(st, ROUTER) && OwnedAt(st, hand.pdu.data);
    SoleOwner(st, ROUTER);
    HoldKeeps(tbl, st, st', ROUTER);
    assert ds[..hand.sent + 1][..hand.sent] == ds[..hand.sent];
    Assoc(Image(tbl, Settled(st, ROUTER)), Fanout(hand.message, ds[..hand.sent]),
          [Transmission(ds[hand.sent], hand.message)]);
    forall i
      ensures AllRead(st', i)
    {
      assert AllRead(st, i);
    }
  }

  lemma ReadTrail(tbl: seq<seq<byte>>, st: State, k: int)
    requires Trail(tbl, st) && HandAt(st, k) && (k == GATEWAY || k == UPDATER) && !st.hands[k].done
    requires HandOk(st, k) && AllRead(st, k)
    ensures Trail(tbl, Read(st, k)) && AllRead(Read(st, k), k)
  {
    var taken := st.lanes[k].taken;
    assert taken == taken[..|taken| - 1] + [taken[|taken| - 1]];
    TrailSame(tbl, st, Read(st, k));
  }

  lemma ReadHolds(st: State, k: int)
    requires HandAt(st, k) && k < TASKS && st.hands[k].pdu.data in st.heap
    ensures Holds(st, Read(st, k), k)
  {
  }

  lemma ReadElsewhere(st: State, k: int, i: int)
    requires HandAt(st, k) && (k == GATEWAY || k == UPDATER) && i != k && AllRead(st, i)
    ensures AllRead(Read(st, k), i)
  {
  }

  lemma ReadKeeps(tbl: seq<seq<byte>>, st: State, k: int)
    requires Good(tbl, st) && HandAt(st, k) && (k == GATEWAY || k == UPDATER) && !st.hands[k].done
    ensures Good(tbl, Read(st, k))
  {
    var st' := Read(st, k);
    assert HandOk(st, k) && AllRead(st, k);
    HeldIsLive(tbl, st, k);
    ReadHolds(st, k);
    HoldKeeps(tbl, st, st', k);
    ReadTrail(tbl, st, k);
    forall i
      ensures AllRead(st', i)
    {
      assert AllRead(st, i);
      if i != k {
        ReadElsewhere(st, k, i);
      }
    }
  }

  /** What an agent works on is allocated. */
  lemma HeldIsLive(tbl: seq<seq<byte>>, st: State, k: int)
    requires Good(tbl, st) && HandAt(st, k)
    ensures st.hands[k].pdu.data in st.heap
  {
    assert OwnedAt(st, st.hands[k].pdu.data);
    SoleOwner(st, k);
  }

  /** The gateway task's guard always holds: the branch that would forget a PDU is never taken. */
  lemma GuardHolds(tbl: seq<seq<byte>>, st: State)
    requires Good(tbl, st) && HandAt(st, GATEWAY)
    ensures IsCommand(st.hands[GATEWAY].pdu.id)
  {
    assert HandOk(st, GATEWAY);
  }

  /** Whether a transfer runs is nobody else's concern. */
  lemma UpdatingKeeps(tbl: seq<seq<byte>>, st: State, updating: bool)
    requires Good(tbl, st)
    ensures Good(tbl, st.(updating := updating))
  {
    var st' := st.(updating := updating);
    TrailSame(tbl, st, st');
    forall i
      ensures OwnedAt(st', i) && HandOk(st', i) && LaneOk(st', i) && AllRead(st', i)
    {
      assert OwnedAt(st, i) && HandOk(st, i) && LaneOk(st, i) && AllRead(st, i);
    }
  }

  lemma StepKeeps(tbl: seq<seq<byte>>, st: State, e: Event)
    requires Good(tbl, st)
    ensures Good(tbl, Step(tbl, st, e))
  {
    match e
    case Interrupt(k, m, at) => InterruptKeeps(tbl, st, k, m, at);
    case Turn(k) =>
      if !Ready(st, k) {
      } else if st.hands[k].Idle? {
        TakeKeeps(tbl, st, k);
      } else if st.hands[k].done {
        FreeKeeps(tbl, st, k);
      } else if k == ROUTER {
        RouterKeeps(tbl, st);
      } else if k == GATEWAY || k == UPDATER {
        if k == GATEWAY {
          GuardHolds(tbl, st);
        }
        ReadKeeps(tbl, st, k);
      } else {
        IsrOfferKeeps(tbl, st, k);
      }
    case Begin => UpdatingKeeps(tbl, st, true);
    case End => UpdatingKeeps(tbl, st, false);
  }

  lemma RouterKeeps(tbl: seq<seq<byte>>, st: State)
    requires Good(tbl, st) && HandAt(st, ROUTER) && !st.hands[ROUTER].done
    ensures Good(tbl, RouterStep(tbl, st))
  {
    var hand := st.hands[ROUTER];
    match KindOf(hand.pdu.id)
    case Data =>
      if hand.sent < |Dests(tbl, hand.pdu.id)| {
        SendKeeps(tbl, st);
      } else {
        FinishKeeps(tbl, st);
      }
    case Command => RouterOfferKeeps(tbl, st, GATEWAY);
    case Update => RouterOfferKeeps(tbl, st, UPDATER);
    case Other => FinishKeeps(tbl, st);
  }

  lemma {:induction false} NobodyWorks(n: nat, a: int)
    ensures InHands(seq(n, _ => Idle), a) == 0 && Working(seq(n, _ => Idle)) == 0
  {
    if n > 0 {
      assert seq(n, _ => Idle)[..n - 1] == seq(n - 1, _ => Idle);
      NobodyWorks(n - 1, a);
    }
  }

  lemma InitialGood(tbl: seq<seq<byte>>, levels: nat)
    ensures Good(tbl, Initial(levels))
  {
    var st := Initial(levels);
    NobodyWorks(TASKS + levels, 0);
    forall a
      ensures OwnedAt(st, a) && HandOk(st, a) && LaneOk(st, a) && AllRead(st, a)
    {
      NobodyWorks(TASKS + levels, a);
    }
  }

  lemma {:induction false} RunKeeps(tbl: seq<seq<byte>>, st: State, es: seq<Event>)
    requires Good(tbl, st)
    ensures Good(tbl, Run(tbl, st, es))
  {
    if |es| > 0 {
      RunKeeps(tbl, st, es[..|es| - 1]);
      StepKeeps(tbl, Run(tbl, st, es[..|es| - 1]), es[|es| - 1]);
    }
  }

  // ---------------------------------------------------------------- reading the images

  lemma {:induction false} FanoutAt(m: Message, ds: seq<byte>, i: nat)
    requires i < |ds|
    ensures |Fanout(m, ds)| == |ds| && Fanout(m, ds)[i] == Transmission(ds[i], m)
  {
    if |ds| > 1 {
      FanoutAt(m, ds[..|ds| - 1], if i < |ds| - 1 then i else 0);
    }
  }

  /** What one more data message adds to the image: a transmission to each entry of its table row. */
  lemma ImagePush(tbl: seq<seq<byte>>, ms: seq<Message>, m: Message)
    requires 0x1000_0000 <= m.id as int < 0x2000_0000
    ensures var k := m.id as int - 0x1000_0000;
      Image(tbl, ms + [m]) == Image(tbl, ms) + if k < |tbl| then Fanout(m, tbl[k]) else []
  {
    assert (ms + [m])[..|ms|] == ms;
    DestsAt(tbl, m.id);
  }

  /** A message of another type adds nothing. */
  lemma ImageSkip(tbl: seq<seq<byte>>, ms: seq<Message>, m: Message)
    requires m.id & 0x1000_0000 == 0
    ensures Image(tbl, ms + [m]) == Image(tbl, ms)
  {
    assert (ms + [m])[..|ms|] == ms;
    KindsIff(m.id);
  }

  /** And to the messages of the two other types. */
  lemma OnlyPush(ms: seq<Message>, m: Message)
    ensures Only(Command, ms + [m]) == Only(Command, ms) +
      if m.id & 0x1000_0000 == 0 && m.id & 0x0800_0000 != 0 then [m] else []
    ensures Only(Update, ms + [m]) == Only(Update, ms) +
      if m.id & 0x1000_0000 == 0 && m.id & 0x0800_0000 == 0 && m.id & 0x0400_0000 != 0 then [m] else []
  {
    assert (ms + [m])[..|ms|] == ms;
    KindsIff(m.id);
  }

  // ---------------------------------------------------------------- bursts

  /** Frames that activation `k` of the interrupt handler takes one after another, at addresses `ats`. */
  function BurstOf(k: int, ms: seq<Message>, ats: seq<int>): seq<Event>
    requires |ats| == |ms|
  {
    if |ms| == 0 then []
    else
      var n := |ms| - 1;
      BurstOf(k, ms[..n], ats[..n]) + [Interrupt(k, ms[n], Some(ats[n])), Turn(k)]
  }

  lemma RunTwo(tbl: seq<seq<byte>>, st: State, es: seq<Event>, d: Event, e: Event)
    requires Shape(st)
    ensures Run(tbl, st, es + [d, e]) == Step(tbl, Step(tbl, Run(tbl, st, es), d), e)
  {
    assert (es + [d, e])[..|es| + 1] == es + [d] && (es + [d])[..|es|] == es;
  }

  /** One frame of a burst. */
  lemma BurstStep(tbl: seq<seq<byte>>, st: State, k: int, m: Message, a: int)
    requires Shape(st) && TASKS <= k < |st.hands| && st.hands[k].Idle? && a !in st.heap
    requires |st.lanes[ROUTER].queue| < 5
    ensures var r := Act(tbl, Interrupted(st, k, m, Some(a)), k);
      && r.heap == st.heap[a := m.bytes] && |r.hands| == |st.hands| && r.hands[k].Idle?
      && r.lanes[ROUTER].queue == st.lanes[ROUTER].queue + [Pdu(m.id, |m.bytes| as byte, a)]
      && Accepted(r.lanes[ROUTER].offers) == Accepted(st.lanes[ROUTER].offers) + [m]
  {
    InterruptedIff(st, k, m, a);
    OfferedIff(Interrupted(st, k, m, Some(a)), k, ROUTER);
    OfferPush(st.lanes[ROUTER].offers, Offer(m, true));
  }

  /** Addresses that are free and all different. */
  ghost predicate Free(heap: map<int, Payload>, ats: seq<int>) {
    && (forall i | 0 <= i < |ats| :: ats[i] !in heap)
    && (forall i, j | 0 <= i < j < |ats| :: ats[i] != ats[j])
  }

  /** The heap with the bytes of each message at its address. */
  function Stored(heap: map<int, Payload>, ms: seq<Message>, ats: seq<int>): map<int, Payload>
    requires |ats| == |ms|
  {
    if |ms| == 0 then heap
    else
      var n := |ms| - 1;
      Stored(heap, ms[..n], ats[..n])[ats[n] := ms[n].bytes]
  }

  lemma {:induction false} StoredKeys(heap: map<int, Payload>, ms: seq<Message>, ats: seq<int>, a: int)
    requires |ats| == |ms|
    ensures a in Stored(heap, ms, ats) <==> a in heap || a in ats
    ensures a !in ats && a in heap ==> Stored(heap, ms, ats)[a] == heap[a]
  {
    if |ms| > 0 {
      var n := |ms| - 1;
      StoredKeys(heap, ms[..n], ats[..n], a);
      assert ats == ats[..n] + [ats[n]];
    }
  }

  lemma {:induction false} StoredAt(heap: map<int, Payload>, ms: seq<Message>, ats: seq<int>, i: nat)
    requires |ats| == |ms| && i < |ms| && Free(heap, ats)
    ensures ats[i] in Stored(heap, ms, ats) && Stored(heap, ms, ats)[ats[i]] == ms[i].bytes
  {
    var n := |ms| - 1;
    if i < n {
      StoredAt(heap, ms[..n], ats[..n], i);
    }
  }

  lemma FreeNext(heap: map<int, Payload>, ms: seq<Message>, ats: seq<int>)
    requires |ats| == |ms| > 0 && Free(heap, ats)
    ensures var n := |ms| - 1;
      Free(heap, ats[..n]) && ats[n] !in Stored(heap, ms[..n], ats[..n])
  {
    var n := |ms| - 1;
    StoredKeys(heap, ms[..n], ats[..n], ats[n]);
  }

  /**
   * While the router does not run, a burst of frames is accepted whole, in order and with its
   * bytes, as long as the frames that wait and those of the burst are at most five, and malloc
   * has memory for them.
   */
  lemma {:induction false} BurstAccepted(tbl: seq<seq<byte>>, st: State, k: int, ms: seq<Message>, ats: seq<int>)
    requires Shape(st) && TASKS <= k < |st.hands| && st.hands[k].Idle?
    requires |ats| == |ms| && |st.lanes[ROUTER].queue| + |ms| <= 5 && Free(st.heap, ats)
    ensures var r := Run(tbl, st, BurstOf(k, ms, ats));
      && |r.hands| == |st.hands| && r.hands[k].Idle? && r.heap == Stored(st.heap, ms, ats)
      && |r.lanes[ROUTER].queue| == |st.lanes[ROUTER].queue| + |ms|
      && Accepted(r.lanes[ROUTER].offers) == Accepted(st.lanes[ROUTER].offers) + ms
  {
    if |ms| > 0 {
      var n := |ms| - 1;
      FreeNext(st.heap, ms, ats);
      BurstAccepted(tbl, st, k, ms[..n], ats[..n]);
      BurstNext(tbl, st, k, ms[..n], ats[..n], ms[n], ats[n]);
      assert ms == ms[..n] + [ms[n]];
      Assoc(Accepted(st.lanes[ROUTER].offers), ms[..n], [ms[n]]);
    }
  }

  lemma BurstNext(tbl: seq<seq<byte>>, st: State, k: int, ms: seq<Message>, ats: seq<int>, m: Message, a: int)
    requires Shape(st) && |ats| == |ms|
    requires var before := Run(tbl, st, BurstOf(k, ms, ats));
      && TASKS <= k < |before.hands| && before.hands[k].Idle? && a !in before.heap
      && |before.lanes[ROUTER].queue| < 5
    ensures var before := Run(tbl, st, BurstOf(k, ms, ats));
      var r := Run(tbl, st, BurstOf(k, ms, ats) + [Interrupt(k, m, Some(a)), Turn(k)]);
      && r.heap == before.heap[a := m.bytes] && |r.hands| == |before.hands| && r.hands[k].Idle?
      && |r.lanes[ROUTER].queue| == |before.lanes[ROUTER].queue| + 1
      && Accepted(r.lanes[ROUTER].offers) == Accepted(before.lanes[ROUTER].offers) + [m]
  {
    RunTwo(tbl, st, BurstOf(k, ms, ats), Interrupt(k, m, Some(a)), Turn(k));
    BurstStep(tbl, Run(tbl, st, BurstOf(k, ms, ats)), k, m, a);
  }

  // ---------------------------------------------------------------- main results

  /** The state after a run from start-up. */
  function After(tbl: seq<seq<byte>>, levels: nat, es: seq<Event>): (r: State)
    ensures Shape(r)
  {
    Run(tbl, Initial(levels), es)
  }

  lemma Reachable(tbl: seq<seq<byte>>, levels: nat, es: seq<Event>)
    ensures Good(tbl, After(tbl, levels, es))
  {
    InitialGood(tbl, levels);
    RunKeeps(tbl, Initial(levels), es);
  }

  /**
   * After every interleaving each allocated payload is in exactly one queue or hand and every
   * other address in none; no payload was ever freed or read while not allocated; and what was
   * allocated and not freed is what the queues and hands hold.
   */
  lemma OneOwner(tbl: seq<seq<byte>>, levels: nat, es: seq<Event>, a: int)
    ensures var st := After(tbl, levels, es);
      && Owners(st, a) == (if a in st.heap then 1 else 0)
      && st.faults == 0
      && st.allocs - st.frees == |st.heap| == Held(st)
  {
    Reachable(tbl, levels, es);
    assert OwnedAt(After(tbl, levels, es), a);
  }

  /**
   * The queues keep their capacities; the gateway queue holds only PDUs with the command bit and
   * without the data bit, the firmware queue only PDUs with the firmware bit and without either;
   * so the gateway task finds its guard true for every PDU it gets, and frees it.
   */
  lemma Dispatched(tbl: seq<seq<byte>>, levels: nat, es: seq<Event>, j: nat)
    ensures var st := After(tbl, levels, es);
      && |st.lanes[ROUTER].queue| <= 5 && |st.lanes[GATEWAY].queue| <= 10 && |st.lanes[UPDATER].queue| <= 10
      && (j < |st.lanes[GATEWAY].queue| ==>
            var id := st.lanes[GATEWAY].queue[j].id;
            id & PDU_ID_MASK_TYPE_CMD != 0 && id & PDU_ID_MASK_TYPE_DATA == 0)
      && (j < |st.lanes[UPDATER].queue| ==>
            var id := st.lanes[UPDATER].queue[j].id;
            id & PDU_ID_MASK_TYPE_FW != 0 && id & PDU_ID_MASK_TYPE_CMD == 0 && id & PDU_ID_MASK_TYPE_DATA == 0)
      && (HandAt(st, GATEWAY) ==> IsCommand(st.hands[GATEWAY].pdu.id))
  {
    var st := After(tbl, levels, es);
    Reachable(tbl, levels, es);
    assert LaneOk(st, ROUTER) && LaneOk(st, GATEWAY) && LaneOk(st, UPDATER) && HandOk(st, GATEWAY);
  }

  /**
   * From the frames that entered the first queue to the far ends, in their order and with their
   * bytes: the frames accepted are those the router took and those that wait; what went out is
   * the table's image of the data frames it took, as far as it has got with the last; what was
   * offered to the other two tasks is the command and the firmware frames it took; what was
   * accepted there they took or will take; and what they took they read.
   */
  lemma Delivered(tbl: seq<seq<byte>>, levels: nat, es: seq<Event>, k: int)
    requires k == GATEWAY || k == UPDATER
    ensures var st := After(tbl, levels, es);
      && Accepted(st.lanes[ROUTER].offers) == st.lanes[ROUTER].taken + Texts(st.heap, st.lanes[ROUTER].queue)
      && st.bus == Image(tbl, Settled(st, ROUTER)) + Partial(tbl, st)
      && All(st.lanes[k].offers) == Only(if k == GATEWAY then Command else Update, Settled(st, ROUTER))
      && Accepted(st.lanes[k].offers) == st.lanes[k].taken + Texts(st.heap, st.lanes[k].queue)
      && st.lanes[k].read == Settled(st, k)
  {
    var st := After(tbl, levels, es);
    Reachable(tbl, levels, es);
    assert LaneOk(st, ROUTER) && LaneOk(st, k) && AllRead(st, k);
  }
}
