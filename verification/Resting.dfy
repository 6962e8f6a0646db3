/**
 * Where the PDU pipeline comes to rest: every step of a task or interrupt leaves less to do, any
 * schedule of them ends, and what is still allocated then.
 */
module Resting {
  import opened Base
  import opened Stages
  import opened Ownership

  // ---------------------------------------------------------------- work

  /** What is left to do for a PDU in the first queue, in a hand, and over all hands. */
  function Fresh(tbl: seq<seq<byte>>, pdu: Pdu): nat {
    6 + |Dests(tbl, pdu.id)|
  }

  function Effort(tbl: seq<seq<byte>>, h: Hand, k: int): nat {
    if h.Idle? then 0
    else if h.done then 1
    else if k >= TASKS then Fresh(tbl, h.pdu) + 1
    else if k == ROUTER then
      4 + if h.sent <= |Dests(tbl, h.pdu.id)| then |Dests(tbl, h.pdu.id)| - h.sent else 0
    else 2
  }

  function Efforts(tbl: seq<seq<byte>>, hands: seq<Hand>): nat {
    if |hands| == 0 then 0 else Efforts(tbl, hands[..|hands| - 1]) + Effort(tbl, hands[|hands| - 1], |hands| - 1)
  }

  function Waiting(tbl: seq<seq<byte>>, q: seq<Pdu>): nat {
    if |q| == 0 then 0 else Waiting(tbl, q[..|q| - 1]) + Fresh(tbl, q[|q| - 1])
  }

  function Work(tbl: seq<seq<byte>>, st: State): nat
    requires Shape(st)
  {
    Waiting(tbl, st.lanes[ROUTER].queue) + 3 * |st.lanes[GATEWAY].queue| + 3 * |st.lanes[UPDATER].queue|
    + Efforts(tbl, st.hands)
  }

  lemma {:induction false} EffortsUpdate(tbl: seq<seq<byte>>, hands: seq<Hand>, k: nat, h: Hand)
    requires k < |hands|
    ensures Efforts(tbl, hands[k := h]) == Efforts(tbl, hands) - Effort(tbl, hands[k], k) + Effort(tbl, h, k)
  {
    var n := |hands| - 1;
    if k < n {
      EffortsUpdate(tbl, hands[..n], k, h);
      assert hands[k := h][..n] == hands[..n][k := h];
    } else {
      assert hands[k := h][..n] == hands[..n];
    }
  }

  lemma {:induction false} WaitingPop(tbl: seq<seq<byte>>, q: seq<Pdu>)
    requires |q| > 0
    ensures Waiting(tbl, q) == Fresh(tbl, q[0]) + Waiting(tbl, q[1..])
  {
    if |q| > 1 {
      WaitingPop(tbl, q[..|q| - 1]);
      assert q[..|q| - 1][1..] == q[1..][..|q| - 2];
    }
  }

  lemma WaitingPush(tbl: seq<seq<byte>>, q: seq<Pdu>, p: Pdu)
    ensures Waiting(tbl, q + [p]) == Waiting(tbl, q) + Fresh(tbl, p)
  {
    assert (q + [p])[..|q|] == q;
  }

  lemma TakeWorks(tbl: seq<seq<byte>>, st: State, k: int)
    requires Ready(st, k) && st.hands[k].Idle?
    ensures Work(tbl, Taken(st, k)) < Work(tbl, st)
  {
    EffortsUpdate(tbl, st.hands, k, Taken(st, k).hands[k]);
    WaitingPop(tbl, st.lanes[k].queue);
  }

  lemma OfferWorks(tbl: seq<seq<byte>>, st: State, k: int, l: int)
    requires HandAt(st, k) && !st.hands[k].done && 0 <= l < TASKS
    requires if l == ROUTER then k >= TASKS else k == ROUTER
    ensures Work(tbl, Offered(st, k, l)) < Work(tbl, st)
  {
    EffortsUpdate(tbl, st.hands, k, Offered(st, k, l).hands[k]);
    WaitingPush(tbl, st.lanes[l].queue, st.hands[k].pdu);
  }

  lemma HandWorks(tbl: seq<seq<byte>>, st: State, st': State, k: int)
    requires HandAt(st, k) && Shape(st') && |st'.hands| == |st.hands| && st'.hands == st.hands[k := st'.hands[k]]
    requires forall l | 0 <= l < TASKS :: st'.lanes[l].queue == st.lanes[l].queue
    requires Effort(tbl, st'.hands[k], k) < Effort(tbl, st.hands[k], k)
    ensures Work(tbl, st') < Work(tbl, st)
  {
    EffortsUpdate(tbl, st.hands, k, st'.hands[k]);
  }

  /** Every step of an agent, in whatever order they are scheduled, leaves less to do. */
  lemma TurnWorks(tbl: seq<seq<byte>>, st: State, k: int)
    requires Ready(st, k)
    ensures Work(tbl, Act(tbl, st, k)) < Work(tbl, st)
  {
    var st' := Act(tbl, st, k);
    if st.hands[k].Idle? {
      TakeWorks(tbl, st, k);
    } else if !st.hands[k].done && k >= TASKS {
      OfferWorks(tbl, st, k, ROUTER);
    } else if !st.hands[k].done && k == ROUTER && KindOf(st.hands[k].pdu.id) == Command {
      OfferWorks(tbl, st, k, GATEWAY);
    } else if !st.hands[k].done && k == ROUTER && KindOf(st.hands[k].pdu.id) == Update {
      OfferWorks(tbl, st, k, UPDATER);
    } else {
      HandWorks(tbl, st, st', k);
    }
  }

  // ---------------------------------------------------------------- the gateway task

  /** Only its own turns change what task `k` holds. */
  lemma OtherLeaves(tbl: seq<seq<byte>>, st: State, e: Event, k: int)
    requires Shape(st) && 0 <= k < TASKS && e != Turn(k)
    ensures |Step(tbl, st, e).hands| == |st.hands| && Step(tbl, st, e).hands[k] == st.hands[k]
  {
  }

  lemma {:induction false} OthersLeave(tbl: seq<seq<byte>>, st: State, es: seq<Event>, k: int)
    requires Shape(st) && 0 <= k < TASKS && forall i | 0 <= i < |es| :: es[i] != Turn(k)
    ensures |Run(tbl, st, es).hands| == |st.hands| && Run(tbl, st, es).hands[k] == st.hands[k]
  {
    if |es| > 0 {
      OthersLeave(tbl, st, es[..|es| - 1], k);
      OtherLeaves(tbl, Run(tbl, st, es[..|es| - 1]), es[|es| - 1], k);
    }
  }

  /**
   * The gateway task frees every PDU it receives: whatever the others do before and between its
   * next two turns, the first of them reads the message and the second gives its payload back.
   */
  lemma GatewayFrees(tbl: seq<seq<byte>>, st: State, before: seq<Event>, between: seq<Event>)
    requires Good(tbl, st) && HandAt(st, GATEWAY) && !st.hands[GATEWAY].done
    requires forall i | 0 <= i < |before| :: before[i] != Turn(GATEWAY)
    requires forall i | 0 <= i < |between| :: between[i] != Turn(GATEWAY)
    ensures var hand := st.hands[GATEWAY];
      var a := Run(tbl, st, before);
      var b := Act(tbl, a, GATEWAY);
      var c := Run(tbl, b, between);
      var d := Act(tbl, c, GATEWAY);
      && b.lanes[GATEWAY].read == a.lanes[GATEWAY].read + [hand.message]
      && hand.pdu.data in c.heap && d.heap == c.heap - {hand.pdu.data} && d.frees == c.frees + 1
      && |d.hands| > GATEWAY && d.hands[GATEWAY].Idle?
  {
    var a := Run(tbl, st, before);
    RunKeeps(tbl, st, before);
    OthersLeave(tbl, st, before, GATEWAY);
    GuardHolds(tbl, a);
    assert HandOk(a, GATEWAY);
    var b := Act(tbl, a, GATEWAY);
    StepKeeps(tbl, a, Turn(GATEWAY));
    RunKeeps(tbl, b, between);
    OthersLeave(tbl, b, between, GATEWAY);
    HeldIsLive(tbl, Run(tbl, b, between), GATEWAY);
  }

  // ---------------------------------------------------------------- when nobody can move

  /** Nobody can make a step. */
  ghost predicate Quiet(st: State) {
    Shape(st) && forall k {:trigger Ready(st, k)} :: !Ready(st, k)
  }

  lemma {:induction false} NobodyHolds(hands: seq<Hand>, a: int)
    requires forall k | 0 <= k < |hands| :: hands[k].Idle?
    ensures Working(hands) == 0 && InHands(hands, a) == 0
  {
    if |hands| > 0 {
      NobodyHolds(hands[..|hands| - 1], a);
    }
  }

  lemma {:induction false} OccursWhere(q: seq<Pdu>, a: int) returns (j: nat)
    requires OccursIn(q, a) > 0
    ensures j < |q| && q[j].data == a
  {
    if q[|q| - 1].data == a {
      j := |q| - 1;
    } else {
      j := OccursWhere(q[..|q| - 1], a);
    }
  }

  lemma QuietHands(st: State, a: int)
    requires Quiet(st)
    ensures Working(st.hands) == 0 && InHands(st.hands, a) == 0
    ensures st.lanes[ROUTER].queue == [] && st.lanes[GATEWAY].queue == []
    ensures st.updating ==> st.lanes[UPDATER].queue == []
    ensures forall k | 0 <= k < TASKS :: st.hands[k].Idle?
  {
    assert !Ready(st, ROUTER) && !Ready(st, GATEWAY) && !Ready(st, UPDATER);
    forall k | 0 <= k < |st.hands|
      ensures st.hands[k].Idle?
    {
      assert !Ready(st, k);
    }
    NobodyHolds(st.hands, a);
  }

  /** Then the payloads allocated are exactly those of the firmware frames that no transfer has asked for. */
  lemma QuietHeap(tbl: seq<seq<byte>>, st: State, a: int)
    requires Good(tbl, st) && Quiet(st)
    ensures a in st.heap <==> exists j :: 0 <= j < |st.lanes[UPDATER].queue| && st.lanes[UPDATER].queue[j].data == a
    ensures |st.heap| == |st.lanes[UPDATER].queue| == st.allocs - st.frees
  {
    var q := st.lanes[UPDATER].queue;
    QuietHands(st, a);
    assert OwnedAt(st, a);
    if a in st.heap {
      var j := OccursWhere(q, a);
    } else if j :| 0 <= j < |q| && q[j].data == a {
      OccursAt(q, j);
    }
  }

  /** So nothing is allocated if and only if the firmware queue is empty, as it is while a transfer runs. */
  lemma QuietEmptyIff(tbl: seq<seq<byte>>, st: State)
    requires Good(tbl, st) && Quiet(st)
    ensures st.heap == map[] <==> st.lanes[UPDATER].queue == []
    ensures st.heap == map[] <==> st.allocs == st.frees
    ensures st.updating ==> st.heap == map[]
  {
    QuietHeap(tbl, st, 0);
    QuietHands(st, 0);
  }

  /** And every frame accepted has reached its end, or waits for the next transfer. */
  lemma QuietAll(tbl: seq<seq<byte>>, st: State)
    requires Good(tbl, st) && Quiet(st)
    ensures var all := Accepted(st.lanes[ROUTER].offers);
      && st.bus == Image(tbl, all)
      && All(st.lanes[GATEWAY].offers) == Only(Command, all)
      && All(st.lanes[UPDATER].offers) == Only(Update, all)
      && st.lanes[GATEWAY].read == Accepted(st.lanes[GATEWAY].offers)
      && st.lanes[UPDATER].read + Texts(st.heap, st.lanes[UPDATER].queue) == Accepted(st.lanes[UPDATER].offers)
  {
    QuietHands(st, 0);
    assert AllRead(st, GATEWAY) && AllRead(st, UPDATER);
    forall l | 0 <= l < TASKS
      ensures Settled(st, l) == st.lanes[l].taken
      ensures Accepted(st.lanes[l].offers) == st.lanes[l].taken + Texts(st.heap, st.lanes[l].queue)
    {
      assert LaneOk(st, l);
    }
    assert Texts(st.heap, []) == [];
    assert st.lanes[ROUTER].taken == Accepted(st.lanes[ROUTER].offers);
  }

  /**
   * A firmware frame that arrives while no transfer runs: nobody frees it, and it is the first
   * thing the next transfer receives.
   */
  lemma StaleAnswer(tbl: seq<seq<byte>>, at: int)
    ensures var m := Message(0x0400_0000, [0xC3]);
      var st := Run(tbl, Initial(1), [Interrupt(3, m, Some(at)), Turn(3), Turn(ROUTER), Turn(ROUTER)]);
      && Quiet(st) && st.heap == map[at := [0xC3]] && st.allocs == 1 && st.frees == 0
      && Act(tbl, Step(tbl, st, Begin), UPDATER).hands[UPDATER].Busy?
      && Act(tbl, Step(tbl, st, Begin), UPDATER).hands[UPDATER].message == m
      && Act(tbl, Step(tbl, st, Begin), UPDATER).lanes[UPDATER].taken == [m]
  {
    var m := Message(0x0400_0000, [0xC3]);
    var es := [Interrupt(3, m, Some(at)), Turn(3), Turn(ROUTER), Turn(ROUTER)];
    var s0 := Initial(1);
    var s1 := Step(tbl, s0, es[0]);
    var s2 := Step(tbl, s1, es[1]);
    var s3 := Step(tbl, s2, es[2]);
    var s4 := Step(tbl, s3, es[3]);
    assert es[..4] == es && es[..4][..3] == es[..3] && es[..3][..2] == es[..2];
    assert es[..2][..1] == es[..1] && es[..1][..0] == [];
    assert Run(tbl, s0, es[..1]) == s1;
    assert Run(tbl, s0, es[..2]) == s2;
    assert Run(tbl, s0, es[..3]) == s3;
    assert KindOf(m.id) == Update;
    assert s1.hands[3] == Busy(Pdu(m.id, 1, at), m, 0, false);
    assert s2.lanes[ROUTER].queue == [Pdu(m.id, 1, at)] && s2.hands[3].Idle?;
    assert s3.hands[ROUTER].Busy? && s3.hands[ROUTER].pdu == Pdu(m.id, 1, at);
    assert s4.lanes[UPDATER].queue == [Pdu(m.id, 1, at)] && s4.heap == map[at := [0xC3]];
    forall k
      ensures !Ready(s4, k)
    {
    }
  }

  // ---------------------------------------------------------------- schedules

  /** Turns of agents that have something to do, one after another, and no other events. */
  ghost predicate Scheduled(tbl: seq<seq<byte>>, st: State, es: seq<Event>)
    requires Shape(st)
  {
    |es| > 0 ==>
      var n := |es| - 1;
      && Scheduled(tbl, st, es[..n])
      && es[n].Turn? && Ready(Run(tbl, st, es[..n]), es[n].agent)
  }

  /** Every schedule costs at least one unit of work a turn, so that none is longer than the work there is. */
  lemma {:induction false} SchedulesEnd(tbl: seq<seq<byte>>, st: State, es: seq<Event>)
    requires Shape(st) && Scheduled(tbl, st, es)
    ensures |es| + Work(tbl, Run(tbl, st, es)) <= Work(tbl, st)
  {
    if |es| > 0 {
      var n := |es| - 1;
      SchedulesEnd(tbl, st, es[..n]);
      TurnWorks(tbl, Run(tbl, st, es[..n]), es[n].agent);
    }
  }

  /** A schedule to which no turn can be added. */
  ghost predicate Final(tbl: seq<seq<byte>>, st: State, es: seq<Event>) {
    Shape(st) && Scheduled(tbl, st, es) && forall k :: !Scheduled(tbl, st, es + [Turn(k)])
  }

  lemma ScheduleStops(tbl: seq<seq<byte>>, st: State, es: seq<Event>)
    requires Final(tbl, st, es)
    ensures Quiet(Run(tbl, st, es))
  {
    forall k
      ensures !Ready(Run(tbl, st, es), k)
    {
      assert (es + [Turn(k)])[..|es|] == es;
    }
  }

  /**
   * A schedule that cannot be continued has come to rest, whoever was scheduled when: then only
   * the firmware frames that no transfer has asked for are still allocated.
   */
  lemma ScheduleRests(tbl: seq<seq<byte>>, st: State, es: seq<Event>, a: int)
    requires Good(tbl, st) && Final(tbl, st, es)
    ensures var end := Run(tbl, st, es);
      && Quiet(end) && Good(tbl, end)
      && (a in end.heap <==> exists j :: 0 <= j < |end.lanes[UPDATER].queue| && end.lanes[UPDATER].queue[j].data == a)
      && end.allocs - end.frees == |end.lanes[UPDATER].queue|
  {
    RunKeeps(tbl, st, es);
    ScheduleStops(tbl, st, es);
    QuietHeap(tbl, Run(tbl, st, es), a);
  }

  /** And any schedule can be continued until it rests. */
  lemma {:induction false} ScheduleGoesOn(tbl: seq<seq<byte>>, st: State, es: seq<Event>) returns (more: seq<Event>)
    requires Good(tbl, st) && Scheduled(tbl, st, es)
    ensures es <= more && Scheduled(tbl, st, more) && Quiet(Run(tbl, st, more))
    decreases Work(tbl, Run(tbl, st, es))
  {
    var end := Run(tbl, st, es);
    if k :| Ready(end, k) {
      assert (es + [Turn(k)])[..|es|] == es;
      TurnWorks(tbl, end, k);
      more := ScheduleGoesOn(tbl, st, es + [Turn(k)]);
    } else {
      more := es;
    }
  }
}
