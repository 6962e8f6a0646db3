/** What ticks amount to: with one score for both directions, and with a budget for each. */
module Ticking {
  import opened Base
  import opened Frames
  import opened Queues
  import opened Routing
  import opened Traces
  import opened Delivery
  import opened Provision
  import opened Scheduling
  import opened Sending

  // ---------------------------------------------------------------- ticks as written

  /** Nothing has been sent, nor attempted, by device `d`. */
  ghost predicate Unsent(net: Net, net': Net, d: int) {
    SentBy(net', d) == SentBy(net, d) && TriesAt(net', d) == TriesAt(net, d)
  }

  lemma {:induction false} OfferUnsent(env: Env, net: Net, ds: seq<byte>, p: Packet, d: int)
    ensures Unsent(net, OfferedAll(env, net, ds, p).net, d)
  {
    if |ds| > 0 {
      OfferUnsent(env, net, ds[..|ds| - 1], p, d);
    }
  }

  lemma {:induction false} TraceUnsent(env: Env, tbl: seq<Entry>, net: Net, ms: seq<Move>, d: int)
    requires Routes(ms)
    ensures Unsent(net, Traced(env, tbl, net, ms), d)
    decreases |ms|
  {
    if |ms| > 0 {
      var i := ms[0].dev;
      if Pending(net, i) {
        var p := net.ports[i].inq[0];
        OfferUnsent(env, Pulled(net, i), Dests(tbl, p.id), p, d);
      }
      TraceUnsent(env, tbl, Moved(env, tbl, net, ms[0]), ms[1..], d);
    }
  }

  /** One score for both directions never leaves anything for sending. */
  lemma AsWrittenInOnly(env: Env, tbl: seq<Entry>, net: Net, s: int)
    ensures Routing.TickAsWritten(env, tbl, net, s).net == DevicesLoop(env, tbl, net, DIR_IN, s).net
  {
    if s > 0 {
      DevicesInClosed(env, tbl, net, s);
    }
  }

  /** What an application does with the stack as written: it receives, empties queues, and ticks. */
  datatype Call =
    | Hand(dev: int, id: uint32, flags: byte, data: Payload)
    | Empty(dev: int, outgoing: bool)
    | Beat(score: int)

  function Called(env: Env, tbl: seq<Entry>, net: Net, c: Call): Net {
    match c
    case Hand(d, id, flags, data) => Step(env, tbl, net, Receive(d, id, flags, data))
    case Empty(d, outgoing) => Step(env, tbl, net, Flush(d, outgoing))
    case Beat(score) => Routing.TickAsWritten(env, tbl, net, score).net
  }

  function CalledAll(env: Env, tbl: seq<Entry>, net: Net, cs: seq<Call>): Net {
    if |cs| == 0 then net else Called(env, tbl, CalledAll(env, tbl, net, cs[..|cs| - 1]), cs[|cs| - 1])
  }

  lemma CallUnsent(env: Env, tbl: seq<Entry>, net: Net, c: Call, d: int)
    ensures Unsent(net, Called(env, tbl, net, c), d)
  {
    match c
    case Hand(_, _, _, _) =>
    case Empty(i, outgoing) =>
      if i in net.ports {
        DroppedAll(net.ports[i].gone, net.ports[i].outq);
      }
    case Beat(score) =>
      AsWrittenInOnly(env, tbl, net, score);
      var ms := DevicesTrace(env, tbl, net, DIR_IN, score);
      TraceUnsent(env, tbl, net, ms, d);
  }

  /** So however an application receives, empties and ticks, no device ever makes a send attempt. */
  lemma {:induction false} AsWrittenNeverSends(env: Env, tbl: seq<Entry>, net: Net, cs: seq<Call>, d: int)
    ensures Unsent(net, CalledAll(env, tbl, net, cs), d)
  {
    if |cs| > 0 {
      var n := |cs| - 1;
      AsWrittenNeverSends(env, tbl, net, cs[..n], d);
      CallUnsent(env, tbl, CalledAll(env, tbl, net, cs[..n]), cs[n], d);
    }
  }

  // ---------------------------------------------------------------- ticks with two budgets

  ghost predicate Ticked(env: Env, tbl: seq<Entry>, budget: nat, net: Net, next: Net) {
    next == Routing.Tick(env, tbl, net, budget)
  }

  /** State `k` of a run is followed by the state after one more tick, as the trigger makes available when asked. */
  ghost predicate TickAt(env: Env, tbl: seq<Entry>, budget: nat, run: seq<Net>, k: nat)
    requires k + 1 < |run|
  {
    forall next {:trigger Ticked(env, tbl, budget, run[k], next)} | next == run[k + 1] ::
      Ticked(env, tbl, budget, run[k], next)
  }

  /** The first `n` steps of a run, a sequence of states, are ticks. */
  ghost predicate Ticks(env: Env, tbl: seq<Entry>, budget: nat, run: seq<Net>, n: nat) {
    n < |run| && (n > 0 ==> Ticks(env, tbl, budget, run, n - 1) && TickAt(env, tbl, budget, run, n - 1))
  }

  /** There is such a run from any state, of any length. */
  lemma {:induction false} TicksOn(env: Env, tbl: seq<Entry>, budget: nat, net: Net, n: nat) returns (run: seq<Net>)
    ensures |run| == n + 1 && Ticks(env, tbl, budget, run, n) && run[0] == net
  {
    run := [net];
    if n > 0 {
      var before := TicksOn(env, tbl, budget, net, n - 1);
      run := before + [Routing.Tick(env, tbl, before[n - 1], budget)];
      TicksSame(env, tbl, budget, before, run, n - 1);
    }
  }

  lemma {:induction false} TicksSame(env: Env, tbl: seq<Entry>, budget: nat, run: seq<Net>, run': seq<Net>, n: nat)
    requires Ticks(env, tbl, budget, run, n) && run <= run'
    ensures Ticks(env, tbl, budget, run', n)
  {
    if n > 0 {
      TicksSame(env, tbl, budget, run, run', n - 1);
    }
  }

  lemma {:induction false} TicksLater(env: Env, tbl: seq<Entry>, budget: nat, run: seq<Net>, first: nat, n: nat)
    requires Ticks(env, tbl, budget, run, first + n)
    ensures Ticks(env, tbl, budget, run[first..], n)
  {
    if n > 0 {
      TicksLater(env, tbl, budget, run, first, n - 1);
    }
  }

  lemma {:induction false} TicksLess(env: Env, tbl: seq<Entry>, budget: nat, run: seq<Net>, n: nat, k: nat)
    requires Ticks(env, tbl, budget, run, n) && k <= n
    ensures Ticks(env, tbl, budget, run, k)
  {
    if k < n {
      TicksLess(env, tbl, budget, run, n - 1, k);
    }
  }

  lemma {:induction false} PassInIdle(env: Env, tbl: seq<Entry>, net: Net, i: int, score: int)
    requires |JoinedIn(net, i)| == 0
    ensures PassIn(env, tbl, net, i, score) == Outcome(net, score)
    decreases SLOTS - i
  {
    if i >= SLOTS {
    } else {
      PassInIdle(env, tbl, net, i + 1, score);
    }
  }

  lemma {:induction false} DevicesInIdle(env: Env, tbl: seq<Entry>, net: Net, s: int)
    requires |JoinedIn(net, 0)| == 0
    ensures DevicesLoop(env, tbl, net, DIR_IN, s).net == net
    decreases s
  {
    if s <= 0 {
    } else {
      PassInIdle(env, tbl, net, 0, s);
      DevicesInIdle(env, tbl, net, s - 1);
    }
  }

  lemma {:induction false} JoinedInSame(net: Net, net': Net, i: int)
    requires forall d :: InQ(net', d) == InQ(net, d)
    ensures JoinedIn(net', i) == JoinedIn(net, i)
    decreases SLOTS - i
  {
    if i >= SLOTS {
    } else {
      JoinedInSame(net, net', i + 1);
    }
  }

  /**
   * A tick without input sends exactly the first min(budget, total) frames of the joined
   * out-queues, each device the first frames of its own queue.
   */
  lemma TickDrains(env: Env, tbl: seq<Entry>, net: Net, budget: int, d: int)
    requires LinksUp(env) && budget > 0 && |JoinedIn(net, 0)| == 0
    ensures var net' := Routing.Tick(env, tbl, net, budget);
      && TookOut(net, net', d, Share(net, 0, d, budget))
      && SentTotal(net') == SentTotal(net) + Min(budget, |JoinedOut(net, 0)|)
      && JoinedOut(net', 0) == JoinedOut(net, 0)[Min(budget, |JoinedOut(net, 0)|)..]
      && |JoinedIn(net', 0)| == 0
  {
    DevicesInIdle(env, tbl, net, budget);
    DevicesOutClosed(env, tbl, net, budget, d);
    OutSends(env, tbl, net, budget);
    OutLeavesIn(env, tbl, net, budget);
  }

  lemma OutLeavesIn(env: Env, tbl: seq<Entry>, net: Net, budget: int)
    ensures var net' := DevicesLoop(env, tbl, net, DIR_OUT, budget).net;
      JoinedIn(net', 0) == JoinedIn(net, 0) && forall d :: InQ(net', d) == InQ(net, d)
  {
    var net' := DevicesLoop(env, tbl, net, DIR_OUT, budget).net;
    forall d
      ensures InQ(net', d) == InQ(net, d)
    {
      OutConserves(env, tbl, net, budget, d);
    }
    JoinedInSame(net, net', 0);
  }

  function Times(n: nat, b: nat): nat {
    if n == 0 then 0 else Times(n - 1, b) + b
  }

  /** The least number of ticks with which `total` frames can be dealt with: total / b, rounded up. */
  function Rounds(total: nat, b: nat): nat
    requires b > 0
  {
    if total == 0 then 0 else if total <= b then 1 else 1 + Rounds(total - b, b)
  }

  lemma {:induction false} RoundsIff(total: nat, b: nat, n: nat)
    requires b > 0
    ensures Times(n, b) >= total <==> n >= Rounds(total, b)
  {
    if total > b && n > 0 {
      RoundsIff(total - b, b, n - 1);
    }
  }

  /** Which makes it the quotient, rounded up. */
  lemma RoundsCeiling(total: nat, b: nat)
    requires b > 0
    ensures Rounds(total, b) * b >= total
    ensures total > 0 ==> (Rounds(total, b) - 1) * b < total
  {
    var n := Rounds(total, b);
    RoundsIff(total, b, n);
    TimesProduct(n, b);
    if total > 0 {
      RoundsIff(total, b, n - 1);
      TimesProduct(n - 1, b);
    }
  }

  lemma {:induction false} TimesProduct(n: nat, b: nat)
    ensures Times(n, b) == n * b
  {
    if n > 0 {
      TimesProduct(n - 1, b);
      assert n * b == (n - 1) * b + b;
    }
  }

  /** Enough ticks for `i` and for `o` frames are enough for the one and then for the other. */
  lemma RoundsSplit(i: nat, o: nat, b: nat, n: nat) returns (first: nat, rest: nat)
    requires b > 0 && n >= Rounds(i, b) + Rounds(o, b)
    ensures first + rest == n && Times(first, b) >= i && Times(rest, b) >= o
  {
    first, rest := Rounds(i, b), n - Rounds(i, b);
    RoundsIff(i, b, first);
    RoundsIff(o, b, rest);
  }

  lemma DropMore<T>(q: seq<T>, a: nat, b: nat)
    ensures var rest := q[Min(a, |q|)..];
      rest[Min(b, |rest|)..] == q[Min(a + b, |q|)..]
  {
  }

  /** Of the backlog `q` the first `done` frames have been sent, and nothing waits to be routed. */
  ghost predicate Remaining(net: Net, q: seq<Packet>, done: nat, sent: int) {
    && JoinedOut(net, 0) == q[Min(done, |q|)..] && |JoinedIn(net, 0)| == 0
    && SentTotal(net) == sent + Min(done, |q|)
  }

  lemma TickRemaining(env: Env, tbl: seq<Entry>, net: Net, budget: nat, q: seq<Packet>, done: nat, sent: int)
    requires LinksUp(env) && budget > 0 && Remaining(net, q, done, sent)
    ensures Remaining(Routing.Tick(env, tbl, net, budget), q, done + budget, sent)
  {
    TickDrains(env, tbl, net, budget, 0);
    DropMore(q, done, budget);
  }

  lemma RemainingNext(env: Env, tbl: seq<Entry>, budget: nat, run: seq<Net>, n: nat,
                      q: seq<Packet>, done: nat, sent: int)
    requires LinksUp(env) && budget > 0 && Ticks(env, tbl, budget, run, n + 1)
    requires Remaining(run[n], q, done, sent)
    ensures Remaining(run[n + 1], q, done + budget, sent)
  {
    assert Ticked(env, tbl, budget, run[n], run[n + 1]);
    TickRemaining(env, tbl, run[n], budget, q, done, sent);
  }

  lemma RemainingStart(net: Net)
    requires |JoinedIn(net, 0)| == 0
    ensures Remaining(net, JoinedOut(net, 0), 0, SentTotal(net))
  {
  }

  lemma {:induction false} TicksRemaining(env: Env, tbl: seq<Entry>, budget: nat, run: seq<Net>, n: nat,
                                          q: seq<Packet>, sent: int)
    requires LinksUp(env) && budget > 0 && Ticks(env, tbl, budget, run, n) && Remaining(run[0], q, 0, sent)
    ensures Remaining(run[n], q, Times(n, budget), sent)
  {
    if n > 0 {
      TicksRemaining(env, tbl, budget, run, n - 1, q, sent);
      RemainingNext(env, tbl, budget, run, n - 1, q, Times(n - 1, budget), sent);
    }
  }

  /** After `n` such ticks exactly min(n * budget, total) frames of the backlog were sent, front first. */
  lemma TicksDrain(env: Env, tbl: seq<Entry>, budget: nat, run: seq<Net>, n: nat)
    requires LinksUp(env) && budget > 0 && Ticks(env, tbl, budget, run, n) && |JoinedIn(run[0], 0)| == 0
    ensures Remaining(run[n], JoinedOut(run[0], 0), Times(n, budget), SentTotal(run[0]))
  {
    RemainingStart(run[0]);
    TicksRemaining(env, tbl, budget, run, n, JoinedOut(run[0], 0), SentTotal(run[0]));
  }

  /** A backlog of N frames is sent after `n` ticks exactly when n is at least N / budget rounded up. */
  lemma DrainedIff(env: Env, tbl: seq<Entry>, budget: nat, run: seq<Net>, n: nat)
    requires LinksUp(env) && budget > 0 && Ticks(env, tbl, budget, run, n)
    requires |JoinedIn(run[0], 0)| == 0
    ensures var total := |JoinedOut(run[0], 0)|;
      SentTotal(run[n]) == SentTotal(run[0]) + total <==> n >= Rounds(total, budget)
  {
    TicksDrain(env, tbl, budget, run, n);
    RoundsIff(|JoinedOut(run[0], 0)|, budget, n);
  }

  // ---------------------------------------------------------------- ticks with input

  /** What the out-queues hold, and the copies that the frames waiting to be routed may still give. */
  function Owed(slots: set<int>, tbl: seq<Entry>, net: Net): int {
    OwedAt(slots, tbl, net, 0) + OwedAt(slots, tbl, net, 1) + OwedAt(slots, tbl, net, 2) + OwedAt(slots, tbl, net, 3)
  }

  function OwedAt(slots: set<int>, tbl: seq<Entry>, net: Net, d: int): nat {
    |OutQ(net, d)| + FanAt(slots, tbl, net, d)
  }

  ghost predicate SlottedAt(slots: set<int>, net: Net, d: int) {
    (d in slots <==> d in net.ports) && (d in net.ports ==> 0 <= d < SLOTS)
  }

  /** The registered devices are those of `slots`. */
  ghost predicate Slotted(slots: set<int>, net: Net) {
    forall d {:trigger SlottedAt(slots, net, d)} :: SlottedAt(slots, net, d)
  }

  lemma SlottedKept(slots: set<int>, net: Net, net': Net)
    requires Slotted(slots, net) && forall d :: d in net'.ports <==> d in net.ports
    ensures Slotted(slots, net')
  {
    forall d
      ensures SlottedAt(slots, net', d)
    {
      assert SlottedAt(slots, net, d);
    }
  }

  lemma OwedChange(slots: set<int>, tbl: seq<Entry>, net: Net, net': Net, i: int)
    requires 0 <= i < SLOTS
    requires forall d | d != i :: InQ(net', d) == InQ(net, d) && OutQ(net', d) == OutQ(net, d)
    ensures Owed(slots, tbl, net') == Owed(slots, tbl, net) - OwedAt(slots, tbl, net, i) + OwedAt(slots, tbl, net', i)
  {
  }

  lemma OfferOwed(env: Env, slots: set<int>, tbl: seq<Entry>, net: Net, i: int, p: Packet)
    requires Slotted(slots, net)
    ensures var r := Offered(env, net, i, p);
      && Slotted(slots, r.net)
      && Owed(slots, tbl, r.net) <= Owed(slots, tbl, net) + if i in slots then 1 else 0
  {
    assert SlottedAt(slots, net, i);
    SlottedKept(slots, net, Offered(env, net, i, p).net);
    if i in net.ports {
      OwedChange(slots, tbl, net, Offered(env, net, i, p).net, i);
    }
  }

  lemma {:induction false} OffersOwed(env: Env, slots: set<int>, tbl: seq<Entry>, net: Net, ds: seq<byte>, p: Packet)
    requires Slotted(slots, net)
    ensures var r := OfferedAll(env, net, ds, p);
      Slotted(slots, r.net) && Owed(slots, tbl, r.net) <= Owed(slots, tbl, net) + Reach(slots, ds)
  {
    if |ds| > 0 {
      var n := |ds| - 1;
      OffersOwed(env, slots, tbl, net, ds[..n], p);
      OfferOwed(env, slots, tbl, OfferedAll(env, net, ds[..n], p).net, ds[n] as int, p);
    }
  }

  lemma PullOwed(slots: set<int>, tbl: seq<Entry>, net: Net, i: int)
    requires Slotted(slots, net) && Pending(net, i)
    ensures Slotted(slots, Pulled(net, i))
    ensures Owed(slots, tbl, Pulled(net, i)) == Owed(slots, tbl, net) - Reach(slots, Dests(tbl, net.ports[i].inq[0].id))
  {
    assert SlottedAt(slots, net, i);
    SlottedKept(slots, net, Pulled(net, i));
    FanPop(slots, tbl, net.ports[i].inq);
    OwedChange(slots, tbl, net, Pulled(net, i), i);
  }

  lemma OwedSame(slots: set<int>, tbl: seq<Entry>, net: Net, net': Net)
    requires net'.ports == net.ports
    ensures Owed(slots, tbl, net') == Owed(slots, tbl, net)
  {
  }

  lemma RouteOwed(env: Env, slots: set<int>, tbl: seq<Entry>, net: Net, i: int)
    requires Slotted(slots, net) && Pending(net, i)
    ensures var net' := Handled(env, tbl, net, i).net;
      Slotted(slots, net') && Owed(slots, tbl, net') <= Owed(slots, tbl, net)
  {
    var p := net.ports[i].inq[0];
    var all := OfferedAll(env, Pulled(net, i), Dests(tbl, p.id), p).net;
    PullOwed(slots, tbl, net, i);
    OffersOwed(env, slots, tbl, Pulled(net, i), Dests(tbl, p.id), p);
    SlottedKept(slots, all, Handled(env, tbl, net, i).net);
    OwedSame(slots, tbl, all, Handled(env, tbl, net, i).net);
  }

  lemma SendOwed(env: Env, slots: set<int>, tbl: seq<Entry>, net: Net, i: int)
    requires Slotted(slots, net) && Sendable(net, i)
    ensures var net' := Sent(env, net, i).net;
      Slotted(slots, net') && Owed(slots, tbl, net') <= Owed(slots, tbl, net)
  {
    assert SlottedAt(slots, net, i);
    SlottedKept(slots, net, Sent(env, net, i).net);
    OwedChange(slots, tbl, net, Sent(env, net, i).net, i);
  }

  /** Serving the devices never raises what is owed. */
  lemma {:induction false} TraceOwed(env: Env, slots: set<int>, tbl: seq<Entry>, net: Net, ms: seq<Move>)
    requires Slotted(slots, net)
    ensures var net' := Traced(env, tbl, net, ms);
      Slotted(slots, net') && Owed(slots, tbl, net') <= Owed(slots, tbl, net)
    decreases |ms|
  {
    if |ms| > 0 {
      if ms[0].Route? && Pending(net, ms[0].dev) {
        RouteOwed(env, slots, tbl, net, ms[0].dev);
      } else if ms[0].Transmit? && Sendable(net, ms[0].dev) {
        SendOwed(env, slots, tbl, net, ms[0].dev);
      }
      TraceOwed(env, slots, tbl, Moved(env, tbl, net, ms[0]), ms[1..]);
    }
  }

  lemma TickOwed(env: Env, slots: set<int>, tbl: seq<Entry>, net: Net, budget: nat)
    requires Slotted(slots, net) && budget > 0
    ensures var net' := Routing.Tick(env, tbl, net, budget);
      && Slotted(slots, net') && Owed(slots, tbl, net') <= Owed(slots, tbl, net)
      && |JoinedIn(net', 0)| == |JoinedIn(net, 0)| - Min(budget, |JoinedIn(net, 0)|)
  {
    var mid := DevicesLoop(env, tbl, net, DIR_IN, budget).net;
    var a := DevicesTrace(env, tbl, net, DIR_IN, budget);
    var b := DevicesTrace(env, tbl, mid, DIR_OUT, budget);
    TraceOwed(env, slots, tbl, net, a);
    TraceOwed(env, slots, tbl, mid, b);
    DevicesInClosed(env, tbl, net, budget);
    OutLeavesIn(env, tbl, mid, budget);
  }

  /** After `n` ticks from `net` the first n * budget frames of the input have been routed. */
  ghost predicate Taken(slots: set<int>, tbl: seq<Entry>, net: Net, net': Net, done: nat) {
    && Slotted(slots, net') && Owed(slots, tbl, net') <= Owed(slots, tbl, net)
    && |JoinedIn(net', 0)| == |JoinedIn(net, 0)| - Min(done, |JoinedIn(net, 0)|)
  }

  lemma TakenNext(env: Env, slots: set<int>, tbl: seq<Entry>, budget: nat, run: seq<Net>, n: nat, done: nat)
    requires budget > 0 && Ticks(env, tbl, budget, run, n + 1) && Taken(slots, tbl, run[0], run[n], done)
    ensures Taken(slots, tbl, run[0], run[n + 1], done + budget)
  {
    assert Ticked(env, tbl, budget, run[n], run[n + 1]);
    TickOwed(env, slots, tbl, run[n], budget);
  }

  lemma {:induction false} TicksTake(env: Env, slots: set<int>, tbl: seq<Entry>, budget: nat, run: seq<Net>, n: nat)
    requires budget > 0 && Ticks(env, tbl, budget, run, n) && Slotted(slots, run[0])
    ensures Taken(slots, tbl, run[0], run[n], Times(n, budget))
  {
    if n > 0 {
      TicksTake(env, slots, tbl, budget, run, n - 1);
      TakenNext(env, slots, tbl, budget, run, n - 1, Times(n - 1, budget));
    }
  }

  lemma OwedCovers(slots: set<int>, tbl: seq<Entry>, net: Net)
    ensures |JoinedOut(net, 0)| <= Owed(slots, tbl, net)
  {
    JoinedOutLength(net);
  }

  /** Nothing waits any more. */
  ghost predicate Idle(net: Net) {
    |JoinedIn(net, 0)| == 0 && |JoinedOut(net, 0)| == 0
  }

  // ---------------------------------------------------------------- routed and sent in one tick

  /** An out-queue grows by the copies it accepts. */
  ghost predicate Grows(net: Net, net': Net, d: int) {
    |OutQ(net', d)| - |OutQ(net, d)| == KeptAt(net', d) - KeptAt(net, d)
  }

  lemma {:induction false} OffersGrow(env: Env, net: Net, ds: seq<byte>, p: Packet, d: int)
    ensures Grows(net, OfferedAll(env, net, ds, p).net, d)
  {
    if |ds| > 0 {
      var n := |ds| - 1;
      OffersGrow(env, net, ds[..n], p, d);
      OfferKept(env, OfferedAll(env, net, ds[..n], p).net, ds[n] as int, p, d);
    }
  }

  lemma {:induction false} TraceGrows(env: Env, tbl: seq<Entry>, net: Net, ms: seq<Move>, d: int)
    requires Routes(ms)
    ensures Grows(net, Traced(env, tbl, net, ms), d)
    decreases |ms|
  {
    if |ms| > 0 {
      var i := ms[0].dev;
      if Pending(net, i) {
        var p := net.ports[i].inq[0];
        OffersGrow(env, Pulled(net, i), Dests(tbl, p.id), p, d);
      }
      TraceGrows(env, tbl, Moved(env, tbl, net, ms[0]), ms[1..], d);
    }
  }

  lemma InGrows(env: Env, tbl: seq<Entry>, net: Net, budget: nat)
    ensures var mid := DevicesLoop(env, tbl, net, DIR_IN, budget).net;
      && |JoinedOut(mid, 0)| == |JoinedOut(net, 0)| + KeptTotal(mid) - KeptTotal(net)
      && SentTotal(mid) == SentTotal(net)
  {
    var mid := DevicesLoop(env, tbl, net, DIR_IN, budget).net;
    var ms := DevicesTrace(env, tbl, net, DIR_IN, budget);
    JoinedOutLength(net);
    JoinedOutLength(mid);
    forall d
      ensures Grows(net, mid, d) && Unsent(net, mid, d)
    {
      TraceGrows(env, tbl, net, ms, d);
      TraceUnsent(env, tbl, net, ms, d);
    }
    assert Grows(net, mid, 0) && Grows(net, mid, 1) && Grows(net, mid, 2) && Grows(net, mid, 3);
    assert Unsent(net, mid, 0) && Unsent(net, mid, 1) && Unsent(net, mid, 2) && Unsent(net, mid, 3);
  }

  lemma OutKeeps(env: Env, tbl: seq<Entry>, net: Net, budget: nat)
    ensures KeptTotal(DevicesLoop(env, tbl, net, DIR_OUT, budget).net) == KeptTotal(net)
  {
    forall d
      ensures KeptAt(DevicesLoop(env, tbl, net, DIR_OUT, budget).net, d) == KeptAt(net, d)
    {
      OutConserves(env, tbl, net, budget, d);
    }
  }

  /**
   * What a tick routes it also sends, as far as its budget goes: with any input, and sends that
   * succeed, the frames sent are min(budget, backlog before plus copies accepted in this tick).
   */
  lemma TickSendsRouted(env: Env, tbl: seq<Entry>, net: Net, budget: nat)
    requires LinksUp(env) && budget > 0
    ensures var net' := Routing.Tick(env, tbl, net, budget);
      SentTotal(net') - SentTotal(net) == Min(budget, |JoinedOut(net, 0)| + KeptTotal(net') - KeptTotal(net))
  {
    var mid := DevicesLoop(env, tbl, net, DIR_IN, budget).net;
    InGrows(env, tbl, net, budget);
    OutSends(env, tbl, mid, budget);
    OutKeeps(env, tbl, mid, budget);
  }

  /** And it routes the first min(budget, input) of the frames that waited before it. */
  lemma TickRoutes(env: Env, tbl: seq<Entry>, net: Net, budget: nat)
    requires budget > 0
    ensures var net' := Routing.Tick(env, tbl, net, budget);
      var k := Min(budget, |JoinedIn(net, 0)|);
      net'.routed == net.routed + JoinedIn(net, 0)[..k] && JoinedIn(net', 0) == JoinedIn(net, 0)[k..]
  {
    var mid := DevicesLoop(env, tbl, net, DIR_IN, budget).net;
    DevicesInClosed(env, tbl, net, budget);
    OutLeavesIn(env, tbl, mid, budget);
    var ms := DevicesTrace(env, tbl, mid, DIR_OUT, budget);
    TraceUnrouted(env, tbl, mid, ms);
  }

  lemma {:induction false} TraceUnrouted(env: Env, tbl: seq<Entry>, net: Net, ms: seq<Move>)
    requires Transmits(ms)
    ensures Traced(env, tbl, net, ms).routed == net.routed
    decreases |ms|
  {
    if |ms| > 0 {
      TraceUnrouted(env, tbl, Moved(env, tbl, net, ms[0]), ms[1..]);
    }
  }

  // ---------------------------------------------------------------- ticks with failing sends

  lemma TickFails(env: Env, tbl: seq<Entry>, net: Net, budget: nat)
    requires budget > 0
    ensures FailsTotal(Routing.Tick(env, tbl, net, budget)) >= FailsTotal(net)
  {
    var mid := DevicesLoop(env, tbl, net, DIR_IN, budget).net;
    var ms := DevicesTrace(env, tbl, net, DIR_IN, budget);
    TraceUnsent(env, tbl, net, ms, 0);
    TraceUnsent(env, tbl, net, ms, 1);
    TraceUnsent(env, tbl, net, ms, 2);
    TraceUnsent(env, tbl, net, ms, 3);
    OutEffort(env, tbl, mid, budget);
  }

  lemma FailsNext(env: Env, tbl: seq<Entry>, budget: nat, run: seq<Net>, n: nat)
    requires budget > 0 && Ticks(env, tbl, budget, run, n + 1)
    ensures FailsTotal(run[n + 1]) >= FailsTotal(run[n])
  {
    assert Ticked(env, tbl, budget, run[n], run[n + 1]);
    TickFails(env, tbl, run[n], budget);
  }

  lemma {:induction false} TicksFail(env: Env, tbl: seq<Entry>, budget: nat, run: seq<Net>, n: nat)
    requires budget > 0 && Ticks(env, tbl, budget, run, n)
    ensures FailsTotal(run[n]) >= FailsTotal(run[0])
  {
    if n > 0 {
      TicksFail(env, tbl, budget, run, n - 1);
      FailsNext(env, tbl, budget, run, n - 1);
    }
  }

  /** From `net` to `net'`, without input, `done` points went to frames sent and to failed sends, or all was sent. */
  ghost predicate Worked(net: Net, net': Net, done: int) {
    && |JoinedIn(net', 0)| == 0
    && SentTotal(net') + |JoinedOut(net', 0)| == SentTotal(net) + |JoinedOut(net, 0)|
    && (|JoinedOut(net', 0)| == 0 ||
        (SentTotal(net') - SentTotal(net)) + (FailsTotal(net') - FailsTotal(net)) >= done)
  }

  lemma TickWorks(env: Env, tbl: seq<Entry>, net: Net, budget: nat)
    requires budget > 0 && |JoinedIn(net, 0)| == 0
    ensures Worked(net, Routing.Tick(env, tbl, net, budget), budget)
    ensures |JoinedOut(Routing.Tick(env, tbl, net, budget), 0)| <= |JoinedOut(net, 0)|
  {
    DevicesInIdle(env, tbl, net, budget);
    OutEffort(env, tbl, net, budget);
    OutShrinks(env, tbl, net, budget);
    OutLeavesIn(env, tbl, net, budget);
  }

  lemma WorkedNext(env: Env, tbl: seq<Entry>, budget: nat, run: seq<Net>, n: nat, done: nat)
    requires budget > 0 && Ticks(env, tbl, budget, run, n + 1) && Worked(run[0], run[n], done)
    ensures Worked(run[0], run[n + 1], done + budget)
  {
    assert Ticked(env, tbl, budget, run[n], run[n + 1]);
    TickWorks(env, tbl, run[n], budget);
    FailsNext(env, tbl, budget, run, n);
  }

  lemma {:induction false} TicksWork(env: Env, tbl: seq<Entry>, budget: nat, run: seq<Net>, n: nat)
    requires budget > 0 && Ticks(env, tbl, budget, run, n) && |JoinedIn(run[0], 0)| == 0
    ensures Worked(run[0], run[n], Times(n, budget))
  {
    if n > 0 {
      TicksWork(env, tbl, budget, run, n - 1);
      WorkedNext(env, tbl, budget, run, n - 1, Times(n - 1, budget));
    }
  }

  /** Enough ticks to route all input, and then enough to send all that is owed although `fails` sends fail. */
  lemma TwoPhases(env: Env, slots: set<int>, tbl: seq<Entry>, budget: nat, run: seq<Net>,
                  first: nat, rest: nat, fails: nat)
    requires budget > 0 && Ticks(env, tbl, budget, run, first + rest) && Slotted(slots, run[0])
    requires Times(first, budget) >= |JoinedIn(run[0], 0)|
    requires Times(rest, budget) >= Owed(slots, tbl, run[0]) + fails
    requires FailsTotal(run[first + rest]) - FailsTotal(run[0]) <= fails
    ensures Idle(run[first + rest])
  {
    TicksLess(env, tbl, budget, run, first + rest, first);
    TicksTake(env, slots, tbl, budget, run, first);
    OwedCovers(slots, tbl, run[first]);
    TicksFail(env, tbl, budget, run, first);
    TicksLater(env, tbl, budget, run, first, rest);
    TicksWork(env, tbl, budget, run[first..], rest);
  }

  /**
   * For devices that sometimes fail: with I frames waiting to be routed, O frames waiting to be
   * sent or to be made from them, and at most F failed sends in these ticks, nothing waits any
   * more after I / budget and (O + F) / budget ticks, each rounded up.
   */
  lemma DeliveredDespite(env: Env, slots: set<int>, tbl: seq<Entry>, budget: nat, run: seq<Net>, n: nat, fails: nat)
    requires budget > 0 && Ticks(env, tbl, budget, run, n) && Slotted(slots, run[0])
    requires n >= Rounds(|JoinedIn(run[0], 0)|, budget) + Rounds(Owed(slots, tbl, run[0]) + fails, budget)
    requires FailsTotal(run[n]) - FailsTotal(run[0]) <= fails
    ensures Idle(run[n])
  {
    var first, rest := RoundsSplit(|JoinedIn(run[0], 0)|, Owed(slots, tbl, run[0]) + fails, budget, n);
    TwoPhases(env, slots, tbl, budget, run, first, rest, fails);
  }

  /** With sends that succeed, nothing waits any more after I / budget and O / budget ticks, each rounded up. */
  lemma DeliveredWithin(env: Env, slots: set<int>, tbl: seq<Entry>, budget: nat, run: seq<Net>, n: nat)
    requires LinksUp(env) && budget > 0 && Ticks(env, tbl, budget, run, n) && Slotted(slots, run[0])
    requires n >= Rounds(|JoinedIn(run[0], 0)|, budget) + Rounds(Owed(slots, tbl, run[0]), budget)
    ensures Idle(run[n])
  {
    var first, rest := RoundsSplit(|JoinedIn(run[0], 0)|, Owed(slots, tbl, run[0]), budget, n);
    NoFails(env, tbl, budget, run, n);
    TwoPhases(env, slots, tbl, budget, run, first, rest, 0);
  }

  lemma FailsSame(env: Env, tbl: seq<Entry>, net: Net, budget: nat)
    requires LinksUp(env) && budget > 0
    ensures FailsTotal(Routing.Tick(env, tbl, net, budget)) == FailsTotal(net)
  {
    var mid := DevicesLoop(env, tbl, net, DIR_IN, budget).net;
    var a := DevicesTrace(env, tbl, net, DIR_IN, budget);
    var b := DevicesTrace(env, tbl, mid, DIR_OUT, budget);
    forall d
      ensures FailsAt(Routing.Tick(env, tbl, net, budget), d) == FailsAt(net, d)
    {
      TraceUnsent(env, tbl, net, a, d);
      TraceSucceeds(env, tbl, mid, b, d);
    }
  }

  lemma {:induction false} TraceSucceeds(env: Env, tbl: seq<Entry>, net: Net, ms: seq<Move>, d: int)
    requires LinksUp(env) && Transmits(ms)
    ensures FailsAt(Traced(env, tbl, net, ms), d) == FailsAt(net, d)
    decreases |ms|
  {
    if |ms| > 0 {
      var i := ms[0].dev;
      if Sendable(net, i) {
        assert env.link(i)(net.ports[i].attempts);
        SentStep(env, net, i, d);
      }
      TraceSucceeds(env, tbl, Moved(env, tbl, net, ms[0]), ms[1..], d);
    }
  }

  lemma {:induction false} NoFails(env: Env, tbl: seq<Entry>, budget: nat, run: seq<Net>, n: nat)
    requires LinksUp(env) && budget > 0 && Ticks(env, tbl, budget, run, n)
    ensures FailsTotal(run[n]) == FailsTotal(run[0])
  {
    if n > 0 {
      NoFails(env, tbl, budget, run, n - 1);
      assert Ticked(env, tbl, budget, run[n - 1], run[n]);
      FailsSame(env, tbl, run[n - 1], budget);
    }
  }
}
