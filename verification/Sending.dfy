/**
 * What the outgoing loop amounts to: what is sent, in which order, at which price, and that
 * failed sends harm nothing.
 */
module Sending {
  import opened Base
  import opened Frames
  import opened Queues
  import opened Routing
  import opened Traces
  import opened Delivery
  import opened Scheduling

  /** The out-queues of the slots from `i` on, joined in slot order. */
  function JoinedOut(net: Net, i: int): seq<Packet>
    decreases SLOTS - i
  {
    if i >= SLOTS then [] else OutQ(net, i) + JoinedOut(net, i + 1)
  }

  /** The frames device `d` has sent so far, in order. */
  function SentBy(net: Net, d: int): seq<Packet> {
    if d in net.ports then Served(net.ports[d].gone) else []
  }

  function TriesAt(net: Net, d: int): int {
    if d in net.ports then net.ports[d].attempts else 0
  }

  /** Frames sent, and send calls made, over all slots. */
  function SentTotal(net: Net): int {
    |SentBy(net, 0)| + |SentBy(net, 1)| + |SentBy(net, 2)| + |SentBy(net, 3)|
  }

  function TriesTotal(net: Net): int {
    TriesAt(net, 0) + TriesAt(net, 1) + TriesAt(net, 2) + TriesAt(net, 3)
  }

  /** Passes of xcan_devices_loop until its score is used up. */
  function Passes(env: Env, tbl: seq<Entry>, net: Net, dir: int, score: int): nat
    decreases score
  {
    if score <= 0 then 0
    else
      var r := Pass(env, tbl, net, dir, score);
      1 + Passes(env, tbl, r.net, dir, r.n - 1)
  }

  // ---------------------------------------------------------------- whatever the devices do

  /** The frames device `d` has sent grow by the first ones of its queue, and nothing else changes. */
  ghost predicate SentFrom(net: Net, net': Net, d: int) {
    && (d in net.ports <==> d in net'.ports)
    && SentBy(net', d) + OutQ(net', d) == SentBy(net, d) + OutQ(net, d)
    && SentBy(net, d) <= SentBy(net', d)
    && (d in net.ports ==>
          var p, p' := net.ports[d], net'.ports[d];
          && p.attempts <= p'.attempts && p'.offers == p.offers
          && p'.inq == p.inq && p'.taken == p.taken && p'.arrived == p.arrived)
  }

  lemma SentStep(env: Env, net: Net, d: int, e: int)
    requires Sendable(net, d)
    ensures var r := Sent(env, net, d);
      && SentFrom(net, r.net, e)
      && SentBy(r.net, e) == SentBy(net, e) + (if e == d && r.n == 1 then [OutQ(net, d)[0]] else [])
      && OutQ(r.net, e) == (if e == d && r.n == 1 then OutQ(net, d)[1..] else OutQ(net, e))
      && TriesAt(r.net, e) == TriesAt(net, e) + (if e == d then 1 else 0)
  {
    var port := net.ports[d];
    DeparturePush(port.gone, Departure(port.outq[0], true));
    HeadTail(Served(port.gone), port.outq);
  }

  lemma SentFromTrans(a: Net, b: Net, c: Net, d: int)
    requires SentFrom(a, b, d) && SentFrom(b, c, d)
    ensures SentFrom(a, c, d)
  {
  }

  lemma {:induction false} TraceSentFrom(env: Env, tbl: seq<Entry>, net: Net, ms: seq<Move>, d: int)
    requires Transmits(ms)
    ensures SentFrom(net, Traced(env, tbl, net, ms), d)
    decreases |ms|
  {
    if |ms| > 0 {
      var next := Moved(env, tbl, net, ms[0]);
      if Sendable(net, ms[0].dev) {
        SentStep(env, net, ms[0].dev, d);
      }
      TraceSentFrom(env, tbl, next, ms[1..], d);
      SentFromTrans(net, next, Traced(env, tbl, net, ms), d);
    }
  }

  /**
   * However often sending fails, no device loses, repeats or reorders a frame: what it has sent
   * followed by what still waits is the same before and after.
   */
  lemma OutConserves(env: Env, tbl: seq<Entry>, net: Net, s: int, d: int)
    ensures SentFrom(net, DevicesLoop(env, tbl, net, DIR_OUT, s).net, d)
  {
    var ms := DevicesTrace(env, tbl, net, DIR_OUT, s);
    TraceSentFrom(env, tbl, net, ms, d);
  }

  /** devloop_out pays one point for each frame sent, and makes at most one more attempt than that. */
  lemma {:induction false} LoopOutCounts(env: Env, net: Net, d: int, score: int, e: int)
    requires score >= 0
    ensures var r := LoopOut(env, net, d, score);
      && r.n == score - (|SentBy(r.net, d)| - |SentBy(net, d)|) && r.n >= 0
      && TriesAt(r.net, d) - TriesAt(net, d) <= |SentBy(r.net, d)| - |SentBy(net, d)| + 1
      && (e != d ==> SentBy(r.net, e) == SentBy(net, e) && TriesAt(r.net, e) == TriesAt(net, e))
    decreases score
  {
    if score <= 0 || !Sendable(net, d) {
    } else {
      SentStep(env, net, d, e);
      SentStep(env, net, d, d);
      if Sent(env, net, d).n != 0 {
        LoopOutCounts(env, Sent(env, net, d).net, d, score - 1, e);
      }
    }
  }

  lemma LoopOutTotals(env: Env, net: Net, d: int, score: int)
    requires score >= 0 && 0 <= d < SLOTS
    ensures var r := LoopOut(env, net, d, score);
      && r.n == score - (SentTotal(r.net) - SentTotal(net)) && r.n >= 0
      && TriesTotal(r.net) - TriesTotal(net) <= SentTotal(r.net) - SentTotal(net) + 1
  {
    LoopOutCounts(env, net, d, score, 0);
    LoopOutCounts(env, net, d, score, 1);
    LoopOutCounts(env, net, d, score, 2);
    LoopOutCounts(env, net, d, score, 3);
  }

  lemma {:induction false} PassOutTotals(env: Env, net: Net, i: int, score: int)
    requires score >= 0 && 0 <= i <= SLOTS
    ensures var r := PassOut(env, net, i, score);
      && r.n == score - (SentTotal(r.net) - SentTotal(net)) && r.n >= 0
      && TriesTotal(r.net) - TriesTotal(net) <= SentTotal(r.net) - SentTotal(net) + (SLOTS - i)
    decreases SLOTS - i
  {
    if i >= SLOTS {
    } else {
      LoopOutTotals(env, net, i, score);
      var a := LoopOut(env, net, i, score);
      PassOutTotals(env, a.net, i + 1, a.n);
    }
  }

  /**
   * The outgoing loop, whatever the devices do: from a positive score `s`, with S frames sent
   * in P passes, it returns s - S - P, which is 0 or -1, and it makes at most S + 4 P attempts.
   */
  lemma {:induction false} OutAccounting(env: Env, tbl: seq<Entry>, net: Net, s: int)
    requires s > 0
    ensures var r := DevicesLoop(env, tbl, net, DIR_OUT, s);
      var sent := SentTotal(r.net) - SentTotal(net);
      var passes := Passes(env, tbl, net, DIR_OUT, s);
      && r.n == s - sent - passes && -1 <= r.n <= 0
      && TriesTotal(r.net) - TriesTotal(net) <= sent + passes * SLOTS
    decreases s
  {
    PassOutTotals(env, net, 0, s);
    var a := PassOut(env, net, 0, s);
    if a.n - 1 > 0 {
      OutAccounting(env, tbl, a.net, a.n - 1);
    }
  }

  // ---------------------------------------------------------------- what failed sends cost

  /** Send calls of device `d` that failed. */
  function FailsAt(net: Net, d: int): int {
    TriesAt(net, d) - |SentBy(net, d)|
  }

  function FailsTotal(net: Net): int {
    FailsAt(net, 0) + FailsAt(net, 1) + FailsAt(net, 2) + FailsAt(net, 3)
  }

  /** A turn without a failure ends with the score or with the queue. */
  lemma {:induction false} LoopOutEffort(env: Env, net: Net, d: int, score: int, e: int)
    requires score >= 0
    ensures var r := LoopOut(env, net, d, score);
      && FailsAt(r.net, e) >= FailsAt(net, e)
      && (e != d ==> FailsAt(r.net, e) == FailsAt(net, e) && OutQ(r.net, e) == OutQ(net, e))
      && (r.n > 0 && FailsAt(r.net, d) == FailsAt(net, d) ==> OutQ(r.net, d) == [])
    decreases score
  {
    if score > 0 && Sendable(net, d) {
      SentStep(env, net, d, e);
      SentStep(env, net, d, d);
      if Sent(env, net, d).n != 0 {
        LoopOutEffort(env, Sent(env, net, d).net, d, score - 1, e);
      }
    }
  }

  lemma LoopOutFails(env: Env, net: Net, d: int, score: int)
    requires score >= 0 && 0 <= d < SLOTS
    ensures var r := LoopOut(env, net, d, score);
      && FailsTotal(r.net) - FailsTotal(net) == FailsAt(r.net, d) - FailsAt(net, d) >= 0
  {
    LoopOutEffort(env, net, d, score, 0);
    LoopOutEffort(env, net, d, score, 1);
    LoopOutEffort(env, net, d, score, 2);
    LoopOutEffort(env, net, d, score, 3);
  }

  /** So does a pass. */
  lemma {:induction false} PassOutEffort(env: Env, net: Net, i: int, score: int, d: int)
    requires score >= 0 && 0 <= i <= SLOTS
    ensures var r := PassOut(env, net, i, score);
      && FailsTotal(r.net) >= FailsTotal(net)
      && (d < i ==> OutQ(r.net, d) == OutQ(net, d))
      && (r.n > 0 && FailsTotal(r.net) == FailsTotal(net) && i <= d < SLOTS ==> OutQ(r.net, d) == [])
    decreases SLOTS - i
  {
    if i < SLOTS {
      var a := LoopOut(env, net, i, score);
      LoopOutTotals(env, net, i, score);
      LoopOutFails(env, net, i, score);
      LoopOutEffort(env, net, i, score, d);
      PassOutEffort(env, a.net, i + 1, a.n, d);
    }
  }

  lemma PassOutDrains(env: Env, net: Net, score: int)
    requires score >= 0
    ensures var r := PassOut(env, net, 0, score);
      && FailsTotal(r.net) >= FailsTotal(net)
      && (r.n > 0 && FailsTotal(r.net) == FailsTotal(net) ==> |JoinedOut(r.net, 0)| == 0)
  {
    PassOutEffort(env, net, 0, score, 0);
    PassOutEffort(env, net, 0, score, 1);
    PassOutEffort(env, net, 0, score, 2);
    PassOutEffort(env, net, 0, score, 3);
    JoinedOutLength(PassOut(env, net, 0, score).net);
  }

  /** A queue never grows by sending. */
  lemma OutShrinks(env: Env, tbl: seq<Entry>, net: Net, s: int)
    ensures var net' := DevicesLoop(env, tbl, net, DIR_OUT, s).net;
      && |JoinedOut(net', 0)| <= |JoinedOut(net, 0)|
      && SentTotal(net') + |JoinedOut(net', 0)| == SentTotal(net) + |JoinedOut(net, 0)|
  {
    var net' := DevicesLoop(env, tbl, net, DIR_OUT, s).net;
    JoinedOutLength(net);
    JoinedOutLength(net');
    forall d
      ensures |SentBy(net', d)| + |OutQ(net', d)| == |SentBy(net, d)| + |OutQ(net, d)|
      ensures |SentBy(net', d)| >= |SentBy(net, d)|
    {
      OutConserves(env, tbl, net, s, d);
      assert |SentBy(net', d) + OutQ(net', d)| == |SentBy(net, d) + OutQ(net, d)|;
    }
  }

  /** Each point of the score goes to a frame sent or to a failed send, unless all queues are empty at the end. */
  lemma {:induction false} OutEffort(env: Env, tbl: seq<Entry>, net: Net, s: int)
    requires s > 0
    ensures var net' := DevicesLoop(env, tbl, net, DIR_OUT, s).net;
      && FailsTotal(net') >= FailsTotal(net)
      && (|JoinedOut(net', 0)| == 0 ||
          (SentTotal(net') - SentTotal(net)) + (FailsTotal(net') - FailsTotal(net)) >= s)
    decreases s
  {
    var a := PassOut(env, net, 0, s);
    PassOutTotals(env, net, 0, s);
    PassOutDrains(env, net, s);
    if a.n - 1 > 0 {
      OutEffort(env, tbl, a.net, a.n - 1);
      OutShrinks(env, tbl, a.net, a.n - 1);
    }
  }

  // ---------------------------------------------------------------- one device and the others

  /** A turn with score left offers the first frame, if there is one, to the driver. */
  lemma {:induction false} LoopOutTries(env: Env, net: Net, d: int, score: int, e: int)
    requires score >= 0
    ensures var r := LoopOut(env, net, d, score);
      && TriesAt(r.net, e) >= TriesAt(net, e)
      && (e != d ==> OutQ(r.net, e) == OutQ(net, e))
      && (e == d && score > 0 && |OutQ(net, d)| > 0 ==> TriesAt(r.net, d) > TriesAt(net, d))
    decreases score
  {
    if score > 0 && Sendable(net, d) {
      SentStep(env, net, d, e);
      if Sent(env, net, d).n != 0 {
        LoopOutTries(env, Sent(env, net, d).net, d, score - 1, e);
      }
    }
  }

  lemma {:induction false} PassOutTries(env: Env, net: Net, i: int, score: int, d: int)
    requires score >= 0
    ensures var r := PassOut(env, net, i, score);
      && TriesAt(r.net, d) >= TriesAt(net, d)
      && (r.n > 0 && i <= d < SLOTS && |OutQ(net, d)| > 0 ==> TriesAt(r.net, d) > TriesAt(net, d))
    decreases SLOTS - i
  {
    if i < SLOTS {
      var a := LoopOut(env, net, i, score);
      LoopOutTries(env, net, i, score, d);
      LoopOutCounts(env, net, i, score, d);
      PassOutTries(env, a.net, i + 1, a.n, d);
    }
  }

  /**
   * Whatever the other devices do, a pass that ends with score left has tried the first waiting
   * frame of every device: no failed send takes the turn of a later slot.
   */
  lemma EveryDeviceTries(env: Env, tbl: seq<Entry>, net: Net, score: int, d: int)
    requires score >= 0 && 0 <= d < SLOTS && |OutQ(net, d)| > 0
    ensures var r := Pass(env, tbl, net, DIR_OUT, score);
      r.n > 0 ==> TriesAt(r.net, d) > TriesAt(net, d)
  {
    PassOutTries(env, net, 0, score, d);
  }

  /** A device whose sends succeed empties its queue in a turn with enough score. */
  lemma {:induction false} LoopOutServes(env: Env, net: Net, d: int, score: int)
    requires (forall n: nat :: env.link(d)(n)) && score >= |OutQ(net, d)|
    ensures TookOut(net, LoopOut(env, net, d, score).net, d, |OutQ(net, d)|)
    decreases score
  {
    if score > 0 && Sendable(net, d) {
      assert env.link(d)(net.ports[d].attempts);
      var next := Sent(env, net, d).net;
      SentStep(env, net, d, d);
      LoopOutServes(env, next, d, score - 1);
      TookTwiceOut(net, next, LoopOut(env, next, d, score - 1).net, d, 1, |OutQ(next, d)|);
    }
  }

  lemma {:induction false} LoopOutOthers(env: Env, net: Net, d: int, score: int, e: int)
    requires score >= 0 && e != d
    ensures TookOut(net, LoopOut(env, net, d, score).net, e, 0)
    decreases score
  {
    if score > 0 && Sendable(net, d) {
      SentStep(env, net, d, e);
      if Sent(env, net, d).n != 0 {
        LoopOutOthers(env, Sent(env, net, d).net, d, score - 1, e);
      }
    }
  }

  lemma {:induction false} PassOutServes(env: Env, net: Net, i: int, score: int, d: int)
    requires (forall n: nat :: env.link(d)(n)) && d < SLOTS && score >= |JoinedOut(net, i)|
    ensures TookOut(net, PassOut(env, net, i, score).net, d, if i <= d then |OutQ(net, d)| else 0)
    decreases SLOTS - i
  {
    if i < SLOTS {
      var a := LoopOut(env, net, i, score);
      SlotServes(env, net, i, score, d);
      PassOutServes(env, a.net, i + 1, a.n, d);
      TookTwiceOut(net, a.net, PassOut(env, a.net, i + 1, a.n).net, d,
                   if i == d then |OutQ(net, d)| else 0, if i + 1 <= d then |OutQ(a.net, d)| else 0);
    }
  }

  /** The turn of slot `i` leaves enough score for the later slots. */
  lemma SlotServes(env: Env, net: Net, i: int, score: int, d: int)
    requires (forall n: nat :: env.link(d)(n)) && i < SLOTS && score >= |JoinedOut(net, i)|
    ensures var a := LoopOut(env, net, i, score);
      && a.n >= |JoinedOut(a.net, i + 1)|
      && TookOut(net, a.net, d, if i == d then |OutQ(net, d)| else 0)
  {
    var a := LoopOut(env, net, i, score);
    LoopOutCounts(env, net, i, score, i);
    LoopOutConserves(env, net, i, score);
    forall e | e >= i + 1
      ensures OutQ(a.net, e) == OutQ(net, e)
    {
      LoopOutOthers(env, net, i, score, e);
    }
    JoinedOutLater(net, a.net, i + 1);
    if i == d {
      LoopOutServes(env, net, d, score);
    } else {
      LoopOutOthers(env, net, i, score, d);
    }
  }

  lemma LoopOutConserves(env: Env, net: Net, i: int, score: int)
    ensures var a := LoopOut(env, net, i, score);
      |SentBy(a.net, i)| - |SentBy(net, i)| <= |OutQ(net, i)|
  {
    var a := LoopOut(env, net, i, score);
    var ms := LoopOutTrace(env, [], net, i, score);
    TraceSentFrom(env, [], net, ms, i);
    assert |SentBy(a.net, i) + OutQ(a.net, i)| == |SentBy(net, i) + OutQ(net, i)|;
  }

  /**
   * With a score that covers all that waits, a device whose own sends succeed sends its whole
   * queue, however often the sends of the other devices fail.
   */
  lemma OwnLinkServes(env: Env, tbl: seq<Entry>, net: Net, s: int, d: int)
    requires (forall n: nat :: env.link(d)(n)) && 0 <= d < SLOTS && s > 0 && s >= |JoinedOut(net, 0)|
    ensures var net' := DevicesLoop(env, tbl, net, DIR_OUT, s).net;
      OutQ(net', d) == [] && SentBy(net', d) == SentBy(net, d) + OutQ(net, d)
  {
    var a := PassOut(env, net, 0, s);
    PassOutServes(env, net, 0, s, d);
    OutConserves(env, tbl, a.net, a.n - 1, d);
    assert SentBy(a.net, d) + [] == SentBy(a.net, d);
  }

  // ---------------------------------------------------------------- sends that succeed

  ghost predicate LinksUp(env: Env) {
    forall d: int, n: nat :: env.link(d)(n)
  }

  /** From `net` to `net'` device `d` has sent the first `k` frames of its queue, and no others. */
  ghost predicate TookOut(net: Net, net': Net, d: int, k: int) {
    && 0 <= k <= |OutQ(net, d)|
    && SentBy(net', d) == SentBy(net, d) + OutQ(net, d)[..k]
    && OutQ(net', d) == OutQ(net, d)[k..]
  }

  /** The part of a score `s` that goes to device `d` when the slots from `i` on are served in order. */
  function Share(net: Net, i: int, d: int, s: int): int
    decreases SLOTS - i
  {
    if i >= SLOTS then 0
    else if i == d then Min(s, |OutQ(net, i)|)
    else Share(net, i + 1, d, s - Min(s, |OutQ(net, i)|))
  }

  lemma {:induction false} ShareBounds(net: Net, i: int, d: int, s: int)
    requires s >= 0
    ensures 0 <= Share(net, i, d, s) <= |OutQ(net, d)|
    ensures d < i || d >= SLOTS ==> Share(net, i, d, s) == 0
    decreases SLOTS - i
  {
    if i < SLOTS && i != d {
      ShareBounds(net, i + 1, d, s - Min(s, |OutQ(net, i)|));
    }
  }

  lemma {:induction false} ShareSame(net: Net, net': Net, i: int, d: int, s: int)
    requires forall e | e >= i :: OutQ(net', e) == OutQ(net, e)
    ensures Share(net', i, d, s) == Share(net, i, d, s)
    decreases SLOTS - i
  {
    if i < SLOTS && i != d {
      ShareSame(net, net', i + 1, d, s - Min(s, |OutQ(net, i)|));
    }
  }

  lemma {:induction false} LoopOutClosed(env: Env, net: Net, d: int, score: int, e: int)
    requires LinksUp(env) && score >= 0
    ensures var r := LoopOut(env, net, d, score);
      var k := Min(score, |OutQ(net, d)|);
      r.n == score - k && TookOut(net, r.net, e, if e == d then k else 0)
    decreases score
  {
    if score <= 0 || !Sendable(net, d) {
    } else {
      assert env.link(d)(net.ports[d].attempts);
      var next := Sent(env, net, d).net;
      SentStep(env, net, d, e);
      SentStep(env, net, d, d);
      LoopOutClosed(env, next, d, score - 1, e);
      TookTwiceOut(net, next, LoopOut(env, next, d, score - 1).net, e,
                   if e == d then 1 else 0, if e == d then Min(score - 1, |OutQ(next, d)|) else 0);
    }
  }

  lemma TookTwiceOut(a: Net, b: Net, c: Net, d: int, k: int, l: int)
    requires TookOut(a, b, d, k) && TookOut(b, c, d, l)
    ensures TookOut(a, c, d, k + l)
  {
    TakeTwice(OutQ(a, d), k, l);
    Assoc(SentBy(a, d), OutQ(a, d)[..k], OutQ(b, d)[..l]);
  }

  lemma {:induction false} JoinedOutLater(net: Net, net': Net, i: int)
    requires forall e | e >= i :: OutQ(net', e) == OutQ(net, e)
    ensures JoinedOut(net', i) == JoinedOut(net, i)
    decreases SLOTS - i
  {
    if i >= SLOTS {
    } else {
      JoinedOutLater(net, net', i + 1);
    }
  }

  /** The share of device `d` in slot `i` and in the slots after it. */
  lemma ShareNext(net: Net, a: Net, b: Net, i: int, score: int, d: int)
    requires score >= 0 && i < SLOTS
    requires TookOut(net, a, d, if d == i then Min(score, |OutQ(net, i)|) else 0)
    requires forall e | e != i :: OutQ(a, e) == OutQ(net, e)
    requires TookOut(a, b, d, Share(a, i + 1, d, score - Min(score, |OutQ(net, i)|)))
    ensures TookOut(net, b, d, Share(net, i, d, score))
  {
    var left := score - Min(score, |OutQ(net, i)|);
    ShareSame(net, a, i + 1, d, left);
    ShareBounds(net, i + 1, d, left);
    TookTwiceOut(net, a, b, d, if d == i then Min(score, |OutQ(net, i)|) else 0, Share(net, i + 1, d, left));
  }

  /** One pass serves each device with its share. */
  lemma {:induction false} PassOutShare(env: Env, net: Net, i: int, score: int, d: int)
    requires LinksUp(env) && score >= 0
    ensures TookOut(net, PassOut(env, net, i, score).net, d, Share(net, i, d, score))
    decreases SLOTS - i
  {
    if i < SLOTS {
      var a := LoopOut(env, net, i, score);
      LoopOutAll(env, net, i, score);
      LoopOutClosed(env, net, i, score, d);
      PassOutShare(env, a.net, i + 1, a.n, d);
      ShareNext(net, a.net, PassOut(env, a.net, i + 1, a.n).net, i, score, d);
    }
  }

  lemma LoopOutAll(env: Env, net: Net, i: int, score: int)
    requires LinksUp(env) && score >= 0
    ensures var a := LoopOut(env, net, i, score);
      && a.n == score - Min(score, |OutQ(net, i)|)
      && TookOut(net, a.net, i, Min(score, |OutQ(net, i)|))
      && forall e | e != i :: OutQ(a.net, e) == OutQ(net, e)
  {
    var a := LoopOut(env, net, i, score);
    forall e | e != i
      ensures OutQ(a.net, e) == OutQ(net, e)
    {
      LoopOutClosed(env, net, i, score, e);
    }
    LoopOutClosed(env, net, i, score, i);
  }

  lemma JoinedNext(net: Net, a: Net, b: Net, i: int, score: int)
    requires score >= 0 && i < SLOTS
    requires var k := Min(score, |OutQ(net, i)|);
      && OutQ(b, i) == OutQ(net, i)[k..]
      && JoinedOut(b, i + 1) == JoinedOut(a, i + 1)[Min(score - k, |JoinedOut(a, i + 1)|)..]
    requires forall e | e != i :: OutQ(a, e) == OutQ(net, e)
    ensures JoinedOut(b, i) == JoinedOut(net, i)[Min(score, |JoinedOut(net, i)|)..]
    ensures |JoinedOut(net, i)| == |OutQ(net, i)| + |JoinedOut(a, i + 1)|
  {
    JoinedOutLater(net, a, i + 1);
    JoinTake([], OutQ(net, i), JoinedOut(net, i + 1), score);
  }

  /** And what remains is the joined queues without their first frames. */
  lemma {:induction false} PassOutClosed(env: Env, net: Net, i: int, score: int)
    requires LinksUp(env) && score >= 0
    ensures var r := PassOut(env, net, i, score);
      var k := Min(score, |JoinedOut(net, i)|);
      && r.n == score - k
      && JoinedOut(r.net, i) == JoinedOut(net, i)[k..]
      && (forall e | e < i :: OutQ(r.net, e) == OutQ(net, e))
    decreases SLOTS - i
  {
    if i >= SLOTS {
    } else {
      var a := LoopOut(env, net, i, score);
      LoopOutAll(env, net, i, score);
      PassOutClosed(env, a.net, i + 1, a.n);
      JoinedNext(net, a.net, PassOut(env, a.net, i + 1, a.n).net, i, score);
    }
  }

  lemma {:induction false} NothingJoined(net: Net, i: int, d: int)
    requires |JoinedOut(net, i)| == 0 && i <= d < SLOTS
    ensures OutQ(net, d) == []
    decreases SLOTS - i
  {
    if i < d {
      NothingJoined(net, i + 1, d);
    }
  }

  /**
   * The outgoing loop in closed form, for sends that succeed: from a positive score `s` it sends
   * exactly the first min(s, total) frames of the out-queues joined in slot order, that is from
   * each device the first frames of its queue, as many as its share of the score; and it returns
   * -1 if there were at least `s` frames and 0 otherwise.
   */
  lemma {:induction false} DevicesOutClosed(env: Env, tbl: seq<Entry>, net: Net, s: int, d: int)
    requires LinksUp(env) && s > 0
    ensures var r := DevicesLoop(env, tbl, net, DIR_OUT, s);
      && TookOut(net, r.net, d, Share(net, 0, d, s))
      && JoinedOut(r.net, 0) == JoinedOut(net, 0)[Min(s, |JoinedOut(net, 0)|)..]
      && r.n == (if |JoinedOut(net, 0)| >= s then -1 else 0)
    decreases s
  {
    var a := PassOut(env, net, 0, s);
    PassOutClosed(env, net, 0, s);
    PassOutShare(env, net, 0, s, d);
    if a.n - 1 > 0 {
      DevicesOutClosed(env, tbl, a.net, a.n - 1, d);
      ShareBounds(a.net, 0, d, a.n - 1);
      if 0 <= d < SLOTS {
        NothingJoined(a.net, 0, d);
      }
      TookTwiceOut(net, a.net, DevicesLoop(env, tbl, a.net, DIR_OUT, a.n - 1).net, d, Share(net, 0, d, s), 0);
    }
  }

  lemma JoinedOutLength(net: Net)
    ensures |JoinedOut(net, 0)| == |OutQ(net, 0)| + |OutQ(net, 1)| + |OutQ(net, 2)| + |OutQ(net, 3)|
  {
    assert JoinedOut(net, 4) == [];
    assert JoinedOut(net, 3) == OutQ(net, 3) + JoinedOut(net, 4);
    assert JoinedOut(net, 2) == OutQ(net, 2) + JoinedOut(net, 3);
    assert JoinedOut(net, 1) == OutQ(net, 1) + JoinedOut(net, 2);
  }

  /** Over all devices, min(s, total) frames were sent. */
  lemma OutSends(env: Env, tbl: seq<Entry>, net: Net, s: int)
    requires LinksUp(env) && s > 0
    ensures SentTotal(DevicesLoop(env, tbl, net, DIR_OUT, s).net) == SentTotal(net) + Min(s, |JoinedOut(net, 0)|)
  {
    DevicesOutClosed(env, tbl, net, s, 0);
    OutShrinks(env, tbl, net, s);
  }
}
