/** What the incoming loops amount to: how far a score goes and in which order frames are routed. */
module Scheduling {
  import opened Base
  import opened Frames
  import opened Queues
  import opened Routing
  import opened Traces
  import opened Delivery

  /** The in-queues of the slots from `i` on, joined in slot order. */
  function JoinedIn(net: Net, i: int): seq<Packet>
    decreases SLOTS - i
  {
    if i >= SLOTS then [] else InQ(net, i) + JoinedIn(net, i + 1)
  }

  // ---------------------------------------------------------------- taking from joined queues

  /** Taking up to `s` frames from two queues in turn is taking them from the joined queue. */
  lemma JoinTake<T>(r: seq<T>, a: seq<T>, b: seq<T>, s: nat)
    ensures var k := Min(s, |a|);
      var l := Min(s - k, |b|);
      && k + l == Min(s, |a + b|)
      && r + a[..k] + b[..l] == r + (a + b)[..k + l]
      && a[k..] + b[l..] == (a + b)[k + l..]
  {
    var k := Min(s, |a|);
    var l := Min(s - k, |b|);
    assert l == 0 || k == |a|;
    assert a[..k] + b[..l] == (a + b)[..k + l];
    Assoc(r, a[..k], b[..l]);
  }

  lemma TakeTwice<T>(q: seq<T>, k: nat, l: nat)
    requires k + l <= |q|
    ensures q[..k] + q[k..][..l] == q[..k + l] && q[k..][l..] == q[k + l..]
  {
  }

  // ---------------------------------------------------------------- the incoming loop

  lemma HandleInQ(env: Env, tbl: seq<Entry>, net: Net, d: int, e: int)
    requires Pending(net, d)
    ensures var r := Handled(env, tbl, net, d);
      && r.net.routed == net.routed + [InQ(net, d)[0]]
      && InQ(r.net, e) == (if e == d then InQ(net, d)[1..] else InQ(net, e))
      && (e in r.net.ports <==> e in net.ports)
  {
    var p := net.ports[d].inq[0];
    OffersInQ(env, Pulled(net, d), Dests(tbl, p.id), p, e);
  }

  /** devloop_in handles exactly as many frames of its device as the score allows, from the front. */
  lemma {:induction false} LoopInClosed(env: Env, tbl: seq<Entry>, net: Net, d: int, score: int, e: int)
    requires score >= 0
    ensures var r := LoopIn(env, tbl, net, d, score);
      var k := Min(score, |InQ(net, d)|);
      && r.n == score - k
      && r.net.routed == net.routed + InQ(net, d)[..k]
      && InQ(r.net, e) == if e == d then InQ(net, d)[k..] else InQ(net, e)
    decreases score
  {
    var q := InQ(net, d);
    if score <= 0 || !Pending(net, d) {
    } else {
      var h := Handled(env, tbl, net, d).net;
      HandleInQ(env, tbl, net, d, e);
      HandleInQ(env, tbl, net, d, d);
      LoopInClosed(env, tbl, h, d, score - 1, e);
      TakeTwice(q, 1, Min(score - 1, |q| - 1));
      assert q[..1] == [q[0]];
      Assoc(net.routed, [q[0]], q[1..][..Min(score - 1, |q| - 1)]);
    }
  }

  /** The later slots are as they were. */
  lemma {:induction false} JoinedInLater(net: Net, net': Net, i: int)
    requires forall e | e >= i :: InQ(net', e) == InQ(net, e)
    ensures JoinedIn(net', i) == JoinedIn(net, i)
    decreases SLOTS - i
  {
    if i >= SLOTS {
    } else {
      JoinedInLater(net, net', i + 1);
    }
  }

  /** From `net` to `net'` the first `k` frames waiting from slot `i` on were routed, and no others. */
  ghost predicate TookIn(net: Net, net': Net, i: int, k: int) {
    && 0 <= k <= |JoinedIn(net, i)|
    && net'.routed == net.routed + JoinedIn(net, i)[..k]
    && JoinedIn(net', i) == JoinedIn(net, i)[k..]
    && (forall e | e < i :: InQ(net', e) == InQ(net, e))
  }

  /** Likewise for slot `i` alone. */
  ghost predicate TookAt(net: Net, net': Net, i: int, k: int) {
    && 0 <= k <= |InQ(net, i)|
    && net'.routed == net.routed + InQ(net, i)[..k]
    && InQ(net', i) == InQ(net, i)[k..]
    && (forall e | e != i :: InQ(net', e) == InQ(net, e))
  }

  lemma LoopInTook(env: Env, tbl: seq<Entry>, net: Net, i: int, score: int)
    requires 0 <= score
    ensures TookAt(net, LoopIn(env, tbl, net, i, score).net, i, Min(score, |InQ(net, i)|))
    ensures LoopIn(env, tbl, net, i, score).n == score - Min(score, |InQ(net, i)|)
  {
    var a := LoopIn(env, tbl, net, i, score);
    forall e | e != i
      ensures InQ(a.net, e) == InQ(net, e)
    {
      LoopInClosed(env, tbl, net, i, score, e);
    }
    LoopInClosed(env, tbl, net, i, score, i);
  }

  /** Slot `i` first, then the slots after it. */
  lemma TookBoth(net: Net, a: Net, b: Net, i: int, score: nat)
    requires i < SLOTS && TookAt(net, a, i, Min(score, |InQ(net, i)|))
    requires TookIn(a, b, i + 1, Min(score - Min(score, |InQ(net, i)|), |JoinedIn(a, i + 1)|))
    ensures JoinedIn(a, i + 1) == JoinedIn(net, i + 1)
    ensures TookIn(net, b, i, Min(score, |JoinedIn(net, i)|))
  {
    JoinedInLater(net, a, i + 1);
    JoinTake(net.routed, InQ(net, i), JoinedIn(net, i + 1), score);
  }

  /** One pass handles the first frames of the joined in-queues. */
  lemma {:induction false} PassInClosed(env: Env, tbl: seq<Entry>, net: Net, i: int, score: int)
    requires score >= 0
    ensures TookIn(net, PassIn(env, tbl, net, i, score).net, i, Min(score, |JoinedIn(net, i)|))
    ensures PassIn(env, tbl, net, i, score).n == score - Min(score, |JoinedIn(net, i)|)
    decreases SLOTS - i
  {
    if i >= SLOTS {
    } else {
      var a := LoopIn(env, tbl, net, i, score);
      LoopInTook(env, tbl, net, i, score);
      PassInClosed(env, tbl, a.net, i + 1, a.n);
      TookBoth(net, a.net, PassIn(env, tbl, a.net, i + 1, a.n).net, i, score);
    }
  }

  /**
   * The incoming loop in closed form: from a positive score `s` it handles exactly the first
   * min(s, total) frames of the in-queues joined in slot order, and returns -1 if there were at
   * least `s` of them and 0 otherwise.
   */
  lemma {:induction false} DevicesInClosed(env: Env, tbl: seq<Entry>, net: Net, s: int)
    requires s > 0
    ensures TookIn(net, DevicesLoop(env, tbl, net, DIR_IN, s).net, 0, Min(s, |JoinedIn(net, 0)|))
    ensures DevicesLoop(env, tbl, net, DIR_IN, s).n == if |JoinedIn(net, 0)| >= s then -1 else 0
    decreases s
  {
    var a := PassIn(env, tbl, net, 0, s);
    PassInClosed(env, tbl, net, 0, s);
    if a.n - 1 > 0 {
      DevicesInClosed(env, tbl, a.net, a.n - 1);
      TookTwice(net, a.net, DevicesLoop(env, tbl, a.net, DIR_IN, a.n - 1).net, |JoinedIn(net, 0)|, 0);
    }
  }

  lemma TookTwice(net: Net, a: Net, b: Net, k: nat, l: nat)
    requires TookIn(net, a, 0, k) && TookIn(a, b, 0, l)
    ensures TookIn(net, b, 0, k + l)
  {
    TakeTwice(JoinedIn(net, 0), k, l);
    Assoc(net.routed, JoinedIn(net, 0)[..k], JoinedIn(a, 0)[..l]);
  }

  // ---------------------------------------------------------------- the router loop

  function KeptAt(net: Net, d: int): int {
    if d in net.ports then |Delivery.Kept(net.ports[d].offers)| else 0
  }

  /** Copies accepted by out-queues so far, over all slots. */
  function KeptTotal(net: Net): int {
    KeptAt(net, 0) + KeptAt(net, 1) + KeptAt(net, 2) + KeptAt(net, 3)
  }

  ghost predicate InSlots(net: Net) {
    forall d | d in net.ports :: 0 <= d < SLOTS
  }

  lemma OfferKept(env: Env, net: Net, i: int, p: Packet, d: int)
    ensures KeptAt(Offered(env, net, i, p).net, d) == KeptAt(net, d) + if d == i then Offered(env, net, i, p).n else 0
  {
    if i in net.ports {
      OfferPush(net.ports[i].offers, Offer(p, Judged(env, net, i), |net.ports[i].gone|, net.tick, net.used));
    }
  }

  lemma {:induction false} OfferAllKept(env: Env, net: Net, ds: seq<byte>, p: Packet)
    requires InSlots(net)
    ensures var r := OfferedAll(env, net, ds, p);
      && InSlots(r.net) && r.n == KeptTotal(r.net) - KeptTotal(net) && r.net.routed == net.routed
  {
    if |ds| == 0 {
    } else {
      OfferAllKept(env, net, ds[..|ds| - 1], p);
      var a := OfferedAll(env, net, ds[..|ds| - 1], p).net;
      var i := ds[|ds| - 1] as int;
      OfferKept(env, a, i, p, 0);
      OfferKept(env, a, i, p, 1);
      OfferKept(env, a, i, p, 2);
      OfferKept(env, a, i, p, 3);
    }
  }

  lemma HandleKept(env: Env, tbl: seq<Entry>, net: Net, d: int)
    requires InSlots(net) && Pending(net, d)
    ensures var r := Handled(env, tbl, net, d);
      && InSlots(r.net) && r.n == KeptTotal(r.net) - KeptTotal(net) && r.n >= 0
      && |r.net.routed| == |net.routed| + 1
  {
    var p := net.ports[d].inq[0];
    OfferAllKept(env, Pulled(net, d), Dests(tbl, p.id), p);
    CopiesNatural(env, Pulled(net, d), Dests(tbl, p.id), p);
    assert KeptTotal(Pulled(net, d)) == KeptTotal(net);
  }

  /** The router loop pays one point for each frame routed and one for each copy accepted. */
  lemma {:induction false} RouterAccounting(env: Env, tbl: seq<Entry>, net: Net, d: int, score: int)
    requires InSlots(net)
    ensures var r := Routing.RouterLoop(env, tbl, net, d, score);
      && r.n == score - (|r.net.routed| - |net.routed|) - (KeptTotal(r.net) - KeptTotal(net))
      && (r.n > 0 ==> !Pending(r.net, d))
    decreases score
  {
    if score <= 0 || !Pending(net, d) {
    } else {
      HandleKept(env, tbl, net, d);
      var r := Handled(env, tbl, net, d);
      RouterAccounting(env, tbl, r.net, d, score - r.n - 1);
    }
  }

  /**
   * It starts its last frame with a positive score, so that it ends at most as far below zero
   * as that frame had copies accepted; before that it has routed other frames of the same device.
   */
  lemma {:induction false} RouterOvershoot(env: Env, tbl: seq<Entry>, net: Net, d: int, score: int)
    returns (ms: seq<Move>, before: Net, left: int)
    requires InSlots(net) && score > 0 && Pending(net, d)
    ensures before == Traced(env, tbl, net, ms) && forall i | 0 <= i < |ms| :: ms[i] == Route(d)
    ensures |before.routed| == |net.routed| + |ms|
    ensures left == score - |ms| - (KeptTotal(before) - KeptTotal(net)) && left > 0 && Pending(before, d)
    ensures Routing.RouterLoop(env, tbl, net, d, score).net == Handled(env, tbl, before, d).net
    ensures Routing.RouterLoop(env, tbl, net, d, score).n == left - Handled(env, tbl, before, d).n - 1
    ensures Routing.RouterLoop(env, tbl, net, d, score).n >= -Handled(env, tbl, before, d).n
    decreases score
  {
    HandleKept(env, tbl, net, d);
    var r := Handled(env, tbl, net, d);
    var rest := score - r.n - 1;
    if rest <= 0 || !Pending(r.net, d) {
      ms, before, left := [], net, score;
    } else {
      var more;
      more, before, left := RouterOvershoot(env, tbl, r.net, d, rest);
      TracedFirst(env, tbl, net, Route(d), more);
      ms := [Route(d)] + more;
    }
  }
}
