/**
 * Every service loop is a sequence of single moves, each of which routes or transmits one frame.
 * What all moves keep, all loops keep.
 */
module Traces {
  import opened Base
  import opened Routing

  datatype Move = Route(dev: int) | Transmit(dev: int)

  /** One move; without a frame to move nothing happens. */
  function Moved(env: Env, tbl: seq<Entry>, net: Net, mv: Move): Net {
    match mv
    case Route(d) => if Pending(net, d) then Handled(env, tbl, net, d).net else net
    case Transmit(d) => if Sendable(net, d) then Sent(env, net, d).net else net
  }

  function Traced(env: Env, tbl: seq<Entry>, net: Net, ms: seq<Move>): Net
    decreases |ms|
  {
    if |ms| == 0 then net else Traced(env, tbl, Moved(env, tbl, net, ms[0]), ms[1..])
  }

  predicate Routes(ms: seq<Move>) {
    forall i | 0 <= i < |ms| :: ms[i].Route?
  }

  predicate Transmits(ms: seq<Move>) {
    forall i | 0 <= i < |ms| :: ms[i].Transmit?
  }

  lemma TracedFirst(env: Env, tbl: seq<Entry>, net: Net, mv: Move, ms: seq<Move>)
    ensures Traced(env, tbl, net, [mv] + ms) == Traced(env, tbl, Moved(env, tbl, net, mv), ms)
  {
    assert ([mv] + ms)[1..] == ms;
  }

  lemma {:induction false} TracedConcat(env: Env, tbl: seq<Entry>, net: Net, a: seq<Move>, b: seq<Move>)
    ensures Traced(env, tbl, net, a + b) == Traced(env, tbl, Traced(env, tbl, net, a), b)
    decreases |a|
  {
    if |a| == 0 {
      assert a + b == b;
    } else {
      assert (a + b)[1..] == a[1..] + b;
      TracedConcat(env, tbl, Moved(env, tbl, net, a[0]), a[1..], b);
    }
  }

  lemma {:induction false} LoopInTrace(env: Env, tbl: seq<Entry>, net: Net, d: int, score: int) returns (ms: seq<Move>)
    ensures Routes(ms) && Traced(env, tbl, net, ms) == LoopIn(env, tbl, net, d, score).net
    decreases score
  {
    if score <= 0 || !Pending(net, d) {
      ms := [];
    } else {
      var rest := LoopInTrace(env, tbl, Handled(env, tbl, net, d).net, d, score - 1);
      TracedFirst(env, tbl, net, Route(d), rest);
      ms := [Route(d)] + rest;
    }
  }

  lemma {:induction false} LoopOutTrace(env: Env, tbl: seq<Entry>, net: Net, d: int, score: int) returns (ms: seq<Move>)
    ensures Transmits(ms) && Traced(env, tbl, net, ms) == LoopOut(env, net, d, score).net
    decreases score
  {
    if score <= 0 || !Sendable(net, d) {
      ms := [];
    } else {
      var rest := [];
      if Sent(env, net, d).n != 0 {
        rest := LoopOutTrace(env, tbl, Sent(env, net, d).net, d, score - 1);
      }
      TracedFirst(env, tbl, net, Transmit(d), rest);
      ms := [Transmit(d)] + rest;
    }
  }

  lemma {:induction false} PassInTrace(env: Env, tbl: seq<Entry>, net: Net, i: int, score: int) returns (ms: seq<Move>)
    ensures Routes(ms) && Traced(env, tbl, net, ms) == PassIn(env, tbl, net, i, score).net
    decreases SLOTS - i
  {
    ms := [];
    if i < SLOTS {
      var r := LoopIn(env, tbl, net, i, score);
      var a := LoopInTrace(env, tbl, net, i, score);
      var b := PassInTrace(env, tbl, r.net, i + 1, r.n);
      TracedConcat(env, tbl, net, a, b);
      ms := a + b;
    }
  }

  lemma {:induction false} PassOutTrace(env: Env, tbl: seq<Entry>, net: Net, i: int, score: int) returns (ms: seq<Move>)
    ensures Transmits(ms) && Traced(env, tbl, net, ms) == PassOut(env, net, i, score).net
    decreases SLOTS - i
  {
    ms := [];
    if i < SLOTS {
      var r := LoopOut(env, net, i, score);
      var a := LoopOutTrace(env, tbl, net, i, score);
      var b := PassOutTrace(env, tbl, r.net, i + 1, r.n);
      TracedConcat(env, tbl, net, a, b);
      ms := a + b;
    }
  }

  /** Incoming loops only route, outgoing loops only transmit. */
  lemma {:induction false} DevicesTrace(env: Env, tbl: seq<Entry>, net: Net, dir: int, score: int)
    returns (ms: seq<Move>)
    ensures Traced(env, tbl, net, ms) == DevicesLoop(env, tbl, net, dir, score).net
    ensures if dir == DIR_IN then Routes(ms) else Transmits(ms)
    decreases score
  {
    ms := [];
    if score > 0 {
      var r := Pass(env, tbl, net, dir, score);
      var a := [];
      if dir == DIR_IN {
        a := PassInTrace(env, tbl, net, 0, score);
      } else if dir == DIR_OUT {
        a := PassOutTrace(env, tbl, net, 0, score);
      }
      var b := DevicesTrace(env, tbl, r.net, dir, r.n - 1);
      TracedConcat(env, tbl, net, a, b);
      ms := a + b;
    }
  }

  lemma {:induction false} RouterTrace(env: Env, tbl: seq<Entry>, net: Net, d: int, score: int) returns (ms: seq<Move>)
    ensures Routes(ms) && Traced(env, tbl, net, ms) == RouterLoop(env, tbl, net, d, score).net
    decreases score, 1
  {
    if score <= 0 || !Pending(net, d) {
      ms := [];
    } else {
      var rest := RouterNext(env, tbl, net, d, score);
      ms := [Route(d)] + rest;
    }
  }

  lemma RouterNext(env: Env, tbl: seq<Entry>, net: Net, d: int, score: int) returns (rest: seq<Move>)
    requires score > 0 && Pending(net, d)
    ensures Routes(rest) && Traced(env, tbl, net, [Route(d)] + rest) == RouterLoop(env, tbl, net, d, score).net
    decreases score, 0
  {
    var r := Handled(env, tbl, net, d);
    HandledNatural(env, tbl, net, d);
    rest := RouterTrace(env, tbl, r.net, d, score - r.n - 1);
    TracedFirst(env, tbl, net, Route(d), rest);
  }

  lemma HandledNatural(env: Env, tbl: seq<Entry>, net: Net, d: int)
    requires Pending(net, d)
    ensures Handled(env, tbl, net, d).n >= 0
  {
    CopiesNatural(env, Pulled(net, d), Dests(tbl, net.ports[d].inq[0].id), net.ports[d].inq[0]);
  }

  /** A service call of any kind. */
  predicate Serves(e: Event) {
    e.Service? || e.RunRouter?
  }

  lemma ServiceTrace(env: Env, tbl: seq<Entry>, net: Net, e: Event) returns (ms: seq<Move>)
    requires Serves(e)
    ensures Traced(env, tbl, net, ms) == Step(env, tbl, net, e)
  {
    if e.Service? {
      ms := DevicesTrace(env, tbl, net, e.dir, e.score);
    } else {
      ms := RouterTrace(env, tbl, net, e.dev, e.score);
    }
  }
}
