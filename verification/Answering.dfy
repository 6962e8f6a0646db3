/**
 * The firmware transfer over the PDU pipeline: its n-th answer is the n-th message that the
 * updater has taken from the firmware queue.
 */
module Answering {
  import opened Base
  import opened Stages
  import opened Ownership
  import opened Resting
  import Firmware

  /** What the receive calls of the updater yield in a run that has come to state `st`. */
  function WorldOf(st: State, stray: nat -> byte, enc: seq<byte> -> seq<byte>): Firmware.World
    requires Shape(st)
  {
    var taken := st.lanes[UPDATER].taken;
    Firmware.World((n: nat) => if n < |taken| then Some(taken[n].bytes) else None, stray, enc)
  }

  lemma {:induction false} AllAccepted(os: seq<Offer>)
    requires forall i | 0 <= i < |os| :: os[i].accepted
    ensures Accepted(os) == All(os)
  {
    if |os| > 0 {
      AllAccepted(os[..|os| - 1]);
    }
  }

  /**
   * After every interleaving the n-th answer is the n-th firmware frame that the firmware queue
   * accepted, with its bytes; and if that queue never refused one, it is the n-th firmware frame
   * among all frames the router has dealt with.
   */
  lemma Answered(tbl: seq<seq<byte>>, levels: nat, es: seq<Event>, stray: nat -> byte, enc: seq<byte> -> seq<byte>,
                 n: nat)
    requires n < |After(tbl, levels, es).lanes[UPDATER].taken|
    ensures var st := After(tbl, levels, es);
      var os := st.lanes[UPDATER].offers;
      && n < |Accepted(os)| && WorldOf(st, stray, enc).answers(n) == Some(Accepted(os)[n].bytes)
      && ((forall i | 0 <= i < |os| :: os[i].accepted) ==>
            && n < |Only(Update, Settled(st, ROUTER))|
            && WorldOf(st, stray, enc).answers(n) == Some(Only(Update, Settled(st, ROUTER))[n].bytes))
  {
    var st := After(tbl, levels, es);
    var os := st.lanes[UPDATER].offers;
    Delivered(tbl, levels, es, UPDATER);
    if forall i | 0 <= i < |os| :: os[i].accepted {
      AllAccepted(os);
    }
  }

  lemma OfferTaken(st: State, j: int, l: int, k: int)
    requires HandAt(st, j) && 0 <= l < TASKS && 0 <= k < TASKS
    ensures Offered(st, j, l).lanes[k].taken == st.lanes[k].taken
  {
  }

  lemma RouterTaken(tbl: seq<seq<byte>>, st: State, k: int)
    requires HandAt(st, ROUTER) && 0 <= k < TASKS
    ensures RouterStep(tbl, st).lanes[k].taken == st.lanes[k].taken
  {
    OfferTaken(st, ROUTER, GATEWAY, k);
    OfferTaken(st, ROUTER, UPDATER, k);
  }

  lemma ActTaken(tbl: seq<seq<byte>>, st: State, j: int, k: int)
    requires Shape(st) && 0 <= k < TASKS && Ready(st, j) && st.hands[j].Busy?
    ensures Act(tbl, st, j).lanes[k].taken == st.lanes[k].taken
  {
    if j == ROUTER {
      RouterTaken(tbl, st, k);
    }
    OfferTaken(st, j, ROUTER, k);
  }

  /** What a task has taken stays taken. */
  lemma StepTaken(tbl: seq<seq<byte>>, st: State, e: Event, k: int)
    requires Shape(st) && 0 <= k < TASKS
    ensures st.lanes[k].taken <= Step(tbl, st, e).lanes[k].taken
  {
    if e.Turn? && Ready(st, e.agent) && st.hands[e.agent].Busy? {
      ActTaken(tbl, st, e.agent, k);
    }
  }

  lemma {:induction false} RunTaken(tbl: seq<seq<byte>>, st: State, es: seq<Event>, k: int)
    requires Shape(st) && 0 <= k < TASKS
    ensures st.lanes[k].taken <= Run(tbl, st, es).lanes[k].taken
  {
    if |es| > 0 {
      RunTaken(tbl, st, es[..|es| - 1], k);
      StepTaken(tbl, Run(tbl, st, es[..|es| - 1]), es[|es| - 1], k);
    }
  }

  /** A first message that is no answer to a reset ends the transfer, unsuccessfully. */
  lemma FirstFails(st: State, stray: nat -> byte, enc: seq<byte> -> seq<byte>, file: seq<byte>, secure: bool)
    requires Shape(st) && |st.lanes[UPDATER].taken| > 0
    requires Firmware.At(stray, st.lanes[UPDATER].taken[0].bytes, 0) != Firmware.RESET_ACK
    ensures Firmware.Ended(WorldOf(st, stray, enc), 0, file, secure, 1, false)
  {
    assert WorldOf(st, stray, enc).answers(0) == Some(st.lanes[UPDATER].taken[0].bytes);
  }

  /**
   * One firmware frame that arrives before a transfer begins, be it a perfectly good
   * acknowledgement, fails the transfer at its first message, whatever file is sent and whatever
   * happens from then on.
   */
  lemma StaleFails(tbl: seq<seq<byte>>, at: int, more: seq<Event>, stray: nat -> byte, enc: seq<byte> -> seq<byte>,
                   file: seq<byte>, secure: bool)
    ensures var m := Message(0x0400_0000, [Firmware.FRAME_ACK]);
      var st := Run(tbl, Initial(1), [Interrupt(3, m, Some(at)), Turn(3), Turn(ROUTER), Turn(ROUTER)]);
      var taken := Act(tbl, Step(tbl, st, Begin), UPDATER);
      Firmware.Ended(WorldOf(Run(tbl, taken, more), stray, enc), 0, file, secure, 1, false)
  {
    var m := Message(0x0400_0000, [Firmware.FRAME_ACK]);
    var st := Run(tbl, Initial(1), [Interrupt(3, m, Some(at)), Turn(3), Turn(ROUTER), Turn(ROUTER)]);
    var taken := Act(tbl, Step(tbl, st, Begin), UPDATER);
    StaleAnswer(tbl, at);
    RunTaken(tbl, taken, more, UPDATER);
    FirstFails(Run(tbl, taken, more), stray, enc, file, secure);
  }
}
