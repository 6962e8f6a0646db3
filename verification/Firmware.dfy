/**
 * CAN_updateFirmware of _old/Framework/interfaces/can/can.c: a stop-and-wait transfer of a
 * firmware file to an ECU, in padded, nonced and encrypted frames.
 */
module Firmware {
  import opened Base

  const DATA_SIZE: nat := 48     // FW_DATA_SIZE
  const CMAC_SIZE: nat := 16     // FW_CMAC_SIZE
  const MSG_SIZE: nat := 64

  const RESET_CMD: byte := 0xFF
  const RESET_ACK: byte := 0xC4
  const BEGIN_SEC: byte := 0xFC
  const BEGIN_NONSEC: byte := 0xFA
  const READY: byte := 0xFF      // answer to BEGIN_NONSEC
  const FRAME_ACK: byte := 0xC3
  const END_CMD: byte := 0xFD
  const END_ACK: byte := 0xC1

  /** A payload from the firmware queue; reading past its end yields whatever `stray` holds. */
  function At(stray: nat -> byte, data: seq<byte>, i: nat): byte {
    if i < |data| then data[i] else stray(i)
  }

  // ---------------------------------------------------------------- what is sent

  /** Data frames needed for `n` bytes. */
  function Frames(n: nat): nat {
    if n == 0 then 0 else if n <= DATA_SIZE then 1 else 1 + Frames(n - DATA_SIZE)
  }

  /** There is a `k`-th part exactly if the file goes on there. */
  lemma {:induction false} FramesBound(n: nat, k: nat)
    ensures k < Frames(n) <==> k * DATA_SIZE < n
  {
    if n > DATA_SIZE && k > 0 {
      FramesBound(n - DATA_SIZE, k - 1);
    }
  }

  /** Which makes their number n / 48, rounded up. */
  lemma {:induction false} FramesCeiling(n: nat)
    ensures Frames(n) == (n + DATA_SIZE - 1) / DATA_SIZE
  {
    if n > DATA_SIZE {
      FramesCeiling(n - DATA_SIZE);
    }
  }

  /** Where the file's cursor is before the `j`-th part, and how many bytes of the file that part has. */
  function Cursor(n: nat, j: nat): nat {
    Min(j * DATA_SIZE, n)
  }

  function Length(n: nat, j: nat): nat {
    Min(DATA_SIZE, n - Cursor(n, j))
  }

  /** The `k`-th part of the file, filled up with zeros. */
  function Part(file: seq<byte>, k: nat): (r: seq<byte>)
    ensures |r| == DATA_SIZE
  {
    seq(DATA_SIZE, i requires 0 <= i => if k * DATA_SIZE + i < |file| then file[k * DATA_SIZE + i] else 0)
  }

  /** A transfer as the two ends agree on it. */
  datatype Session = Session(file: seq<byte>, secure: bool, nonce: seq<byte>, enc: seq<byte> -> seq<byte>)

  /** The `i`-th message of a complete transfer: RESET, BEGIN, the data frames, END. */
  function Message(s: Session, i: nat): seq<byte> {
    if i == 0 then [RESET_CMD]
    else if i == 1 then [if s.secure then BEGIN_SEC else BEGIN_NONSEC]
    else if i < 2 + Frames(|s.file|) then s.enc(Part(s.file, i - 2) + s.nonce)
    else [END_CMD]
  }

  /** The first `n` messages. */
  function Messages(s: Session, n: nat): seq<seq<byte>> {
    if n == 0 then [] else Messages(s, n - 1) + [Message(s, n - 1)]
  }

  lemma {:induction false} MessagesAt(s: Session, n: nat, i: nat)
    requires i < n
    ensures |Messages(s, n)| == n && Messages(s, n)[i] == Message(s, i)
    ensures i == 0 ==> Messages(s, n)[i] == [0xFF]
    ensures i == 1 ==> Messages(s, n)[i] == [if s.secure then 0xFC else 0xFA]
    ensures i >= 2 && (i - 2) * 48 < |s.file| ==> Messages(s, n)[i] == s.enc(Part(s.file, i - 2) + s.nonce)
    ensures i >= 2 && (i - 2) * 48 >= |s.file| ==> Messages(s, n)[i] == [0xFD]
  {
    if i >= 2 {
      FramesBound(|s.file|, i - 2);
    }
    if n > 1 {
      MessagesAt(s, n - 1, if i < n - 1 then i else 0);
    }
  }

  /** How many messages a complete transfer has. */
  function Total(file: seq<byte>): nat {
    Frames(|file|) + 3
  }

  // ---------------------------------------------------------------- what is answered

  /** Everything outside the updater: answers to its n-th receive call, None for a timeout. */
  datatype World = World(answers: nat -> Option<seq<byte>>, stray: nat -> byte, enc: seq<byte> -> seq<byte>)

  /** Whether the answer to the `i`-th message lets the transfer go on. */
  predicate Acked(w: World, first: nat, file: seq<byte>, secure: bool, i: nat) {
    var answer := w.answers(first + i);
    && answer.Some?
    && var code := At(w.stray, answer.value, 0);
       if i == 0 then code == RESET_ACK
       else if i == 1 then secure || code == READY
       else if i < 2 + Frames(|file|) then code == FRAME_ACK
       else code == END_ACK
  }

  /** The answers to the first `k` messages all let the transfer go on. */
  ghost predicate AllAcked(w: World, first: nat, file: seq<byte>, secure: bool, k: int) {
    forall i {:trigger Acked(w, first, file, secure, i)} | 0 <= i < k :: Acked(w, first, file, secure, i)
  }

  lemma AckedNext(w: World, first: nat, file: seq<byte>, secure: bool, k: nat)
    requires AllAcked(w, first, file, secure, k) && Acked(w, first, file, secure, k)
    ensures AllAcked(w, first, file, secure, k + 1)
  {
  }

  /** The 16 bytes every data frame ends with: the ECU's random number, or zeros. */
  function Nonce(w: World, first: nat, secure: bool): (r: seq<byte>)
    ensures |r| == CMAC_SIZE
  {
    var answer := w.answers(first + 1);
    seq(CMAC_SIZE, i requires 0 <= i => if secure && answer.Some? then At(w.stray, answer.value, i) else 0)
  }

  /** The nonce is the first 16 bytes of the answer to BEGIN if the transfer is secure, and zero otherwise. */
  lemma NonceIs(w: World, first: nat, secure: bool)
    ensures !secure ==> Nonce(w, first, secure) == seq(16, _ => 0)
    ensures secure && w.answers(first + 1).Some? && |w.answers(first + 1).value| >= 16 ==>
      Nonce(w, first, secure) == w.answers(first + 1).value[..16]
  {
  }

  function SessionOf(w: World, first: nat, file: seq<byte>, secure: bool): Session {
    Session(file, secure, Nonce(w, first, secure), w.enc)
  }

  /** What the `n`-th receive call returns: pdTRUE for a payload, pdFALSE for a timeout. */
  const PD_TRUE: int := 1
  const PD_FALSE: int := 0

  function QueueStatus(w: World, n: nat): int {
    if w.answers(n).Some? then PD_TRUE else PD_FALSE
  }

  /** The receive calls from `a` up to `b` that yielded a payload. */
  function Payloads(w: World, a: nat, b: nat): seq<nat>
    requires a <= b
    decreases b
  {
    if a == b then [] else Payloads(w, a, b - 1) + if w.answers(b - 1).Some? then [b - 1] else []
  }

  /** They are these calls, each once and in their order. */
  lemma {:induction false} PayloadsAre(w: World, a: nat, b: nat, n: nat)
    requires a <= b
    ensures n in Payloads(w, a, b) <==> a <= n < b && w.answers(n).Some?
    ensures forall i, j | 0 <= i < j < |Payloads(w, a, b)| :: Payloads(w, a, b)[i] < Payloads(w, a, b)[j]
    ensures forall i | 0 <= i < |Payloads(w, a, b)| :: Payloads(w, a, b)[i] < b
    decreases b
  {
    if a < b {
      PayloadsAre(w, a, b - 1, n);
    }
  }

  /** How a transfer of which `k` messages were sent may end. */
  ghost predicate Ended(w: World, first: nat, file: seq<byte>, secure: bool, k: nat, ok: bool) {
    && 1 <= k <= Total(file)
    && AllAcked(w, first, file, secure, k - 1)
    && (ok <==> Acked(w, first, file, secure, k - 1))
    && (ok ==> k == Total(file))
  }

  /** The state a transfer started from, and what its two ends agree on. */
  datatype Transfer = Transfer(first: nat, wire: seq<seq<byte>>, freed: seq<nat>, s: Session)

  class Updater {
    const world: World
    var asked: nat                // receive calls made
    var wire: seq<seq<byte>>      // messages sent
    var freed: seq<nat>           // payloads freed, by the receive call that yielded them

    constructor (world: World)
      ensures this.world == world && asked == 0 && wire == [] && freed == []
    {
      this.world, asked, wire, freed := world, 0, [], [];
    }

    /** CAN_sendFrame of the first `len` bytes of the buffer. */
    method SendFrame(buffer: array<byte>, len: nat)
      requires len <= buffer.Length
      modifies `wire
      ensures wire == old(wire) + [buffer[..len]]
    {
      wire := wire + [buffer[..len]];
    }

    /** xQueueReceive with a timeout. */
    method Receive() returns (stat: int, pdu: Option<seq<byte>>)
      modifies `asked
      ensures asked == old(asked) + 1 && pdu == world.answers(old(asked)) && stat == QueueStatus(world, old(asked))
    {
      pdu := world.answers(asked);
      stat := if pdu.Some? then PD_TRUE else PD_FALSE;
      asked := asked + 1;
    }

    /** Frees the payload of the last receive call, if it yielded one. */
    method Release(pdu: Option<seq<byte>>)
      requires asked > 0 && pdu == world.answers(asked - 1)
      modifies `freed
      ensures freed == old(freed) + if pdu.Some? then [asked - 1] else []
    {
      if pdu.Some? {
        freed := freed + [asked - 1];
      }
    }

    /** f_read of the `j`-th part: up to 48 bytes from the cursor; fewer only at the end of the file. */
    method Read(file: seq<byte>, pos: nat, buffer: array<byte>, ghost j: nat) returns (br: nat)
      requires pos == Cursor(|file|, j) && buffer.Length == MSG_SIZE
      modifies buffer
      ensures br == Length(|file|, j) && pos + br == Cursor(|file|, j + 1)
      ensures br == 0 <==> j >= Frames(|file|)
      ensures forall i | 0 <= i < br :: buffer[i] == Part(file, j)[i]
    {
      br := Min(DATA_SIZE, |file| - pos);
      FramesBound(|file|, j);
      var i := 0;
      while i < br
        invariant 0 <= i <= br
        invariant forall k | 0 <= k < i :: buffer[k] == file[pos + k]
      {
        buffer[i] := file[pos + i];
        i := i + 1;
      }
    }

    /** Pads the `br` bytes just read, appends the nonce and encrypts the buffer in place. */
    method Seal(br: nat, rnd: seq<byte>, buffer: array<byte>, ghost file: seq<byte>, ghost j: nat)
      requires |rnd| == CMAC_SIZE && buffer.Length == MSG_SIZE && br == Length(|file|, j)
      requires forall i | 0 <= i < br :: buffer[i] == Part(file, j)[i]
      requires forall x | |x| == MSG_SIZE :: |world.enc(x)| == MSG_SIZE
      modifies buffer
      ensures buffer[..] == world.enc(Part(file, j) + rnd)
    {
      var i := br;
      while i < DATA_SIZE
        invariant br <= i <= DATA_SIZE
        invariant forall k | 0 <= k < i :: buffer[k] == Part(file, j)[k]
      {
        buffer[i] := 0;
        i := i + 1;
      }
      i := 0;
      while i < CMAC_SIZE
        invariant 0 <= i <= CMAC_SIZE
        invariant forall k | 0 <= k < DATA_SIZE :: buffer[k] == Part(file, j)[k]
        invariant forall k | 0 <= k < i :: buffer[DATA_SIZE + k] == rnd[k]
      {
        buffer[DATA_SIZE + i] := rnd[i];
        i := i + 1;
      }
      assert buffer[..] == Part(file, j) + rnd;
      var secret := world.enc(buffer[..]);
      forall k | 0 <= k < MSG_SIZE {
        buffer[k] := secret[k];
      }
    }

    /** Since `t` began, `k` messages have been exchanged, and all payloads received have been freed. */
    ghost predicate Exchanged(t: Transfer, k: nat)
      reads this
    {
      && asked == t.first + k
      && wire == t.wire + Messages(t.s, k)
      && freed == t.freed + Payloads(world, t.first, asked)
    }

    /** Likewise at an early exit, which as written keeps the payload received last. */
    ghost predicate Stopped(t: Transfer, k: nat, asWritten: bool, stat: int)
      reads this
    {
      && k > 0 && asked == t.first + k
      && wire == t.wire + Messages(t.s, k)
      && freed == t.freed + Payloads(world, t.first, if asWritten then asked - 1 else asked)
      && stat == QueueStatus(world, asked - 1)
    }

    /**
     * Sends the next message and waits for an answer, which has to begin with `want` if there is
     * a `want`. Repair: the payload received is freed in any case; as written, only if it was
     * what was waited for. `stat` is the result of the queue call.
     */
    method Exchange(buffer: array<byte>, len: nat, want: Option<byte>, asWritten: bool, ghost t: Transfer, ghost k: nat)
      returns (ok: bool, stat: int, random: seq<byte>)
      requires Exchanged(t, k)
      requires len <= buffer.Length && buffer[..len] == Message(t.s, k)
      modifies `wire, `asked, `freed
      ensures var answer := world.answers(t.first + k);
        ok <==> answer.Some? && (want.Some? ==> At(world.stray, answer.value, 0) == want.value)
      ensures if ok then Exchanged(t, k + 1) else Stopped(t, k + 1, asWritten, stat)
      ensures ok ==> |random| == CMAC_SIZE
      ensures ok ==>
        forall i | 0 <= i < CMAC_SIZE :: random[i] == At(world.stray, world.answers(t.first + k).value, i)
    {
      SendFrame(buffer, len);
      var pdu;
      stat, pdu := Receive();
      ok, random := stat == PD_TRUE, [];
      if ok {
        ok := want.None? || At(world.stray, pdu.value, 0) == want.value;
        random := seq(CMAC_SIZE, i requires 0 <= i => At(world.stray, pdu.value, i));
      }
      if ok || !asWritten {
        Release(pdu);
      }
    }

    /**
     * CAN_updateFirmware. Repairs: every exit frees the payload received last, and every early
     * exit is an error. Whatever is answered, the messages sent are the first `k` of the complete
     * transfer; a message follows only an accepted answer to the one before; success is reported
     * exactly when END was accepted after the whole file; every payload received is freed, once.
     */
    method UpdateFirmware(file: seq<byte>, secure: bool) returns (ok: bool, ghost k: nat)
      requires forall x | |x| == MSG_SIZE :: |world.enc(x)| == MSG_SIZE
      modifies this
      ensures wire == old(wire) + Messages(SessionOf(world, old(asked), file, secure), k)
      ensures asked == old(asked) + k && freed == old(freed) + Payloads(world, old(asked), asked)
      ensures Ended(world, old(asked), file, secure, k, ok)
      ensures k > 1 ==> Said(world, old(asked), 0, 0xC4)
      ensures k > 2 ==> world.answers(old(asked) + 1).Some? && (secure || Said(world, old(asked), 1, 0xFF))
      ensures forall i | 2 <= i < k - 1 :: Said(world, old(asked), i, 0xC3)
      ensures ok ==> k == (|file| + 47) / 48 + 3 && Said(world, old(asked), k - 1, 0xC1)
    {
      ghost var t := Transfer(asked, wire, freed, SessionOf(world, asked, file, secure));
      var stat;
      ok, stat, k := Update(file, secure, false, t);
      EndedSays(world, t.first, file, secure, k, ok);
      SuccessIff(world, t.first, file, secure, k, ok);
    }

    /**
     * CAN_updateFirmware with its exits as written: each early exit returns the result of the
     * last queue call and keeps the payload, if that call yielded one.
     */
    method UpdateFirmwareAsWritten(file: seq<byte>, secure: bool, success: int)
      returns (stat: int, ghost ok: bool, ghost k: nat)
      requires forall x | |x| == MSG_SIZE :: |world.enc(x)| == MSG_SIZE
      modifies this
      ensures wire == old(wire) + Messages(SessionOf(world, old(asked), file, secure), k)
      ensures Ended(world, old(asked), file, secure, k, ok) && asked == old(asked) + k
      ensures stat == if ok then success else QueueStatus(world, asked - 1)
      ensures freed == old(freed) + Payloads(world, old(asked), if ok then asked else asked - 1)
      ensures k > 1 ==> Said(world, old(asked), 0, 0xC4)
      ensures k > 2 ==> world.answers(old(asked) + 1).Some? && (secure || Said(world, old(asked), 1, 0xFF))
      ensures forall i | 2 <= i < k - 1 :: Said(world, old(asked), i, 0xC3)
      ensures ok ==> k == (|file| + 47) / 48 + 3 && Said(world, old(asked), k - 1, 0xC1)
    {
      ghost var t := Transfer(asked, wire, freed, SessionOf(world, asked, file, secure));
      var done;
      done, stat, k := Update(file, secure, true, t);
      ok := done;
      EndedSays(world, t.first, file, secure, k, ok);
      SuccessIff(world, t.first, file, secure, k, ok);
      if done {
        stat := success;
      }
    }

    /** The body of CAN_updateFirmware up to its last return. */
    method Update(file: seq<byte>, secure: bool, asWritten: bool, ghost t: Transfer)
      returns (ok: bool, stat: int, ghost k: nat)
      requires forall x | |x| == MSG_SIZE :: |world.enc(x)| == MSG_SIZE
      requires Exchanged(t, 0) && t.s == SessionOf(world, t.first, file, secure)
      modifies this
      ensures Ended(world, t.first, file, secure, k, ok)
      ensures if ok then Exchanged(t, k) else Stopped(t, k, asWritten, stat)
    {
      var buffer := new byte[MSG_SIZE](_ => 0);
      var rnd;
      ok, stat, rnd, k := Open(file, secure, asWritten, buffer, t);
      if ok {
        ok, stat, k := SendFile(file, secure, rnd, asWritten, buffer, t);
      }
      if ok {
        ok, stat, k := SendEnd(file, secure, asWritten, buffer, t);
      }
    }

    /** Steps 1 to 4 of CAN_updateFirmware: reset, begin, and the random number. */
    method Open(file: seq<byte>, secure: bool, asWritten: bool, buffer: array<byte>, ghost t: Transfer)
      returns (ok: bool, stat: int, rnd: seq<byte>, ghost k: nat)
      requires buffer.Length == MSG_SIZE && Exchanged(t, 0)
      requires t.s == SessionOf(world, t.first, file, secure)
      modifies this, buffer
      ensures ok ==> Exchanged(t, 2) && k == 2 && AllAcked(world, t.first, file, secure, 2) && rnd == t.s.nonce
      ensures !ok ==> Stopped(t, k, asWritten, stat) && Ended(world, t.first, file, secure, k, false)
    {
      ok, stat := Reset(file, secure, asWritten, buffer, t);
      if !ok {
        return false, stat, [], 1;
      }
      buffer[0] := if secure then BEGIN_SEC else BEGIN_NONSEC;
      var random;
      ok, stat, random := Exchange(buffer, 1, if secure then None else Some(READY), asWritten, t, 1);
      k := 2;
      if !ok {
        return false, stat, [], 2;
      }
      rnd := seq(CMAC_SIZE, _ => 0);
      if secure {
        rnd := random;
      }
      AckedNext(world, t.first, file, secure, 1);
      assert rnd == t.s.nonce;
    }

    /** Steps 1 and 2: the reset. */
    method Reset(file: seq<byte>, secure: bool, asWritten: bool, buffer: array<byte>, ghost t: Transfer)
      returns (ok: bool, stat: int)
      requires buffer.Length == MSG_SIZE && Exchanged(t, 0)
      modifies this, buffer
      ensures ok ==> Exchanged(t, 1) && AllAcked(world, t.first, file, secure, 1)
      ensures !ok ==> Stopped(t, 1, asWritten, stat) && Ended(world, t.first, file, secure, 1, false)
    {
      buffer[0] := RESET_CMD;
      var random;
      ok, stat, random := Exchange(buffer, 1, Some(RESET_ACK), asWritten, t, 0);
    }

    /** Step 5: the data frames, each acknowledged before the next. */
    method SendFile(file: seq<byte>, secure: bool, rnd: seq<byte>, asWritten: bool, buffer: array<byte>,
                    ghost t: Transfer)
      returns (ok: bool, stat: int, ghost k: nat)
      requires forall x | |x| == MSG_SIZE :: |world.enc(x)| == MSG_SIZE
      requires buffer.Length == MSG_SIZE && |rnd| == CMAC_SIZE
      requires t.s.file == file && t.s.nonce == rnd && t.s.enc == world.enc
      requires Exchanged(t, 2) && AllAcked(world, t.first, file, secure, 2)
      modifies this, buffer
      ensures ok ==> Exchanged(t, k) && k == 2 + Frames(|file|) && AllAcked(world, t.first, file, secure, k)
      ensures !ok ==> Stopped(t, k, asWritten, stat) && Ended(world, t.first, file, secure, k, false)
    {
      ghost var j := 0;
      var br: nat := Read(file, 0, buffer, j);
      var pos: nat := br;
      while br != 0
        invariant j <= Frames(|file|) && br == Length(|file|, j) && pos == Cursor(|file|, j + 1)
        invariant br == 0 <==> j >= Frames(|file|)
        invariant forall i | 0 <= i < br :: buffer[i] == Part(file, j)[i]
        invariant Exchanged(t, j + 2) && AllAcked(world, t.first, file, secure, j + 2)
        decreases Frames(|file|) - j
      {
        ok, stat := SendPart(file, secure, br, rnd, asWritten, buffer, t, j);
        j := j + 1;
        if !ok {
          return false, stat, j + 2;
        }
        br := Read(file, pos, buffer, j);
        pos := pos + br;
      }
      ok, stat, k := true, PD_TRUE, j + 2;
    }

    /** One turn of its loop: the `j`-th part, of which `br` bytes have been read, is sent, and acknowledged or not. */
    method SendPart(file: seq<byte>, secure: bool, br: nat, rnd: seq<byte>, asWritten: bool, buffer: array<byte>,
                    ghost t: Transfer, ghost j: nat)
      returns (ok: bool, stat: int)
      requires forall x | |x| == MSG_SIZE :: |world.enc(x)| == MSG_SIZE
      requires buffer.Length == MSG_SIZE && |rnd| == CMAC_SIZE
      requires t.s.file == file && t.s.nonce == rnd && t.s.enc == world.enc
      requires j < Frames(|file|) && br == Length(|file|, j)
      requires forall i | 0 <= i < br :: buffer[i] == Part(file, j)[i]
      requires Exchanged(t, j + 2) && AllAcked(world, t.first, file, secure, j + 2)
      modifies this, buffer
      ensures ok ==> Exchanged(t, j + 3) && AllAcked(world, t.first, file, secure, j + 3)
      ensures !ok ==> Stopped(t, j + 3, asWritten, stat) && Ended(world, t.first, file, secure, j + 3, false)
    {
      Seal(br, rnd, buffer, file, j);
      assert buffer[..MSG_SIZE] == buffer[..];
      var random;
      ok, stat, random := Exchange(buffer, MSG_SIZE, Some(FRAME_ACK), asWritten, t, j + 2);
      if ok {
        AckedNext(world, t.first, file, secure, j + 2);
      }
    }

    /** Step 6: the end flag. */
    method SendEnd(file: seq<byte>, secure: bool, asWritten: bool, buffer: array<byte>, ghost t: Transfer)
      returns (ok: bool, stat: int, ghost k: nat)
      requires buffer.Length == MSG_SIZE && t.s.file == file
      requires Exchanged(t, 2 + Frames(|file|)) && AllAcked(world, t.first, file, secure, 2 + Frames(|file|))
      modifies this, buffer
      ensures Ended(world, t.first, file, secure, k, ok)
      ensures if ok then Exchanged(t, k) else Stopped(t, k, asWritten, stat)
    {
      k := 2 + Frames(|file|);
      buffer[0] := END_CMD;
      var random;
      ok, stat, random := Exchange(buffer, 1, Some(END_ACK), asWritten, t, k);
      k := k + 1;
    }
  }

  // ---------------------------------------------------------------- what the transfer achieves

  lemma AckedBefore(w: World, first: nat, file: seq<byte>, secure: bool, i: nat, k: int)
    requires AllAcked(w, first, file, secure, k)
    ensures i < k ==> Acked(w, first, file, secure, i)
  {
  }

  /** The answers alone decide how far a transfer gets and how it ends. */
  lemma EndedUnique(w: World, first: nat, file: seq<byte>, secure: bool, k: nat, ok: bool, k': nat, ok': bool)
    requires Ended(w, first, file, secure, k, ok) && Ended(w, first, file, secure, k', ok')
    ensures k == k' && ok == ok'
  {
    AckedBefore(w, first, file, secure, k - 1, k' - 1);
    AckedBefore(w, first, file, secure, k' - 1, k - 1);
  }

  /** The answer to message `i` of a transfer begins with `code`. */
  predicate Said(w: World, first: nat, i: nat, code: byte) {
    w.answers(first + i).Some? && At(w.stray, w.answers(first + i).value, 0) == code
  }

  lemma SaidIff(w: World, first: nat, i: nat, code: byte)
    ensures w.answers(first + i).None? ==> !Said(w, first, i, code)
    ensures w.answers(first + i).Some? && |w.answers(first + i).value| > 0 ==>
      (Said(w, first, i, code) <==> w.answers(first + i).value[0] == code)
  {
  }

  /**
   * In the codes of the protocol: BEGIN follows the answer C4 to RESET, data follows any answer to
   * a secure BEGIN and FF to any other, and what follows a data frame follows the answer C3 to it.
   */
  lemma EndedSays(w: World, first: nat, file: seq<byte>, secure: bool, k: nat, ok: bool)
    requires Ended(w, first, file, secure, k, ok)
    ensures k > 1 ==> Said(w, first, 0, 0xC4)
    ensures k > 2 ==> w.answers(first + 1).Some? && (secure || Said(w, first, 1, 0xFF))
    ensures forall i | 2 <= i < k - 1 :: Said(w, first, i, 0xC3)
  {
    if k > 1 {
      AckedBefore(w, first, file, secure, 0, k - 1);
    }
    if k > 2 {
      AckedBefore(w, first, file, secure, 1, k - 1);
    }
    forall i | 2 <= i < k - 1
      ensures Said(w, first, i, 0xC3)
    {
      AckedBefore(w, first, file, secure, i, k - 1);
    }
  }

  /**
   * A transfer of a file of F data frames succeeds if and only if RESET is answered C4, BEGIN is
   * answered, FF if it is not secure, each of the F data frames is answered C3, and END C1.
   */
  lemma SuccessIff(w: World, first: nat, file: seq<byte>, secure: bool, k: nat, ok: bool)
    requires Ended(w, first, file, secure, k, ok)
    ensures var n := (|file| + 47) / 48;
      && (ok ==> k == n + 3)
      && (ok <==>
            && Said(w, first, 0, 0xC4)
            && w.answers(first + 1).Some? && (secure || Said(w, first, 1, 0xFF))
            && (forall i | 2 <= i < n + 2 :: Said(w, first, i, 0xC3))
            && Said(w, first, n + 2, 0xC1))
  {
    FramesCeiling(|file|);
    var n := Frames(|file|);
    if ok {
      EndedSays(w, first, file, secure, k, ok);
    } else {
      assert !Acked(w, first, file, secure, k - 1);
      assert 2 <= k - 1 < n + 2 ==> !Said(w, first, k - 1, 0xC3);
    }
  }

  /** The first `c` parts of a file, joined. */
  function Joined(file: seq<byte>, c: nat): (r: seq<byte>)
    ensures |r| == c * DATA_SIZE
  {
    if c == 0 then [] else Joined(file, c - 1) + Part(file, c - 1)
  }

  lemma {:induction false} JoinedBytes(file: seq<byte>, c: nat, i: nat)
    requires i < c * DATA_SIZE
    ensures Joined(file, c)[i] == if i < |file| then file[i] else 0
  {
    if i < (c - 1) * DATA_SIZE {
      JoinedBytes(file, c - 1, i);
    }
  }

  /**
   * What the ECU puts together from the data frames is the file and nothing but zeros after it,
   * less than one frame of them; the frames number |file| / 48 rounded up, and each is 64 bytes
   * before encryption with the nonce in its last 16.
   */
  lemma RoundTrip(file: seq<byte>, nonce: seq<byte>)
    requires |nonce| == CMAC_SIZE
    ensures Frames(|file|) == (|file| + DATA_SIZE - 1) / DATA_SIZE
    ensures var all := Joined(file, Frames(|file|));
      && |file| <= |all| < |file| + DATA_SIZE
      && all[..|file|] == file
      && (forall i | |file| <= i < |all| :: all[i] == 0)
    ensures forall k: nat :: |Part(file, k) + nonce| == MSG_SIZE && (Part(file, k) + nonce)[DATA_SIZE..] == nonce
  {
    FramesCeiling(|file|);
    var all := Joined(file, Frames(|file|));
    forall i | 0 <= i < |all|
      ensures all[i] == if i < |file| then file[i] else 0
    {
      JoinedBytes(file, Frames(|file|), i);
    }
  }

  /** An encryption that loses nothing on whole frames. */
  ghost predicate Injective(enc: seq<byte> -> seq<byte>) {
    forall x, y {:trigger Told(enc, x, y)} :: Told(enc, x, y)
  }

  predicate Told(enc: seq<byte> -> seq<byte>, x: seq<byte>, y: seq<byte>) {
    |x| == |y| == MSG_SIZE && enc(x) == enc(y) ==> x == y
  }

  lemma PartTells(s: Session, t: Session, k: nat)
    requires Injective(s.enc) && t.enc == s.enc && t.nonce == s.nonce && |s.nonce| == CMAC_SIZE
    requires k < Frames(|s.file|) && k < Frames(|t.file|)
    requires Message(s, k + 2) == Message(t, k + 2)
    ensures Part(s.file, k) == Part(t.file, k)
  {
    assert Told(s.enc, Part(s.file, k) + s.nonce, Part(t.file, k) + s.nonce);
    assert (Part(s.file, k) + s.nonce)[..DATA_SIZE] == Part(s.file, k);
    assert (Part(t.file, k) + s.nonce)[..DATA_SIZE] == Part(t.file, k);
  }

  /** A file as the ECU puts it together: filled up with zeros to whole frames. */
  function Padded(file: seq<byte>): seq<byte> {
    Joined(file, Frames(|file|))
  }

  /**
   * Two complete transfers with the same key and nonce look alike if and only if they carry the
   * same file but for zeros in the last frame.
   */
  lemma TransferTells(s: Session, t: Session)
    requires Injective(s.enc) && t.enc == s.enc && t.nonce == s.nonce && |s.nonce| == CMAC_SIZE && t.secure == s.secure
    ensures Messages(s, Total(s.file)) == Messages(t, Total(t.file)) <==> Padded(s.file) == Padded(t.file)
  {
    if Messages(s, Total(s.file)) == Messages(t, Total(t.file)) {
      AlikeSame(s, t);
    }
    if Padded(s.file) == Padded(t.file) {
      SameAlike(s, t);
    }
  }

  lemma AlikeSame(s: Session, t: Session)
    requires Injective(s.enc) && t.enc == s.enc && t.nonce == s.nonce && |s.nonce| == CMAC_SIZE
    requires Messages(s, Total(s.file)) == Messages(t, Total(t.file))
    ensures Padded(s.file) == Padded(t.file)
  {
    MessagesAt(s, Total(s.file), 0);
    MessagesAt(t, Total(t.file), 0);
    var n := Frames(|s.file|);
    forall k | 0 <= k < n
      ensures Part(s.file, k) == Part(t.file, k)
    {
      AlikePart(s, t, n, k);
    }
    JoinedSame(s.file, t.file, n);
  }

  lemma AlikePart(s: Session, t: Session, n: nat, k: nat)
    requires Injective(s.enc) && t.enc == s.enc && t.nonce == s.nonce && |s.nonce| == CMAC_SIZE
    requires n == Frames(|s.file|) == Frames(|t.file|) && k < n && Messages(s, n + 3) == Messages(t, n + 3)
    ensures Part(s.file, k) == Part(t.file, k)
  {
    MessagesAt(s, n + 3, k + 2);
    MessagesAt(t, n + 3, k + 2);
    PartTells(s, t, k);
  }

  lemma SameAlike(s: Session, t: Session)
    requires t.enc == s.enc && t.nonce == s.nonce && t.secure == s.secure && Padded(s.file) == Padded(t.file)
    ensures Messages(s, Total(s.file)) == Messages(t, Total(t.file))
  {
    var n := Frames(|s.file|);
    assert |Padded(s.file)| == n * DATA_SIZE && |Padded(t.file)| == Frames(|t.file|) * DATA_SIZE;
    forall i: nat
      ensures Message(s, i) == Message(t, i)
    {
      if 2 <= i < n + 2 {
        JoinedPart(s.file, n, i - 2);
        JoinedPart(t.file, n, i - 2);
      }
    }
    MessagesSame(s, t, Total(s.file));
  }

  lemma {:induction false} MessagesSame(s: Session, t: Session, n: nat)
    requires forall i: nat :: Message(s, i) == Message(t, i)
    ensures Messages(s, n) == Messages(t, n)
  {
    if n > 0 {
      MessagesSame(s, t, n - 1);
    }
  }

  /** The parts can be read off the joined file. */
  lemma {:induction false} JoinedPart(file: seq<byte>, c: nat, k: nat)
    requires k < c
    ensures Joined(file, c)[k * DATA_SIZE..k * DATA_SIZE + DATA_SIZE] == Part(file, k)
  {
    if k < c - 1 {
      JoinedPart(file, c - 1, k);
      assert Joined(file, c)[..|Joined(file, c - 1)|] == Joined(file, c - 1);
    }
  }

  /** So files of the same length are told apart. */
  lemma SameFile(f: seq<byte>, g: seq<byte>)
    requires Padded(f) == Padded(g) && |f| == |g|
    ensures f == g
  {
    RoundTrip(f, seq(CMAC_SIZE, _ => 0));
    RoundTrip(g, seq(CMAC_SIZE, _ => 0));
  }

  lemma {:induction false} JoinedSame(f: seq<byte>, g: seq<byte>, c: nat)
    requires forall k | 0 <= k < c :: Part(f, k) == Part(g, k)
    ensures Joined(f, c) == Joined(g, c)
  {
    if c > 0 {
      JoinedSame(f, g, c - 1);
    }
  }

  // ---------------------------------------------------------------- the exits as written

  /** A caller that takes `success` for success and all else for failure reads the returned value rightly. */
  predicate ReadsRight(w: World, first: nat, k: nat, ok: bool, success: int)
    requires k > 0
  {
    ok <==> (if ok then success else QueueStatus(w, first + k - 1)) == success
  }

  /**
   * With 0 as the code for success, the value returned as written is read rightly if and only if
   * no timeout occurs before the transfer is complete, in the sense that the first message not
   * answered as it should be, if there is one, is answered all the same.
   */
  lemma AsWrittenStatusIff(w: World, first: nat, file: seq<byte>, secure: bool, k: nat, ok: bool)
    requires Ended(w, first, file, secure, k, ok)
    ensures ReadsRight(w, first, k, ok, 0) <==>
      forall i | 0 <= i < Total(file) && AllAcked(w, first, file, secure, i) :: w.answers(first + i).Some?
  {
    forall i | 0 <= i < Total(file) && AllAcked(w, first, file, secure, i)
      ensures i < k && (i < k - 1 || ok ==> w.answers(first + i).Some?)
    {
      AckedBefore(w, first, file, secure, k - 1, i);
      AckedBefore(w, first, file, secure, i, k - 1);
    }
    assert AllAcked(w, first, file, secure, k - 1);
  }

  /** An ECU that never answers. */
  function Silent(enc: seq<byte> -> seq<byte>): World {
    World(n => None, n => 0, enc)
  }

  /** It fails every transfer at the first message, and as written that is reported as success. */
  lemma SilentSucceeds(enc: seq<byte> -> seq<byte>, first: nat, file: seq<byte>, secure: bool)
    ensures Ended(Silent(enc), first, file, secure, 1, false)
    ensures QueueStatus(Silent(enc), first) == 0 && !ReadsRight(Silent(enc), first, 1, false, 0)
  {
  }

  /** An ECU that answers everything with one zero byte. */
  function Confused(enc: seq<byte> -> seq<byte>): World {
    World(n => Some([0]), n => 0, enc)
  }

  /** It fails every transfer at the first message too; as written that is an error, and its answer is never freed. */
  lemma ConfusedLeaks(enc: seq<byte> -> seq<byte>, first: nat, file: seq<byte>, secure: bool)
    ensures Ended(Confused(enc), first, file, secure, 1, false)
    ensures ReadsRight(Confused(enc), first, 1, false, 0)
    ensures Payloads(Confused(enc), first, first + 1) == [first] && Payloads(Confused(enc), first, first) == []
  {
  }
}
