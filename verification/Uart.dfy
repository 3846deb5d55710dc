/**
 The ring buffers between the user and a UART of the AxiCat. The transmit ring is a
 queue that takes only what fits; the receive ring takes every byte and drops the
 oldest one when it is full.
 */
module Uart {
  import opened Arith
  import opened Basics

  // ---------------------------------------------------------------- rings as values

  // An index running past the end goes on at the front.
  function Wrap(k: nat, len: nat): (r: nat)
    requires len > 0 && k < 2 * len
    ensures r < len
  {
    if k < len then k else k - len
  }

  lemma WrapIsMod(k: nat, len: nat)
    requires len > 0 && k < 2 * len
    ensures k % len == Wrap(k, len)
  {
    DivModUnique(k, len, if k < len then 0 else 1, Wrap(k, len));
  }

  // What a ring holds: sc bytes from fi on, around the end.
  function Ring(buf: seq<byte>, fi: nat, sc: nat): (r: seq<byte>)
    requires fi < |buf| && sc <= |buf|
    ensures |r| == sc
  {
    seq(sc, i requires 0 <= i < sc => buf[Wrap(fi + i, |buf|)])
  }

  // A byte behind the last one.
  lemma RingPut(buf: seq<byte>, fi: nat, sc: nat, b: byte)
    requires fi < |buf| && sc < |buf|
    ensures Ring(buf[Wrap(fi + sc, |buf|) := b], fi, sc + 1) == Ring(buf, fi, sc) + [b]
  {
    var si := Wrap(fi + sc, |buf|);
    var r, was := Ring(buf[si := b], fi, sc + 1), Ring(buf, fi, sc);
    forall i | 0 <= i < sc ensures r[i] == was[i] {
      assert Wrap(fi + i, |buf|) != si;
    }
    assert r == was + [b];
  }

  // The first byte gone.
  lemma RingTake(buf: seq<byte>, fi: nat, sc: nat)
    requires fi < |buf| && 0 < sc <= |buf|
    ensures Ring(buf, fi, sc) == [buf[fi]] + Ring(buf, Wrap(fi + 1, |buf|), sc - 1)
    ensures Wrap(Wrap(fi + 1, |buf|) + (sc - 1), |buf|) == Wrap(fi + sc, |buf|)
  {
    var r, rest := Ring(buf, fi, sc), Ring(buf, Wrap(fi + 1, |buf|), sc - 1);
    forall i | 0 < i < sc ensures r[i] == rest[i - 1] {
      assert Wrap(Wrap(fi + 1, |buf|) + (i - 1), |buf|) == Wrap(fi + i, |buf|);
    }
    assert r[0] == buf[Wrap(fi + 0, |buf|)] == buf[fi];
    assert r == [buf[fi]] + rest;
  }

  // A byte into a full ring: it takes the place of the oldest.
  lemma RingOverwrite(buf: seq<byte>, fi: nat, b: byte)
    requires fi < |buf|
    ensures Ring(buf[fi := b], Wrap(fi + 1, |buf|), |buf|) == Ring(buf, fi, |buf|)[1..] + [b]
  {
    var fi1 := Wrap(fi + 1, |buf|);
    var r, was := Ring(buf[fi := b], fi1, |buf|), Ring(buf, fi, |buf|);
    forall i | 0 <= i < |buf| - 1 ensures r[i] == was[i + 1] {
      assert Wrap(fi1 + i, |buf|) == Wrap(fi + (i + 1), |buf|) != fi;
    }
    assert Wrap(fi1 + (|buf| - 1), |buf|) == fi;
    assert r[|buf| - 1] == b;
    assert r == was[1..] + [b];
  }

  // ---------------------------------------------------------------- receive history

  datatype RxEvent = Arrive(b: byte) | Fetch(n: nat)

  // `held` is what the ring holds, `all` everything that ever arrived, `unread` how much
  // arrived since, or was kept by, the latest fetch.
  datatype RxLog = RxLog(held: seq<byte>, all: seq<byte>, unread: nat)

  function Push(held: seq<byte>, cap: nat, b: byte): seq<byte>
    requires cap > 0
  {
    (if |held| < cap then held else held[|held| - cap + 1..]) + [b]
  }

  function RxStep(s: RxLog, cap: nat, ev: RxEvent): RxLog
    requires cap > 0
  {
    match ev
    case Arrive(b) => RxLog(Push(s.held, cap, b), s.all + [b], s.unread + 1)
    case Fetch(n) =>
      var k := Min(n, |s.held|);
      RxLog(s.held[k..], s.all, |s.held| - k)
  }

  function RxRun(s: RxLog, cap: nat, evs: seq<RxEvent>): RxLog
    requires cap > 0
    decreases |evs|
  {
    if evs == [] then s else RxRun(RxStep(s, cap, evs[0]), cap, evs[1..])
  }

  predicate MostRecent(s: RxLog, cap: nat) {
    && |s.held| == Min(s.unread, cap) <= |s.all|
    && s.held == s.all[|s.all| - |s.held|..]
  }

  lemma RxStepKeeps(s: RxLog, cap: nat, ev: RxEvent)
    requires cap > 0 && MostRecent(s, cap)
    ensures MostRecent(RxStep(s, cap, ev), cap)
  {
    var s1 := RxStep(s, cap, ev);
    match ev
    case Arrive(b) =>
      assert s1.held == s1.all[|s1.all| - |s1.held|..];
    case Fetch(n) =>
  }

  // Over any mix of arriving bytes and fetches the ring holds exactly the most recent of
  // the unread bytes, as many as it has room for.
  lemma {:induction false} RingHoldsMostRecent(s: RxLog, cap: nat, evs: seq<RxEvent>)
    requires cap > 0 && MostRecent(s, cap)
    ensures MostRecent(RxRun(s, cap, evs), cap)
    decreases |evs|
  {
    if evs != [] {
      RxStepKeeps(s, cap, evs[0]);
      RingHoldsMostRecent(RxStep(s, cap, evs[0]), cap, evs[1..]);
    }
  }

  // A byte stored where the ring says: the ring has taken it in, and its indices fit.
  lemma RingPush(buf: seq<byte>, fi: nat, sc: nat, b: byte)
    requires fi < |buf| && sc <= |buf|
    ensures var full, si := sc == |buf|, Wrap(fi + sc, |buf|);
      var fi1, sc1 := if full then Wrap(fi + 1, |buf|) else fi, if full then sc else sc + 1;
      && Ring(buf[si := b], fi1, sc1) == Push(Ring(buf, fi, sc), |buf|, b)
      && (si + 1) % |buf| == Wrap(fi1 + sc1, |buf|) && (fi + 1) % |buf| == Wrap(fi + 1, |buf|)
  {
    WrapIsMod(Wrap(fi + sc, |buf|) + 1, |buf|);
    WrapIsMod(fi + 1, |buf|);
    if sc < |buf| {
      RingPut(buf, fi, sc, b);
    } else {
      RingOverwrite(buf, fi, b);
    }
  }

  // ---------------------------------------------------------------- the UART

  function TxHeader(uart: nat, cnt: nat): seq<byte>
    requires cnt > 0 && uart < 2
  {
    [22 + uart, (cnt - 1) % 256]
  }

  // The count byte of a packet says how many bytes follow only up to 256 of them; the
  // pump does not keep to that when the device has more room.
  lemma CountFits(uart: nat, cnt: nat)
    requires cnt > 0 && uart < 2
    ensures TxHeader(uart, cnt)[1] as int + 1 == cnt <==> cnt <= 256
  {
  }

  class UartCtx {
    const txBuf: array<byte>
    const rxBuf: array<byte>
    var txSi: nat
    var txFi: nat
    var txSc: nat
    var rxSi: nat
    var rxFi: nat
    var rxSc: nat
    var hwTxBufLen: nat    // the device's transmit buffer
    var hwTxFree: nat      // what the device has said is free of it
    var wide: bool
    var out: seq<byte>     // the serial stream
    ghost var rxLog: RxLog   // what has arrived, and how much of it is unread

    ghost predicate Valid()
      reads this, txBuf, rxBuf
    {
      && txBuf != rxBuf && txBuf.Length > 0 && rxBuf.Length > 0
      && txFi < txBuf.Length && txSc <= txBuf.Length && txSi == Wrap(txFi + txSc, txBuf.Length)
      && rxFi < rxBuf.Length && rxSc <= rxBuf.Length && rxSi == Wrap(rxFi + rxSc, rxBuf.Length)
      && rxLog.held == Ring(rxBuf[..], rxFi, rxSc) && MostRecent(rxLog, rxBuf.Length)
    }

    ghost function Queued(): seq<byte>
      requires Valid()
      reads this, txBuf, rxBuf
    {
      Ring(txBuf[..], txFi, txSc)
    }

    ghost function Held(): seq<byte>
      requires Valid()
      reads this, txBuf, rxBuf
    {
      Ring(rxBuf[..], rxFi, rxSc)
    }

    constructor (len: nat)
      requires len > 0
      ensures Valid() && Queued() == [] && Held() == [] && out == [] && !wide
      ensures txBuf.Length == rxBuf.Length == len && fresh(txBuf) && fresh(rxBuf)
    {
      txBuf, rxBuf := new byte[len], new byte[len];
      txSi, txFi, txSc, rxSi, rxFi, rxSc := 0, 0, 0, 0, 0, 0;
      hwTxBufLen, hwTxFree, wide, out := 0, 0, false, [];
      rxLog := RxLog([], [], 0);
      new;
      assert Ring(rxBuf[..], 0, 0) == [];
    }

    // The device's information block announces its buffer, in two bytes.
    method OnInfo(lsb: byte, msb: byte)
      modifies this`hwTxBufLen
      ensures hwTxBufLen == 256 * msb + lsb + 1
    {
      hwTxBufLen := lsb + 256 * msb + 1;
    }

    // The device says how much of it is free; it cannot be more than there is.
    method OnTxFree(lsb: byte, msb: byte) returns (ok: bool)
      modifies this`hwTxFree
      ensures ok <==> 256 * msb + lsb + 1 <= hwTxBufLen
      ensures hwTxFree == if ok then 256 * msb + lsb + 1 else old(hwTxFree)
    {
      var free := 256 * msb + lsb + 1;
      if free > hwTxBufLen { return false; }
      hwTxFree := free;
      return true;
    }

    // One byte into the transmit ring.
    method WriteByte(b: byte)
      requires Valid() && txSc < txBuf.Length
      modifies this`txSi, this`txSc, txBuf
      ensures Valid() && Held() == old(Held()) && txSc == old(txSc) + 1
      ensures Queued() == old(Queued()) + [b]
    {
      ghost var was := txBuf[..];
      RingPut(was, txFi, txSc, b);
      WrapNext(txFi, txSc, txBuf.Length);
      txBuf[txSi] := b;
      assert txBuf[..] == was[txSi := b];
      txSi := (txSi + 1) % txBuf.Length;
      txSc := txSc + 1;
    }

    // Takes as much of the data as fits; only whole words if the UART has wide words.
    method Write(data: seq<byte>) returns (cnt: nat)
      requires Valid()
      modifies this`txSi, this`txSc, txBuf
      ensures Valid() && Held() == old(Held())
      ensures cnt == Min(if wide then |data| - |data| % 2 else |data|, txBuf.Length - old(txSc))
      ensures Queued() == old(Queued()) + data[..cnt]
    {
      var len := |data|;
      if wide { len := len - len % 2; }
      cnt := 0;
      ghost var was, most := Queued(), len;
      assert was + [] == was;
      while txSc != txBuf.Length && len != 0
        invariant Valid() && Held() == old(Held())
        invariant 0 <= len && cnt + len == most <= |data| && txSc == old(txSc) + cnt
        invariant Queued() == was + data[..cnt]
        decreases len
      {
        WriteByte(data[cnt]);
        assert was + data[..cnt + 1] == (was + data[..cnt]) + [data[cnt]];
        len := len - 1;
        cnt := cnt + 1;
      }
    }

    lemma Cut(was: seq<byte>, front: seq<byte>, rest: seq<byte>)
      requires was == front + rest
      ensures front == was[..|front|] && rest == was[|front|..]
    {
    }

    // The oldest byte received.
    method ReadOne() returns (b: byte)
      requires Valid() && rxSc > 0
      modifies this`rxFi, this`rxSc, this`rxLog
      ensures Valid() && Queued() == old(Queued()) && rxSc == old(rxSc) - 1
      ensures rxLog == RxStep(old(rxLog), rxBuf.Length, Fetch(1))
      ensures old(Held()) == [b] + Held()
    {
      RingTake(rxBuf[..], rxFi, rxSc);
      RxStepKeeps(rxLog, rxBuf.Length, Fetch(1));
      b := rxBuf[rxFi];
      WrapNext(rxFi, 0, rxBuf.Length);
      rxFi := (rxFi + 1) % rxBuf.Length;
      rxSc := rxSc - 1;
      rxLog := RxStep(rxLog, rxBuf.Length, Fetch(1));
    }

    // The oldest bytes received, at most len of them.
    method Read(len: nat) returns (data: seq<byte>)
      requires Valid()
      modifies this`rxFi, this`rxSc, this`rxLog
      ensures Valid() && Queued() == old(Queued())
      ensures rxLog == RxStep(old(rxLog), rxBuf.Length, Fetch(len))
      ensures data == old(Held())[..Min(len, old(rxSc))]
      ensures Held() == old(Held())[Min(len, old(rxSc))..]
    {
      data := [];
      var left := len;
      ghost var was := Held();
      RxStepKeeps(rxLog, rxBuf.Length, Fetch(0));
      rxLog := RxStep(rxLog, rxBuf.Length, Fetch(0));
      while rxSc != 0 && left != 0
        invariant Valid() && Queued() == old(Queued())
        invariant |data| + left == len && |data| + rxSc == old(rxSc)
        invariant was == data + Held() && rxLog == RxLog(Held(), old(rxLog).all, rxSc)
        decreases left
      {
        ghost var before := data;
        var b := ReadOne();
        data := data + [b];
        left := left - 1;
        Associative(before, [b], Held());
      }
      Cut(was, data, Held());
    }

    // A byte from the device is always stored, if need be in place of the oldest.
    method RxByte(b: byte)
      requires Valid()
      modifies this`rxSi, this`rxFi, this`rxSc, this`rxLog, rxBuf
      ensures Valid() && Queued() == old(Queued())
      ensures rxLog == RxStep(old(rxLog), rxBuf.Length, Arrive(b))
      ensures Held() == Push(old(Held()), rxBuf.Length, b)
    {
      ghost var buf := rxBuf[..];
      RxStepKeeps(rxLog, rxBuf.Length, Arrive(b));
      rxLog := RxStep(rxLog, rxBuf.Length, Arrive(b));
      rxBuf[rxSi] := b;
      assert rxBuf[..] == buf[rxSi := b];
      RingPush(buf, rxFi, rxSc, b);
      if rxSc < rxBuf.Length {
        rxSi := (rxSi + 1) % rxBuf.Length;
        rxSc := rxSc + 1;
      } else {
        rxSi := (rxSi + 1) % rxBuf.Length;
        rxFi := (rxFi + 1) % rxBuf.Length;
      }
    }

    lemma WrapNext(fi: nat, sc: nat, len: nat)
      requires len > 0 && fi < len && sc <= len
      ensures (Wrap(fi + sc, len) + 1) % len == Wrap(Wrap(fi + sc, len) + 1, len)
      ensures sc < len ==> Wrap(Wrap(fi + sc, len) + 1, len) == Wrap(fi + sc + 1, len)
    {
      WrapIsMod(Wrap(fi + sc, len) + 1, len);
    }

    // The oldest byte of the transmit ring goes out.
    method TxByte()
      requires Valid() && txSc > 0 && hwTxFree > 0
      modifies this`txFi, this`txSc, this`hwTxFree, this`out
      ensures Valid() && Held() == old(Held()) && txSc == old(txSc) - 1 && hwTxFree == old(hwTxFree) - 1
      ensures old(Queued()) == [old(txBuf[txFi])] + Queued() && out == old(out) + [old(txBuf[txFi])]
    {
      RingTake(txBuf[..], txFi, txSc);
      out := out + [txBuf[txFi]];
      WrapNext(txFi, 0, txBuf.Length);
      txFi := (txFi + 1) % txBuf.Length;
      txSc := txSc - 1;
      hwTxFree := hwTxFree - 1;
    }

    // So many bytes go out, oldest first.
    method TxBytes(n: nat)
      requires Valid() && n <= txSc && n <= hwTxFree
      modifies this`txFi, this`txSc, this`hwTxFree, this`out
      ensures Valid() && Held() == old(Held())
      ensures Queued() == old(Queued())[n..] && hwTxFree == old(hwTxFree) - n
      ensures out == old(out) + old(Queued())[..n]
    {
      ghost var was := Queued();
      var cnt := n;
      while cnt > 0
        invariant Valid() && Held() == old(Held())
        invariant 0 <= cnt <= n && hwTxFree == old(hwTxFree) - (n - cnt) && txSc == |was| - (n - cnt)
        invariant Queued() == was[n - cnt..]
        invariant out == old(out) + was[..n - cnt]
        decreases cnt
      {
        ghost var k := n - cnt;
        TxByte();
        cnt := cnt - 1;
        assert was[k..] == [was[k]] + was[k + 1..];
        assert (old(out) + was[..k]) + [was[k]] == old(out) + was[..k + 1];
      }
    }

    // Sends what the device has room for, oldest first.
    method Tx(uart: nat)
      requires Valid() && uart < 2
      modifies this`txFi, this`txSc, this`hwTxFree, this`out
      ensures Valid() && Held() == old(Held())
      ensures var cnt := Min(old(hwTxFree), old(txSc));
        && Queued() == old(Queued())[cnt..] && hwTxFree == old(hwTxFree) - cnt
        && out == old(out) + (if cnt == 0 then [] else TxHeader(uart, cnt) + old(Queued())[..cnt])
    {
      var cnt: nat := if hwTxFree < txSc then hwTxFree else txSc;
      if cnt == 0 {
        assert out + [] == out;
        return;
      }
      ghost var was := Queued();
      out := out + [22 + uart, (cnt - 1) % 256];
      TxBytes(cnt);
      Associative(old(out), TxHeader(uart, cnt), was[..cnt]);
    }
  }

  // It does happen: with a device that announces 300 bytes and has them free, 300 bytes the
  // user writes go out in one packet, whose count byte says 44.
  method OverlongPacket(data: seq<byte>) returns (u: UartCtx)
    requires |data| == 300
    ensures fresh(u) && u.out == [22, 43] + data
  {
    u := new UartCtx(4096);
    u.OnInfo(43, 1);
    var ok := u.OnTxFree(43, 1);
    var cnt := u.Write(data);
    assert data[..300] == data && [] + data == data;
    u.Tx(0);
    assert [] + ([22, 43] + data) == [22, 43] + data;
  }
}
