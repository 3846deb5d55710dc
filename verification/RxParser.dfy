/**
 The byte-at-a-time receiver of device responses: a state machine that turns the
 incoming byte stream into calls of the response handlers. `Feed` is the machine
 as a function; the class RxMech runs it byte by byte.
 */
module RxParser {
  import opened Basics

  // Which TWI data response is being received.
  datatype Dev = MasterTx | MasterRx | SlaveTx | SlaveRx

  datatype State =
    | Rsp | Version | Info | GpioRead
    | UartFreeLsb(uart: bool) | UartFreeMsb(uart: bool) | UartRxCnt(uart: bool) | UartRxData(uart: bool)
    | MStart | Cnt(dev: Dev) | Moved(dev: Dev) | Payload(dev: Dev)
    | SpiCnt | SpiRcvd | SpiData
    | OwCnt | OwRcvd | OwData | OwRom

  // The receiver's scratch fields. `left` counts what the current payload still lacks:
  // bytes, or for 1-Wire the bits minus one.
  datatype Mech = Mech(
    state: State, short: bool, nack: bool, last: bool, spu: bool,
    cnt: nat, left: nat, text: seq<byte>, uartLen: nat)

  // What the receiver tells the rest of the host.
  datatype Call =
    | CallVersion(text: seq<byte>)
    | CallInfo(block: seq<byte>)
    | CallGpio(b: byte)
    | CallUartFree(uart: bool, free: nat)
    | CallUartByte(uart: bool, b: byte)
    | CallBusError
    | CallArbLost
    | CallMStart(skipped: bool, nack: bool, ad: byte, read: bool)
    | CallMStop(skipped: bool)
    | CallCount(dev: Dev, cnt: nat)                                          // credit comes back
    | CallHeader(dev: Dev, short: bool, nack: bool, cnt: nat, moved: nat)
    | CallByte(dev: Dev, b: byte, left: nat)
    | CallSpiCount(skipped: bool, last: bool, ss: nat, cnt: nat)
    | CallSpiSkip(cnt: nat)
    | CallSpiByte(b: byte, lastByte: bool)
    | CallOwReset(skipped: bool, pd: bool)
    | CallOwCount(spu: bool, bits: nat)
    | CallOwSkip
    | CallOwByte(b: byte)
    | CallOwEnd(short: bool)
    | CallOwEnumHead(skipped: bool, found: bool)                              // credit comes back
    | CallOwEnum(skipped: bool, found: bool, rom: seq<byte>)
    | CallOwProbe(skipped: bool, found: bool)

  datatype Parsed = Fault | Next(m: Mech, calls: seq<Call>)

  const INFO_LEN := 16
  const VERSION_ROOM := 63

  // ---------------------------------------------------------------- one byte

  // Two bytes, least significant first, holding a number minus one.
  function Number(lsb: byte, msb: byte): nat {
    lsb + msb * 256 + 1
  }

  function OnCode(m: Mech, b: byte): Parsed {
    if b == 2 then Next(m.(state := Version, text := []), [])
    else if b == 3 then Next(m.(state := Info, text := []), [])
    else if b == 6 then Next(m.(state := GpioRead), [])
    else if b == 20 then Next(m.(state := UartFreeLsb(false)), [])
    else if b == 21 then Next(m.(state := UartFreeLsb(true)), [])
    else if b == 22 then Next(m.(state := UartRxCnt(false)), [])
    else if b == 23 then Next(m.(state := UartRxCnt(true)), [])
    else if b == 34 then Next(m, [CallBusError])
    else if b == 35 then Next(m, [CallArbLost])
    else OnFlaggedCode(m, b % 64, b >= 128, b % 128 >= 64)
  }

  // Response codes with two flag bits on top.
  function OnFlaggedCode(m: Mech, code: nat, bit7: bool, bit6: bool): Parsed {
    var m1 := m.(short := bit7, nack := bit6);
    if code == 36 then Next(m1.(state := MStart), [])
    else if code == 37 then if bit6 then Fault else Next(m, [CallMStop(bit7)])
    else if code == 38 then Next(m1.(state := Cnt(MasterTx)), [])
    else if code == 39 then Next(m1.(state := Cnt(MasterRx)), [])
    else if code == 42 then Next(m1.(state := Cnt(SlaveTx)), [])
    else if code == 43 then if bit6 then Fault else Next(m1.(state := Cnt(SlaveRx)), [])
    else if code == 53 then if bit6 then Fault else Next(m1.(state := SpiCnt), [])
    else if code == 58 then Next(m, [CallOwReset(bit7, bit6)])
    else if code == 59 then if bit6 then Fault else Next(m1.(state := OwCnt), [])
    else if code == 60 then
      if bit6 then Next(m1.(state := OwRom, text := []), [CallOwEnumHead(bit7, true)])
      else Next(m, [CallOwEnumHead(bit7, false), CallOwEnum(bit7, false, [])])
    else if code == 61 then Next(m, [CallOwProbe(bit7, bit6)])
    else Fault
  }

  function OnText(m: Mech, b: byte): Parsed {
    if b == 0 then Next(m.(state := Rsp), [CallVersion(m.text)])
    else if |m.text| + 1 == VERSION_ROOM then Fault
    else Next(m.(text := m.text + [b]), [])
  }

  function OnInfo(m: Mech, b: byte): Parsed {
    if |m.text| == 0 && b < INFO_LEN then Fault
    else
      var t := m.text + [b];
      if |t| == t[0] && |t| >= INFO_LEN then
        Next(m.(state := Rsp, text := t, uartLen := Number(t[2], t[3])), [CallInfo(t[..INFO_LEN])])
      else Next(m.(text := t), [])
  }

  function OnUart(m: Mech, b: byte): Parsed
    requires m.state.UartFreeLsb? || m.state.UartFreeMsb? || m.state.UartRxCnt? || m.state.UartRxData?
  {
    match m.state
    case UartFreeLsb(u) => Next(m.(state := UartFreeMsb(u), cnt := b), [])
    case UartFreeMsb(u) =>
      var free := m.cnt + b * 256 + 1;
      if free > m.uartLen then Fault else Next(m.(state := Rsp), [CallUartFree(u, free)])
    case UartRxCnt(u) => Next(m.(state := UartRxData(u), left := b), [])
    case UartRxData(u) =>
      if m.left > 0 then Next(m.(left := m.left - 1), [CallUartByte(u, b)])
      else Next(m.(state := Rsp), [CallUartByte(u, b)])
  }

  predicate Receives(dev: Dev) {
    dev == MasterRx || dev == SlaveRx
  }

  function OnTwi(m: Mech, b: byte): Parsed
    requires m.state.MStart? || m.state.Cnt? || m.state.Moved? || m.state.Payload?
  {
    match m.state
    case MStart => Next(m.(state := Rsp), [CallMStart(m.short, m.nack, b / 2, b % 2 == 1)])
    case Cnt(dev) =>
      var cnt := b % 32 + 1;
      if m.short then Next(m.(state := Rsp, cnt := cnt), [CallCount(dev, cnt), CallHeader(dev, true, m.nack, cnt, 0)])
      else Next(m.(state := Moved(dev), cnt := cnt), [CallCount(dev, cnt)])
    case Moved(dev) =>
      var moved := b % 32 + 1;
      if b >= 32 || moved > m.cnt then Fault
      else
        var short := m.short || moved < m.cnt;
        Next(m.(state := if Receives(dev) then Payload(dev) else Rsp, short := short, left := moved),
             [CallHeader(dev, short, m.nack, m.cnt, moved)])
    case Payload(dev) =>
      var left := if m.left > 0 then m.left - 1 else 255;
      Next(m.(state := if left == 0 then Rsp else Payload(dev), left := left), [CallByte(dev, b, left)])
  }

  function OnSpi(m: Mech, b: byte): Parsed
    requires m.state.SpiCnt? || m.state.SpiRcvd? || m.state.SpiData?
  {
    match m.state
    case SpiCnt =>
      var cnt := b % 32 + 1;
      var count := CallSpiCount(m.short, b >= 128, b / 32 % 4, cnt);
      var m1 := m.(cnt := cnt, last := b >= 128);
      if m.short then Next(m1.(state := Rsp), [count, CallSpiSkip(cnt)])
      else Next(m1.(state := SpiRcvd), [count])
    case SpiRcvd =>
      if b >= 32 || b + 1 > m.cnt then Fault
      else Next(m.(state := SpiData, left := b), [])
    case SpiData =>
      if m.left > 0 then Next(m.(left := m.left - 1), [CallSpiByte(b, false)])
      else Next(m.(state := Rsp), [CallSpiByte(b, m.last)])
  }

  function OnOw(m: Mech, b: byte): Parsed
    requires m.state.OwCnt? || m.state.OwRcvd? || m.state.OwData? || m.state.OwRom?
  {
    match m.state
    case OwCnt =>
      var m1 := m.(cnt := b % 128 + 1, spu := b >= 128);
      var count := CallOwCount(b >= 128, b % 128 + 1);
      if m.short then Next(m1.(state := Rsp), [count, CallOwSkip])
      else Next(m1.(state := OwRcvd), [count])
    case OwRcvd =>
      if b >= 128 || b + 1 > m.cnt then Fault
      else Next(m.(state := OwData, left := b, short := m.short || b + 1 < m.cnt), [])
    case OwData =>
      if m.left >= 8 then Next(m.(left := m.left - 8), [CallOwByte(b)])
      else Next(m.(state := Rsp), [CallOwByte(b), CallOwEnd(m.short)])
    case OwRom =>
      var t := m.text + [b];
      if |t| == 8 then Next(m.(state := Rsp, text := t), [CallOwEnum(m.short, true, t)])
      else Next(m.(text := t), [])
  }

  function OnByte(m: Mech, b: byte): Parsed {
    match m.state
    case Rsp => OnCode(m, b)
    case Version => OnText(m, b)
    case Info => OnInfo(m, b)
    case GpioRead => Next(m.(state := Rsp), [CallGpio(b)])
    case UartFreeLsb(_) => OnUart(m, b)
    case UartFreeMsb(_) => OnUart(m, b)
    case UartRxCnt(_) => OnUart(m, b)
    case UartRxData(_) => OnUart(m, b)
    case MStart => OnTwi(m, b)
    case Cnt(_) => OnTwi(m, b)
    case Moved(_) => OnTwi(m, b)
    case Payload(_) => OnTwi(m, b)
    case SpiCnt => OnSpi(m, b)
    case SpiRcvd => OnSpi(m, b)
    case SpiData => OnSpi(m, b)
    case OwCnt => OnOw(m, b)
    case OwRcvd => OnOw(m, b)
    case OwData => OnOw(m, b)
    case OwRom => OnOw(m, b)
  }

  // ---------------------------------------------------------------- a stream of bytes

  // The machine after the bytes, or None if it met a fault, and the calls made.
  datatype Fed = Fed(m: Option<Mech>, calls: seq<Call>)

  function Feed(m: Mech, s: seq<byte>): Fed
    decreases |s|
  {
    if s == [] then Fed(Some(m), [])
    else match OnByte(m, s[0])
         case Fault => Fed(None, [])
         case Next(m1, calls) =>
           var rest := Feed(m1, s[1..]);
           Fed(rest.m, calls + rest.calls)
  }

  lemma FeedOne(m: Mech, b: byte)
    ensures Feed(m, [b]) ==
      match OnByte(m, b)
      case Fault => Fed(None, [])
      case Next(m1, calls) => Fed(Some(m1), calls)
  {
    assert [b][1..] == [];
    match OnByte(m, b)
    case Fault =>
    case Next(m1, calls) => assert calls + [] == calls;
  }

  function FeedMore(f: Fed, s: seq<byte>): Fed {
    match f.m
    case None => f
    case Some(m) => var rest := Feed(m, s); Fed(rest.m, f.calls + rest.calls)
  }

  // How the stream is cut into reads makes no difference.
  lemma {:induction false} FeedSplit(m: Mech, a: seq<byte>, b: seq<byte>)
    ensures Feed(m, a + b) == FeedMore(Feed(m, a), b)
    decreases |a|
  {
    if a == [] {
      assert a + b == b;
      assert [] + Feed(m, b).calls == Feed(m, b).calls;
    } else {
      assert (a + b)[1..] == a[1..] + b && (a + b)[0] == a[0];
      match OnByte(m, a[0])
      case Fault =>
      case Next(m1, calls) =>
        FeedSplit(m1, a[1..], b);
        var fa := Feed(m1, a[1..]);
        if fa.m.Some? {
          var fb := Feed(fa.m.value, b);
          assert calls + (fa.calls + fb.calls) == (calls + fa.calls) + fb.calls;
        }
    }
  }

  function Flatten(chunks: seq<seq<byte>>): seq<byte> {
    if chunks == [] then [] else chunks[0] + Flatten(chunks[1..])
  }

  function FeedChunks(f: Fed, chunks: seq<seq<byte>>): Fed
    decreases |chunks|
  {
    if chunks == [] then f else FeedChunks(FeedMore(f, chunks[0]), chunks[1..])
  }

  lemma {:induction false} ChunksDoNotMatter(m: Mech, done: seq<byte>, chunks: seq<seq<byte>>)
    ensures FeedChunks(Feed(m, done), chunks) == Feed(m, done + Flatten(chunks))
    decreases |chunks|
  {
    if chunks == [] {
      assert done + [] == done;
    } else {
      FeedSplit(m, done, chunks[0]);
      ChunksDoNotMatter(m, done + chunks[0], chunks[1..]);
      assert (done + chunks[0]) + Flatten(chunks[1..]) == done + Flatten(chunks);
    }
  }

  // ---------------------------------------------------------------- the receiver as an object

  class RxMech {
    var m: Mech

    constructor ()
      ensures m == Mech(Rsp, false, false, false, false, 0, 0, [], 0)
    {
      m := Mech(Rsp, false, false, false, false, 0, 0, [], 0);
    }

    // Hands the calls of one byte to their handlers, which accept so many in all.
    method MakeCalls(more: seq<Call>, made: seq<Call>, accepts: nat) returns (ok: bool, calls: seq<Call>)
      requires |made| <= accepts
      ensures ok <==> |made + more| <= accepts
      ensures calls == if ok then made + more else (made + more)[..accepts + 1]
    {
      calls := made;
      var k := 0;
      assert made + more[..0] == made;
      while k < |more|
        invariant 0 <= k <= |more| && |calls| <= accepts && calls == made + more[..k]
      {
        calls := calls + [more[k]];
        assert more[..k] + [more[k]] == more[..k + 1];
        assert calls == made + more[..k + 1];
        if |calls| > accepts {
          assert (made + more)[..accepts + 1] == calls;
          return false, calls;
        }
        k := k + 1;
      }
      assert more[..k] == more;
      return true, calls;
    }

    // Reads what is there, one byte at a time, and stops at the first fault, or at the
    // first call its handler refuses: the handlers accept so many calls before that.
    method StepRx(data: seq<byte>, accepts: nat) returns (ok: bool, calls: seq<Call>)
      modifies this
      ensures var f := Feed(old(m), data);
        && (ok <==> f.m.Some? && |f.calls| <= accepts)
        && calls == (if |f.calls| <= accepts then f.calls else f.calls[..accepts + 1])
        && (ok ==> m == f.m.value)
    {
      calls := [];
      var k := 0;
      while k < |data|
        invariant 0 <= k <= |data| && |calls| <= accepts
        invariant Feed(old(m), data[..k]) == Fed(Some(m), calls)
        decreases |data| - k
      {
        FeedSplit(old(m), data[..k], [data[k]]);
        FeedOne(m, data[k]);
        assert data[..k] + [data[k]] == data[..k + 1];
        FeedSplit(old(m), data[..k + 1], data[k + 1..]);
        assert data[..k + 1] + data[k + 1..] == data;
        match OnByte(m, data[k])
        case Fault =>
          assert calls + [] == calls;
          return false, calls;
        case Next(m1, more) =>
          ghost var all := Feed(old(m), data).calls;
          assert calls + more <= all;
          m := m1;
          var taken;
          taken, calls := MakeCalls(more, calls, accepts);
          if !taken {
            assert all[..accepts + 1] == calls;
            return false, calls;
          }
        k := k + 1;
      }
      assert data[..k] == data;
      return true, calls;
    }
  }
}
