/**
 The device's response packets and how they are printed, and the proof that the
 receiver inverts the printer: whatever the packets, their order, and the way the
 stream is cut, the handlers are called with exactly what was printed.
 */
module RxPackets {
  import opened Basics
  import opened RxParser

  datatype Packet =
    | PVersion(text: seq<byte>)
    | PInfo(block: seq<byte>)
    | PGpio(b: byte)
    | PUartFree(uart: bool, free: nat)
    | PUartRx(uart: bool, data: seq<byte>)
    | PBusError
    | PArbLost
    | PMStart(skipped: bool, nack: bool, ad: byte, read: bool)
    | PMStop(skipped: bool)
    | PSkipped(dev: Dev, nack: bool, cnt: nat)
    | PMoved(dev: Dev, nack: bool, cnt: nat, moved: nat, data: seq<byte>)
    | PSpiSkipped(last: bool, ss: nat, cnt: nat)
    | PSpi(last: bool, ss: nat, cnt: nat, data: seq<byte>)
    | POwReset(skipped: bool, pd: bool)
    | POwSkipped(spu: bool, bits: nat)
    | POwTouch(spu: bool, bits: nat, rcvd: nat, data: seq<byte>)
    | POwEnumNone(skipped: bool)
    | POwEnum(skipped: bool, rom: seq<byte>)
    | POwProbe(skipped: bool, found: bool)

  // What a device may print; `uartLen` is the UART buffer length it announced.
  predicate WellFormed(p: Packet, uartLen: nat) {
    match p
    case PVersion(text) => |text| < VERSION_ROOM && forall i :: 0 <= i < |text| ==> text[i] != 0
    case PInfo(block) => INFO_LEN <= |block| < 256 && block[0] == |block|
    case PUartFree(_, free) => 1 <= free <= 65536 && free <= uartLen
    case PUartRx(_, data) => 1 <= |data| <= 256
    case PMStart(_, _, ad, _) => ad < 128
    case PSkipped(dev, nack, cnt) => 1 <= cnt <= 32 && (dev == SlaveRx ==> !nack)
    case PMoved(dev, nack, cnt, moved, data) =>
      && 1 <= moved <= cnt <= 32 && (dev == SlaveRx ==> !nack)
      && |data| == (if Receives(dev) then moved else 0)
    case PSpiSkipped(_, ss, cnt) => ss < 4 && 1 <= cnt <= 32
    case PSpi(_, ss, cnt, data) => ss < 4 && 1 <= |data| <= cnt <= 32
    case POwSkipped(_, bits) => 1 <= bits <= 128
    case POwTouch(_, bits, rcvd, data) => 1 <= rcvd <= bits <= 128 && |data| == (rcvd + 7) / 8
    case POwEnum(_, rom) => |rom| == 8
    case _ => true
  }

  function Bit(on: bool, weight: byte): byte {
    if on then weight else 0
  }

  function DevCode(dev: Dev): byte {
    match dev
    case MasterTx => 38
    case MasterRx => 39
    case SlaveTx => 42
    case SlaveRx => 43
  }

  function Code(code: byte, bit7: bool, bit6: bool): (b: byte)
    requires code < 64
    ensures b % 64 == code && (b >= 128 <==> bit7) && (b % 128 >= 64 <==> bit6)
  {
    code + Bit(bit7, 128) + Bit(bit6, 64)
  }

  function UartCode(base: byte, uart: bool): byte
    requires base < 100
  {
    base + Bit(uart, 1)
  }

  function Print(p: Packet, uartLen: nat): seq<byte>
    requires WellFormed(p, uartLen)
  {
    match p
    case PVersion(text) => [2] + (text + [0])
    case PInfo(block) => [3] + block
    case PGpio(b) => [6, b]
    case PUartFree(u, free) => [UartCode(20, u), (free - 1) % 256, (free - 1) / 256]
    case PUartRx(u, data) => [UartCode(22, u), |data| - 1] + data
    case PBusError => [34]
    case PArbLost => [35]
    case PMStart(skipped, nack, ad, read) => [Code(36, skipped, nack), ad * 2 + Bit(read, 1)]
    case PMStop(skipped) => [Code(37, skipped, false)]
    case PSkipped(dev, nack, cnt) => [Code(DevCode(dev), true, nack), cnt - 1]
    case PMoved(dev, nack, cnt, moved, data) => [Code(DevCode(dev), false, nack), cnt - 1, moved - 1] + data
    case PSpiSkipped(last, ss, cnt) => [Code(53, true, false), Bit(last, 128) + ss * 32 + cnt - 1]
    case PSpi(last, ss, cnt, data) =>
      [Code(53, false, false), Bit(last, 128) + ss * 32 + cnt - 1, |data| - 1] + data
    case POwReset(skipped, pd) => [Code(58, skipped, pd)]
    case POwSkipped(spu, bits) => [Code(59, true, false), Bit(spu, 128) + bits - 1]
    case POwTouch(spu, bits, rcvd, data) => [Code(59, false, false), Bit(spu, 128) + bits - 1, rcvd - 1] + data
    case POwEnumNone(skipped) => [Code(60, skipped, false)]
    case POwEnum(skipped, rom) => [Code(60, skipped, true)] + rom
    case POwProbe(skipped, found) => [Code(61, skipped, found)]
  }

  // ---------------------------------------------------------------- the calls a packet stands for

  function UartCalls(uart: bool, data: seq<byte>): seq<Call> {
    if data == [] then [] else [CallUartByte(uart, data[0])] + UartCalls(uart, data[1..])
  }

  function ByteCalls(dev: Dev, data: seq<byte>): seq<Call> {
    if data == [] then [] else [CallByte(dev, data[0], |data| - 1)] + ByteCalls(dev, data[1..])
  }

  function SpiCalls(last: bool, data: seq<byte>): seq<Call> {
    if data == [] then [] else [CallSpiByte(data[0], last && |data| == 1)] + SpiCalls(last, data[1..])
  }

  function OwCalls(data: seq<byte>): seq<Call> {
    if data == [] then [] else [CallOwByte(data[0])] + OwCalls(data[1..])
  }

  function CallsOf(p: Packet): seq<Call> {
    match p
    case PVersion(text) => [CallVersion(text)]
    case PInfo(block) => [CallInfo(block[..Min(INFO_LEN, |block|)])]
    case PGpio(b) => [CallGpio(b)]
    case PUartFree(u, free) => [CallUartFree(u, free)]
    case PUartRx(u, data) => UartCalls(u, data)
    case PBusError => [CallBusError]
    case PArbLost => [CallArbLost]
    case PMStart(skipped, nack, ad, read) => [CallMStart(skipped, nack, ad, read)]
    case PMStop(skipped) => [CallMStop(skipped)]
    case PSkipped(dev, nack, cnt) => [CallCount(dev, cnt), CallHeader(dev, true, nack, cnt, 0)]
    case PMoved(dev, nack, cnt, moved, data) =>
      [CallCount(dev, cnt), CallHeader(dev, moved < cnt, nack, cnt, moved)] + ByteCalls(dev, data)
    case PSpiSkipped(last, ss, cnt) => [CallSpiCount(true, last, ss, cnt), CallSpiSkip(cnt)]
    case PSpi(last, ss, cnt, data) => [CallSpiCount(false, last, ss, cnt)] + SpiCalls(last, data)
    case POwReset(skipped, pd) => [CallOwReset(skipped, pd)]
    case POwSkipped(spu, bits) => [CallOwCount(spu, bits), CallOwSkip]
    case POwTouch(spu, bits, rcvd, data) =>
      [CallOwCount(spu, bits)] + OwCalls(data) + [CallOwEnd(rcvd < bits)]
    case POwEnumNone(skipped) => [CallOwEnumHead(skipped, false), CallOwEnum(skipped, false, [])]
    case POwEnum(skipped, rom) => [CallOwEnumHead(skipped, true), CallOwEnum(skipped, true, rom)]
    case POwProbe(skipped, found) => [CallOwProbe(skipped, found)]
  }

  function UartLenAfter(p: Packet, uartLen: nat): nat {
    if p.PInfo? && |p.block| > 3 then Number(p.block[2], p.block[3]) else uartLen
  }

  // At rest with that UART length; the scratch fields do not matter.
  predicate AtRest(m: Mech, uartLen: nat) {
    m.state == Rsp && m.uartLen == uartLen
  }

  // The machine took in the bytes, made these calls, and is at rest again.
  predicate Takes(m: Mech, s: seq<byte>, calls: seq<Call>, uartLen: nat) {
    var f := Feed(m, s);
    f.calls == calls && f.m.Some? && AtRest(f.m.value, uartLen)
  }

  // ---------------------------------------------------------------- payload loops

  // One byte into the machine, then the rest.
  lemma TakesStep(m: Mech, b: byte, rest: seq<byte>, m1: Mech, now: seq<Call>, later: seq<Call>, uartLen: nat)
    requires OnByte(m, b) == Next(m1, now) && Takes(m1, rest, later, uartLen)
    ensures Takes(m, [b] + rest, now + later, uartLen)
  {
    assert ([b] + rest)[1..] == rest;
  }

  lemma {:induction false} TakesText(m: Mech, text: seq<byte>)
    requires m.state == Version && |m.text| + |text| < VERSION_ROOM
    requires forall i :: 0 <= i < |text| ==> text[i] != 0
    ensures Takes(m, text + [0], [CallVersion(m.text + text)], m.uartLen)
    decreases |text|
  {
    if text == [] {
      assert text + [0] == [0] && m.text + text == m.text;
      FeedOne(m, 0);
    } else {
      var m1 := m.(text := m.text + [text[0]]);
      TakesText(m1, text[1..]);
      TakesStep(m, text[0], text[1..] + [0], m1, [], [CallVersion(m1.text + text[1..])], m.uartLen);
      assert [text[0]] + (text[1..] + [0]) == text + [0];
      assert m1.text + text[1..] == m.text + text;
    }
  }

  // What is left of the info block, after the bytes already taken.
  lemma {:induction false} TakesInfo(m: Mech, block: seq<byte>, k: nat)
    requires m.state == Info && INFO_LEN <= |block| < 256 && block[0] == |block|
    requires k < |block| && m.text == block[..k]
    ensures Takes(m, block[k..], [CallInfo(block[..INFO_LEN])], Number(block[2], block[3]))
    decreases |block| - k
  {
    var t := m.text + [block[k]];
    assert t == block[..k + 1];
    assert block[k..] == [block[k]] + block[k + 1..];
    if k + 1 == |block| {
      assert block[k + 1..] == [] && t == block;
      FeedOne(m, block[k]);
    } else {
      var m1 := m.(text := t);
      TakesInfo(m1, block, k + 1);
      TakesStep(m, block[k], block[k + 1..], m1, [], [CallInfo(block[..INFO_LEN])], Number(block[2], block[3]));
    }
  }

  lemma {:induction false} TakesUart(m: Mech, u: bool, data: seq<byte>)
    requires m.state == UartRxData(u) && data != [] && m.left == |data| - 1
    ensures Takes(m, data, UartCalls(u, data), m.uartLen)
    decreases |data|
  {
    assert data == [data[0]] + data[1..];
    if |data| == 1 {
      FeedOne(m, data[0]);
      assert data[1..] == [] && data == [data[0]];
    } else {
      var m1 := m.(left := m.left - 1);
      TakesUart(m1, u, data[1..]);
      TakesStep(m, data[0], data[1..], m1, [CallUartByte(u, data[0])], UartCalls(u, data[1..]), m.uartLen);
    }
  }

  lemma {:induction false} TakesPayload(m: Mech, dev: Dev, data: seq<byte>)
    requires m.state == Payload(dev) && data != [] && m.left == |data|
    ensures Takes(m, data, ByteCalls(dev, data), m.uartLen)
    decreases |data|
  {
    assert data == [data[0]] + data[1..];
    if |data| == 1 {
      FeedOne(m, data[0]);
      assert data[1..] == [] && data == [data[0]];
    } else {
      var m1 := m.(left := m.left - 1);
      TakesPayload(m1, dev, data[1..]);
      TakesStep(m, data[0], data[1..], m1, [CallByte(dev, data[0], |data| - 1)], ByteCalls(dev, data[1..]), m.uartLen);
    }
  }

  lemma {:induction false} TakesSpi(m: Mech, data: seq<byte>)
    requires m.state == SpiData && data != [] && m.left == |data| - 1
    ensures Takes(m, data, SpiCalls(m.last, data), m.uartLen)
    decreases |data|
  {
    assert data == [data[0]] + data[1..];
    if |data| == 1 {
      FeedOne(m, data[0]);
      assert data[1..] == [] && data == [data[0]];
    } else {
      var m1 := m.(left := m.left - 1);
      TakesSpi(m1, data[1..]);
      TakesStep(m, data[0], data[1..], m1, [CallSpiByte(data[0], false)], SpiCalls(m.last, data[1..]), m.uartLen);
    }
  }

  lemma {:induction false} TakesOw(m: Mech, data: seq<byte>)
    requires m.state == OwData && data != [] && m.left / 8 == |data| - 1
    ensures Takes(m, data, OwCalls(data) + [CallOwEnd(m.short)], m.uartLen)
    decreases |data|
  {
    assert data == [data[0]] + data[1..];
    if |data| == 1 {
      FeedOne(m, data[0]);
      assert data[1..] == [] && data == [data[0]];
      assert OwCalls(data) == [CallOwByte(data[0])];
    } else {
      var m1 := m.(left := m.left - 8);
      TakesOw(m1, data[1..]);
      TakesStep(m, data[0], data[1..], m1, [CallOwByte(data[0])], OwCalls(data[1..]) + [CallOwEnd(m.short)], m.uartLen);
      assert [CallOwByte(data[0])] + (OwCalls(data[1..]) + [CallOwEnd(m.short)]) ==
        OwCalls(data) + [CallOwEnd(m.short)];
    }
  }

  lemma {:induction false} TakesRom(m: Mech, rom: seq<byte>)
    requires m.state == OwRom && rom != [] && |m.text| + |rom| == 8
    ensures Takes(m, rom, [CallOwEnum(m.short, true, m.text + rom)], m.uartLen)
    decreases |rom|
  {
    assert rom == [rom[0]] + rom[1..];
    if |rom| == 1 {
      FeedOne(m, rom[0]);
      assert rom[1..] == [] && rom == [rom[0]];
    } else {
      var m1 := m.(text := m.text + [rom[0]]);
      TakesRom(m1, rom[1..]);
      assert m1.text + rom[1..] == m.text + rom;
      TakesStep(m, rom[0], rom[1..], m1, [], [CallOwEnum(m.short, true, m.text + rom)], m.uartLen);
    }
  }

  // ---------------------------------------------------------------- one packet

  lemma TakesOne(m: Mech, b: byte, m1: Mech, calls: seq<Call>)
    requires OnByte(m, b) == Next(m1, calls) && m1.state == Rsp
    ensures Takes(m, [b], calls, m1.uartLen)
  {
    FeedOne(m, b);
  }

  lemma TakesTwo(m: Mech, a: byte, b: byte, m1: Mech, m2: Mech, now: seq<Call>, later: seq<Call>)
    requires OnByte(m, a) == Next(m1, now) && OnByte(m1, b) == Next(m2, later) && m2.state == Rsp
    ensures Takes(m, [a, b], now + later, m2.uartLen)
  {
    TakesOne(m1, b, m2, later);
    TakesStep(m, a, [b], m1, now, later, m2.uartLen);
    assert [a] + [b] == [a, b];
  }

  // Two bytes into the machine, the first of which calls nothing, then the rest.
  lemma TakesHead(m: Mech, a: byte, b: byte, tail: seq<byte>, m1: Mech, m2: Mech,
                  now: seq<Call>, later: seq<Call>, uartLen: nat)
    requires OnByte(m, a) == Next(m1, []) && OnByte(m1, b) == Next(m2, now) && Takes(m2, tail, later, uartLen)
    ensures Takes(m, [a, b] + tail, now + later, uartLen)
  {
    TakesStep(m1, b, tail, m2, now, later, uartLen);
    TakesStep(m, a, [b] + tail, m1, [], now + later, uartLen);
    assert [a] + ([b] + tail) == [a, b] + tail;
    assert [] + (now + later) == now + later;
  }

  lemma TakesText0(m: Mech, p: Packet, uartLen: nat)
    requires AtRest(m, uartLen) && WellFormed(p, uartLen) && (p.PVersion? || p.PInfo? || p.PGpio?)
    ensures Takes(m, Print(p, uartLen), CallsOf(p), UartLenAfter(p, uartLen))
  {
    match p
    case PVersion(text) =>
      var m1 := m.(state := Version, text := []);
      TakesText(m1, text);
      assert [] + text == text;
      TakesStep(m, 2, text + [0], m1, [], [CallVersion(text)], uartLen);
    case PInfo(block) =>
      var m1 := m.(state := Info, text := []);
      TakesInfo(m1, block, 0);
      assert block[0..] == block;
      TakesStep(m, 3, block, m1, [], [CallInfo(block[..INFO_LEN])], Number(block[2], block[3]));
    case PGpio(b) =>
      TakesTwo(m, 6, b, m.(state := GpioRead), m, [], [CallGpio(b)]);
  }

  lemma TakesUartFree(m: Mech, p: Packet, uartLen: nat)
    requires AtRest(m, uartLen) && WellFormed(p, uartLen) && p.PUartFree?
    ensures Takes(m, Print(p, uartLen), CallsOf(p), uartLen)
  {
    var lsb: byte, msb: byte := (p.free - 1) % 256, (p.free - 1) / 256;
    var m1 := m.(state := UartFreeLsb(p.uart));
    TakesUartRoom(m1, lsb, msb, p.uart, p.free);
    TakesStep(m, UartCode(20, p.uart), [lsb, msb], m1, [], [CallUartFree(p.uart, p.free)], uartLen);
  }

  lemma TakesUartRoom(m1: Mech, lsb: byte, msb: byte, u: bool, free: nat)
    requires m1.state == UartFreeLsb(u) && free == lsb + msb * 256 + 1 && free <= m1.uartLen
    ensures Takes(m1, [lsb, msb], [CallUartFree(u, free)], m1.uartLen)
  {
    var m2 := m1.(state := UartFreeMsb(u), cnt := lsb);
    TakesTwo(m1, lsb, msb, m2, m2.(state := Rsp), [], [CallUartFree(u, free)]);
  }

  lemma TakesUartRx(m: Mech, p: Packet, uartLen: nat)
    requires AtRest(m, uartLen) && WellFormed(p, uartLen) && p.PUartRx?
    ensures Takes(m, Print(p, uartLen), CallsOf(p), uartLen)
  {
    var m1 := m.(state := UartRxCnt(p.uart));
    var m2 := m1.(state := UartRxData(p.uart), left := |p.data| - 1);
    TakesUart(m2, p.uart, p.data);
    TakesHead(m, UartCode(22, p.uart), |p.data| - 1, p.data, m1, m2, [], UartCalls(p.uart, p.data), uartLen);
  }

  // A code with flag bits is told apart from the plain codes.
  lemma CodeStep(m: Mech, code: byte, bit7: bool, bit6: bool)
    requires m.state == Rsp && 36 <= code < 64
    ensures OnByte(m, Code(code, bit7, bit6)) == OnFlaggedCode(m, code, bit7, bit6)
  {
  }

  lemma TakesFlags(m: Mech, p: Packet, uartLen: nat)
    requires AtRest(m, uartLen) && WellFormed(p, uartLen)
    requires p.PBusError? || p.PArbLost? || p.PMStop? || p.POwReset? || p.POwEnumNone? || p.POwProbe?
    ensures Takes(m, Print(p, uartLen), CallsOf(p), uartLen)
  {
    if p.PMStop? || p.POwReset? || p.POwEnumNone? || p.POwProbe? {
      var code: byte := if p.PMStop? then 37 else if p.POwReset? then 58 else if p.POwEnumNone? then 60 else 61;
      var bit6 := if p.POwReset? then p.pd else if p.POwProbe? then p.found else false;
      CodeStep(m, code, p.skipped, bit6);
      TakesOne(m, Code(code, p.skipped, bit6), m, CallsOf(p));
    } else {
      TakesOne(m, if p.PBusError? then 34 else 35, m, CallsOf(p));
    }
  }

  lemma TakesMStart(m: Mech, p: Packet, uartLen: nat)
    requires AtRest(m, uartLen) && WellFormed(p, uartLen) && p.PMStart?
    ensures Takes(m, Print(p, uartLen), CallsOf(p), uartLen)
  {
    var b: byte := p.ad * 2 + Bit(p.read, 1);
    var m1 := m.(state := MStart, short := p.skipped, nack := p.nack);
    CodeStep(m, 36, p.skipped, p.nack);
    assert b / 2 == p.ad && (b % 2 == 1 <==> p.read);
    TakesTwo(m, Code(36, p.skipped, p.nack), b, m1, m1.(state := Rsp), [], CallsOf(p));
  }

  lemma TakesSkipped(m: Mech, p: Packet, uartLen: nat)
    requires AtRest(m, uartLen) && WellFormed(p, uartLen) && p.PSkipped?
    ensures Takes(m, Print(p, uartLen), CallsOf(p), uartLen)
  {
    var m1 := m.(state := Cnt(p.dev), short := true, nack := p.nack);
    CodeStep(m, DevCode(p.dev), true, p.nack);
    TakesTwo(m, Code(DevCode(p.dev), true, p.nack), p.cnt - 1, m1, m1.(state := Rsp, cnt := p.cnt), [], CallsOf(p));
  }

  // After the two counts of a TWI data response: its payload, if there is one.
  lemma TakesRest(m2: Mech, p: Packet)
    requires WellFormed(p, m2.uartLen) && p.PMoved?
    requires m2.state == Moved(p.dev) && m2.cnt == p.cnt && !m2.short && m2.nack == p.nack
    ensures Takes(m2, [p.moved - 1] + p.data,
                  [CallHeader(p.dev, p.moved < p.cnt, p.nack, p.cnt, p.moved)] + ByteCalls(p.dev, p.data), m2.uartLen)
  {
    var m3 := m2.(state := if Receives(p.dev) then Payload(p.dev) else Rsp, short := p.moved < p.cnt, left := p.moved);
    if Receives(p.dev) {
      TakesPayload(m3, p.dev, p.data);
    } else {
      assert p.data == [] && ByteCalls(p.dev, p.data) == [];
    }
    TakesStep(m2, p.moved - 1, p.data, m3, [CallHeader(p.dev, p.moved < p.cnt, p.nack, p.cnt, p.moved)],
              ByteCalls(p.dev, p.data), m2.uartLen);
  }

  lemma Regroup<T>(a: T, b: T, c: T, s: seq<T>)
    ensures [a, b] + ([c] + s) == [a, b, c] + s
    ensures [a] + ([b] + s) == [a, b] + s
  {
  }

  lemma TakesMoved(m: Mech, p: Packet, uartLen: nat)
    requires AtRest(m, uartLen) && WellFormed(p, uartLen) && p.PMoved?
    ensures Takes(m, Print(p, uartLen), CallsOf(p), uartLen)
  {
    var m1 := m.(state := Cnt(p.dev), short := false, nack := p.nack);
    var code := Code(DevCode(p.dev), false, p.nack);
    CodeStep(m, DevCode(p.dev), false, p.nack);
    var m2 := m1.(state := Moved(p.dev), cnt := p.cnt);
    TakesRest(m2, p);
    TakesMovedJoin(m, p, uartLen, code, m1, m2);
  }

  lemma TakesMovedJoin(m: Mech, p: Packet, uartLen: nat, code: byte, m1: Mech, m2: Mech)
    requires WellFormed(p, uartLen) && p.PMoved? && code == Code(DevCode(p.dev), false, p.nack)
    requires OnByte(m, code) == Next(m1, []) && OnByte(m1, p.cnt - 1) == Next(m2, [CallCount(p.dev, p.cnt)])
    requires Takes(m2, [p.moved - 1] + p.data,
                  [CallHeader(p.dev, p.moved < p.cnt, p.nack, p.cnt, p.moved)] + ByteCalls(p.dev, p.data), uartLen)
    ensures Takes(m, Print(p, uartLen), CallsOf(p), uartLen)
  {
    var header := CallHeader(p.dev, p.moved < p.cnt, p.nack, p.cnt, p.moved);
    var bytes := ByteCalls(p.dev, p.data);
    TakesHead(m, code, p.cnt - 1, [p.moved - 1] + p.data, m1, m2, [CallCount(p.dev, p.cnt)], [header] + bytes, uartLen);
    Regroup<byte>(code, p.cnt - 1, p.moved - 1, p.data);
    Regroup(CallCount(p.dev, p.cnt), header, header, bytes);
  }

  // The byte with the last flag, the slave select line and the count of an SPI response.
  lemma SpiByte(last: bool, ss: nat, cnt: nat) returns (b: byte)
    requires ss < 4 && 1 <= cnt <= 32
    ensures b == Bit(last, 128) + ss * 32 + cnt - 1
    ensures b % 32 + 1 == cnt && (b >= 128 <==> last) && b / 32 % 4 == ss
  {
    b := Bit(last, 128) + ss * 32 + cnt - 1;
  }

  lemma TakesSpiSkipped(m: Mech, p: Packet, uartLen: nat)
    requires AtRest(m, uartLen) && WellFormed(p, uartLen) && p.PSpiSkipped?
    ensures Takes(m, Print(p, uartLen), CallsOf(p), uartLen)
  {
    var b := SpiByte(p.last, p.ss, p.cnt);
    var m1 := m.(state := SpiCnt, short := true, nack := false);
    CodeStep(m, 53, true, false);
    TakesTwo(m, Code(53, true, false), b, m1, m1.(state := Rsp, cnt := p.cnt, last := p.last), [], CallsOf(p));
  }

  // After the two counts of a full SPI response.
  lemma TakesSpiRest(m2: Mech, p: Packet)
    requires p.PSpi? && WellFormed(p, m2.uartLen)
    requires m2.state == SpiRcvd && m2.cnt == p.cnt && m2.last == p.last
    ensures Takes(m2, [|p.data| - 1] + p.data, SpiCalls(p.last, p.data), m2.uartLen)
  {
    var m3 := m2.(state := SpiData, left := |p.data| - 1);
    var later := SpiCalls(p.last, p.data);
    TakesSpi(m3, p.data);
    TakesStep(m2, |p.data| - 1, p.data, m3, [], later, m2.uartLen);
    assert [] + later == later;
  }

  lemma TakesSpiPacket(m: Mech, p: Packet, uartLen: nat)
    requires AtRest(m, uartLen) && WellFormed(p, uartLen) && p.PSpi?
    ensures Takes(m, Print(p, uartLen), CallsOf(p), uartLen)
  {
    var b := SpiByte(p.last, p.ss, p.cnt);
    var m1 := m.(state := SpiCnt, short := false, nack := false);
    CodeStep(m, 53, false, false);
    var m2 := m1.(state := SpiRcvd, cnt := p.cnt, last := p.last);
    assert OnByte(m1, b) == Next(m2, [CallSpiCount(false, p.last, p.ss, p.cnt)]);
    TakesSpiRest(m2, p);
    TakesSpiJoin(m, p, uartLen, b, m1, m2);
  }

  lemma TakesSpiJoin(m: Mech, p: Packet, uartLen: nat, b: byte, m1: Mech, m2: Mech)
    requires WellFormed(p, uartLen) && p.PSpi? && b == Bit(p.last, 128) + p.ss * 32 + p.cnt - 1
    requires OnByte(m, Code(53, false, false)) == Next(m1, [])
    requires OnByte(m1, b) == Next(m2, [CallSpiCount(false, p.last, p.ss, p.cnt)])
    requires Takes(m2, [|p.data| - 1] + p.data, SpiCalls(p.last, p.data), uartLen)
    ensures Takes(m, Print(p, uartLen), CallsOf(p), uartLen)
  {
    TakesHead(m, Code(53, false, false), b, [|p.data| - 1] + p.data, m1, m2,
              [CallSpiCount(false, p.last, p.ss, p.cnt)], SpiCalls(p.last, p.data), uartLen);
    Regroup<byte>(Code(53, false, false), b, |p.data| - 1, p.data);
  }

  // The byte with the strong pull-up flag and the bit count of a 1-Wire response.
  lemma OwByte(spu: bool, bits: nat) returns (b: byte)
    requires 1 <= bits <= 128
    ensures b == Bit(spu, 128) + bits - 1
    ensures b % 128 + 1 == bits && (b >= 128 <==> spu)
  {
    b := Bit(spu, 128) + bits - 1;
  }

  lemma TakesOwSkipped(m: Mech, p: Packet, uartLen: nat)
    requires AtRest(m, uartLen) && WellFormed(p, uartLen) && p.POwSkipped?
    ensures Takes(m, Print(p, uartLen), CallsOf(p), uartLen)
  {
    var b := OwByte(p.spu, p.bits);
    var m1 := m.(state := OwCnt, short := true, nack := false);
    CodeStep(m, 59, true, false);
    TakesTwo(m, Code(59, true, false), b, m1, m1.(state := Rsp, cnt := p.bits, spu := p.spu), [], CallsOf(p));
  }

  // After the two counts of a 1-Wire touch response.
  lemma TakesOwRest(m2: Mech, p: Packet)
    requires p.POwTouch? && WellFormed(p, m2.uartLen)
    requires m2.state == OwRcvd && m2.cnt == p.bits && !m2.short
    ensures Takes(m2, [p.rcvd - 1] + p.data, OwCalls(p.data) + [CallOwEnd(p.rcvd < p.bits)], m2.uartLen)
  {
    var m3 := m2.(state := OwData, left := p.rcvd - 1, short := p.rcvd < p.bits);
    var later := OwCalls(p.data) + [CallOwEnd(p.rcvd < p.bits)];
    TakesOw(m3, p.data);
    TakesStep(m2, p.rcvd - 1, p.data, m3, [], later, m2.uartLen);
    assert [] + later == later;
  }

  lemma TakesOwPacket(m: Mech, p: Packet, uartLen: nat)
    requires AtRest(m, uartLen) && WellFormed(p, uartLen) && p.POwTouch?
    ensures Takes(m, Print(p, uartLen), CallsOf(p), uartLen)
  {
    var b := OwByte(p.spu, p.bits);
    var m1 := m.(state := OwCnt, short := false, nack := false);
    CodeStep(m, 59, false, false);
    var m2 := m1.(state := OwRcvd, cnt := p.bits, spu := p.spu);
    assert OnByte(m1, b) == Next(m2, [CallOwCount(p.spu, p.bits)]);
    TakesOwTail(m, p, uartLen, b, m1, m2);
  }

  lemma TakesOwTail(m: Mech, p: Packet, uartLen: nat, b: byte, m1: Mech, m2: Mech)
    requires WellFormed(p, uartLen) && p.POwTouch? && b == Bit(p.spu, 128) + p.bits - 1
    requires OnByte(m, Code(59, false, false)) == Next(m1, [])
    requires OnByte(m1, b) == Next(m2, [CallOwCount(p.spu, p.bits)])
    requires m2.state == OwRcvd && m2.cnt == p.bits && !m2.short && m2.uartLen == uartLen
    ensures Takes(m, Print(p, uartLen), CallsOf(p), uartLen)
  {
    TakesOwRest(m2, p);
    TakesOwJoin(m, p, uartLen, b, m1, m2);
  }

  lemma TakesOwJoin(m: Mech, p: Packet, uartLen: nat, b: byte, m1: Mech, m2: Mech)
    requires WellFormed(p, uartLen) && p.POwTouch? && b == Bit(p.spu, 128) + p.bits - 1
    requires OnByte(m, Code(59, false, false)) == Next(m1, [])
    requires OnByte(m1, b) == Next(m2, [CallOwCount(p.spu, p.bits)])
    requires Takes(m2, [p.rcvd - 1] + p.data, OwCalls(p.data) + [CallOwEnd(p.rcvd < p.bits)], uartLen)
    ensures Takes(m, Print(p, uartLen), CallsOf(p), uartLen)
  {
    var count, later := [CallOwCount(p.spu, p.bits)], OwCalls(p.data) + [CallOwEnd(p.rcvd < p.bits)];
    TakesHead(m, Code(59, false, false), b, [p.rcvd - 1] + p.data, m1, m2, count, later, uartLen);
    Regroup<byte>(Code(59, false, false), b, p.rcvd - 1, p.data);
    assert count + later == CallsOf(p);
  }

  lemma TakesEnum(m: Mech, p: Packet, uartLen: nat)
    requires AtRest(m, uartLen) && WellFormed(p, uartLen) && p.POwEnum?
    ensures Takes(m, Print(p, uartLen), CallsOf(p), uartLen)
  {
    var m1 := m.(state := OwRom, text := [], short := p.skipped, nack := true);
    CodeStep(m, 60, p.skipped, true);
    TakesRom(m1, p.rom);
    assert [] + p.rom == p.rom;
    TakesStep(m, Code(60, p.skipped, true), p.rom, m1, [CallOwEnumHead(p.skipped, true)],
              [CallOwEnum(p.skipped, true, p.rom)], uartLen);
  }

  // The receiver inverts the printer on every packet a device may print.
  lemma TakesPacket(m: Mech, p: Packet, uartLen: nat)
    requires AtRest(m, uartLen) && WellFormed(p, uartLen)
    ensures Takes(m, Print(p, uartLen), CallsOf(p), UartLenAfter(p, uartLen))
  {
    match p
    case PVersion(_) => TakesText0(m, p, uartLen);
    case PInfo(_) => TakesText0(m, p, uartLen);
    case PGpio(_) => TakesText0(m, p, uartLen);
    case PUartFree(_, _) => TakesUartFree(m, p, uartLen);
    case PUartRx(_, _) => TakesUartRx(m, p, uartLen);
    case PMStart(_, _, _, _) => TakesMStart(m, p, uartLen);
    case PSkipped(_, _, _) => TakesSkipped(m, p, uartLen);
    case PMoved(_, _, _, _, _) => TakesMoved(m, p, uartLen);
    case PSpiSkipped(_, _, _) => TakesSpiSkipped(m, p, uartLen);
    case PSpi(_, _, _, _) => TakesSpiPacket(m, p, uartLen);
    case POwSkipped(_, _) => TakesOwSkipped(m, p, uartLen);
    case POwTouch(_, _, _, _) => TakesOwPacket(m, p, uartLen);
    case POwEnum(_, _) => TakesEnum(m, p, uartLen);
    case PBusError => TakesFlags(m, p, uartLen);
    case PArbLost => TakesFlags(m, p, uartLen);
    case PMStop(_) => TakesFlags(m, p, uartLen);
    case POwReset(_, _) => TakesFlags(m, p, uartLen);
    case POwEnumNone(_) => TakesFlags(m, p, uartLen);
    case POwProbe(_, _) => TakesFlags(m, p, uartLen);
  }

  // ---------------------------------------------------------------- a stream of packets

  predicate AllWellFormed(ps: seq<Packet>, uartLen: nat)
    decreases |ps|
  {
    ps != [] ==> WellFormed(ps[0], uartLen) && AllWellFormed(ps[1..], UartLenAfter(ps[0], uartLen))
  }

  function PrintAll(ps: seq<Packet>, uartLen: nat): seq<byte>
    requires AllWellFormed(ps, uartLen)
    decreases |ps|
  {
    if ps == [] then [] else Print(ps[0], uartLen) + PrintAll(ps[1..], UartLenAfter(ps[0], uartLen))
  }

  function CallsOfAll(ps: seq<Packet>): seq<Call> {
    if ps == [] then [] else CallsOf(ps[0]) + CallsOfAll(ps[1..])
  }

  function UartLenAfterAll(ps: seq<Packet>, uartLen: nat): nat
    decreases |ps|
  {
    if ps == [] then uartLen else UartLenAfterAll(ps[1..], UartLenAfter(ps[0], uartLen))
  }

  lemma {:induction false} TakesAll(m: Mech, ps: seq<Packet>, uartLen: nat)
    requires AtRest(m, uartLen) && AllWellFormed(ps, uartLen)
    ensures Takes(m, PrintAll(ps, uartLen), CallsOfAll(ps), UartLenAfterAll(ps, uartLen))
    decreases |ps|
  {
    if ps != [] {
      TakesPacket(m, ps[0], uartLen);
      FeedSplit(m, Print(ps[0], uartLen), PrintAll(ps[1..], UartLenAfter(ps[0], uartLen)));
      TakesAll(Feed(m, Print(ps[0], uartLen)).m.value, ps[1..], UartLenAfter(ps[0], uartLen));
    }
  }

  // However the printed stream is cut into reads, the handlers are called with exactly
  // the printed packets, in order, and the machine ends at rest.
  lemma ReceiverInvertsPrinter(m: Mech, ps: seq<Packet>, uartLen: nat, chunks: seq<seq<byte>>)
    requires AtRest(m, uartLen) && AllWellFormed(ps, uartLen) && Flatten(chunks) == PrintAll(ps, uartLen)
    ensures var f := FeedChunks(Fed(Some(m), []), chunks);
      f.calls == CallsOfAll(ps) && f.m.Some? && AtRest(f.m.value, UartLenAfterAll(ps, uartLen))
  {
    assert Feed(m, []) == Fed(Some(m), []);
    ChunksDoNotMatter(m, [], chunks);
    assert [] + Flatten(chunks) == Flatten(chunks);
    TakesAll(m, ps, uartLen);
  }
}
