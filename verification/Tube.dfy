/**
 The Nixie tube driver: digits go bit by bit through three output pins into a shift
 register. The client in between sends a port write only if it changes something. The
 chip at the other end reacts to rising edges, so it cannot tell the difference.
 */
module Tube {
  import opened Basics

  const PORTS := 8
  const BLANK_NUM := 10

  // The eight output lines, by pin number.
  type Lines = s: seq<bool> | |s| == 8 witness [false, false, false, false, false, false, false, false]

  const ALL_LOW: Lines := [false, false, false, false, false, false, false, false]

  // ---------------------------------------------------------------- the client

  // `reg` is the client's copy of the output register, absent before the first write;
  // `sent` is every register value sent to the board.
  datatype Port = Port(reg: Option<Lines>, sent: seq<Lines>)

  datatype Put = Put(pin: nat, value: int)

  predicate OnBoard(w: Put) {
    w.pin < 8
  }

  // Values other than 0 and 1 count as 0.
  function Level(value: int): bool {
    value == 1
  }

  function IoWrite(p: Port, w: Put): Port
    requires OnBoard(w)
  {
    match p.reg
    case None => var r: Lines := ALL_LOW[w.pin := Level(w.value)]; Port(Some(r), p.sent + [r])
    case Some(was) =>
      if was[w.pin] == Level(w.value) then p
      else var r: Lines := was[w.pin := Level(w.value)]; Port(Some(r), p.sent + [r])
  }

  // The same client without the check for a change.
  function PlainWrite(p: Port, w: Put): Port
    requires OnBoard(w)
  {
    var was := if p.reg.None? then ALL_LOW else p.reg.value;
    var r: Lines := was[w.pin := Level(w.value)];
    Port(Some(r), p.sent + [r])
  }

  predicate AllOnBoard(ws: seq<Put>) {
    forall i :: 0 <= i < |ws| ==> OnBoard(ws[i])
  }

  function WriteAll(p: Port, ws: seq<Put>): Port
    requires AllOnBoard(ws)
    decreases |ws|
  {
    if ws == [] then p else WriteAll(IoWrite(p, ws[0]), ws[1..])
  }

  function PlainWriteAll(p: Port, ws: seq<Put>): Port
    requires AllOnBoard(ws)
    decreases |ws|
  {
    if ws == [] then p else PlainWriteAll(PlainWrite(p, ws[0]), ws[1..])
  }

  lemma {:induction false} WriteAllConcat(p: Port, a: seq<Put>, b: seq<Put>)
    requires AllOnBoard(a) && AllOnBoard(b)
    ensures AllOnBoard(a + b) && WriteAll(p, a + b) == WriteAll(WriteAll(p, a), b)
    decreases |a|
  {
    if a == [] {
      assert a + b == b;
    } else {
      assert (a + b)[1..] == a[1..] + b && (a + b)[0] == a[0];
      WriteAllConcat(IoWrite(p, a[0]), a[1..], b);
    }
  }

  // ---------------------------------------------------------------- the chip

  // A shift register with an output latch. `shift` is every bit it took in, the latest
  // last; `shown` what it held at each rise of the latch line.
  datatype Chip = Chip(line: Lines, shift: seq<bool>, shown: seq<seq<bool>>)

  datatype Pins = Pins(data: nat, clock: nat, latch: nat)

  predicate Wired(k: Pins) {
    k.data < 8 && k.clock < 8 && k.latch < 8 && k.data != k.clock && k.data != k.latch && k.clock != k.latch
  }

  function See(c: Chip, r: Lines, k: Pins): Chip
    requires Wired(k)
  {
    var shift := if !c.line[k.clock] && r[k.clock] then c.shift + [r[k.data]] else c.shift;
    Chip(r, shift, if !c.line[k.latch] && r[k.latch] then c.shown + [shift] else c.shown)
  }

  function SeeAll(c: Chip, rs: seq<Lines>, k: Pins): Chip
    requires Wired(k)
    decreases |rs|
  {
    if rs == [] then c else SeeAll(See(c, rs[0], k), rs[1..], k)
  }

  // The chip when the pins are driven one write at a time.
  function Drive(c: Chip, ws: seq<Put>, k: Pins): Chip
    requires Wired(k) && AllOnBoard(ws)
    decreases |ws|
  {
    if ws == [] then c else Drive(See(c, c.line[ws[0].pin := Level(ws[0].value)], k), ws[1..], k)
  }

  lemma {:induction false} DriveConcat(c: Chip, a: seq<Put>, b: seq<Put>, k: Pins)
    requires Wired(k) && AllOnBoard(a) && AllOnBoard(b)
    ensures AllOnBoard(a + b) && Drive(c, a + b, k) == Drive(Drive(c, a, k), b, k)
    decreases |a|
  {
    if a == [] {
      assert a + b == b;
    } else {
      assert (a + b)[1..] == a[1..] + b && (a + b)[0] == a[0];
      DriveConcat(See(c, c.line[a[0].pin := Level(a[0].value)], k), a[1..], b, k);
    }
  }

  // What was sent after the first n values.
  function After(p: Port, n: nat): seq<Lines>
    requires n <= |p.sent|
  {
    p.sent[n..]
  }

  // The writes that were held back would not have told the chip anything: it ends up
  // where every single write would have left it.
  lemma {:induction false} SuppressionIsInvisible(p: Port, ws: seq<Put>, c: Chip, k: Pins)
    requires Wired(k) && AllOnBoard(ws) && p.reg == Some(c.line)
    ensures var p1 := WriteAll(p, ws);
      && p.sent <= p1.sent && p1.reg == Some(Drive(c, ws, k).line)
      && SeeAll(c, After(p1, |p.sent|), k) == Drive(c, ws, k)
    decreases |ws|
  {
    if ws == [] {
      assert After(p, |p.sent|) == [];
    } else {
      var w, p0 := ws[0], IoWrite(p, ws[0]);
      var r: Lines := c.line[w.pin := Level(w.value)];
      if c.line[w.pin] == Level(w.value) {
        assert r == c.line && See(c, r, k) == c;
        SuppressionIsInvisible(p, ws[1..], c, k);
      } else {
        SuppressionIsInvisible(p0, ws[1..], See(c, r, k), k);
        var p1 := WriteAll(p0, ws[1..]);
        assert p0.sent == p.sent + [r] && p0.sent <= p1.sent;
        SentSplit(p.sent, r, p1.sent);
        assert ([r] + After(p1, |p0.sent|))[1..] == After(p1, |p0.sent|);
      }
    }
  }

  lemma SentSplit(was: seq<Lines>, r: Lines, all: seq<Lines>)
    requires was + [r] <= all
    ensures was <= all && all[|was|..] == [r] + all[|was| + 1..]
  {
    assert all[..|was| + 1] == was + [r];
    assert all[|was|] == (was + [r])[|was|] == r;
    assert all[..|was|] == was;
  }

  lemma {:induction false} PlainIsSeen(p: Port, ws: seq<Put>, c: Chip, k: Pins)
    requires Wired(k) && AllOnBoard(ws) && p.reg == Some(c.line)
    ensures var p1 := PlainWriteAll(p, ws);
      && p.sent <= p1.sent && SeeAll(c, After(p1, |p.sent|), k) == Drive(c, ws, k)
    decreases |ws|
  {
    if ws == [] {
      assert After(p, |p.sent|) == [];
    } else {
      var w, p0 := ws[0], PlainWrite(p, ws[0]);
      var r: Lines := c.line[w.pin := Level(w.value)];
      PlainIsSeen(p0, ws[1..], See(c, r, k), k);
      var p1 := PlainWriteAll(p0, ws[1..]);
      assert p0.sent == p.sent + [r] && p0.sent <= p1.sent;
      SentSplit(p.sent, r, p1.sent);
      assert ([r] + After(p1, |p0.sent|))[1..] == After(p1, |p0.sent|);
    }
  }

  // The values sent with repetitions of the previous one left out: the edges.
  function Edges(was: Lines, rs: seq<Lines>): seq<Lines>
    decreases |rs|
  {
    if rs == [] then [] else (if rs[0] == was then [] else [rs[0]]) + Edges(rs[0], rs[1..])
  }

  // The fast client sends exactly the edges of what the plain one sends.
  lemma {:induction false} FastSendsTheEdges(p: Port, q: Port, ws: seq<Put>)
    requires AllOnBoard(ws) && p.reg.Some? && p.reg == q.reg
    ensures var p1 := WriteAll(p, ws); var q1 := PlainWriteAll(q, ws);
      && p1.reg == q1.reg && p.sent <= p1.sent && q.sent <= q1.sent
      && After(p1, |p.sent|) == Edges(p.reg.value, After(q1, |q.sent|))
    decreases |ws|
  {
    if ws == [] {
      assert After(p, |p.sent|) == [] && After(q, |q.sent|) == [];
    } else {
      var w, p0, q0 := ws[0], IoWrite(p, ws[0]), PlainWrite(q, ws[0]);
      var was := p.reg.value;
      var r: Lines := was[w.pin := Level(w.value)];
      if was[w.pin] == Level(w.value) {
        assert r == was;
      }
      FastSendsTheEdges(p0, q0, ws[1..]);
      var p1, q1 := WriteAll(p0, ws[1..]), PlainWriteAll(q0, ws[1..]);
      SentSplit(q.sent, r, q1.sent);
      var rest := After(q1, |q0.sent|);
      assert ([r] + rest)[1..] == rest && ([r] + rest)[0] == r;
      if was[w.pin] != Level(w.value) {
        assert r != was;
        SentSplit(p.sent, r, p1.sent);
      } else {
        assert [] + Edges(r, rest) == Edges(r, rest);
      }
    }
  }

  // ---------------------------------------------------------------- the driver's writes

  // The number shown for a character: blank for white space and underscores, 0 for
  // anything else that is not a digit.
  function Nibble(ch: char): (n: nat)
    ensures n <= 10
  {
    if ch in " \t\n\r_" || ch == 12 as char || ch == 11 as char then BLANK_NUM
    else if '0' <= ch <= '9' then ch as int - '0' as int
    else 0
  }

  // Bit j of a nibble, counted from the top.
  function BitOf(n: nat, j: nat): bool
    requires j < 4
  {
    n / (if j == 0 then 8 else if j == 1 then 4 else if j == 2 then 2 else 1) % 2 == 1
  }

  function Bits(n: nat): (r: seq<bool>)
    ensures |r| == 4
  {
    [BitOf(n, 0), BitOf(n, 1), BitOf(n, 2), BitOf(n, 3)]
  }

  function BitWrites(n: nat, j: nat, k: Pins): seq<Put>
    requires j < 4
  {
    [Put(k.clock, 0), Put(k.data, if BitOf(n, j) then 1 else 0), Put(k.clock, 1)]
  }

  function DigitWrites(n: nat, k: Pins): seq<Put> {
    [Put(k.data, 0)] + BitWrites(n, 0, k) + BitWrites(n, 1, k) + BitWrites(n, 2, k) + BitWrites(n, 3, k)
    + [Put(k.data, 0), Put(k.clock, 0)]
  }

  // The last character comes first.
  function DigitsWrites(s: string, k: Pins): seq<Put> {
    if s == [] then [] else DigitWrites(Nibble(s[|s| - 1]), k) + DigitsWrites(s[..|s| - 1], k)
  }

  function StringWrites(s: string, k: Pins): seq<Put> {
    [Put(k.latch, 0)] + DigitsWrites(s, k) + [Put(k.latch, 1), Put(k.latch, 0)]
  }

  lemma {:induction false} OnBoardDigits(s: string, k: Pins)
    requires Wired(k)
    ensures AllOnBoard(DigitsWrites(s, k)) && AllOnBoard(StringWrites(s, k))
  {
    if s != [] {
      OnBoardDigits(s[..|s| - 1], k);
    }
  }

  // ---------------------------------------------------------------- what the chip makes of them

  function Bus(s: string): (r: seq<bool>)
    ensures |r| == 4 * |s|
  {
    if s == [] then [] else Bits(Nibble(s[|s| - 1])) + Bus(s[..|s| - 1])
  }

  // Where the bits of a character end up.
  lemma {:induction false} BusAt(s: string, i: nat, j: nat)
    requires i < |s| && j < 4
    ensures Bus(s)[4 * (|s| - 1 - i) + j] == BitOf(Nibble(s[i]), j)
  {
    if i < |s| - 1 {
      BusAt(s[..|s| - 1], i, j);
    }
  }

  lemma DriveOne(c: Chip, w: Put, k: Pins)
    requires Wired(k) && OnBoard(w)
    ensures Drive(c, [w], k) == See(c, c.line[w.pin := Level(w.value)], k)
  {
    assert [w][1..] == [];
  }

  // The writes shift in these bits and do nothing else to the chip.
  ghost predicate Shifts(c: Chip, ws: seq<Put>, bits: seq<bool>, c1: Chip, k: Pins) {
    && Wired(k) && AllOnBoard(ws) && Drive(c, ws, k) == c1
    && c1.shift == c.shift + bits && c1.shown == c.shown && !c1.line[k.latch]
  }

  lemma ShiftsJoin(c: Chip, a: seq<Put>, x: seq<bool>, c1: Chip, b: seq<Put>, y: seq<bool>, c2: Chip, k: Pins)
    requires Shifts(c, a, x, c1, k) && Shifts(c1, b, y, c2, k)
    ensures Shifts(c, a + b, x + y, c2, k)
  {
    DriveConcat(c, a, b, k);
    Associative(c.shift, x, y);
  }

  // Lines other than the clock and the latch do nothing, and neither does a falling edge.
  lemma DriveQuiet(c: Chip, w: Put, k: Pins) returns (c1: Chip)
    requires Wired(k) && OnBoard(w) && !c.line[k.latch] && (w.pin == k.data || w.value != 1)
    ensures Shifts(c, [w], [], c1, k) && c1.line == c.line[w.pin := Level(w.value)]
  {
    DriveOne(c, w, k);
    c1 := Drive(c, [w], k);
    assert c.shift + [] == c.shift;
  }

  lemma DriveClock(c: Chip, k: Pins) returns (c1: Chip)
    requires Wired(k) && !c.line[k.latch] && !c.line[k.clock]
    ensures Shifts(c, [Put(k.clock, 1)], [c.line[k.data]], c1, k)
  {
    DriveOne(c, Put(k.clock, 1), k);
    c1 := Drive(c, [Put(k.clock, 1)], k);
  }

  lemma DriveBit(c: Chip, n: nat, j: nat, k: Pins) returns (c1: Chip)
    requires Wired(k) && j < 4 && !c.line[k.latch]
    ensures Shifts(c, BitWrites(n, j, k), [BitOf(n, j)], c1, k)
  {
    var a, b, e := Put(k.clock, 0), Put(k.data, if BitOf(n, j) then 1 else 0), Put(k.clock, 1);
    var ca := DriveQuiet(c, a, k);
    var cb := DriveQuiet(ca, b, k);
    c1 := DriveClock(cb, k);
    ShiftsJoin(ca, [b], [], cb, [e], [BitOf(n, j)], c1, k);
    ShiftsJoin(c, [a], [], ca, [b] + [e], [] + [BitOf(n, j)], c1, k);
    assert [a] + ([b] + [e]) == BitWrites(n, j, k);
    assert [] + ([] + [BitOf(n, j)]) == [BitOf(n, j)];
  }

  lemma DriveTwo(c: Chip, n: nat, j: nat, k: Pins) returns (c1: Chip)
    requires Wired(k) && j < 3 && !c.line[k.latch]
    ensures Shifts(c, BitWrites(n, j, k) + BitWrites(n, j + 1, k), [BitOf(n, j)] + [BitOf(n, j + 1)], c1, k)
  {
    var q := DriveBit(c, n, j, k);
    c1 := DriveBit(q, n, j + 1, k);
    ShiftsJoin(c, BitWrites(n, j, k), [BitOf(n, j)], q, BitWrites(n, j + 1, k), [BitOf(n, j + 1)], c1, k);
  }

  lemma BitsInTwo(n: nat)
    ensures [BitOf(n, 0)] + [BitOf(n, 1)] + ([BitOf(n, 2)] + [BitOf(n, 3)]) == Bits(n)
  {
  }

  lemma DriveNibble(c: Chip, n: nat, k: Pins) returns (c1: Chip)
    requires Wired(k) && !c.line[k.latch]
    ensures Shifts(c, BitWrites(n, 0, k) + BitWrites(n, 1, k) + (BitWrites(n, 2, k) + BitWrites(n, 3, k)),
                   Bits(n), c1, k)
  {
    var q := DriveTwo(c, n, 0, k);
    c1 := DriveTwo(q, n, 2, k);
    var a, b := BitWrites(n, 0, k) + BitWrites(n, 1, k), BitWrites(n, 2, k) + BitWrites(n, 3, k);
    var x, y := [BitOf(n, 0)] + [BitOf(n, 1)], [BitOf(n, 2)] + [BitOf(n, 3)];
    BitsInTwo(n);
    ShiftsJoin(c, a, x, q, b, y, c1, k);
  }

  lemma DriveEnd(c: Chip, k: Pins) returns (c1: Chip)
    requires Wired(k) && !c.line[k.latch]
    ensures Shifts(c, [Put(k.data, 0), Put(k.clock, 0)], [], c1, k)
  {
    var q := DriveQuiet(c, Put(k.data, 0), k);
    c1 := DriveQuiet(q, Put(k.clock, 0), k);
    ShiftsJoin(c, [Put(k.data, 0)], [], q, [Put(k.clock, 0)], [], c1, k);
    assert [Put(k.data, 0)] + [Put(k.clock, 0)] == [Put(k.data, 0), Put(k.clock, 0)];
  }

  lemma DriveDigit(c: Chip, n: nat, k: Pins) returns (c1: Chip)
    requires Wired(k) && !c.line[k.latch]
    ensures Shifts(c, DigitWrites(n, k), Bits(n), c1, k)
  {
    var bits := BitWrites(n, 0, k) + BitWrites(n, 1, k) + (BitWrites(n, 2, k) + BitWrites(n, 3, k));
    var first, end := [Put(k.data, 0)], [Put(k.data, 0), Put(k.clock, 0)];
    var q0 := DriveQuiet(c, Put(k.data, 0), k);
    var q1 := DriveNibble(q0, n, k);
    c1 := DriveEnd(q1, k);
    ShiftsJoin(q0, bits, Bits(n), q1, end, [], c1, k);
    ShiftsJoin(c, first, [], q0, bits + end, Bits(n) + [], c1, k);
    assert [] + (Bits(n) + []) == Bits(n);
    DigitInThree(n, k);
  }

  lemma DigitInThree(n: nat, k: Pins)
    ensures [Put(k.data, 0)] +
      ((BitWrites(n, 0, k) + BitWrites(n, 1, k) + (BitWrites(n, 2, k) + BitWrites(n, 3, k)))
       + [Put(k.data, 0), Put(k.clock, 0)])
      == DigitWrites(n, k)
  {
  }

  lemma {:induction false} DriveDigits(c: Chip, s: string, k: Pins) returns (c1: Chip)
    requires Wired(k) && !c.line[k.latch]
    ensures Shifts(c, DigitsWrites(s, k), Bus(s), c1, k)
    decreases |s|
  {
    if s == [] {
      c1 := c;
      assert c.shift + [] == c.shift;
    } else {
      var n, rest := Nibble(s[|s| - 1]), s[..|s| - 1];
      var q := DriveDigit(c, n, k);
      c1 := DriveDigits(q, rest, k);
      ShiftsJoin(c, DigitWrites(n, k), Bits(n), q, DigitsWrites(rest, k), Bus(rest), c1, k);
    }
  }

  // Whatever the lines were before, writing a string shifts in four bits for each
  // character, and the latch rises once, after the last of them.
  lemma DriveString(c: Chip, s: string, k: Pins)
    requires Wired(k)
    ensures AllOnBoard(StringWrites(s, k))
    ensures var c1 := Drive(c, StringWrites(s, k), k);
      c1.shift == c.shift + Bus(s) && c1.shown == c.shown + [c1.shift] && !c1.line[k.latch]
  {
    OnBoardDigits(s, k);
    DriveOne(c, Put(k.latch, 0), k);
    var c0 := Drive(c, [Put(k.latch, 0)], k);
    var c1 := DriveDigits(c0, s, k);
    DriveLatch(c1, k);
    DriveParts(c, [Put(k.latch, 0)], DigitsWrites(s, k), [Put(k.latch, 1), Put(k.latch, 0)], k);
  }

  lemma DriveParts(c: Chip, a: seq<Put>, b: seq<Put>, e: seq<Put>, k: Pins)
    requires Wired(k) && AllOnBoard(a) && AllOnBoard(b) && AllOnBoard(e)
    ensures AllOnBoard(a + b + e) && Drive(c, a + b + e, k) == Drive(Drive(Drive(c, a, k), b, k), e, k)
  {
    DriveConcat(c, a, b, k);
    DriveConcat(c, a + b, e, k);
  }

  // The latch line up and down again.
  lemma DriveLatch(c: Chip, k: Pins)
    requires Wired(k) && !c.line[k.latch]
    ensures var ws := [Put(k.latch, 1), Put(k.latch, 0)];
      && AllOnBoard(ws)
      && var c1 := Drive(c, ws, k);
      c1.shift == c.shift && c1.shown == c.shown + [c.shift] && !c1.line[k.latch]
  {
    var up, down := Put(k.latch, 1), Put(k.latch, 0);
    DriveOne(c, up, k);
    DriveOne(Drive(c, [up], k), down, k);
    DriveConcat(c, [up], [down], k);
    assert [up] + [down] == [up, down];
  }

  // What the tubes show after a string was written through the client: the latch rose
  // once, and the register then held, as its latest bits, the nibbles of the string.
  lemma TubesShow(p: Port, c: Chip, s: string, k: Pins)
    requires Wired(k) && p.reg == Some(c.line)
    ensures AllOnBoard(StringWrites(s, k))
    ensures var p1 := WriteAll(p, StringWrites(s, k));
      && p.sent <= p1.sent
      && var c1 := SeeAll(c, After(p1, |p.sent|), k);
      && p1.reg == Some(c1.line)
      && |c1.shift| == |c.shift| + 4 * |s|
      && c1.shown == c.shown + [c1.shift]
      && forall i, j :: 0 <= i < |s| && 0 <= j < 4 ==>
           c1.shift[|c.shift| + 4 * (|s| - 1 - i) + j] == BitOf(Nibble(s[i]), j)
  {
    DriveString(c, s, k);
    SuppressionIsInvisible(p, StringWrites(s, k), c, k);
    forall i, j | 0 <= i < |s| && 0 <= j < 4
      ensures (c.shift + Bus(s))[|c.shift| + 4 * (|s| - 1 - i) + j] == BitOf(Nibble(s[i]), j)
    {
      BusAt(s, i, j);
    }
  }

  // ---------------------------------------------------------------- driver and client as objects

  class AbioCardClient {
    var outRegister: Option<Lines>
    var sent: seq<Lines>

    ghost function Abs(): Port
      reads this
    {
      Port(outRegister, sent)
    }

    constructor ()
      ensures Abs() == Port(None, [])
    {
      outRegister, sent := None, [];
    }

    // Sends a command only if the output register changes, or was never written.
    method Write(pin: nat, value: int)
      requires pin < PORTS
      modifies this
      ensures Abs() == IoWrite(old(Abs()), Put(pin, value))
    {
      var level := value;
      if !(0 <= value <= 1) {
        level := 0;
      }
      if outRegister.None? || outRegister.value[pin] != (level == 1) {
        var r := if outRegister.None? then ALL_LOW else outRegister.value;
        r := r[pin := level == 1];
        outRegister := Some(r);
        sent := sent + [r];
      }
    }
  }

  class TubeDriver {
    const client: AbioCardClient
    const pins: Pins

    // All three lines low; from the first write on the client knows the register.
    constructor (client: AbioCardClient, pins: Pins)
      requires Wired(pins)
      modifies client
      ensures this.client == client && this.pins == pins && client.outRegister.Some?
      ensures !client.outRegister.value[pins.data] && !client.outRegister.value[pins.clock]
      ensures !client.outRegister.value[pins.latch]
    {
      this.client := client;
      this.pins := pins;
      new;
      client.Write(pins.data, 0);
      client.Write(pins.clock, 0);
      client.Write(pins.latch, 0);
    }

    method SerializeDigit(digit: nat)
      requires Wired(pins) && digit <= 10
      modifies client
      ensures AllOnBoard(DigitWrites(digit, pins))
      ensures client.Abs() == WriteAll(old(client.Abs()), DigitWrites(digit, pins))
    {
      ghost var p, ws := client.Abs(), [Put(pins.data, 0)];
      var bitmask := 8;
      client.Write(pins.data, 0);
      WriteOne(p, Put(pins.data, 0));
      for j := 0 to 4
        invariant bitmask == (if j == 0 then 8 else if j == 1 then 4 else if j == 2 then 2 else if j == 3 then 1 else 0)
        invariant AllOnBoard(ws) && client.Abs() == WriteAll(p, ws)
        invariant ws == [Put(pins.data, 0)] + BitsUpTo(digit, j, pins)
      {
        ghost var q := client.Abs();
        client.Write(pins.clock, 0);
        var currentBit := if digit / bitmask % 2 == 0 then 0 else 1;
        client.Write(pins.data, currentBit);
        client.Write(pins.clock, 1);
        bitmask := bitmask / 2;
        WriteBit(q, digit, j, pins);
        WriteAllConcat(p, ws, BitWrites(digit, j, pins));
        assert [Put(pins.data, 0)] + BitsUpTo(digit, j, pins) + BitWrites(digit, j, pins)
            == [Put(pins.data, 0)] + (BitsUpTo(digit, j, pins) + BitWrites(digit, j, pins));
        ws := ws + BitWrites(digit, j, pins);
      }
      ghost var q := client.Abs();
      client.Write(pins.data, 0);
      client.Write(pins.clock, 0);
      WriteEnd(q, pins);
      WriteAllConcat(p, ws, [Put(pins.data, 0), Put(pins.clock, 0)]);
      DigitWritesForm(digit, pins);
    }

    method WriteStringWithBlanks(output: string)
      requires Wired(pins)
      modifies client
      ensures AllOnBoard(StringWrites(output, pins))
      ensures client.Abs() == WriteAll(old(client.Abs()), StringWrites(output, pins))
    {
      ghost var p := client.Abs();
      client.Write(pins.latch, 0);
      WriteOne(p, Put(pins.latch, 0));
      OnBoardDigits(output, pins);
      ghost var p0 := client.Abs();
      assert output[..|output|] == output;
      var k := |output|;
      while k > 0
        invariant 0 <= k <= |output|
        invariant AllOnBoard(DigitsWrites(output[..k], pins))
        invariant WriteAll(p0, DigitsWrites(output, pins)) == WriteAll(client.Abs(), DigitsWrites(output[..k], pins))
      {
        ghost var q := client.Abs();
        assert output[..k][..k - 1] == output[..k - 1];
        OnBoardDigits(output[..k - 1], pins);
        k := k - 1;
        SerializeDigit(Nibble(output[k]));
        WriteAllConcat(q, DigitWrites(Nibble(output[k]), pins), DigitsWrites(output[..k], pins));
      }
      ghost var q := client.Abs();
      client.Write(pins.latch, 1);
      client.Write(pins.latch, 0);
      WriteTwo(q, Put(pins.latch, 1), Put(pins.latch, 0));
      WriteAllConcat(p0, DigitsWrites(output, pins), [Put(pins.latch, 1), Put(pins.latch, 0)]);
      WriteAllConcat(p, [Put(pins.latch, 0)], DigitsWrites(output, pins) + [Put(pins.latch, 1), Put(pins.latch, 0)]);
      assert [Put(pins.latch, 0)] + (DigitsWrites(output, pins) + [Put(pins.latch, 1), Put(pins.latch, 0)])
          == StringWrites(output, pins);
    }
  }

  function BitsUpTo(n: nat, j: nat, k: Pins): seq<Put>
    requires j <= 4
  {
    if j == 0 then [] else BitsUpTo(n, j - 1, k) + BitWrites(n, j - 1, k)
  }

  lemma DigitWritesForm(n: nat, k: Pins)
    ensures [Put(k.data, 0)] + BitsUpTo(n, 4, k) + [Put(k.data, 0), Put(k.clock, 0)] == DigitWrites(n, k)
  {
    var b0, b1, b2, b3 := BitWrites(n, 0, k), BitWrites(n, 1, k), BitWrites(n, 2, k), BitWrites(n, 3, k);
    FourBits(n, k);
    Chain([Put(k.data, 0)], b0, b1, b2, b3);
  }

  lemma FourBits(n: nat, k: Pins)
    ensures BitsUpTo(n, 4, k) ==
      [] + BitWrites(n, 0, k) + BitWrites(n, 1, k) + BitWrites(n, 2, k) + BitWrites(n, 3, k)
  {
    assert BitsUpTo(n, 1, k) == [] + BitWrites(n, 0, k);
    assert BitsUpTo(n, 2, k) == BitsUpTo(n, 1, k) + BitWrites(n, 1, k);
    assert BitsUpTo(n, 3, k) == BitsUpTo(n, 2, k) + BitWrites(n, 2, k);
  }

  lemma Chain<T>(a: seq<T>, b0: seq<T>, b1: seq<T>, b2: seq<T>, b3: seq<T>)
    ensures a + ([] + b0 + b1 + b2 + b3) == a + b0 + b1 + b2 + b3
  {
    assert [] + b0 == b0;
    Associative(a, b0, b1);
    Associative(a, b0 + b1, b2);
    Associative(a, b0 + b1 + b2, b3);
  }

  lemma WriteOne(p: Port, w: Put)
    requires OnBoard(w)
    ensures WriteAll(p, [w]) == IoWrite(p, w)
  {
    assert [w][1..] == [];
  }

  lemma WriteTwo(p: Port, a: Put, b: Put)
    requires OnBoard(a) && OnBoard(b)
    ensures WriteAll(p, [a, b]) == IoWrite(IoWrite(p, a), b)
  {
    WriteAllConcat(p, [a], [b]);
    WriteOne(p, a);
    WriteOne(IoWrite(p, a), b);
    assert [a] + [b] == [a, b];
  }

  lemma WriteEnd(p: Port, k: Pins)
    requires Wired(k)
    ensures WriteAll(p, [Put(k.data, 0), Put(k.clock, 0)]) == IoWrite(IoWrite(p, Put(k.data, 0)), Put(k.clock, 0))
  {
    WriteTwo(p, Put(k.data, 0), Put(k.clock, 0));
  }

  lemma WriteBit(p: Port, n: nat, j: nat, k: Pins)
    requires Wired(k) && j < 4
    ensures AllOnBoard(BitWrites(n, j, k))
    ensures WriteAll(p, BitWrites(n, j, k)) ==
      IoWrite(IoWrite(IoWrite(p, Put(k.clock, 0)), Put(k.data, if BitOf(n, j) then 1 else 0)), Put(k.clock, 1))
  {
    var a, b, e := Put(k.clock, 0), Put(k.data, if BitOf(n, j) then 1 else 0), Put(k.clock, 1);
    WriteTwo(p, a, b);
    WriteAllConcat(p, [a, b], [e]);
    WriteOne(WriteAll(p, [a, b]), e);
    assert [a, b] + [e] == BitWrites(n, j, k);
  }
}
