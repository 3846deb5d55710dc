/**
 The PWM channels of the PCA9685 behind the QW and QR commands: how a channel is laid
 out in the register file, and that QR prints what QW was given.
 */
module Pwm2 {
  import opened Basics
  import opened Arith
  import opened ServerText
  import opened ServerBuffers

  // ---------------------------------------------------------------- channels and registers

  datatype Channel = Channel(onPos: nat, alwaysOn: bool, offPos: nat, alwaysOff: bool)

  predicate ChannelOK(c: Channel) {
    c.onPos < 0x1000 && c.offPos < 0x1000
  }

  // The register file; with auto-increment a block goes to consecutive registers.
  type Registers = s: seq<byte> | |s| == 256 witness seq(256, _ => 0)

  // A channel's position and flag as the 13-bit number of the commands.
  function Setting(pos: nat, always: bool): (v: nat)
    requires pos < 0x1000
    ensures v < 0x2000
  {
    pos + (if always then 0x1000 else 0)
  }

  function LowByte(v: nat): byte {
    v % 256
  }

  function HighByte(v: nat): byte
    requires v < 0x2000
  {
    v / 256
  }

  function Bytes(c: Channel): (r: seq<byte>)
    requires ChannelOK(c)
    ensures |r| == 4
  {
    var on, off := Setting(c.onPos, c.alwaysOn), Setting(c.offPos, c.alwaysOff);
    [LowByte(on), HighByte(on), LowByte(off), HighByte(off)]
  }

  predicate AllOK(cs: seq<Channel>) {
    forall i :: 0 <= i < |cs| ==> ChannelOK(cs[i])
  }

  function Block(cs: seq<Channel>): (r: seq<byte>)
    requires AllOK(cs)
    ensures |r| == 4 * |cs|
  {
    if cs == [] then [] else Bytes(cs[0]) + Block(cs[1..])
  }

  predicate InRange(start: nat, cnt: nat) {
    start < 16 && 0 < cnt && start + cnt <= 16
  }

  function FirstReg(start: nat): nat {
    6 + 4 * start
  }

  function WithRange(regs: Registers, cs: seq<Channel>, start: nat): Registers
    requires AllOK(cs) && InRange(start, |cs|)
  {
    var r := FirstReg(start);
    regs[..r] + Block(cs) + regs[r + 4 * |cs|..]
  }

  // Two registers make a number, of which 13 bits count.
  function Word(regs: Registers, r: nat): (v: nat)
    requires r + 1 < 256
    ensures v < 0x2000
  {
    (regs[r] as int + 256 * regs[r + 1] as int) % 0x2000
  }

  function ReadChannel(regs: Registers, ch: nat): (c: Channel)
    requires ch < 16
    ensures ChannelOK(c)
  {
    var on, off := Word(regs, FirstReg(ch)), Word(regs, FirstReg(ch) + 2);
    Channel(on % 0x1000, on >= 0x1000, off % 0x1000, off >= 0x1000)
  }

  // What QR prints for a channel.
  function Shown(regs: Registers, ch: nat): string
    requires ch < 16
  {
    var c := ReadChannel(regs, ch);
    ChannelText(c)
  }

  function ChannelText(c: Channel): (s: string)
    requires ChannelOK(c)
    ensures |s| == 8
  {
    Number(16, 4, Setting(c.onPos, c.alwaysOn)) + Number(16, 4, Setting(c.offPos, c.alwaysOff))
  }

  lemma {:induction false} BlockAt(cs: seq<Channel>, i: nat)
    requires AllOK(cs) && i < |cs|
    ensures Block(cs)[4 * i..4 * i + 4] == Bytes(cs[i])
  {
    if i > 0 {
      BlockAt(cs[1..], i - 1);
      assert Block(cs)[4 * i..4 * i + 4] == Block(cs[1..])[4 * (i - 1)..4 * (i - 1) + 4];
    }
  }

  lemma RegisterWritten(regs: Registers, cs: seq<Channel>, start: nat, i: nat, k: nat)
    requires AllOK(cs) && InRange(start, |cs|) && i < |cs| && k < 4
    ensures WithRange(regs, cs, start)[FirstReg(start + i) + k] == Bytes(cs[i])[k]
  {
    BlockAt(cs, i);
    assert Block(cs)[4 * i..4 * i + 4][k] == Block(cs)[4 * i + k];
  }

  lemma RegisterKept(regs: Registers, cs: seq<Channel>, start: nat, r: nat)
    requires AllOK(cs) && InRange(start, |cs|) && r < 256 && (r < FirstReg(start) || r >= FirstReg(start + |cs|))
    ensures WithRange(regs, cs, start)[r] == regs[r]
  {
  }

  // Writing a range and reading it back: a channel written shows what was written, any
  // other shows what it showed before.
  lemma WriteThenRead(regs: Registers, cs: seq<Channel>, start: nat, ch: nat)
    requires AllOK(cs) && InRange(start, |cs|) && ch < 16
    ensures ReadChannel(WithRange(regs, cs, start), ch) ==
      if start <= ch < start + |cs| then cs[ch - start] else ReadChannel(regs, ch)
  {
    if start <= ch < start + |cs| {
      WrittenIsRead(regs, cs, start, ch - start);
    } else {
      var r := FirstReg(ch);
      RegisterKept(regs, cs, start, r);
      RegisterKept(regs, cs, start, r + 1);
      RegisterKept(regs, cs, start, r + 2);
      RegisterKept(regs, cs, start, r + 3);
    }
  }

  lemma WrittenIsRead(regs: Registers, cs: seq<Channel>, start: nat, i: nat)
    requires AllOK(cs) && InRange(start, |cs|) && i < |cs|
    ensures ReadChannel(WithRange(regs, cs, start), start + i) == cs[i]
  {
    var regs1, r := WithRange(regs, cs, start), FirstReg(start + i);
    RegisterWritten(regs, cs, start, i, 0);
    RegisterWritten(regs, cs, start, i, 1);
    RegisterWritten(regs, cs, start, i, 2);
    RegisterWritten(regs, cs, start, i, 3);
    WordOf(Setting(cs[i].onPos, cs[i].alwaysOn), regs1, r);
    WordOf(Setting(cs[i].offPos, cs[i].alwaysOff), regs1, r + 2);
  }

  lemma WordOf(v: nat, regs: Registers, r: nat)
    requires v < 0x2000 && r + 1 < 256 && regs[r] == LowByte(v) && regs[r + 1] == HighByte(v)
    ensures Word(regs, r) == v
  {
  }

  // ---------------------------------------------------------------- command texts

  datatype Parsed = Refused | Parsed(cs: seq<Channel>, rest: string)

  function ToChannel(on: nat, off: nat): (c: Channel)
    requires on < 0x2000 && off < 0x2000
    ensures ChannelOK(c)
    ensures Setting(c.onPos, c.alwaysOn) == on && Setting(c.offPos, c.alwaysOff) == off
  {
    Channel(on % 0x1000, on >= 0x1000, off % 0x1000, off >= 0x1000)
  }

  function ParseChannel(s: string): (p: Parsed)
    ensures p.Parsed? ==> |p.cs| == 1 && ChannelOK(p.cs[0])
  {
    var on := Fetch(16, s, 4, 0);
    if on.NoNumber? || on.value >= 0x2000 then Refused
    else
      var off := Fetch(16, on.rest, 4, 0);
      if off.NoNumber? || off.value >= 0x2000 then Refused
      else Parsed([ToChannel(on.value, off.value)], off.rest)
  }

  function ParseChannels(s: string, n: nat): (p: Parsed)
    ensures p.Parsed? ==> |p.cs| == n && AllOK(p.cs)
    decreases n
  {
    if n == 0 then Parsed([], s)
    else
      var first := ParseChannel(s);
      if first.Refused? then Refused
      else
        var more := ParseChannels(first.rest, n - 1);
        if more.Refused? then Refused else Parsed(first.cs + more.cs, more.rest)
  }

  datatype Request = Invalid | Range(start: nat, cnt: nat, rest: string)

  function ParseRange(s: string): Request {
    var start := Fetch(16, s, 2, 0);
    if start.NoNumber? then Invalid
    else
      var cnt := Fetch(16, start.rest, 2, 0);
      if cnt.NoNumber? then Invalid else Range(start.value, cnt.value, cnt.rest)
  }

  datatype Order = NoOrder | Order(start: nat, cs: seq<Channel>)

  // What follows QW in a command.
  function ParseQw(s: string): (o: Order)
    ensures o.Order? ==> AllOK(o.cs) && InRange(o.start, |o.cs|)
  {
    var q := ParseRange(s);
    if q.Invalid? || q.cnt > 16 then NoOrder
    else
      var p := ParseChannels(q.rest, q.cnt);
      if p.Refused? || p.rest != "" || !InRange(q.start, q.cnt) then NoOrder
      else Order(q.start, p.cs)
  }

  function Qw(regs: Registers, s: string): Registers {
    var o := ParseQw(s);
    if o.NoOrder? then regs else WithRange(regs, o.cs, o.start)
  }

  function Join(ss: seq<string>): string {
    if ss == [] then "" else Join(ss[..|ss| - 1]) + ss[|ss| - 1]
  }

  // What QR prints for a range of channels, one after the other.
  function ShownEach(regs: Registers, start: nat, cnt: nat): (ss: seq<string>)
    requires start + cnt <= 16
    ensures |ss| == cnt && forall i :: 0 <= i < cnt ==> ss[i] == Shown(regs, start + i)
  {
    seq(cnt, i requires 0 <= i < cnt => Shown(regs, start + i))
  }

  // The answer to what follows QR in a command, if there is one.
  function Qr(regs: Registers, s: string): Option<string> {
    var q := ParseRange(s);
    if q.Invalid? || q.rest != "" || !InRange(q.start, q.cnt) then None
    else
      Some("QR" + Number(16, 2, q.start) + Number(16, 2, q.cnt) + Join(ShownEach(regs, q.start, q.cnt)) + [10 as char])
  }

  // ---------------------------------------------------------------- what the texts say

  lemma Four()
    ensures Pow(16, 4) == 0x1_0000 && Pow(16, 2) == 0x100
  {
    assert Pow(16, 2) == 256;
    PowSum(16, 2, 2);
  }

  // A channel's text is its own eight characters, printed or parsed.
  lemma ParsedText(s: string)
    requires ParseChannel(s).Parsed?
    ensures var p := ParseChannel(s); s == ChannelText(p.cs[0]) + p.rest
  {
    Four();
    var on := Fetch(16, s, 4, 0);
    FetchedIsNumber(16, s, 4, 0);
    FetchedIsNumber(16, on.rest, 4, 0);
    var off := Fetch(16, on.rest, 4, 0);
    var a, b := Number(16, 4, on.value), Number(16, 4, off.value);
    assert a + (b + off.rest) == (a + b) + off.rest;
  }

  lemma {:induction false} ParsedTexts(s: string, n: nat, i: nat)
    requires ParseChannels(s, n).Parsed? && i < n
    ensures var p := ParseChannels(s, n);
      8 * i + 8 <= |s| && s[8 * i..8 * i + 8] == ChannelText(p.cs[i])
    decreases n
  {
    ParsedText(s);
    var first := ParseChannel(s);
    if i > 0 {
      ParsedTexts(first.rest, n - 1, i - 1);
      assert s[8 * i..8 * i + 8] == first.rest[8 * (i - 1)..8 * (i - 1) + 8];
    }
  }

  lemma RangeText(s: string)
    requires ParseRange(s).Range?
    ensures var q := ParseRange(s);
      q.start < 256 && q.cnt < 256 && s == Number(16, 2, q.start) + Number(16, 2, q.cnt) + q.rest
  {
    Four();
    var start := Fetch(16, s, 2, 0);
    FetchedIsNumber(16, s, 2, 0);
    FetchedIsNumber(16, start.rest, 2, 0);
    var a, b := Number(16, 2, start.value), Number(16, 2, Fetch(16, start.rest, 2, 0).value);
    assert a + (b + Fetch(16, start.rest, 2, 0).rest) == a + b + Fetch(16, start.rest, 2, 0).rest;
  }

  // The eight characters a valid QW text has for one of its channels.
  function GivenFor(s: string, ch: nat): string
    requires ParseQw(s).Order?
    requires var o := ParseQw(s); o.start <= ch < o.start + |o.cs| && |s| == 4 + 8 * |o.cs|
  {
    s[4 + 8 * (ch - ParseQw(s).start)..12 + 8 * (ch - ParseQw(s).start)]
  }

  predicate Covers(s: string, ch: nat) {
    var o := ParseQw(s);
    o.Order? && o.start <= ch < o.start + |o.cs|
  }

  lemma {:induction false} ParsedLength(s: string, n: nat)
    requires ParseChannels(s, n).Parsed?
    ensures |s| == 8 * n + |ParseChannels(s, n).rest|
    decreases n
  {
    if n > 0 {
      ParsedText(s);
      ParsedLength(ParseChannel(s).rest, n - 1);
    }
  }

  lemma OrderLength(s: string)
    requires ParseQw(s).Order?
    ensures |s| == 4 + 8 * |ParseQw(s).cs|
  {
    RangeText(s);
    ParsedLength(ParseRange(s).rest, ParseRange(s).cnt);
  }

  lemma OrderText(s: string, ch: nat)
    requires Covers(s, ch)
    ensures |s| == 4 + 8 * |ParseQw(s).cs|
    ensures GivenFor(s, ch) == ChannelText(ParseQw(s).cs[ch - ParseQw(s).start])
  {
    OrderLength(s);
    RangeText(s);
    var q := ParseRange(s);
    var i := ch - q.start;
    ParsedTexts(q.rest, q.cnt, i);
    assert s[4..] == q.rest;
    assert s[4 + 8 * i..12 + 8 * i] == q.rest[8 * i..8 * i + 8];
  }

  // ---------------------------------------------------------------- end to end

  function QwAll(regs: Registers, texts: seq<string>): Registers
    decreases |texts|
  {
    if texts == [] then regs else QwAll(Qw(regs, texts[0]), texts[1..])
  }

  // What a channel was last given, starting from what it showed.
  function LastGiven(shown: string, texts: seq<string>, ch: nat): string
    decreases |texts|
  {
    if texts == [] then shown
    else if Covers(texts[0], ch) then
      OrderLength(texts[0]);
      LastGiven(GivenFor(texts[0], ch), texts[1..], ch)
    else LastGiven(shown, texts[1..], ch)
  }

  // One QW text: what it gives a channel is what the channel then shows.
  lemma QwShows(regs: Registers, s: string, ch: nat)
    requires ch < 16
    ensures Covers(s, ch) ==> |s| == 4 + 8 * |ParseQw(s).cs| && Shown(Qw(regs, s), ch) == GivenFor(s, ch)
    ensures !Covers(s, ch) ==> Shown(Qw(regs, s), ch) == Shown(regs, ch)
  {
    var o := ParseQw(s);
    if o.Order? {
      WriteThenRead(regs, o.cs, o.start, ch);
    }
    if Covers(s, ch) {
      OrderText(s, ch);
    }
  }

  lemma {:induction false} ShowsLastGiven(regs: Registers, texts: seq<string>, ch: nat)
    requires ch < 16
    ensures Shown(QwAll(regs, texts), ch) == LastGiven(Shown(regs, ch), texts, ch)
    decreases |texts|
  {
    if texts != [] {
      QwShows(regs, texts[0], ch);
      ShowsLastGiven(Qw(regs, texts[0]), texts[1..], ch);
    }
  }

  function LastGivenEach(regs: Registers, texts: seq<string>, start: nat, cnt: nat): (ss: seq<string>)
    requires start + cnt <= 16
    ensures |ss| == cnt
  {
    seq(cnt, i requires 0 <= i < cnt => LastGiven(Shown(regs, start + i), texts, start + i))
  }

  lemma ShowsEach(regs: Registers, texts: seq<string>, start: nat, cnt: nat)
    requires start + cnt <= 16
    ensures ShownEach(QwAll(regs, texts), start, cnt) == LastGivenEach(regs, texts, start, cnt)
  {
    var shown, given := ShownEach(QwAll(regs, texts), start, cnt), LastGivenEach(regs, texts, start, cnt);
    forall i | 0 <= i < cnt ensures shown[i] == given[i] {
      ShowsLastGiven(regs, texts, start + i);
    }
  }

  lemma TwoDigits(v: nat, rest: string)
    requires v < 256
    ensures Fetch(16, Number(16, 2, v) + rest, 2, 0) == Fetched(v, rest)
  {
    Four();
    PrintedIsRead(16, 2, v, rest);
    DivModUnique(v, 256, 0, v);
  }

  lemma RangeIsParsed(start: nat, cnt: nat)
    requires start < 256 && cnt < 256
    ensures ParseRange(Number(16, 2, start) + Number(16, 2, cnt)) == Range(start, cnt, "")
  {
    TwoDigits(start, Number(16, 2, cnt));
    TwoDigits(cnt, "");
    assert Number(16, 2, cnt) + "" == Number(16, 2, cnt);
  }

  // After any QW texts, a QR over any range gives for each channel the very characters it
  // was last given, and for a channel no valid QW covered what it gave before.
  lemma QrGivesWhatQwGot(regs: Registers, texts: seq<string>, start: nat, cnt: nat)
    requires InRange(start, cnt)
    ensures Qr(QwAll(regs, texts), Number(16, 2, start) + Number(16, 2, cnt)) ==
      Some("QR" + Number(16, 2, start) + Number(16, 2, cnt)
           + Join(LastGivenEach(regs, texts, start, cnt)) + [10 as char])
  {
    RangeIsParsed(start, cnt);
    ShowsEach(regs, texts, start, cnt);
  }

  // ---------------------------------------------------------------- the commands as the server runs them

  class Pwm2Chip {
    const regs: array<byte>

    ghost predicate Valid()
      reads this
    {
      regs.Length == 256
    }

    ghost function Abs(): Registers
      requires Valid()
      reads this, regs
    {
      regs[..]
    }

    constructor ()
      ensures Valid() && fresh(regs)
    {
      regs := new byte[256](_ => 0);
    }

    // A block write that the bus carries out: the first byte names a register.
    method WriteBlock(first: byte, data: seq<byte>)
      requires Valid() && first + |data| <= 256
      modifies regs
      ensures Abs() == old(Abs())[..first] + data + old(Abs())[first + |data|..]
    {
      ghost var was := regs[..];
      for i := 0 to |data|
        invariant regs[..] == was[..first] + data[..i] + was[first + i..]
      {
        regs[first + i] := data[i];
        assert regs[..] == was[..first] + data[..i + 1] + was[first + i + 1..];
      }
      assert data[..|data|] == data;
    }

    method WriteRange(cs: seq<Channel>, start: nat, cnt: nat) returns (ok: bool)
      requires Valid() && AllOK(cs) && (cnt <= 16 ==> |cs| == cnt)
      modifies regs
      ensures ok <==> InRange(start, cnt)
      ensures Abs() == if InRange(start, cnt) then WithRange(old(Abs()), cs, start) else old(Abs())
    {
      if start >= 16 || cnt == 0 || cnt > 16 || start + cnt > 16 { return false; }
      var dest := [];
      var i := 0;
      while i < cnt
        invariant 0 <= i <= cnt && dest == Block(cs[..i]) && Abs() == old(Abs())
      {
        var c := cs[i];
        dest := dest + [c.onPos % 256, c.onPos / 256 + (if c.alwaysOn then 16 else 0)];
        dest := dest + [c.offPos % 256, c.offPos / 256 + (if c.alwaysOff then 16 else 0)];
        BlockSnoc(cs[..i], c);
        assert cs[..i] + [c] == cs[..i + 1];
        i := i + 1;
      }
      assert cs[..cnt] == cs;
      WriteBlock(0x06 + start * 4, dest);
      ok := true;
    }

    method ReadRange(start: nat, cnt: nat) returns (ok: bool, cs: seq<Channel>)
      requires Valid()
      ensures ok <==> InRange(start, cnt)
      ensures ok ==> |cs| == cnt && forall i :: 0 <= i < cnt ==> cs[i] == ReadChannel(Abs(), start + i)
    {
      cs := [];
      if start >= 16 || cnt == 0 || cnt > 16 || start + cnt > 16 { return false, []; }
      var src := regs[6 + start * 4..6 + start * 4 + cnt * 4];
      while |cs| < cnt
        invariant |cs| <= cnt
        invariant forall i :: 0 <= i < |cs| ==> cs[i] == ReadChannel(Abs(), start + i)
      {
        var k := 4 * |cs|;
        ghost var r := FirstReg(start + |cs|);
        assert src[k] == regs[r] && src[k + 1] == regs[r + 1] && src[k + 2] == regs[r + 2] && src[k + 3] == regs[r + 3];
        var on := (src[k] as int + 256 * src[k + 1] as int) % 0x2000;
        var off := (src[k + 2] as int + 256 * src[k + 3] as int) % 0x2000;
        cs := cs + [Channel(on % 0x1000, on >= 0x1000, off % 0x1000, off >= 0x1000)];
      }
      ok := true;
    }
  }

  lemma {:induction false} BlockSnoc(cs: seq<Channel>, c: Channel)
    requires AllOK(cs) && ChannelOK(c)
    ensures Block(cs + [c]) == Block(cs) + Bytes(c)
    ensures Bytes(c) == [c.onPos % 256, c.onPos / 256 + (if c.alwaysOn then 16 else 0),
                         c.offPos % 256, c.offPos / 256 + (if c.alwaysOff then 16 else 0)]
  {
    if cs == [] {
      assert cs + [c] == [c] && [c][1..] == [];
      assert Bytes(c) + [] == Bytes(c);
    } else {
      assert (cs + [c])[1..] == cs[1..] + [c] && (cs + [c])[0] == cs[0];
      BlockSnoc(cs[1..], c);
    }
  }

  // Start and count, two digits each.
  method FetchRange(cmd: CmdBuffer) returns (ok: bool, start: nat, cnt: nat)
    requires cmd.Valid()
    modifies cmd`fi
    ensures cmd.Valid() && (ok <==> ParseRange(old(cmd.Rest())).Range?)
    ensures ok ==> ParseRange(old(cmd.Rest())) == Range(start, cnt, cmd.Rest())
  {
    cnt := 0;
    ok, start := cmd.FetchN(16, 2);
    if ok {
      ok, cnt := cmd.FetchN(16, 2);
    }
  }

  // ON and OFF, four digits each.
  method FetchChannel(cmd: CmdBuffer) returns (ok: bool, c: Channel)
    requires cmd.Valid()
    modifies cmd`fi
    ensures cmd.Valid() && (ok <==> ParseChannel(old(cmd.Rest())).Parsed?)
    ensures ok ==> ParseChannel(old(cmd.Rest())) == Parsed([c], cmd.Rest()) && ChannelOK(c)
  {
    var on, off;
    c := Channel(0, false, 0, false);
    ok, on := cmd.FetchN(16, 4);
    if !ok { return false, c; }
    if on >= 0x2000 { return false, c; }
    ok, off := cmd.FetchN(16, 4);
    if !ok { return false, c; }
    if off >= 0x2000 { return false, c; }
    c := Channel(on % 0x1000, on >= 0x1000, off % 0x1000, off >= 0x1000);
  }

  // Having parsed cs with s left, the whole of the text still means what it meant.
  predicate Onward(text: string, cnt: nat, cs: seq<Channel>, s: string) {
    && |cs| <= cnt
    && ParseChannels(text, cnt) ==
      var p := ParseChannels(s, cnt - |cs|);
      if p.Refused? then Refused else Parsed(cs + p.cs, p.rest)
  }

  lemma OnwardStep(text: string, cnt: nat, cs: seq<Channel>, s: string)
    requires Onward(text, cnt, cs, s) && |cs| < cnt
    ensures var first := ParseChannel(s);
      if first.Refused? then ParseChannels(text, cnt).Refused?
      else Onward(text, cnt, cs + first.cs, first.rest)
  {
    var first := ParseChannel(s);
    if first.Parsed? {
      var more := ParseChannels(first.rest, cnt - |cs| - 1);
      if more.Parsed? {
        assert cs + (first.cs + more.cs) == (cs + first.cs) + more.cs;
      }
    }
  }

  method FetchChannels(cmd: CmdBuffer, cnt: nat) returns (ok: bool, cs: seq<Channel>)
    requires cmd.Valid()
    modifies cmd`fi
    ensures cmd.Valid() && (ok <==> ParseChannels(old(cmd.Rest()), cnt).Parsed?)
    ensures ok ==> ParseChannels(old(cmd.Rest()), cnt) == Parsed(cs, cmd.Rest())
  {
    ghost var text := cmd.Rest();
    cs := [];
    OnwardStart(text, cnt);
    while |cs| < cnt
      invariant |cs| <= cnt && cmd.Valid()
      invariant Onward(text, cnt, cs, cmd.Rest())
    {
      OnwardStep(text, cnt, cs, cmd.Rest());
      var c;
      ok, c := FetchChannel(cmd);
      if !ok { return false, cs; }
      cs := cs + [c];
    }
    assert cs + [] == cs;
    ok := true;
  }

  lemma OnwardStart(text: string, cnt: nat)
    ensures Onward(text, cnt, [], text)
  {
    var p := ParseChannels(text, cnt);
    if p.Parsed? {
      assert [] + p.cs == p.cs;
    }
  }

  // The command text is past its two letters.
  method ParseCmdQw(cmd: CmdBuffer, chip: Pwm2Chip) returns (ok: bool)
    requires cmd.Valid() && chip.Valid()
    modifies cmd`fi, chip.regs
    ensures ok <==> ParseQw(old(cmd.Rest())).Order?
    ensures chip.Abs() == Qw(old(chip.Abs()), old(cmd.Rest()))
  {
    var start, cnt, cs;
    ok, start, cnt := FetchRange(cmd);
    if !ok { return false; }
    if cnt > 16 { return false; }
    ok, cs := FetchChannels(cmd, cnt);
    if !ok { return false; }
    var c := cmd.FetchCmdCh();
    if c != 0 as char { return false; }
    ok := chip.WriteRange(cs, start, cnt);
  }

  method ParseCmdQr(cmd: CmdBuffer, chip: Pwm2Chip, rsp: RspBuffer) returns (ok: bool)
    requires cmd.Valid() && chip.Valid() && rsp.Valid() && cmd.rcvCmd != rsp.sndRsp
    modifies cmd`fi, rsp`si, rsp`sent, rsp.sndRsp
    ensures rsp.Valid() && chip.Abs() == old(chip.Abs())
    ensures ok <==> Qr(chip.Abs(), old(cmd.Rest())).Some?
    ensures rsp.Took(old(rsp.Stored()), old(rsp.si), if ok then Qr(chip.Abs(), old(cmd.Rest())).value else "")
  {
    TookNothing(rsp);
    var start, cnt, cs;
    ok, start, cnt := FetchRange(cmd);
    if !ok { return false; }
    var c := cmd.FetchCmdCh();
    if c != 0 as char { return false; }
    ok, cs := chip.ReadRange(start, cnt);
    if !ok { return false; }
    QrForm(chip.Abs(), old(cmd.Rest()), start, cnt, cs);
    PrintRange(rsp, start, cnt, cs);
  }

  lemma TookNothing(rsp: RspBuffer)
    requires rsp.Valid()
    ensures rsp.Took(rsp.Stored(), rsp.si, "")
  {
    assert rsp.Stored() + "" == rsp.Stored();
  }

  // One text after another.
  lemma TookBoth(rsp: RspBuffer, was: string, si0: nat, s: string, mid: string, si1: nat, t: string)
    requires rsp.Valid() && si0 <= SND_RSP_LEN && si1 <= SND_RSP_LEN
    requires mid == was + Taken(rsp.up, si0, s) && (!rsp.up ==> si1 == si0 + |Taken(rsp.up, si0, s)|)
    requires rsp.Took(mid, si1, t)
    ensures rsp.Took(was, si0, s + t)
  {
    TakenJoin(rsp.up, si0, s, si1, t);
    Associative(was, Taken(rsp.up, si0, s), Taken(rsp.up, si1, t));
  }

  lemma QrForm(regs: Registers, s: string, start: nat, cnt: nat, cs: seq<Channel>)
    requires ParseRange(s) == Range(start, cnt, "") && InRange(start, cnt)
    requires |cs| == cnt && forall i :: 0 <= i < cnt ==> cs[i] == ReadChannel(regs, start + i)
    ensures AllOK(cs)
    ensures Qr(regs, s) == Some("QR" + Number(16, 2, start) + Number(16, 2, cnt) + Join(Texts(cs)) + [10 as char])
  {
    var texts, shown := Texts(cs), ShownEach(regs, start, cnt);
    forall i | 0 <= i < cnt ensures texts[i] == shown[i] {
      assert cs[i] == ReadChannel(regs, start + i);
    }
    assert texts == shown;
  }

  function Texts(cs: seq<Channel>): (ss: seq<string>)
    requires AllOK(cs)
    ensures |ss| == |cs| && forall i :: 0 <= i < |cs| ==> ss[i] == ChannelText(cs[i])
  {
    seq(|cs|, i requires 0 <= i < |cs| => ChannelText(cs[i]))
  }

  method PrintRange(rsp: RspBuffer, start: nat, cnt: nat, cs: seq<Channel>)
    requires rsp.Valid() && start < 256 && cnt < 256 && AllOK(cs) && |cs| == cnt
    modifies rsp`si, rsp`sent, rsp.sndRsp
    ensures rsp.Valid()
    ensures rsp.Took(old(rsp.Stored()), old(rsp.si),
                     "QR" + Number(16, 2, start) + Number(16, 2, cnt) + Join(Texts(cs)) + [10 as char])
  {
    ghost var was, si0 := rsp.Stored(), rsp.si;
    ghost var head := "QR" + Number(16, 2, start) + Number(16, 2, cnt);
    PrintHead(rsp, start, cnt);
    ghost var mid, si1 := rsp.Stored(), rsp.si;
    PrintChannels(rsp, cs);
    TookBoth(rsp, was, si0, head, mid, si1, Join(Texts(cs)));
    mid, si1 := rsp.Stored(), rsp.si;
    var sent := rsp.StoreRspCh(10 as char);
    TookBoth(rsp, was, si0, head + Join(Texts(cs)), mid, si1, [10 as char]);
  }

  method PrintChannels(rsp: RspBuffer, cs: seq<Channel>)
    requires rsp.Valid() && AllOK(cs)
    modifies rsp`si, rsp`sent, rsp.sndRsp
    ensures rsp.Valid() && rsp.Took(old(rsp.Stored()), old(rsp.si), Join(Texts(cs)))
  {
    ghost var was, si0 := rsp.Stored(), rsp.si;
    ghost var all := Texts(cs);
    TookNothing(rsp);
    var i := 0;
    while i < |cs|
      invariant 0 <= i <= |cs| && rsp.Valid()
      invariant rsp.Took(was, si0, Join(all[..i]))
    {
      ghost var mid, si1 := rsp.Stored(), rsp.si;
      PrintChannel(rsp, cs[i]);
      TookBoth(rsp, was, si0, Join(all[..i]), mid, si1, all[i]);
      JoinSnoc(all, i);
      i := i + 1;
    }
    assert all[..i] == all;
  }

  lemma JoinSnoc(ss: seq<string>, i: nat)
    requires i < |ss|
    ensures Join(ss[..i + 1]) == Join(ss[..i]) + ss[i]
  {
    assert ss[..i + 1][..i] == ss[..i];
  }

  method PrintHead(rsp: RspBuffer, start: nat, cnt: nat)
    requires rsp.Valid() && start < 256 && cnt < 256
    modifies rsp`si, rsp`sent, rsp.sndRsp
    ensures rsp.Valid()
    ensures rsp.Took(old(rsp.Stored()), old(rsp.si), "QR" + Number(16, 2, start) + Number(16, 2, cnt))
  {
    ghost var was, si0 := rsp.Stored(), rsp.si;
    var sent := rsp.StoreRspCh('Q');
    ghost var mid, si1 := rsp.Stored(), rsp.si;
    sent := rsp.StoreRspCh('R');
    TookBoth(rsp, was, si0, "Q", mid, si1, "R");
    assert "Q" + "R" == "QR";
    mid, si1 := rsp.Stored(), rsp.si;
    sent := rsp.StoreHexN(2, start);
    TookBoth(rsp, was, si0, "QR", mid, si1, Number(16, 2, start));
    mid, si1 := rsp.Stored(), rsp.si;
    sent := rsp.StoreHexN(2, cnt);
    TookBoth(rsp, was, si0, "QR" + Number(16, 2, start), mid, si1, Number(16, 2, cnt));
  }

  method PrintChannel(rsp: RspBuffer, c: Channel)
    requires rsp.Valid() && ChannelOK(c)
    modifies rsp`si, rsp`sent, rsp.sndRsp
    ensures rsp.Valid() && rsp.Took(old(rsp.Stored()), old(rsp.si), ChannelText(c))
  {
    ghost var was, si0 := rsp.Stored(), rsp.si;
    var val := c.onPos;
    if c.alwaysOn { val := val + 0x1000; }
    var ok := rsp.StoreHexN(4, val);
    ghost var first, mid, si1 := val, rsp.Stored(), rsp.si;
    val := c.offPos;
    if c.alwaysOff { val := val + 0x1000; }
    ok := rsp.StoreHexN(4, val);
    TookBoth(rsp, was, si0, Number(16, 4, first), mid, si1, Number(16, 4, val));
  }
}
