/**
 The TWI master part of the host as the fields and loops it works with. Each
 method is proved to do to the abstract host what TwiHost's function does, and
 the transmit pump to do, command by command and byte by byte, what a sequence
 of TxOne steps does.
 */
module TwiMaster {
  import opened Basics
  import opened TwiHost
  import opened TwiInvariant

  // ---------------------------------------------------------------- command bytes

  const CMD_START: byte := 36
  const CMD_STOP: byte := 37
  const CMD_TX: byte := 38
  const CMD_RX: byte := 39

  function Encode(e: Entry): seq<byte> {
    match e
    case Stop => [CMD_STOP]
    case Of(_, Start(u), _) => [CMD_START, u]
    case Of(_, Tx(data), _) => [CMD_TX, CountByte(|data|)] + data
    case Of(_, Rx(n, last), _) => [CMD_RX, CountByte(n) + (if last then 128 else 0)]
  }

  // A packet carries 1..32 bytes, sent as the count minus one.
  function CountByte(n: nat): byte {
    if 1 <= n <= 32 then n - 1 else 0
  }

  function EncodeAll(es: seq<Entry>): seq<byte> {
    if es == [] then [] else Encode(es[0]) + EncodeAll(es[1..])
  }

  // The device's view of a command stream: the first command and what follows it.
  datatype Heard = Garbled | Heard(cmd: Option<Cmd>, rest: seq<byte>)

  // None stands for a STOP.
  function Listen(s: seq<byte>): Heard {
    if |s| == 0 then Garbled
    else if s[0] == CMD_STOP then Heard(None, s[1..])
    else if |s| == 1 then Garbled
    else if s[0] == CMD_START then Heard(Some(Start(s[1])), s[2..])
    else if s[0] == CMD_RX then Heard(Some(Rx(s[1] % 32 + 1, s[1] >= 128)), s[2..])
    else if s[0] == CMD_TX then
      var n := s[1] % 32 + 1;
      if |s| < 2 + n then Garbled else Heard(Some(Tx(s[2..2 + n])), s[2 + n..])
    else Garbled
  }

  // The device hears exactly the command that was encoded, whatever comes after it.
  lemma ListenEncode(e: Entry, rest: seq<byte>)
    requires Sendable(e)
    ensures Listen(Encode(e) + rest) == Heard(CmdOf(e), rest)
  {
    var s := Encode(e) + rest;
    match e
    case Stop => assert s[1..] == rest;
    case Of(_, Start(u), _) => assert s[2..] == rest;
    case Of(_, Rx(n, last), _) => assert s[2..] == rest;
    case Of(_, Tx(data), _) =>
      assert s[2..2 + |data|] == data;
      assert s[2 + |data|..] == rest;
  }

  // The whole stream, command by command; None if some of it is garbled.
  function ListenAll(s: seq<byte>): Option<seq<Option<Cmd>>>
    decreases |s|
  {
    if s == [] then Some([])
    else match Listen(s)
         case Garbled => None
         case Heard(c, rest) =>
           match ListenAll(rest)
           case None => None
           case Some(cs) => Some([c] + cs)
  }

  function CmdOf(e: Entry): Option<Cmd> {
    if e.Stop? then None else Some(e.cmd)
  }

  function CmdsOf(es: seq<Entry>): (r: seq<Option<Cmd>>)
    ensures |r| == |es| && forall i :: 0 <= i < |es| ==> r[i] == CmdOf(es[i])
  {
    if es == [] then [] else [CmdOf(es[0])] + CmdsOf(es[1..])
  }

  predicate Sendable(e: Entry) {
    e.Of? && !e.cmd.Start? ==> 1 <= Size(e.cmd) <= 32
  }

  // The device hears a stream of commands as it was encoded.
  lemma {:induction false} ListenEncodeAll(es: seq<Entry>)
    requires forall i :: 0 <= i < |es| ==> Sendable(es[i])
    ensures ListenAll(EncodeAll(es)) == Some(CmdsOf(es))
    decreases |es|
  {
    if es != [] {
      assert Sendable(es[0]);
      ListenEncode(es[0], EncodeAll(es[1..]));
      ListenEncodeAll(es[1..]);
    }
  }

  // ---------------------------------------------------------------- the pump as a whole

  // Everything the pump emits in one go: it stops when TxOne has nothing to emit.
  function Pump(h: Host): (r: (Host, seq<Entry>))
    requires PumpReady(h)
    ensures PumpReady(r.0) && TxOne(r.0) == Quiet
    decreases h.free
  {
    PumpStaysReady(h);
    match TxOne(h)
    case Quiet => (h, [])
    case Emit(h1, e) =>
      var (h2, es) := Pump(h1);
      (h2, [e] + es)
  }

  // Pumpable, for the transfers the pump has yet to reach as well.
  predicate PumpReady(h: Host) {
    forall i :: 0 <= i < |h.sch| && h.cur <= i ==> XferReady(h.sch[i])
  }

  predicate XferReady(x: Xfr) {
    && x.cmd <= x.sc
    && (x.cmd < x.sc || (Probe(x) && x.txPhase == Addressing))
    && (!x.detached ==> |x.buf| == x.sc)
  }

  lemma PumpStaysReady(h: Host)
    requires PumpReady(h)
    ensures Pumpable(h)
    ensures TxOne(h).Emit? ==> PumpReady(TxOne(h).h) && TxOne(h).h.free < h.free
  {
    if h.cur < |h.sch| {
      assert XferReady(h.sch[h.cur]);
    }
    if TxOne(h).Emit? {
      var h1 := TxOne(h).h;
      forall i | 0 <= i < |h1.sch| && h1.cur <= i
        ensures XferReady(h1.sch[i])
      {
        assert XferReady(h.sch[i]);
      }
    }
  }

  // The host's invariant makes the pump ready.
  lemma HostIsReady(h: Host)
    requires HostOK(h)
    ensures PumpReady(h)
  {
    forall i | 0 <= i < |h.sch| && h.cur <= i
      ensures XferReady(h.sch[i])
    {
      assert XferOK(h.sch[i]);
    }
  }

  lemma SendsSendable(h: Host)
    requires Pumpable(h) && TxOne(h).Emit?
    ensures Sendable(TxOne(h).e)
  {
  }

  // What the pump sends in one go, the device hears as the commands the pump meant.
  lemma {:induction false} PumpIsHeard(h: Host)
    requires PumpReady(h)
    ensures forall i :: 0 <= i < |Pump(h).1| ==> Sendable(Pump(h).1[i])
    ensures ListenAll(EncodeAll(Pump(h).1)) == Some(CmdsOf(Pump(h).1))
    decreases h.free
  {
    PumpStaysReady(h);
    if TxOne(h).Emit? {
      var more := Pump(TxOne(h).h).1;
      PumpIsHeard(TxOne(h).h);
      SendsSendable(h);
      assert Pump(h).1 == [TxOne(h).e] + more;
      forall i | 0 <= i < |Pump(h).1| ensures Sendable(Pump(h).1[i]) {
        if i > 0 { assert Sendable(more[i - 1]); }
      }
    }
    ListenEncodeAll(Pump(h).1);
  }

  lemma {:induction false} EncodeConcat(es: seq<Entry>, fs: seq<Entry>)
    ensures EncodeAll(es + fs) == EncodeAll(es) + EncodeAll(fs)
  {
    if es == [] {
      assert es + fs == fs;
    } else {
      assert (es + fs)[1..] == es[1..] + fs && (es + fs)[0] == es[0];
      EncodeConcat(es[1..], fs);
      Associative(Encode(es[0]), EncodeAll(es[1..]), EncodeAll(fs));
    }
  }

  // From h, the pump's commands es lead to h1.
  ghost predicate Emits(h: Host, es: seq<Entry>, h1: Host)
    decreases |es|
  {
    if es == [] then h1 == h
    else
      Pumpable(h) && TxOne(h).Emit? && TxOne(h).e == es[0] && Emits(TxOne(h).h, es[1..], h1)
  }

  lemma EmitsOne(h: Host, h1: Host, e: Entry)
    requires Pumpable(h) && TxOne(h) == Emit(h1, e)
    ensures Emits(h, [e], h1) && EncodeAll([e]) == Encode(e)
  {
    assert [e][1..] == [];
    assert Encode(e) + [] == Encode(e);
  }

  lemma {:induction false} EmitsThen(h0: Host, es: seq<Entry>, h: Host, fs: seq<Entry>, h1: Host)
    requires Emits(h0, es, h) && Emits(h, fs, h1)
    ensures Emits(h0, es + fs, h1)
    decreases |es|
  {
    if es == [] {
      assert es + fs == fs;
    } else {
      var hm := TxOne(h0).h;
      EmitsThen(hm, es[1..], h, fs, h1);
      assert (es + fs)[1..] == es[1..] + fs;
      assert (es + fs)[0] == es[0];
    }
  }

  // The commands es took the host from h0 to h and the stream from out0 to out.
  ghost predicate Sent(h0: Host, out0: seq<byte>, es: seq<Entry>, h: Host, out: seq<byte>) {
    Emits(h0, es, h) && out == out0 + EncodeAll(es)
  }

  lemma SentJoin(h0: Host, out0: seq<byte>, es: seq<Entry>, h: Host, out: seq<byte>,
                 fs: seq<Entry>, h1: Host, out1: seq<byte>)
    requires Sent(h0, out0, es, h, out) && Sent(h, out, fs, h1, out1)
    ensures Sent(h0, out0, es + fs, h1, out1)
  {
    EmitsThen(h0, es, h, fs, h1);
    BytesJoin(out0, es, fs);
  }

  lemma BytesJoin(out0: seq<byte>, es: seq<Entry>, fs: seq<Entry>)
    ensures (out0 + EncodeAll(es)) + EncodeAll(fs) == out0 + EncodeAll(es + fs)
  {
    EncodeConcat(es, fs);
    Associative(out0, EncodeAll(es), EncodeAll(fs));
  }

  // Pump is the longest such sequence.
  lemma {:induction false} EmitsAll(h: Host, es: seq<Entry>, h1: Host)
    requires PumpReady(h) && Emits(h, es, h1) && Pumpable(h1) && TxOne(h1) == Quiet
    ensures Pump(h) == (h1, es)
    decreases |es|
  {
    PumpStaysReady(h);
    if es != [] {
      EmitsAll(TxOne(h).h, es[1..], h1);
      assert es == [es[0]] + es[1..];
    }
  }
}
