/**
 The SPI part of the host as the fields and loops it works with. All user buffers lie
 in one memory; a transfer knows where its buffer starts, fetches what it sends from
 there and stores what it receives there. Each method is proved to do to the abstract
 host what SpiHost's function does.
 */
module SpiContext {
  import opened Basics
  import opened SpiHost
  import SpiInvariant

  const CMD_SPI_XFR: byte := 53

  function Header(cnt: nat, ss: nat, last: bool): seq<byte>
    requires 1 <= cnt <= 32 && ss < 4
  {
    [CMD_SPI_XFR, cnt - 1 + ss * 32 + (if last then 128 else 0)]
  }

  function Encode(p: Packet): seq<byte>
    requires 1 <= |p.data| <= 32 && p.ss < 4
  {
    Header(|p.data|, p.ss, p.last) + p.data
  }

  predicate Encodable(ps: seq<Packet>) {
    forall i :: 0 <= i < |ps| ==> 1 <= |ps[i].data| <= 32 && ps[i].ss < 4
  }

  function EncodeAll(ps: seq<Packet>): seq<byte>
    requires Encodable(ps)
  {
    if ps == [] then [] else Encode(ps[0]) + EncodeAll(ps[1..])
  }

  lemma {:induction false} EncodeSnoc(ps: seq<Packet>, p: Packet)
    requires Encodable(ps) && 1 <= |p.data| <= 32 && p.ss < 4
    ensures Encodable(ps + [p]) && EncodeAll(ps + [p]) == EncodeAll(ps) + Encode(p)
  {
    if ps == [] {
      assert ps + [p] == [p] && [p][1..] == [];
      assert Encode(p) + [] == Encode(p);
    } else {
      assert (ps + [p])[1..] == ps[1..] + [p] && (ps + [p])[0] == ps[0];
      EncodeSnoc(ps[1..], p);
      Associative(Encode(ps[0]), EncodeAll(ps[1..]), Encode(p));
    }
  }

  // The device's view of a stream of packets: the first one and what follows it.
  datatype Command = Command(ss: nat, last: bool, data: seq<byte>)

  datatype Heard = Garbled | Heard(c: Command, rest: seq<byte>)

  function Listen(s: seq<byte>): Heard {
    if |s| < 2 || s[0] != CMD_SPI_XFR then Garbled
    else
      var n := s[1] % 32 + 1;
      if |s| < 2 + n then Garbled else Heard(Command(s[1] / 32 % 4, s[1] >= 128, s[2..2 + n]), s[2 + n..])
  }

  // The whole stream, packet by packet; None if some of it is garbled.
  function ListenAll(s: seq<byte>): Option<seq<Command>>
    decreases |s|
  {
    if s == [] then Some([])
    else match Listen(s)
         case Garbled => None
         case Heard(c, rest) =>
           match ListenAll(rest)
           case None => None
           case Some(cs) => Some([c] + cs)
  }

  function CommandOf(p: Packet): Command {
    Command(p.ss, p.last, p.data)
  }

  function CommandsOf(ps: seq<Packet>): (r: seq<Command>)
    ensures |r| == |ps| && forall i :: 0 <= i < |ps| ==> r[i] == CommandOf(ps[i])
  {
    if ps == [] then [] else [CommandOf(ps[0])] + CommandsOf(ps[1..])
  }

  // The device hears exactly the packet that was encoded, whatever comes after it.
  lemma ListenEncode(p: Packet, rest: seq<byte>)
    requires 1 <= |p.data| <= 32 && p.ss < 4
    ensures Listen(Encode(p) + rest) == Heard(CommandOf(p), rest)
  {
    var s, n := Encode(p) + rest, |p.data|;
    assert s[1] == n - 1 + p.ss * 32 + (if p.last then 128 else 0);
    assert s[2..2 + n] == p.data;
    assert s[2 + n..] == rest;
  }

  // It hears a stream of packets as it was encoded.
  lemma {:induction false} ListenEncodeAll(ps: seq<Packet>)
    requires Encodable(ps)
    ensures ListenAll(EncodeAll(ps)) == Some(CommandsOf(ps))
    decreases |ps|
  {
    if ps != [] {
      ListenEncode(ps[0], EncodeAll(ps[1..]));
      ListenEncodeAll(ps[1..]);
    }
  }

  // ---------------------------------------------------------------- the pump as a whole

  predicate PumpReady(h: Host) {
    forall i :: 0 <= i < |h.sch| && h.cur <= i ==>
      var x := h.sch[i];
      x.fi < x.sc && x.ss < 4 && (!x.detached ==> |x.buf| == x.sc)
  }

  lemma PumpStaysReady(h: Host)
    requires PumpReady(h)
    ensures Pumpable(h)
    ensures TxOne(h).Emit? ==>
      && PumpReady(TxOne(h).h) && TxOne(h).h.free < h.free
      && 1 <= |TxOne(h).p.data| <= 32 && TxOne(h).p.ss < 4
  {
  }

  // The host's invariant makes the pump ready.
  lemma HostIsReady(h: Host)
    requires SpiInvariant.HostOK(h)
    ensures PumpReady(h)
  {
    forall i | h.cur <= i < |h.sch|
      ensures h.sch[i].fi < h.sch[i].sc && h.sch[i].ss < 4 && (!h.sch[i].detached ==> |h.sch[i].buf| == h.sch[i].sc)
    {
      assert SpiInvariant.XferOK(h.sch[i]);
    }
  }

  // Everything the pump sends in one go.
  function Pump(h: Host): (r: (Host, seq<Packet>))
    requires PumpReady(h)
    ensures PumpReady(r.0) && TxOne(r.0) == Quiet && Encodable(r.1)
    decreases h.free
  {
    PumpStaysReady(h);
    match TxOne(h)
    case Quiet => (h, [])
    case Emit(h1, p) =>
      var (h2, ps) := Pump(h1);
      (h2, [p] + ps)
  }

  // What the pump sends in one go, the device hears as the packets the pump meant.
  lemma PumpIsHeard(h: Host)
    requires PumpReady(h)
    ensures ListenAll(EncodeAll(Pump(h).1)) == Some(CommandsOf(Pump(h).1))
  {
    ListenEncodeAll(Pump(h).1);
  }

  // The packets ps are the first of what the pump sends from h0, and h is where they lead.
  predicate Onward(h0: Host, ps: seq<Packet>, h: Host) {
    && PumpReady(h0) && PumpReady(h) && Encodable(ps)
    && Pump(h0).0 == Pump(h).0 && Pump(h0).1 == ps + Pump(h).1
  }

  lemma OnwardStep(h0: Host, ps: seq<Packet>, h: Host, p: Packet, h1: Host)
    requires Onward(h0, ps, h) && TxOne(h) == Emit(h1, p)
    ensures Onward(h0, ps + [p], h1) && h1.free < h.free
    ensures EncodeAll(ps + [p]) == EncodeAll(ps) + Encode(p)
  {
    PumpStaysReady(h);
    assert Pump(h) == (Pump(h1).0, [p] + Pump(h1).1);
    EncodeSnoc(ps, p);
    assert ps + ([p] + Pump(h1).1) == (ps + [p]) + Pump(h1).1;
  }

  lemma OnwardDone(h0: Host, ps: seq<Packet>, h: Host)
    requires Onward(h0, ps, h) && TxOne(h) == Quiet
    ensures Pump(h0) == (h, ps)
  {
    assert ps + [] == ps;
  }

  // What TxOne does for a transfer that can go on.
  lemma PacketForm(h: Host, p: Packet)
    requires PumpReady(h) && h.cur < |h.sch| && !h.sch[h.cur].skipped && h.free >= 3
    requires var x := h.sch[h.cur]; var n := PacketSize(h, x);
      p == Packet(x.job, x.ss, x.fi + n == x.sc, DataBytes(x, n))
    ensures var x := h.sch[h.cur]; var n := PacketSize(h, x);
      TxOne(h) == Emit(h.(free := h.free - (2 + n), sch := h.sch[h.cur := x.(active := true, fi := x.fi + n)],
                          cur := if x.fi + n == x.sc then h.cur + 1 else h.cur), p)
    ensures 1 <= |p.data| <= 32 && p.ss < 4 && Encode(p) == Header(|p.data|, p.ss, p.last) + p.data
  {
  }

  // ---------------------------------------------------------------- transfers in memory

  // `base` is the user's pointer. The last four are bookkeeping; `was` is what the host has
  // left in the buffer of a destroyed transfer, which the user may have put to other use.
  datatype Rec = Rec(
    active: bool, detached: bool, base: nat, sc: nat, fi: nat, si: nat, xfrd: nat,
    ss: nat, skipped: bool, job: nat, orig: seq<byte>, cut: nat, was: seq<byte>)

  predicate InMemory(m: seq<byte>, r: Rec) {
    !r.detached ==> r.base + r.sc <= |m|
  }

  // Buffers the host may still use do not overlap.
  predicate Disjoint(a: Rec, b: Rec) {
    !a.detached && !b.detached ==> a.base + a.sc <= b.base || b.base + b.sc <= a.base
  }

  predicate Layout(m: seq<byte>, sch: seq<Rec>) {
    && (forall i :: 0 <= i < |sch| ==> InMemory(m, sch[i]))
    && (forall i, j :: 0 <= i < j < |sch| ==> Disjoint(sch[i], sch[j]))
  }

  function View(m: seq<byte>, r: Rec): Xfr
    requires InMemory(m, r)
  {
    Xfr(r.job, r.active, r.detached, if r.detached then r.was else m[r.base..r.base + r.sc],
        r.sc, r.fi, r.si, r.xfrd, r.ss, r.skipped, r.orig, r.cut)
  }

  function Views(m: seq<byte>, sch: seq<Rec>): (r: seq<Xfr>)
    requires Layout(m, sch)
    ensures |r| == |sch|
    ensures forall i :: 0 <= i < |sch| ==> r[i] == View(m, sch[i])
  {
    seq(|sch|, i requires 0 <= i < |sch| => View(m, sch[i]))
  }

  lemma ViewsUpdate(m: seq<byte>, sch: seq<Rec>, i: nat, r: Rec)
    requires Layout(m, sch) && i < |sch|
    requires r.detached || (r.base == sch[i].base && r.sc == sch[i].sc && !sch[i].detached)
    ensures Layout(m, sch[i := r]) && Views(m, sch[i := r]) == Views(m, sch)[i := View(m, r)]
  {
    var sch1 := sch[i := r];
    forall a, b | 0 <= a < b < |sch1| ensures Disjoint(sch1[a], sch1[b]) {
      assert Disjoint(sch[a], sch[b]);
    }
  }

  // A transfer added at the tail, its buffer apart from the others.
  lemma ViewsSnoc(m: seq<byte>, sch: seq<Rec>, r: Rec)
    requires Layout(m, sch) && InMemory(m, r) && forall i :: 0 <= i < |sch| ==> Disjoint(sch[i], r)
    ensures Layout(m, sch + [r]) && Views(m, sch + [r]) == Views(m, sch) + [View(m, r)]
  {
    forall a, b | 0 <= a < b < |sch + [r]| ensures Disjoint((sch + [r])[a], (sch + [r])[b]) {
      if b < |sch| { assert Disjoint(sch[a], sch[b]); } else { assert Disjoint(sch[a], r); }
    }
  }

  lemma ViewsWithout(m: seq<byte>, sch: seq<Rec>, i: nat)
    requires Layout(m, sch) && i < |sch|
    ensures Layout(m, Without(sch, i)) && Views(m, Without(sch, i)) == Without(Views(m, sch), i)
  {
    var rest := Without(sch, i);
    forall a, b | 0 <= a < b < |rest| ensures Disjoint(rest[a], rest[b]) {
      assert Disjoint(sch[if a < i then a else a + 1], sch[if b < i then b else b + 1]);
    }
  }

  lemma SliceStore(m: seq<byte>, lo: nat, hi: nat, k: nat, b: byte)
    requires lo <= hi <= |m| && k < |m|
    ensures lo <= k < hi ==> m[k := b][lo..hi] == m[lo..hi][k - lo := b]
    ensures !(lo <= k < hi) ==> m[k := b][lo..hi] == m[lo..hi]
  {
  }

  // A byte stored in one transfer's buffer is in no other's.
  lemma ViewsStore(m: seq<byte>, sch: seq<Rec>, b: byte, r1: Rec, m1: seq<byte>)
    requires Layout(m, sch) && sch != [] && !sch[0].detached && sch[0].si < sch[0].sc
    requires r1 == sch[0].(si := sch[0].si + 1) && m1 == m[r1.base + sch[0].si := b]
    ensures Layout(m1, sch[0 := r1]) && Views(m1, sch[0 := r1]) == Views(m, sch)[0 := Stored(View(m, sch[0]), b)]
  {
    ViewsUpdate(m, sch, 0, r1);
    var sch1 := sch[0 := r1];
    SameLayout(m, m1, sch1);
    ViewStored(m, sch[0], b);
    var now, was := Views(m1, sch1), Views(m, sch)[0 := Stored(View(m, sch[0]), b)];
    forall i | 0 <= i < |sch1| ensures now[i] == was[i] {
      if i > 0 { OthersUntouched(m, sch, i, b); }
    }
  }

  lemma SameLayout(m: seq<byte>, m1: seq<byte>, sch: seq<Rec>)
    requires Layout(m, sch) && |m1| == |m|
    ensures Layout(m1, sch)
  {
  }

  lemma ViewStored(m: seq<byte>, r: Rec, b: byte)
    requires InMemory(m, r) && !r.detached && r.si < r.sc
    ensures InMemory(m[r.base + r.si := b], r.(si := r.si + 1))
    ensures View(m[r.base + r.si := b], r.(si := r.si + 1)) == Stored(View(m, r), b)
  {
    SliceStore(m, r.base, r.base + r.sc, r.base + r.si, b);
  }

  lemma OthersUntouched(m: seq<byte>, sch: seq<Rec>, i: nat, b: byte)
    requires Layout(m, sch) && 0 < i < |sch| && !sch[0].detached && sch[0].si < sch[0].sc
    ensures var m1 := m[sch[0].base + sch[0].si := b];
      InMemory(m1, sch[i]) && View(m1, sch[i]) == View(m, sch[i])
  {
    assert Disjoint(sch[0], sch[i]);
    if !sch[i].detached {
      SliceStore(m, sch[i].base, sch[i].base + sch[i].sc, sch[0].base + sch[0].si, b);
    }
  }

  // A transfer as it is scheduled.
  function NewRec(base: nat, sc: nat, ss: nat, job: nat, orig: seq<byte>): Rec {
    Rec(false, false, base, sc, 0, 0, 0, ss, false, job, orig, 0, [])
  }

  // The buffer shares no place with those the host still uses.
  predicate ClearOf(sch: seq<Rec>, base: nat, sc: nat) {
    forall i :: 0 <= i < |sch| && !sch[i].detached ==> base + sc <= sch[i].base || sch[i].base + sch[i].sc <= base
  }

  lemma NewView(m: seq<byte>, sch: seq<Rec>, r: Rec)
    requires Layout(m, sch) && ClearOf(sch, r.base, r.sc) && r.base + r.sc <= |m|
    requires r == NewRec(r.base, r.sc, r.ss, r.job, m[r.base..r.base + r.sc])
    ensures Layout(m, sch + [r])
    ensures Views(m, sch + [r]) ==
      Views(m, sch) + [Xfr(r.job, false, false, r.orig, r.sc, 0, 0, 0, r.ss, false, r.orig, 0)]
  {
    ViewsSnoc(m, sch, r);
  }

  // Where the next byte received goes: into the head's buffer, unless the user has taken
  // that back.
  predicate OwnPlace(sch: seq<Rec>, a: nat) {
    |sch| > 0 && !sch[0].detached && a == sch[0].base + sch[0].si
  }

  // ---------------------------------------------------------------- the context

  class SpiCtx {
    const mem: array<byte>
    var sch: seq<Rec>
    var cur: nat
    var hwBufLen: nat
    var hwBufFree: nat
    var rcvd: nat            // bytes still to come of the answer being received
    var last: bool           // its last flag
    var out: seq<byte>       // the serial stream
    var nextJob: nat         // numbers the transfers, by which users name them
    ghost var log: seq<Done>

    constructor (mem: array<byte>)
      ensures Valid() && this.mem == mem && out == [] && Abs() == Host([], 0, 0, 0, 0, false, 0, [])
    {
      this.mem := mem;
      sch, cur, hwBufLen, hwBufFree, rcvd, last, out := [], 0, 0, 0, 0, false, [];
      nextJob, log := 0, [];
    }

    ghost predicate Valid()
      reads this, mem
    {
      Layout(mem[..], sch)
    }

    ghost function Abs(): Host
      requires Valid()
      reads this, mem
    {
      Host(Views(mem[..], sch), cur, hwBufLen, hwBufFree, rcvd, last, nextJob, log)
    }

    // ------------------------------------------------------------ user calls

    // Any buffer in memory is accepted. If it is apart from those of the other transfers,
    // the host goes on with what is in it now.
    method Schedule(base: nat, sc: nat, ss: nat) returns (ok: bool)
      requires base + sc <= mem.Length
      modifies this
      ensures ok <==> ss <= 3 && sc > 0
      ensures sch == if ok then old(sch) + [NewRec(base, sc, ss, old(nextJob), old(mem[base..base + sc]))] else old(sch)
      ensures nextJob == (if ok then old(nextJob) + 1 else old(nextJob)) && cur == old(cur)
      ensures hwBufLen == old(hwBufLen) && hwBufFree == old(hwBufFree)
      ensures rcvd == old(rcvd) && last == old(last) && log == old(log) && out == old(out)
      ensures old(Valid()) && ClearOf(old(sch), base, sc) ==>
        Valid() && Abs() == SpiHost.Schedule(old(Abs()), old(mem[base..base + sc]), ss)
    {
      if ss > 3 { return false; }
      if sc == 0 { return false; }
      var r := Rec(false, false, base, sc, 0, 0, 0, ss, false, nextJob, mem[base..base + sc], 0, []);
      ghost var m, was := mem[..], sch;
      sch := sch + [r];
      nextJob := nextJob + 1;
      assert m[base..base + sc] == mem[base..base + sc];
      if Layout(m, was) && ClearOf(was, base, sc) {
        NewView(m, was, r);
      }
      return true;
    }

    // Moves transfer i off the scheduled list.
    method XfrComplete(i: nat, ghost status: Status)
      requires Valid() && i < |sch|
      modifies this
      ensures Valid() && Abs() == Complete(old(Abs()), i, status) && out == old(out)
    {
      ViewsWithout(mem[..], sch, i);
      log := log + [Done(View(mem[..], sch[i]), status)];
      if i < cur {
        cur := cur - 1;
      }
      sch := Without(sch, i);
    }

    method CompleteAllXfrs()
      requires Valid()
      modifies this
      ensures Valid() && Abs() == CompleteAll(old(Abs())) && out == old(out)
    {
      while |sch| > 0
        invariant Valid() && CompleteAll(Abs()) == CompleteAll(old(Abs())) && out == old(out)
        decreases |sch|
      {
        XfrComplete(0, Cancelled);
      }
    }

    method XfrCancel(job: nat)
      requires Valid()
      modifies this
      ensures Valid() && Abs() == Cancel(old(Abs()), job) && out == old(out)
    {
      var i := Find(job);
      if i < |sch| && !sch[i].active {
        XfrComplete(i, Cancelled);
      }
    }

    method Find(job: nat) returns (i: nat)
      requires Valid()
      ensures i == IndexOf(Views(mem[..], sch), job)
    {
      i := 0;
      ghost var all := Views(mem[..], sch);
      assert all[0..] == all;
      while i < |sch| && sch[i].job != job
        invariant i <= |sch|
        invariant IndexOf(all, job) == i + IndexOf(all[i..], job)
      {
        assert all[i..][1..] == all[i + 1..];
        i := i + 1;
      }
      assert i < |sch| ==> all[i..][0] == all[i];
    }

    method XfrDestroy(job: nat)
      requires Valid()
      modifies this
      ensures Valid() && Abs() == Destroy(old(Abs()), job) && out == old(out)
    {
      XfrCancel(job);
      var i := Find(job);
      if i < |sch| && !sch[i].detached {
        var r := sch[i].(detached := true, cut := sch[i].fi, was := mem[sch[i].base..sch[i].base + sch[i].sc]);
        ViewsUpdate(mem[..], sch, i, r);
        sch := sch[i := r];
      } else if i < |sch| {
        assert Views(mem[..], sch)[i := Views(mem[..], sch)[i]] == Views(mem[..], sch);
      }
    }

    // ------------------------------------------------------------ transmit pump

    method TxByte(b: byte)
      modifies this`out
      ensures out == old(out) + [b]
    {
      out := out + [b];
    }

    // Sends cnt bytes of the current transfer from where its fetch index stands.
    method TxData(cnt: nat)
      requires Valid() && cur < |sch| && 1 <= cnt && sch[cur].fi + cnt <= sch[cur].sc
      modifies this`out, this`sch
      ensures Valid()
      ensures sch == old(sch)[cur := old(sch)[cur].(fi := old(sch)[cur].fi + cnt)]
      ensures out == old(out) + DataBytes(View(old(mem[..]), old(sch)[cur]), cnt)
    {
      ghost var r0 := sch[cur];
      ghost var data := DataBytes(View(mem[..], r0), cnt);
      var r := sch[cur];
      var k := 0;
      while k < cnt
        invariant k <= cnt && r == r0.(fi := r0.fi + k)
        invariant out == old(out) + data[..k]
        invariant sch == old(sch)
      {
        var b := if !r.detached then mem[r.base + r.fi] else 0xFF;
        assert b == data[k];
        assert data[..k] + [b] == data[..k + 1];
        r := r.(fi := r.fi + 1);
        TxByte(b);
        k := k + 1;
      }
      assert data[..k] == data;
      ViewsUpdate(mem[..], sch, cur, r);
      sch := sch[cur := r];
    }

    // The header of a packet.
    method TxHeader(cnt: nat, ss: nat, last: bool)
      requires 1 <= cnt <= 32 && ss < 4
      modifies this`out
      ensures out == old(out) + Header(cnt, ss, last)
    {
      var u: byte := cnt - 1;
      u := u + ss * 32;
      if last { u := u + 128; }
      TxByte(CMD_SPI_XFR);
      TxByte(u);
      assert old(out) + [CMD_SPI_XFR] + [u] == old(out) + [CMD_SPI_XFR, u];
    }

    // How much goes into the next packet, and whether that is all there is.
    method NextPacket() returns (cnt: nat, last: bool)
      requires Valid() && PumpReady(Abs()) && cur < |sch| && hwBufFree >= 3
      ensures cnt == PacketSize(Abs(), Abs().sch[cur]) && (last <==> sch[cur].fi + cnt == sch[cur].sc)
    {
      assert Abs().sch[cur] == View(mem[..], sch[cur]);
      var hwLeft := hwBufFree - 2;
      if hwLeft > 32 { hwLeft := 32; }
      last := true;
      cnt := sch[cur].sc - sch[cur].fi;
      if cnt > 32 { cnt := 32; last := false; }
      if cnt > hwLeft { cnt := hwLeft; last := false; }
    }

    // The payload of a packet; the transfer is active from now on.
    method TxBody(cnt: nat)
      requires Valid() && cur < |sch| && 1 <= cnt && sch[cur].fi + cnt <= sch[cur].sc
      modifies this`out, this`sch, this`cur
      ensures Valid() && out == old(out) + DataBytes(View(old(mem[..]), old(sch)[old(cur)]), cnt)
      ensures var h := old(Abs()); var x := View(old(mem[..]), old(sch)[old(cur)]);
        Abs() == h.(sch := h.sch[h.cur := x.(active := true, fi := x.fi + cnt)],
                    cur := if x.fi + cnt == x.sc then h.cur + 1 else h.cur)
    {
      ghost var m, sch0 := mem[..], sch;
      TxData(cnt);
      var r := sch[cur].(active := true);
      sch := sch[cur := r];
      assert sch == sch0[cur := r];
      ViewsUpdate(m, sch0, cur, r);
      if sch[cur].fi == sch[cur].sc {
        cur := cur + 1;
      }
    }

    // One packet of the current transfer.
    method TxPacket() returns (ghost p: Packet)
      requires Valid() && PumpReady(Abs()) && cur < |sch| && !sch[cur].skipped && hwBufFree >= 3
      modifies this
      ensures Valid() && TxOne(old(Abs())) == Emit(Abs(), p)
      ensures 1 <= |p.data| <= 32 && p.ss < 4 && out == old(out) + Encode(p)
    {
      ghost var h := Abs();
      assert h.sch[cur] == View(mem[..], sch[cur]);
      var cnt, last := NextPacket();
      p := Packet(sch[cur].job, sch[cur].ss, last, DataBytes(h.sch[cur], cnt));
      PacketForm(h, p);
      hwBufFree := hwBufFree - (2 + cnt);
      TxHeader(cnt, sch[cur].ss, last);
      TxBody(cnt);
      Associative(old(out), Header(cnt, p.ss, last), p.data);
    }

    // One turn of the pump's loop.
    method TxNext() returns (more: bool, ghost p: Packet)
      requires Valid() && PumpReady(Abs()) && cur < |sch|
      modifies this
      ensures Valid() && Pumpable(old(Abs())) && (more <==> TxOne(old(Abs())).Emit?)
      ensures more ==> TxOne(old(Abs())) == Emit(Abs(), p)
      ensures more ==> 1 <= |p.data| <= 32 && p.ss < 4 && out == old(out) + Encode(p)
      ensures !more ==> Abs() == old(Abs()) && out == old(out)
    {
      assert Abs().sch[cur] == View(mem[..], sch[cur]);
      if sch[cur].skipped || hwBufFree < 3 { return false, Packet(0, 0, false, []); }
      p := TxPacket();
      return true, p;
    }

    // The pump: it sends all it has credit for, in the order TxOne would, and no more.
    method SpiTx()
      requires Valid() && PumpReady(Abs())
      modifies this
      ensures Valid() && Abs() == Pump(old(Abs())).0
      ensures out == old(out) + EncodeAll(Pump(old(Abs())).1)
    {
      ghost var h0, ps := Abs(), [];
      assert [] + Pump(h0).1 == Pump(h0).1;
      while cur < |sch|
        invariant Valid() && Onward(h0, ps, Abs())
        invariant out == old(out) + EncodeAll(ps)
        decreases hwBufFree
      {
        ghost var h, o := Abs(), out;
        ghost var p;
        var more;
        more, p := TxNext();
        if !more { break; }
        OnwardStep(h0, ps, h, p, Abs());
        Associative(old(out), EncodeAll(ps), Encode(p));
        ps := ps + [p];
      }
      OnwardDone(h0, ps, Abs());
    }

    // ------------------------------------------------------------ responses

    // The head of an answer; the caller detaches if it is not consistent.
    method RxCount(ss: nat, cnt: nat) returns (ok: bool)
      requires Valid()
      modifies this`hwBufFree
      ensures Valid() && (ok <==> Credit(old(Abs()), ss, cnt).Some?)
      ensures ok ==> Some(Abs()) == Credit(old(Abs()), ss, cnt)
    {
      if |sch| == 0 { return false; }
      assert Views(mem[..], sch)[0] == View(mem[..], sch[0]);
      if sch[0].ss != ss { return false; }
      hwBufFree := hwBufFree + (cnt + 2);
      if hwBufFree > hwBufLen { return false; }
      return true;
    }

    method OnSkippedRsp(ss: nat, cnt: nat) returns (ok: bool)
      requires Valid()
      modifies this
      ensures Valid() && (ok <==> OnSkipped(old(Abs()), ss, cnt).Some?) && out == old(out)
      ensures ok ==> Some(Abs()) == OnSkipped(old(Abs()), ss, cnt)
    {
      ok := RxCount(ss, cnt);
      if ok {
        ok := SpiRxSkip(cnt);
      }
    }

    method SpiRxSkip(cnt: nat) returns (ok: bool)
      requires Valid()
      modifies this
      ensures Valid() && (ok <==> RxSkip(old(Abs()), cnt).Some?) && out == old(out)
      ensures ok ==> Some(Abs()) == RxSkip(old(Abs()), cnt)
    {
      if |sch| == 0 { return false; }
      var r := sch[0];
      if !r.skipped {
        r := r.(skipped := true, xfrd := r.si);
      }
      r := r.(si := r.si + cnt);
      ViewsUpdate(mem[..], sch, 0, r);
      sch := sch[0 := r];
      if r.si == r.fi {
        XfrComplete(0, Skipped);
      } else {
        if r.si > r.fi { return false; }
      }
      return true;
    }

    // The two counts of an answer that is not skipped.
    method OnFullRsp(last: bool, ss: nat, cnt: nat) returns (ok: bool)
      requires Valid()
      modifies this
      ensures Valid() && (ok <==> OnFull(old(Abs()), last, ss, cnt).Some?) && out == old(out)
      ensures ok ==> Some(Abs()) == OnFull(old(Abs()), last, ss, cnt)
    {
      ok := RxCount(ss, cnt);
      this.last := last;
      rcvd := cnt;
    }

    // Stores a byte where it belongs in memory, and hands the transfer back after the
    // last byte of its last answer.
    method SpiRxByte(b: byte) returns (ok: bool)
      requires Valid() && StoreInside(Abs())
      modifies this, mem
      ensures Valid() && (ok <==> RxByte(old(Abs()), b).Some?) && out == old(out)
      ensures ok ==> Some(Abs()) == RxByte(old(Abs()), b)
      ensures forall a :: 0 <= a < mem.Length && !OwnPlace(old(sch), a) ==> mem[a] == old(mem[a])
    {
      if |sch| == 0 { return false; }
      assert Views(mem[..], sch)[0] == View(mem[..], sch[0]);
      if sch[0].skipped { return false; }
      ghost var h := Abs();
      StoreByte(b);
      ghost var x1 := Stored(h.sch[0], b);
      assert Views(mem[..], sch)[0] == x1;
      var lastByte := rcvd == 1 && last;
      rcvd := rcvd - 1;
      if lastByte {
        var r := sch[0].(xfrd := sch[0].si);
        ViewsUpdate(mem[..], sch, 0, r);
        sch := sch[0 := r];
        assert Views(mem[..], sch) == h.sch[0 := x1.(xfrd := x1.si)];
        XfrComplete(0, Success);
      } else {
        if sch[0].si == sch[0].sc { return false; }
      }
      return true;
    }

    method StoreByte(b: byte)
      requires Valid() && |sch| > 0 && (!sch[0].detached ==> sch[0].si < sch[0].sc)
      modifies this`sch, mem
      ensures Valid() && |sch| == |old(sch)|
      ensures Abs() == old(Abs()).(sch := old(Abs()).sch[0 := Stored(old(Abs()).sch[0], b)])
      ensures forall a :: 0 <= a < mem.Length && !OwnPlace(old(sch), a) ==> mem[a] == old(mem[a])
    {
      var r := sch[0];
      ghost var m := mem[..];
      if !r.detached {
        ViewsStore(m, sch, b, r.(si := r.si + 1), m[r.base + r.si := b]);
        mem[r.base + r.si] := b;
        assert mem[..] == m[r.base + r.si := b];
      } else {
        ViewsUpdate(m, sch, 0, r.(si := r.si + 1));
      }
      sch := sch[0 := r.(si := r.si + 1)];
    }
  }
}
