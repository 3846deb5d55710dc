/**
 What was sent and received of the touch transfers: every event keeps the user's bits on
 the wire and the received ones in the buffer, although both use the same buffer.
 */
module OwChronicle {
  import opened Basics
  import opened OwHost
  import opened OwWorld
  import opened OwSteps

  // How many bits were received before anything was skipped.
  function Received(x: Xfr): nat {
    if x.skipped then x.xfrd else x.si
  }

  predicate WholeBytes(bits: nat, sc: nat) {
    bits % 8 == 0 || bits == sc
  }

  // The bytes with the bits sent went out as the user gave them (0xFF once the buffer was
  // gone); those with the bits received replaced the front of the buffer and nothing else.
  predicate Told(x: Xfr, sent: seq<byte>, got: seq<byte>) {
    x.kind == Touch ==>
      && Received(x) <= x.fi <= x.sc && |x.orig| == BytesFor(x.sc) && |got| == BytesFor(Received(x))
      && WholeBytes(x.fi, x.sc) && WholeBytes(Received(x), x.sc)
      && (!x.detached ==> sent == x.orig[..BytesFor(x.fi)] && x.buf == got + x.orig[|got|..])
      && (x.detached ==>
            && x.cut <= x.fi && WholeBytes(x.cut, x.sc)
            && sent == x.orig[..BytesFor(x.cut)] + seq(BytesFor(x.fi) - BytesFor(x.cut), _ => 0xFF))
  }

  predicate Outcome(d: Done) {
    d.x.kind == Touch ==>
      && (d.status == Success ==> !d.x.skipped && d.x.xfrd == d.x.si == d.x.fi == d.x.sc)
      && (d.status == Skipped ==> d.x.skipped && d.x.packets == 0 && d.x.done == d.x.fi && d.x.xfrd < d.x.fi)
  }

  function GotBy(delivered: map<nat, seq<byte>>, job: nat): seq<byte> {
    if job in delivered then delivered[job] else []
  }

  ghost predicate Listed(h: Host, trace: seq<Packet>, delivered: map<nat, seq<byte>>) {
    forall i :: 0 <= i < |h.sch| ==> Told(h.sch[i], Sent(trace, h.sch[i].job), GotBy(delivered, h.sch[i].job))
  }

  ghost predicate Logged(h: Host, trace: seq<Packet>, delivered: map<nat, seq<byte>>) {
    forall k :: 0 <= k < |h.log| ==>
      var d := h.log[k];
      Outcome(d) && Told(d.x, Sent(trace, d.x.job), GotBy(delivered, d.x.job))
  }

  // Transfers that are done are not listed any more, and no later one has their job number.
  ghost predicate Apart(h: Host) {
    forall k :: 0 <= k < |h.log| ==>
      h.log[k].x.job < h.nextJob && forall i :: 0 <= i < |h.sch| ==> h.sch[i].job != h.log[k].x.job
  }

  ghost predicate NotAhead(h: Host, trace: seq<Packet>, delivered: map<nat, seq<byte>>) {
    && (forall k :: 0 <= k < |trace| ==> trace[k].job < h.nextJob)
    && (forall job :: job in delivered ==> job < h.nextJob)
  }

  ghost predicate ChronicleOf(h: Host, trace: seq<Packet>, delivered: map<nat, seq<byte>>) {
    Listed(h, trace, delivered) && Logged(h, trace, delivered) && Apart(h) && NotAhead(h, trace, delivered)
  }

  ghost predicate Chronicle(w: World) {
    ChronicleOf(w.h, w.trace, w.delivered)
  }

  // ---------------------------------------------------------------- user calls

  lemma {:induction false} NothingSent(trace: seq<Packet>, job: nat)
    requires forall k :: 0 <= k < |trace| ==> trace[k].job < job
    ensures Sent(trace, job) == []
  {
    if trace != [] {
      assert trace[0].job < job;
      forall k | 0 <= k < |trace[1..]| ensures trace[1..][k].job < job { assert trace[k + 1].job < job; }
      NothingSent(trace[1..], job);
    }
  }

  lemma NewIsTold(h: Host, r: Request)
    requires MaySchedule(h, r)
    ensures Told(NewXfr(h, r), [], [])
  {
    if r.TouchRequest? {
      assert [] + r.buf[0..] == r.buf;
    }
  }

  lemma ScheduleTells(h: Host, trace: seq<Packet>, delivered: map<nat, seq<byte>>, r: Request)
    requires ChronicleOf(h, trace, delivered) && HostOK(h)
    ensures ChronicleOf(Schedule(h, r), trace, delivered)
  {
    if MaySchedule(h, r) {
      var h1 := Schedule(h, r);
      NothingSent(trace, h.nextJob);
      NewIsTold(h, r);
      forall i | 0 <= i < |h1.sch|
        ensures Told(h1.sch[i], Sent(trace, h1.sch[i].job), GotBy(delivered, h1.sch[i].job))
      {
        if i < |h.sch| { assert h1.sch[i] == h.sch[i]; }
      }
    }
  }

  // A transfer that changes in the moment it completes.
  lemma CompleteSplits(h: Host, x1: Xfr, trace: seq<Packet>, delivered: map<nat, seq<byte>>, k: nat, status: Status)
    requires ChronicleOf(h, trace, delivered) && HostOK(h) && k < |h.sch| && x1.job == h.sch[k].job
    requires Outcome(Done(x1, status)) && Told(x1, Sent(trace, x1.job), GotBy(delivered, x1.job))
    ensures ChronicleOf(Complete(h.(sch := h.sch[k := x1]), k, status), trace, delivered)
  {
    var h1 := Complete(h.(sch := h.sch[k := x1]), k, status);
    forall i | 0 <= i < |h1.sch|
      ensures h1.sch[i] == h.sch[Old(i, k)] && h1.sch[i].job != x1.job
    {
      JobsDiffer(h, Old(i, k), k);
    }
    RestListed(h, h1, trace, delivered, k);
    RestLogged(h, h1, trace, delivered, Done(x1, status));
  }

  lemma RestListed(h: Host, h1: Host, trace: seq<Packet>, delivered: map<nat, seq<byte>>, k: nat)
    requires Listed(h, trace, delivered) && k < |h.sch| == |h1.sch| + 1
    requires forall i :: 0 <= i < |h1.sch| ==> h1.sch[i] == h.sch[Old(i, k)]
    ensures Listed(h1, trace, delivered)
  {
  }

  lemma RestLogged(h: Host, h1: Host, trace: seq<Packet>, delivered: map<nat, seq<byte>>, d: Done)
    requires Logged(h, trace, delivered) && Apart(h) && h1.log == h.log + [d] && h1.nextJob == h.nextJob
    requires d.x.job < h.nextJob && forall i :: 0 <= i < |h1.sch| ==> h1.sch[i] in h.sch && h1.sch[i].job != d.x.job
    requires Outcome(d) && Told(d.x, Sent(trace, d.x.job), GotBy(delivered, d.x.job))
    ensures Logged(h1, trace, delivered) && Apart(h1)
  {
    forall j | 0 <= j < |h1.log|
      ensures h1.log[j].x.job < h1.nextJob
      ensures Outcome(h1.log[j]) && Told(h1.log[j].x, Sent(trace, h1.log[j].x.job), GotBy(delivered, h1.log[j].x.job))
      ensures forall i :: 0 <= i < |h1.sch| ==> h1.sch[i].job != h1.log[j].x.job
    {
      if j < |h.log| { assert h1.log[j] == h.log[j]; }
    }
  }

  lemma CompleteTells(h: Host, trace: seq<Packet>, delivered: map<nat, seq<byte>>, k: nat, status: Status)
    requires ChronicleOf(h, trace, delivered) && HostOK(h) && k < |h.sch| && Outcome(Done(h.sch[k], status))
    ensures ChronicleOf(Complete(h, k, status), trace, delivered)
  {
    CompleteSplits(h, h.sch[k], trace, delivered, k, status);
    assert h.sch[k := h.sch[k]] == h.sch;
  }

  lemma CancelTells(h: Host, trace: seq<Packet>, delivered: map<nat, seq<byte>>, job: nat)
    requires ChronicleOf(h, trace, delivered) && HostOK(h)
    ensures ChronicleOf(Cancel(h, job), trace, delivered)
  {
    var i := IndexOf(h.sch, job);
    if i < |h.sch| && !h.sch[i].active {
      CompleteTells(h, trace, delivered, i, Cancelled);
    }
  }

  lemma ReplaceTells(h: Host, trace: seq<Packet>, delivered: map<nat, seq<byte>>, k: nat, x1: Xfr)
    requires ChronicleOf(h, trace, delivered) && k < |h.sch| && x1.job == h.sch[k].job
    requires Told(x1, Sent(trace, x1.job), GotBy(delivered, x1.job))
    ensures ChronicleOf(h.(sch := h.sch[k := x1]), trace, delivered)
  {
    var h1 := h.(sch := h.sch[k := x1]);
    forall i | 0 <= i < |h1.sch| ensures h1.sch[i].job == h.sch[i].job {}
    forall i | 0 <= i < |h1.sch|
      ensures Told(h1.sch[i], Sent(trace, h1.sch[i].job), GotBy(delivered, h1.sch[i].job))
    {
      assert Told(h.sch[i], Sent(trace, h.sch[i].job), GotBy(delivered, h.sch[i].job));
    }
  }

  lemma DetachTold(x: Xfr, sent: seq<byte>, got: seq<byte>)
    requires Told(x, sent, got)
    ensures Told(Detach(x), sent, got)
  {
    if x.kind == Touch && !x.detached {
      assert sent == sent + seq(0, _ => 0xFF);
    }
  }

  lemma DestroyTells(h: Host, trace: seq<Packet>, delivered: map<nat, seq<byte>>, job: nat)
    requires ChronicleOf(h, trace, delivered) && HostOK(h)
    ensures ChronicleOf(Destroy(h, job), trace, delivered)
  {
    CancelTells(h, trace, delivered, job);
    var h1 := Cancel(h, job);
    var k := IndexOf(h1.sch, job);
    if k < |h1.sch| {
      var x := h1.sch[k];
      DetachTold(x, Sent(trace, x.job), GotBy(delivered, x.job));
      ReplaceTells(h1, trace, delivered, k, Detach(x));
    }
  }

  // ---------------------------------------------------------------- the wire

  lemma BytesJoin(a: nat, n: nat)
    requires a % 8 == 0
    ensures BytesFor(a) == a / 8 && BytesFor(a + n) == a / 8 + BytesFor(n)
  {
  }

  // The bytes fetched are the user's, untouched by what was received meanwhile.
  lemma FetchedAreOriginal(x: Xfr, sent: seq<byte>, got: seq<byte>, n: nat)
    requires Told(x, sent, got) && x.kind == Touch && x.fi < x.sc && x.fi + n <= x.sc && n > 0
    requires WholeBytes(x.fi + n, x.sc)
    requires !x.detached ==> |x.buf| == BytesFor(x.sc)
    ensures Told(x.(active := true, fi := x.fi + n, packets := x.packets + 1), sent + DataBytes(x, n), got)
  {
    var k, m := x.fi / 8, BytesFor(n);
    BytesJoin(x.fi, n);
    if x.detached {
      MoreFill(x.orig[..BytesFor(x.cut)], k - BytesFor(x.cut), m);
    } else {
      FetchBehind(x.buf, x.orig, got, k, m);
    }
  }

  lemma MoreFill(front: seq<byte>, a: nat, m: nat)
    ensures (front + seq(a, _ => 0xFF)) + seq(m, _ => 0xFF) == front + seq(a + m, _ => 0xFF)
  {
    assert seq(a, _ => 0xFF) + seq(m, _ => 0xFF) == seq(a + m, _ => 0xFF);
    Associative(front, seq(a, _ => 0xFF), seq(m, _ => 0xFF));
  }

  lemma FetchBehind(buf: seq<byte>, orig: seq<byte>, got: seq<byte>, k: nat, m: nat)
    requires |got| <= k && k + m <= |orig| && buf == got + orig[|got|..]
    ensures orig[..k] + buf[k..k + m] == orig[..k + m]
  {
    forall j | k <= j < k + m ensures buf[j] == orig[j] {}
    assert buf[k..k + m] == orig[k..k + m];
  }

  lemma ReadyBuffer(x: Xfr)
    requires XferOK(x)
    ensures x.kind == Touch && !x.detached ==> |x.buf| == BytesFor(x.sc)
  {
  }

  lemma TouchPacket(h: Host, x: Xfr)
    requires x.kind == Touch && x.fi < x.sc && h.free >= 4 && (!x.detached ==> |x.buf| == BytesFor(x.sc))
    ensures var n := BitCount(h, x);
      && NextPacket(h, x).0.data == DataBytes(x, n)
      && NextPacket(h, x).1 == x.(active := true, fi := x.fi + n, packets := x.packets + 1)
  {
  }

  lemma SingleTold(x: Xfr, x1: Xfr, sent: seq<byte>, got: seq<byte>)
    requires x.kind != Touch && x1.kind == x.kind
    ensures Told(x1, sent, got)
  {
  }

  lemma NextTells(h: Host, x: Xfr, sent: seq<byte>, got: seq<byte>)
    requires Told(x, sent, got) && XferOK(x) && x.fi < x.sc && h.free >= Room(x.kind)
    ensures x.kind == Touch && !x.detached ==> |x.buf| == BytesFor(x.sc)
    ensures Told(NextPacket(h, x).1, sent + NextPacket(h, x).0.data, got)
  {
    ReadyBuffer(x);
    if x.kind == Touch {
      TouchPacket(h, x);
      FetchedAreOriginal(x, sent, got, BitCount(h, x));
    } else {
      SingleTold(x, NextPacket(h, x).1, sent + NextPacket(h, x).0.data, got);
    }
  }

  lemma TransmitTells(h: Host, trace: seq<Packet>, delivered: map<nat, seq<byte>>)
    requires ChronicleOf(h, trace, delivered) && HostOK(h) && Pumpable(h) && TxOne(h).Emit?
    ensures ChronicleOf(TxOne(h).h, trace + [TxOne(h).p], delivered)
  {
    TransmitForm(h);
    var h1, p, x := TxOne(h).h, TxOne(h).p, h.sch[h.cur];
    assert XferOK(x);
    NextTells(h, x, Sent(trace, x.job), GotBy(delivered, x.job));
    NextFits(h, x);
    SentTells(h, h1, trace, delivered, p, h1.sch[h.cur]);
  }

  lemma SentTells(h: Host, h1: Host, trace: seq<Packet>, delivered: map<nat, seq<byte>>, p: Packet, x1: Xfr)
    requires ChronicleOf(h, trace, delivered) && HostOK(h) && h.cur < |h.sch|
    requires h1.sch == h.sch[h.cur := x1] && h1.log == h.log && h1.nextJob == h.nextJob
    requires p.job == h.sch[h.cur].job == x1.job
    requires Told(x1, Sent(trace, x1.job) + p.data, GotBy(delivered, x1.job))
    ensures ChronicleOf(h1, trace + [p], delivered)
  {
    forall i | 0 <= i < |h1.sch|
      ensures h1.sch[i].job == h.sch[i].job
      ensures Told(h1.sch[i], Sent(trace + [p], h1.sch[i].job), GotBy(delivered, h1.sch[i].job))
    {
      SentAppend(trace, p, h.sch[i].job);
      if i != h.cur { JobsDiffer(h, i, h.cur); }
    }
    forall k | 0 <= k < |h1.log|
      ensures Outcome(h1.log[k])
      ensures Told(h1.log[k].x, Sent(trace + [p], h1.log[k].x.job), GotBy(delivered, h1.log[k].x.job))
    {
      assert h.sch[h.cur].job != h.log[k].x.job;
      SentAppend(trace, p, h.log[k].x.job);
    }
  }

  // Fields that tell nothing.
  lemma PlainTells(h: Host, trace: seq<Packet>, delivered: map<nat, seq<byte>>, free: nat, busy: Busy)
    requires ChronicleOf(h, trace, delivered)
    ensures ChronicleOf(h.(free := free, busy := busy), trace, delivered)
  {
  }

  lemma SingleTells(w: World, skipped: bool, found: bool)
    requires Inv(w) && Chronicle(w) && AnswerPossible(w) && w.q[0].kind != Touch
    ensures Chronicle(OnAnswerSingle(w, skipped, found))
  {
    OldestIsHeadsPacket(w);
    SingleForm(w, skipped, found);
    var h1 := w.h.(free := w.h.free + Cost(w.q[0]));
    PlainTells(w.h, w.trace, w.delivered, h1.free, w.h.busy);
    CreditKeepsHost(w.h, h1.free);
    if w.q[0].kind == Enum && found {
      PlainTells(h1, w.trace, w.delivered, h1.free, Rom(skipped));
    } else {
      CompleteTells(h1, w.trace, w.delivered, 0, StatusOf(skipped));
    }
  }

  lemma RomTells(w: World)
    requires Inv(w) && Chronicle(w) && w.up && w.h.busy.Rom?
    ensures Chronicle(Settle(w, RxRom(w.h)))
  {
    PlainTells(w.h, w.trace, w.delivered, w.h.free, Idle);
    BusyKeepsHost(w.h, Idle);
    CompleteTells(w.h.(busy := Idle), w.trace, w.delivered, 0, StatusOf(w.h.busy.skippedRom));
  }

  lemma MissedTold(x: Xfr, bits: nat, sent: seq<byte>, got: seq<byte>)
    requires Told(x, sent, got) && x.kind == Touch
    requires x.skipped ==> x.si == x.xfrd
    ensures Told(Missed(x, bits), sent, got)
  {
  }

  // What a skipped answer amounts to.
  lemma SkipShape(w: World)
    requires Inv(w) && TouchPossible(w)
    ensures var p := w.q[0]; var h1 := w.h.(free := w.h.free + Cost(p));
      && w.h.sch != [] && HostOK(h1) && XferOK(w.h.sch[0]) && w.h.sch[0].kind == Touch
      && HeadsPacket(w.h.sch[0], p) && StoreOK(w.h.sch[0], Idle)
      && OnTouchSkipped(w.h, p.spu, p.bits) == RxTouchSkip(h1, p.bits)
      && (Missed(w.h.sch[0], p.bits).packets == 0 ==> w.h.sch[0].done + p.bits == w.h.sch[0].fi)
  {
    OldestIsHeadsPacket(w);
    TouchCredit(w);
    BehindAfter(w, w.gone);
    CreditKeepsHost(w.h, w.h.free + Cost(w.q[0]));
    assert XferOK(w.h.sch[0]);
    HeadsCount(w.(q := w.q[1..]), w.h.sch[0].done + w.q[0].bits);
  }

  lemma SkipTells(w: World)
    requires Inv(w) && Chronicle(w) && TouchPossible(w)
    ensures Chronicle(OnAnswerSkipped(w))
  {
    SkipShape(w);
    var p := w.q[0];
    var h1 := w.h.(free := w.h.free + Cost(p));
    PlainTells(w.h, w.trace, w.delivered, h1.free, w.h.busy);
    SkipTellsBy(h1, w.trace, w.delivered, p.bits);
    SkipSettles(w, RxTouchSkip(h1, p.bits));
  }

  lemma SkipSettles(w: World, o: Option<Host>)
    requires w.q != [] && w.q[0].bits > 0 && OnTouchSkipped(w.h, w.q[0].spu, w.q[0].bits) == o
    requires o.Some? && ChronicleOf(o.value, w.trace, w.delivered)
    ensures Chronicle(OnAnswerSkipped(w))
  {
  }

  lemma SkipTellsBy(h: Host, trace: seq<Packet>, delivered: map<nat, seq<byte>>, bits: nat)
    requires ChronicleOf(h, trace, delivered) && HostOK(h) && h.sch != [] && h.sch[0].kind == Touch && bits > 0
    requires XferOK(h.sch[0]) && StoreOK(h.sch[0], Idle) && h.sch[0].done + bits <= h.sch[0].fi
    requires Missed(h.sch[0], bits).packets == 0 ==> h.sch[0].done + bits == h.sch[0].fi
    ensures RxTouchSkip(h, bits).Some? && ChronicleOf(RxTouchSkip(h, bits).value, trace, delivered)
  {
    var x := h.sch[0];
    var x1 := Missed(x, bits);
    MissedTold(x, bits, Sent(trace, x.job), GotBy(delivered, x.job));
    if x1.packets == 0 {
      CompleteSplits(h, x1, trace, delivered, 0, Skipped);
    } else {
      ReplaceTells(h, trace, delivered, 0, x1);
    }
  }

  lemma FullTells(w: World)
    requires Inv(w) && Chronicle(w) && TouchPossible(w)
    ensures Chronicle(OnAnswerFull(w))
  {
    TouchCredit(w);
    FullForm(w);
    var p := w.q[0];
    PlainTells(w.h, w.trace, w.delivered, w.h.free + Cost(p), Bytes(BytesFor(p.bits), p.bits));
  }

  // One byte further.
  lemma NextByte(si: nat, fi: nat, sc: nat)
    requires si % 8 == 0 && si < fi <= sc && WholeBytes(fi, sc)
    ensures var si1 := si + Min(sc - si, 8);
      && si1 <= fi && BytesFor(si) == si / 8 && BytesFor(si1) == si / 8 + 1 && WholeBytes(si1, sc)
      && si / 8 < BytesFor(sc)
  {
  }

  lemma StoredIsReceived(x: Xfr, sent: seq<byte>, got: seq<byte>, b: byte)
    requires Told(x, sent, got) && x.kind == Touch && !x.skipped && x.si % 8 == 0 && x.si < x.fi
    requires !x.detached ==> x.si / 8 < |x.buf|
    ensures Told(Stored(x, b), sent, got + [b])
  {
    NextByte(x.si, x.fi, x.sc);
    if !x.detached {
      StoreBehind(x.buf, x.orig, got, b);
    }
  }

  lemma StoreBehind(buf: seq<byte>, orig: seq<byte>, got: seq<byte>, b: byte)
    requires |got| < |orig| && buf == got + orig[|got|..]
    ensures buf[|got| := b] == (got + [b]) + orig[|got| + 1..]
  {
    assert orig[|got|..] == [orig[|got|]] + orig[|got| + 1..];
  }

  // A byte delivered to the head concerns the head alone.
  lemma DeliveredTells(h: Host, trace: seq<Packet>, delivered: map<nat, seq<byte>>, b: byte, x1: Xfr)
    requires ChronicleOf(h, trace, delivered) && HostOK(h) && h.sch != [] && h.sch[0].kind == Touch
    requires !h.sch[0].skipped && h.sch[0].si % 8 == 0 && h.sch[0].si < h.sch[0].fi
    requires !h.sch[0].detached ==> h.sch[0].si / 8 < |h.sch[0].buf|
    requires h.sch[0].si <= h.sch[0].sc && x1 == Stored(h.sch[0], b)
    ensures var job := h.sch[0].job;
      var d1 := delivered[job := GotBy(delivered, job) + [b]];
      ChronicleOf(h.(sch := h.sch[0 := x1]), trace, d1)
  {
    var job := h.sch[0].job;
    var d1 := delivered[job := GotBy(delivered, job) + [b]];
    var h1 := h.(sch := h.sch[0 := x1]);
    StoredIsReceived(h.sch[0], Sent(trace, job), GotBy(delivered, job), b);
    forall i | 0 <= i < |h1.sch|
      ensures h1.sch[i].job == h.sch[i].job
      ensures Told(h1.sch[i], Sent(trace, h1.sch[i].job), GotBy(d1, h1.sch[i].job))
    {
      if i > 0 { JobsDiffer(h, i, 0); }
    }
    forall k | 0 <= k < |h1.log| ensures GotBy(d1, h1.log[k].x.job) == GotBy(delivered, h1.log[k].x.job) {
      assert h.sch[0].job != h.log[k].x.job;
    }
  }

  lemma DeliverTells(w: World, b: byte)
    requires Inv(w) && Chronicle(w) && w.up && w.h.busy.Bytes?
    ensures StoreInside(w.h) && Chronicle(OnDeliver(w, b))
  {
    InHandOK(w);
    var x, busy := w.h.sch[0], w.h.busy;
    StoreFits(x, busy);
    StoredOK(x, b, busy);
    var x1 := Stored(x, b);
    var d1 := w.delivered[x.job := GotBy(w.delivered, x.job) + [b]];
    DeliveredTells(w.h, w.trace, w.delivered, b, x1);
    ByteForm(w.h, b, x1);
    ByteTells(w.h, w.trace, d1, b, x1);
    DeliverChronicle(w, b, d1);
  }

  lemma DeliverChronicle(w: World, b: byte, d1: map<nat, seq<byte>>)
    requires Inv(w) && w.up && w.h.busy.Bytes? && StoreInside(w.h) && RxByte(w.h, b).Some? && w.h.sch != []
    requires d1 == w.delivered[w.h.sch[0].job := GotBy(w.delivered, w.h.sch[0].job) + [b]]
    requires ChronicleOf(RxByte(w.h, b).value, w.trace, d1)
    ensures Chronicle(OnDeliver(w, b))
  {
    assert OnDeliver(w, b).delivered == d1;
  }

  lemma ByteTells(h: Host, trace: seq<Packet>, d1: map<nat, seq<byte>>, b: byte, x1: Xfr)
    requires HostOK(h) && StoreInside(h) && h.sch != []
    requires ChronicleOf(h.(sch := h.sch[0 := x1]), trace, d1)
    requires x1 == Stored(h.sch[0], b) && !x1.skipped && x1.kind == Touch && XferOK(x1)
    requires h.busy.left == 1 ==> x1.si == x1.done + h.busy.bits
    ensures RxByte(h, b).Some? && ChronicleOf(RxByte(h, b).value, trace, d1)
  {
    ByteForm(h, b, x1);
    if h.busy.left > 1 {
      PlainTells(h.(sch := h.sch[0 := x1]), trace, d1, h.free, h.busy.(left := h.busy.left - 1));
    } else {
      EndTells(h, trace, d1, x1, Ended(x1, h.busy.bits));
    }
  }

  // The last byte of a packet.
  lemma EndTells(h: Host, trace: seq<Packet>, d1: map<nat, seq<byte>>, x1: Xfr, x2: Xfr)
    requires HostOK(h) && StoreInside(h) && h.sch != [] && ChronicleOf(h.(sch := h.sch[0 := x1]), trace, d1)
    requires x1.job == h.sch[0].job && !x1.skipped && x1.kind == Touch && XferOK(x1)
    requires x2 == Ended(x1, h.busy.bits) && x1.si == x1.done + h.busy.bits
    ensures x2.si == x2.sc ==>
      ChronicleOf(Complete(h.(sch := h.sch[0 := x2.(xfrd := x2.si)], busy := Idle), 0, Success), trace, d1)
    ensures x2.si != x2.sc ==> ChronicleOf(h.(sch := h.sch[0 := x2], busy := Idle), trace, d1)
  {
    var ha := h.(sch := h.sch[0 := x1]);
    PlainTells(ha, trace, d1, h.free, Idle);
    assert Told(ha.sch[0], Sent(trace, x1.job), GotBy(d1, x1.job));
    if x2.si == x2.sc {
      FinishTells(h.(busy := Idle), x1, x2.(xfrd := x2.si), trace, d1);
    } else {
      ReplaceTells(ha.(busy := Idle), trace, d1, 0, x2);
      assert ha.sch[0 := x2] == h.sch[0 := x2];
    }
  }

  // The last byte of the last answer hands the transfer back.
  lemma FinishTells(h: Host, x1: Xfr, x2: Xfr, trace: seq<Packet>, delivered: map<nat, seq<byte>>)
    requires HostOK(h) && h.sch != [] && x1.job == h.sch[0].job == x2.job
    requires ChronicleOf(h.(sch := h.sch[0 := x1]), trace, delivered)
    requires Outcome(Done(x2, Success)) && Told(x2, Sent(trace, x2.job), GotBy(delivered, x2.job))
    ensures ChronicleOf(Complete(h.(sch := h.sch[0 := x2]), 0, Success), trace, delivered)
  {
    var ha := h.(sch := h.sch[0 := x1]);
    var h1 := Complete(h.(sch := h.sch[0 := x2]), 0, Success);
    forall i | 0 <= i < |h1.sch|
      ensures h1.sch[i] == ha.sch[i + 1] && h1.sch[i].job != x1.job
    {
      JobsDiffer(h, i + 1, 0);
    }
    forall j | 0 <= j < |h1.log|
      ensures h1.log[j].x.job < h1.nextJob && forall i :: 0 <= i < |h1.sch| ==> h1.sch[i].job != h1.log[j].x.job
    {
      if j < |h.log| { assert h1.log[j] == ha.log[j]; }
    }
  }

  // ---------------------------------------------------------------- every event

  lemma UserKeepsChronicle(w: World, ev: Event)
    requires Inv(w) && Chronicle(w) && (ev.UserSchedule? || ev.UserCancel? || ev.UserDestroy?)
    requires (w.up ==> Pumpable(w.h)) && (w.up && w.h.busy.Bytes? ==> StoreInside(w.h))
    ensures Chronicle(Step(w, ev))
  {
    match ev
    case UserSchedule(r) => ScheduleTells(w.h, w.trace, w.delivered, r);
    case UserCancel(job) => CancelTells(w.h, w.trace, w.delivered, job);
    case UserDestroy(job) => DestroyTells(w.h, w.trace, w.delivered, job);
  }

  lemma AnswerKeepsChronicle(w: World, ev: Event)
    requires Inv(w) && Chronicle(w) && (ev.AnswerSingle? || ev.AnswerSkipped? || ev.AnswerFull?)
    requires (w.up ==> Pumpable(w.h)) && (w.up && w.h.busy.Bytes? ==> StoreInside(w.h))
    ensures Chronicle(Step(w, ev))
  {
    match ev
    case AnswerSingle(s, f) => if AnswerPossible(w) && w.q[0].kind != Touch { SingleTells(w, s, f); }
    case AnswerSkipped => if TouchPossible(w) { SkipTells(w); }
    case AnswerFull => if TouchPossible(w) && w.gone != Some(w.q[0].job) { FullTells(w); }
  }

  lemma InfoTells(w: World, len: nat, probes: bool)
    requires Chronicle(w)
    ensures Chronicle(w.(h := w.h.(len := len, free := len, probes := probes)))
  {
  }

  lemma OtherKeepsChronicle(w: World, ev: Event)
    requires Inv(w) && Chronicle(w) && (ev.Transmit? || ev.Deliver? || ev.RomArrives? || ev.InfoBlock? || ev.LinkLost?)
    requires (w.up ==> Pumpable(w.h)) && (w.up && w.h.busy.Bytes? ==> StoreInside(w.h))
    ensures Chronicle(Step(w, ev))
  {
    match ev
    case Transmit => if w.up && TxOne(w.h).Emit? { TransmitTells(w.h, w.trace, w.delivered); }
    case RomArrives => if w.up && w.h.busy.Rom? { RomTells(w); }
    case Deliver(b) => if w.up && w.h.busy.Bytes? { DeliverTells(w, b); }
    case InfoBlock(len, probes) => InfoTells(w, len, probes);
    case LinkLost =>
  }

  lemma StepKeepsChronicle(w: World, ev: Event)
    requires Inv(w) && Chronicle(w)
    ensures w.up ==> Pumpable(w.h)
    ensures w.up && w.h.busy.Bytes? ==> StoreInside(w.h)
    ensures Chronicle(Step(w, ev))
  {
    InvEnables(w);
    if ev.UserSchedule? || ev.UserCancel? || ev.UserDestroy? {
      UserKeepsChronicle(w, ev);
    } else if ev.AnswerSingle? || ev.AnswerSkipped? || ev.AnswerFull? {
      AnswerKeepsChronicle(w, ev);
    } else {
      OtherKeepsChronicle(w, ev);
    }
  }
}
