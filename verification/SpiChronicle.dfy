/**
 What was sent and received, transfer by transfer: every event keeps the user's bytes
 on the wire and the received bytes in the buffer, although both use the same buffer.
 */
module SpiChronicle {
  import opened Basics
  import opened SpiHost
  import opened SpiWorld
  import opened SpiInvariant
  import opened SpiSteps
  import opened Fifo

  // How many bytes were received before anything was skipped.
  function Received(x: Xfr): nat {
    if x.skipped then x.xfrd else x.si
  }

  // On the wire went the user's bytes in order (0xFF once the buffer was gone); what came
  // back replaced the front of the buffer and nothing else.
  predicate Told(x: Xfr, sent: seq<byte>, got: seq<byte>) {
    && Received(x) <= x.fi <= x.sc == |x.orig| && |got| == Received(x)
    && (!x.detached ==> sent == x.orig[..x.fi] && x.buf == got + x.orig[|got|..])
    && (x.detached ==> x.cut <= x.fi && sent == x.orig[..x.cut] + seq(x.fi - x.cut, _ => 0xFF))
  }

  predicate Outcome(d: Done) {
    && (d.status == Success ==> !d.x.skipped && d.x.xfrd == d.x.si == d.x.fi == d.x.sc)
    && (d.status == Skipped ==> d.x.skipped && d.x.si == d.x.fi && d.x.xfrd < d.x.fi)
  }

  function GotBy(delivered: map<nat, seq<byte>>, job: nat): seq<byte> {
    if job in delivered then delivered[job] else []
  }

  ghost predicate Listed(h: Host, trace: seq<Packet>, delivered: map<nat, seq<byte>>) {
    forall i :: 0 <= i < |h.sch| ==> Told(h.sch[i], Sent(trace, h.sch[i].job), GotBy(delivered, h.sch[i].job))
  }

  ghost predicate Logged(h: Host, trace: seq<Packet>, delivered: map<nat, seq<byte>>) {
    forall k :: 0 <= k < |h.log| ==>
      var d := h.log[k];
      Outcome(d) && Told(d.x, Sent(trace, d.x.job), GotBy(delivered, d.x.job))
  }

  // Transfers that are done are not listed any more, and no later one has their job number.
  ghost predicate Apart(h: Host) {
    forall k :: 0 <= k < |h.log| ==>
      h.log[k].x.job < h.nextJob && forall i :: 0 <= i < |h.sch| ==> h.sch[i].job != h.log[k].x.job
  }

  ghost predicate NotAhead(h: Host, trace: seq<Packet>, delivered: map<nat, seq<byte>>) {
    && (forall k :: 0 <= k < |trace| ==> trace[k].job < h.nextJob)
    && (forall job :: job in delivered ==> job < h.nextJob)
  }

  ghost predicate ChronicleOf(h: Host, trace: seq<Packet>, delivered: map<nat, seq<byte>>) {
    Listed(h, trace, delivered) && Logged(h, trace, delivered) && Apart(h) && NotAhead(h, trace, delivered)
  }

  ghost predicate Chronicle(w: World) {
    ChronicleOf(w.h, w.trace, w.delivered)
  }

  // ---------------------------------------------------------------- user calls

  lemma {:induction false} NothingSent(trace: seq<Packet>, job: nat)
    requires forall k :: 0 <= k < |trace| ==> trace[k].job < job
    ensures Sent(trace, job) == []
  {
    if trace != [] {
      assert trace[0].job < job;
      forall k | 0 <= k < |trace[1..]| ensures trace[1..][k].job < job { assert trace[k + 1].job < job; }
      NothingSent(trace[1..], job);
    }
  }

  lemma ScheduleTells(h: Host, trace: seq<Packet>, delivered: map<nat, seq<byte>>, buf: seq<byte>, ss: nat)
    requires ChronicleOf(h, trace, delivered) && HostOK(h)
    ensures ChronicleOf(Schedule(h, buf, ss), trace, delivered)
  {
    if ss <= 3 && |buf| > 0 {
      var h1, x := Schedule(h, buf, ss), NewXfr(h, buf, ss);
      NothingSent(trace, h.nextJob);
      assert [] + buf[0..] == buf;
      forall i | 0 <= i < |h1.sch|
        ensures Told(h1.sch[i], Sent(trace, h1.sch[i].job), GotBy(delivered, h1.sch[i].job))
      {
        if i < |h.sch| { assert h1.sch[i] == h.sch[i]; }
      }
    }
  }

  lemma CompleteTells(h: Host, trace: seq<Packet>, delivered: map<nat, seq<byte>>, k: nat, status: Status)
    requires ChronicleOf(h, trace, delivered) && HostOK(h) && k < |h.sch| && Outcome(Done(h.sch[k], status))
    ensures ChronicleOf(Complete(h, k, status), trace, delivered)
  {
    CompleteSplits(h, h.sch[k], trace, delivered, k, status);
    assert h.sch[k := h.sch[k]] == h.sch;
  }

  // The same when the transfer changes in the moment it completes.
  lemma CompleteSplits(h: Host, x1: Xfr, trace: seq<Packet>, delivered: map<nat, seq<byte>>, k: nat, status: Status)
    requires ChronicleOf(h, trace, delivered) && HostOK(h) && k < |h.sch| && x1.job == h.sch[k].job
    requires Outcome(Done(x1, status)) && Told(x1, Sent(trace, x1.job), GotBy(delivered, x1.job))
    ensures ChronicleOf(Complete(h.(sch := h.sch[k := x1]), k, status), trace, delivered)
  {
    var h1 := Complete(h.(sch := h.sch[k := x1]), k, status);
    forall i | 0 <= i < |h1.sch|
      ensures h1.sch[i] == h.sch[Old(i, k)] && h1.sch[i].job != x1.job
    {
      JobsDiffer(h, Old(i, k), k);
    }
    RestListed(h, h1, trace, delivered, k);
    RestLogged(h, h1, trace, delivered, Done(x1, status));
  }

  lemma RestListed(h: Host, h1: Host, trace: seq<Packet>, delivered: map<nat, seq<byte>>, k: nat)
    requires Listed(h, trace, delivered) && k < |h.sch| == |h1.sch| + 1
    requires forall i :: 0 <= i < |h1.sch| ==> h1.sch[i] == h.sch[Old(i, k)]
    ensures Listed(h1, trace, delivered)
  {
  }

  lemma RestLogged(h: Host, h1: Host, trace: seq<Packet>, delivered: map<nat, seq<byte>>, d: Done)
    requires Logged(h, trace, delivered) && Apart(h) && h1.log == h.log + [d] && h1.nextJob == h.nextJob
    requires d.x.job < h.nextJob && forall i :: 0 <= i < |h1.sch| ==> h1.sch[i] in h.sch && h1.sch[i].job != d.x.job
    requires Outcome(d) && Told(d.x, Sent(trace, d.x.job), GotBy(delivered, d.x.job))
    ensures Logged(h1, trace, delivered) && Apart(h1)
  {
    forall j | 0 <= j < |h1.log|
      ensures h1.log[j].x.job < h1.nextJob
      ensures Outcome(h1.log[j]) && Told(h1.log[j].x, Sent(trace, h1.log[j].x.job), GotBy(delivered, h1.log[j].x.job))
      ensures forall i :: 0 <= i < |h1.sch| ==> h1.sch[i].job != h1.log[j].x.job
    {
      if j < |h.log| { assert h1.log[j] == h.log[j]; }
    }
  }

  lemma CancelTells(h: Host, trace: seq<Packet>, delivered: map<nat, seq<byte>>, job: nat)
    requires ChronicleOf(h, trace, delivered) && HostOK(h)
    ensures ChronicleOf(Cancel(h, job), trace, delivered)
  {
    var i := IndexOf(h.sch, job);
    if i < |h.sch| && !h.sch[i].active {
      CompleteTells(h, trace, delivered, i, Cancelled);
    }
  }

  lemma DestroyTells(h: Host, trace: seq<Packet>, delivered: map<nat, seq<byte>>, job: nat)
    requires ChronicleOf(h, trace, delivered) && HostOK(h)
    ensures ChronicleOf(Destroy(h, job), trace, delivered)
  {
    CancelTells(h, trace, delivered, job);
    var h1 := Cancel(h, job);
    var k := IndexOf(h1.sch, job);
    if k < |h1.sch| {
      var x := h1.sch[k];
      if !x.detached {
        assert x.orig[..x.fi] == x.orig[..x.fi] + seq(0, _ => 0xFF);
      }
      ReplaceTells(h1, trace, delivered, k, Detach(x));
    }
  }

  lemma ReplaceTells(h: Host, trace: seq<Packet>, delivered: map<nat, seq<byte>>, k: nat, x1: Xfr)
    requires ChronicleOf(h, trace, delivered) && k < |h.sch| && x1.job == h.sch[k].job
    requires Told(x1, Sent(trace, x1.job), GotBy(delivered, x1.job))
    ensures ChronicleOf(h.(sch := h.sch[k := x1]), trace, delivered)
  {
    var h1 := h.(sch := h.sch[k := x1]);
    forall i | 0 <= i < |h1.sch| ensures h1.sch[i].job == h.sch[i].job {}
    forall i | 0 <= i < |h1.sch|
      ensures Told(h1.sch[i], Sent(trace, h1.sch[i].job), GotBy(delivered, h1.sch[i].job))
    {
      assert Told(h.sch[i], Sent(trace, h.sch[i].job), GotBy(delivered, h.sch[i].job));
    }
  }

  // ---------------------------------------------------------------- the wire

  // The bytes fetched are the user's, untouched by what was received meanwhile.
  lemma FetchedAreOriginal(x: Xfr, sent: seq<byte>, got: seq<byte>, n: nat)
    requires Told(x, sent, got) && x.fi + n <= x.sc && n > 0
    ensures Told(x.(active := true, fi := x.fi + n), sent + DataBytes(x, n), got)
  {
    if x.detached {
      var pad := x.fi - x.cut;
      assert seq(pad, _ => 0xFF) + seq(n, _ => 0xFF) == seq(pad + n, _ => 0xFF);
      assert (x.orig[..x.cut] + seq(pad, _ => 0xFF)) + seq(n, _ => 0xFF) == x.orig[..x.cut] + seq(pad + n, _ => 0xFF);
    } else {
      forall k | x.fi <= k < x.fi + n ensures x.buf[k] == x.orig[k] {}
      assert x.buf[x.fi..x.fi + n] == x.orig[x.fi..x.fi + n];
      assert x.orig[..x.fi] + x.orig[x.fi..x.fi + n] == x.orig[..x.fi + n];
    }
  }

  // The list and the log look at their own packets only.
  // A packet of a listed transfer tells nothing about the finished ones.
  lemma TransmitKeepsLog(h: Host, trace: seq<Packet>, delivered: map<nat, seq<byte>>, p: Packet)
    requires ChronicleOf(h, trace, delivered) && h.cur < |h.sch| && p.job == h.sch[h.cur].job
    ensures forall k :: 0 <= k < |h.log| ==>
      Told(h.log[k].x, Sent(trace + [p], h.log[k].x.job), GotBy(delivered, h.log[k].x.job))
  {
    forall k | 0 <= k < |h.log|
      ensures Told(h.log[k].x, Sent(trace + [p], h.log[k].x.job), GotBy(delivered, h.log[k].x.job))
    {
      assert h.sch[h.cur].job != h.log[k].x.job;
      SentAppend(trace, p, h.log[k].x.job);
    }
  }

  lemma TransmitTells(h: Host, trace: seq<Packet>, delivered: map<nat, seq<byte>>)
    requires ChronicleOf(h, trace, delivered) && HostOK(h) && Pumpable(h) && TxOne(h).Emit?
    ensures ChronicleOf(TxOne(h).h, trace + [TxOne(h).p], delivered)
  {
    var h1, p, x := TxOne(h).h, TxOne(h).p, h.sch[h.cur];
    FetchedAreOriginal(x, Sent(trace, x.job), GotBy(delivered, x.job), PacketSize(h, x));
    forall i | 0 <= i < |h1.sch|
      ensures h1.sch[i].job == h.sch[i].job
      ensures Told(h1.sch[i], Sent(trace + [p], h1.sch[i].job), GotBy(delivered, h1.sch[i].job))
    {
      SentAppend(trace, p, h.sch[i].job);
      if i != h.cur { JobsDiffer(h, i, h.cur); }
    }
    TransmitKeepsLog(h, trace, delivered, p);
  }

  lemma SkippedTells(h: Host, trace: seq<Packet>, delivered: map<nat, seq<byte>>, cnt: nat)
    requires ChronicleOf(h, trace, delivered) && HostOK(h) && h.sch != [] && cnt > 0
    requires h.sch[0].si + cnt <= h.sch[0].fi
    ensures RxSkip(h, cnt).Some? && ChronicleOf(RxSkip(h, cnt).value, trace, delivered)
  {
    var x := h.sch[0];
    assert XferOK(x);
    assert Told(x, Sent(trace, x.job), GotBy(delivered, x.job));
    SkippedForm(h, cnt);
    if x.si + cnt == x.fi {
      CompleteSplits(h, Missed(x, cnt), trace, delivered, 0, Skipped);
    } else {
      ReplaceTells(h, trace, delivered, 0, Missed(x, cnt));
    }
  }

  lemma StoredIsReceived(x: Xfr, sent: seq<byte>, got: seq<byte>, b: byte)
    requires Told(x, sent, got) && !x.skipped && x.si < x.fi
    ensures Told(Stored(x, b), sent, got + [b])
  {
    if !x.detached {
      assert x.orig[|got|..] == [x.orig[|got|]] + x.orig[|got| + 1..];
      assert x.buf[x.si := b] == (got + [b]) + x.orig[|got| + 1..];
    }
  }

  // A byte delivered to the head concerns the head alone.
  lemma DeliveredTells(h: Host, trace: seq<Packet>, delivered: map<nat, seq<byte>>, b: byte, x1: Xfr)
    requires ChronicleOf(h, trace, delivered) && HostOK(h) && h.sch != []
    requires !h.sch[0].skipped && h.sch[0].si < h.sch[0].fi && x1 == Stored(h.sch[0], b)
    ensures var job := h.sch[0].job;
      var d1 := delivered[job := GotBy(delivered, job) + [b]];
      ChronicleOf(h.(sch := h.sch[0 := x1]), trace, d1)
  {
    var job := h.sch[0].job;
    var d1 := delivered[job := GotBy(delivered, job) + [b]];
    var h1 := h.(sch := h.sch[0 := x1]);
    StoredIsReceived(h.sch[0], Sent(trace, job), GotBy(delivered, job), b);
    forall i | 0 <= i < |h1.sch|
      ensures h1.sch[i].job == h.sch[i].job
      ensures Told(h1.sch[i], Sent(trace, h1.sch[i].job), GotBy(d1, h1.sch[i].job))
    {
      if i > 0 { JobsDiffer(h, i, 0); }
    }
    forall k | 0 <= k < |h1.log| ensures GotBy(d1, h1.log[k].x.job) == GotBy(delivered, h1.log[k].x.job) {
      assert h.sch[0].job != h.log[k].x.job;
    }
  }

  lemma DeliverTells(w: World, b: byte)
    requires Inv(w) && Chronicle(w) && w.up && w.h.left > 0
    ensures StoreInside(w.h) && Chronicle(OnDeliver(w, b))
  {
    InvEnables(w);
    DeliverKeeps(w, b);
    var x := w.h.sch[0];
    assert XferOK(x);
    AtMostSent(Tracks(w.h.sch), At(w.h), Chunks(w.q));
    var x1 := Stored(x, b);
    var job := x.job;
    var d1 := w.delivered[job := GotBy(w.delivered, job) + [b]];
    DeliveredTells(w.h, w.trace, w.delivered, b, x1);
    assert OnDeliver(w, b).delivered == d1;
    if w.h.left == 1 && w.h.last {
      FinishTells(w.h, x1, w.trace, d1);
    }
  }

  // The last byte of the last answer hands the transfer back.
  lemma FinishTells(h: Host, x1: Xfr, trace: seq<Packet>, delivered: map<nat, seq<byte>>)
    requires HostOK(h) && h.sch != [] && h.left > 0
    requires ChronicleOf(h.(sch := h.sch[0 := x1]), trace, delivered)
    requires x1.job == h.sch[0].job && x1.si == x1.fi == x1.sc && !x1.skipped
    ensures ChronicleOf(Complete(h.(left := h.left - 1, sch := h.sch[0 := x1.(xfrd := x1.si)]), 0, Success),
                        trace, delivered)
  {
    var x2 := x1.(xfrd := x1.si);
    var ha := h.(sch := h.sch[0 := x1]);
    assert Told(ha.sch[0], Sent(trace, x1.job), GotBy(delivered, x1.job));
    assert Told(x2, Sent(trace, x1.job), GotBy(delivered, x1.job));
    var h1 := Complete(h.(left := h.left - 1, sch := h.sch[0 := x2]), 0, Success);
    forall i | 0 <= i < |h1.sch|
      ensures h1.sch[i] == ha.sch[i + 1] && h1.sch[i].job != x1.job
    {
      JobsDiffer(h, i + 1, 0);
    }
    forall j | 0 <= j < |h1.log|
      ensures h1.log[j].x.job < h1.nextJob && forall i :: 0 <= i < |h1.sch| ==> h1.sch[i].job != h1.log[j].x.job
    {
      if j < |h.log| { assert h1.log[j] == ha.log[j]; }
    }
  }

  lemma {:induction false} DownTells(h: Host, trace: seq<Packet>, delivered: map<nat, seq<byte>>)
    requires ChronicleOf(h, trace, delivered) && HostOK(h)
    ensures ChronicleOf(CompleteAll(h), trace, delivered)
    decreases |h.sch|
  {
    if |h.sch| > 0 {
      CompleteTells(h, trace, delivered, 0, Cancelled);
      CompleteKeepsHost(h, 0, Cancelled);
      DownTells(Complete(h, 0, Cancelled), trace, delivered);
    }
  }

  // ---------------------------------------------------------------- every event

  lemma FullTells(w: World)
    requires Inv(w) && Chronicle(w) && AnswerPossible(w) && w.gone != Some(w.q[0].job)
    ensures Chronicle(OnAnswerFull(w))
  {
    CreditComesBack(w);
    CreditTells(w.h, w.trace, w.delivered, w.h.free + |w.q[0].data| + 2, |w.q[0].data|, w.q[0].last);
  }

  // What the head of a skipped answer amounts to.
  lemma SkipShape(w: World)
    requires Inv(w) && AnswerPossible(w)
    ensures var cnt := |w.q[0].data|;
      && cnt > 0 && w.h.sch != [] && w.h.sch[0].si + cnt <= w.h.sch[0].fi
      && OnSkipped(w.h, w.q[0].ss, cnt) == RxSkip(w.h.(free := w.h.free + cnt + 2), cnt)
  {
    OldestIsHeadsPacket(w);
    CreditComesBack(w);
  }

  lemma SkipTells(w: World)
    requires Inv(w) && Chronicle(w) && AnswerPossible(w)
    ensures Chronicle(OnAnswerSkipped(w))
  {
    SkipShape(w);
    var cnt, free := |w.q[0].data|, w.h.free + |w.q[0].data| + 2;
    SkipTellsBy(w.h, w.trace, w.delivered, cnt, free);
    SkipSettles(w, RxSkip(w.h.(free := free), cnt));
  }

  lemma SkipSettles(w: World, o: Option<Host>)
    requires w.q != [] && OnSkipped(w.h, w.q[0].ss, |w.q[0].data|) == o
    requires o.Some? && ChronicleOf(o.value, w.trace, w.delivered)
    ensures Chronicle(OnAnswerSkipped(w))
  {
  }

  lemma SkipTellsBy(h: Host, trace: seq<Packet>, delivered: map<nat, seq<byte>>, cnt: nat, free: nat)
    requires ChronicleOf(h, trace, delivered) && HostOK(h) && h.sch != [] && cnt > 0
    requires h.sch[0].si + cnt <= h.sch[0].fi
    ensures var o := RxSkip(h.(free := free), cnt); o.Some? && ChronicleOf(o.value, trace, delivered)
  {
    CreditTells(h, trace, delivered, free, h.left, h.last);
    CreditKeepsHost(h, free);
    SkippedTells(h.(free := free), trace, delivered, cnt);
  }

  lemma CreditTells(h: Host, trace: seq<Packet>, delivered: map<nat, seq<byte>>, free: nat, left: nat, last: bool)
    requires ChronicleOf(h, trace, delivered)
    ensures ChronicleOf(h.(free := free), trace, delivered)
    ensures ChronicleOf(h.(free := free, left := left, last := last), trace, delivered)
  {
  }

  lemma StepKeepsChronicle(w: World, ev: Event)
    requires Inv(w) && Chronicle(w)
    ensures w.up ==> Pumpable(w.h)
    ensures w.up && w.h.left > 0 ==> StoreInside(w.h)
    ensures Chronicle(Step(w, ev))
  {
    InvEnables(w);
    match ev
    case UserSchedule(buf, ss) => ScheduleTells(w.h, w.trace, w.delivered, buf, ss);
    case UserCancel(job) => CancelTells(w.h, w.trace, w.delivered, job);
    case UserDestroy(job) => DestroyTells(w.h, w.trace, w.delivered, job);
    case InfoBlock(len) =>
    case Transmit => if w.up && TxOne(w.h).Emit? { TransmitTells(w.h, w.trace, w.delivered); }
    case AnswerSkipped => if AnswerPossible(w) { SkipTells(w); }
    case AnswerFull => if AnswerPossible(w) && w.gone != Some(w.q[0].job) { FullTells(w); }
    case Deliver(b) => if w.up && w.h.left > 0 { DeliverTells(w, b); }
    case LinkLost => if w.up { DownTells(w.h, w.trace, w.delivered); }
  }
}
