/** Every event keeps the chronicle, so it holds at the end of every run. */
module TwiChronicle {
  import opened Basics
  import opened TwiHost
  import opened TwiWorld
  import opened TwiInvariant
  import opened TwiSteps
  import opened TwiLink
  import opened TwiAnswer
  import opened TwiTrace
  import opened TwiEvents

  // ---------------------------------------------------------------- user events

  lemma ScheduleKeepsStory(w: World, handle: nat, r: Request)
    requires HostOK(w.h) && Story(w.h, w.trace, w.delivered) && MaySchedule(w.h, handle, r)
    ensures Story(Schedule(w.h, handle, r), w.trace, w.delivered)
  {
    var h := w.h;
    var h1 := Schedule(h, handle, r);
    var x := NewXfr(h, handle, r);
    ScheduleKeepsBag(h, handle, r);
    if Pend(w.trace, x.job) != [] {
      var k := PendWitness(w.trace, x.job);
    }
    assert Told(x, w.trace, w.delivered);
    ScheduleKeepsTold(h, h1, x, w.trace, w.delivered);
    ScheduleKeepsEdge(h, h1, x, w.trace);
  }

  lemma ScheduleKeepsTold(h: Host, h1: Host, x: Xfr, trace: seq<Entry>, delivered: map<nat, seq<byte>>)
    requires AllTold(h, trace, delivered) && Told(x, trace, delivered)
    requires h1.sch == h.sch + [x] && h1.log == h.log
    ensures AllTold(h1, trace, delivered)
  {
  }

  lemma ScheduleKeepsEdge(h: Host, h1: Host, x: Xfr, trace: seq<Entry>)
    requires h.cur <= |h.sch| && EdgeOK(h, trace) && FinalsOK(h, trace)
    requires forall k :: 0 <= k < |trace| && trace[k].Of? ==> trace[k].job < x.job
    requires !x.active && h1.sch == h.sch + [x] && h1.log == h.log && h1.cur == h.cur && h1.txStop == h.txStop
    ensures EdgeOK(h1, trace) && FinalsOK(h1, trace)
  {
    assert forall i :: 0 <= i < |h1.sch| ==> h1.sch[i] == if i < |h.sch| then h.sch[i] else x;
  }

  lemma CancelKeepsStory(h: Host, handle: nat, trace: seq<Entry>, delivered: map<nat, seq<byte>>)
    requires SplitOK(h) && Story(h, trace, delivered)
    ensures Story(Cancel(h, handle), trace, delivered)
  {
    var i := IndexOf(Handles(h.sch), handle);
    if At(h, handle, Scheduled) && i < |h.sch| && !h.sch[i].active {
      CompleteKeepsStory(h, i, Cancelled, trace, delivered);
    }
  }

  lemma DetachKeepsTold(x: Xfr, trace: seq<Entry>, delivered: map<nat, seq<byte>>)
    requires XferOK(x) && x.active && Told(x, trace, delivered)
    ensures Told(Detach(x), trace, delivered)
  {
    if !x.detached && x.dir == Write {
      assert Front(x.orig, x.cmd) + Filler(0) == Front(x.orig, x.cmd);
      assert Spoken(Detach(x)) == Spoken(x);
    }
  }

  lemma MarkKeepsStory(h: Host, handle: nat, trace: seq<Entry>, delivered: map<nat, seq<byte>>)
    requires HostOK(h) && Story(h, trace, delivered)
    requires forall i :: 0 <= i < |h.sch| && h.sch[i].handle == handle ==> h.sch[i].active
    ensures Story(MarkDetached(h, handle), trace, delivered)
  {
    var i := IndexOf(Handles(h.sch), handle);
    if i < |h.sch| {
      assert XferOK(h.sch[i]);
      DetachKeepsTold(h.sch[i], trace, delivered);
      ReplaceKeepsStory(h, MarkDetached(h, handle), i, Detach(h.sch[i]), trace, delivered, delivered);
    }
  }

  lemma DestroyKeepsStory(h: Host, handle: nat, trace: seq<Entry>, delivered: map<nat, seq<byte>>)
    requires HostOK(h) && Story(h, trace, delivered)
    ensures Story(Destroy(h, handle), trace, delivered)
  {
    var h1 := Cancel(h, handle);
    CancelKeepsStory(h, handle, trace, delivered);
    CancelKeepsHost(h, handle);
    if At(h1, handle, Assigned) {
      SameStory(h1, Destroy(h, handle), trace, delivered);
    } else {
      CancelLeavesActive(h, handle);
      MarkKeepsStory(h1, handle, trace, delivered);
    }
  }

  lemma {:induction false} CompleteAllKeepsStory(h: Host, trace: seq<Entry>, delivered: map<nat, seq<byte>>)
    requires HostOK(h) && Story(h, trace, delivered)
    ensures Story(CompleteAll(h), trace, delivered)
    decreases |h.sch|
  {
    if |h.sch| > 0 {
      CompleteKeepsStory(h, 0, Cancelled, trace, delivered);
      CompleteKeepsHost(h, 0, Cancelled);
      CompleteAllKeepsStory(Complete(h, 0, Cancelled), trace, delivered);
    }
  }

  // ---------------------------------------------------------------- responses

  // The head is in a state from which completing it makes a proper outcome.
  ghost predicate Ripe(x: Xfr) {
    CanComplete(x) ==>
      && Counts(x)
      && x.active && x.rsp == x.cmd
      && (!x.short ==> x.xfrd == x.sc)
      && (x.short && !Probe(x) ==> x.xfrd < x.sc)
  }

  lemma CompleteHeadKeepsStory(h: Host, trace: seq<Entry>, delivered: map<nat, seq<byte>>)
    requires SplitOK(h) && |h.sch| > 0 && Story(h, trace, delivered) && CanComplete(h.sch[0]) && Ripe(h.sch[0])
    ensures Story(CompleteHead(h), trace, delivered)
  {
    var status := FinalStatus(h, h.sch[0]);
    CompleteKeepsStory(h, 0, status, trace, delivered);
    SameStory(Complete(h, 0, status), CompleteHead(h), trace, delivered);
  }

  // Answers leave what was emitted and delivered as it is.
  lemma SameWords(x: Xfr, x1: Xfr, trace: seq<Entry>, delivered: map<nat, seq<byte>>)
    requires Told(x, trace, delivered)
    requires x1 == x.(rsp := x1.rsp, xfrd := x1.xfrd, rxPhase := x1.rxPhase,
                      nack := x1.nack, short := x1.short, skipped := x1.skipped)
    requires x.dir == Read ==> x1.xfrd == x.xfrd
    ensures Told(x1, trace, delivered)
  {
    var cs := Pend(trace, x.job);
    if x.active {
      assert Packets(x, cs[1..]);
      assert Spoken(x1) == Spoken(x);
      assert Packets(x1, cs[1..]);
    }
  }

  lemma CreditedKeepsStory(w: World, e: Entry, x1: Xfr, left: nat)
    requires HostOK(w.h) && Story(w.h, w.trace, w.delivered) && |w.h.sch| > 0
    requires var x := w.h.sch[0];
      x1 == x.(rsp := x1.rsp, xfrd := x1.xfrd, rxPhase := x1.rxPhase,
               nack := x1.nack, short := x1.short, skipped := x1.skipped)
      && (x.dir == Read ==> x1.xfrd == x.xfrd)
    ensures Story(Credited(w.h, e, x1, left), w.trace, w.delivered)
  {
    SameWords(w.h.sch[0], x1, w.trace, w.delivered);
    ReplaceKeepsStory(w.h, Credited(w.h, e, x1, left), 0, x1, w.trace, w.delivered, w.delivered);
  }

  lemma CreditedKeepsSplit(h: Host, e: Entry, x1: Xfr, left: nat)
    requires SplitOK(h) && |h.sch| > 0
    requires x1.active == h.sch[0].active && x1.cmd == h.sch[0].cmd && x1.sc == h.sch[0].sc
    ensures SplitOK(Credited(h, e, x1, left))
  {
  }

  lemma StartKeepsStory(w: World, r: Rsp)
    requires Inv(w) && Story(w.h, w.trace, w.delivered) && AnswerPossible(w, r) && w.q[0].Of? && w.q[0].cmd.Start?
    requires OnResponse(w.h, r).Some?
    ensures Story(OnResponse(w.h, r).value, w.trace, w.delivered)
  {
    HeadsCommand(w);
    StartResponse(w.h, r, w.q[0]);
    var x := w.h.sch[0];
    var x1 := Addressed(x, r);
    if Probe(x) {
      CreditedKeepsStory(w, w.q[0], x1, 0);
      CreditedKeepsSplit(w.h, w.q[0], x1, 0);
      CompleteHeadKeepsStory(Credited(w.h, w.q[0], x1, 0), w.trace, w.delivered);
    } else {
      CreditedKeepsStory(w, w.q[0], x1.(rxPhase := Data), 0);
    }
  }

  lemma FitIsRipe(x: Xfr, dead: bool)
    requires XferOK(x) && HeadFits(x, 0, dead) && x.rxPhase == Data && x.rsp > 0
    ensures Ripe(x)
  {
  }

  lemma DataKeepsStory(w: World, r: Rsp)
    requires Inv(w) && Story(w.h, w.trace, w.delivered) && AnswerPossible(w, r) && w.q[0].Of? && !w.q[0].cmd.Start?
    requires OnResponse(w.h, r).Some?
    ensures Story(OnResponse(w.h, r).value, w.trace, w.delivered)
  {
    HeadsCommand(w);
    HeadAfterData(w, r);
    DataResponse(w.h, r, w.q[0]);
    var x1 := Counted(w.h.sch[0], r);
    var left := PayloadOf(r);
    CreditedKeepsStory(w, w.q[0], x1, left);
    if left == 0 {
      var h1 := Credited(w.h, w.q[0], x1, 0);
      CreditedKeepsSplit(w.h, w.q[0], x1, 0);
      FitIsRipe(x1, DeadAfter(w.dead, r));
      if CanComplete(x1) {
        CompleteHeadKeepsStory(h1, w.trace, w.delivered);
      }
    }
  }

  lemma AnswerKeepsChronicle(w: World, r: Rsp)
    requires Inv(w) && Chronicle(w) && AnswerPossible(w, r)
    ensures Chronicle(OnAnswer(w, r))
  {
    AnswerKeepsInv(w, r);
    match OnResponse(w.h, r)
    case None => CompleteAllKeepsStory(w.h, w.trace, w.delivered);
    case Some(h1) =>
      if w.q[0].Stop? {
        SameStory(w.h, h1, w.trace, w.delivered);
      } else if w.q[0].cmd.Start? {
        StartKeepsStory(w, r);
      } else {
        DataKeepsStory(w, r);
      }
  }

  // ---------------------------------------------------------------- payload bytes

  lemma StoredDelivered(x: Xfr, b: byte, got: seq<byte>)
    requires XferOK(x) && x.dir == Read && x.xfrd < x.sc && DeliveredOK(x, got)
    requires !x.detached ==> x.xfrd < |x.buf|
    ensures DeliveredOK(Stored(x, b), got + [b])
  {
    if x.detached {
      assert (got + [b])[..x.cut] == got[..x.cut];
    } else {
      assert x.orig[x.xfrd..] == [x.orig[x.xfrd]] + x.orig[x.xfrd + 1..];
      assert (got + x.orig[x.xfrd..])[x.xfrd := b] == (got + [b]) + x.orig[x.xfrd + 1..];
    }
  }

  lemma StoredTold(x: Xfr, b: byte, trace: seq<Entry>, delivered: map<nat, seq<byte>>)
    requires XferOK(x) && x.dir == Read && x.rxPhase == Data && x.xfrd < x.rsp && Told(x, trace, delivered)
    requires !x.detached ==> x.xfrd < |x.buf|
    ensures Told(Stored(x, b), trace, delivered[x.job := Got(delivered, x.job) + [b]])
  {
    var x1 := Stored(x, b);
    var cs := Pend(trace, x.job);
    assert Packets(x, cs[1..]);
    assert Packets(x1, cs[1..]);
    StoredDelivered(x, b, Got(delivered, x.job));
  }

  lemma StoredKeepsStory(w: World, b: byte, h1: Host, x1: Xfr, delivered1: map<nat, seq<byte>>)
    requires Inv(w) && Story(w.h, w.trace, w.delivered) && DeliverPossible(w) && StoreInside(w.h)
    requires |w.h.sch| > 0 && x1 == Stored(w.h.sch[0], b)
    requires delivered1 == w.delivered[w.rxJob := DeliveredTo(w, w.rxJob) + [b]]
    requires h1 == w.h.(sch := w.h.sch[0 := x1], rxLeft := w.h.rxLeft - 1)
    ensures Story(h1, w.trace, delivered1) && SplitOK(h1) && (h1.rxLeft == 0 ==> Ripe(x1))
  {
    var x := w.h.sch[0];
    assert XferOK(x);
    StoredTold(x, b, w.trace, w.delivered);
    StoredXfer(x, b);
    StoredKeepsSplit(w.h, h1, x1);
    if h1.rxLeft == 0 {
      StoredIsRipe(x, x1, w.dead);
    }
    ReplaceKeepsStory(w.h, h1, 0, x1, w.trace, w.delivered, delivered1);
  }

  lemma StoredIsRipe(x: Xfr, x1: Xfr, dead: bool)
    requires XferOK(x1) && HeadFits(x, 1, dead) && x.rxPhase == Data
    requires x1 == x.(buf := x1.buf, xfrd := x.xfrd + 1)
    ensures Ripe(x1)
  {
  }

  lemma StoredResponse(w: World, b: byte, h1: Host, x1: Xfr)
    requires Inv(w) && DeliverPossible(w) && StoreInside(w.h)
    requires |w.h.sch| > 0 && x1 == Stored(w.h.sch[0], b)
    requires h1 == w.h.(sch := w.h.sch[0 := x1], rxLeft := w.h.rxLeft - 1)
    ensures RxByte(w.h, b) == Some(if h1.rxLeft == 0 then CheckHead(h1) else h1)
  {
    assert XferOK(w.h.sch[0]);
    ByteResponse(w.h, b);
  }

  lemma CheckKeepsStory(h: Host, trace: seq<Entry>, delivered: map<nat, seq<byte>>)
    requires SplitOK(h) && Story(h, trace, delivered) && |h.sch| > 0 && Ripe(h.sch[0])
    ensures Story(CheckHead(h), trace, delivered)
  {
    if CanComplete(h.sch[0]) {
      CompleteHeadKeepsStory(h, trace, delivered);
    }
  }

  lemma DeliverKeepsChronicle(w: World, b: byte)
    requires Inv(w) && Chronicle(w) && DeliverPossible(w) && StoreInside(w.h)
    ensures Chronicle(OnDeliver(w, b))
  {
    assert XferOK(w.h.sch[0]);
    var delivered1 := w.delivered[w.rxJob := DeliveredTo(w, w.rxJob) + [b]];
    var x1 := Stored(w.h.sch[0], b);
    var h1 := w.h.(sch := w.h.sch[0 := x1], rxLeft := w.h.rxLeft - 1);
    StoredKeepsStory(w, b, h1, x1, delivered1);
    StoredResponse(w, b, h1, x1);
    DeliverOutcome(w, b, h1, delivered1);
  }

  lemma DeliverOutcome(w: World, b: byte, h1: Host, delivered1: map<nat, seq<byte>>)
    requires GrammarOK(w.trace) && StoreInside(w.h) && |h1.sch| > 0
    requires RxByte(w.h, b) == Some(if h1.rxLeft == 0 then CheckHead(h1) else h1)
    requires delivered1 == w.delivered[w.rxJob := DeliveredTo(w, w.rxJob) + [b]]
    requires Story(h1, w.trace, delivered1) && SplitOK(h1) && (h1.rxLeft == 0 ==> Ripe(h1.sch[0]))
    ensures Chronicle(OnDeliver(w, b))
  {
    if h1.rxLeft == 0 {
      CheckKeepsStory(h1, w.trace, delivered1);
    }
  }

  lemma StoredKeepsSplit(h: Host, h1: Host, x1: Xfr)
    requires SplitOK(h) && |h.sch| > 0 && h1.sch == h.sch[0 := x1] && h1.cur == h.cur
    requires x1.active == h.sch[0].active && x1.cmd == h.sch[0].cmd && x1.sc == h.sch[0].sc
    ensures SplitOK(h1)
  {
  }

  // ---------------------------------------------------------------- emission

  lemma {:induction false} PayloadAppend(cs: seq<Cmd>, c: Cmd)
    ensures Payload(cs + [c]) == Payload(cs) + (if c.Tx? then c.data else [])
  {
    if cs == [] {
      assert cs + [c] == [c] && [c][1..] == [];
    } else {
      assert (cs + [c])[1..] == cs[1..] + [c] && (cs + [c])[0] == cs[0];
      var head := if cs[0].Tx? then cs[0].data else [];
      var tail := if c.Tx? then c.data else [];
      PayloadAppend(cs[1..], c);
      assert head + (Payload(cs[1..]) + tail) == (head + Payload(cs[1..])) + tail;
    }
  }

  // The pump's transfer speaks n more bytes.
  lemma SpokenGrows(x: Xfr, n: nat)
    requires XferOK(x) && x.dir == Write && x.cmd + n <= x.sc
    ensures Spoken(x.(cmd := x.cmd + n)) == Spoken(x) + DataBytes(x, n)
  {
    if x.detached {
      assert Filler(x.cmd + n - x.cut) == Filler(x.cmd - x.cut) + Filler(n);
      Associative(Front(x.orig, x.cut), Filler(x.cmd - x.cut), Filler(n));
    } else {
      assert x.buf[..x.cmd + n] == x.buf[..x.cmd] + x.buf[x.cmd..x.cmd + n];
    }
  }

  lemma DataTold(x: Xfr, x1: Xfr, ds: seq<Cmd>, n: nat, c: Cmd)
    requires XferOK(x) && x.active && Packets(x, ds) && 1 <= n <= 32 && x.cmd + n <= x.sc
    requires x1 == x.(cmd := x.cmd + n) && x.cmd < x.sc
    requires c == if x.dir == Write then Tx(DataBytes(x, n)) else Rx(n, x.cmd + n == x.sc)
    ensures Packets(x1, ds + [c])
  {
    BytesAppend(ds, c);
    PayloadAppend(ds, c);
    if x.dir == Write {
      SpokenGrows(x, n);
    }
  }

  // The emission as seen from the trace.
  ghost predicate Speaks(h: Host, h1: Host, e: Entry) {
    && Advance(h, h1, e)
    && h1.log == h.log && h1.nextJob == h.nextJob
    && (e.progress.Final? <==> Emitted(h1.sch[h.cur]))
    && (h1.txStop <==> e.progress == Final(true))
    && (e.cmd.Start? <==> !h.sch[h.cur].active)
    && (h.sch[h.cur].active ==>
          var x := h.sch[h.cur];
          var n := Size(e.cmd);
          x.cmd + n <= x.sc && x.cmd < x.sc && (!x.detached ==> |x.buf| == x.sc) &&
          e.cmd == if x.dir == Write then Tx(DataBytes(x, n)) else Rx(n, x.cmd + n == x.sc))
  }

  lemma TransmitSpeaks(h: Host)
    requires HostOK(h) && Pumpable(h) && TxOne(h).Emit? && !h.txStop
    ensures Speaks(h, TxOne(h).h, TxOne(h).e)
  {
    assert XferOK(h.sch[h.cur]);
    TransmitAdvances(h);
  }

  lemma SpeakerTold(h: Host, h1: Host, e: Entry, trace: seq<Entry>, delivered: map<nat, seq<byte>>)
    requires Speaks(h, h1, e) && XferOK(h.sch[h.cur]) && Told(h.sch[h.cur], trace, delivered)
    ensures Told(h1.sch[h.cur], trace + [e], delivered)
  {
    var x, x1 := h.sch[h.cur], h1.sch[h.cur];
    var cs := Pend(trace, x.job);
    PendAppend(trace, e, x.job);
    if x.active {
      assert (cs + [e.cmd])[1..] == cs[1..] + [e.cmd];
      DataTold(x, x1, cs[1..], Size(e.cmd), e.cmd);
    } else {
      assert cs + [e.cmd] == [e.cmd] && [e.cmd][1..] == [];
    }
  }

  lemma OthersTold(x: Xfr, e: Entry, trace: seq<Entry>, delivered: map<nat, seq<byte>>)
    requires Told(x, trace, delivered) && (e.Of? ==> e.job != x.job)
    ensures Told(x, trace + [e], delivered)
  {
    PendAppend(trace, e, x.job);
  }

  lemma SpeechTold(h: Host, h1: Host, e: Entry, trace: seq<Entry>, delivered: map<nat, seq<byte>>)
    requires JobsOK(h) && XfersOK(h) && BagOK(h) && Speaks(h, h1, e) && AllTold(h, trace, delivered)
    ensures AllTold(h1, trace + [e], delivered)
  {
    forall k | 0 <= k < |h1.sch|
      ensures Told(h1.sch[k], trace + [e], delivered)
    {
      if k == h.cur {
        SpeakerTold(h, h1, e, trace, delivered);
      } else {
        assert h1.sch[k] == h.sch[k] && h.sch[k].job != h.sch[h.cur].job;
        OthersTold(h.sch[k], e, trace, delivered);
      }
    }
    forall k | 0 <= k < |h1.log|
      ensures Told(h1.log[k].x, trace + [e], delivered)
    {
      ListedNotLogged(h, h.cur, k);
      OthersTold(h.log[k].x, e, trace, delivered);
    }
  }

  lemma SpeechKeepsFinals(h: Host, h1: Host, e: Entry, trace: seq<Entry>)
    requires JobsOK(h) && SplitOK(h) && BagOK(h) && Speaks(h, h1, e) && FinalsOK(h, trace)
    ensures FinalsOK(h1, trace + [e])
  {
    var trace1 := trace + [e];
    forall k | 0 <= k < |trace1| && trace1[k].Of? && trace1[k].progress.Final?
      ensures forall i :: 0 <= i < |h1.sch| && h1.sch[i].job == trace1[k].job ==> Emitted(h1.sch[i])
      ensures forall i :: 0 <= i < |h1.log| && h1.log[i].x.job == trace1[k].job ==> Emitted(h1.log[i].x)
    {
      if k < |trace| {
        assert trace1[k] == trace[k];
        assert trace[k].job != h.sch[h.cur].job;
      } else {
        forall i | 0 <= i < |h1.log| && h1.log[i].x.job == e.job
          ensures false
        {
          ListedNotLogged(h, h.cur, i);
        }
      }
    }
  }

  lemma SpeechKeepsEdge(h: Host, h1: Host, e: Entry, trace: seq<Entry>)
    requires JobsOK(h) && SplitOK(h) && Speaks(h, h1, e) && EdgeOK(h, trace)
    ensures EdgeOK(h1, trace + [e])
  {
    var trace1 := trace + [e];
    assert trace1[|trace1| - 1] == e;
    forall i, k | 0 <= i < |h1.sch| && !h1.sch[i].active && 0 <= k < |trace1| && trace1[k].Of?
      ensures trace1[k].job < h1.sch[i].job
    {
      assert i > h.cur && h1.sch[i] == h.sch[i];
    }
  }

  lemma SpeechKeepsGrammar(h: Host, h1: Host, e: Entry, trace: seq<Entry>)
    requires h.cur < |h.sch| && !h.txStop && Speaks(h, h1, e) && EdgeOK(h, trace) && GrammarOK(trace)
    ensures GrammarOK(trace + [e])
  {
    var trace1 := trace + [e];
    forall k | 0 <= k < |trace1| - 1
      ensures FollowOK(trace1[k], trace1[k + 1])
    {
      if k < |trace| - 1 {
        assert FollowOK(trace[k], trace[k + 1]);
      }
    }
  }

  lemma StopTold(h: Host, h1: Host, trace: seq<Entry>, delivered: map<nat, seq<byte>>)
    requires AllTold(h, trace, delivered) && h1.sch == h.sch && h1.log == h.log
    ensures AllTold(h1, trace + [Stop], delivered)
  {
    forall k | 0 <= k < |h1.sch|
      ensures Told(h1.sch[k], trace + [Stop], delivered)
    {
      OthersTold(h1.sch[k], Stop, trace, delivered);
    }
    forall k | 0 <= k < |h1.log|
      ensures Told(h1.log[k].x, trace + [Stop], delivered)
    {
      OthersTold(h1.log[k].x, Stop, trace, delivered);
    }
  }

  lemma StopKeepsStory(h: Host, h1: Host, trace: seq<Entry>, delivered: map<nat, seq<byte>>)
    requires h.txStop && h1 == h.(free := h1.free, txStop := false)
    requires Story(h, trace, delivered) && GrammarOK(trace)
    ensures Story(h1, trace + [Stop], delivered) && GrammarOK(trace + [Stop])
  {
    assert JobBag(h1) == JobBag(h);
    SameBag(h, h1);
    StopTold(h, h1, trace, delivered);
    StopKeepsEdge(h, h1, trace);
    assert BelowNext(trace + [Stop], delivered, h1.nextJob);
  }

  lemma StopKeepsEdge(h: Host, h1: Host, trace: seq<Entry>)
    requires h.txStop && h1 == h.(free := h1.free, txStop := false)
    requires EdgeOK(h, trace) && FinalsOK(h, trace) && GrammarOK(trace)
    ensures EdgeOK(h1, trace + [Stop]) && FinalsOK(h1, trace + [Stop]) && GrammarOK(trace + [Stop])
  {
    var trace1 := trace + [Stop];
    assert trace1[|trace1| - 1] == Stop;
    forall k | 0 <= k < |trace1| - 1
      ensures FollowOK(trace1[k], trace1[k + 1])
    {
      if k < |trace| - 1 {
        assert FollowOK(trace[k], trace[k + 1]);
      }
    }
  }

  lemma SpeechKeepsStory(h: Host, h1: Host, e: Entry, trace: seq<Entry>, delivered: map<nat, seq<byte>>)
    requires HostOK(h) && !h.txStop && Speaks(h, h1, e) && Story(h, trace, delivered) && GrammarOK(trace)
    ensures Story(h1, trace + [e], delivered) && GrammarOK(trace + [e])
  {
    SpeechTold(h, h1, e, trace, delivered);
    SpeechKeepsFinals(h, h1, e, trace);
    SpeechKeepsEdge(h, h1, e, trace);
    SpeechKeepsGrammar(h, h1, e, trace);
    SpeechKeepsBag(h, h1, e, trace, delivered);
  }

  lemma SpeechKeepsBag(h: Host, h1: Host, e: Entry, trace: seq<Entry>, delivered: map<nat, seq<byte>>)
    requires JobsOK(h) && Speaks(h, h1, e) && BagOK(h) && OutcomesOK(h) && BelowNext(trace, delivered, h.nextJob)
    ensures BagOK(h1) && OutcomesOK(h1) && BelowNext(trace + [e], delivered, h1.nextJob)
  {
    assert Jobs(h1.sch) == Jobs(h.sch);
    SameBag(h, h1);
  }

  lemma TransmitKeepsChronicle(w: World)
    requires Inv(w) && w.up && Chronicle(w)
    ensures Pumpable(w.h) && Chronicle(OnTransmit(w))
  {
    InvEnables(w);
    match TxOne(w.h)
    case Quiet =>
    case Emit(h1, e) =>
      if w.h.txStop {
        StopKeepsStory(w.h, h1, w.trace, w.delivered);
      } else {
        TransmitSpeaks(w.h);
        SpeechKeepsStory(w.h, h1, e, w.trace, w.delivered);
      }
  }

  // ---------------------------------------------------------------- every event

  lemma UserKeepsStory(w: World, ev: Event)
    requires HostOK(w.h) && Story(w.h, w.trace, w.delivered)
    requires ev.UserCreate? || ev.UserSchedule? || ev.UserCancel? || ev.UserDestroy?
    ensures Story(UserStep(w.h, ev), w.trace, w.delivered)
  {
    match ev
    case UserCreate => SameStory(w.h, Create(w.h), w.trace, w.delivered);
    case UserSchedule(handle, r) => if MaySchedule(w.h, handle, r) { ScheduleKeepsStory(w, handle, r); }
    case UserCancel(handle) => CancelKeepsStory(w.h, handle, w.trace, w.delivered);
    case UserDestroy(handle) => DestroyKeepsStory(w.h, handle, w.trace, w.delivered);
  }

  function UserStep(h: Host, ev: Event): Host
    requires ev.UserCreate? || ev.UserSchedule? || ev.UserCancel? || ev.UserDestroy?
  {
    match ev
    case UserCreate => Create(h)
    case UserSchedule(handle, r) => Schedule(h, handle, r)
    case UserCancel(handle) => Cancel(h, handle)
    case UserDestroy(handle) => Destroy(h, handle)
  }

  lemma FlagsKeepStory(w: World, ev: Event)
    requires Story(w.h, w.trace, w.delivered)
    requires ev.UserEnable? || ev.InfoBlock? || ev.RaiseBusError? || ev.RaiseArbLost?
    requires (w.up ==> Pumpable(w.h)) && (DeliverPossible(w) ==> StoreInside(w.h))
    ensures Story(Step(w, ev).h, w.trace, w.delivered)
    ensures Step(w, ev).trace == w.trace && Step(w, ev).delivered == w.delivered
  {
    if ev.InfoBlock? {
      InfoShape(w, ev.len);
    } else {
      FlagShape(w, ev);
    }
    SameStory(w.h, Step(w, ev).h, w.trace, w.delivered);
  }

  lemma InfoShape(w: World, len: nat)
    requires (w.up ==> Pumpable(w.h)) && (DeliverPossible(w) ==> StoreInside(w.h))
    ensures Step(w, InfoBlock(len)) ==
      w.(h := if w.up && w.h.len == 0 then w.h.(len := len, free := len) else w.h)
  {
  }

  lemma WireKeepsStory(w: World, ev: Event)
    requires Inv(w) && Chronicle(w)
    requires (w.up ==> Pumpable(w.h)) && (DeliverPossible(w) ==> StoreInside(w.h))
    requires ev.Transmit? || ev.Count? || ev.Answer? || ev.Deliver? || ev.LinkLost?
    ensures Chronicle(Step(w, ev))
  {
    match ev
    case Transmit => if w.up { TransmitKeepsChronicle(w); }
    case Count => if CountPossible(w) { CountKeepsStory(w); }
    case Answer(r) => if AnswerPossible(w, r) { AnswerKeepsChronicle(w, r); }
    case Deliver(b) => if DeliverPossible(w) { DeliverKeepsChronicle(w, b); }
    case LinkLost => LossKeepsStory(w);
  }

  lemma LossKeepsStory(w: World)
    requires Inv(w) && Chronicle(w)
    requires (w.up ==> Pumpable(w.h)) && (DeliverPossible(w) ==> StoreInside(w.h))
    ensures Chronicle(Step(w, LinkLost))
  {
    if w.up {
      CompleteAllKeepsStory(w.h, w.trace, w.delivered);
    }
  }

  lemma CountKeepsStory(w: World)
    requires Inv(w) && Chronicle(w) && CountPossible(w)
    ensures Chronicle(OnCounted(w))
  {
    CountKeepsInv(w);
    SameStory(w.h, OnCounted(w).h, w.trace, w.delivered);
  }

  lemma StepKeepsChronicle(w: World, ev: Event)
    requires Inv(w) && Chronicle(w)
    ensures w.up ==> Pumpable(w.h)
    ensures DeliverPossible(w) ==> StoreInside(w.h)
    ensures Chronicle(Step(w, ev))
  {
    InvEnables(w);
    if ev.UserEnable? || ev.InfoBlock? || ev.RaiseBusError? || ev.RaiseArbLost? {
      FlagsKeepStory(w, ev);
    } else if ev.UserCreate? || ev.UserSchedule? || ev.UserCancel? || ev.UserDestroy? {
      UserKeepsStory(w, ev);
    } else {
      WireKeepsStory(w, ev);
    }
  }
}
