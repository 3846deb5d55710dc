/** Whole runs of the 1-Wire host and a conforming device. */
module OwRuns {
  import opened Basics
  import opened OwHost
  import opened OwWorld
  import opened OwSteps
  import opened OwChronicle
  import opened Fifo

  ghost predicate Good(w: World) {
    Inv(w) && Chronicle(w)
  }

  lemma StepKeepsGood(w: World, ev: Event)
    requires Good(w)
    ensures w.up ==> Pumpable(w.h)
    ensures w.up && w.h.busy.Bytes? ==> StoreInside(w.h)
    ensures Good(Step(w, ev))
  {
    StepKeepsInv(w, ev);
    StepKeepsChronicle(w, ev);
  }

  lemma EmptyInv(w: World)
    requires w.h.sch == [] && w.h.cur == 0 && w.q == [] && w.gone == None && w.h.busy == Idle && w.h.free == w.h.len
    ensures Inv(w)
  {
  }

  lemma EmptyChronicle(w: World)
    requires w.h.sch == [] && w.h.log == [] && w.trace == [] && w.delivered == map[]
    ensures Chronicle(w)
  {
  }

  lemma StartIsGood()
    ensures Good(START)
  {
    var w :| w == START;
    EmptyInv(w);
    EmptyChronicle(w);
  }

  ghost function Run(w: World, evs: seq<Event>): World
    requires Good(w)
    decreases |evs|
  {
    if evs == [] then w
    else
      StepKeepsGood(w, evs[0]);
      Run(Step(w, evs[0]), evs[1..])
  }

  lemma {:induction false} RunKeepsGood(w: World, evs: seq<Event>)
    requires Good(w)
    ensures Good(Run(w, evs))
    decreases |evs|
  {
    if evs != [] {
      StepKeepsGood(w, evs[0]);
      RunKeepsGood(Step(w, evs[0]), evs[1..]);
    }
  }

  ghost predicate RunsTo(w0: World, w: World)
    requires Good(w0)
  {
    exists evs :: Run(w0, evs) == w
  }

  lemma RunsToGood(w0: World, w: World)
    requires Good(w0) && RunsTo(w0, w)
    ensures Good(w)
  {
    var evs :| Run(w0, evs) == w;
    RunKeepsGood(w0, evs);
  }

  // The states some run from the start leads to.
  ghost predicate Reachable(w: World) {
    StartIsGood();
    RunsTo(START, w)
  }

  lemma ReachableGood(w: World)
    requires Reachable(w)
    ensures Good(w)
  {
    StartIsGood();
    RunsToGood(START, w);
  }

  lemma RunFirst(w: World, evs: seq<Event>)
    requires Good(w) && evs != []
    ensures w.up ==> Pumpable(w.h)
    ensures w.up && w.h.busy.Bytes? ==> StoreInside(w.h)
    ensures Good(Step(w, evs[0])) && Run(w, evs) == Run(Step(w, evs[0]), evs[1..])
  {
    StepKeepsGood(w, evs[0]);
  }

  lemma {:induction false} RunTwice(w: World, a: seq<Event>, b: seq<Event>)
    requires Good(w)
    ensures Good(Run(w, a)) && Run(Run(w, a), b) == Run(w, a + b)
    decreases |a|
  {
    if a == [] {
      assert a + b == b;
    } else {
      assert (a + b)[0] == a[0] && (a + b)[1..] == a[1..] + b;
      RunFirst(w, a);
      RunFirst(w, a + b);
      RunTwice(Step(w, a[0]), a[1..], b);
    }
  }

  lemma RunsOn(w0: World, w: World, evs: seq<Event>)
    requires Good(w0) && RunsTo(w0, w) && Good(w)
    ensures RunsTo(w0, Run(w, evs))
  {
    var before :| Run(w0, before) == w;
    RunTwice(w0, before, evs);
  }

  // A run leads from a reachable state to a reachable state.
  lemma ReachableOn(w: World, evs: seq<Event>)
    requires Reachable(w)
    ensures Good(w) && Reachable(Run(w, evs))
  {
    ReachableGood(w);
    StartIsGood();
    RunsOn(START, w, evs);
  }

  // ---------------------------------------------------------------- safety

  // The host never gives up on a conforming device.
  lemma {:induction false} NeverDetaches(w: World, evs: seq<Event>)
    requires Good(w) && w.up && forall k :: 0 <= k < |evs| ==> !evs[k].LinkLost?
    ensures Run(w, evs).up
    decreases |evs|
  {
    if evs != [] {
      StepKeepsGood(w, evs[0]);
      StepKeepsInv(w, evs[0]);
      NeverDetaches(Step(w, evs[0]), evs[1..]);
    }
  }

  // The oldest unanswered command is the head's, of its kind, and starts where the head's
  // answers have got to; all but a last packet are whole bytes.
  lemma AnswersFindTheirTransfer(w: World)
    requires Reachable(w) && AnswerPossible(w)
    ensures w.h.sch != [] && w.q[0].job == w.h.sch[0].job && w.q[0].kind == w.h.sch[0].kind
    ensures w.h.sch[0].done + w.q[0].bits <= w.h.sch[0].fi
    ensures w.q[0].kind == Touch ==>
      w.h.sch[0].done % 8 == 0 && (w.q[0].bits % 8 == 0 || w.h.sch[0].done + w.q[0].bits == w.h.sch[0].sc)
  {
    ReachableGood(w);
    OldestIsHeadsPacket(w);
    assert XferOK(w.h.sch[0]);
  }

  lemma CreditIsConserved(w: World)
    requires Reachable(w) && w.up
    ensures w.h.free + Load(w.q) == w.h.len
  {
    ReachableGood(w);
  }

  // The counter of packets on their way is the number of them, so it never goes below zero.
  lemma PacketsAreCounted(w: World, i: nat)
    requires Reachable(w) && w.up && i < |w.h.sch| && w.h.sch[i].kind == Touch
    ensures w.h.sch[i].packets == CountOf(w.q, w.h.sch[i].job) + Receiving(w.h, i)
  {
    ReachableGood(w);
  }

  lemma ListIsSplit(w: World, i: nat)
    requires Reachable(w) && i < |w.h.sch|
    ensures var x := w.h.sch[i];
      && x.done <= x.fi <= x.sc && (x.active <==> x.fi > 0)
      && (i < w.h.cur ==> x.fi == x.sc) && (i == w.h.cur ==> x.fi < x.sc) && (i > w.h.cur ==> x.fi == 0)
  {
    ReachableGood(w);
    assert XferOK(w.h.sch[i]);
  }

  // Sending and receiving share the buffer, bit by bit in whole bytes, and yet what is on
  // the wire is what the user put there, and what was received is all that changed.
  lemma TouchInPlace(w: World, i: nat)
    requires Reachable(w) && i < |w.h.sch| && w.h.sch[i].kind == Touch
    ensures var x := w.h.sch[i]; var sent := Sent(w.trace, x.job); var got := GotBy(w.delivered, x.job);
      && BytesFor(x.fi) <= |x.orig|
      && (!x.detached ==> sent == x.orig[..BytesFor(x.fi)])
      && (!x.detached ==> |got| <= |x.orig| == |x.buf| && x.buf == got + x.orig[|got|..])
      && (x.detached ==>
            && x.cut <= x.fi
            && sent == x.orig[..BytesFor(x.cut)] + seq(BytesFor(x.fi) - BytesFor(x.cut), _ => 0xFF))
  {
    ReachableGood(w);
    assert Told(w.h.sch[i], Sent(w.trace, w.h.sch[i].job), GotBy(w.delivered, w.h.sch[i].job));
  }

  // A touch transfer that succeeded: all bits went out, and the buffer holds what came back.
  lemma SuccessMeans(w: World, k: nat)
    requires Reachable(w) && k < |w.h.log| && w.h.log[k].status == Success && w.h.log[k].x.kind == Touch
    ensures var x := w.h.log[k].x; var got := GotBy(w.delivered, x.job);
      && x.xfrd == x.sc && |got| == |x.orig|
      && (!x.detached ==> Sent(w.trace, x.job) == x.orig && x.buf == got)
  {
    ReachableGood(w);
    var d := w.h.log[k];
    assert Outcome(d) && Told(d.x, Sent(w.trace, d.x.job), GotBy(w.delivered, d.x.job));
    assert d.x.orig[..|d.x.orig|] == d.x.orig && d.x.orig[|d.x.orig|..] == [];
    assert GotBy(w.delivered, d.x.job) + [] == GotBy(w.delivered, d.x.job);
  }

  // A touch transfer that was skipped: all its packets are answered, and what came back
  // before the first skip is in place.
  lemma SkippedMeans(w: World, k: nat)
    requires Reachable(w) && k < |w.h.log| && w.h.log[k].status == Skipped && w.h.log[k].x.kind == Touch
    ensures var x := w.h.log[k].x; var got := GotBy(w.delivered, x.job);
      && x.packets == 0 && x.done == x.fi && x.xfrd < x.fi && |got| == BytesFor(x.xfrd)
      && (!x.detached ==> |got| <= |x.orig| && x.buf == got + x.orig[|got|..])
  {
    ReachableGood(w);
    var d := w.h.log[k];
    assert Outcome(d) && Told(d.x, Sent(w.trace, d.x.job), GotBy(w.delivered, d.x.job));
  }

  // The bytes of a touch answer, one after the other.
  function TakeBytes(h: Host, data: seq<byte>): Option<Host>
    decreases |data|
  {
    if data == [] then Some(h)
    else if !StoreInside(h) || RxByte(h, data[0]).None? then None
    else TakeBytes(RxByte(h, data[0]).value, data[1..])
  }

  // Bytes that do not fill the transfer up leave it where it is, one packet less on its way.
  lemma {:induction false} PacketPasses(h: Host, data: seq<byte>)
    requires h.sch != [] && h.busy.Bytes? && h.busy.left == |data| > 0
    requires h.sch[0].si % 8 == 0 && h.sch[0].si + 8 * |data| < h.sch[0].sc
    requires !h.sch[0].detached ==> |h.sch[0].buf| == BytesFor(h.sch[0].sc)
    ensures var o := TakeBytes(h, data);
      && o.Some? && |o.value.sch| == |h.sch| && o.value.sch[0].job == h.sch[0].job
      && o.value.sch[0].packets == h.sch[0].packets - 1 && o.value.sch[0].skipped == h.sch[0].skipped
      && o.value.busy == Idle && o.value.log == h.log
    decreases |data|
  {
    var x1 := Stored(h.sch[0], data[0]);
    ByteForm(h, data[0], x1);
    if |data| > 1 {
      PacketPasses(RxByte(h, data[0]).value, data[1..]);
    } else {
      assert data[1..] == [];
    }
  }

  // Bytes of which the last one fills the transfer up hand it back.
  lemma {:induction false} PacketFills(h: Host, data: seq<byte>)
    requires h.sch != [] && h.busy.Bytes? && h.busy.left == |data| > 0
    requires h.sch[0].si % 8 == 0 && h.sch[0].si + 8 * (|data| - 1) < h.sch[0].sc <= h.sch[0].si + 8 * |data|
    requires !h.sch[0].detached ==> |h.sch[0].buf| == BytesFor(h.sch[0].sc)
    ensures var o := TakeBytes(h, data);
      o.Some? && |o.value.sch| == |h.sch| - 1 && |o.value.log| == |h.log| + 1 && o.value.busy == Idle
    decreases |data|
  {
    var x1 := Stored(h.sch[0], data[0]);
    ByteForm(h, data[0], x1);
    if |data| > 1 {
      PacketFills(RxByte(h, data[0]).value, data[1..]);
    } else {
      assert data[1..] == [];
    }
  }

  // The bytes of a packet fill the transfer up exactly if it is the transfer's last.
  lemma FillsIfLast(x: Xfr, bits: nat)
    requires XferOK(x) && x.kind == Touch && !x.skipped && x.si == x.done && bits > 0
    requires x.done + bits <= x.sc && (bits % 8 == 0 || x.done + bits == x.sc)
    ensures x.si % 8 == 0 && x.si + 8 * (BytesFor(bits) - 1) < x.sc
    ensures x.done + bits == x.sc <==> x.sc <= x.si + 8 * BytesFor(bits)
  {
  }

  // A full answer to the oldest packet is always taken, and hands the transfer back
  // exactly if the packet completes the transfer and none of its packets was skipped
  // before: the code does not look for a full answer after a skipped one.
  lemma FullAfterSkip(w: World, data: seq<byte>)
    requires Reachable(w) && TouchPossible(w) && |data| == BytesFor(w.q[0].bits)
    ensures w.h.sch != []
    ensures var w1 := OnAnswerFull(w);
      && w1.up
      && var o := TakeBytes(w1.h, data);
      && o.Some?
      && (|o.value.sch| == |w.h.sch| - 1 <==>
            w.gone != Some(w.q[0].job) && w.h.sch[0].done + w.q[0].bits == w.h.sch[0].sc)
      && |o.value.sch| + |o.value.log| == |w.h.sch| + |w.h.log|
  {
    ReachableGood(w);
    if w.gone == Some(w.q[0].job) {
      LeftBehind(w, data);
    } else {
      FullUnskipped(w, data);
    }
  }

  lemma FullUnskipped(w: World, data: seq<byte>)
    requires Inv(w) && TouchPossible(w) && w.gone != Some(w.q[0].job) && |data| == BytesFor(w.q[0].bits)
    ensures w.h.sch != []
    ensures var w1 := OnAnswerFull(w);
      && w1.up
      && var o := TakeBytes(w1.h, data);
      && o.Some?
      && (|o.value.sch| == |w.h.sch| - 1 <==> w.h.sch[0].done + w.q[0].bits == w.h.sch[0].sc)
      && |o.value.sch| + |o.value.log| == |w.h.sch| + |w.h.log|
  {
    OldestIsHeadsPacket(w);
    TouchCredit(w);
    FullForm(w);
    var x := w.h.sch[0];
    assert XferOK(x);
    FillsIfLast(x, w.q[0].bits);
    if x.done + w.q[0].bits == x.sc {
      PacketFills(OnAnswerFull(w).h, data);
    } else {
      PacketPasses(OnAnswerFull(w).h, data);
    }
  }

  // After a skip, a full answer goes to the wrong place and leaves the transfer listed, not
  // least when no packet of it is on its way any more. A skipped answer in its place would
  // have handed it back exactly then.
  lemma LeftBehind(w: World, data: seq<byte>)
    requires Reachable(w) && TouchPossible(w) && w.gone == Some(w.q[0].job)
    requires |data| == BytesFor(w.q[0].bits)
    ensures w.h.sch != []
    ensures var w1 := OnAnswerFull(w);
      && w1.up
      && var o := TakeBytes(w1.h, data);
      && o.Some? && |o.value.sch| == |w.h.sch| && o.value.sch[0].job == w.h.sch[0].job && o.value.log == w.h.log
      && (o.value.sch[0].packets == 0 <==> CountOf(w.q[1..], w.h.sch[0].job) == 0)
    ensures (|OnAnswerSkipped(w).h.sch| == |w.h.sch| - 1) <==> CountOf(w.q[1..], w.h.sch[0].job) == 0
  {
    ReachableGood(w);
    OldestIsHeadsPacket(w);
    TouchCredit(w);
    FullForm(w);
    BehindAfter(w, w.gone);
    assert XferOK(w.h.sch[0]);
    StaysShort(w.h.sch[0], w.q[0].bits);
    PacketPasses(OnAnswerFull(w).h, data);
    SkippedForm(w);
  }

  lemma StaysShort(x: Xfr, bits: nat)
    requires XferOK(x) && x.kind == Touch && x.skipped && x.done + bits <= x.fi && bits > 0
    ensures x.si % 8 == 0 && x.si + 8 * BytesFor(bits) < x.sc
  {
  }

  ghost predicate Lists(h: Host, job: nat) {
    exists k :: 0 <= k < |h.sch| && h.sch[k].job == job
  }

  // Losing the link does not complete 1-Wire transfers, and the user gets a transfer out
  // of the list then, in whatever way, exactly if it is not active.
  lemma LostTransfersStay(w: World, i: nat)
    requires Good(w) && !w.up && i < |w.h.sch|
    ensures (exists evs :: !Lists(Run(w, evs).h, w.h.sch[i].job)) <==> !w.h.sch[i].active
  {
    if w.h.sch[i].active {
      forall evs ensures Lists(Run(w, evs).h, w.h.sch[i].job) {
        ActiveStays(w, evs, i);
      }
    } else {
      InactiveLeaves(w, i);
    }
  }

  lemma InactiveLeaves(w: World, i: nat)
    requires Good(w) && !w.up && i < |w.h.sch| && !w.h.sch[i].active
    ensures exists evs :: !Lists(Run(w, evs).h, w.h.sch[i].job)
  {
    var job := w.h.sch[i].job;
    var ev := UserCancel(job);
    StepKeepsGood(w, ev);
    FirstOfJob(w.h, job, i);
    var w1 := Step(w, ev);
    assert w1.h.sch == Without(w.h.sch, i);
    forall k | 0 <= k < |w1.h.sch| ensures w1.h.sch[k].job != job {
      NoLongerListed(w.h, i, k);
    }
    RunsOne(w, ev, w1);
    assert !Lists(Run(w, [ev]).h, job);
  }

  lemma RunsOne(w: World, ev: Event, w1: World)
    requires Good(w) && (w.up ==> Pumpable(w.h)) && (w.up && w.h.busy.Bytes? ==> StoreInside(w.h))
    requires Step(w, ev) == w1 && Good(w1)
    ensures Run(w, [ev]) == w1
  {
    assert [ev][1..] == [];
    assert Run(w1, []) == w1;
  }

  // What is active when the link is lost stays listed.
  lemma {:induction false} ActiveStays(w: World, evs: seq<Event>, i: nat)
    requires Good(w) && !w.up && i < |w.h.sch| && w.h.sch[i].active
    ensures !Run(w, evs).up && Lists(Run(w, evs).h, w.h.sch[i].job)
    decreases |evs|
  {
    if evs != [] {
      StepKeepsGood(w, evs[0]);
      var w1 := Step(w, evs[0]);
      var k := StaysListed(w, evs[0], i);
      ActiveStays(w1, evs[1..], k);
    }
  }

  lemma SurvivesDestroy(h: Host, job: nat, i: nat) returns (k: nat)
    requires HostOK(h) && i < |h.sch| && h.sch[i].active
    ensures k < |Destroy(h, job).sch| && Destroy(h, job).sch[k].job == h.sch[i].job && Destroy(h, job).sch[k].active
  {
    k := SurvivesCancel(h, job, i);
  }

  // With the link down only a user call changes the list, and only scheduling, cancelling
  // and destroying do.
  lemma DownSteps(w: World, ev: Event)
    requires !w.up && !ev.UserCancel? && !ev.UserDestroy?
    ensures !Step(w, ev).up && |w.h.sch| <= |Step(w, ev).h.sch| && Step(w, ev).h.sch[..|w.h.sch|] == w.h.sch
  {
  }

  lemma StaysListed(w: World, ev: Event, i: nat) returns (k: nat)
    requires Good(w) && !w.up && i < |w.h.sch| && w.h.sch[i].active
    ensures !Step(w, ev).up && k < |Step(w, ev).h.sch|
    ensures Step(w, ev).h.sch[k].job == w.h.sch[i].job && Step(w, ev).h.sch[k].active
  {
    if ev.UserCancel? {
      k := SurvivesCancel(w.h, ev.job, i);
    } else if ev.UserDestroy? {
      k := SurvivesDestroy(w.h, ev.job, i);
    } else {
      DownSteps(w, ev);
      k := i;
      assert Step(w, ev).h.sch[..|w.h.sch|][i] == w.h.sch[i];
    }
  }

  // Only transfers behind the active ones can be cancelled.
  lemma SurvivesCancel(h: Host, job: nat, i: nat) returns (k: nat)
    requires HostOK(h) && i < |h.sch| && h.sch[i].active
    ensures k < |Cancel(h, job).sch| && Cancel(h, job).sch[k] == h.sch[i]
  {
    assert XferOK(h.sch[i]);
    k := i;
  }

  // ---------------------------------------------------------------- progress

  function InWork(b: Busy): nat {
    match b
    case Idle => 0
    case Bytes(left, _) => left
    case Rom(_) => 1
  }

  function Left(sch: seq<Xfr>): nat {
    Unsent(Tracks(sch))
  }

  function Due(q: seq<Packet>): nat {
    Dues(Chunks(q), 2)
  }

  function Measure(w: World): nat {
    4 * Left(w.h.sch) + Due(w.q) + InWork(w.h.busy)
  }

  // A wire event that changes something now.
  predicate Effective(w: World, ev: Event)
    requires w.up ==> Pumpable(w.h)
  {
    w.up && match ev
            case Transmit => TxOne(w.h).Emit?
            case AnswerSingle(_, _) => AnswerPossible(w) && w.q[0].kind != Touch
            case RomArrives => w.h.busy.Rom?
            case AnswerSkipped => TouchPossible(w)
            case AnswerFull => TouchPossible(w) && w.gone != Some(w.q[0].job)
            case Deliver(_) => w.h.busy.Bytes?
            case _ => false
  }

  // Rewriting a transfer, taking the head off, and sending a packet, as Fifo sees them.
  lemma Rewritten(sch: seq<Xfr>, i: nat, x: Xfr)
    requires i < |sch| && x.job == sch[i].job && x.sc == sch[i].sc && sch[i].fi <= x.fi <= x.sc
    ensures Left(sch[i := x]) + (x.fi - sch[i].fi) == Left(sch)
  {
    TracksUpdate(sch, i, x);
    UnsentReplace(Tracks(sch), i, TrackOf(x));
  }

  lemma HeadGone(sch: seq<Xfr>, x: Xfr)
    requires sch != []
    ensures Left(Without(sch[0 := x], 0)) <= Left(sch) && Left(Without(sch, 0)) <= Left(sch)
  {
    TracksUpdate(sch, 0, x);
    TracksWithout(sch[0 := x], 0);
    TracksWithout(sch, 0);
    HeadLeaves(Tracks(sch), TrackOf(x));
  }

  lemma DueAppend(q: seq<Packet>, p: Packet)
    ensures Due(q + [p]) == Due(q) + ChunkOf(p).size + 2
  {
    ChunksSplit(q, p);
    DuesAppend(Chunks(q), 2, ChunkOf(p));
  }

  lemma DueFirst(q: seq<Packet>)
    requires q != []
    ensures Due(q) == ChunkOf(q[0]).size + 2 + Due(q[1..])
  {
    ChunksSplit(q, q[0]);
  }

  lemma TransmitUses(w: World)
    requires Inv(w) && w.up && Pumpable(w.h) && TxOne(w.h).Emit?
    ensures Measure(OnTransmit(w)) < Measure(w)
  {
    var h := w.h;
    TransmitForm(h);
    var x := h.sch[h.cur];
    assert XferOK(x);
    NextFits(h, x);
    Rewritten(h.sch, h.cur, TxOne(h).h.sch[h.cur]);
    DueAppend(w.q, TxOne(h).p);
  }

  lemma SingleUses(w: World, skipped: bool, found: bool)
    requires Inv(w) && AnswerPossible(w) && w.q[0].kind != Touch
    ensures Measure(OnAnswerSingle(w, skipped, found)) < Measure(w)
  {
    DueFirst(w.q);
    OldestIsHeadsPacket(w);
    SingleForm(w, skipped, found);
    HeadGone(w.h.sch, w.h.sch[0]);
  }

  lemma RomUses(w: World)
    requires Inv(w) && w.up && w.h.busy.Rom?
    ensures Measure(Settle(w, RxRom(w.h))) < Measure(w)
  {
    HeadGone(w.h.sch, w.h.sch[0]);
  }

  lemma SkipUses(w: World)
    requires Inv(w) && TouchPossible(w)
    ensures Measure(OnAnswerSkipped(w)) < Measure(w)
  {
    DueFirst(w.q);
    SkipShape(w);
    var x1 := Missed(w.h.sch[0], w.q[0].bits);
    HeadGone(w.h.sch, x1);
    Rewritten(w.h.sch, 0, x1);
  }

  lemma FullUses(w: World)
    requires Inv(w) && TouchPossible(w)
    ensures Measure(OnAnswerFull(w)) < Measure(w)
  {
    DueFirst(w.q);
    TouchCredit(w);
    FullForm(w);
  }

  lemma DeliverUses(w: World, b: byte)
    requires Inv(w) && w.up && w.h.busy.Bytes? && StoreInside(w.h)
    ensures Measure(OnDeliver(w, b)) < Measure(w)
  {
    InHandOK(w);
    var x1 := Stored(w.h.sch[0], b);
    var x2 := Ended(x1, w.h.busy.bits);
    ByteForm(w.h, b, x1);
    HeadGone(w.h.sch, x2.(xfrd := x2.si));
    Rewritten(w.h.sch, 0, x1);
    Rewritten(w.h.sch, 0, x2);
  }

  lemma EffectiveDecreases(w: World, ev: Event)
    requires Inv(w)
    ensures w.up ==> Pumpable(w.h)
    ensures w.up && w.h.busy.Bytes? ==> StoreInside(w.h)
    ensures Effective(w, ev) ==> Measure(Step(w, ev)) < Measure(w)
  {
    InvEnables(w);
    if Effective(w, ev) {
      match ev
      case Transmit => TransmitUses(w);
      case AnswerSingle(s, f) => SingleUses(w, s, f);
      case RomArrives => RomUses(w);
      case AnswerSkipped => SkipUses(w);
      case AnswerFull => FullUses(w);
      case Deliver(b) => DeliverUses(w, b);
    }
  }

  ghost predicate AllEffective(w: World, evs: seq<Event>)
    requires Good(w)
    decreases |evs|
  {
    evs != [] ==>
      (StepKeepsGood(w, evs[0]);
       Effective(w, evs[0]) && AllEffective(Step(w, evs[0]), evs[1..]))
  }

  // The wire comes to rest after finitely many events.
  lemma {:induction false} ProgressIsBounded(w: World, evs: seq<Event>)
    requires Good(w) && AllEffective(w, evs)
    ensures |evs| <= Measure(w)
    decreases |evs|
  {
    if evs != [] {
      StepKeepsGood(w, evs[0]);
      EffectiveDecreases(w, evs[0]);
      ProgressIsBounded(Step(w, evs[0]), evs[1..]);
    }
  }

  // With nothing under way, the pump has something to do for the head.
  lemma IdleHead(w: World)
    requires Inv(w) && w.up && w.h.busy == Idle && w.q == [] && w.h.sch != [] && w.h.len >= 11
    ensures Pumpable(w.h) && TxOne(w.h).Emit?
  {
    InvEnables(w);
    assert XferOK(w.h.sch[0]);
  }

  lemma QueueMoves(w: World)
    requires Inv(w) && AnswerPossible(w)
    ensures TouchPossible(w) || w.q[0].kind != Touch
  {
    OldestIsHeadsPacket(w);
  }

  // At rest, with room for the largest single command, every transfer has been handed back.
  lemma RestMeansDone(w: World)
    requires Good(w) && w.up && w.h.len >= 11
    requires Pumpable(w.h) && forall ev :: !Effective(w, ev)
    ensures w.h.sch == []
  {
    assert !Effective(w, Deliver(0)) && !Effective(w, RomArrives) && !Effective(w, AnswerSkipped);
    assert !Effective(w, AnswerSingle(false, false)) && !Effective(w, Transmit);
    if w.q != [] {
      QueueMoves(w);
      assert false;
    }
    if w.h.sch != [] {
      IdleHead(w);
      assert false;
    }
  }
}
