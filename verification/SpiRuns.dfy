/** Whole runs of the SPI host and a conforming device. */
module SpiRuns {
  import opened Basics
  import opened SpiHost
  import opened SpiWorld
  import opened SpiInvariant
  import opened SpiSteps
  import opened SpiChronicle
  import opened Fifo

  ghost predicate Good(w: World) {
    Inv(w) && Chronicle(w)
  }

  lemma StepKeepsGood(w: World, ev: Event)
    requires Good(w)
    ensures w.up ==> Pumpable(w.h)
    ensures w.up && w.h.left > 0 ==> StoreInside(w.h)
    ensures Good(Step(w, ev))
  {
    StepKeepsInv(w, ev);
    StepKeepsChronicle(w, ev);
  }

  lemma EmptyInv(w: World)
    requires w.h.sch == [] && w.h.cur == 0 && w.q == [] && w.gone == None && w.h.left == 0 && w.h.free == w.h.len
    ensures Inv(w)
  {
  }

  lemma EmptyChronicle(w: World)
    requires w.h.sch == [] && w.h.log == [] && w.trace == [] && w.delivered == map[]
    ensures Chronicle(w)
  {
  }

  lemma StartIsGood()
    ensures Good(START)
  {
    var w :| w == START;
    EmptyInv(w);
    EmptyChronicle(w);
  }

  ghost function Run(w: World, evs: seq<Event>): World
    requires Good(w)
    decreases |evs|
  {
    if evs == [] then w
    else
      StepKeepsGood(w, evs[0]);
      Run(Step(w, evs[0]), evs[1..])
  }

  lemma {:induction false} RunKeepsGood(w: World, evs: seq<Event>)
    requires Good(w)
    ensures Good(Run(w, evs))
    decreases |evs|
  {
    if evs != [] {
      StepKeepsGood(w, evs[0]);
      RunKeepsGood(Step(w, evs[0]), evs[1..]);
    }
  }

  ghost predicate RunsTo(w0: World, w: World)
    requires Good(w0)
  {
    exists evs :: Run(w0, evs) == w
  }

  lemma RunsToGood(w0: World, w: World)
    requires Good(w0) && RunsTo(w0, w)
    ensures Good(w)
  {
    var evs :| Run(w0, evs) == w;
    RunKeepsGood(w0, evs);
  }

  // The states some run from the start leads to.
  ghost predicate Reachable(w: World) {
    StartIsGood();
    RunsTo(START, w)
  }

  lemma ReachableGood(w: World)
    requires Reachable(w)
    ensures Good(w)
  {
    StartIsGood();
    RunsToGood(START, w);
  }

  lemma RunFirst(w: World, evs: seq<Event>)
    requires Good(w) && evs != []
    ensures w.up ==> Pumpable(w.h)
    ensures w.up && w.h.left > 0 ==> StoreInside(w.h)
    ensures Good(Step(w, evs[0])) && Run(w, evs) == Run(Step(w, evs[0]), evs[1..])
  {
    StepKeepsGood(w, evs[0]);
  }

  lemma {:induction false} RunTwice(w: World, a: seq<Event>, b: seq<Event>)
    requires Good(w)
    ensures Good(Run(w, a)) && Run(Run(w, a), b) == Run(w, a + b)
    decreases |a|
  {
    if a == [] {
      assert a + b == b;
    } else {
      assert (a + b)[0] == a[0] && (a + b)[1..] == a[1..] + b;
      RunFirst(w, a);
      RunFirst(w, a + b);
      RunTwice(Step(w, a[0]), a[1..], b);
    }
  }

  lemma RunsOn(w0: World, w: World, evs: seq<Event>)
    requires Good(w0) && RunsTo(w0, w) && Good(w)
    ensures RunsTo(w0, Run(w, evs))
  {
    var before :| Run(w0, before) == w;
    RunTwice(w0, before, evs);
  }

  // A run leads from a reachable state to a reachable state.
  lemma ReachableOn(w: World, evs: seq<Event>)
    requires Reachable(w)
    ensures Good(w) && Reachable(Run(w, evs))
  {
    ReachableGood(w);
    StartIsGood();
    RunsOn(START, w, evs);
  }

  // ---------------------------------------------------------------- safety

  // The host never gives up on a conforming device.
  lemma {:induction false} NeverDetaches(w: World, evs: seq<Event>)
    requires Good(w) && w.up && forall k :: 0 <= k < |evs| ==> !evs[k].LinkLost?
    ensures Run(w, evs).up
    decreases |evs|
  {
    if evs != [] {
      StepKeepsGood(w, evs[0]);
      StepKeepsInv(w, evs[0]);
      NeverDetaches(Step(w, evs[0]), evs[1..]);
    }
  }

  // The oldest unanswered packet is the head's, and starts where the head's answers
  // have got to.
  lemma AnswersFindTheirTransfer(w: World)
    requires Reachable(w) && AnswerPossible(w)
    ensures w.h.sch != [] && w.q[0].job == w.h.sch[0].job && w.q[0].ss == w.h.sch[0].ss
    ensures w.h.sch[0].si + |w.q[0].data| <= w.h.sch[0].fi
    ensures w.q[0].last <==> w.h.sch[0].si + |w.q[0].data| == w.h.sch[0].sc
  {
    ReachableGood(w);
    OldestIsHeadsPacket(w);
  }

  lemma CreditIsConserved(w: World)
    requires Reachable(w) && w.up
    ensures w.h.free + Load(w.q) == w.h.len
  {
    ReachableGood(w);
  }

  // The pump's transfer separates what is sent completely from what is untouched.
  lemma ListIsSplit(w: World, i: nat)
    requires Reachable(w) && i < |w.h.sch|
    ensures var x := w.h.sch[i];
      && x.si <= x.fi <= x.sc && (x.active <==> x.fi > 0)
      && (i < w.h.cur ==> x.fi == x.sc) && (i == w.h.cur ==> x.fi < x.sc) && (i > w.h.cur ==> x.fi == 0)
  {
    ReachableGood(w);
    assert XferOK(w.h.sch[i]);
  }

  // Sending and receiving share the buffer, yet what is on the wire is what the user put
  // there, and what was received is all that changed; at every moment of every run.
  lemma FullDuplexInPlace(w: World, i: nat)
    requires Reachable(w) && i < |w.h.sch|
    ensures var x := w.h.sch[i]; var sent := Sent(w.trace, x.job); var got := GotBy(w.delivered, x.job);
      && x.fi <= |x.orig|
      && (!x.detached ==> sent == x.orig[..x.fi])
      && (!x.detached ==> |got| <= |x.orig| == |x.buf| && x.buf == got + x.orig[|got|..])
      && (x.detached ==> x.cut <= x.fi <= |x.orig| && sent == x.orig[..x.cut] + seq(x.fi - x.cut, _ => 0xFF))
  {
    ReachableGood(w);
    assert Told(w.h.sch[i], Sent(w.trace, w.h.sch[i].job), GotBy(w.delivered, w.h.sch[i].job));
  }

  // A success: all of the user's bytes went out, and the buffer holds what came back.
  lemma SuccessMeans(w: World, k: nat)
    requires Reachable(w) && k < |w.h.log| && w.h.log[k].status == Success
    ensures var x := w.h.log[k].x; var got := GotBy(w.delivered, x.job);
      && x.xfrd == |x.orig| == |got|
      && (!x.detached ==> Sent(w.trace, x.job) == x.orig && x.buf == got)
      && (x.detached ==>
            && x.cut <= |x.orig|
            && Sent(w.trace, x.job) == x.orig[..x.cut] + seq(|x.orig| - x.cut, _ => 0xFF))
  {
    ReachableGood(w);
    var d := w.h.log[k];
    assert Outcome(d) && Told(d.x, Sent(w.trace, d.x.job), GotBy(w.delivered, d.x.job));
    assert d.x.orig[..d.x.sc] == d.x.orig && d.x.orig[d.x.sc..] == [];
    assert GotBy(w.delivered, d.x.job) + [] == GotBy(w.delivered, d.x.job);
  }

  // A skipped transfer: what came back before the skip is in place, the rest is as it was.
  lemma SkippedMeans(w: World, k: nat)
    requires Reachable(w) && k < |w.h.log| && w.h.log[k].status == Skipped
    ensures var x := w.h.log[k].x; var got := GotBy(w.delivered, x.job);
      && x.xfrd == |got| < x.fi <= |x.orig|
      && (!x.detached ==> Sent(w.trace, x.job) == x.orig[..x.fi] && x.buf == got + x.orig[x.xfrd..])
  {
    ReachableGood(w);
    var d := w.h.log[k];
    assert Outcome(d) && Told(d.x, Sent(w.trace, d.x.job), GotBy(w.delivered, d.x.job));
  }

  // The code relies on a device that keeps skipping: a full answer to the oldest packet
  // makes the host give up at its first byte exactly if an earlier packet of the same
  // transfer was skipped.
  lemma FullAfterSkip(w: World, b: byte)
    requires Reachable(w) && AnswerPossible(w)
    ensures var w1 := OnAnswerFull(w);
      && w1.up && StoreInside(w1.h)
      && (OnDeliver(w1, b).up <==> w.gone != Some(w.q[0].job))
  {
    ReachableGood(w);
    OldestIsHeadsPacket(w);
    CreditComesBack(w);
    assert XferOK(w.h.sch[0]);
  }

  function CancelledAll(sch: seq<Xfr>): seq<Done> {
    if sch == [] then [] else [Done(sch[0], Cancelled)] + CancelledAll(sch[1..])
  }

  // Losing the link empties the list and cancels every transfer once, in order.
  lemma {:induction false} DetachDrains(h: Host)
    ensures var h1 := CompleteAll(h);
      h1.sch == [] && (h.cur <= |h.sch| ==> h1.cur == 0) && h1.log == h.log + CancelledAll(h.sch)
    decreases |h.sch|
  {
    if |h.sch| == 0 {
      assert h.log + [] == h.log;
    } else {
      assert Without(h.sch, 0) == h.sch[1..];
      DetachDrains(Complete(h, 0, Cancelled));
      Associative(h.log, [Done(h.sch[0], Cancelled)], CancelledAll(h.sch[1..]));
    }
  }

  // ---------------------------------------------------------------- progress

  function Left(sch: seq<Xfr>): nat {
    Unsent(Tracks(sch))
  }

  function Due(q: seq<Packet>): nat {
    Dues(Chunks(q), 1)
  }

  function Measure(w: World): nat {
    3 * Left(w.h.sch) + Due(w.q) + w.h.left
  }

  // A wire event that changes something now.
  predicate Effective(w: World, ev: Event)
    requires w.up ==> Pumpable(w.h)
  {
    w.up && match ev
            case Transmit => TxOne(w.h).Emit?
            case AnswerSkipped => AnswerPossible(w)
            case AnswerFull => AnswerPossible(w) && w.gone != Some(w.q[0].job)
            case Deliver(_) => w.h.left > 0
            case _ => false
  }

  // Rewriting a transfer, taking the head off, and sending a packet, as Fifo sees them.
  lemma Rewritten(sch: seq<Xfr>, i: nat, x: Xfr)
    requires i < |sch| && x.job == sch[i].job && x.sc == sch[i].sc && sch[i].fi <= x.fi <= x.sc
    ensures Left(sch[i := x]) + (x.fi - sch[i].fi) == Left(sch)
  {
    TracksUpdate(sch, i, x);
    UnsentReplace(Tracks(sch), i, TrackOf(x));
  }

  lemma HeadGone(sch: seq<Xfr>, x: Xfr)
    requires sch != []
    ensures Left(Without(sch[0 := x], 0)) <= Left(sch) && Left(Without(sch, 0)) <= Left(sch)
  {
    TracksUpdate(sch, 0, x);
    TracksWithout(sch[0 := x], 0);
    TracksWithout(sch, 0);
    HeadLeaves(Tracks(sch), TrackOf(x));
  }

  lemma DueAppend(q: seq<Packet>, p: Packet)
    ensures Due(q + [p]) == Due(q) + ChunkOf(p).size + 1
  {
    ChunksSplit(q, p);
    DuesAppend(Chunks(q), 1, ChunkOf(p));
  }

  lemma DueFirst(q: seq<Packet>)
    requires q != []
    ensures Due(q) == ChunkOf(q[0]).size + 1 + Due(q[1..])
  {
    ChunksSplit(q, q[0]);
  }

  lemma TransmitUses(w: World)
    requires Inv(w) && w.up && Pumpable(w.h) && TxOne(w.h).Emit?
    ensures Measure(OnTransmit(w)) < Measure(w)
  {
    var h := w.h;
    Rewritten(h.sch, h.cur, TxOne(h).h.sch[h.cur]);
    DueAppend(w.q, TxOne(h).p);
  }

  lemma SkipUses(h: Host, cnt: nat)
    requires HostOK(h) && h.sch != [] && cnt > 0 && h.sch[0].si + cnt <= h.sch[0].fi
    ensures RxSkip(h, cnt).Some?
    ensures var h1 := RxSkip(h, cnt).value; Left(h1.sch) <= Left(h.sch) && h1.left == h.left
  {
    SkippedForm(h, cnt);
    HeadGone(h.sch, Missed(h.sch[0], cnt));
    HasSizes(h);
    Rewritten(h.sch, 0, Missed(h.sch[0], cnt));
  }

  lemma SkipAnswerUses(w: World)
    requires Inv(w) && AnswerPossible(w)
    ensures Measure(OnAnswerSkipped(w)) < Measure(w)
  {
    DueFirst(w.q);
    SkipShape(w);
    var cnt := |w.q[0].data|;
    CreditKeepsHost(w.h, w.h.free + cnt + 2);
    SkipUses(w.h.(free := w.h.free + cnt + 2), cnt);
  }

  lemma DeliverUses(w: World, b: byte)
    requires Inv(w) && w.up && w.h.left > 0 && StoreInside(w.h) && RxByte(w.h, b).Some?
    ensures Measure(OnDeliver(w, b)) < Measure(w)
  {
    var x1 := Stored(w.h.sch[0], b);
    HeadGone(w.h.sch, x1.(xfrd := x1.si));
    HasSizes(w.h);
    Rewritten(w.h.sch, 0, x1);
  }

  lemma EffectiveDecreases(w: World, ev: Event)
    requires Inv(w)
    ensures w.up ==> Pumpable(w.h)
    ensures w.up && w.h.left > 0 ==> StoreInside(w.h)
    ensures Effective(w, ev) ==> Measure(Step(w, ev)) < Measure(w)
  {
    InvEnables(w);
    if Effective(w, ev) {
      match ev
      case Transmit => TransmitUses(w);
      case AnswerSkipped => SkipAnswerUses(w);
      case AnswerFull => DueFirst(w.q); CreditComesBack(w);
      case Deliver(b) => DeliverKeeps(w, b); DeliverUses(w, b);
    }
  }

  ghost predicate AllEffective(w: World, evs: seq<Event>)
    requires Good(w)
    decreases |evs|
  {
    evs != [] ==>
      (StepKeepsGood(w, evs[0]);
       Effective(w, evs[0]) && AllEffective(Step(w, evs[0]), evs[1..]))
  }

  // The wire comes to rest after finitely many events.
  lemma {:induction false} ProgressIsBounded(w: World, evs: seq<Event>)
    requires Good(w) && AllEffective(w, evs)
    ensures |evs| <= Measure(w)
    decreases |evs|
  {
    if evs != [] {
      StepKeepsGood(w, evs[0]);
      EffectiveDecreases(w, evs[0]);
      ProgressIsBounded(Step(w, evs[0]), evs[1..]);
    }
  }

  // With nothing under way, the pump has something to do for the head.
  lemma IdleHead(w: World)
    requires Inv(w) && w.up && w.h.left == 0 && w.q == [] && w.h.sch != [] && w.h.len >= 3
    ensures Pumpable(w.h) && TxOne(w.h).Emit?
  {
    assert XferOK(w.h.sch[0]);
  }

  // At rest, with room for the smallest packet, every transfer has been handed back.
  lemma RestMeansDone(w: World)
    requires Good(w) && w.up && w.h.len >= 3
    requires Pumpable(w.h) && forall ev :: !Effective(w, ev)
    ensures w.h.sch == []
  {
    assert !Effective(w, Deliver(0)) && !Effective(w, AnswerSkipped) && !Effective(w, Transmit);
    assert w.q == [] && w.h.left == 0;
    if w.h.sch != [] {
      IdleHead(w);
      assert false;
    }
  }
}
