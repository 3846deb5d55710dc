/** What stays with a 1-Wire transfer through a run. */
module OwLineage {
  import opened Basics
  import opened OwHost
  import opened OwWorld
  import opened OwSteps
  import opened OwChronicle
  import opened OwRuns
  import opened Lineage

  // What the user asks for: the kind, strong pull-up, what follows the command, and the units.
  datatype Asked = Asked(kind: Kind, spu: bool, args: Args, sc: nat)

  function LifeOf(x: Xfr): Life<Asked> {
    Life(x.job, Asked(x.kind, x.spu, x.args, x.sc), x.orig, x.active, x.detached, x.fi, x.cut, x.buf)
  }

  function Lives(sch: seq<Xfr>): (r: seq<Life<Asked>>)
    ensures |r| == |sch| && forall i :: 0 <= i < |sch| ==> r[i] == LifeOf(sch[i])
  {
    seq(|sch|, i requires 0 <= i < |sch| => LifeOf(sch[i]))
  }

  function LoggedLives(log: seq<Done>): (r: seq<Life<Asked>>)
    ensures |r| == |log| && forall i :: 0 <= i < |log| ==> r[i] == LifeOf(log[i].x)
  {
    seq(|log|, i requires 0 <= i < |log| => LifeOf(log[i].x))
  }

  function CensusOf(h: Host): Census<Asked> {
    Census(Lives(h.sch), LoggedLives(h.log), h.nextJob)
  }

  // ---------------------------------------------------------------- one step

  lemma SameLives(h: Host, h1: Host)
    requires h1.sch == h.sch && h1.log == h.log && h1.nextJob == h.nextJob
    ensures Evolves(CensusOf(h), CensusOf(h1))
  {
    SameEvolves(CensusOf(h));
  }

  lemma RewriteEvolves(h: Host, h1: Host, i: nat, x1: Xfr)
    requires i < |h.sch| && Heir(LifeOf(h.sch[i]), LifeOf(x1))
    requires h1.sch == h.sch[i := x1] && h1.log == h.log && h1.nextJob == h.nextJob
    ensures Evolves(CensusOf(h), CensusOf(h1))
  {
    ReplaceEvolves(CensusOf(h), i, LifeOf(x1));
    assert Lives(h1.sch) == Lives(h.sch)[i := LifeOf(x1)];
  }

  // Transfer i is handed back, changed in the moment it completes.
  lemma HandBackEvolves(h: Host, h1: Host, i: nat, x1: Xfr, status: Status)
    requires i < |h.sch| && Heir(LifeOf(h.sch[i]), LifeOf(x1))
    requires h1.sch == Without(h.sch, i) && h1.log == h.log + [Done(x1, status)] && h1.nextJob == h.nextJob
    ensures Evolves(CensusOf(h), CensusOf(h1))
  {
    TakenEvolves(CensusOf(h), i, LifeOf(x1));
    assert Lives(h1.sch) == Without(Lives(h.sch), i);
    assert LoggedLives(h1.log) == LoggedLives(h.log) + [LifeOf(x1)];
  }

  lemma ScheduleEvolves(h: Host, r: Request)
    ensures Evolves(CensusOf(h), CensusOf(Schedule(h, r)))
  {
    SameLives(h, h);
    if MaySchedule(h, r) {
      var x := NewXfr(h, r);
      AddedEvolves(CensusOf(h), LifeOf(x));
      assert Lives(h.sch + [x]) == Lives(h.sch) + [LifeOf(x)];
    }
  }

  lemma CancelEvolves(h: Host, job: nat)
    ensures Evolves(CensusOf(h), CensusOf(Cancel(h, job))) && Cancel(h, job).nextJob == h.nextJob
  {
    SameLives(h, h);
    var i := IndexOf(h.sch, job);
    if i < |h.sch| {
      HandBackEvolves(h, Complete(h, i, Cancelled), i, h.sch[i], Cancelled);
    }
  }

  lemma DestroyEvolves(w: World, job: nat)
    requires Inv(w)
    ensures Evolves(CensusOf(w.h), CensusOf(Destroy(w.h, job)))
  {
    var h1 := Cancel(w.h, job);
    CancelKeeps(w, job);
    CancelEvolves(w.h, job);
    var i := IndexOf(h1.sch, job);
    if i < |h1.sch| {
      RewriteEvolves(h1, Destroy(w.h, job), i, Detach(h1.sch[i]));
      EvolvesOn(CensusOf(w.h), CensusOf(h1), CensusOf(Destroy(w.h, job)));
    }
  }

  lemma TransmitEvolves(h: Host)
    requires Pumpable(h) && TxOne(h).Emit?
    ensures Evolves(CensusOf(h), CensusOf(TxOne(h).h))
  {
    TransmitForm(h);
    RewriteEvolves(h, TxOne(h).h, h.cur, TxOne(h).h.sch[h.cur]);
  }

  // The answers that complete the head as it is.
  lemma HeadEvolves(h: Host, h1: Host, status: Status)
    requires h.sch != [] && h1.sch == Without(h.sch, 0) && h1.log == h.log + [Done(h.sch[0], status)]
    requires h1.nextJob == h.nextJob
    ensures Evolves(CensusOf(h), CensusOf(h1))
  {
    HandBackEvolves(h, h1, 0, h.sch[0], status);
  }

  lemma SingleEvolves(w: World, skipped: bool, found: bool)
    requires Inv(w) && AnswerPossible(w) && w.q[0].kind != Touch
    ensures Evolves(CensusOf(w.h), CensusOf(OnAnswerSingle(w, skipped, found).h))
  {
    OldestIsHeadsPacket(w);
    SingleForm(w, skipped, found);
    if w.q[0].kind == Enum && found {
      SameLives(w.h, OnAnswerSingle(w, skipped, found).h);
    } else {
      HeadEvolves(w.h, OnAnswerSingle(w, skipped, found).h, StatusOf(skipped));
    }
  }

  lemma RomEvolves(w: World)
    requires Inv(w) && w.up && w.h.busy.Rom?
    ensures Evolves(CensusOf(w.h), CensusOf(Settle(w, RxRom(w.h)).h))
  {
    HeadEvolves(w.h, RxRom(w.h).value, StatusOf(w.h.busy.skippedRom));
  }

  lemma SkippedEvolves(w: World)
    requires Inv(w) && TouchPossible(w)
    ensures Evolves(CensusOf(w.h), CensusOf(OnAnswerSkipped(w).h))
  {
    SkipShape(w);
    var h0 := w.h.(free := w.h.free + Cost(w.q[0]));
    SkipEvolves(w.h, h0, w.q[0].bits);
    SkippedIs(w, RxTouchSkip(h0, w.q[0].bits).value);
  }

  lemma SkippedIs(w: World, h1: Host)
    requires w.q != [] && w.q[0].bits > 0 && OnTouchSkipped(w.h, w.q[0].spu, w.q[0].bits) == Some(h1)
    ensures OnAnswerSkipped(w).h == h1
  {
  }

  lemma SkipEvolves(h: Host, h0: Host, bits: nat)
    requires h.sch != [] && h0.sch == h.sch && h0.log == h.log && h0.nextJob == h.nextJob
    ensures RxTouchSkip(h0, bits).Some? && Evolves(CensusOf(h), CensusOf(RxTouchSkip(h0, bits).value))
  {
    var x1 := Missed(h0.sch[0], bits);
    if x1.packets == 0 {
      HeadForgotten(h0, x1, Skipped);
      HandBackEvolves(h, RxTouchSkip(h0, bits).value, 0, x1, Skipped);
    } else {
      RewriteEvolves(h, RxTouchSkip(h0, bits).value, 0, x1);
    }
  }

  lemma FullEvolves(w: World)
    requires Inv(w) && TouchPossible(w)
    ensures Evolves(CensusOf(w.h), CensusOf(OnAnswerFull(w).h))
  {
    TouchCredit(w);
    FullForm(w);
    SameLives(w.h, OnAnswerFull(w).h);
  }

  lemma DeliverEvolves(w: World, b: byte)
    requires Inv(w) && w.up && w.h.busy.Bytes? && StoreInside(w.h)
    ensures Evolves(CensusOf(w.h), CensusOf(OnDeliver(w, b).h))
  {
    InHandOK(w);
    ByteEvolves(w.h, b, Stored(w.h.sch[0], b));
  }

  lemma ByteEvolves(h: Host, b: byte, x1: Xfr)
    requires StoreInside(h) && h.sch != [] && x1 == Stored(h.sch[0], b)
    ensures RxByte(h, b).Some? && Evolves(CensusOf(h), CensusOf(RxByte(h, b).value))
  {
    ByteForm(h, b, x1);
    var x2 := Ended(x1, h.busy.bits);
    if h.busy.left > 1 {
      RewriteEvolves(h, RxByte(h, b).value, 0, x1);
    } else if x2.si == x2.sc {
      var x3 := x2.(xfrd := x2.si);
      HeadForgotten(h.(busy := Idle), x3, Success);
      HandBackEvolves(h, RxByte(h, b).value, 0, x3, Success);
    } else {
      RewriteEvolves(h, RxByte(h, b).value, 0, x2);
    }
  }

  lemma WireEvolves(w: World, ev: Event)
    requires Inv(w) && !ev.UserSchedule? && !ev.UserCancel? && !ev.UserDestroy?
    requires (w.up ==> Pumpable(w.h)) && (w.up && w.h.busy.Bytes? ==> StoreInside(w.h))
    ensures Evolves(CensusOf(w.h), CensusOf(Step(w, ev).h))
  {
    SameLives(w.h, w.h);
    match ev
    case Transmit => if w.up && TxOne(w.h).Emit? { TransmitEvolves(w.h); }
    case AnswerSingle(s, f) => if AnswerPossible(w) && w.q[0].kind != Touch { SingleEvolves(w, s, f); }
    case RomArrives => if w.up && w.h.busy.Rom? { RomEvolves(w); }
    case AnswerSkipped => if TouchPossible(w) { SkippedEvolves(w); }
    case AnswerFull => if TouchPossible(w) { FullEvolves(w); }
    case Deliver(b) => if w.up && w.h.busy.Bytes? { DeliverEvolves(w, b); }
    case InfoBlock(_, _) => SameLives(w.h, Step(w, ev).h);
    case LinkLost =>
  }

  lemma StepEvolves(w: World, ev: Event)
    requires Inv(w)
    ensures w.up ==> Pumpable(w.h)
    ensures w.up && w.h.busy.Bytes? ==> StoreInside(w.h)
    ensures Evolves(CensusOf(w.h), CensusOf(Step(w, ev).h))
  {
    InvEnables(w);
    match ev
    case UserSchedule(r) => ScheduleEvolves(w.h, r);
    case UserCancel(job) => CancelEvolves(w.h, job);
    case UserDestroy(job) => DestroyEvolves(w, job);
    case _ => WireEvolves(w, ev);
  }

  // ---------------------------------------------------------------- whole runs

  lemma {:induction false} RunBecomes(w: World, evs: seq<Event>, x: Life<Asked>)
    requires Good(w) && Becomes(x, CensusOf(w.h))
    ensures Becomes(x, CensusOf(Run(w, evs).h))
    decreases |evs|
  {
    if evs != [] {
      StepKeepsGood(w, evs[0]);
      StepEvolves(w, evs[0]);
      EvolvesBecomes(x, CensusOf(w.h), CensusOf(Step(w, evs[0]).h));
      RunBecomes(Step(w, evs[0]), evs[1..], x);
    }
  }

  lemma ListedLives(w: World, i: nat)
    requires Good(w) && i < |w.h.sch|
    ensures Becomes(LifeOf(w.h.sch[i]), CensusOf(w.h))
  {
    forall k | 0 <= k < |w.h.sch| && k != i ensures w.h.sch[k].job != w.h.sch[i].job {
      JobsDiffer(w.h, i, k);
    }
    assert Unique(CensusOf(w.h), i);
    ListedBecomes(CensusOf(w.h), i);
  }

  // A transfer stands for what the user asked for when scheduling it, as long as it lives.
  lemma RequestIsKept(w: World, r: Request, evs: seq<Event>)
    requires Good(w) && MaySchedule(w.h, r)
    ensures var w1 := w.(h := Schedule(w.h, r));
      && Good(w1)
      && var h := Run(w1, evs).h; var x := NewXfr(w.h, r);
         && (forall i :: 0 <= i < |h.sch| && h.sch[i].job == x.job ==> Stands(h.sch[i], x))
         && (forall k :: 0 <= k < |h.log| && h.log[k].x.job == x.job ==> Stands(h.log[k].x, x))
  {
    StepKeepsGood(w, UserSchedule(r));
    var w1 := w.(h := Schedule(w.h, r));
    var x := NewXfr(w.h, r);
    ListedLives(w1, |w.h.sch|);
    RunBecomes(w1, evs, LifeOf(x));
    HeirsStand(x, Run(w1, evs).h);
  }

  // x1 is for the same request as x.
  predicate Stands(x1: Xfr, x: Xfr) {
    x1.kind == x.kind && x1.spu == x.spu && x1.args == x.args && x1.sc == x.sc && x1.orig == x.orig
  }

  lemma HeirsStand(x: Xfr, h: Host)
    requires Becomes(LifeOf(x), CensusOf(h))
    ensures forall i :: 0 <= i < |h.sch| && h.sch[i].job == x.job ==> Stands(h.sch[i], x)
    ensures forall k :: 0 <= k < |h.log| && h.log[k].x.job == x.job ==> Stands(h.log[k].x, x)
  {
    forall i | 0 <= i < |h.sch| && h.sch[i].job == x.job ensures Stands(h.sch[i], x) {
      assert Heir(LifeOf(x), CensusOf(h).listed[i]);
    }
    forall k | 0 <= k < |h.log| && h.log[k].x.job == x.job ensures Stands(h.log[k].x, x) {
      assert Heir(LifeOf(x), CensusOf(h).logged[k]);
    }
  }

  // ---------------------------------------------------------------- deferred destroy

  // What was sent for a destroyed transfer: the user's bytes up to the cut, then filler.
  function Spoken(x: Life<Asked>): seq<byte> {
    Front(x.orig, BytesFor(x.cut)) + Filler(BytesFor(x.sent) - BytesFor(x.cut))
  }

  lemma ToldSpeaks(x: Xfr, sent: seq<byte>, got: seq<byte>)
    requires Told(x, sent, got) && x.detached && x.kind == Touch
    ensures sent == Spoken(LifeOf(x))
  {
    var n := BytesFor(x.fi) - BytesFor(x.cut);
    assert Filler(n) == seq(n, _ => 0xFF);
  }

  lemma SaysFiller(x: Life<Asked>, x1: Xfr, sent: seq<byte>, got: seq<byte>)
    requires Heir(x, LifeOf(x1)) && x.detached && x.cut <= x.sent && Told(x1, sent, got) && x1.kind == Touch
    ensures OnlyFiller(Spoken(x), sent)
  {
    ToldSpeaks(x1, sent, got);
    Grows(x, x1.fi);
  }

  lemma SentSince(w: World, x: Life<Asked>)
    requires Good(w) && Becomes(x, CensusOf(w.h)) && x.detached && x.cut <= x.sent
    requires x.asked.kind == Touch
    ensures OnlyFiller(Spoken(x), Sent(w.trace, x.job))
  {
    var c := CensusOf(w.h);
    if i :| 0 <= i < |c.listed| && c.listed[i].job == x.job {
      SaysFiller(x, w.h.sch[i], Sent(w.trace, x.job), GotBy(w.delivered, x.job));
    } else {
      var k :| 0 <= k < |c.logged| && c.logged[k].job == x.job;
      SaysFiller(x, w.h.log[k].x, Sent(w.trace, x.job), GotBy(w.delivered, x.job));
    }
  }

  lemma Grows(x: Life<Asked>, sent: nat)
    requires x.cut <= x.sent <= sent
    ensures OnlyFiller(Spoken(x), Front(x.orig, BytesFor(x.cut)) + Filler(BytesFor(sent) - BytesFor(x.cut)))
  {
    FillerGrows(Front(x.orig, BytesFor(x.cut)), BytesFor(x.sent) - BytesFor(x.cut), BytesFor(sent) - BytesFor(x.cut));
  }

  lemma DestroyMarks(w: World, i: nat)
    requires Inv(w) && i < |w.h.sch| && w.h.sch[i].active
    ensures Destroy(w.h, w.h.sch[i].job) == w.h.(sch := w.h.sch[i := Detach(w.h.sch[i])])
  {
    FirstOfJob(w.h, w.h.sch[i].job, i);
  }

  lemma DestroyedBecomes(w: World, i: nat, w1: World)
    requires Good(w) && i < |w.h.sch| && w.h.sch[i].active
    requires w1 == w.(h := Destroy(w.h, w.h.sch[i].job))
    ensures Good(w1) && Becomes(LifeOf(Detach(w.h.sch[i])), CensusOf(w1.h))
  {
    StepKeepsGood(w, UserDestroy(w.h.sch[i].job));
    DestroyMarks(w, i);
    ListedLives(w1, i);
  }

  // Once the user has destroyed an active touch transfer, whatever the host still sends for
  // it is 0xFF, however the run goes on.
  lemma NothingButFiller(w: World, i: nat, evs: seq<Event>)
    requires Good(w) && i < |w.h.sch| && w.h.sch[i].active && w.h.sch[i].kind == Touch
    ensures var job := w.h.sch[i].job; var w1 := w.(h := Destroy(w.h, job));
      Good(w1) && OnlyFiller(Sent(w.trace, job), Sent(Run(w1, evs).trace, job))
  {
    var x := LifeOf(Detach(w.h.sch[i]));
    var w1 := w.(h := Destroy(w.h, w.h.sch[i].job));
    DestroyedBecomes(w, i, w1);
    DestroyMarks(w, i);
    assert XferOK(w1.h.sch[i]);
    assert Told(w1.h.sch[i], Sent(w1.trace, x.job), GotBy(w1.delivered, x.job));
    ToldSpeaks(w1.h.sch[i], Sent(w1.trace, x.job), GotBy(w1.delivered, x.job));
    RunBecomes(w1, evs, x);
    RunKeepsGood(w1, evs);
    SentSince(Run(w1, evs), x);
  }

  // Once the user has destroyed an active transfer, the host never again writes to its
  // buffer, nor does the mark of how much had been sent by then change.
  lemma BufferIsLeftAlone(w: World, i: nat, evs: seq<Event>)
    requires Good(w) && i < |w.h.sch| && w.h.sch[i].active && !w.h.sch[i].detached
    ensures var x := w.h.sch[i]; var w1 := w.(h := Destroy(w.h, x.job));
      && Good(w1)
      && var h := Run(w1, evs).h;
         && (forall k :: 0 <= k < |h.sch| && h.sch[k].job == x.job ==> AsTaken(h.sch[k], x))
         && (forall k :: 0 <= k < |h.log| && h.log[k].x.job == x.job ==> AsTaken(h.log[k].x, x))
  {
    var x := w.h.sch[i];
    var w1 := w.(h := Destroy(w.h, x.job));
    DestroyedBecomes(w, i, w1);
    RunBecomes(w1, evs, LifeOf(Detach(x)));
    var c := CensusOf(Run(w1, evs).h);
    forall k | 0 <= k < |c.listed| && c.listed[k].job == x.job ensures AsTaken(Run(w1, evs).h.sch[k], x) {
      assert Heir(LifeOf(Detach(x)), c.listed[k]);
    }
    forall k | 0 <= k < |c.logged| && c.logged[k].job == x.job ensures AsTaken(Run(w1, evs).h.log[k].x, x) {
      assert Heir(LifeOf(Detach(x)), c.logged[k]);
    }
  }

  // x1 is as the user took x back.
  predicate AsTaken(x1: Xfr, x: Xfr) {
    x1.detached && x1.cut == x.fi && x1.buf == x.buf
  }
}
