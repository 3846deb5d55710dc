/** What stays with an SPI transfer through a run. */
module SpiLineage {
  import opened Basics
  import opened SpiHost
  import opened SpiWorld
  import opened SpiInvariant
  import opened SpiSteps
  import opened SpiChronicle
  import opened SpiRuns
  import opened Lineage

  // The slave select line and the number of bytes are what the user asks for.
  type Asked = (nat, nat)

  function LifeOf(x: Xfr): Life<Asked> {
    Life(x.job, (x.ss, x.sc), x.orig, x.active, x.detached, x.fi, x.cut, x.buf)
  }

  function Lives(sch: seq<Xfr>): (r: seq<Life<Asked>>)
    ensures |r| == |sch| && forall i :: 0 <= i < |sch| ==> r[i] == LifeOf(sch[i])
  {
    seq(|sch|, i requires 0 <= i < |sch| => LifeOf(sch[i]))
  }

  function LoggedLives(log: seq<Done>): (r: seq<Life<Asked>>)
    ensures |r| == |log| && forall i :: 0 <= i < |log| ==> r[i] == LifeOf(log[i].x)
  {
    seq(|log|, i requires 0 <= i < |log| => LifeOf(log[i].x))
  }

  function CensusOf(h: Host): Census<Asked> {
    Census(Lives(h.sch), LoggedLives(h.log), h.nextJob)
  }

  // ---------------------------------------------------------------- one step

  lemma SameLives(h: Host, h1: Host)
    requires h1.sch == h.sch && h1.log == h.log && h1.nextJob == h.nextJob
    ensures Evolves(CensusOf(h), CensusOf(h1))
  {
    SameEvolves(CensusOf(h));
  }

  lemma RewriteEvolves(h: Host, h1: Host, i: nat, x1: Xfr)
    requires i < |h.sch| && Heir(LifeOf(h.sch[i]), LifeOf(x1))
    requires h1.sch == h.sch[i := x1] && h1.log == h.log && h1.nextJob == h.nextJob
    ensures Evolves(CensusOf(h), CensusOf(h1))
  {
    ReplaceEvolves(CensusOf(h), i, LifeOf(x1));
    assert Lives(h1.sch) == Lives(h.sch)[i := LifeOf(x1)];
  }

  // Transfer i is handed back, changed in the moment it completes.
  lemma HandBackEvolves(h: Host, h1: Host, i: nat, x1: Xfr, status: Status)
    requires i < |h.sch| && Heir(LifeOf(h.sch[i]), LifeOf(x1))
    requires h1.sch == Without(h.sch, i) && h1.log == h.log + [Done(x1, status)] && h1.nextJob == h.nextJob
    ensures Evolves(CensusOf(h), CensusOf(h1))
  {
    TakenEvolves(CensusOf(h), i, LifeOf(x1));
    assert Lives(h1.sch) == Without(Lives(h.sch), i);
    assert LoggedLives(h1.log) == LoggedLives(h.log) + [LifeOf(x1)];
  }

  lemma ScheduleEvolves(h: Host, buf: seq<byte>, ss: nat)
    ensures Evolves(CensusOf(h), CensusOf(Schedule(h, buf, ss)))
  {
    SameLives(h, h);
    if ss <= 3 && |buf| > 0 {
      var x := NewXfr(h, buf, ss);
      AddedEvolves(CensusOf(h), LifeOf(x));
      assert Lives(h.sch + [x]) == Lives(h.sch) + [LifeOf(x)];
    }
  }

  lemma CancelEvolves(h: Host, job: nat)
    ensures Evolves(CensusOf(h), CensusOf(Cancel(h, job))) && Cancel(h, job).nextJob == h.nextJob
  {
    SameLives(h, h);
    var i := IndexOf(h.sch, job);
    if i < |h.sch| {
      HandBackEvolves(h, Complete(h, i, Cancelled), i, h.sch[i], Cancelled);
    }
  }

  lemma DestroyEvolves(w: World, job: nat)
    requires Inv(w)
    ensures Evolves(CensusOf(w.h), CensusOf(Destroy(w.h, job)))
  {
    var h1 := Cancel(w.h, job);
    CancelKeeps(w, job);
    CancelEvolves(w.h, job);
    var i := IndexOf(h1.sch, job);
    if i < |h1.sch| {
      RewriteEvolves(h1, Destroy(w.h, job), i, Detach(h1.sch[i]));
      EvolvesOn(CensusOf(w.h), CensusOf(h1), CensusOf(Destroy(w.h, job)));
    }
  }

  lemma {:induction false} CompleteAllEvolves(h: Host)
    requires HostOK(h)
    ensures Evolves(CensusOf(h), CensusOf(CompleteAll(h)))
    decreases |h.sch|
  {
    SameLives(h, h);
    if |h.sch| > 0 {
      var h1 := Complete(h, 0, Cancelled);
      HandBackEvolves(h, h1, 0, h.sch[0], Cancelled);
      CompleteKeepsHost(h, 0, Cancelled);
      CompleteAllEvolves(h1);
      EvolvesOn(CensusOf(h), CensusOf(h1), CensusOf(CompleteAll(h1)));
    }
  }

  lemma TransmitEvolves(h: Host)
    requires Pumpable(h) && TxOne(h).Emit?
    ensures Evolves(CensusOf(h), CensusOf(TxOne(h).h))
  {
    TransmitForm(h);
    RewriteEvolves(h, TxOne(h).h, h.cur, TxOne(h).h.sch[h.cur]);
  }

  lemma SkippedEvolves(w: World)
    requires Inv(w) && AnswerPossible(w)
    ensures Evolves(CensusOf(w.h), CensusOf(OnAnswerSkipped(w).h))
  {
    SkipShape(w);
    SkippedVia(w, w.h.(free := w.h.free + |w.q[0].data| + 2), |w.q[0].data|);
  }

  lemma SkippedVia(w: World, h0: Host, cnt: nat)
    requires w.q != [] && cnt == |w.q[0].data| && OnSkipped(w.h, w.q[0].ss, cnt) == RxSkip(h0, cnt)
    requires w.h.sch != [] && w.h.sch[0].si + cnt <= w.h.sch[0].fi
    requires h0.sch == w.h.sch && h0.log == w.h.log && h0.nextJob == w.h.nextJob
    ensures Evolves(CensusOf(w.h), CensusOf(OnAnswerSkipped(w).h))
  {
    var h1 := SkipEvolves(w.h, h0, cnt);
    SkippedIs(w, h1);
  }

  lemma SkippedIs(w: World, h1: Host)
    requires w.q != [] && OnSkipped(w.h, w.q[0].ss, |w.q[0].data|) == Some(h1)
    ensures OnAnswerSkipped(w).h == h1
  {
  }

  lemma SkipEvolves(h: Host, h0: Host, cnt: nat) returns (h1: Host)
    requires h.sch != [] && h.sch[0].si + cnt <= h.sch[0].fi
    requires h0.sch == h.sch && h0.log == h.log && h0.nextJob == h.nextJob
    ensures RxSkip(h0, cnt) == Some(h1) && Evolves(CensusOf(h), CensusOf(h1))
  {
    SkippedForm(h0, cnt);
    h1 := RxSkip(h0, cnt).value;
    var x1 := Missed(h0.sch[0], cnt);
    if h0.sch[0].si + cnt == h0.sch[0].fi {
      HeadForgotten(h0, x1, Skipped);
      HandBackEvolves(h, h1, 0, x1, Skipped);
    } else {
      RewriteEvolves(h, h1, 0, x1);
    }
  }

  lemma FullEvolves(w: World)
    requires Inv(w) && AnswerPossible(w)
    ensures Evolves(CensusOf(w.h), CensusOf(OnAnswerFull(w).h))
  {
    CreditComesBack(w);
    SameLives(w.h, OnAnswerFull(w).h);
  }

  lemma DeliverEvolves(w: World, b: byte)
    requires Inv(w) && w.up && w.h.left > 0 && StoreInside(w.h)
    ensures Evolves(CensusOf(w.h), CensusOf(OnDeliver(w, b).h))
  {
    DeliverKeeps(w, b);
    InHandOK(w);
    var x1 := Stored(w.h.sch[0], b);
    ByteForm(w.h, b, x1);
    if w.h.left == 1 && w.h.last {
      var x2 := x1.(xfrd := x1.si);
      HeadForgotten(w.h.(left := 0), x2, Success);
      HandBackEvolves(w.h, RxByte(w.h, b).value, 0, x2, Success);
    } else {
      RewriteEvolves(w.h, RxByte(w.h, b).value, 0, x1);
    }
  }

  lemma WireEvolves(w: World, ev: Event)
    requires Inv(w) && (ev.Transmit? || ev.AnswerSkipped? || ev.AnswerFull? || ev.Deliver? || ev.LinkLost?)
    requires (w.up ==> Pumpable(w.h)) && (w.up && w.h.left > 0 ==> StoreInside(w.h))
    ensures Evolves(CensusOf(w.h), CensusOf(Step(w, ev).h))
  {
    SameLives(w.h, w.h);
    match ev
    case Transmit => if w.up && TxOne(w.h).Emit? { TransmitEvolves(w.h); }
    case AnswerSkipped => if AnswerPossible(w) { SkippedEvolves(w); }
    case AnswerFull => if AnswerPossible(w) { FullEvolves(w); }
    case Deliver(b) => if w.up && w.h.left > 0 { DeliverEvolves(w, b); }
    case LinkLost => CompleteAllEvolves(w.h);
  }

  lemma StepEvolves(w: World, ev: Event)
    requires Inv(w)
    ensures w.up ==> Pumpable(w.h)
    ensures w.up && w.h.left > 0 ==> StoreInside(w.h)
    ensures Evolves(CensusOf(w.h), CensusOf(Step(w, ev).h))
  {
    InvEnables(w);
    match ev
    case UserSchedule(buf, ss) => ScheduleEvolves(w.h, buf, ss);
    case UserCancel(job) => CancelEvolves(w.h, job);
    case UserDestroy(job) => DestroyEvolves(w, job);
    case InfoBlock(_) => SameLives(w.h, Step(w, ev).h);
    case _ => WireEvolves(w, ev);
  }

  // ---------------------------------------------------------------- whole runs

  lemma {:induction false} RunBecomes(w: World, evs: seq<Event>, x: Life<Asked>)
    requires Good(w) && Becomes(x, CensusOf(w.h))
    ensures Becomes(x, CensusOf(Run(w, evs).h))
    decreases |evs|
  {
    if evs != [] {
      StepKeepsGood(w, evs[0]);
      StepEvolves(w, evs[0]);
      EvolvesBecomes(x, CensusOf(w.h), CensusOf(Step(w, evs[0]).h));
      RunBecomes(Step(w, evs[0]), evs[1..], x);
    }
  }

  lemma ListedLives(w: World, i: nat)
    requires Good(w) && i < |w.h.sch|
    ensures Becomes(LifeOf(w.h.sch[i]), CensusOf(w.h))
  {
    forall k | 0 <= k < |w.h.sch| && k != i ensures w.h.sch[k].job != w.h.sch[i].job {
      JobsDiffer(w.h, i, k);
    }
    assert Unique(CensusOf(w.h), i);
    ListedBecomes(CensusOf(w.h), i);
  }

  // A transfer stands for what the user asked for when scheduling it, as long as it lives.
  lemma RequestIsKept(w: World, buf: seq<byte>, ss: nat, evs: seq<Event>)
    requires Good(w) && ss <= 3 && |buf| > 0
    ensures var w1 := w.(h := Schedule(w.h, buf, ss));
      && Good(w1)
      && var h := Run(w1, evs).h; var job := w.h.nextJob;
         && (forall i :: 0 <= i < |h.sch| && h.sch[i].job == job ==> Stands(h.sch[i], buf, ss))
         && (forall k :: 0 <= k < |h.log| && h.log[k].x.job == job ==> Stands(h.log[k].x, buf, ss))
  {
    StepKeepsGood(w, UserSchedule(buf, ss));
    var w1 := w.(h := Schedule(w.h, buf, ss));
    ListedLives(w1, |w.h.sch|);
    RunBecomes(w1, evs, LifeOf(w1.h.sch[|w.h.sch|]));
    HeirsStand(LifeOf(w1.h.sch[|w.h.sch|]), Run(w1, evs).h, buf, ss);
  }

  predicate Stands(x: Xfr, buf: seq<byte>, ss: nat) {
    x.orig == buf && x.sc == |buf| && x.ss == ss
  }

  lemma HeirsStand(x: Life<Asked>, h: Host, buf: seq<byte>, ss: nat)
    requires Becomes(x, CensusOf(h)) && x.orig == buf && x.asked == (ss, |buf|)
    ensures forall i :: 0 <= i < |h.sch| && h.sch[i].job == x.job ==> Stands(h.sch[i], buf, ss)
    ensures forall k :: 0 <= k < |h.log| && h.log[k].x.job == x.job ==> Stands(h.log[k].x, buf, ss)
  {
    forall i | 0 <= i < |h.sch| && h.sch[i].job == x.job ensures Stands(h.sch[i], buf, ss) {
      assert Heir(x, CensusOf(h).listed[i]);
    }
    forall k | 0 <= k < |h.log| && h.log[k].x.job == x.job ensures Stands(h.log[k].x, buf, ss) {
      assert Heir(x, CensusOf(h).logged[k]);
    }
  }

  // ---------------------------------------------------------------- deferred destroy

  // What was sent for a destroyed transfer: the user's bytes up to the cut, then filler.
  function Spoken(x: Life<Asked>): seq<byte> {
    Front(x.orig, x.cut) + Filler(x.sent - x.cut)
  }

  lemma ToldSpeaks(x: Xfr, sent: seq<byte>, got: seq<byte>)
    requires Told(x, sent, got) && x.detached
    ensures sent == Spoken(LifeOf(x))
  {
    assert Filler(x.fi - x.cut) == seq(x.fi - x.cut, _ => 0xFF);
  }

  lemma SaysFiller(x: Life<Asked>, x1: Xfr, sent: seq<byte>, got: seq<byte>)
    requires Heir(x, LifeOf(x1)) && x.detached && x.cut <= x.sent && Told(x1, sent, got)
    ensures OnlyFiller(Spoken(x), sent)
  {
    ToldSpeaks(x1, sent, got);
    FillerGrows(Front(x.orig, x.cut), x.sent - x.cut, x1.fi - x.cut);
  }

  lemma SentSince(w: World, x: Life<Asked>)
    requires Good(w) && Becomes(x, CensusOf(w.h)) && x.detached && x.cut <= x.sent
    ensures OnlyFiller(Spoken(x), Sent(w.trace, x.job))
  {
    var c := CensusOf(w.h);
    if i :| 0 <= i < |c.listed| && c.listed[i].job == x.job {
      SaysFiller(x, w.h.sch[i], Sent(w.trace, x.job), GotBy(w.delivered, x.job));
    } else {
      var k :| 0 <= k < |c.logged| && c.logged[k].job == x.job;
      SaysFiller(x, w.h.log[k].x, Sent(w.trace, x.job), GotBy(w.delivered, x.job));
    }
  }

  lemma DestroyMarks(w: World, i: nat)
    requires Inv(w) && i < |w.h.sch| && w.h.sch[i].active
    ensures Destroy(w.h, w.h.sch[i].job) == w.h.(sch := w.h.sch[i := Detach(w.h.sch[i])])
  {
    FirstOfJob(w.h, w.h.sch[i].job, i);
  }

  lemma DestroyedBecomes(w: World, i: nat, w1: World)
    requires Good(w) && i < |w.h.sch| && w.h.sch[i].active
    requires w1 == w.(h := Destroy(w.h, w.h.sch[i].job))
    ensures Good(w1) && Becomes(LifeOf(Detach(w.h.sch[i])), CensusOf(w1.h))
  {
    StepKeepsGood(w, UserDestroy(w.h.sch[i].job));
    DestroyMarks(w, i);
    ListedLives(w1, i);
  }

  // Once the user has destroyed an active transfer, whatever the host still sends for it
  // is 0xFF, however the run goes on.
  lemma NothingButFiller(w: World, i: nat, evs: seq<Event>)
    requires Good(w) && i < |w.h.sch| && w.h.sch[i].active
    ensures var job := w.h.sch[i].job; var w1 := w.(h := Destroy(w.h, job));
      Good(w1) && OnlyFiller(Sent(w.trace, job), Sent(Run(w1, evs).trace, job))
  {
    var x := LifeOf(Detach(w.h.sch[i]));
    var w1 := w.(h := Destroy(w.h, w.h.sch[i].job));
    DestroyedBecomes(w, i, w1);
    DestroyMarks(w, i);
    assert XferOK(w1.h.sch[i]);
    assert Told(w1.h.sch[i], Sent(w1.trace, x.job), GotBy(w1.delivered, x.job));
    ToldSpeaks(w1.h.sch[i], Sent(w1.trace, x.job), GotBy(w1.delivered, x.job));
    RunBecomes(w1, evs, x);
    RunKeepsGood(w1, evs);
    SentSince(Run(w1, evs), x);
  }

  // Once the user has destroyed an active transfer, the host never again writes to its
  // buffer, nor does the mark of how much had been sent by then change.
  lemma BufferIsLeftAlone(w: World, i: nat, evs: seq<Event>)
    requires Good(w) && i < |w.h.sch| && w.h.sch[i].active && !w.h.sch[i].detached
    ensures var x := w.h.sch[i]; var w1 := w.(h := Destroy(w.h, x.job));
      && Good(w1)
      && var h := Run(w1, evs).h;
         && (forall k :: 0 <= k < |h.sch| && h.sch[k].job == x.job ==> AsTaken(h.sch[k], x))
         && (forall k :: 0 <= k < |h.log| && h.log[k].x.job == x.job ==> AsTaken(h.log[k].x, x))
  {
    var x := w.h.sch[i];
    var w1 := w.(h := Destroy(w.h, x.job));
    DestroyedBecomes(w, i, w1);
    RunBecomes(w1, evs, LifeOf(Detach(x)));
    var c := CensusOf(Run(w1, evs).h);
    forall k | 0 <= k < |c.listed| && c.listed[k].job == x.job ensures AsTaken(Run(w1, evs).h.sch[k], x) {
      assert Heir(LifeOf(Detach(x)), c.listed[k]);
    }
    forall k | 0 <= k < |c.logged| && c.logged[k].job == x.job ensures AsTaken(Run(w1, evs).h.log[k].x, x) {
      assert Heir(LifeOf(Detach(x)), c.logged[k]);
    }
  }

  // x1 is as the user took x back.
  predicate AsTaken(x1: Xfr, x: Xfr) {
    x1.detached && x1.cut == x.fi && x1.buf == x.buf
  }
}
