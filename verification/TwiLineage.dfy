/** What stays with a TWI transfer through a run. */
module TwiLineage {
  import opened Basics
  import opened TwiHost
  import opened TwiWorld
  import opened TwiInvariant
  import opened TwiSteps
  import opened TwiAnswer
  import opened TwiEvents
  import opened TwiTrace
  import opened TwiChronicle
  import opened TwiRuns
  import opened Lineage

  // What the user asks for, apart from the buffer.
  datatype Asked = Asked(sc: nat, ad: byte, dir: Dir, forceStop: bool)

  function LifeOf(x: Xfr): Life<Asked> {
    Life(x.job, Asked(x.sc, x.ad, x.dir, x.forceStop), x.orig, x.active, x.detached, x.cmd, x.cut, x.buf)
  }

  function Lives(sch: seq<Xfr>): (r: seq<Life<Asked>>)
    ensures |r| == |sch| && forall i :: 0 <= i < |sch| ==> r[i] == LifeOf(sch[i])
  {
    seq(|sch|, i requires 0 <= i < |sch| => LifeOf(sch[i]))
  }

  function LoggedLives(log: seq<Done>): (r: seq<Life<Asked>>)
    ensures |r| == |log| && forall i :: 0 <= i < |log| ==> r[i] == LifeOf(log[i].x)
  {
    seq(|log|, i requires 0 <= i < |log| => LifeOf(log[i].x))
  }

  function CensusOf(h: Host): Census<Asked> {
    Census(Lives(h.sch), LoggedLives(h.log), h.nextJob)
  }

  // ---------------------------------------------------------------- one step

  lemma SameLives(h: Host, h1: Host)
    requires h1.sch == h.sch && h1.log == h.log && h1.nextJob == h.nextJob
    ensures CensusOf(h1) == CensusOf(h) && Evolves(CensusOf(h), CensusOf(h1))
  {
    SameEvolves(CensusOf(h));
  }

  lemma RewriteEvolves(h: Host, h1: Host, i: nat, x1: Xfr)
    requires i < |h.sch| && Heir(LifeOf(h.sch[i]), LifeOf(x1))
    requires h1.sch == h.sch[i := x1] && h1.log == h.log && h1.nextJob == h.nextJob
    ensures Evolves(CensusOf(h), CensusOf(h1))
  {
    ReplaceEvolves(CensusOf(h), i, LifeOf(x1));
    assert Lives(h1.sch) == Lives(h.sch)[i := LifeOf(x1)];
  }

  // Transfer i is handed back, changed in the moment it completes.
  lemma HandBackEvolves(h: Host, h1: Host, i: nat, x1: Xfr, status: Status)
    requires i < |h.sch| && Heir(LifeOf(h.sch[i]), LifeOf(x1))
    requires h1.sch == Without(h.sch, i) && h1.log == h.log + [Done(x1, status)] && h1.nextJob == h.nextJob
    ensures Evolves(CensusOf(h), CensusOf(h1))
  {
    TakenEvolves(CensusOf(h), i, LifeOf(x1));
    assert Lives(h1.sch) == Without(Lives(h.sch), i);
    assert LoggedLives(h1.log) == LoggedLives(h.log) + [LifeOf(x1)];
  }

  lemma CompleteEvolves(h: Host, i: nat, status: Status)
    requires i < |h.sch|
    ensures Evolves(CensusOf(h), CensusOf(Complete(h, i, status)))
  {
    HandBackEvolves(h, Complete(h, i, status), i, h.sch[i], status);
  }

  // The head changes, and perhaps completes in that moment.
  lemma CheckEvolves(h: Host, x1: Xfr)
    requires |h.sch| > 0 && Heir(LifeOf(h.sch[0]), LifeOf(x1))
    ensures var h1 := h.(sch := h.sch[0 := x1]);
      && Evolves(CensusOf(h), CensusOf(h1)) && Evolves(CensusOf(h), CensusOf(CheckHead(h1)))
      && Evolves(CensusOf(h), CensusOf(CompleteHead(h1)))
  {
    var h1 := h.(sch := h.sch[0 := x1]);
    RewriteEvolves(h, h1, 0, x1);
    assert Without(h1.sch, 0) == Without(h.sch, 0);
    HandBackEvolves(h, CompleteHead(h1), 0, x1, FinalStatus(h1, x1));
  }

  lemma EvolvesLike(h: Host, h1: Host, h2: Host)
    requires Evolves(CensusOf(h), CensusOf(h1)) && h2.sch == h1.sch && h2.log == h1.log && h2.nextJob == h1.nextJob
    ensures Evolves(CensusOf(h), CensusOf(h2))
  {
    SameLives(h1, h2);
  }

  lemma EvolvesFrom(h: Host, h1: Host, h2: Host)
    requires Evolves(CensusOf(h1), CensusOf(h2)) && h1.sch == h.sch && h1.log == h.log && h1.nextJob == h.nextJob
    ensures Evolves(CensusOf(h), CensusOf(h2))
  {
    SameLives(h, h1);
  }

  lemma {:induction false} CompleteAllEvolves(h: Host)
    requires JobsOK(h)
    ensures Evolves(CensusOf(h), CensusOf(CompleteAll(h)))
    decreases |h.sch|
  {
    if |h.sch| == 0 {
      SameLives(h, h);
    } else {
      var h1 := Complete(h, 0, Cancelled);
      CompleteEvolves(h, 0, Cancelled);
      CompleteKeepsJobs(h, 0, Cancelled);
      CompleteAllEvolves(h1);
      EvolvesOn(CensusOf(h), CensusOf(h1), CensusOf(CompleteAll(h1)));
    }
  }

  lemma CancelEvolves(h: Host, handle: nat)
    ensures Evolves(CensusOf(h), CensusOf(Cancel(h, handle))) && Cancel(h, handle).nextJob == h.nextJob
  {
    var i := IndexOf(Handles(h.sch), handle);
    SameLives(h, h);
    if i < |h.sch| {
      CompleteEvolves(h, i, Cancelled);
    }
  }

  lemma MarkEvolves(h: Host, handle: nat)
    ensures Evolves(CensusOf(h), CensusOf(MarkDetached(h, handle))) && MarkDetached(h, handle).nextJob == h.nextJob
  {
    var i := IndexOf(Handles(h.sch), handle);
    SameLives(h, h);
    if i < |h.sch| {
      RewriteEvolves(h, MarkDetached(h, handle), i, Detach(h.sch[i]));
    }
  }

  lemma DestroyEvolves(h: Host, handle: nat)
    requires HostOK(h)
    ensures Evolves(CensusOf(h), CensusOf(Destroy(h, handle)))
  {
    var h1 := Cancel(h, handle);
    CancelKeepsHost(h, handle);
    CancelEvolves(h, handle);
    if At(h1, handle, Assigned) {
      EvolvesLike(h, h1, Unassign(h1, handle));
    } else {
      MarkEvolves(h1, handle);
      EvolvesOn(CensusOf(h), CensusOf(h1), CensusOf(MarkDetached(h1, handle)));
    }
  }

  lemma ScheduleEvolves(h: Host, handle: nat, r: Request)
    ensures Evolves(CensusOf(h), CensusOf(Schedule(h, handle, r)))
  {
    SameLives(h, h);
    if MaySchedule(h, handle, r) {
      var x := NewXfr(h, handle, r);
      AddedEvolves(CensusOf(h), LifeOf(x));
      assert Lives(h.sch + [x]) == Lives(h.sch) + [LifeOf(x)];
    }
  }

  lemma SpeechEvolves(h: Host, h1: Host, e: Entry)
    requires Speaks(h, h1, e)
    ensures Evolves(CensusOf(h), CensusOf(h1))
  {
    RewriteEvolves(h, h1, h.cur, h1.sch[h.cur]);
  }

  lemma TransmitEvolves(h: Host)
    requires HostOK(h) && Pumpable(h) && TxOne(h).Emit?
    ensures Evolves(CensusOf(h), CensusOf(TxOne(h).h))
  {
    if h.txStop {
      SameLives(h, TxOne(h).h);
    } else {
      TransmitSpeaks(h);
      SpeechEvolves(h, TxOne(h).h, TxOne(h).e);
    }
  }

  lemma StartEvolves(h: Host, r: Rsp)
    requires JobsOK(h) && r.RspStart? && OnResponse(h, r).Some?
    ensures Evolves(CensusOf(h), CensusOf(OnResponse(h, r).value))
  {
    StartForm(h, r);
    var h0 := h.(free := h.free + 2);
    CheckEvolves(h0, Addressed(h.sch[0], r));
    CheckEvolves(h0, Addressed(h.sch[0], r).(rxPhase := Data));
    EvolvesFrom(h, h0, OnResponse(h, r).value);
  }

  lemma DataEvolves(h: Host, r: Rsp)
    requires JobsOK(h) && (r.RspTx? || r.RspRx?) && OnResponse(h, r).Some?
    ensures Evolves(CensusOf(h), CensusOf(OnResponse(h, r).value))
  {
    var h0 := DataForm(h, r);
    CheckEvolves(h0, Counted(h.sch[0], r));
    EvolvesFrom(h, h0, OnResponse(h, r).value);
  }

  lemma ResponseEvolves(h: Host, r: Rsp)
    requires JobsOK(h) && OnResponse(h, r).Some?
    ensures Evolves(CensusOf(h), CensusOf(OnResponse(h, r).value))
  {
    if r.RspStart? {
      StartEvolves(h, r);
    } else if r.RspStop? {
      SameLives(h, OnResponse(h, r).value);
    } else {
      DataEvolves(h, r);
    }
  }

  lemma StoredEvolves(h: Host, h0: Host, b: byte, h1: Host)
    requires JobsOK(h) && |h.sch| > 0 && StoreInside(h) && h0 == h.(rxLeft := h0.rxLeft)
    requires var h2 := h0.(sch := h.sch[0 := Stored(h.sch[0], b)]); h1 == h2 || h1 == CheckHead(h2)
    ensures Evolves(CensusOf(h), CensusOf(h1))
  {
    CheckEvolves(h0, Stored(h.sch[0], b));
    EvolvesFrom(h, h0, h1);
  }

  lemma ByteEvolves(h: Host, b: byte)
    requires JobsOK(h) && StoreInside(h) && RxByte(h, b).Some?
    ensures Evolves(CensusOf(h), CensusOf(RxByte(h, b).value))
  {
    ByteIs(h, b);
    StoredEvolves(h, h.(rxLeft := h.rxLeft - 1), b, RxByte(h, b).value);
  }

  lemma AnswerEvolves(w: World, r: Rsp)
    requires Inv(w) && AnswerPossible(w, r)
    ensures Evolves(CensusOf(w.h), CensusOf(OnAnswer(w, r).h))
  {
    match OnResponse(w.h, r)
    case None => CompleteAllEvolves(w.h);
    case Some(_) => ResponseEvolves(w.h, r);
  }

  lemma DeliverEvolves(w: World, b: byte)
    requires Inv(w) && DeliverPossible(w) && StoreInside(w.h)
    ensures Evolves(CensusOf(w.h), CensusOf(OnDeliver(w, b).h))
  {
    DeliverKeepsInv(w, b);
    ByteEvolves(w.h, b);
  }

  lemma CountEvolves(w: World)
    requires Inv(w) && CountPossible(w)
    ensures Evolves(CensusOf(w.h), CensusOf(OnCounted(w).h))
  {
    CountKeepsInv(w);
    SameLives(w.h, OnCounted(w).h);
  }

  lemma WireEvolves(w: World, ev: Event)
    requires Inv(w) && (ev.Transmit? || ev.Count? || ev.Answer? || ev.Deliver? || ev.LinkLost?)
    requires (w.up ==> Pumpable(w.h)) && (DeliverPossible(w) ==> StoreInside(w.h))
    ensures Evolves(CensusOf(w.h), CensusOf(Step(w, ev).h))
  {
    SameLives(w.h, w.h);
    match ev
    case Transmit => if w.up && TxOne(w.h).Emit? { TransmitEvolves(w.h); }
    case Count => if CountPossible(w) { CountEvolves(w); }
    case Answer(r) => if AnswerPossible(w, r) { AnswerEvolves(w, r); }
    case Deliver(b) => if DeliverPossible(w) { DeliverEvolves(w, b); }
    case LinkLost => if w.up { CompleteAllEvolves(w.h); }
  }

  lemma UserEvolves(w: World, ev: Event)
    requires Inv(w) && !(ev.Transmit? || ev.Count? || ev.Answer? || ev.Deliver? || ev.LinkLost?)
    requires (w.up ==> Pumpable(w.h)) && (DeliverPossible(w) ==> StoreInside(w.h))
    ensures Evolves(CensusOf(w.h), CensusOf(Step(w, ev).h))
  {
    if ev.UserSchedule? {
      ScheduleEvolves(w.h, ev.handle, ev.r);
    } else if ev.UserCancel? {
      CancelEvolves(w.h, ev.handle);
    } else if ev.UserDestroy? {
      DestroyEvolves(w.h, ev.handle);
    } else {
      OtherEvolves(w, ev);
    }
  }

  lemma OtherEvolves(w: World, ev: Event)
    requires ev.UserCreate? || ev.UserEnable? || ev.InfoBlock? || ev.RaiseBusError? || ev.RaiseArbLost?
    requires (w.up ==> Pumpable(w.h)) && (DeliverPossible(w) ==> StoreInside(w.h))
    ensures Evolves(CensusOf(w.h), CensusOf(Step(w, ev).h))
  {
    if ev.UserCreate? {
      SameLives(w.h, Create(w.h));
    } else if ev.InfoBlock? {
      InfoShape(w, ev.len);
      SameLives(w.h, Step(w, ev).h);
    } else {
      FlagShape(w, ev);
      SameLives(w.h, Step(w, ev).h);
    }
  }

  lemma StepEvolves(w: World, ev: Event)
    requires Inv(w)
    ensures w.up ==> Pumpable(w.h)
    ensures DeliverPossible(w) ==> StoreInside(w.h)
    ensures Evolves(CensusOf(w.h), CensusOf(Step(w, ev).h))
  {
    InvEnables(w);
    if ev.Transmit? || ev.Count? || ev.Answer? || ev.Deliver? || ev.LinkLost? {
      WireEvolves(w, ev);
    } else {
      UserEvolves(w, ev);
    }
  }

  // ---------------------------------------------------------------- whole runs

  lemma {:induction false} RunBecomes(w: World, evs: seq<Event>, x: Life<Asked>)
    requires Good(w) && Becomes(x, CensusOf(w.h))
    ensures Becomes(x, CensusOf(Run(w, evs).h))
    decreases |evs|
  {
    if evs != [] {
      StepKeepsGood(w, evs[0]);
      StepEvolves(w, evs[0]);
      EvolvesBecomes(x, CensusOf(w.h), CensusOf(Step(w, evs[0]).h));
      RunBecomes(Step(w, evs[0]), evs[1..], x);
    }
  }

  lemma ListedLives(w: World, i: nat)
    requires Good(w) && i < |w.h.sch|
    ensures Becomes(LifeOf(w.h.sch[i]), CensusOf(w.h))
  {
    forall k | 0 <= k < |w.h.log| ensures w.h.log[k].x.job != w.h.sch[i].job {
      ListedNotLogged(w.h, i, k);
    }
    assert Unique(CensusOf(w.h), i);
    ListedBecomes(CensusOf(w.h), i);
  }

  // A transfer stands for what the user asked for when scheduling it, as long as it lives:
  // the same bytes, address and direction, whatever happens in between.
  lemma RequestIsKept(w: World, handle: nat, r: Request, evs: seq<Event>)
    requires Good(w) && MaySchedule(w.h, handle, r)
    ensures var w1 := w.(h := Schedule(w.h, handle, r));
      && Good(w1)
      && var h := Run(w1, evs).h; var job := w.h.nextJob;
         && (forall i :: 0 <= i < |h.sch| && h.sch[i].job == job ==> Stands(h.sch[i], r))
         && (forall k :: 0 <= k < |h.log| && h.log[k].x.job == job ==> Stands(h.log[k].x, r))
  {
    StepKeepsGood(w, UserSchedule(handle, r));
    var w1 := w.(h := Schedule(w.h, handle, r));
    ListedLives(w1, |w.h.sch|);
    var x := LifeOf(w1.h.sch[|w.h.sch|]);
    RunBecomes(w1, evs, x);
    HeirsStand(x, Run(w1, evs).h, r);
  }

  predicate Stands(x: Xfr, r: Request) {
    x.orig == r.buf && x.sc == |r.buf| && x.ad == r.ad && x.dir == r.dir && x.forceStop == r.forceStop
  }

  lemma HeirsStand(x: Life<Asked>, h: Host, r: Request)
    requires Becomes(x, CensusOf(h)) && x.orig == r.buf && x.asked == Asked(|r.buf|, r.ad, r.dir, r.forceStop)
    ensures forall i :: 0 <= i < |h.sch| && h.sch[i].job == x.job ==> Stands(h.sch[i], r)
    ensures forall k :: 0 <= k < |h.log| && h.log[k].x.job == x.job ==> Stands(h.log[k].x, r)
  {
    forall i | 0 <= i < |h.sch| && h.sch[i].job == x.job ensures Stands(h.sch[i], r) {
      assert Heir(x, CensusOf(h).listed[i]);
    }
    forall k | 0 <= k < |h.log| && h.log[k].x.job == x.job ensures Stands(h.log[k].x, r) {
      assert Heir(x, CensusOf(h).logged[k]);
    }
  }

  // ---------------------------------------------------------------- deferred destroy

  // What the trace carries for an active write is what it has spoken.
  lemma TraceSpeaks(x: Xfr, trace: seq<Entry>, delivered: map<nat, seq<byte>>)
    requires Told(x, trace, delivered) && x.active && x.dir == Write
    ensures Payload(Pend(trace, x.job)) == Spoken(x)
  {
    var cs := Pend(trace, x.job);
    assert Packets(x, cs[1..]);
    assert Payload(cs) == [] + Payload(cs[1..]);
  }

  lemma HeirSpeaks(x: Xfr, x1: Xfr)
    requires Heir(LifeOf(x), LifeOf(x1)) && x.detached && x.cut <= x.cmd
    ensures OnlyFiller(Spoken(x), Spoken(x1))
  {
    FillerGrows(Front(x.orig, x.cut), x.cmd - x.cut, x1.cmd - x.cut);
  }

  lemma SpokenBy(w: World, x: Xfr, x1: Xfr)
    requires Heir(LifeOf(x), LifeOf(x1)) && x.detached && x.cut <= x.cmd && x.active && x.dir == Write
    requires Told(x1, w.trace, w.delivered)
    ensures OnlyFiller(Spoken(x), Payload(Pend(w.trace, x.job)))
  {
    TraceSpeaks(x1, w.trace, w.delivered);
    HeirSpeaks(x, x1);
  }

  lemma SpokenSince(w: World, x: Xfr)
    requires Good(w) && Becomes(LifeOf(x), CensusOf(w.h))
    requires x.detached && x.cut <= x.cmd && x.active && x.dir == Write
    ensures OnlyFiller(Spoken(x), Payload(Pend(w.trace, x.job)))
  {
    var c := CensusOf(w.h);
    if i :| 0 <= i < |c.listed| && c.listed[i].job == x.job {
      SpokenBy(w, x, w.h.sch[i]);
    } else {
      var k :| 0 <= k < |c.logged| && c.logged[k].job == x.job;
      SpokenBy(w, x, w.h.log[k].x);
    }
  }

  lemma DestroyMarks(h: Host, i: nat)
    requires HostOK(h) && i < |h.sch| && h.sch[i].active
    ensures Destroy(h, h.sch[i].handle) == h.(sch := h.sch[i := Detach(h.sch[i])])
  {
    var handle := h.sch[i].handle;
    assert Handles(h.sch)[i] == handle;
    LocationTells(h, handle);
    HandlesOnce(h, IndexOf(Handles(h.sch), handle), i);
  }

  lemma DestroyKeepsGood(w: World, handle: nat)
    requires Good(w)
    ensures Good(w.(h := Destroy(w.h, handle)))
  {
    StepKeepsGood(w, UserDestroy(handle));
  }

  lemma DestroyedBecomes(w: World, i: nat, w1: World)
    requires Good(w) && i < |w.h.sch| && w.h.sch[i].active
    requires w1 == w.(h := Destroy(w.h, w.h.sch[i].handle))
    ensures Good(w1) && Becomes(LifeOf(Detach(w.h.sch[i])), CensusOf(w1.h))
  {
    DestroyKeepsGood(w, w.h.sch[i].handle);
    DestroyMarks(w.h, i);
    MarkedBecomes(w1, i, Detach(w.h.sch[i]));
  }

  lemma MarkedBecomes(w: World, i: nat, x: Xfr)
    requires Good(w) && i < |w.h.sch| && w.h.sch[i] == x
    ensures Becomes(LifeOf(x), CensusOf(w.h))
  {
    ListedLives(w, i);
  }

  lemma DetachSpeaks(w: World, i: nat)
    requires Good(w) && i < |w.h.sch| && w.h.sch[i].active && w.h.sch[i].dir == Write
    ensures var x1 := Detach(w.h.sch[i]);
      x1.detached && x1.active && x1.cut <= x1.cmd && Spoken(x1) == Payload(Pend(w.trace, x1.job))
  {
    var x := w.h.sch[i];
    assert XferOK(x) && Told(x, w.trace, w.delivered);
    DetachKeepsTold(x, w.trace, w.delivered);
    TraceSpeaks(Detach(x), w.trace, w.delivered);
  }

  // Once the user has destroyed an active write, whatever the host still sends for it is
  // 0xFF, however the run goes on.
  lemma NothingButFiller(w: World, i: nat, evs: seq<Event>)
    requires Good(w) && i < |w.h.sch| && w.h.sch[i].active && w.h.sch[i].dir == Write
    ensures var job := w.h.sch[i].job; var w1 := w.(h := Destroy(w.h, w.h.sch[i].handle));
      Good(w1) && OnlyFiller(Payload(Pend(w.trace, job)), Payload(Pend(Run(w1, evs).trace, job)))
  {
    var x1 := Detach(w.h.sch[i]);
    var w1 := w.(h := Destroy(w.h, w.h.sch[i].handle));
    DestroyedBecomes(w, i, w1);
    DetachSpeaks(w, i);
    RunBecomes(w1, evs, LifeOf(x1));
    RunKeepsGood(w1, evs);
    SpokenSince(Run(w1, evs), x1);
  }

  // Once the user has destroyed an active read, the host never again writes to its buffer:
  // the buffer stays what the bytes delivered before that made of it.
  lemma BufferIsLeftAlone(w: World, i: nat, evs: seq<Event>)
    requires Good(w) && i < |w.h.sch| && w.h.sch[i].active && !w.h.sch[i].detached
    ensures var x := w.h.sch[i]; var w1 := w.(h := Destroy(w.h, x.handle));
      && Good(w1)
      && var h := Run(w1, evs).h;
         && (forall k :: 0 <= k < |h.sch| && h.sch[k].job == x.job ==> AsTaken(h.sch[k], x))
         && (forall k :: 0 <= k < |h.log| && h.log[k].x.job == x.job ==> AsTaken(h.log[k].x, x))
  {
    var w1 := w.(h := Destroy(w.h, w.h.sch[i].handle));
    DestroyedBecomes(w, i, w1);
    RunBecomes(w1, evs, LifeOf(Detach(w.h.sch[i])));
    HeirsAsTaken(w.h.sch[i], Run(w1, evs).h);
  }

  // x1 is as the user took x back.
  predicate AsTaken(x1: Xfr, x: Xfr) {
    x1.detached && x1.buf == x.buf && x1.cut == if x.dir == Write then x.cmd else x.xfrd
  }

  lemma HeirsAsTaken(x: Xfr, h: Host)
    requires Becomes(LifeOf(Detach(x)), CensusOf(h)) && !x.detached
    ensures forall k :: 0 <= k < |h.sch| && h.sch[k].job == x.job ==> AsTaken(h.sch[k], x)
    ensures forall k :: 0 <= k < |h.log| && h.log[k].x.job == x.job ==> AsTaken(h.log[k].x, x)
  {
    forall k | 0 <= k < |h.sch| && h.sch[k].job == x.job ensures AsTaken(h.sch[k], x) {
      assert Heir(LifeOf(Detach(x)), CensusOf(h).listed[k]);
    }
    forall k | 0 <= k < |h.log| && h.log[k].x.job == x.job ensures AsTaken(h.log[k].x, x) {
      assert Heir(LifeOf(Detach(x)), CensusOf(h).logged[k]);
    }
  }
}
