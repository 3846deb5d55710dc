/** Every event of the TWI world keeps the invariant. */
module TwiEvents {
  import opened TwiHost
  import opened TwiWorld
  import opened TwiInvariant
  import opened TwiSteps
  import opened TwiLink
  import opened TwiAnswer

  lemma DownKeepsInv(w: World)
    requires HostOK(w.h)
    ensures Inv(Down(w))
  {
    CompleteAllKeepsHost(w.h);
  }

  lemma AnswerKeepsInv(w: World, r: Rsp)
    requires Inv(w) && AnswerPossible(w, r)
    ensures Inv(OnAnswer(w, r))
    ensures !OnAnswer(w, r).up <==>
      w.q[0].Of? && w.q[0].cmd.Start? && |w.h.sch| > 0 && w.h.sch[0].ad >= 128
  {
    if w.q[0].Stop? {
      StopAnswer(w, r);
    } else if w.q[0].cmd.Start? {
      StartAnswer(w, r);
      if OnResponse(w.h, r).None? {
        DownKeepsInv(w);
      }
    } else {
      DataAnswer(w, r);
    }
  }

  lemma InfoKeepsInv(w: World, len: nat)
    requires Inv(w) && w.up && w.h.len == 0
    ensures Inv(w.(h := w.h.(len := len, free := len)))
  {
    var h1 := w.h.(len := len, free := len);
    SameLists(w.h, h1);
    LoadPositive(w.q);
    assert HeadOK(h1, w.dead, w.rxJob);
  }

  lemma CountKeepsInv(w: World)
    requires Inv(w) && CountPossible(w)
    ensures Inv(OnCounted(w)) && OnCounted(w).up
  {
    var h1 := OnCount(w.h, Size(w.q[0].cmd)).value;
    SameLists(w.h, h1);
    assert HeadOK(h1, w.dead, w.rxJob);
    assert OnCounted(w).h == h1;
  }

  // The flags of the TWI function play no part in the invariant.
  lemma FlagsKeepInv(w: World, h1: Host)
    requires Inv(w)
    requires h1 == w.h.(enabled := h1.enabled, busError := h1.busError, arbLost := h1.arbLost)
    ensures Inv(w.(h := h1))
  {
    SameLists(w.h, h1);
    if w.up {
      assert HeadOK(h1, w.dead, w.rxJob);
    }
  }

  lemma CreateKeepsInv(w: World)
    requires Inv(w)
    ensures Inv(w.(h := Create(w.h)))
  {
    CreateKeepsHost(w.h);
    if w.up {
      assert HeadOK(Create(w.h), w.dead, w.rxJob);
    }
  }

  lemma UserKeepsInv(w: World, ev: Event)
    requires Inv(w) && (ev.UserSchedule? || ev.UserCancel? || ev.UserDestroy?)
    requires (w.up ==> Pumpable(w.h)) && (DeliverPossible(w) ==> StoreInside(w.h))
    ensures Inv(Step(w, ev))
  {
    match ev
    case UserSchedule(handle, r) =>
      ScheduleKeepsHost(w.h, handle, r);
      if w.up { ScheduleKeepsLink(w, handle, r); }
    case UserCancel(handle) =>
      CancelKeepsHost(w.h, handle);
      if w.up { CancelKeepsLink(w, handle); }
    case UserDestroy(handle) =>
      DestroyKeepsHost(w.h, handle);
      if w.up { DestroyKeepsLink(w, handle); }
  }

  lemma FlagShape(w: World, ev: Event)
    requires ev.UserEnable? || ev.RaiseBusError? || ev.RaiseArbLost?
    requires (w.up ==> Pumpable(w.h)) && (DeliverPossible(w) ==> StoreInside(w.h))
    ensures var h1 := Step(w, ev).h;
      Step(w, ev) == w.(h := h1) && h1 == w.h.(enabled := h1.enabled, busError := h1.busError, arbLost := h1.arbLost)
  {
    match ev
    case UserEnable(on) => EnableShape(w, on);
    case RaiseBusError => RaiseShape(w);
    case RaiseArbLost => RaiseShape(w);
  }

  lemma EnableShape(w: World, on: bool)
    requires (w.up ==> Pumpable(w.h)) && (DeliverPossible(w) ==> StoreInside(w.h))
    ensures Step(w, UserEnable(on)) ==
      w.(h := if !w.up then w.h else if on then w.h.(enabled := true)
              else w.h.(enabled := false, busError := false, arbLost := false))
  {
  }

  lemma RaiseShape(w: World)
    requires (w.up ==> Pumpable(w.h)) && (DeliverPossible(w) ==> StoreInside(w.h))
    ensures Step(w, RaiseBusError) == w.(h := if Boundary(w) then w.h.(busError := true) else w.h)
    ensures Step(w, RaiseArbLost) == w.(h := if Boundary(w) then w.h.(arbLost := true) else w.h)
  {
  }

  lemma FlagStepKeepsInv(w: World, ev: Event)
    requires Inv(w) && (ev.UserEnable? || ev.RaiseBusError? || ev.RaiseArbLost?)
    requires (w.up ==> Pumpable(w.h)) && (DeliverPossible(w) ==> StoreInside(w.h))
    ensures Inv(Step(w, ev))
  {
    FlagShape(w, ev);
    FlagsKeepInv(w, Step(w, ev).h);
  }

  lemma WireKeepsInv(w: World, ev: Event)
    requires Inv(w) && (ev.InfoBlock? || ev.Transmit? || ev.Count? || ev.Answer? || ev.Deliver? || ev.LinkLost?)
    requires (w.up ==> Pumpable(w.h)) && (DeliverPossible(w) ==> StoreInside(w.h))
    ensures Inv(Step(w, ev))
  {
    match ev
    case InfoBlock(len) => if w.up && w.h.len == 0 { InfoKeepsInv(w, len); }
    case Transmit => if w.up { TransmitKeepsInv(w); }
    case Count => if CountPossible(w) { CountKeepsInv(w); }
    case Answer(r) => if AnswerPossible(w, r) { AnswerKeepsInv(w, r); }
    case Deliver(b) => if DeliverPossible(w) { DeliverKeepsInv(w, b); }
    case LinkLost => if w.up { DownKeepsInv(w); }
  }

  lemma StepKeepsInv(w: World, ev: Event)
    requires Inv(w)
    ensures w.up ==> Pumpable(w.h)
    ensures DeliverPossible(w) ==> StoreInside(w.h)
    ensures Inv(Step(w, ev))
  {
    InvEnables(w);
    if ev.UserCreate? {
      CreateKeepsInv(w);
    } else if ev.UserSchedule? || ev.UserCancel? || ev.UserDestroy? {
      UserKeepsInv(w, ev);
    } else if ev.UserEnable? || ev.RaiseBusError? || ev.RaiseArbLost? {
      FlagStepKeepsInv(w, ev);
    } else {
      WireKeepsInv(w, ev);
    }
  }
}
