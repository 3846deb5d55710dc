/** Each event of the TWI world keeps the invariant. */
module TwiSteps {
  import opened Basics
  import opened TwiHost
  import opened TwiWorld
  import opened TwiInvariant

  // ---------------------------------------------------------------- the host alone

  lemma CreateKeepsHost(h: Host)
    requires HostOK(h)
    ensures HostOK(Create(h))
  {
    CreateKeepsPool(h);
  }

  lemma ScheduleKeepsShape(h: Host, handle: nat, r: Request)
    requires JobsOK(h) && SplitOK(h) && XfersOK(h) && MaySchedule(h, handle, r)
    ensures var h1 := Schedule(h, handle, r); JobsOK(h1) && SplitOK(h1) && XfersOK(h1)
  {
    var h1 := Schedule(h, handle, r);
    var x := NewXfr(h, handle, r);
    assert XferOK(x);
    assert forall i :: 0 <= i < |h1.sch| ==> h1.sch[i] == if i < |h.sch| then h.sch[i] else x;
  }

  lemma ScheduleKeepsHost(h: Host, handle: nat, r: Request)
    requires HostOK(h)
    ensures HostOK(Schedule(h, handle, r))
  {
    if MaySchedule(h, handle, r) {
      ScheduleKeepsPool(h, handle, r);
      ScheduleKeepsShape(h, handle, r);
    }
  }

  function Old(i: nat, k: nat): nat {
    if k < i then k else k + 1
  }

  lemma CompleteKeepsJobs(h: Host, i: nat, status: Status)
    requires JobsOK(h) && i < |h.sch|
    ensures JobsOK(Complete(h, i, status))
  {
    var s1 := Complete(h, i, status).sch;
    forall a, b | 0 <= a < b < |s1|
      ensures s1[a].job < s1[b].job
    {
      assert s1[a] == h.sch[Old(i, a)] && s1[b] == h.sch[Old(i, b)];
    }
  }

  lemma CompleteKeepsSplit(h: Host, i: nat, status: Status)
    requires SplitOK(h) && XfersOK(h) && i < |h.sch|
    ensures SplitOK(Complete(h, i, status))
  {
    var h1 := Complete(h, i, status);
    forall k | 0 <= k < |h1.sch|
      ensures k < h1.cur ==> Emitted(h1.sch[k])
      ensures k == h1.cur ==> !Emitted(h1.sch[k])
      ensures k > h1.cur ==> !h1.sch[k].active
    {
      assert h1.sch[k] == h.sch[Old(i, k)];
    }
  }

  lemma CompleteKeepsXfers(h: Host, i: nat, status: Status)
    requires XfersOK(h) && i < |h.sch|
    ensures XfersOK(Complete(h, i, status))
  {
    var h1 := Complete(h, i, status);
    forall k | 0 <= k < |h1.sch|
      ensures XferOK(h1.sch[k])
    {
      assert h1.sch[k] == h.sch[Old(i, k)];
    }
  }

  lemma CompleteKeepsHost(h: Host, i: nat, status: Status)
    requires HostOK(h) && i < |h.sch|
    ensures HostOK(Complete(h, i, status))
  {
    CompleteKeepsPool(h, i, status);
    CompleteKeepsJobs(h, i, status);
    CompleteKeepsSplit(h, i, status);
    CompleteKeepsXfers(h, i, status);
  }

  lemma {:induction false} CompleteAllKeepsHost(h: Host)
    requires HostOK(h)
    ensures HostOK(CompleteAll(h)) && CompleteAll(h).sch == [] && CompleteAll(h).cur == 0
    decreases |h.sch|
  {
    if |h.sch| > 0 {
      CompleteKeepsHost(h, 0, Cancelled);
      CompleteAllKeepsHost(Complete(h, 0, Cancelled));
    }
  }

  lemma CancelKeepsHost(h: Host, handle: nat)
    requires HostOK(h)
    ensures HostOK(Cancel(h, handle))
  {
    var i := IndexOf(Handles(h.sch), handle);
    if At(h, handle, Scheduled) && i < |h.sch| && !h.sch[i].active {
      CompleteKeepsHost(h, i, Cancelled);
    }
  }

  // After a cancel the handle is either assigned, or scheduled and active, or was cached.
  lemma CancelLeavesActive(h: Host, handle: nat)
    requires HostOK(h)
    ensures var h1 := Cancel(h, handle);
      forall i :: 0 <= i < |h1.sch| && h1.sch[i].handle == handle && !At(h1, handle, Assigned) ==> h1.sch[i].active
  {
    var i := IndexOf(Handles(h.sch), handle);
    LocationTells(h, handle);
    if i < |h.sch| && !h.sch[i].active {
      assert Handles(h.sch)[i] == handle;
      assert XferOK(h.sch[i]);
      assert At(Cancel(h, handle), handle, Assigned);
    } else if i < |h.sch| {
      forall k | 0 <= k < |h.sch| && h.sch[k].handle == handle
        ensures k == i
      {
        HandlesOnce(h, k, i);
      }
    } else {
      assert forall k :: 0 <= k < |h.sch| ==> Handles(h.sch)[k] == h.sch[k].handle;
    }
  }

  lemma TwiceCounted(s: seq<nat>, i: nat, k: nat)
    requires i < |s| && k < |s| && i != k && s[i] == s[k]
    ensures multiset(s)[s[i]] >= 2
  {
    WithoutMultiset(s, i);
    var rest := Without(s, i);
    assert rest[if k < i then k else k - 1] == s[k];
  }

  lemma TwiceHeld(h: Host, k: nat, i: nat)
    requires k < |h.sch| && i < |h.sch| && k != i && h.sch[k].handle == h.sch[i].handle
    ensures Holdings(h)[h.sch[k].handle] >= 2
  {
    TwiceCounted(Handles(h.sch), k, i);
  }

  lemma HandlesOnce(h: Host, k: nat, i: nat)
    requires PoolOK(h) && k < |h.sch| && i < |h.sch| && h.sch[k].handle == h.sch[i].handle
    ensures k == i
  {
    if k != i {
      TwiceHeld(h, k, i);
      assert false;
    }
  }

  lemma DetachKeepsHost(h: Host, h1: Host, i: nat)
    requires HostOK(h) && i < |h.sch| && h.sch[i].active
    requires h1 == h.(sch := h.sch[i := Detach(h.sch[i])])
    ensures HostOK(h1)
  {
    assert XferOK(h.sch[i]);
    assert XferOK(Detach(h.sch[i]));
    assert Handles(h1.sch) == Handles(h.sch);
    SamePool(h, h1);
  }

  lemma DestroyKeepsHost(h: Host, handle: nat)
    requires HostOK(h)
    ensures HostOK(Destroy(h, handle))
  {
    CancelKeepsHost(h, handle);
    CancelLeavesActive(h, handle);
    DestroyAfterCancel(Cancel(h, handle), Destroy(h, handle), handle);
  }

  lemma DestroyAfterCancel(h: Host, h1: Host, handle: nat)
    requires HostOK(h)
    requires forall i :: 0 <= i < |h.sch| && h.sch[i].handle == handle && !At(h, handle, Assigned) ==> h.sch[i].active
    requires h1 == if At(h, handle, Assigned) then Unassign(h, handle) else MarkDetached(h, handle)
    ensures HostOK(h1)
  {
    if At(h, handle, Assigned) {
      LocationTells(h, handle);
      UnassignKeepsPool(h, handle);
    } else {
      var i := IndexOf(Handles(h.sch), handle);
      if i < |h.sch| {
        DetachKeepsHost(h, h1, i);
      }
    }
  }

  // HostOK looks at the lists, the pump's position and the numbering only.
  lemma SameLists(h: Host, h1: Host)
    requires HostOK(h)
    requires h1.cache == h.cache && h1.assign == h.assign && h1.sch == h.sch && h1.cur == h.cur
    requires SamePlaces(h, h1) && h1.nextJob == h.nextJob
    ensures HostOK(h1)
  {
    SamePool(h, h1);
  }

  // ---------------------------------------------------------------- queue facts

  lemma {:induction false} NoBytesNoCommands(x: Xfr, ds: seq<Cmd>)
    requires DataOK(x, ds)
    ensures ds == [] <==> x.cmd == x.rsp
  {
    if ds != [] {
      assert DataCmd(ds[0], x.dir);
    }
  }

  // The oldest command that is not a STOP belongs to the head of the scheduled list.
  lemma OldestIsHeads(w: World, k: nat)
    requires HostOK(w.h) && LinkOK(w) && w.h.rxLeft == 0
    requires k < |w.q| && w.q[k].Of? && forall m :: 0 <= m < k ==> w.q[m].Stop?
    ensures |w.h.sch| > 0 && w.q[k].job == w.h.sch[0].job
  {
    var j := w.q[k].job;
    assert Owned(w.h.sch, w.q[k]);
    var i :| 0 <= i < |w.h.sch| && w.h.sch[i].job == j;
    PendPresent(w.q, k);
    assert PendOK(w.h.sch[i], Pend(w.q, j));
    if i > 0 {
      assert w.h.cur > 0;
      var m := PendWitness(w.q, w.h.sch[0].job);
      assert false;
    }
  }

  // ---------------------------------------------------------------- leaving the list

  lemma RemoveKeepsOwners(sch: seq<Xfr>, q: seq<Entry>, i: nat)
    requires QueueOK(sch, q) && i < |sch| && Pend(q, sch[i].job) == []
    ensures QueueOK(Without(sch, i), q)
  {
    var s1 := Without(sch, i);
    forall k | 0 <= k < |q|
      ensures Owned(s1, q[k])
    {
      assert Owned(sch, q[k]);
      if q[k].Of? {
        var m :| 0 <= m < |sch| && sch[m].job == q[k].job;
        PendPresent(q, k);
        assert s1[if m < i then m else m - 1] == sch[m];
      }
    }
  }

  lemma RemoveKeepsPends(sch: seq<Xfr>, q: seq<Entry>, i: nat)
    requires PendsOK(sch, q) && i < |sch|
    ensures PendsOK(Without(sch, i), q)
  {
    var s1 := Without(sch, i);
    forall k | 0 <= k < |s1|
      ensures PendOK(s1[k], Pend(q, s1[k].job))
    {
      assert s1[k] == sch[Old(i, k)];
    }
  }

  lemma RemoveKeepsBusy(h: Host, q: seq<Entry>, i: nat, status: Status)
    requires SplitOK(h) && BusyOK(h, q) && HeadOnlyOK(h.sch) && i < |h.sch|
    requires i > 0 ==> !h.sch[i].active
    ensures BusyOK(Complete(h, i, status), q) && HeadOnlyOK(Complete(h, i, status).sch)
  {
    var h1 := Complete(h, i, status);
    forall k | 0 < k < |h1.sch|
      ensures k < h1.cur ==> Pend(q, h1.sch[k].job) != []
      ensures Unanswered(h1.sch[k])
    {
      assert h1.sch[k] == h.sch[Old(i, k)];
    }
  }

  lemma RemoveKeepsCore(h: Host, q: seq<Entry>, dead: bool, rxJob: nat, i: nat, status: Status)
    requires SplitOK(h) && LinkCore(h, q, dead, rxJob)
    requires i < |h.sch| && Pend(q, h.sch[i].job) == []
    requires i == 0 ==> h.rxLeft == 0
    requires i > 0 ==> !h.sch[i].active
    ensures LinkCore(Complete(h, i, status), q, dead, rxJob)
  {
    var h1 := Complete(h, i, status);
    RemoveKeepsOwners(h.sch, q, i);
    RemoveKeepsPends(h.sch, q, i);
    RemoveKeepsBusy(h, q, i, status);
    if |h1.sch| > 0 {
      assert h1.sch[0] == h.sch[Old(i, 0)];
    }
    assert HeadOK(h1, dead, rxJob);
  }

  lemma RemoveKeepsLink(w: World, i: nat, status: Status)
    requires HostOK(w.h) && LinkOK(w)
    requires i < |w.h.sch| && !w.h.sch[i].active
    ensures LinkOK(w.(h := Complete(w.h, i, status)))
  {
    assert PendOK(w.h.sch[i], Pend(w.q, w.h.sch[i].job));
    assert XferOK(w.h.sch[i]);
    RemoveKeepsCore(w.h, w.q, w.dead, w.rxJob, i, status);
    var h1 := Complete(w.h, i, status);
    if i == 0 && |h1.sch| > 0 {
      assert h1.sch[0] == w.h.sch[1];
      assert XferOK(h1.sch[0]);
    }
  }

  // The head either completes, or something is still due for it.
  lemma CheckHeadKeeps(h: Host, q: seq<Entry>, dead: bool, rxJob: nat)
    requires HostOK(h) && LinkCore(h, q, dead, rxJob)
    requires |h.sch| > 0 && h.sch[0].rxPhase == Data && h.rxLeft == 0
    ensures var h1 := CheckHead(h); HostOK(h1) && LinkCore(h1, q, dead, rxJob) && WaitOK(h1, q)
  {
    var x := h.sch[0];
    assert XferOK(x);
    assert PendOK(x, Pend(q, x.job));
    NoBytesNoCommands(x, Pend(q, x.job));
    if CanComplete(x) {
      FinishHead(h, q, dead, rxJob);
    }
  }

  lemma FinishHead(h: Host, q: seq<Entry>, dead: bool, rxJob: nat)
    requires HostOK(h) && LinkCore(h, q, dead, rxJob)
    requires |h.sch| > 0 && h.rxLeft == 0 && Pend(q, h.sch[0].job) == []
    ensures var h1 := CompleteHead(h); HostOK(h1) && LinkCore(h1, q, dead, rxJob) && WaitOK(h1, q)
  {
    var status := FinalStatus(h, h.sch[0]);
    RemoveKeepsCore(h, q, dead, rxJob, 0, status);
    CompleteKeepsHost(h, 0, status);
    var h1 := Complete(h, 0, status);
    var h2 := CompleteHead(h);
    SameLists(h1, h2);
    if |h2.sch| > 0 {
      assert h2.sch[0] == h.sch[1];
      assert XferOK(h2.sch[0]);
    }
  }

  // ---------------------------------------------------------------- user events

  lemma ScheduleKeepsLink(w: World, handle: nat, r: Request)
    requires HostOK(w.h) && LinkOK(w)
    ensures LinkOK(w.(h := Schedule(w.h, handle, r)))
  {
    if MaySchedule(w.h, handle, r) {
      var x := NewXfr(w.h, handle, r);
      var s1 := w.h.sch + [x];
      forall k | 0 <= k < |w.q|
        ensures Owned(s1, w.q[k])
      {
        assert Owned(w.h.sch, w.q[k]);
        if w.q[k].Of? {
          var m :| 0 <= m < |w.h.sch| && w.h.sch[m].job == w.q[k].job;
          assert s1[m] == w.h.sch[m];
        }
      }
      NewJobUnused(w, w.h.nextJob);
      assert PendsOK(s1, w.q);
    }
  }

  lemma PendingJobsListed(w: World, job: nat)
    requires JobsOK(w.h) && QueueOK(w.h.sch, w.q) && Pend(w.q, job) != []
    ensures job < w.h.nextJob
  {
    var k := PendWitness(w.q, job);
    assert Owned(w.h.sch, w.q[k]);
  }

  lemma NewJobUnused(w: World, job: nat)
    requires JobsOK(w.h) && QueueOK(w.h.sch, w.q) && job >= w.h.nextJob
    ensures Pend(w.q, job) == []
  {
    if Pend(w.q, job) != [] {
      PendingJobsListed(w, job);
      assert false;
    }
  }

  lemma CancelKeepsLink(w: World, handle: nat)
    requires HostOK(w.h) && LinkOK(w)
    ensures LinkOK(w.(h := Cancel(w.h, handle)))
  {
    var i := IndexOf(Handles(w.h.sch), handle);
    if At(w.h, handle, Scheduled) && i < |w.h.sch| && !w.h.sch[i].active {
      RemoveKeepsLink(w, i, Cancelled);
    }
  }

  // Rewriting transfer i without touching its job keeps every entry owned.
  lemma ReplaceKeepsOwners(sch: seq<Xfr>, q: seq<Entry>, i: nat, x: Xfr)
    requires QueueOK(sch, q) && i < |sch| && x.job == sch[i].job
    ensures QueueOK(sch[i := x], q)
  {
    var s1 := sch[i := x];
    forall k | 0 <= k < |q|
      ensures Owned(s1, q[k])
    {
      assert Owned(sch, q[k]);
      if q[k].Of? {
        var m :| 0 <= m < |sch| && sch[m].job == q[k].job;
        assert s1[m].job == sch[m].job;
      }
    }
  }

  lemma DetachKeepsPends(sch: seq<Xfr>, q: seq<Entry>, i: nat)
    requires PendsOK(sch, q) && i < |sch|
    ensures PendsOK(sch[i := Detach(sch[i])], q)
  {
    var s1 := sch[i := Detach(sch[i])];
    forall k | 0 <= k < |s1|
      ensures PendOK(s1[k], Pend(q, s1[k].job))
    {
      var p := Pend(q, sch[k].job);
      assert PendOK(sch[k], p);
      assert DataOK(sch[k], p) ==> DataOK(s1[k], p);
      assert p != [] && DataOK(sch[k], p[1..]) ==> DataOK(s1[k], p[1..]);
    }
  }

  lemma DetachKeepsLink(w: World, i: nat)
    requires HostOK(w.h) && LinkOK(w) && i < |w.h.sch|
    ensures LinkOK(w.(h := w.h.(sch := w.h.sch[i := Detach(w.h.sch[i])])))
  {
    var h1 := w.h.(sch := w.h.sch[i := Detach(w.h.sch[i])]);
    ReplaceKeepsOwners(w.h.sch, w.q, i, Detach(w.h.sch[i]));
    DetachKeepsPends(w.h.sch, w.q, i);
    forall k | 0 < k < |h1.sch|
      ensures k < h1.cur ==> Pend(w.q, h1.sch[k].job) != []
      ensures Unanswered(h1.sch[k])
    {
      assert h1.sch[k].job == w.h.sch[k].job && Unanswered(w.h.sch[k]);
    }
    assert HeadOK(h1, w.dead, w.rxJob);
  }

  lemma DestroyKeepsLink(w: World, handle: nat)
    requires HostOK(w.h) && LinkOK(w)
    ensures LinkOK(w.(h := Destroy(w.h, handle)))
  {
    CancelKeepsLink(w, handle);
    CancelKeepsHost(w.h, handle);
    var h1 := Cancel(w.h, handle);
    var i := IndexOf(Handles(h1.sch), handle);
    if !At(h1, handle, Assigned) && i < |h1.sch| {
      DetachKeepsLink(w.(h := h1), i);
    }
  }
}
