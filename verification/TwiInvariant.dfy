/**
 What every run of host and conforming device keeps: the pool partition, the
 split of the scheduled list at the pump's transfer, the credit equation, and
 the match between the device's queue and the counters of the transfers.
 */
module TwiInvariant {
  import opened Basics
  import opened TwiHost
  import opened TwiWorld

  // ---------------------------------------------------------------- one transfer

  // No response has been credited to x yet.
  ghost predicate Unanswered(x: Xfr) {
    x.rxPhase == Addressing && x.rsp == 0 && x.xfrd == 0 && !x.nack && !x.short && !x.skipped
  }

  // Nothing of x has been emitted.
  ghost predicate Fresh(x: Xfr) {
    !x.active && !x.detached && x.cmd == 0 && x.txPhase == Addressing && Unanswered(x)
  }

  // All commands of x have been emitted.
  ghost predicate Emitted(x: Xfr) {
    x.active && x.cmd == x.sc
  }

  // What a write sends is what the user handed over; destroying it changes nothing of that.
  ghost predicate OriginOK(x: Xfr) {
    && |x.orig| == x.sc
    && (x.dir == Write ==> x.buf == x.orig)
    && (x.detached ==> x.cut <= if x.dir == Write then x.cmd else x.xfrd)
  }

  ghost predicate XferOK(x: Xfr) {
    && x.xfrd <= x.rsp <= x.cmd <= x.sc
    && |x.buf| == x.sc && (x.detached ==> x.active)
    && OriginOK(x)
    && (x.dir == Read ==> x.sc > 0)
    && (x.active ==> (x.txPhase == Data <==> !Probe(x)))
    && (!x.active ==> Fresh(x))
    && (x.rxPhase == Data ==> x.active && x.txPhase == Data)
    && (x.rxPhase == Addressing ==> Unanswered(x))
  }

  // ---------------------------------------------------------------- the host alone

  function Holdings(h: Host): multiset<nat> {
    multiset(h.cache) + multiset(h.assign) + multiset(Handles(h.sch))
  }

  // Every transfer object ever allocated sits in exactly one list, once.
  ghost predicate HeldOnce(h: Host) {
    forall k: nat :: Holdings(h)[k] == if k < h.nextHandle then 1 else 0
  }

  // The location of each object names the list it is in.
  ghost predicate Located(h: Host) {
    && (forall k: nat :: k in h.loc <==> k < h.nextHandle)
    && (forall k :: k in h.cache ==> At(h, k, Cached))
    && (forall k :: k in h.assign ==> At(h, k, Assigned))
    && (forall k :: k in Handles(h.sch) ==> At(h, k, Scheduled))
  }

  ghost predicate CountersOK(h: Host) {
    h.cachedCnt == |h.cache| && h.assignedCnt == |h.assign| && h.schCnt == |h.sch|
  }

  ghost predicate PoolOK(h: Host) {
    HeldOnce(h) && Located(h) && CountersOK(h)
  }

  ghost predicate JobsOK(h: Host) {
    && (forall i :: 0 <= i < |h.sch| ==> h.sch[i].job < h.nextJob)
    && (forall i, j :: 0 <= i < j < |h.sch| ==> h.sch[i].job < h.sch[j].job)
  }

  // Before cur everything is emitted, after cur nothing is, at cur something is left to emit.
  ghost predicate SplitOK(h: Host) {
    && h.cur <= |h.sch|
    && (forall i :: 0 <= i < h.cur ==> Emitted(h.sch[i]))
    && (h.cur < |h.sch| ==> !Emitted(h.sch[h.cur]))
    && (forall i :: h.cur < i < |h.sch| ==> !h.sch[i].active)
  }

  ghost predicate XfersOK(h: Host) {
    forall i :: 0 <= i < |h.sch| ==> XferOK(h.sch[i])
  }

  ghost predicate HostOK(h: Host) {
    PoolOK(h) && JobsOK(h) && SplitOK(h) && XfersOK(h)
  }

  // ---------------------------------------------------------------- host and queue

  // The unanswered commands p of x are exactly what its counters say.
  ghost predicate PendOK(x: Xfr, p: seq<Cmd>) {
    if !x.active then p == []
    else if x.rxPhase == Addressing then
      |p| > 0 && p[0] == Start(AddressByte(x)) && DataOK(x, p[1..])
    else DataOK(x, p)
  }

  ghost predicate DataOK(x: Xfr, ds: seq<Cmd>) {
    && (forall k :: 0 <= k < |ds| ==> DataCmd(ds[k], x.dir))
    && Bytes(ds) == x.cmd - x.rsp
  }

  ghost predicate DataCmd(c: Cmd, dir: Dir) {
    (if dir == Write then c.Tx? else c.Rx?) && 1 <= Size(c) <= 32
  }

  ghost predicate Owned(sch: seq<Xfr>, e: Entry) {
    e.Of? ==> exists i :: 0 <= i < |sch| && sch[i].job == e.job
  }

  // Free space and unanswered commands fill the device's buffer; a command whose count
  // has arrived no longer takes up space.
  ghost predicate CreditOK(h: Host, q: seq<Entry>) {
    h.free + Load(q) == h.len + h.early
  }

  ghost predicate EarlyOK(h: Host, q: seq<Entry>, dead: bool) {
    h.early > 0 ==>
      && h.rxLeft == 0 && !dead
      && q != [] && q[0].Of? && !q[0].cmd.Start? && h.early == Cost(q[0])
  }

  ghost predicate QueueOK(sch: seq<Xfr>, q: seq<Entry>) {
    && (forall k :: 0 <= k < |q| ==> Owned(sch, q[k]))
    && (forall a, b :: 0 <= a < b < |q| && q[a].Of? && q[b].Of? ==> q[a].job <= q[b].job)
  }

  ghost predicate PendsOK(sch: seq<Xfr>, q: seq<Entry>) {
    forall i :: 0 <= i < |sch| ==> PendOK(sch[i], Pend(q, sch[i].job))
  }

  // A fully emitted transfer behind the head is waiting for responses.
  ghost predicate BusyOK(h: Host, q: seq<Entry>) {
    && h.cur <= |h.sch|
    && forall i :: 0 < i < h.cur ==> Pend(q, h.sch[i].job) != []
  }

  // Only the head transfer has been answered at all.
  ghost predicate HeadOnlyOK(sch: seq<Xfr>) {
    forall i :: 0 < i < |sch| ==> Unanswered(sch[i])
  }

  // The head's counters against what the device remembers of it.
  ghost predicate HeadOK(h: Host, dead: bool, rxJob: nat) {
    && (h.rxLeft > 0 ==>
          |h.sch| > 0 && h.sch[0].rxPhase == Data && h.sch[0].dir == Read && h.sch[0].job == rxJob)
    && (|h.sch| > 0 && h.sch[0].rxPhase == Data ==>
          var x := h.sch[0];
          && x.xfrd + h.rxLeft <= x.rsp
          && (x.short ==> dead)
          && (!x.short ==> x.xfrd + h.rxLeft == x.rsp && !x.skipped)
          && (x.short && x.rsp > 0 ==> x.xfrd + h.rxLeft < x.rsp))
  }

  // A skipped START whose data the pump had not begun: no response is due and none will be.
  predicate Stuck(x: Xfr) {
    x.rxPhase == Data && x.skipped && x.short && x.cmd == 0
  }

  // The head is still listed because something is due for it, or to be emitted, or it is stuck.
  ghost predicate WaitOK(h: Host, q: seq<Entry>) {
    |h.sch| > 0 && h.rxLeft == 0 && Pend(q, h.sch[0].job) == [] ==>
      h.cur == 0 && (h.sch[0].short ==> Stuck(h.sch[0]))
  }

  // LinkOK with the head possibly ripe for completion.
  ghost predicate LinkCore(h: Host, q: seq<Entry>, dead: bool, rxJob: nat) {
    && CreditOK(h, q)
    && QueueOK(h.sch, q)
    && PendsOK(h.sch, q)
    && BusyOK(h, q)
    && HeadOnlyOK(h.sch)
    && HeadOK(h, dead, rxJob)
  }

  ghost predicate LinkOK(w: World) {
    LinkCore(w.h, w.q, w.dead, w.rxJob) && WaitOK(w.h, w.q) && EarlyOK(w.h, w.q, w.dead)
  }

  ghost predicate Inv(w: World) {
    HostOK(w.h) && (w.up ==> LinkOK(w))
  }

  // Inv licenses every event.
  lemma InvEnables(w: World)
    requires Inv(w)
    ensures w.up ==> Pumpable(w.h)
    ensures DeliverPossible(w) ==> StoreInside(w.h)
  {
    if w.up && w.h.cur < |w.h.sch| {
      assert XferOK(w.h.sch[w.h.cur]);
    }
    if DeliverPossible(w) {
      assert XferOK(w.h.sch[0]);
    }
  }

  // ---------------------------------------------------------------- the pool

  lemma HandlesWithout(sch: seq<Xfr>, i: nat)
    requires i < |sch|
    ensures Handles(Without(sch, i)) == Without(Handles(sch), i)
  {
  }

  lemma UnlinkedCounts(s: seq<nat>, handle: nat)
    requires handle in s
    ensures multiset(s) == multiset(Unlinked(s, handle)) + multiset{handle} && |Unlinked(s, handle)| == |s| - 1
  {
    WithoutMultiset(s, IndexOf(s, handle));
  }

  lemma AssignHolds(h: Host, handle: nat)
    ensures Holdings(Assign(h, handle)) == Holdings(h) + multiset{handle}
  {
    assert multiset(h.assign + [handle]) == multiset(h.assign) + multiset{handle};
  }

  lemma TakenHolds(h: Host, i: nat, status: Status)
    requires i < |h.sch|
    ensures Holdings(h) == Holdings(Taken(h, i, status)) + multiset{h.sch[i].handle}
    ensures forall k :: k in Handles(Taken(h, i, status).sch) ==> k in Handles(h.sch)
  {
    HandlesWithout(h.sch, i);
    WithoutMultiset(Handles(h.sch), i);
  }

  lemma CompleteKeepsHoldings(h: Host, i: nat, status: Status)
    requires i < |h.sch|
    ensures Holdings(Complete(h, i, status)) == Holdings(h)
  {
    var handle := h.sch[i].handle;
    var h0 := Taken(h, i, status);
    var h1 := Assign(h0, handle);
    TakenHolds(h, i, status);
    AssignHolds(h0, handle);
    if h.sch[i].detached {
      UnassignKeepsHoldings(h1, handle);
    }
  }

  lemma UnassignKeepsHoldings(h: Host, handle: nat)
    requires handle in h.assign
    ensures Holdings(Unassign(h, handle)) == Holdings(h)
  {
    UnlinkedCounts(h.assign, handle);
  }

  lemma ScheduleKeepsHoldings(h: Host, handle: nat, r: Request)
    requires MaySchedule(h, handle, r) && handle in h.assign
    ensures Holdings(Schedule(h, handle, r)) == Holdings(h)
  {
    UnlinkedCounts(h.assign, handle);
    var x := NewXfr(h, handle, r);
    assert Handles(h.sch + [x]) == Handles(h.sch) + [handle];
  }

  // Each handle is in exactly one of the three lists, and there only once.
  lemma ExactlyOneList(h: Host, handle: nat)
    requires HeldOnce(h) && handle < h.nextHandle
    ensures multiset(h.cache)[handle] + multiset(h.assign)[handle] + multiset(Handles(h.sch))[handle] == 1
    ensures handle in h.cache ==> handle !in h.assign && handle !in Handles(h.sch)
    ensures handle in h.assign ==> handle !in h.cache && handle !in Handles(h.sch)
    ensures handle in h.cache || handle in h.assign || handle in Handles(h.sch)
  {
    assert Holdings(h)[handle] == 1;
    assert handle in h.cache <==> multiset(h.cache)[handle] > 0;
    assert handle in h.assign <==> multiset(h.assign)[handle] > 0;
    assert handle in Handles(h.sch) <==> multiset(Handles(h.sch))[handle] > 0;
  }

  // The location tells the list.
  lemma LocationTells(h: Host, handle: nat)
    requires PoolOK(h)
    ensures At(h, handle, Cached) <==> handle in h.cache
    ensures At(h, handle, Assigned) <==> handle in h.assign
    ensures At(h, handle, Scheduled) <==> handle in Handles(h.sch)
  {
    if handle < h.nextHandle {
      ExactlyOneList(h, handle);
    }
  }

  // One object changes its list, and its location with it.
  lemma Relocated(h: Host, h1: Host, handle: nat, loc: Loc)
    requires Located(h) && HeldOnce(h1) && handle < h1.nextHandle
    requires h1.loc == h.loc[handle := loc]
    requires h1.nextHandle == (if handle < h.nextHandle then h.nextHandle else handle + 1)
    requires handle <= h.nextHandle
    requires forall k :: k in h1.cache && k != handle ==> k in h.cache
    requires forall k :: k in h1.assign && k != handle ==> k in h.assign
    requires forall k :: k in Handles(h1.sch) && k != handle ==> k in Handles(h.sch)
    requires match loc
             case Cached => handle in h1.cache
             case Assigned => handle in h1.assign
             case Scheduled => handle in Handles(h1.sch)
    ensures Located(h1)
  {
    ExactlyOneList(h1, handle);
  }

  lemma UnlinkedIn(s: seq<nat>, handle: nat)
    ensures forall k :: k in Unlinked(s, handle) ==> k in s
  {
  }

  lemma HoldingsOnce(h: Host, h1: Host)
    requires HeldOnce(h) && Holdings(h1) == Holdings(h) && h1.nextHandle == h.nextHandle
    ensures HeldOnce(h1)
  {
  }

  // An object that was in no list is assigned.
  lemma AssignLocates(h: Host, h0: Host, handle: nat)
    requires Located(h) && HeldOnce(Assign(h0, handle)) && handle < h0.nextHandle
    requires h0.loc == h.loc && h0.assign == h.assign && handle <= h.nextHandle
    requires h0.nextHandle == (if handle < h.nextHandle then h.nextHandle else handle + 1)
    requires forall k :: k in h0.cache ==> k in h.cache
    requires forall k :: k in Handles(h0.sch) ==> k in Handles(h.sch)
    ensures Located(Assign(h0, handle))
  {
    Relocated(h, Assign(h0, handle), handle, Assigned);
  }

  lemma CreateFromCache(h: Host)
    requires PoolOK(h) && h.cachedCnt > 0
    ensures PoolOK(Create(h))
  {
    var handle := HeadOf(h.cache);
    var h0 := h.(cache := Unlinked(h.cache, handle), cachedCnt := h.cachedCnt - 1);
    UnlinkedCounts(h.cache, handle);
    UnlinkedIn(h.cache, handle);
    AssignHolds(h0, handle);
    assert Holdings(h) == Holdings(h0) + multiset{handle};
    HoldingsOnce(h, Assign(h0, handle));
    LocationTells(h, handle);
    AssignLocates(h, h0, handle);
  }

  lemma CreateNew(h: Host)
    requires PoolOK(h) && h.cachedCnt <= 0
    ensures PoolOK(Create(h))
  {
    var h0 := h.(nextHandle := h.nextHandle + 1);
    AssignHolds(h0, h.nextHandle);
    assert Holdings(h0) == Holdings(h);
    AssignLocates(h, h0, h.nextHandle);
  }

  lemma CreateKeepsPool(h: Host)
    requires PoolOK(h)
    ensures PoolOK(Create(h))
  {
    if h.cachedCnt > 0 {
      CreateFromCache(h);
    } else {
      CreateNew(h);
    }
  }

  lemma ScheduleKeepsPool(h: Host, handle: nat, r: Request)
    requires PoolOK(h)
    ensures PoolOK(Schedule(h, handle, r))
  {
    if MaySchedule(h, handle, r) {
      var h1 := Schedule(h, handle, r);
      LocationTells(h, handle);
      ScheduleKeepsHoldings(h, handle, r);
      UnlinkedCounts(h.assign, handle);
      UnlinkedIn(h.assign, handle);
      assert Handles(h1.sch) == Handles(h.sch) + [handle];
      Relocated(h, h1, handle, Scheduled);
    }
  }

  lemma UnassignKeepsPool(h: Host, handle: nat)
    requires PoolOK(h) && handle in h.assign
    ensures PoolOK(Unassign(h, handle))
  {
    LocationTells(h, handle);
    UnassignKeepsHoldings(h, handle);
    UnlinkedCounts(h.assign, handle);
    UnlinkedIn(h.assign, handle);
    Relocated(h, Unassign(h, handle), handle, Cached);
  }

  lemma CompleteKeepsPool(h: Host, i: nat, status: Status)
    requires PoolOK(h) && i < |h.sch|
    ensures PoolOK(Complete(h, i, status))
  {
    var handle := h.sch[i].handle;
    var h0 := Taken(h, i, status);
    var h1 := Assign(h0, handle);
    TakenHolds(h, i, status);
    AssignHolds(h0, handle);
    HoldingsOnce(h, h1);
    assert Handles(h.sch)[i] == handle;
    LocationTells(h, handle);
    AssignLocates(h, h0, handle);
    if h.sch[i].detached {
      UnassignKeepsPool(h1, handle);
    }
  }

  // Locations, counters and the number of objects are as before.
  predicate SamePlaces(h: Host, h1: Host) {
    && h1.loc == h.loc && h1.nextHandle == h.nextHandle
    && h1.cachedCnt == h.cachedCnt && h1.assignedCnt == h.assignedCnt && h1.schCnt == h.schCnt
  }

  // The pool looks at handles and locations only.
  lemma SamePool(h: Host, h1: Host)
    requires PoolOK(h) && SamePlaces(h, h1)
    requires h1.cache == h.cache && h1.assign == h.assign && Handles(h1.sch) == Handles(h.sch)
    ensures PoolOK(h1)
  {
    assert |h1.sch| == |Handles(h1.sch)|;
    assert Holdings(h1) == Holdings(h);
  }
}
