/**
 The pool of TWI transfer objects as the three linked lists it is made of. What the
 list operations do to the lists is what TwiHost says on values.
 */
module TwiPool {
  import opened Basics
  import opened Ldll
  import opened TwiHost
  import opened TwiInvariant
  import opened TwiSteps

  function Owners(items: seq<Item>): (r: seq<nat>)
    ensures |r| == |items|
    ensures forall i :: 0 <= i < |items| ==> r[i] == items[i].owner
  {
    seq(|items|, i requires 0 <= i < |items| => items[i].owner)
  }

  lemma OwnersWithout(items: seq<Item>, k: nat)
    requires k < |items|
    ensures Owners(Without(items, k)) == Without(Owners(items), k)
  {
  }

  lemma OwnersSnoc(items: seq<Item>, item: Item)
    ensures Owners(items + [item]) == Owners(items) + [item.owner]
  {
  }

  // The items of a list are those of known objects.
  ghost predicate Known(items: seq<Item>, objects: seq<Item>) {
    forall item :: item in items ==> item.owner < |objects| && objects[item.owner] == item
  }

  lemma HandlesSnoc(sch: seq<Xfr>, x: Xfr)
    ensures Handles(sch + [x]) == Handles(sch) + [x.handle]
  {
  }

  lemma MarkKeepsHandles(h: Host, handle: nat)
    ensures Handles(MarkDetached(h, handle).sch) == Handles(h.sch)
  {
  }

  // Three lists that share no item, all items being those of known objects.
  ghost predicate Three(a: Base, b: Base, c: Base, objects: seq<Item>)
    reads a, b, c, a.items, b.items, c.items
  {
    && a.Valid() && b.Valid() && c.Valid()
    && Apart(a, b) && Apart(b, a) && Apart(b, c) && Apart(c, b) && Apart(a, c) && Apart(c, a)
    && Known(a.items, objects) && Known(b.items, objects) && Known(c.items, objects)
  }

  // The place of an object's item in a list of known items.
  lemma PlaceOf(items: seq<Item>, objects: seq<Item>, item: Item)
    requires Known(items, objects) && item.owner < |objects| && objects[item.owner] == item
    requires item.owner in Owners(items)
    ensures var k := IndexOf(Owners(items), item.owner);
      k < |items| && items[k] == item && Owners(Without(items, k)) == Unlinked(Owners(items), item.owner)
  {
    OwnersWithout(items, IndexOf(Owners(items), item.owner));
  }

  // What stays true of the items when one of them moves.
  lemma MovedItems(a: seq<Item>, b: seq<Item>, c: seq<Item>, k: nat, objects: seq<Item>)
    requires k < |a| && Known(a, objects) && Known(b, objects)
    requires forall x :: x in a ==> x !in c
    requires forall x :: x in b ==> x !in c
    ensures Known(Without(a, k), objects) && Known(b + [a[k]], objects)
    ensures forall x :: x in Without(a, k) ==> x !in c
    ensures forall x :: x in b + [a[k]] ==> x !in c
  {
  }

  // An object's item moves from list a to list b; list c is left alone.
  method Transfer(a: Base, b: Base, c: Base, item: Item, ghost objects: seq<Item>)
    requires Three(a, b, c, objects) && item.owner < |objects| && objects[item.owner] == item
    requires item.owner in Owners(a.items)
    modifies a, b, a.items, b.items
    ensures Three(a, b, c, objects)
    ensures Owners(a.items) == Unlinked(old(Owners(a.items)), item.owner)
    ensures Owners(b.items) == old(Owners(b.items)) + [item.owner] && c.items == old(c.items)
  {
    ghost var k := IndexOf(Owners(a.items), item.owner);
    PlaceOf(a.items, objects, item);
    OwnersSnoc(b.items, item);
    ghost var aItems, bItems := a.items, b.items;
    MovedItems(aItems, bItems, c.items, k, objects);
    label Before:
    Move(a, b, item, k);
    forall i | 0 <= i < |c.items| ensures LinkedAt(c.items, i) {
      assert c.items[i] !in aItems && c.items[i] !in bItems && old@Before(LinkedAt(c.items, i));
    }
  }

  // The first item of list a moves to list b.
  method TransferHead(a: Base, b: Base, c: Base, ghost objects: seq<Item>) returns (item: Item)
    requires Three(a, b, c, objects) && a.items != []
    modifies a, b, a.items, b.items
    ensures Three(a, b, c, objects) && item == old(a.items)[0]
    ensures Owners(a.items) == Without(old(Owners(a.items)), 0)
    ensures Owners(b.items) == old(Owners(b.items)) + [item.owner] && c.items == old(c.items)
  {
    OwnersWithout(a.items, 0);
    OwnersSnoc(b.items, a.items[0]);
    ghost var aItems, bItems := a.items, b.items;
    MovedItems(aItems, bItems, c.items, 0, objects);
    label Before:
    item := MoveHead(a, b);
    forall i | 0 <= i < |c.items| ensures LinkedAt(c.items, i) {
      assert c.items[i] !in aItems && c.items[i] !in bItems && old@Before(LinkedAt(c.items, i));
    }
  }

  // A new object's item joins list a; the others are left alone.
  method LinkNew(a: Base, b: Base, c: Base, item: Item, ghost objects: seq<Item>)
    requires Three(a, b, c, objects) && item.owner == |objects| && item !in objects
    modifies a, item, a.items
    ensures Three(a, b, c, objects + [item])
    ensures Owners(a.items) == old(Owners(a.items)) + [item.owner] && b.items == old(b.items) && c.items == old(c.items)
  {
    ghost var aItems := a.items;
    OwnersSnoc(a.items, item);
    label Before:
    a.LinkTail(item);
    assert forall x :: x in a.items ==> x in aItems || x == item;
    forall i | 0 <= i < |b.items| ensures LinkedAt(b.items, i) {
      assert b.items[i] !in aItems && old@Before(LinkedAt(b.items, i));
    }
    forall i | 0 <= i < |c.items| ensures LinkedAt(c.items, i) {
      assert c.items[i] !in aItems && old@Before(LinkedAt(c.items, i));
    }
  }

  class Pool {
    const cachedList: Base
    const assignedList: Base
    const schList: Base
    var cachedCnt: int
    var assignedCnt: int
    var schCnt: int
    var loc: map<nat, Loc>
    var nextHandle: nat
    ghost var objects: seq<Item>    // every object there is, by its number

    ghost predicate Valid()
      reads this`objects, cachedList, assignedList, schList, cachedList.items, assignedList.items, schList.items
    {
      Three(cachedList, assignedList, schList, objects)
    }

    // What the lists hold.
    ghost predicate Lists(cache: seq<nat>, assign: seq<nat>, sch: seq<nat>)
      reads cachedList, assignedList, schList
    {
      Owners(cachedList.items) == cache && Owners(assignedList.items) == assign && Owners(schList.items) == sch
    }

    // The lists, locations and counters are those of the host h.
    ghost predicate Shows(h: Host)
      reads this, cachedList, assignedList, schList
    {
      Lists(h.cache, h.assign, Handles(h.sch)) && Numbers(h)
    }

    ghost predicate Numbers(h: Host)
      reads this
    {
      && loc == h.loc && |objects| == nextHandle == h.nextHandle
      && cachedCnt == h.cachedCnt && assignedCnt == h.assignedCnt && schCnt == h.schCnt
    }

    // The item of an object of this pool.
    ghost predicate Owns(item: Item)
      reads this`objects
    {
      item.owner < |objects| && objects[item.owner] == item
    }

    constructor ()
      ensures Valid() && Shows(IDLE)
    {
      cachedList := new Base();
      assignedList := new Base();
      schList := new Base();
      cachedCnt, assignedCnt, schCnt, loc, nextHandle, objects := 0, 0, 0, map[], 0, [];
    }

    // The first object of the cache joins the assigned ones.
    method TakeCached() returns (item: Item)
      requires Valid() && cachedList.items != []
      modifies this`cachedCnt, cachedList, assignedList, cachedList.items, assignedList.items
      ensures Valid() && Owns(item) && item.owner == HeadOf(old(Owners(cachedList.items)))
      ensures Owners(cachedList.items) == Unlinked(old(Owners(cachedList.items)), item.owner)
      ensures Owners(assignedList.items) == old(Owners(assignedList.items)) + [item.owner]
      ensures schList.items == old(schList.items) && cachedCnt == old(cachedCnt) - 1
    {
      ghost var was := Owners(cachedList.items);
      assert cachedList.items[0] in cachedList.items && was[0] == cachedList.items[0].owner;
      cachedCnt := cachedCnt - 1;
      item := TransferHead(cachedList, assignedList, schList, objects);
      assert Unlinked(was, was[0]) == Without(was, 0);
    }

    // A new object joins the assigned ones.
    method Allocate() returns (item: Item)
      requires Valid() && nextHandle == |objects|
      modifies this`objects, this`nextHandle, assignedList, assignedList.items
      ensures Valid() && Owns(item) && item.owner == old(nextHandle)
      ensures nextHandle == |objects| == old(nextHandle) + 1
      ensures cachedList.items == old(cachedList.items) && schList.items == old(schList.items)
      ensures Owners(assignedList.items) == old(Owners(assignedList.items)) + [item.owner]
    {
      item := new Item(nextHandle);
      LinkNew(assignedList, cachedList, schList, item, objects);
      objects := objects + [item];
      nextHandle := nextHandle + 1;
    }

    // Where an object is, and how many there are in each list.
    method Relocate(item: Item, place: Loc, cache: int, assign: int, sch: int)
      modifies this`cachedCnt, this`assignedCnt, this`schCnt, this`loc
      ensures loc == old(loc)[item.owner := place]
      ensures cachedCnt == old(cachedCnt) + cache
      ensures assignedCnt == old(assignedCnt) + assign && schCnt == old(schCnt) + sch
    {
      cachedCnt, assignedCnt, schCnt := cachedCnt + cache, assignedCnt + assign, schCnt + sch;
      loc := loc[item.owner := place];
    }

    method ListScheduled(item: Item)
      requires Valid() && Owns(item) && item.owner in Owners(assignedList.items)
      modifies assignedList, schList, assignedList.items, schList.items
      ensures Valid()
      ensures Owners(assignedList.items) == Unlinked(old(Owners(assignedList.items)), item.owner)
      ensures Owners(schList.items) == old(Owners(schList.items)) + [item.owner]
      ensures cachedList.items == old(cachedList.items)
    {
      Transfer(assignedList, schList, cachedList, item, objects);
    }

    // An assigned object joins the scheduled ones.
    method TakeAssigned(item: Item)
      requires Valid() && Owns(item) && item.owner in Owners(assignedList.items)
      modifies this`cachedCnt, this`assignedCnt, this`schCnt, this`loc
      modifies assignedList, schList, assignedList.items, schList.items
      ensures Valid()
      ensures Owners(assignedList.items) == Unlinked(old(Owners(assignedList.items)), item.owner)
      ensures Owners(schList.items) == old(Owners(schList.items)) + [item.owner]
      ensures cachedList.items == old(cachedList.items)
      ensures cachedCnt == old(cachedCnt)
      ensures assignedCnt == old(assignedCnt) - 1 && schCnt == old(schCnt) + 1
      ensures loc == old(loc)[item.owner := Scheduled]
    {
      ListScheduled(item);
      Relocate(item, Scheduled, 0, -1, 1);
    }

    method ListCached(item: Item)
      requires Valid() && Owns(item) && item.owner in Owners(assignedList.items)
      modifies assignedList, cachedList, assignedList.items, cachedList.items
      ensures Valid()
      ensures Owners(assignedList.items) == Unlinked(old(Owners(assignedList.items)), item.owner)
      ensures Owners(cachedList.items) == old(Owners(cachedList.items)) + [item.owner]
      ensures schList.items == old(schList.items)
    {
      Transfer(assignedList, cachedList, schList, item, objects);
    }

    // An assigned object goes back to the cache.
    method GiveBack(item: Item)
      requires Valid() && Owns(item) && item.owner in Owners(assignedList.items)
      modifies this`cachedCnt, this`assignedCnt, this`schCnt, this`loc
      modifies assignedList, cachedList, assignedList.items, cachedList.items
      ensures Valid()
      ensures Owners(assignedList.items) == Unlinked(old(Owners(assignedList.items)), item.owner)
      ensures Owners(cachedList.items) == old(Owners(cachedList.items)) + [item.owner]
      ensures schList.items == old(schList.items)
      ensures cachedCnt == old(cachedCnt) + 1
      ensures assignedCnt == old(assignedCnt) - 1 && schCnt == old(schCnt)
      ensures loc == old(loc)[item.owner := Cached]
    {
      ListCached(item);
      Relocate(item, Cached, 1, -1, 0);
    }

    method ListAssigned(item: Item)
      requires Valid() && Owns(item) && item.owner in Owners(schList.items)
      modifies schList, assignedList, schList.items, assignedList.items
      ensures Valid()
      ensures Owners(schList.items) == Unlinked(old(Owners(schList.items)), item.owner)
      ensures Owners(assignedList.items) == old(Owners(assignedList.items)) + [item.owner]
      ensures cachedList.items == old(cachedList.items)
    {
      Transfer(schList, assignedList, cachedList, item, objects);
    }

    // A scheduled object joins the assigned ones.
    method TakeScheduled(item: Item)
      requires Valid() && Owns(item) && item.owner in Owners(schList.items)
      modifies this`cachedCnt, this`assignedCnt, this`schCnt, this`loc
      modifies schList, assignedList, schList.items, assignedList.items
      ensures Valid()
      ensures Owners(schList.items) == Unlinked(old(Owners(schList.items)), item.owner)
      ensures Owners(assignedList.items) == old(Owners(assignedList.items)) + [item.owner]
      ensures cachedList.items == old(cachedList.items)
      ensures cachedCnt == old(cachedCnt)
      ensures assignedCnt == old(assignedCnt) + 1 && schCnt == old(schCnt) - 1
      ensures loc == old(loc)[item.owner := Assigned]
    {
      ListAssigned(item);
      Relocate(item, Assigned, 0, 1, -1);
    }

    // Takes an object from the cache, or allocates one if there is none.
    method Create(ghost h: Host) returns (item: Item)
      requires Valid() && Shows(h) && CountersOK(h)
      modifies this, cachedList, assignedList, schList, objects
      ensures Valid() && Shows(TwiHost.Create(h)) && Owns(item)
    {
      ghost var h0;
      if cachedCnt > 0 {
        item := TakeCached();
        h0 := h.(cache := Unlinked(h.cache, item.owner), cachedCnt := h.cachedCnt - 1);
      } else {
        item := Allocate();
        h0 := h.(nextHandle := h.nextHandle + 1);
      }
      Locate(item, h0);
    }

    // The object counts as assigned from now on.
    method Locate(item: Item, ghost h: Host)
      requires Valid() && Owns(item) && Lists(h.cache, h.assign + [item.owner], Handles(h.sch)) && Numbers(h)
      modifies this`assignedCnt, this`loc
      ensures Valid() && Owns(item) && Shows(Assign(h, item.owner))
    {
      assignedCnt := assignedCnt + 1;
      loc := loc[item.owner := Assigned];
    }

    // Schedules an assigned object for the request r, unless it asks to read nothing.
    method Schedule(item: Item, r: Request, ghost h: Host) returns (ok: bool)
      requires Valid() && Shows(h) && Owns(item) && PoolOK(h)
      modifies this`cachedCnt, this`assignedCnt, this`schCnt, this`loc, assignedList, schList, objects
      ensures Valid() && Shows(TwiHost.Schedule(h, item.owner, r)) && Owns(item)
      ensures ok <==> MaySchedule(h, item.owner, r)
    {
      LocationTells(h, item.owner);
      if r.dir == Read && |r.buf| == 0 { return false; }
      if loc[item.owner] != Assigned { return false; }
      Enlist(item, r, h);
      return true;
    }

    method Enlist(item: Item, r: Request, ghost h: Host)
      requires Valid() && Shows(h) && Owns(item) && item.owner in h.assign && MaySchedule(h, item.owner, r)
      modifies this`cachedCnt, this`assignedCnt, this`schCnt, this`loc, assignedList, schList, objects
      ensures Valid() && Shows(TwiHost.Schedule(h, item.owner, r)) && Owns(item)
    {
      ghost var x := NewXfr(h, item.owner, r);
      HandlesSnoc(h.sch, x);
      TakeAssigned(item);
      assert Lists(h.cache, Unlinked(h.assign, item.owner), Handles(h.sch + [x]));
    }

    // Back to the cache.
    method Unassign(item: Item, ghost h: Host)
      requires Valid() && Shows(h) && Owns(item) && item.owner in h.assign
      modifies this`cachedCnt, this`assignedCnt, this`schCnt, this`loc, assignedList, cachedList, objects
      ensures Valid() && Shows(TwiHost.Unassign(h, item.owner)) && Owns(item)
    {
      GiveBack(item);
    }

    // A scheduled object, the i-th, is assigned again.
    method Delist(item: Item, ghost h: Host, ghost i: nat, ghost status: Status)
      requires Valid() && Shows(h) && Owns(item) && i < |h.sch| && i == IndexOf(Handles(h.sch), item.owner)
      modifies this`cachedCnt, this`assignedCnt, this`schCnt, this`loc, assignedList, schList, objects
      ensures Valid() && Shows(Assign(Taken(h, i, status), item.owner)) && Owns(item)
    {
      HandlesWithout(h.sch, i);
      TakeScheduled(item);
    }

    // It goes on to the cache if the user has destroyed it.
    method Complete(item: Item, detached: bool, ghost h: Host, ghost i: nat, ghost status: Status)
      requires Valid() && Shows(h) && Owns(item)
      requires i < |h.sch| && i == IndexOf(Handles(h.sch), item.owner) && h.sch[i].detached == detached
      modifies this`cachedCnt, this`assignedCnt, this`schCnt, this`loc, cachedList, assignedList, schList, objects
      ensures Valid() && Shows(TwiHost.Complete(h, i, status)) && Owns(item)
    {
      Delist(item, h, i, status);
      if detached {
        Unassign(item, Assign(Taken(h, i, status), item.owner));
      }
    }

    // Cancels the object if it is scheduled and not active; answers whether it was scheduled.
    method Cancel(item: Item, active: bool, ghost h: Host) returns (scheduled: bool)
      requires Valid() && Shows(h) && Owns(item) && HostOK(h)
      requires At(h, item.owner, Scheduled) ==>
        forall i :: 0 <= i < |h.sch| && h.sch[i].handle == item.owner ==> h.sch[i].active == active
      modifies this`cachedCnt, this`assignedCnt, this`schCnt, this`loc, cachedList, assignedList, schList, objects
      ensures Valid() && Shows(TwiHost.Cancel(h, item.owner)) && Owns(item)
      ensures scheduled <==> At(h, item.owner, Scheduled)
    {
      if loc[item.owner] != Scheduled { return false; }
      ghost var i := IndexOf(Handles(h.sch), item.owner);
      LocationTells(h, item.owner);
      if !active {
        assert XferOK(h.sch[i]);
        Complete(item, false, h, i, Cancelled);
      }
      return true;
    }

    // Gives the object back: at once if it can be cancelled or is merely assigned; if not,
    // the caller has to mark it.
    method Destroy(item: Item, active: bool, ghost h: Host) returns (mark: bool)
      requires Valid() && Shows(h) && Owns(item) && HostOK(h)
      requires At(h, item.owner, Scheduled) ==>
        forall i :: 0 <= i < |h.sch| && h.sch[i].handle == item.owner ==> h.sch[i].active == active
      modifies this`cachedCnt, this`assignedCnt, this`schCnt, this`loc, cachedList, assignedList, schList, objects
      ensures Valid() && Shows(TwiHost.Destroy(h, item.owner)) && Owns(item)
      ensures mark <==> !At(TwiHost.Cancel(h, item.owner), item.owner, Assigned)
    {
      var scheduled := Cancel(item, active, h);
      ghost var h1 := TwiHost.Cancel(h, item.owner);
      CancelKeepsHost(h, item.owner);
      LocationTells(h1, item.owner);
      mark := Release(item, h1);
    }

    method Release(item: Item, ghost h: Host) returns (mark: bool)
      requires Valid() && Shows(h) && Owns(item) && item.owner in loc
      requires loc[item.owner] == Assigned ==> item.owner in h.assign
      modifies this`cachedCnt, this`assignedCnt, this`schCnt, this`loc, cachedList, assignedList, objects
      ensures Valid() && Owns(item) && (mark <==> !At(h, item.owner, Assigned))
      ensures Shows(if mark then MarkDetached(h, item.owner) else TwiHost.Unassign(h, item.owner))
    {
      mark := loc[item.owner] != Assigned;
      if mark {
        MarkKeepsHandles(h, item.owner);
      } else {
        Unassign(item, h);
      }
    }
  }
}
