/**
 The doubly linked list under every transfer queue, at the level of its pointers.
 `items` is the list a base stands for; Valid ties the pointers to it.
 */
module Ldll {
  import opened Basics

  // An item is part of the object it links; `owner` is that object's number.
  class Item {
    var prev: Item?
    var next: Item?
    const owner: nat

    constructor (owner: nat)
      ensures this.owner == owner
    {
      prev, next, this.owner := null, null, owner;
    }
  }

  // The neighbours an item has in a list.
  ghost function Before(items: seq<Item>, i: nat): Item?
    requires i < |items|
  {
    if i == 0 then null else items[i - 1]
  }

  ghost function After(items: seq<Item>, i: nat): Item?
    requires i < |items|
  {
    if i + 1 == |items| then null else items[i + 1]
  }

  ghost predicate Distinct(items: seq<Item>) {
    forall i, j :: 0 <= i < j < |items| ==> items[i] != items[j]
  }

  lemma SnocDistinct(items: seq<Item>, item: Item)
    requires Distinct(items) && item !in items
    ensures Distinct(items + [item])
  {
  }

  lemma WithoutDistinct(items: seq<Item>, k: nat)
    requires Distinct(items) && k < |items|
    ensures Distinct(Without(items, k))
    ensures items[k] !in Without(items, k)
  {
    var rest := Without(items, k);
    forall i, j | 0 <= i < j < |rest| ensures rest[i] != rest[j] {
      assert rest[i] == items[if i < k then i else i + 1] && rest[j] == items[if j < k then j else j + 1];
    }
  }

  // Item i points at its neighbours.
  ghost predicate LinkedAt(items: seq<Item>, i: nat)
    requires i < |items|
    reads items
  {
    items[i].prev == Before(items, i) && items[i].next == After(items, i)
  }

  ghost predicate Linked(items: seq<Item>)
    reads items
  {
    forall i {:trigger LinkedAt(items, i)} :: 0 <= i < |items| ==> LinkedAt(items, i)
  }

  class Base {
    var first: Item?
    var last: Item?
    ghost var items: seq<Item>

    ghost predicate Valid()
      reads this, items
    {
      && Distinct(items) && Linked(items)
      && first == (if items == [] then null else items[0])
      && last == (if items == [] then null else items[|items| - 1])
    }

    constructor ()
      ensures Valid() && items == []
    {
      first, last, items := null, null, [];
    }

    method LinkHead(item: Item)
      requires Valid() && item !in items
      modifies this, item, items
      ensures Valid() && items == [item] + old(items)
    {
      ghost var was := items;
      item.prev := null;
      item.next := first;
      if first != null { first.prev := item; } else { last := item; }
      first := item;
      items := [item] + was;
      assert was != [] ==> old(LinkedAt(was, 0));
      forall i | 0 <= i < |items| ensures LinkedAt(items, i) {
        if i > 0 { assert items[i] == was[i - 1] && old(LinkedAt(was, i - 1)); }
      }
    }

    method LinkTail(item: Item)
      requires Valid() && item !in items
      modifies this, item, items
      ensures Valid() && items == old(items) + [item]
    {
      ghost var was := items;
      item.next := null;
      item.prev := last;
      if last != null { last.next := item; } else { first := item; }
      last := item;
      items := was + [item];
      SnocDistinct(was, item);
      forall i | 0 <= i < |items| ensures LinkedAt(items, i) {
        if i < |was| { assert items[i] == was[i] && old(LinkedAt(was, i)); }
      }
    }

    method UnlinkHead() returns (item: Item?)
      requires Valid()
      modifies this, items
      ensures Valid()
      ensures if old(items) == [] then item == null && items == []
              else item == old(items)[0] && items == old(items)[1..]
    {
      item := first;
      if item != null {
        ghost var was := items;
        assert LinkedAt(was, 0);
        var next := item.next;
        first := next;
        if next != null { next.prev := null; } else { last := null; }
        items := was[1..];
        forall i | 0 <= i < |items| ensures LinkedAt(items, i) {
          assert items[i] == was[i + 1] && old(LinkedAt(was, i + 1));
        }
      }
    }

    method UnlinkTail() returns (item: Item?)
      requires Valid()
      modifies this, items
      ensures Valid()
      ensures if old(items) == [] then item == null && items == []
              else item == old(items)[|old(items)| - 1] && items == old(items)[..|old(items)| - 1]
    {
      item := last;
      if item != null {
        ghost var was := items;
        assert LinkedAt(was, |was| - 1);
        var prev := item.prev;
        last := prev;
        if prev != null { prev.next := null; } else { first := null; }
        items := was[..|was| - 1];
        forall i | 0 <= i < |items| ensures LinkedAt(items, i) {
          assert items[i] == was[i] && old(LinkedAt(was, i));
        }
      }
    }

    // Takes the item out wherever it is; k is its place.
    method UnlinkItem(item: Item, ghost k: nat)
      requires Valid() && k < |items| && items[k] == item
      modifies this, items
      ensures Valid() && items == Without(old(items), k)
    {
      ghost var was := items;
      assert LinkedAt(was, k);
      var prev := item.prev;
      var next := item.next;
      if prev != null { prev.next := next; } else { first := next; }
      if next != null { next.prev := prev; } else { last := prev; }
      items := Without(was, k);
      WithoutDistinct(was, k);
      forall i | 0 <= i < |items| ensures LinkedAt(items, i) {
        ghost var j := if i < k then i else i + 1;
        assert items[i] == was[j] && old(LinkedAt(was, j));
      }
    }
  }

  ghost predicate Apart(a: Base, b: Base)
    reads a, b
  {
    a != b && forall item :: item in a.items ==> item !in b.items
  }

  // An item that is in neither list joins b; a is left alone.
  method Append(a: Base, b: Base, item: Item)
    requires a.Valid() && b.Valid() && Apart(a, b) && item !in a.items && item !in b.items
    modifies b, item, b.items
    ensures a.Valid() && b.Valid() && Apart(a, b)
    ensures a.items == old(a.items) && b.items == old(b.items) + [item]
  {
    b.LinkTail(item);
    forall i | 0 <= i < |a.items| ensures LinkedAt(a.items, i) {
      assert a.items[i] in old(a.items) && old(LinkedAt(a.items, i));
    }
  }

  // How a transfer changes lists: it leaves one and joins the tail of another, and no
  // item is lost, doubled, or in both.
  method Move(a: Base, b: Base, item: Item, ghost k: nat)
    requires a.Valid() && b.Valid() && Apart(a, b) && k < |a.items| && a.items[k] == item
    modifies a, b, a.items, b.items
    ensures a.Valid() && b.Valid() && Apart(a, b)
    ensures a.items == Without(old(a.items), k) && b.items == old(b.items) + [item]
    ensures multiset(a.items) + multiset(b.items) == multiset(old(a.items)) + multiset(old(b.items))
  {
    ghost var was := a.items;
    a.UnlinkItem(item, k);
    WithoutDistinct(was, k);
    forall i | 0 <= i < |b.items| ensures LinkedAt(b.items, i) {
      assert b.items[i] !in was && old(LinkedAt(b.items, i));
    }
    WithoutMultiset(was, k);
    Append(a, b, item);
  }

  // The same for the first item.
  method MoveHead(a: Base, b: Base) returns (item: Item)
    requires a.Valid() && b.Valid() && Apart(a, b) && a.items != []
    modifies a, b, a.items, b.items
    ensures a.Valid() && b.Valid() && Apart(a, b) && item == old(a.items)[0]
    ensures a.items == Without(old(a.items), 0) && b.items == old(b.items) + [item]
  {
    ghost var was := a.items;
    item := a.UnlinkHead();
    assert was[1..] == Without(was, 0);
    WithoutDistinct(was, 0);
    forall i | 0 <= i < |b.items| ensures LinkedAt(b.items, i) {
      assert b.items[i] !in was && old(LinkedAt(b.items, i));
    }
    Append(a, b, item);
  }
}
