/**
 What stays with a transfer from the moment it is scheduled, for any of the interfaces:
 what the user asked for, and, once the user has destroyed it, that it is destroyed and
 its buffer left alone.
 */
module Lineage {
  import opened Basics

  // The part of a transfer that matters here. `asked` is what the user wants done with the
  // buffer, `sent` how much was sent so far, `cut` how much when the user destroyed it.
  datatype Life<T> = Life(
    job: nat, asked: T, orig: seq<byte>, active: bool, detached: bool, sent: nat, cut: nat, buf: seq<byte>)

  // All transfers there are: those listed, those handed back, and the next job number.
  datatype Census<T> = Census(listed: seq<Life<T>>, logged: seq<Life<T>>, next: nat)

  // x1 is what x has become.
  predicate Heir<T(==)>(x: Life<T>, x1: Life<T>) {
    && x1.job == x.job && x1.asked == x.asked && x1.orig == x.orig
    && (x.active ==> x1.active) && x.sent <= x1.sent
    && (x.detached ==> x1.detached && x1.cut == x.cut && x1.buf == x.buf)
  }

  predicate HeirOf<T(==)>(listed: seq<Life<T>>, x1: Life<T>) {
    exists i :: 0 <= i < |listed| && Heir(listed[i], x1)
  }

  predicate Has<T>(c: Census<T>, job: nat) {
    || (exists i :: 0 <= i < |c.listed| && c.listed[i].job == job)
    || (exists k :: 0 <= k < |c.logged| && c.logged[k].job == job)
  }

  // Every transfer of c1 is one of c as it has become, or was scheduled since, and none of
  // c is lost.
  predicate Evolves<T(==)>(c: Census<T>, c1: Census<T>) {
    && c.next <= c1.next && |c.logged| <= |c1.logged|
    && (forall k :: 0 <= k < |c.logged| ==> c1.logged[k] == c.logged[k])
    && (forall i :: 0 <= i < |c.listed| ==> Has(c1, c.listed[i].job))
    && (forall i :: 0 <= i < |c1.listed| ==> c1.listed[i].job >= c.next || HeirOf(c.listed, c1.listed[i]))
    && (forall k :: 0 <= k < |c1.logged| ==>
          (k < |c.logged| && c1.logged[k] == c.logged[k]) || HeirOf(c.listed, c1.logged[k]))
  }

  // ---------------------------------------------------------------- moves

  lemma SameEvolves<T>(c: Census<T>)
    ensures Evolves(c, c)
  {
    forall i | 0 <= i < |c.listed| ensures HeirOf(c.listed, c.listed[i]) {
      assert Heir(c.listed[i], c.listed[i]);
    }
  }

  lemma ReplaceEvolves<T>(c: Census<T>, i: nat, x1: Life<T>)
    requires i < |c.listed| && Heir(c.listed[i], x1)
    ensures Evolves(c, c.(listed := c.listed[i := x1]))
  {
    var c1 := c.(listed := c.listed[i := x1]);
    forall k | 0 <= k < |c1.listed| ensures HeirOf(c.listed, c1.listed[k]) {
      assert Heir(c.listed[k], c1.listed[k]);
    }
    forall k | 0 <= k < |c.listed| ensures Has(c1, c.listed[k].job) {
      assert c1.listed[k].job == c.listed[k].job;
    }
  }

  // A transfer is handed back as x1.
  function HandedBack<T>(c: Census<T>, i: nat, x1: Life<T>): Census<T>
    requires i < |c.listed|
  {
    c.(listed := Without(c.listed, i), logged := c.logged + [x1])
  }

  lemma TakenEvolves<T>(c: Census<T>, i: nat, x1: Life<T>)
    requires i < |c.listed| && Heir(c.listed[i], x1)
    ensures Evolves(c, HandedBack(c, i, x1))
  {
    var c1 := HandedBack(c, i, x1);
    forall k | 0 <= k < |c1.listed| ensures HeirOf(c.listed, c1.listed[k]) {
      var j := if k < i then k else k + 1;
      assert Heir(c.listed[j], c1.listed[k]);
    }
    assert HeirOf(c.listed, x1);
    forall k | 0 <= k < |c.listed| ensures Has(c1, c.listed[k].job) {
      if k == i {
        assert c1.logged[|c.logged|] == x1;
      } else {
        assert c1.listed[if k < i then k else k - 1] == c.listed[k];
      }
    }
  }

  lemma AddedEvolves<T>(c: Census<T>, x: Life<T>)
    requires x.job == c.next
    ensures Evolves(c, c.(listed := c.listed + [x], next := c.next + 1))
  {
    var c1 := c.(listed := c.listed + [x], next := c.next + 1);
    forall k | 0 <= k < |c.listed| ensures HeirOf(c.listed, c.listed[k]) && Has(c1, c.listed[k].job) {
      assert Heir(c.listed[k], c.listed[k]) && c1.listed[k] == c.listed[k];
    }
  }

  lemma HeirsOfHeirs<T>(c: Census<T>, c1: Census<T>, x2: Life<T>)
    requires Evolves(c, c1) && HeirOf(c1.listed, x2) && x2.job < c.next
    ensures HeirOf(c.listed, x2)
  {
    var i :| 0 <= i < |c1.listed| && Heir(c1.listed[i], x2);
    var k :| 0 <= k < |c.listed| && Heir(c.listed[k], c1.listed[i]);
    assert Heir(c.listed[k], x2);
  }

  predicate Numbered<T>(c: Census<T>) {
    forall i :: 0 <= i < |c.listed| ==> c.listed[i].job < c.next
  }

  lemma EvolvesOn<T>(c: Census<T>, c1: Census<T>, c2: Census<T>)
    requires Evolves(c, c1) && Evolves(c1, c2) && c1.next == c.next && Numbered(c1)
    ensures Evolves(c, c2)
  {
    forall i | 0 <= i < |c2.listed| ensures c2.listed[i].job >= c.next || HeirOf(c.listed, c2.listed[i]) {
      if c2.listed[i].job < c.next {
        HeirsOfHeirs(c, c1, c2.listed[i]);
      }
    }
    forall k | 0 <= k < |c2.logged|
      ensures (k < |c.logged| && c2.logged[k] == c.logged[k]) || HeirOf(c.listed, c2.logged[k])
    {
      if !(k < |c1.logged| && c2.logged[k] == c1.logged[k]) {
        var i :| 0 <= i < |c1.listed| && Heir(c1.listed[i], c2.logged[k]);
        HeirsOfHeirs(c, c1, c2.logged[k]);
      }
    }
    forall i | 0 <= i < |c.listed| ensures Has(c2, c.listed[i].job) {
      StillThere(c1, c2, c.listed[i].job);
    }
  }

  lemma StillThere<T>(c: Census<T>, c1: Census<T>, job: nat)
    requires Evolves(c, c1) && Has(c, job)
    ensures Has(c1, job)
  {
    if k :| 0 <= k < |c.logged| && c.logged[k].job == job {
      assert c1.logged[k].job == job;
    }
  }

  // ---------------------------------------------------------------- one transfer's future

  // Whatever is listed or was handed back for the job is what x has become.
  predicate Becomes<T(==)>(x: Life<T>, c: Census<T>) {
    && x.job < c.next && Has(c, x.job)
    && (forall i :: 0 <= i < |c.listed| && c.listed[i].job == x.job ==> Heir(x, c.listed[i]))
    && (forall k :: 0 <= k < |c.logged| && c.logged[k].job == x.job ==> Heir(x, c.logged[k]))
  }

  lemma HeirsBecome<T>(x: Life<T>, c: Census<T>, x2: Life<T>)
    requires Becomes(x, c) && HeirOf(c.listed, x2) && x2.job == x.job
    ensures Heir(x, x2)
  {
    var i :| 0 <= i < |c.listed| && Heir(c.listed[i], x2);
    assert Heir(x, c.listed[i]);
  }

  lemma EvolvesBecomes<T>(x: Life<T>, c: Census<T>, c1: Census<T>)
    requires Becomes(x, c) && Evolves(c, c1)
    ensures Becomes(x, c1)
  {
    StillThere(c, c1, x.job);
    forall i | 0 <= i < |c1.listed| && c1.listed[i].job == x.job ensures Heir(x, c1.listed[i]) {
      HeirsBecome(x, c, c1.listed[i]);
    }
    forall k | 0 <= k < |c1.logged| && c1.logged[k].job == x.job ensures Heir(x, c1.logged[k]) {
      if !(k < |c.logged| && c1.logged[k] == c.logged[k]) {
        HeirsBecome(x, c, c1.logged[k]);
      }
    }
  }

  // Where each job number is used once.
  predicate Unique<T>(c: Census<T>, i: nat)
    requires i < |c.listed|
  {
    && c.listed[i].job < c.next
    && (forall k :: 0 <= k < |c.listed| && k != i ==> c.listed[k].job != c.listed[i].job)
    && (forall k :: 0 <= k < |c.logged| ==> c.logged[k].job != c.listed[i].job)
  }

  lemma ListedBecomes<T>(c: Census<T>, i: nat)
    requires i < |c.listed| && Unique(c, i)
    ensures Becomes(c.listed[i], c)
  {
  }
}
