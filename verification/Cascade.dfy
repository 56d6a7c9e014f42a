// One 'unref' in a balanced memory, cycles included: it ends, frees exactly the objects without owner, and keeps the
// balance.
module Cascade {
  import opened Isa
  import opened Heap

  // ---- counting ----

  lemma {:induction false} OwnersSame(cs: Classes, m: Memory, z: set<nat>, m': Memory, z': set<nat>, p: nat, n: nat)
    requires n <= |m| == |m'| && forall x :: 0 <= x < n ==> Owns(cs, m, z, x, p) == Owns(cs, m', z', x, p)
    ensures Owners(cs, m, z, p, n) == Owners(cs, m', z', p, n)
    decreases n
  {
    if n > 0 {
      OwnersSame(cs, m, z, m', z', p, n - 1);
    }
  }

  // Only one object owns something else
  lemma {:induction false} OwnersChange(cs: Classes, m: Memory, z: set<nat>, m': Memory, z': set<nat>, i: nat, p: nat,
                                        n: nat)
    requires i < n <= |m| == |m'|
    requires forall x :: 0 <= x < n && x != i ==> Owns(cs, m, z, x, p) == Owns(cs, m', z', x, p)
    ensures Owners(cs, m', z', p, n) + Owns(cs, m, z, i, p) == Owners(cs, m, z, p, n) + Owns(cs, m', z', i, p)
    decreases n
  {
    if i == n - 1 {
      OwnersSame(cs, m, z, m', z', p, n - 1);
    } else {
      OwnersChange(cs, m, z, m', z', i, p, n - 1);
    }
  }

  lemma {:induction false} OwnersAtLeast(cs: Classes, m: Memory, z: set<nat>, i: nat, p: nat, n: nat)
    requires i < n <= |m|
    ensures Owns(cs, m, z, i, p) <= Owners(cs, m, z, p, n)
    decreases n
  {
    if i < n - 1 {
      OwnersAtLeast(cs, m, z, i, p, n - 1);
    }
  }

  lemma {:induction false} NoOwner(cs: Classes, m: Memory, z: set<nat>, p: nat, n: nat)
    requires n <= |m| && forall x :: 0 <= x < n ==> Owns(cs, m, z, x, p) == 0
    ensures Owners(cs, m, z, p, n) == 0
    decreases n
  {
    if n > 0 {
      NoOwner(cs, m, z, p, n - 1);
    }
  }

  lemma {:induction false} OwnedMember(cs: Classes, o: Object, i: nat, j: nat)
    requires Shaped(cs, o) && i <= j < |o.fields| && cs[o.cls][j].Ref?
    ensures o.fields[j] in Owned(cs, o, i)
    decreases |o.fields| - i
  {
    if i < j {
      OwnedMember(cs, o, i + 1, j);
    }
  }

  lemma {:induction false} OwnedLive(cs: Classes, m: Memory, o: Object, i: nat)
    requires Typed(cs, m, o) && i <= |o.fields|
    ensures forall p :: p in Owned(cs, o, i) ==> IsLive(m, p)
    decreases |o.fields| - i
  {
    if i < |o.fields| {
      OwnedLive(cs, m, o, i + 1);
    }
  }

  lemma {:induction false} OwnedSame(cs: Classes, o: Object, o': Object, i: nat)
    requires Shaped(cs, o) && o'.cls == o.cls && o'.fields == o.fields && i <= |o.fields|
    ensures Owned(cs, o, i) == Owned(cs, o', i)
    decreases |o.fields| - i
  {
    if i < |o.fields| {
      OwnedSame(cs, o, o', i + 1);
    }
  }

  // How many live objects have a count
  function Positive(m: Memory, n: nat): (r: nat)
    requires n <= |m|
    ensures r <= n
  {
    if n == 0 then 0 else Positive(m, n - 1) + if m[n - 1].Live? && m[n - 1].obj.count > 0 then 1 else 0
  }

  lemma {:induction false} PositiveLess(m: Memory, m': Memory, n: nat)
    requires n <= |m| == |m'|
    requires forall q :: 0 <= q < n && m'[q].Live? ==> m[q].Live? && m'[q].obj.count <= m[q].obj.count
    ensures Positive(m', n) <= Positive(m, n)
    decreases n
  {
    if n > 0 {
      PositiveLess(m, m', n - 1);
    }
  }

  lemma {:induction false} PositiveDrops(m: Memory, m': Memory, p: nat, n: nat)
    requires p < n <= |m| == |m'| && m[p].Live? && m[p].obj.count > 0
    requires m'[p].Live? ==> m'[p].obj.count == 0
    requires forall q :: 0 <= q < n && m'[q].Live? ==> m[q].Live? && m'[q].obj.count <= m[q].obj.count
    ensures Positive(m', n) < Positive(m, n)
    decreases n
  {
    if p == n - 1 {
      PositiveLess(m, m', n - 1);
    } else {
      PositiveDrops(m, m', p, n - 1);
    }
  }

  // ---- the steps ----

  lemma CountKeepsOwns(cs: Classes, m: Memory, z: set<nat>, p: nat, count: u64)
    requires IsLive(m, p)
    ensures forall x, q :: 0 <= x < |m| ==> Owns(cs, WithCount(m, p, count), z, x, q) == Owns(cs, m, z, x, q)
  {
    var m' := WithCount(m, p, count);
    if Shaped(cs, m[p].obj) {
      OwnedSame(cs, m[p].obj, m'[p].obj, 0);
    }
    forall x, q | 0 <= x < |m|
      ensures Owns(cs, m', z, x, q) == Owns(cs, m, z, x, q)
    {
    }
  }

  // One owner less, and some are left
  lemma Decrement(cs: Classes, m: Memory, ext: multiset<nat>, z: set<nat>, p: nat)
    requires Balanced(cs, m, ext, z) && p in ext && m[p].obj.count > 1
    ensures Balanced(cs, WithCount(m, p, m[p].obj.count - 1), ext - multiset{p}, z)
  {
    var m' := WithCount(m, p, m[p].obj.count - 1);
    CountKeepsOwns(cs, m, z, p, m[p].obj.count - 1);
    hide Owns;
    hide Typed;
    forall q | 0 <= q < |m'| && m'[q].Live?
      ensures m'[q].obj.count == (ext - multiset{p})[q] + Owners(cs, m', z, q, |m'|)
    {
      OwnersSame(cs, m, z, m', z, q, |m|);
    }
    hide Owners;
    forall q | 0 <= q < |m'| && m'[q].Live? && q !in z
      ensures Typed(cs, m', m'[q].obj)
    {
      RetypedCount(cs, m, p, m[p].obj.count - 1, q);
    }
  }

  lemma RetypedCount(cs: Classes, m: Memory, p: nat, count: u64, q: nat)
    requires IsLive(m, p) && IsLive(m, q) && Typed(cs, m, m[q].obj)
    ensures Typed(cs, WithCount(m, p, count), WithCount(m, p, count)[q].obj)
  {
  }

  // The last owner: the object is about to be destroyed, what it owns is to be released
  lemma Doom(cs: Classes, m: Memory, ext: multiset<nat>, z: set<nat>, p: nat)
    requires Balanced(cs, m, ext, z) && p in ext && m[p].obj.count == 1 && Held(m, ext - multiset{p}, z)
    ensures p !in z && Owners(cs, m, z, p, |m|) == 0 && (ext - multiset{p})[p] == 0
    ensures Held(WithCount(m, p, 0), ext - multiset{p}, z + {p})
    ensures Balanced(cs, WithCount(m, p, 0), (ext - multiset{p}) + multiset(Owned(cs, m[p].obj, 0)), z + {p})
  {
    hide Owners;
    hide Owns;
    hide Owned;
    hide Typed;
    var m' := WithCount(m, p, 0);
    var ext' := (ext - multiset{p}) + multiset(Owned(cs, m[p].obj, 0));
    forall q | 0 <= q < |m'| && m'[q].Live?
      ensures m'[q].obj.count == ext'[q] + Owners(cs, m', z + {p}, q, |m'|)
    {
      DoomCount(cs, m, ext, z, p, q);
    }
    DoomLive(cs, m, ext, p);
    forall q | 0 <= q < |m'| && m'[q].Live? && q !in z + {p}
      ensures Typed(cs, m', m'[q].obj)
    {
      TypedKept(cs, m, m', m[q].obj);
    }
  }

  lemma DoomLive(cs: Classes, m: Memory, ext: multiset<nat>, p: nat)
    requires IsLive(m, p) && Typed(cs, m, m[p].obj) && forall q :: q in ext ==> IsLive(m, q)
    ensures forall q :: q in (ext - multiset{p}) + multiset(Owned(cs, m[p].obj, 0)) ==> IsLive(WithCount(m, p, 0), q)
  {
    OwnedLive(cs, m, m[p].obj, 0);
    hide Owned;
    forall q: nat | q in (ext - multiset{p}) + multiset(Owned(cs, m[p].obj, 0))
      ensures IsLive(WithCount(m, p, 0), q)
    {
      assert q in ext || q in Owned(cs, m[p].obj, 0);
    }
  }

  lemma TypedKept(cs: Classes, m: Memory, m': Memory, o: Object)
    requires Typed(cs, m, o)
    requires forall q: nat :: IsLive(m, q) ==> IsLive(m', q) && m'[q].obj.cls == m[q].obj.cls
    ensures Typed(cs, m', o)
  {
  }

  lemma DoomCount(cs: Classes, m: Memory, ext: multiset<nat>, z: set<nat>, p: nat, q: nat)
    requires IsLive(m, p) && p in ext && m[p].obj.count == 1 && Shaped(cs, m[p].obj) && p !in z && q < |m|
    requires m[p].obj.count == ext[p] + Owners(cs, m, z, p, |m|)
    requires m[q].Live? && m[q].obj.count == ext[q] + Owners(cs, m, z, q, |m|)
    ensures var m' := WithCount(m, p, 0);
      m'[q].obj.count
      == ((ext - multiset{p}) + multiset(Owned(cs, m[p].obj, 0)))[q] + Owners(cs, m', z + {p}, q, |m'|)
  {
    var m' := WithCount(m, p, 0);
    CountKeepsOwns(cs, m, z, p, 0);
    OwnersChange(cs, m, z, m', z + {p}, p, q, |m|);
    OwnersAtLeast(cs, m, z, p, q, |m|);
  }

  // No object points to an object without owner
  lemma Unowned(cs: Classes, m: Memory, ext: multiset<nat>, z: set<nat>, p: nat, x: nat, j: nat)
    requires Balanced(cs, m, ext, z) && p in z && m[p].obj.count == 0 && IsLive(m, x) && x !in z
    requires j < |m[x].obj.fields| && cs[m[x].obj.cls][j].Ref?
    ensures m[x].obj.fields[j] != p
  {
    if m[x].obj.fields[j] == p {
      OwnedMember(cs, m[x].obj, 0, j);
      OwnersAtLeast(cs, m, z, x, p, |m|);
    }
  }

  // The object goes away
  lemma Bury(cs: Classes, m: Memory, ext: multiset<nat>, z: set<nat>, p: nat)
    requires Balanced(cs, m, ext, z) && p in z && m[p].obj.count == 0
    ensures Balanced(cs, m[p := Free], ext, z - {p})
  {
    var m' := m[p := Free];
    var z' := z - {p};
    forall q | 0 <= q < |m'| && m'[q].Live?
      ensures m'[q].obj.count == ext[q] + Owners(cs, m', z', q, |m'|)
    {
      OwnersSame(cs, m, z, m', z', q, |m|);
    }
    forall q | 0 <= q < |m'| && m'[q].Live? && q !in z'
      ensures Typed(cs, m', m'[q].obj)
    {
      assert Typed(cs, m, m[q].obj);
      forall j | 0 <= j < |m[q].obj.fields| && cs[m[q].obj.cls][j].Ref?
        ensures m[q].obj.fields[j] != p
      {
        Unowned(cs, m, ext, z, p, q, j);
      }
    }
    hide Owners;
    assert m[p].obj.count == ext[p] + Owners(cs, m, z, p, |m|);
  }

  // ---- the cascade ----

  // The survivors are the same, with less owners, but at least one if they have lost any
  ghost predicate Evolved(m: Memory, m': Memory) {
    && |m'| == |m|
    && forall q :: 0 <= q < |m'| && m'[q].Live? ==>
         && m[q].Live? && m'[q].obj.cls == m[q].obj.cls && m'[q].obj.fields == m[q].obj.fields
         && m'[q].obj.count <= m[q].obj.count && (m'[q].obj.count < m[q].obj.count ==> m'[q].obj.count > 0)
  }

  lemma EvolvedTrans(m: Memory, m1: Memory, m2: Memory)
    requires Evolved(m, m1) && Evolved(m1, m2)
    ensures Evolved(m, m2)
  {
  }

  ghost predicate OwnedIn(cs: Classes, m: Memory, z: set<nat>, g: set<nat>, o: nat) {
    exists x :: x in g && x < |m| && Owns(cs, m, z, x, o) > 0
  }

  ghost predicate OwnedOnlyIn(cs: Classes, m: Memory, z: set<nat>, g: set<nat>, o: nat) {
    forall x :: 0 <= x < |m| && Owns(cs, m, z, x, o) > 0 ==> x in g
  }

  // The references 'lost' are dropped, as well as those of the objects in 'g': an object which loses a reference,
  // and which has no owner left but in 'g', is in 'g'
  ghost predicate Closed(cs: Classes, m: Memory, ext: multiset<nat>, z: set<nat>, lost: seq<nat>, g: set<nat>) {
    forall o: nat :: IsLive(m, o) && (o in lost || OwnedIn(cs, m, z, g, o)) && ext[o]
      == 0 && OwnedOnlyIn(cs, m, z, g, o)
      ==> o in g
  }

  ghost predicate FreedIn(m: Memory, m': Memory, g: set<nat>) {
    |m'| == |m| && forall q :: 0 <= q < |m| && m[q].Live? && m'[q].Free? ==> q in g
  }

  lemma OwnsKept(cs: Classes, m: Memory, m': Memory, z: set<nat>, x: nat, o: nat)
    requires Evolved(m, m') && x < |m|
    ensures Owns(cs, m', z, x, o) > 0 ==> Owns(cs, m', z, x, o) == Owns(cs, m, z, x, o)
    ensures m'[x].Live? ==> Owns(cs, m', z, x, o) == Owns(cs, m, z, x, o)
  {
    if m'[x].Live? && Shaped(cs, m[x].obj) {
      OwnedSame(cs, m[x].obj, m'[x].obj, 0);
    }
  }

  // After a part of the cascade
  lemma ClosedAfter(cs: Classes, m: Memory, m1: Memory, ext: multiset<nat>, z: set<nat>, f: nat, rest: seq<nat>,
                    g: set<nat>)
    requires Closed(cs, m, ext, z, [f] + rest, g) && Evolved(m, m1) && FreedIn(m, m1, g)
    ensures Closed(cs, m1, ext, z, rest, g)
  {
    forall o: nat | IsLive(m1, o) && (o in rest || OwnedIn(cs, m1, z, g, o)) && ext[o]
      == 0 && OwnedOnlyIn(cs, m1, z, g, o)
      ensures o in g
    {
      if OwnedIn(cs, m1, z, g, o) {
        var x :| x in g && x < |m1| && Owns(cs, m1, z, x, o) > 0;
        OwnsKept(cs, m, m1, z, x, o);
      }
      forall x | 0 <= x < |m| && Owns(cs, m, z, x, o) > 0
        ensures x in g
      {
        OwnsKept(cs, m, m1, z, x, o);
      }
      assert o in [f] + rest || OwnedIn(cs, m, z, g, o);
    }
  }

  lemma ClosedFirst(cs: Classes, m: Memory, ext: multiset<nat>, z: set<nat>, f: nat, rest: seq<nat>, g: set<nat>)
    requires Closed(cs, m, ext, z, [f] + rest, g)
    ensures Closed(cs, m, ext + multiset(rest), z, [f], g)
  {
    hide OwnedIn;
    hide OwnedOnlyIn;
    forall o: nat | IsLive(m, o) && (o in [f] || OwnedIn(cs, m, z, g, o)) && (ext + multiset(rest))[o] == 0
               && OwnedOnlyIn(cs, m, z, g, o)
      ensures o in g
    {
      assert o in [f] ==> o in [f] + rest;
    }
  }

  // When an object is doomed
  lemma ClosedDoomed(cs: Classes, m: Memory, ext: multiset<nat>, z: set<nat>, p: nat, g: set<nat>)
    requires Balanced(cs, m, ext, z) && p in ext && m[p].obj.count == 1 && Held(m, ext - multiset{p}, z)
    requires Closed(cs, m, ext - multiset{p}, z, [p], g)
    ensures p in g
    ensures Closed(cs, WithCount(m, p, 0), ext - multiset{p}, z + {p}, Owned(cs, m[p].obj, 0), g)
  {
    Doom(cs, m, ext, z, p);
    forall x | 0 <= x < |m| && Owns(cs, m, z, x, p) > 0
      ensures false
    {
      OwnersAtLeast(cs, m, z, x, p, |m|);
    }
    assert p in [p];
    assert OwnedOnlyIn(cs, m, z, g, p);
    var m1 := WithCount(m, p, 0);
    var lost := Owned(cs, m[p].obj, 0);
    CountKeepsOwns(cs, m, z, p, 0);
    forall o: nat | IsLive(m1, o) && (o in lost || OwnedIn(cs, m1, z + {p}, g, o)) && (ext - multiset{p})[o] == 0
               && OwnedOnlyIn(cs, m1, z + {p}, g, o)
      ensures o in g
    {
      ClosedOwners(cs, m, m1, z, p, g, o);
    }
  }

  lemma ClosedOwners(cs: Classes, m: Memory, m1: Memory, z: set<nat>, p: nat, g: set<nat>, o: nat)
    requires IsLive(m, p) && m1 == WithCount(m, p, 0) && p in g && p !in z && Shaped(cs, m[p].obj)
    requires o in Owned(cs, m[p].obj, 0) || OwnedIn(cs, m1, z + {p}, g, o)
    requires OwnedOnlyIn(cs, m1, z + {p}, g, o)
    ensures OwnedIn(cs, m, z, g, o) && OwnedOnlyIn(cs, m, z, g, o)
  {
    CountKeepsOwns(cs, m, z + {p}, p, 0);
    forall x | 0 <= x < |m| && x != p
      ensures Owns(cs, m, z, x, o) == Owns(cs, m1, z + {p}, x, o)
    {
    }
    if o in Owned(cs, m[p].obj, 0) {
      assert Owns(cs, m, z, p, o) > 0;
    } else {
      var x :| x in g && x < |m1| && Owns(cs, m1, z + {p}, x, o) > 0;
      assert Owns(cs, m, z, x, o) > 0;
    }
  }

  // What 'unref' gives
  ghost predicate Released(cs: Classes, m: Memory, ext: multiset<nat>, z: set<nat>, m': Memory) {
    Balanced(cs, m', ext, z) && Evolved(m, m') && Positive(m', |m'|) <= Positive(m, |m|)
  }

  lemma {:induction false} UnrefReleases(cs: Classes, m: Memory, ext: multiset<nat>, z: set<nat>, p: nat, fuel: nat,
                                         g: set<nat>)
    requires Balanced(cs, m, ext, z) && p in ext && Held(m, ext - multiset{p}, z) && fuel >= Positive(m, |m|)
    ensures var r := Unref(cs, m, p, m[p].obj.cls, fuel);
      && r.Ok? && Released(cs, m, ext - multiset{p}, z, r.mem)
      && (Closed(cs, m, ext - multiset{p}, z, [p], g) ==> FreedIn(m, r.mem, g))
      && (r.mem[p].Live? ==> r.mem[p].obj.count < m[p].obj.count)
    decreases fuel, 2, 0
  {
    hide Balanced;
    hide Closed;
    hide ReleaseMembers;
    hide Owned;
    ExtCounts(cs, m, ext, z, p);
    var cls := m[p].obj.cls;
    if m[p].obj.count > 1 {
      Decrement(cs, m, ext, z, p);
      PositiveLess(m, WithCount(m, p, m[p].obj.count - 1), |m|);
    } else {
      var m1 := WithCount(m, p, 0);
      Doom(cs, m, ext, z, p);
      PositiveDrops(m, m1, p, |m|);
      if Closed(cs, m, ext - multiset{p}, z, [p], g) {
        ClosedDoomed(cs, m, ext, z, p, g);
      }
      DestroyReleases(cs, m1, ext - multiset{p}, z + {p}, p, fuel - 1, g, m[p].obj);
      Unzombie(z, p);
    }
  }

  lemma Unzombie(z: set<nat>, p: nat)
    requires p !in z
    ensures z + {p} - {p} == z
  {
  }

  lemma ExtCounts(cs: Classes, m: Memory, ext: multiset<nat>, z: set<nat>, p: nat)
    requires Balanced(cs, m, ext, z) && p in ext && Held(m, ext - multiset{p}, z)
    ensures IsLive(m, p) && m[p].obj.count > 0 && Shaped(cs, m[p].obj)
    ensures m[p].obj.count == 1 ==> p !in z && Typed(cs, m, m[p].obj)
  {
  }

  // The members of an object which are still to be released
  ghost predicate Pending(cs: Classes, m: Memory, o: Object, i: nat) {
    && Shaped(cs, o) && i <= |o.fields|
    && forall j :: i <= j < |o.fields| && cs[o.cls][j].Ref? ==>
         IsLive(m, o.fields[j]) && m[o.fields[j]].obj.cls == cs[o.cls][j].cls
  }

  // The object 'o' at 'p' is being destroyed
  ghost predicate Dying(m: Memory, z: set<nat>, p: nat, o: Object) {
    p in z && IsLive(m, p) && m[p].obj.cls == o.cls && m[p].obj.fields == o.fields && m[p].obj.count == 0
  }

  lemma {:induction false} MembersRelease(cs: Classes, m: Memory, ext: multiset<nat>, z: set<nat>, p: nat, i: nat,
                                          fuel: nat, g: set<nat>, o: Object)
    requires Pending(cs, m, o, i) && Dying(m, z, p, o) && fuel >= Positive(m, |m|)
    requires Balanced(cs, m, ext + multiset(Owned(cs, o, i)), z) && Held(m, ext, z)
    ensures var r := ReleaseMembers(cs, m, p, o.cls, i, fuel);
      && r.Ok? && Released(cs, m, ext, z, r.mem)
      && (Closed(cs, m, ext, z, Owned(cs, o, i), g) ==> FreedIn(m, r.mem, g))
    decreases fuel, 3, |o.fields| - i
  {
    hide Balanced;
    hide Closed;
    hide Unref;
    if i == |o.fields| {
      assert ext + multiset([]) == ext;
    } else if cs[o.cls][i].Pod? {
      MembersRelease(cs, m, ext, z, p, i + 1, fuel, g, o);
    } else {
      var f := o.fields[i];
      var rest := Owned(cs, o, i + 1);
      var all := ext + multiset([f] + rest);
      assert f in all && all - multiset{f} == ext + multiset(rest);
      HeldMore(m, ext, z, rest);
      UnrefReleases(cs, m, all, z, f, fuel, g);
      var m1 := Unref(cs, m, f, m[f].obj.cls, fuel).mem;
      StillPending(cs, m, m1, ext, z, p, o, i);
      StillHeld(cs, m, m1, ext, z, rest);
      MembersRelease(cs, m1, ext, z, p, i + 1, fuel, g, o);
      var m2 := ReleaseMembers(cs, m1, p, o.cls, i + 1, fuel).mem;
      EvolvedTrans(m, m1, m2);
      if Closed(cs, m, ext, z, [f] + rest, g) {
        ClosedFirst(cs, m, ext, z, f, rest, g);
        ClosedAfter(cs, m, m1, ext, z, f, rest, g);
        FreedTwice(m, m1, m2, g);
      }
    }
  }

  lemma HeldMore(m: Memory, ext: multiset<nat>, z: set<nat>, rest: seq<nat>)
    requires Held(m, ext, z)
    ensures Held(m, ext + multiset(rest), z)
  {
  }

  lemma StillHeld(cs: Classes, m: Memory, m1: Memory, ext: multiset<nat>, z: set<nat>, rest: seq<nat>)
    requires Held(m, ext, z) && Evolved(m, m1) && Balanced(cs, m1, ext + multiset(rest), z)
    ensures Held(m1, ext, z)
  {
  }

  lemma FreedTwice(m: Memory, m1: Memory, m2: Memory, g: set<nat>)
    requires Evolved(m, m1) && Evolved(m1, m2) && FreedIn(m, m1, g) && FreedIn(m1, m2, g)
    ensures FreedIn(m, m2, g)
  {
  }

  lemma StillPending(cs: Classes, m: Memory, m1: Memory, ext: multiset<nat>, z: set<nat>, p: nat, o: Object, i: nat)
    requires Pending(cs, m, o, i) && i < |o.fields| && Dying(m, z, p, o) && Evolved(m, m1)
    requires Balanced(cs, m1, ext + multiset(Owned(cs, o, i + 1)), z)
    ensures Pending(cs, m1, o, i + 1) && Dying(m1, z, p, o)
  {
    forall j | i + 1 <= j < |o.fields| && cs[o.cls][j].Ref?
      ensures IsLive(m1, o.fields[j]) && m1[o.fields[j]].obj.cls == cs[o.cls][j].cls
    {
      OwnedMember(cs, o, i + 1, j);
      assert o.fields[j] in ext + multiset(Owned(cs, o, i + 1));
    }
  }

  lemma DestroyReleases(cs: Classes, m: Memory, ext: multiset<nat>, z: set<nat>, p: nat, fuel: nat, g: set<nat>,
                        o: Object)
    requires Pending(cs, m, o, 0) && Dying(m, z, p, o) && fuel >= Positive(m, |m|)
    requires Balanced(cs, m, ext + multiset(Owned(cs, o, 0)), z) && Held(m, ext, z)
    ensures var r := Destroy(cs, m, p, o.cls, fuel);
      && r.Ok? && Released(cs, m, ext, z - {p}, r.mem) && r.mem[p].Free?
      && (Closed(cs, m, ext, z, Owned(cs, o, 0), g) && p in g ==> FreedIn(m, r.mem, g))
    decreases fuel, 4, 0
  {
    hide Balanced;
    hide Closed;
    hide ReleaseMembers;
    hide Owned;
    MembersRelease(cs, m, ext, z, p, 0, fuel, g, o);
    var m1 := ReleaseMembers(cs, m, p, o.cls, 0, fuel).mem;
    StillDying(cs, m, m1, ext, z, p, o);
    Bury(cs, m1, ext, z, p);
    PositiveLess(m1, m1[p := Free], |m1|);
  }

  lemma StillDying(cs: Classes, m: Memory, m1: Memory, ext: multiset<nat>, z: set<nat>, p: nat, o: Object)
    requires Dying(m, z, p, o) && Evolved(m, m1) && Balanced(cs, m1, ext, z)
    ensures Dying(m1, z, p, o)
  {
  }

  // ---- the theorem ----

  // The live objects which are freed
  function Freed(m: Memory, m': Memory): set<nat>
    requires |m| == |m'|
  {
    set q | 0 <= q < |m| && m[q].Live? && m'[q].Free? :: q
  }

  // In a balanced memory, where objects may refer to each other in cycles, dropping one reference never fails, and
  // leaves the memory balanced. The freed objects are the least closed set: those which lose their last owner
  // through the reference or through other freed objects, and no other. The survivors keep their members.
  lemma CascadeIsExact(cs: Classes, m: Memory, ext: multiset<nat>, p: nat, fuel: nat)
    requires Balanced(cs, m, ext, {}) && p in ext && fuel >= |m|
    ensures IsLive(m, p)
    ensures var r := Unref(cs, m, p, m[p].obj.cls, fuel);
      && r.Ok? && Balanced(cs, r.mem, ext - multiset{p}, {}) && Evolved(m, r.mem)
      && Closed(cs, m, ext - multiset{p}, {}, [p], Freed(m, r.mem))
      && forall g :: Closed(cs, m, ext - multiset{p}, {}, [p], g) ==> Freed(m, r.mem) <= g
  {
    hide Closed;
    hide Unref;
    UnrefReleases(cs, m, ext, {}, p, fuel, {});
    var m' := Unref(cs, m, p, m[p].obj.cls, fuel).mem;
    forall g | Closed(cs, m, ext - multiset{p}, {}, [p], g)
      ensures Freed(m, m') <= g
    {
      UnrefReleases(cs, m, ext, {}, p, fuel, g);
    }
    FreedIsClosed(cs, m, ext, p, m');
  }

  lemma FreedIsClosed(cs: Classes, m: Memory, ext: multiset<nat>, p: nat, m': Memory)
    requires Balanced(cs, m, ext, {}) && p in ext && Balanced(cs, m', ext - multiset{p}, {}) && Evolved(m, m')
    requires m'[p].Live? ==> m'[p].obj.count < m[p].obj.count
    ensures Closed(cs, m, ext - multiset{p}, {}, [p], Freed(m, m'))
  {
    var f := Freed(m, m');
    forall o: nat | IsLive(m, o) && (o in [p] || OwnedIn(cs, m, {}, f, o)) && (ext - multiset{p})[o] == 0
               && OwnedOnlyIn(cs, m, {}, f, o)
      ensures o in f
    {
      if m'[o].Live? {
        forall x | 0 <= x < |m'|
          ensures Owns(cs, m', {}, x, o) == 0
        {
          OwnsKept(cs, m, m', {}, x, o);
        }
        NoOwner(cs, m', {}, o, |m'|);
        LostOwner(cs, m, ext, p, m', f, o);
        assert false;
      }
    }
  }

  // It had an owner
  lemma LostOwner(cs: Classes, m: Memory, ext: multiset<nat>, p: nat, m': Memory, f: set<nat>, o: nat)
    requires Balanced(cs, m, ext, {}) && p in ext && IsLive(m, o) && (o in [p] || OwnedIn(cs, m, {}, f, o))
    ensures m[o].obj.count > 0
  {
    if OwnedIn(cs, m, {}, f, o) {
      var x :| x in f && x < |m| && Owns(cs, m, {}, x, o) > 0;
      OwnersAtLeast(cs, m, {}, x, o, |m|);
    }
  }
}
