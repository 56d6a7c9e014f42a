// The objects which a clone goes through, without any memory being written: members in order, each one which is not
// shared being cloned in turn. A walk meets a dead member, goes too deep, or is over; it is never over when it goes
// through a cycle of members which are not shared.
module Walks {
  import opened Heap

  // The member whose value is dead, if any
  datatype Hole = Nowhere | At(self: nat, field: nat)

  datatype Walk = Over | Dead | Deep

  function WalkObject(cs: Classes, m: Memory, hole: Hole, p: nat, fuel: nat): Walk
    decreases fuel, 0, 0
  {
    if fuel == 0 then Deep else WalkFrom(cs, m, hole, p, 0, fuel - 1)
  }

  function WalkFrom(cs: Classes, m: Memory, hole: Hole, p: nat, i: nat, fuel: nat): Walk
    decreases fuel, 1, if IsLive(m, p) && i < |m[p].obj.fields| then |m[p].obj.fields| - i else 0
  {
    if !IsLive(m, p) || !Shaped(cs, m[p].obj) || i >= |m[p].obj.fields| then Over
    else match WalkMember(cs, m, hole, m[p].obj.fields[i], cs[m[p].obj.cls][i], hole == At(p, i), fuel)
         case Over => WalkFrom(cs, m, hole, p, i + 1, fuel)
         case Dead => Dead
         case Deep => Deep
  }

  function WalkMember(cs: Classes, m: Memory, hole: Hole, v: nat, member: Member, dead: bool, fuel: nat): Walk
    decreases fuel, 0, 1
  {
    if member.Pod? then Over
    else if dead then Dead
    else if member.shared then Over
    else WalkObject(cs, m, hole, v, fuel)
  }

  // ---- where it goes ----

  predicate Unshared(cs: Classes, o: Object, i: int)
    requires Shaped(cs, o)
  {
    0 <= i < |o.fields| && cs[o.cls][i].Ref? && !cs[o.cls][i].shared
  }

  // The i-th member of 'p' is cloned with it
  predicate Cloned(cs: Classes, m: Memory, p: nat, i: int) {
    IsLive(m, p) && Shaped(cs, m[p].obj) && Unshared(cs, m[p].obj, i)
  }

  // The clone of 'b' goes through 's', in at most 'n' members
  ghost predicate ReachesIn(cs: Classes, m: Memory, b: nat, s: nat, n: nat)
    decreases n
  {
    b == s || (n > 0 && exists i :: Cloned(cs, m, b, i) && ReachesIn(cs, m, m[b].obj.fields[i], s, n - 1))
  }

  ghost predicate Reaches(cs: Classes, m: Memory, b: nat, s: nat) { exists n: nat :: ReachesIn(cs, m, b, s, n) }

  // The clone of 'p' goes through 'q' once it has left 'p'
  ghost predicate Under(cs: Classes, m: Memory, p: nat, q: nat) {
    exists i :: Cloned(cs, m, p, i) && Reaches(cs, m, m[p].obj.fields[i], q)
  }

  // No object which the clone goes through is under itself
  ghost predicate Finite(cs: Classes, m: Memory, b: nat) {
    forall p :: Reaches(cs, m, b, p) ==> !Under(cs, m, p, p)
  }

  ghost predicate AllTyped(cs: Classes, m: Memory) { forall p: nat :: IsLive(m, p) ==> Typed(cs, m, m[p].obj) }

  lemma ReachesSelf(cs: Classes, m: Memory, p: nat)
    ensures Reaches(cs, m, p, p)
  {
    assert ReachesIn(cs, m, p, p, 0);
  }

  lemma ReachesThrough(cs: Classes, m: Memory, p: nat, q: nat, i: int)
    requires Cloned(cs, m, p, i) && Reaches(cs, m, m[p].obj.fields[i], q)
    ensures Reaches(cs, m, p, q)
  {
    var n: nat :| ReachesIn(cs, m, m[p].obj.fields[i], q, n);
    assert ReachesIn(cs, m, p, q, n + 1);
  }

  lemma {:induction false} ReachesTrans(cs: Classes, m: Memory, p: nat, q: nat, r: nat, n: nat)
    requires ReachesIn(cs, m, p, q, n) && Reaches(cs, m, q, r)
    ensures Reaches(cs, m, p, r)
    decreases n
  {
    if p != q {
      var i :| Cloned(cs, m, p, i) && ReachesIn(cs, m, m[p].obj.fields[i], q, n - 1);
      ReachesTrans(cs, m, m[p].obj.fields[i], q, r, n - 1);
      ReachesThrough(cs, m, p, r, i);
    }
  }

  // ---- a dead member ----

  lemma {:induction false} OverEvery(cs: Classes, m: Memory, hole: Hole, p: nat, i: nat, j: nat, fuel: nat)
    requires WalkFrom(cs, m, hole, p, i, fuel).Over? && i <= j && IsLive(m, p) && Shaped(cs, m[p].obj)
    requires j < |m[p].obj.fields|
    ensures WalkMember(cs, m, hole, m[p].obj.fields[j], cs[m[p].obj.cls][j], hole == At(p, j), fuel).Over?
    decreases j - i
  {
    hide WalkMember;
    if i < j {
      OverEvery(cs, m, hole, p, i + 1, j, fuel);
    }
  }

  // When the walk of an object is over, so is the one of each member which is cloned
  lemma OverBelow(cs: Classes, m: Memory, hole: Hole, p: nat, i: nat, fuel: nat)
    requires WalkObject(cs, m, hole, p, fuel).Over? && Cloned(cs, m, p, i)
    ensures fuel > 0 && hole != At(p, i) && WalkObject(cs, m, hole, m[p].obj.fields[i], fuel - 1).Over?
  {
    OverEvery(cs, m, hole, p, 0, i, fuel - 1);
    hide WalkFrom;
  }

  // A walk which meets the dead member went through its object
  lemma {:induction false} DeadReaches(cs: Classes, m: Memory, s: nat, k: nat, p: nat, fuel: nat)
    requires WalkObject(cs, m, At(s, k), p, fuel).Dead?
    ensures Reaches(cs, m, p, s)
    decreases fuel, 0, 0
  {
    DeadFrom(cs, m, s, k, p, 0, fuel - 1);
  }

  lemma {:induction false} DeadFrom(cs: Classes, m: Memory, s: nat, k: nat, p: nat, i: nat, fuel: nat)
    requires WalkFrom(cs, m, At(s, k), p, i, fuel).Dead?
    ensures Reaches(cs, m, p, s)
    decreases fuel, 1, if IsLive(m, p) && i < |m[p].obj.fields| then |m[p].obj.fields| - i else 0
  {
    var v, member := m[p].obj.fields[i], cs[m[p].obj.cls][i];
    hide Reaches;
    if p == s {
      ReachesSelf(cs, m, p);
    } else if WalkMember(cs, m, At(s, k), v, member, false, fuel).Dead? {
      DeadReaches(cs, m, s, k, v, fuel);
      ReachesThrough(cs, m, p, s, i);
    } else {
      hide WalkMember;
      DeadFrom(cs, m, s, k, p, i + 1, fuel);
    }
  }

  // No walk is over which goes through the object of the dead member
  lemma {:induction false} ReachesDead(cs: Classes, m: Memory, s: nat, k: nat, p: nat, n: nat, fuel: nat)
    requires ReachesIn(cs, m, p, s, n) && IsLive(m, s) && Shaped(cs, m[s].obj) && k < |m[s].obj.fields|
    requires cs[m[s].obj.cls][k].Ref?
    ensures !WalkObject(cs, m, At(s, k), p, fuel).Over?
    decreases n
  {
    if WalkObject(cs, m, At(s, k), p, fuel).Over? {
      if p == s {
        OverEvery(cs, m, At(s, k), p, 0, k, fuel - 1);
        assert false;
      } else {
        var i :| Cloned(cs, m, p, i) && ReachesIn(cs, m, m[p].obj.fields[i], s, n - 1);
        OverBelow(cs, m, At(s, k), p, i, fuel);
        ReachesDead(cs, m, s, k, m[p].obj.fields[i], n - 1, fuel - 1);
        assert false;
      }
    }
  }

  // ---- cycles ----

  lemma {:induction false} OverAlong(cs: Classes, m: Memory, hole: Hole, p: nat, q: nat, n: nat,
                                     fuel: nat) returns (left: nat)
    requires ReachesIn(cs, m, p, q, n) && WalkObject(cs, m, hole, p, fuel).Over?
    ensures left <= fuel && WalkObject(cs, m, hole, q, left).Over?
    decreases n
  {
    if p == q {
      left := fuel;
    } else {
      var i :| Cloned(cs, m, p, i) && ReachesIn(cs, m, m[p].obj.fields[i], q, n - 1);
      OverBelow(cs, m, hole, p, i, fuel);
      left := OverAlong(cs, m, hole, m[p].obj.fields[i], q, n - 1, fuel - 1);
    }
  }

  lemma {:induction false} CycleIsDeep(cs: Classes, m: Memory, hole: Hole, p: nat, fuel: nat)
    requires Under(cs, m, p, p)
    ensures !WalkObject(cs, m, hole, p, fuel).Over?
    decreases fuel
  {
    if WalkObject(cs, m, hole, p, fuel).Over? {
      var i :| Cloned(cs, m, p, i) && Reaches(cs, m, m[p].obj.fields[i], p);
      var n: nat :| ReachesIn(cs, m, m[p].obj.fields[i], p, n);
      OverBelow(cs, m, hole, p, i, fuel);
      var left := OverAlong(cs, m, hole, m[p].obj.fields[i], p, n, fuel - 1);
      CycleIsDeep(cs, m, hole, p, left);
      assert false;
    }
  }

  lemma OverIsFinite(cs: Classes, m: Memory, hole: Hole, b: nat, fuel: nat)
    requires WalkObject(cs, m, hole, b, fuel).Over?
    ensures Finite(cs, m, b)
  {
    forall p | Reaches(cs, m, b, p)
      ensures !Under(cs, m, p, p)
    {
      var n: nat :| ReachesIn(cs, m, b, p, n);
      var left := OverAlong(cs, m, hole, b, p, n, fuel);
      if Under(cs, m, p, p) {
        CycleIsDeep(cs, m, hole, p, left);
        assert false;
      }
    }
  }

  // What the clone of 'p' goes through once it has left 'p'
  ghost function Below(cs: Classes, m: Memory, p: nat): (r: set<nat>)
    ensures forall q: nat :: q in r <==> q < |m| && Under(cs, m, p, q)
  {
    set q: nat | q < |m| && Under(cs, m, p, q)
  }

  lemma BelowShrinks(cs: Classes, m: Memory, p: nat, i: nat)
    requires Cloned(cs, m, p, i) && AllTyped(cs, m) && !Under(cs, m, m[p].obj.fields[i], m[p].obj.fields[i])
    ensures |Below(cs, m, m[p].obj.fields[i])| < |Below(cs, m, p)|
  {
    var c := m[p].obj.fields[i];
    assert IsLive(m, c);
    ReachesSelf(cs, m, c);
    forall q | Under(cs, m, c, q)
      ensures Under(cs, m, p, q)
    {
      var j :| Cloned(cs, m, c, j) && Reaches(cs, m, m[c].obj.fields[j], q);
      ReachesThrough(cs, m, c, q, j);
    }
    hide Under;
    hide Reaches;
    assert c in Below(cs, m, p);
    assert Below(cs, m, c) + {c} <= Below(cs, m, p);
    Larger(Below(cs, m, c) + {c}, Below(cs, m, p));
  }

  lemma {:induction false} Larger(a: set<nat>, b: set<nat>)
    requires a <= b
    ensures |a| <= |b|
    decreases |a|
  {
    if a != {} {
      var x :| x in a;
      Larger(a - {x}, b - {x});
    }
  }

  lemma {:induction false} Bounded(a: set<nat>, n: nat)
    requires forall x :: x in a ==> x < n
    ensures |a| <= n
    decreases n
  {
    if n == 0 {
      assert a == {};
    } else {
      Bounded(a - {n - 1}, n - 1);
      assert a <= a - {n - 1} + {n - 1};
      Larger(a, a - {n - 1} + {n - 1});
    }
  }

  lemma FiniteBelow(cs: Classes, m: Memory, b: nat, i: nat)
    requires Finite(cs, m, b) && Cloned(cs, m, b, i)
    ensures Finite(cs, m, m[b].obj.fields[i]) && !Under(cs, m, m[b].obj.fields[i], m[b].obj.fields[i])
  {
    var c := m[b].obj.fields[i];
    ReachesSelf(cs, m, c);
    forall p | Reaches(cs, m, c, p)
      ensures !Under(cs, m, p, p)
    {
      ReachesThrough(cs, m, b, p, i);
    }
  }

  lemma {:induction false} FiniteEnds(cs: Classes, m: Memory, hole: Hole, b: nat, fuel: nat)
    requires Finite(cs, m, b) && AllTyped(cs, m) && fuel > |Below(cs, m, b)|
    ensures !WalkObject(cs, m, hole, b, fuel).Deep?
    decreases fuel, 0
  {
    FromEnds(cs, m, hole, b, 0, fuel - 1);
  }

  lemma {:induction false} FromEnds(cs: Classes, m: Memory, hole: Hole, b: nat, i: nat, fuel: nat)
    requires Finite(cs, m, b) && AllTyped(cs, m) && fuel >= |Below(cs, m, b)|
    ensures !WalkFrom(cs, m, hole, b, i, fuel).Deep?
    decreases fuel, 1, if IsLive(m, b) && i < |m[b].obj.fields| then |m[b].obj.fields| - i else 0
  {
    if IsLive(m, b) && Shaped(cs, m[b].obj) && i < |m[b].obj.fields| {
      if Cloned(cs, m, b, i) {
        FiniteBelow(cs, m, b, i);
        BelowShrinks(cs, m, b, i);
        hide Finite;
        FiniteEnds(cs, m, hole, m[b].obj.fields[i], fuel);
        hide WalkObject;
      }
      FromEnds(cs, m, hole, b, i + 1, fuel);
    }
  }

  // A clone ends if and only if it goes through no cycle; then its depth is at most the number of addresses
  lemma WalkEnds(cs: Classes, m: Memory, b: nat)
    requires AllTyped(cs, m) && IsLive(m, b)
    ensures Finite(cs, m, b) <==> exists fuel: nat :: WalkObject(cs, m, Nowhere, b, fuel).Over?
    ensures Finite(cs, m, b) ==>
      forall hole: Hole, fuel: nat :: fuel >= |m| ==> !WalkObject(cs, m, hole, b, fuel).Deep?
  {
    if Finite(cs, m, b) {
      ReachesSelf(cs, m, b);
      assert b !in Below(cs, m, b);
      Bounded(Below(cs, m, b) + {b}, |m|);
      forall hole: Hole, fuel: nat | fuel >= |m|
        ensures !WalkObject(cs, m, hole, b, fuel).Deep?
      {
        FiniteEnds(cs, m, hole, b, fuel);
      }
      NothingDead(cs, m, b, |m|);
    }
    if fuel: nat :| WalkObject(cs, m, Nowhere, b, fuel).Over? {
      OverIsFinite(cs, m, Nowhere, b, fuel);
    }
  }

  lemma {:induction false} NothingDead(cs: Classes, m: Memory, p: nat, fuel: nat)
    ensures !WalkObject(cs, m, Nowhere, p, fuel).Dead?
    decreases fuel, 0
  {
    if fuel > 0 {
      NothingDeadFrom(cs, m, p, 0, fuel - 1);
    }
  }

  lemma {:induction false} NothingDeadFrom(cs: Classes, m: Memory, p: nat, i: nat, fuel: nat)
    ensures !WalkFrom(cs, m, Nowhere, p, i, fuel).Dead?
    decreases fuel, 1, if IsLive(m, p) && i < |m[p].obj.fields| then |m[p].obj.fields| - i else 0
  {
    if IsLive(m, p) && Shaped(cs, m[p].obj) && i < |m[p].obj.fields| {
      NothingDead(cs, m, m[p].obj.fields[i], fuel);
      NothingDeadFrom(cs, m, p, i + 1, fuel);
      hide WalkObject;
    }
  }

  // ---- classes which contain themselves ----

  // Objects of the class 'c' lead to objects of the class 'd', in at most 'n' members which are cloned
  ghost predicate Leads(cs: Classes, c: nat, d: nat, n: nat)
    decreases n
  {
    c == d || (n > 0 && exists i :: Contains(cs, c, i) && Leads(cs, cs[c][i].cls, d, n - 1))
  }

  predicate Contains(cs: Classes, c: nat, i: int) {
    c < |cs| && 0 <= i < |cs[c]| && cs[c][i].Ref? && !cs[c][i].shared
  }

  lemma {:induction false} ReachesLeads(cs: Classes, m: Memory, p: nat, s: nat, n: nat)
    requires ReachesIn(cs, m, p, s, n) && AllTyped(cs, m) && IsLive(m, p)
    ensures IsLive(m, s) && Leads(cs, m[p].obj.cls, m[s].obj.cls, n)
    decreases n
  {
    if p != s {
      var i :| Cloned(cs, m, p, i) && ReachesIn(cs, m, m[p].obj.fields[i], s, n - 1);
      assert Typed(cs, m, m[p].obj);
      ReachesLeads(cs, m, m[p].obj.fields[i], s, n - 1);
      assert Contains(cs, m[p].obj.cls, i);
    }
  }

  lemma {:induction false} LeadsAlong(cs: Classes, m: Memory, p: nat, d: nat, n: nat, fuel: nat) returns (q: nat,
                                      left: nat)
    requires AllTyped(cs, m) && IsLive(m, p) && Leads(cs, m[p].obj.cls, d, n)
    requires WalkObject(cs, m, Nowhere, p, fuel).Over?
    ensures IsLive(m, q) && m[q].obj.cls == d && left <= fuel && WalkObject(cs, m, Nowhere, q, left).Over?
    decreases n
  {
    if m[p].obj.cls == d {
      q, left := p, fuel;
    } else {
      var i :| Contains(cs, m[p].obj.cls, i) && Leads(cs, cs[m[p].obj.cls][i].cls, d, n - 1);
      assert Typed(cs, m, m[p].obj);
      OverBelow(cs, m, Nowhere, p, i, fuel);
      q, left := LeadsAlong(cs, m, m[p].obj.fields[i], d, n - 1, fuel - 1);
    }
  }

  // No clone ends of an object whose class contains itself: every object of this class has one more below
  lemma {:induction false} ContainsItself(cs: Classes, m: Memory, p: nat, d: nat, k: nat, n: nat, fuel: nat)
    requires AllTyped(cs, m) && IsLive(m, p) && Leads(cs, m[p].obj.cls, d, n)
    requires Contains(cs, d, k) && cs[d][k].cls == m[p].obj.cls
    ensures !WalkObject(cs, m, Nowhere, p, fuel).Over?
    decreases fuel
  {
    if WalkObject(cs, m, Nowhere, p, fuel).Over? {
      var q, left := LeadsAlong(cs, m, p, d, n, fuel);
      assert Typed(cs, m, m[q].obj);
      OverBelow(cs, m, Nowhere, q, k, left);
      ContainsItself(cs, m, m[q].obj.fields[k], d, k, n, left - 1);
      assert false;
    }
  }
}
