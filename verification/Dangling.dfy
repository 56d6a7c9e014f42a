// What a deep copy does to the memory follows from the walk of its source: it ends when the walk is over, reads a dead
// object when the walk meets a dead member, and fails for its depth otherwise. There is at most one dead member: the
// target, whose old value is released before the source is cloned. An address which was freed is not given again
// here: an allocator which does so hides the failure.
module Dangling {
  import opened Isa
  import opened Heap
  import opened Cascade
  import opened Assignment
  import opened Ownership
  import opened Walks

  // The limits of any execution: the depth of the objects, and the counts
  predicate Limit(f: Fault) { f == TooDeep || f == TooMany }

  // What is foretold by the walk, unless a count is at its maximum
  predicate Foretold(w: Walk, failed: bool, fault: Fault) {
    || (failed && fault == TooMany)
    || match w
       case Over => !failed
       case Dead => failed && fault == UnknownPointer
       case Deep => failed && fault == TooDeep
  }

  predicate ValueForetold(w: Walk, r: Value) { Foretold(w, r.Lost?, if r.Lost? then r.fault else TooMany) }

  predicate ResultForetold(w: Walk, r: Result) { Foretold(w, r.Failed?, if r.Failed? then r.fault else TooMany) }

  predicate OutcomeForetold(w: Walk, o: Outcome) { Foretold(w, o.Fault?, if o.Fault? then o.fault else TooMany) }

  // ---- clones ----

  // The objects of 'group' are as they were in 'm0'. But for the hole, their members are alive and of their class;
  // those which are cloned are in the group.
  ghost predicate Sound(cs: Classes, m0: Memory, m: Memory, hole: Hole, group: set<nat>) {
    forall p :: p in group ==> SoundObject(cs, m0, m, hole, group, p)
  }

  ghost predicate SoundObject(cs: Classes, m0: Memory, m: Memory, hole: Hole, group: set<nat>, p: nat) {
    && IsLive(m0, p) && IsLive(m, p) && SameObject(m0[p].obj, m[p].obj) && Shaped(cs, m[p].obj)
    && forall i :: 0 <= i < |m[p].obj.fields| && cs[m[p].obj.cls][i].Ref? ==>
         SoundField(m, group, m[p].obj.fields[i], cs[m[p].obj.cls][i], hole == At(p, i))
  }

  ghost predicate SoundField(m: Memory, group: set<nat>, v: nat, member: Member, dead: bool) {
    if dead then v < |m| && !IsLive(m, v)
    else
      && IsLive(m, v) && m[v].obj.count > 0
      && (member.Ref? && !member.shared ==> v in group && m[v].obj.cls == member.cls)
  }

  // No object dies or comes back, and nothing is written but 'c'. No count decreases, but perhaps the one of 'v' by
  // one. There is no object at the address 0.
  ghost predicate Grown(m: Memory, m': Memory, c: nat, v: nat) {
    && |m| <= |m'|
    && (forall p: nat :: IsLive(m, p) ==> Follows(m, m', c, v, p))
    && (forall p: nat :: p < |m| && !IsLive(m, p) ==> !IsLive(m', p))
  }

  ghost predicate Follows(m: Memory, m': Memory, c: nat, v: nat, p: nat)
    requires IsLive(m, p)
  {
    && IsLive(m', p) && m'[p].obj.cls == m[p].obj.cls && |m'[p].obj.fields| == |m[p].obj.fields|
    && (p != c ==> m'[p].obj.fields == m[p].obj.fields)
    && m'[p].obj.count + (if p == v then 1 else 0) >= m[p].obj.count
  }

  lemma GrownTrans(m: Memory, m1: Memory, m2: Memory, c: nat)
    requires Grown(m, m1, c, 0) && Grown(m1, m2, c, 0)
    ensures Grown(m, m2, c, 0)
  {
    forall p: nat | IsLive(m, p)
      ensures Follows(m, m2, c, 0, p)
    {
      assert Follows(m, m1, c, 0, p) && Follows(m1, m2, c, 0, p);
    }
  }

  lemma SoundLater(cs: Classes, m0: Memory, m: Memory, m': Memory, hole: Hole, group: set<nat>, c: nat)
    requires Sound(cs, m0, m, hole, group) && Grown(m, m', c, 0) && c !in group
    ensures Sound(cs, m0, m', hole, group)
  {
    forall p | p in group
      ensures SoundObject(cs, m0, m', hole, group, p)
    {
      assert SoundObject(cs, m0, m, hole, group, p) && Follows(m, m', c, 0, p);
      forall i | 0 <= i < |m'[p].obj.fields| && cs[m'[p].obj.cls][i].Ref?
        ensures SoundField(m', group, m'[p].obj.fields[i], cs[m'[p].obj.cls][i], hole == At(p, i))
      {
        assert SoundField(m, group, m[p].obj.fields[i], cs[m[p].obj.cls][i], hole == At(p, i));
        if IsLive(m, m[p].obj.fields[i]) {
          assert Follows(m, m', c, 0, m[p].obj.fields[i]);
        }
      }
    }
  }

  lemma AddGrown(m: Memory, v: nat)
    requires AddRef(m, v).Ok?
    ensures Grown(m, AddRef(m, v).mem, 0, 0)
  {
  }

  // The value of a member: shared, or cloned after a reference was taken
  lemma MemberWalks(cs: Classes, m0: Memory, m: Memory, hole: Hole, group: set<nat>, v: nat, member: Member, dead: bool,
                    fuel: nat)
    requires Sound(cs, m0, m, hole, group) && |m| > 0 && (member.Ref? ==> SoundField(m, group, v, member, dead))
    ensures var r := CloneMember(cs, m, v, member, fuel);
      && ValueForetold(WalkMember(cs, m0, hole, v, member, dead, fuel), r)
      && (r.Got? ==> Grown(m, r.mem, 0, 0))
    decreases fuel, 0, 1
  {
    hide *;
    MemberIs(cs, m, v, member, fuel);
    WalkMemberIs(cs, m0, hole, v, member, dead, fuel);
    FieldMeans(m, group, v, member, dead);
    if member.Ref? && AddRef(m, v).Ok? {
      AddGrown(m, v);
      if !member.shared && !dead {
        var m1 := AddRef(m, v).mem;
        Added(m, v, m1);
        ZeroOut(cs, m0, m, hole, group);
        SoundLater(cs, m0, m, m1, hole, group, 0);
        DeepWalks(cs, m0, m1, hole, group, v, member.cls, fuel);
        var r := CloneDeep(cs, m1, v, member.cls, fuel);
        if r.Got? {
          Undone(m, v, m1, r.mem);
        }
      }
    } else {
      SameGrown(m);
    }
    Foretelling(Over, CloneMember(cs, m, v, member, fuel));
    Foretelling(Dead, CloneMember(cs, m, v, member, fuel));
  }

  lemma WalkMemberIs(cs: Classes, m: Memory, hole: Hole, v: nat, member: Member, dead: bool, fuel: nat)
    ensures WalkMember(cs, m, hole, v, member, dead, fuel)
         == if member.Pod? then Over else if dead then Dead else if member.shared then Over
            else WalkObject(cs, m, hole, v, fuel)
  {
  }

  lemma Foretelling(w: Walk, r: Value)
    ensures r == Lost(TooMany) ==> forall w' :: ValueForetold(w', r)
    ensures w.Over? && r.Got? ==> ValueForetold(w, r)
    ensures w.Dead? && r == Lost(UnknownPointer) ==> ValueForetold(w, r)
    ensures w.Deep? && r == Lost(TooDeep) ==> ValueForetold(w, r)
  {
  }

  lemma ZeroOut(cs: Classes, m0: Memory, m: Memory, hole: Hole, group: set<nat>)
    requires Sound(cs, m0, m, hole, group)
    ensures 0 !in group
  {
    if 0 in group {
      InGroup(cs, m0, m, hole, group, 0);
    }
  }

  lemma InGroup(cs: Classes, m0: Memory, m: Memory, hole: Hole, group: set<nat>, p: nat)
    requires Sound(cs, m0, m, hole, group) && p in group
    ensures IsLive(m, p)
  {
    assert SoundObject(cs, m0, m, hole, group, p);
  }

  lemma FieldMeans(m: Memory, group: set<nat>, v: nat, member: Member, dead: bool)
    ensures member.Ref? && SoundField(m, group, v, member, dead) && !dead ==>
      IsLive(m, v) && v < |m| && m[v].Live? && m[v].obj.count > 0
    ensures member.Ref? && SoundField(m, group, v, member, dead) && !dead && !member.shared ==>
      v in group && v < |m| && m[v].Live? && m[v].obj.cls == member.cls
    ensures member.Ref? && SoundField(m, group, v, member, dead) && dead ==> !IsLive(m, v)
  {
  }

  lemma SameGrown(m: Memory)
    ensures Grown(m, m, 0, 0)
  {
  }

  lemma MemberIs(cs: Classes, m: Memory, v: nat, member: Member, fuel: nat)
    ensures member.Pod? ==> CloneMember(cs, m, v, member, fuel) == Got(v, m)
    ensures member.Ref? && AddRef(m, v).Ok? && member.shared ==>
      CloneMember(cs, m, v, member, fuel) == Got(v, AddRef(m, v).mem)
    ensures member.Ref? && AddRef(m, v).Ok? && !member.shared ==>
      CloneMember(cs, m, v, member, fuel) == CloneDeep(cs, AddRef(m, v).mem, v, member.cls, fuel)
    ensures member.Ref? && AddRef(m, v).Failed? ==>
      CloneMember(cs, m, v, member, fuel) == Lost(if IsLive(m, v) then TooMany else UnknownPointer)
    ensures !IsLive(m, v) ==> AddRef(m, v).Failed?
  {
  }

  lemma Added(m: Memory, v: nat, m1: Memory)
    requires AddRef(m, v) == Ok(m1)
    ensures |m1| == |m| && IsLive(m, v) && v < |m| && m[v].Live? && IsLive(m1, v) && v < |m1| && m1[v].Live?
    ensures m1[v].obj.count == m[v].obj.count + 1 && m1[v].obj.cls == m[v].obj.cls
  {
  }

  // A reference was taken before, and is given back
  lemma Undone(m: Memory, v: nat, m1: Memory, m2: Memory)
    requires AddRef(m, v) == Ok(m1) && Grown(m1, m2, 0, v)
    ensures Grown(m, m2, 0, 0)
  {
    forall p: nat | IsLive(m, p)
      ensures Follows(m, m2, 0, 0, p)
    {
      assert Follows(m1, m2, 0, v, p);
    }
  }

  // An object which has one reference more than its own
  lemma DeepWalks(cs: Classes, m0: Memory, m: Memory, hole: Hole, group: set<nat>, v: nat, cls: nat, fuel: nat)
    requires Sound(cs, m0, m, hole, group) && |m| > 0 && v in group
    requires IsLive(m, v) && m[v].obj.cls == cls && m[v].obj.count >= 2
    ensures var r := CloneDeep(cs, m, v, cls, fuel);
      && ValueForetold(WalkObject(cs, m0, hole, v, fuel), r)
      && (r.Got? ==> Grown(m, r.mem, 0, v) && r.v == |m| && IsLive(r.mem, |m|))
    decreases fuel, 0, 0
  {
    hide *;
    DeepClass(cs, m0, m, hole, group, v);
    DeepIs(cs, m, v, cls, fuel);
    WalkObjectIs(cs, m0, hole, v, fuel);
    if fuel > 0 {
      var d := |m|;
      FreshGrown(cs, m, cls);
      var m1 := AddRef(Allocate(cs, m, cls), d).mem;
      ZeroOut(cs, m0, m, hole, group);
      SoundLater(cs, m0, m, m1, hole, group, 0);
      FreshOut(cs, m0, m, hole, group, d);
      KeptCount(m, m1, 0, v);
      MembersWalk(cs, m0, m1, hole, group, d, v, cls, 0, fuel - 1);
      var r := CloneMembers(cs, m1, d, v, cls, 0, fuel - 1);
      if r.Ok? {
        KeptCount(m1, r.mem, d, v);
        DropOne(cs, r.mem, v, cls);
        DeepGrown(m, m1, r.mem, d, v);
      }
      SameForetold(WalkObject(cs, m0, hole, v, fuel), r, CloneDeep(cs, m, v, cls, fuel));
    } else {
      Foretelling(Deep, CloneDeep(cs, m, v, cls, fuel));
    }
  }

  lemma WalkObjectIs(cs: Classes, m: Memory, hole: Hole, p: nat, fuel: nat)
    ensures WalkObject(cs, m, hole, p, fuel) == if fuel == 0 then Deep else WalkFrom(cs, m, hole, p, 0, fuel - 1)
  {
  }

  lemma SameForetold(w: Walk, r: Result, v: Value)
    requires ResultForetold(w, r) && v.Lost? == r.Failed? && (r.Failed? ==> v == Lost(r.fault))
    ensures ValueForetold(w, v)
  {
  }

  lemma DeepClass(cs: Classes, m0: Memory, m: Memory, hole: Hole, group: set<nat>, v: nat)
    requires Sound(cs, m0, m, hole, group) && v in group && IsLive(m, v)
    ensures v < |m| && m[v].Live? && m[v].obj.cls < |cs| && |m[v].obj.fields| == |cs[m[v].obj.cls]|
  {
    assert SoundObject(cs, m0, m, hole, group, v);
  }

  lemma FreshOut(cs: Classes, m0: Memory, m: Memory, hole: Hole, group: set<nat>, d: nat)
    requires Sound(cs, m0, m, hole, group) && d >= |m|
    ensures d !in group
  {
    assert d in group ==> SoundObject(cs, m0, m, hole, group, d);
  }

  lemma KeptCount(m: Memory, m': Memory, c: nat, v: nat)
    requires Grown(m, m', c, 0) && IsLive(m, v)
    ensures v < |m| && m[v].Live? && IsLive(m', v) && v < |m'| && m'[v].Live? && m'[v].obj.cls == m[v].obj.cls
    ensures m'[v].obj.count >= m[v].obj.count
  {
    assert Follows(m, m', c, 0, v);
  }

  lemma DeepIs(cs: Classes, m: Memory, v: nat, cls: nat, fuel: nat)
    requires cls < |cs| && |m| > 0
    ensures fuel == 0 ==> CloneDeep(cs, m, v, cls, fuel) == Lost(TooDeep)
    ensures AddRef(Allocate(cs, m, cls), |m|).Ok?
    ensures fuel > 0 ==>
      var r := CloneMembers(cs, AddRef(Allocate(cs, m, cls), |m|).mem, |m|, v, cls, 0, fuel - 1);
      && (r.Failed? ==> CloneDeep(cs, m, v, cls, fuel) == Lost(r.fault))
      && (r.Ok? && Unref(cs, r.mem, v, cls, |r.mem|).Ok? ==>
            CloneDeep(cs, m, v, cls, fuel) == Got(|m|, Unref(cs, r.mem, v, cls, |r.mem|).mem))
  {
    hide CloneMembers;
    hide Unref;
  }

  lemma FreshGrown(cs: Classes, m: Memory, cls: nat)
    requires cls < |cs| && |m| > 0 && AddRef(Allocate(cs, m, cls), |m|).Ok?
    ensures var m1 := AddRef(Allocate(cs, m, cls), |m|).mem;
      && Grown(m, m1, 0, 0) && |m1| > 0 && IsLive(m1, |m|) && |m| < |m1| && m1[|m|].Live?
      && |m1[|m|].obj.fields| == |cs[cls]| && |m1| > |m|
  {
  }

  lemma DropOne(cs: Classes, m: Memory, v: nat, cls: nat)
    requires IsLive(m, v) && m[v].obj.count >= 2
    ensures Unref(cs, m, v, cls, |m|) == Ok(WithCount(m, v, m[v].obj.count - 1))
  {
  }

  lemma DeepGrown(m: Memory, m1: Memory, m2: Memory, d: nat, v: nat)
    requires Grown(m, m1, 0, 0) && Grown(m1, m2, d, 0) && d == |m| && IsLive(m1, d)
    requires IsLive(m2, v) && m2[v].obj.count >= 2 && IsLive(m, v)
    ensures Grown(m, WithCount(m2, v, m2[v].obj.count - 1), 0, v)
    ensures IsLive(WithCount(m2, v, m2[v].obj.count - 1), d)
  {
    assert Follows(m1, m2, d, 0, d);
    forall p: nat | IsLive(m, p)
      ensures Follows(m, WithCount(m2, v, m2[v].obj.count - 1), 0, v, p)
    {
      assert Follows(m, m1, 0, 0, p) && Follows(m1, m2, d, 0, p);
    }
  }

  lemma {:induction false} MembersWalk(cs: Classes, m0: Memory, m: Memory, hole: Hole, group: set<nat>, c: nat, b: nat,
                                       cls: nat, i: nat, fuel: nat)
    requires Sound(cs, m0, m, hole, group) && |m| > 0 && b in group && IsLive(m, b) && m[b].obj.cls == cls
    requires c !in group
    requires cls < |cs| && i <= |cs[cls]| && IsLive(m, c) && |m[c].obj.fields| == |cs[cls]|
    ensures var r := CloneMembers(cs, m, c, b, cls, i, fuel);
      && ResultForetold(WalkFrom(cs, m0, hole, b, i, fuel), r)
      && (r.Ok? ==> Grown(m, r.mem, c, 0))
    decreases fuel, 1, if cls < |cs| && i <= |cs[cls]| then |cs[cls]| - i else 0
  {
    hide *;
    LiveMeans(m, c);
    DeepClass(cs, m0, m, hole, group, b);
    MembersAre(cs, m, c, b, cls, i, fuel);
    WalkIs(cs, m0, m, hole, group, b, i, fuel);
    if i == |cs[cls]| {
      AnyGrown(m, c);
    } else {
      var v, member := m[b].obj.fields[i], cs[cls][i];
      GroupField(cs, m0, m, hole, group, b, i);
      MemberWalks(cs, m0, m, hole, group, v, member, hole == At(b, i), fuel);
      var w, r := WalkMember(cs, m0, hole, v, member, hole == At(b, i), fuel), CloneMember(cs, m, v, member, fuel);
      if r.Got? {
        GotIsOver(w, r);
        GrownMore(m, r.mem, c);
        KeptField(m, r.mem, c);
        WriteGrown(r.mem, c, i, r.v);
        var m2 := SetField(r.mem, c, i, r.v).mem;
        GrownTrans(m, r.mem, m2, c);
        SoundLater(cs, m0, m, m2, hole, group, c);
        KeptCount(m, m2, c, b);
        KeptField(m, m2, c);
        MembersWalk(cs, m0, m2, hole, group, c, b, cls, i + 1, fuel);
        var r2 := CloneMembers(cs, m2, c, b, cls, i + 1, fuel);
        if r2.Ok? {
          GrownTrans(m, m2, r2.mem, c);
        }
      } else {
        LostIsNotOver(w, r, CloneMembers(cs, m, c, b, cls, i, fuel));
      }
    }
  }

  // The walk reads the members in 'm0', where they are the same
  lemma WalkIs(cs: Classes, m0: Memory, m: Memory, hole: Hole, group: set<nat>, b: nat, i: nat, fuel: nat)
    requires Sound(cs, m0, m, hole, group) && b in group && IsLive(m, b) && m[b].obj.cls < |cs|
    requires |m[b].obj.fields| == |cs[m[b].obj.cls]|
    ensures i == |m[b].obj.fields| ==> forall n :: ResultForetold(WalkFrom(cs, m0, hole, b, i, fuel), Ok(n))
    ensures i < |m[b].obj.fields| ==>
      var w := WalkMember(cs, m0, hole, m[b].obj.fields[i], cs[m[b].obj.cls][i], hole == At(b, i), fuel);
      WalkFrom(cs, m0, hole, b, i, fuel) == if w.Over? then WalkFrom(cs, m0, hole, b, i + 1, fuel) else w
  {
    assert SoundObject(cs, m0, m, hole, group, b);
    hide WalkMember;
  }

  lemma GotIsOver(w: Walk, r: Value)
    requires ValueForetold(w, r) && r.Got?
    ensures w.Over?
  {
  }

  lemma LostIsNotOver(w: Walk, r: Value, all: Result)
    requires ValueForetold(w, r) && r.Lost? && all == Failed(r.fault)
    ensures r == Lost(TooMany) || !w.Over?
    ensures ResultForetold(w, all) && (r == Lost(TooMany) ==> forall w' :: ResultForetold(w', all))
  {
  }

  lemma AnyGrown(m: Memory, c: nat)
    ensures Grown(m, m, c, 0)
  {
  }

  lemma GrownMore(m: Memory, m': Memory, c: nat)
    requires Grown(m, m', 0, 0)
    ensures Grown(m, m', c, 0)
  {
    forall p: nat | IsLive(m, p)
      ensures Follows(m, m', c, 0, p)
    {
      assert Follows(m, m', 0, 0, p);
    }
  }

  lemma KeptField(m: Memory, m': Memory, c: nat)
    requires Grown(m, m', c, 0) && IsLive(m, c)
    ensures IsLive(m', c) && c < |m'| && m'[c].Live? && c < |m| && m[c].Live? && |m'| >= |m|
    ensures |m'[c].obj.fields| == |m[c].obj.fields|
  {
    assert Follows(m, m', c, 0, c);
  }

  lemma WriteGrown(m: Memory, c: nat, i: nat, v: nat)
    requires IsLive(m, c) && i < |m[c].obj.fields|
    ensures SetField(m, c, i, v).Ok? && Grown(m, SetField(m, c, i, v).mem, c, 0)
  {
  }

  lemma GroupField(cs: Classes, m0: Memory, m: Memory, hole: Hole, group: set<nat>, b: nat, i: nat)
    requires Sound(cs, m0, m, hole, group) && b in group && IsLive(m, b) && i < |m[b].obj.fields|
    requires m[b].obj.cls < |cs| && |m[b].obj.fields| == |cs[m[b].obj.cls]|
    ensures cs[m[b].obj.cls][i].Ref? ==>
      SoundField(m, group, m[b].obj.fields[i], cs[m[b].obj.cls][i], hole == At(b, i))
  {
    assert SoundObject(cs, m0, m, hole, group, b);
  }

  lemma MembersAre(cs: Classes, m: Memory, c: nat, b: nat, cls: nat, i: nat, fuel: nat)
    requires cls < |cs| && i <= |cs[cls]| && IsLive(m, b) && |m[b].obj.fields| == |cs[cls]|
    ensures i == |cs[cls]| ==> CloneMembers(cs, m, c, b, cls, i, fuel) == Ok(m)
    ensures i < |cs[cls]| ==>
      var r := CloneMember(cs, m, m[b].obj.fields[i], cs[cls][i], fuel);
      && (r.Lost? ==> CloneMembers(cs, m, c, b, cls, i, fuel) == Failed(r.fault))
      && (r.Got? && SetField(r.mem, c, i, r.v).Ok? ==>
            CloneMembers(cs, m, c, b, cls, i, fuel)
            == CloneMembers(cs, SetField(r.mem, c, i, r.v).mem, c, b, cls, i + 1, fuel))
  {
  }

  // ---- an assignment ----

  // The old value was released: what remains is foretold by the walk of the source, as it was in 'm0'
  lemma CopyWalks(cs: Classes, m0: Memory, m: Memory, hole: Hole, regs: seq<nat>, lhs: nat, rhs: nat, target: Target,
                  cls: nat, fuel: nat)
    requires Sound(cs, m0, m, hole, Everything(m)) && |m| > 0 && lhs < |regs| && rhs < |regs| && lhs != rhs
    requires cls < |cs|
    requires IsLive(m, regs[rhs]) && m[regs[rhs]].obj.cls == cls && m[regs[rhs]].obj.count >= 2
    requires target.Of? ==>
      target.self < |regs| && target.self != lhs && HasMember(cs, m, regs[target.self], target.field, cls)
    ensures OutcomeForetold(WalkObject(cs, m0, hole, regs[rhs], fuel + 1),
                            Run(cs, CloneCode(lhs, rhs, cls) + StoreCode(lhs, target), regs, m, fuel))
  {
    hide *;
    RunCat(cs, CloneCode(lhs, rhs, cls), StoreCode(lhs, target), regs, m, fuel);
    CloneRuns(cs, lhs, rhs, cls, regs, m, fuel);
    InEverything(m, regs[rhs]);
    DeepWalks(cs, m0, m, hole, Everything(m), regs[rhs], cls, fuel + 1);
    var r := CloneDeep(cs, m, regs[rhs], cls, fuel + 1);
    if r.Got? {
      GotIsOver(WalkObject(cs, m0, hole, regs[rhs], fuel + 1), r);
      var regs1 := regs[lhs := r.v];
      if target.Plain? {
        PlainStores(cs, lhs, regs1, r.mem, fuel);
      } else {
        SelfFollows(cs, m, r.mem, regs[rhs], regs[target.self], target.field, cls);
        StoreCode2(cs, r.mem, regs1, lhs, target, fuel);
        StoreSafe(r.mem, r.v, regs[target.self], target.field);
      }
    }
    AllForetold(WalkObject(cs, m0, hole, regs[rhs], fuel + 1), r,
                Run(cs, CloneCode(lhs, rhs, cls) + StoreCode(lhs, target), regs, m, fuel));
  }

  lemma AllForetold(w: Walk, r: Value, o: Outcome)
    requires ValueForetold(w, r) && (r.Lost? ==> o == Outcome.Fault(r.fault))
    requires r.Got? ==> o.Done? || o == Outcome.Fault(TooMany)
    ensures OutcomeForetold(w, o)
  {
  }

  ghost function Everything(m: Memory): (r: set<nat>)
    ensures forall p :: p in r <==> IsLive(m, p)
  {
    set p: nat | p < |m| && IsLive(m, p)
  }

  lemma InEverything(m: Memory, p: nat)
    requires IsLive(m, p)
    ensures p in Everything(m)
  {
  }

  lemma SelfFollows(cs: Classes, m: Memory, m': Memory, v: nat, s: nat, k: nat, cls: nat)
    requires Grown(m, m', 0, v) && HasMember(cs, m, s, k, cls)
    ensures IsLive(m', s) && s < |m'| && m'[s].Live? && k < |m'[s].obj.fields|
  {
    assert Follows(m, m', 0, v, s);
  }

  lemma StoreSafe(m: Memory, v: nat, s: nat, k: nat)
    requires IsLive(m, v) && IsLive(m, s) && k < |m[s].obj.fields|
    ensures AddRef(m, v).Failed? ==> AddRef(m, v).fault == TooMany
    ensures AddRef(m, v).Ok? ==> SetField(AddRef(m, v).mem, s, k, v).Ok?
  {
  }

  lemma PlainStores(cs: Classes, lhs: nat, regs: seq<nat>, m: Memory, fuel: nat)
    ensures Run(cs, StoreCode(lhs, Plain), regs, m, fuel) == Done(regs, m)
  {
  }

  // A member of an object which is not open is owned
  lemma MemberCounted(cs: Classes, m: Memory, ext: multiset<nat>, z: set<nat>, p: nat, i: nat)
    requires Balanced(cs, m, ext, z) && IsLive(m, p) && p !in z
    requires Shaped(cs, m[p].obj) && i < |m[p].obj.fields| && cs[m[p].obj.cls][i].Ref?
    ensures var v := m[p].obj.fields[i];
      IsLive(m, v) && m[v].obj.count > 0 && m[v].obj.cls == cs[m[p].obj.cls][i].cls
  {
    var v := m[p].obj.fields[i];
    assert Typed(cs, m, m[p].obj);
    OwnedMember(cs, m[p].obj, 0, i);
    OwnersAtLeast(cs, m, z, p, v, |m|);
  }

  // Nothing is dead in balanced memory
  lemma BalancedSound(cs: Classes, m0: Memory, m: Memory, ext: multiset<nat>)
    requires Balanced(cs, m, ext, {}) && Kept(m0, m) && |m| == |m0|
    ensures Sound(cs, m0, m, Nowhere, Everything(m))
  {
    hide Owners;
    forall p | p in Everything(m)
      ensures SoundObject(cs, m0, m, Nowhere, Everything(m), p)
    {
      assert Shaped(cs, m[p].obj);
      forall i | 0 <= i < |m[p].obj.fields| && cs[m[p].obj.cls][i].Ref?
        ensures SoundField(m, Everything(m), m[p].obj.fields[i], cs[m[p].obj.cls][i], false)
      {
        MemberCounted(cs, m, ext, {}, p, i);
      }
    }
  }

  lemma SourceCounted(cs: Classes, m: Memory, e: multiset<nat>, z: set<nat>, b: nat)
    requires Balanced(cs, m, e, z) && e[b] >= 2
    ensures IsLive(m, b) && b < |m| && m[b].Live? && m[b].obj.count >= 2
  {
    assert b in e;
  }

  lemma AddKept(m: Memory, v: nat, m1: Memory)
    requires AddRef(m, v) == Ok(m1)
    ensures Kept(m, m1) && |m1| == |m|
  {
  }

  // The first instruction takes a reference on the source
  lemma FirstRef(cs: Classes, m: Memory, ext: multiset<nat>, regs: seq<nat>, lhs: nat, rhs: nat, target: Target,
                 dispose: bool, cls: nat, fuel: nat)
    requires Assignable(cs, m, ext, regs, lhs, rhs, target, cls)
    ensures |regs| > lhs && |regs| > rhs && IsLive(m, regs[rhs])
    ensures var o := Run(cs, AssignCode(DeepCopy, lhs, rhs, target, dispose, cls), regs, m, fuel);
      var r := AddRef(m, regs[rhs]);
      if r.Failed? then o == Outcome.Fault(TooMany) && forall w :: OutcomeForetold(w, o)
      else
        && o == Run(cs, DisposeCode(lhs, target, dispose, cls)
                    + (CloneCode(lhs, rhs, cls) + StoreCode(lhs, target)), regs,
                    r.mem, fuel)
        && Balanced(cs, r.mem, ext + multiset{regs[rhs]}, {}) && Kept(m, r.mem) && |r.mem| == |m|
  {
    hide *;
    var code := DisposeCode(lhs, target, dispose, cls) + (CloneCode(lhs, rhs, cls) + StoreCode(lhs, target));
    DeepCodeIs(lhs, rhs, target, dispose, cls);
    AssignableMeans(cs, m, ext, regs, lhs, rhs, target, cls);
    RunFirst(cs, RefOp(rhs), code, regs, m, fuel);
    RefRuns(cs, rhs, regs, m, fuel);
    if AddRef(m, regs[rhs]).Ok? {
      RefBalanced(cs, m, ext, {}, regs[rhs]);
      AddKept(m, regs[rhs], AddRef(m, regs[rhs]).mem);
    } else {
      OnlyTooMany(m, regs[rhs]);
      AnyForetold();
    }
  }

  lemma AnyForetold()
    ensures forall w :: OutcomeForetold(w, Outcome.Fault(TooMany))
  {
  }

  // -- a plain variable --

  // What a deep copy into a variable does, whatever is released before
  lemma PlainCopyWalks(cs: Classes, m: Memory, ext: multiset<nat>, regs: seq<nat>, lhs: nat, rhs: nat, dispose: bool,
                         cls: nat, fuel: nat)
    requires Assignable(cs, m, ext, regs, lhs, rhs, Plain, cls)
    requires dispose ==> Disposable(cs, m, ext, regs, lhs, rhs, Plain, cls)
    ensures rhs < |regs|
    ensures OutcomeForetold(WalkObject(cs, m, Nowhere, regs[rhs], fuel + 1),
                            Run(cs, AssignCode(DeepCopy, lhs, rhs, Plain, dispose, cls), regs, m, fuel))
  {
    hide *;
    AssignableMeans(cs, m, ext, regs, lhs, rhs, Plain, cls);
    FirstRef(cs, m, ext, regs, lhs, rhs, Plain, dispose, cls, fuel);
    if AddRef(m, regs[rhs]).Ok? {
      var m1 := AddRef(m, regs[rhs]).mem;
      DisposeReady(cs, m, m1, ext, regs, lhs, rhs, Plain, dispose, cls);
      RemainingIs(m1, ext + multiset{regs[rhs]}, regs, lhs, Plain, dispose);
      var m2 := DisposeRuns(cs, m1, ext + multiset{regs[rhs]}, regs, lhs, Plain, dispose, cls, fuel);
      DisposeKeeps(cs, m1, regs, lhs, Plain, dispose, cls, fuel, m2);
      KeptTrans(m, m1, m2);
      RunCat(cs, DisposeCode(lhs, Plain, dispose, cls), CloneCode(lhs, rhs, cls) + StoreCode(lhs, Plain), regs, m1,
             fuel);
      PlainReady(cs, m, m1, m2, ext, regs, lhs, rhs, dispose, cls);
      CopyWalks(cs, m, m2, Nowhere, regs, lhs, rhs, Plain, cls, fuel);
    }
  }

  // A deep copy into a variable reads no dead object. It succeeds if and only if the clone of the source goes through
  // no cycle, up to the limits: the size of the memory is a depth which is enough.
  lemma PlainCopyIsExact(cs: Classes, m: Memory, ext: multiset<nat>, regs: seq<nat>, lhs: nat, rhs: nat, dispose: bool,
                         cls: nat, fuel: nat)
    requires Assignable(cs, m, ext, regs, lhs, rhs, Plain, cls)
    requires dispose ==> Disposable(cs, m, ext, regs, lhs, rhs, Plain, cls)
    ensures rhs < |regs|
    ensures var o := Run(cs, AssignCode(DeepCopy, lhs, rhs, Plain, dispose, cls), regs, m, fuel);
      && (o.Fault? ==> Limit(o.fault))
      && (o.Done? ==> Finite(cs, m, regs[rhs]))
      && (Finite(cs, m, regs[rhs]) && fuel >= |m| && o != Outcome.Fault(TooMany) ==> o.Done?)
  {
    hide *;
    PlainCopyWalks(cs, m, ext, regs, lhs, rhs, dispose, cls, fuel);
    AllAreTyped(cs, m, ext, regs, lhs, rhs, Plain, cls);
    ForetoldMeans(WalkObject(cs, m, Nowhere, regs[rhs], fuel + 1),
                  Run(cs, AssignCode(DeepCopy, lhs, rhs, Plain, dispose, cls), regs, m, fuel));
    WalkIsFinite(cs, m, Nowhere, regs[rhs], fuel + 1);
    NothingDead(cs, m, regs[rhs], fuel + 1);
  }

  lemma AllAreTyped(cs: Classes, m: Memory, ext: multiset<nat>, regs: seq<nat>, lhs: nat, rhs: nat, target: Target,
                    cls: nat)
    requires Assignable(cs, m, ext, regs, lhs, rhs, target, cls)
    ensures rhs < |regs| && IsLive(m, regs[rhs]) && AllTyped(cs, m)
  {
    hide Owners;
  }

  lemma WalkIsFinite(cs: Classes, m: Memory, hole: Hole, b: nat, fuel: nat)
    requires AllTyped(cs, m) && IsLive(m, b)
    ensures WalkObject(cs, m, hole, b, fuel).Over? ==> Finite(cs, m, b)
    ensures Finite(cs, m, b) && fuel >= |m| ==> !WalkObject(cs, m, hole, b, fuel).Deep?
  {
    hide *;
    WalkEnds(cs, m, b);
    if WalkObject(cs, m, hole, b, fuel).Over? {
      OverIsFinite(cs, m, hole, b, fuel);
    }
  }

  lemma PlainReady(cs: Classes, m: Memory, m1: Memory, m2: Memory, ext: multiset<nat>, regs: seq<nat>, lhs: nat,
                   rhs: nat, dispose: bool, cls: nat)
    requires Assignable(cs, m, ext, regs, lhs, rhs, Plain, cls) && AddRef(m, regs[rhs]) == Ok(m1)
    requires dispose ==> Disposable(cs, m, ext, regs, lhs, rhs, Plain, cls)
    requires Kept(m, m2) && |m2| == |m|
    requires var all := ext + multiset{regs[rhs]};
      var e := if dispose then all - multiset{regs[lhs]} else all;
      Disposed(cs, m2, e, regs, Plain, cls)
      && forall q :: q in e ==> IsLive(m2, q) && IsLive(m1, q) && SameObject(m1[q].obj, m2[q].obj)
    ensures Sound(cs, m, m2, Nowhere, Everything(m2)) && |m2| > 0
    ensures IsLive(m2, regs[rhs]) && regs[rhs] < |m2| && m2[regs[rhs]].Live?
    ensures m2[regs[rhs]].obj.cls == cls && m2[regs[rhs]].obj.count >= 2
  {
    var b := regs[rhs];
    var all := ext + multiset{b};
    var e := if dispose then all - multiset{regs[lhs]} else all;
    assert e[b] >= 2;
    SourceCounted(cs, m2, e, {}, b);
    hide Owners;
    BalancedSound(cs, m, m2, e);
  }

  // -- a member which keeps its old value --

  // The two releases free the old value: only its member and its register own it, and it is not the source
  predicate OldDies(m: Memory, regs: seq<nat>, lhs: nat, rhs: nat)
    requires lhs < |regs| && rhs < |regs|
  {
    regs[lhs] != regs[rhs] && IsLive(m, regs[lhs]) && m[regs[lhs]].obj.count == 2
  }

  lemma Twice(cs: Classes, m: Memory, regs: seq<nat>, lhs: nat, target: Target, cls: nat, fuel: nat)
    requires target.Of? && lhs < |regs| && IsLive(m, regs[lhs]) && m[regs[lhs]].obj.count > 2
    ensures var a := regs[lhs];
      Run(cs, DisposeCode(lhs, target, true, cls), regs, m, fuel) == Done(regs, WithCount(m, a, m[a].obj.count - 2))
  {
    var a := regs[lhs];
    var m1 := WithCount(m, a, m[a].obj.count - 1);
    RunFirst(cs, UnrefOp(lhs, cls), [UnrefOp(lhs, cls)], regs, m, fuel);
    assert [UnrefOp(lhs, cls)] + [UnrefOp(lhs, cls)] == DisposeCode(lhs, target, true, cls);
    assert Unref(cs, m, a, cls, |m|) == Ok(m1);
    RunFirst(cs, UnrefOp(lhs, cls), [], regs, m1, fuel);
    assert [UnrefOp(lhs, cls)] + [] == [UnrefOp(lhs, cls)];
    assert Unref(cs, m1, a, cls, |m1|) == Ok(WithCount(m, a, m[a].obj.count - 2));
  }

  lemma LessSound(cs: Classes, m0: Memory, m: Memory, a: nat, count: u64)
    requires Sound(cs, m0, m, Nowhere, Everything(m)) && IsLive(m, a) && count > 0
    ensures Sound(cs, m0, WithCount(m, a, count), Nowhere, Everything(WithCount(m, a, count)))
  {
    var m' := WithCount(m, a, count);
    forall p | p in Everything(m')
      ensures SoundObject(cs, m0, m', Nowhere, Everything(m'), p)
    {
      assert SoundObject(cs, m0, m, Nowhere, Everything(m), p);
      forall i | 0 <= i < |m'[p].obj.fields| && cs[m'[p].obj.cls][i].Ref?
        ensures SoundField(m', Everything(m'), m'[p].obj.fields[i], cs[m'[p].obj.cls][i], false)
      {
        assert SoundField(m, Everything(m), m[p].obj.fields[i], cs[m[p].obj.cls][i], false);
      }
    }
  }

  lemma CountedTwice(cs: Classes, m: Memory, m1: Memory, ext: multiset<nat>, regs: seq<nat>, lhs: nat, rhs: nat,
                     target: Target, cls: nat)
    requires Assignable(cs, m, ext, regs, lhs, rhs, target, cls) && Disposable(cs, m, ext, regs, lhs, rhs, target, cls)
    requires target.Of? && AddRef(m, regs[rhs]) == Ok(m1)
    ensures IsLive(m1, regs[lhs]) && regs[lhs] < |m1| && m1[regs[lhs]].Live? && |m1| > 0
    ensures m1[regs[lhs]].obj.count == m[regs[lhs]].obj.count + if regs[lhs] == regs[rhs] then 1 else 0
    ensures m[regs[lhs]].obj.count >= 2 + if regs[lhs] == regs[rhs] then 1 else 0
    ensures regs[lhs] != regs[rhs] ==> m1[regs[rhs]].obj.count >= 2
    ensures regs[lhs] == regs[rhs] ==> m1[regs[rhs]].obj.count >= 4
    ensures HasMember(cs, m1, regs[target.self], target.field, cls)
  {
    var a, s := regs[lhs], regs[target.self];
    assert a in ext;
    MemberCounted(cs, m, ext, {}, s, target.field);
    assert ext[a] >= 1 + if a == regs[rhs] then 1 else 0;
    OwnedMember(cs, m[s].obj, 0, target.field);
    OwnersAtLeast(cs, m, {}, s, a, |m|);
  }

  lemma SurvivorCopy(cs: Classes, m: Memory, ext: multiset<nat>, regs: seq<nat>, lhs: nat, rhs: nat, target: Target,
                     cls: nat, fuel: nat)
    requires Assignable(cs, m, ext, regs, lhs, rhs, target, cls) && Disposable(cs, m, ext, regs, lhs, rhs, target, cls)
    requires lhs < |regs| && rhs < |regs| && target.Of? && !OldDies(m, regs, lhs, rhs)
    ensures OutcomeForetold(WalkObject(cs, m, Nowhere, regs[rhs], fuel + 1),
                            Run(cs, AssignCode(DeepCopy, lhs, rhs, target, true, cls), regs, m, fuel))
  {
    hide *;
    AssignableMeans(cs, m, ext, regs, lhs, rhs, target, cls);
    FirstRef(cs, m, ext, regs, lhs, rhs, target, true, cls, fuel);
    if AddRef(m, regs[rhs]).Ok? {
      var m1 := AddRef(m, regs[rhs]).mem;
      CountedTwice(cs, m, m1, ext, regs, lhs, rhs, target, cls);
      var a := regs[lhs];
      Survives(m, m1, regs, lhs, rhs);
      BalancedSound(cs, m, m1, ext + multiset{regs[rhs]});
      Twice(cs, m1, regs, lhs, target, cls, fuel);
      RunCat(cs, DisposeCode(lhs, target, true, cls), CloneCode(lhs, rhs, cls) + StoreCode(lhs, target), regs, m1,
             fuel);
      var m2 := WithCount(m1, a, m1[a].obj.count - 2);
      LessSound(cs, m, m1, a, m1[a].obj.count - 2);
      SurvivorReady(cs, m, m1, ext, regs, lhs, rhs, target, cls);
      CopyWalks(cs, m, m2, Nowhere, regs, lhs, rhs, target, cls, fuel);
    }
  }

  lemma Survives(m: Memory, m1: Memory, regs: seq<nat>, lhs: nat, rhs: nat)
    requires lhs < |regs| && rhs < |regs| && !OldDies(m, regs, lhs, rhs) && IsLive(m1, regs[lhs])
    requires AddRef(m, regs[rhs]) == Ok(m1)
    requires m1[regs[lhs]].obj.count == m[regs[lhs]].obj.count + if regs[lhs] == regs[rhs] then 1 else 0
    requires m[regs[lhs]].obj.count >= 2 + if regs[lhs] == regs[rhs] then 1 else 0
    ensures m1[regs[lhs]].obj.count > 2 && IsLive(m, regs[lhs])
  {
  }

  lemma SurvivorReady(cs: Classes, m: Memory, m1: Memory, ext: multiset<nat>, regs: seq<nat>, lhs: nat, rhs: nat,
                      target: Target, cls: nat)
    requires Assignable(cs, m, ext, regs, lhs, rhs, target, cls) && Disposable(cs, m, ext, regs, lhs, rhs, target, cls)
    requires target.Of? && AddRef(m, regs[rhs]) == Ok(m1) && IsLive(m1, regs[lhs]) && m1[regs[lhs]].obj.count > 2
    ensures var m2 := WithCount(m1, regs[lhs], m1[regs[lhs]].obj.count - 2);
      && |m2| > 0 && IsLive(m2, regs[rhs]) && regs[rhs] < |m2| && m2[regs[rhs]].Live?
      && m2[regs[rhs]].obj.cls == cls && m2[regs[rhs]].obj.count >= 2
      && target.self < |regs| && target.self != lhs && HasMember(cs, m2, regs[target.self], target.field, cls)
  {
    CountedTwice(cs, m, m1, ext, regs, lhs, rhs, target, cls);
    hide Owners;
  }

  // Nothing is released before the clone
  lemma UndisposedCopy(cs: Classes, m: Memory, ext: multiset<nat>, regs: seq<nat>, lhs: nat, rhs: nat, target: Target,
                       cls: nat, fuel: nat)
    requires Assignable(cs, m, ext, regs, lhs, rhs, target, cls) && rhs < |regs| && target.Of?
    ensures OutcomeForetold(WalkObject(cs, m, Nowhere, regs[rhs], fuel + 1),
                            Run(cs, AssignCode(DeepCopy, lhs, rhs, target, false, cls), regs, m, fuel))
  {
    hide *;
    AssignableMeans(cs, m, ext, regs, lhs, rhs, target, cls);
    FirstRef(cs, m, ext, regs, lhs, rhs, target, false, cls, fuel);
    if AddRef(m, regs[rhs]).Ok? {
      var m1 := AddRef(m, regs[rhs]).mem;
      NothingDisposed(lhs, target, cls, CloneCode(lhs, rhs, cls) + StoreCode(lhs, target));
      BalancedSound(cs, m, m1, ext + multiset{regs[rhs]});
      UndisposedReady(cs, m, m1, ext, regs, lhs, rhs, target, cls);
      CopyWalks(cs, m, m1, Nowhere, regs, lhs, rhs, target, cls, fuel);
    }
  }

  lemma NothingDisposed(lhs: nat, target: Target, cls: nat, rest: seq<Op>)
    ensures DisposeCode(lhs, target, false, cls) + rest == rest
  {
  }

  lemma UndisposedReady(cs: Classes, m: Memory, m1: Memory, ext: multiset<nat>, regs: seq<nat>, lhs: nat, rhs: nat,
                        target: Target, cls: nat)
    requires Assignable(cs, m, ext, regs, lhs, rhs, target, cls) && target.Of? && AddRef(m, regs[rhs]) == Ok(m1)
    ensures |m1| > 0 && IsLive(m1, regs[rhs]) && regs[rhs] < |m1| && m1[regs[rhs]].Live?
    ensures m1[regs[rhs]].obj.cls == cls && m1[regs[rhs]].obj.count >= 2 && cls < |cs|
    ensures target.self < |regs| && target.self != lhs && HasMember(cs, m1, regs[target.self], target.field, cls)
  {
    assert ext[regs[rhs]] >= 1;
    hide Owned;
  }

  // -- a member whose old value dies --

  lemma DisposeKeeps(cs: Classes, m: Memory, regs: seq<nat>, lhs: nat, target: Target, dispose: bool, cls: nat,
                     fuel: nat, m2: Memory)
    requires lhs < |regs|
    requires Run(cs, DisposeCode(lhs, target, dispose, cls), regs, m, fuel) == Done(regs, m2)
    ensures Kept(m, m2)
  {
    var a := regs[lhs];
    var one := [UnrefOp(lhs, cls)];
    if dispose {
      var r := Unref(cs, m, a, cls, |m|);
      assert one + [] == one;
      RunFirst(cs, UnrefOp(lhs, cls), if target.Of? then one else [], regs, m, fuel);
      assert DisposeCode(lhs, target, dispose, cls) == one + if target.Of? then one else [];
      if r.Ok? {
        UnrefKeeps(cs, m, a, cls, |m|);
        RunFirst(cs, UnrefOp(lhs, cls), [], regs, r.mem, fuel);
        var r2 := Unref(cs, r.mem, a, cls, |r.mem|);
        if target.Of? && r2.Ok? {
          UnrefKeeps(cs, r.mem, a, cls, |r.mem|);
          KeptTrans(m, r.mem, r2.mem);
        }
      }
    }
  }

  lemma {:induction false} UnrefKeeps(cs: Classes, m: Memory, p: nat, cls: nat, fuel: nat)
    ensures var r := Unref(cs, m, p, cls, fuel);
      r.Ok? ==> |r.mem| == |m| && Kept(m, r.mem)
    decreases fuel, 2, 0
  {
    if IsLive(m, p) && (m[p].obj.count - 1) % U64_SIZE == 0 && fuel > 0 && cls < |cs| {
      var m1 := WithCount(m, p, 0);
      ReleaseKeeps(cs, m1, p, cls, 0, fuel - 1);
      hide ReleaseMembers;
    }
  }

  lemma {:induction false} ReleaseKeeps(cs: Classes, m: Memory, p: nat, cls: nat, i: nat, fuel: nat)
    requires cls < |cs| && i <= |cs[cls]|
    ensures var r := ReleaseMembers(cs, m, p, cls, i, fuel);
      r.Ok? ==> |r.mem| == |m| && Kept(m, r.mem)
    decreases fuel, 3, |cs[cls]| - i
  {
    if i < |cs[cls]| {
      if cs[cls][i].Pod? {
        ReleaseKeeps(cs, m, p, cls, i + 1, fuel);
      } else if IsLive(m, p) && i < |m[p].obj.fields| {
        UnrefKeeps(cs, m, m[p].obj.fields[i], cs[cls][i].cls, fuel);
        var r := Unref(cs, m, m[p].obj.fields[i], cs[cls][i].cls, fuel);
        hide Unref;
        if r.Ok? {
          ReleaseKeeps(cs, r.mem, p, cls, i + 1, fuel);
        }
      }
    }
  }

  lemma LastUnref(cs: Classes, m: Memory, p: nat, cls: nat, fuel: nat)
    requires IsLive(m, p) && m[p].obj.count == 1 && Unref(cs, m, p, cls, fuel).Ok?
    ensures !IsLive(Unref(cs, m, p, cls, fuel).mem, p)
  {
    hide ReleaseMembers;
  }

  // The two releases of the old value, when nothing else owns it
  lemma DisposeFrees(cs: Classes, m: Memory, regs: seq<nat>, lhs: nat, target: Target, cls: nat, fuel: nat, m2: Memory)
    requires lhs < |regs| && target.Of? && IsLive(m, regs[lhs]) && m[regs[lhs]].obj.count == 2
    requires Run(cs, DisposeCode(lhs, target, true, cls), regs, m, fuel) == Done(regs, m2)
    ensures !IsLive(m2, regs[lhs])
  {
    var a := regs[lhs];
    var m1 := WithCount(m, a, 1);
    RunFirst(cs, UnrefOp(lhs, cls), [UnrefOp(lhs, cls)], regs, m, fuel);
    assert [UnrefOp(lhs, cls)] + [UnrefOp(lhs, cls)] == DisposeCode(lhs, target, true, cls);
    assert Unref(cs, m, a, cls, |m|) == Ok(m1);
    RunFirst(cs, UnrefOp(lhs, cls), [], regs, m1, fuel);
    assert [UnrefOp(lhs, cls)] + [] == [UnrefOp(lhs, cls)];
    LastUnref(cs, m1, a, cls, |m1|);
  }

  // Two members of an object own twice what they both hold
  lemma {:induction false} TwoMembers(cs: Classes, o: Object, i: nat, k: nat, from: nat)
    requires Shaped(cs, o) && from <= i < |o.fields| && from <= k < |o.fields| && i != k
    requires cs[o.cls][i].Ref? && cs[o.cls][k].Ref?
    ensures o.fields[i] in multiset(Owned(cs, o, from)) - multiset{o.fields[k]}
    decreases |o.fields| - from
  {
    OwnedStep(cs, o, from);
    if from == i {
      OwnedMember(cs, o, from + 1, k);
    } else if from == k {
      OwnedMember(cs, o, from + 1, i);
    } else {
      TwoMembers(cs, o, i, k, from + 1);
    }
  }

  // An open object holds its members, but for the one whose value it gave up
  lemma OpenCounted(cs: Classes, m: Memory, e: multiset<nat>, s: nat, k: nat, cls: nat, i: nat)
    requires HasMember(cs, m, s, k, cls) && Sane(cs, m) && i < |m[s].obj.fields| && i != k && cs[m[s].obj.cls][i].Ref?
    requires Balanced(cs, m, e + (multiset(Owned(cs, m[s].obj, 0)) - multiset{m[s].obj.fields[k]}), {s})
    ensures var v := m[s].obj.fields[i];
      IsLive(m, v) && m[v].obj.count > 0 && m[v].obj.cls == cs[m[s].obj.cls][i].cls
  {
    TwoMembers(cs, m[s].obj, i, k, 0);
    var all := e + (multiset(Owned(cs, m[s].obj, 0)) - multiset{m[s].obj.fields[k]});
    assert m[s].obj.fields[i] in all;
    hide Owned;
    assert Weak(cs, m, m[s].obj);
  }

  // Its old value is the only dead member
  lemma OpenSound(cs: Classes, m0: Memory, m: Memory, e: multiset<nat>, s: nat, k: nat, cls: nat)
    requires HasMember(cs, m, s, k, cls) && Sane(cs, m) && Kept(m0, m) && |m| == |m0|
    requires Balanced(cs, m, e + (multiset(Owned(cs, m[s].obj, 0)) - multiset{m[s].obj.fields[k]}), {s})
    requires m[s].obj.fields[k] < |m| && !IsLive(m, m[s].obj.fields[k])
    ensures Sound(cs, m0, m, At(s, k), Everything(m))
  {
    var all := e + (multiset(Owned(cs, m[s].obj, 0)) - multiset{m[s].obj.fields[k]});
    forall p | p in Everything(m)
      ensures SoundObject(cs, m0, m, At(s, k), Everything(m), p)
    {
      assert Shaped(cs, m[p].obj);
      forall i | 0 <= i < |m[p].obj.fields| && cs[m[p].obj.cls][i].Ref?
        ensures SoundField(m, Everything(m), m[p].obj.fields[i], cs[m[p].obj.cls][i], At(s, k) == At(p, i))
      {
        if p != s {
          MemberCounted(cs, m, all, {s}, p, i);
        } else if i != k {
          OpenCounted(cs, m, e, s, k, cls, i);
        }
      }
    }
  }

  lemma DyingCopy(cs: Classes, m: Memory, ext: multiset<nat>, regs: seq<nat>, lhs: nat, rhs: nat, self: nat, k: nat,
                  cls: nat, fuel: nat)
    requires Assignable(cs, m, ext, regs, lhs, rhs, Of(self, k), cls)
    requires Disposable(cs, m, ext, regs, lhs, rhs, Of(self, k), cls)
    requires lhs < |regs| && rhs < |regs| && self < |regs| && OldDies(m, regs, lhs, rhs)
    ensures OutcomeForetold(WalkObject(cs, m, At(regs[self], k), regs[rhs], fuel + 1),
                            Run(cs, AssignCode(DeepCopy, lhs, rhs, Of(self, k), true, cls), regs, m, fuel))
  {
    hide *;
    var target := Of(self, k);
    AssignableMeans(cs, m, ext, regs, lhs, rhs, target, cls);
    FirstRef(cs, m, ext, regs, lhs, rhs, target, true, cls, fuel);
    if AddRef(m, regs[rhs]).Ok? {
      var m1 := AddRef(m, regs[rhs]).mem;
      DisposeReady(cs, m, m1, ext, regs, lhs, rhs, target, true, cls);
      RemainingIs(m1, ext + multiset{regs[rhs]}, regs, lhs, target, true);
      var m2 := DisposeRuns(cs, m1, ext + multiset{regs[rhs]}, regs, lhs, target, true, cls, fuel);
      DisposeKeeps(cs, m1, regs, lhs, target, true, cls, fuel, m2);
      KeptTrans(m, m1, m2);
      CountedTwice(cs, m, m1, ext, regs, lhs, rhs, target, cls);
      DiesMeans(m, regs, lhs, rhs);
      DisposeFrees(cs, m1, regs, lhs, target, cls, fuel, m2);
      RunCat(cs, DisposeCode(lhs, target, true, cls), CloneCode(lhs, rhs, cls) + StoreCode(lhs, target), regs, m1,
             fuel);
      DyingReady(cs, m, m1, m2, ext, regs, lhs, rhs, self, k, cls);
      CopyWalks(cs, m, m2, At(regs[self], k), regs, lhs, rhs, target, cls, fuel);
    }
  }

  lemma DiesMeans(m: Memory, regs: seq<nat>, lhs: nat, rhs: nat)
    requires lhs < |regs| && rhs < |regs| && OldDies(m, regs, lhs, rhs)
    ensures regs[lhs] != regs[rhs] && regs[lhs] < |m| && m[regs[lhs]].Live? && m[regs[lhs]].obj.count == 2
  {
  }

  lemma DyingReady(cs: Classes, m: Memory, m1: Memory, m2: Memory, ext: multiset<nat>, regs: seq<nat>, lhs: nat,
                   rhs: nat, self: nat, k: nat, cls: nat)
    requires Assignable(cs, m, ext, regs, lhs, rhs, Of(self, k), cls)
    requires Disposable(cs, m, ext, regs, lhs, rhs, Of(self, k), cls)
    requires AddRef(m, regs[rhs]) == Ok(m1) && Kept(m, m2) && |m2| == |m| && !IsLive(m2, regs[lhs])
    requires var e := ext + multiset{regs[rhs]} - multiset{regs[lhs]};
      Disposed(cs, m2, e, regs, Of(self, k), cls)
      && forall q :: q in e ==> IsLive(m2, q) && IsLive(m1, q) && SameObject(m1[q].obj, m2[q].obj)
    requires self < |regs| && lhs < |regs|
    ensures Sound(cs, m, m2, At(regs[self], k), Everything(m2)) && |m2| > 0 && self != lhs
    ensures IsLive(m2, regs[rhs]) && regs[rhs] < |m2| && m2[regs[rhs]].Live?
    ensures m2[regs[rhs]].obj.cls == cls && m2[regs[rhs]].obj.count >= 2
    ensures HasMember(cs, m2, regs[self], k, cls)
  {
    var b, s := regs[rhs], regs[self];
    var e := ext + multiset{b} - multiset{regs[lhs]};
    assert e[b] >= 2;
    SourceCounted(cs, m2, e + (multiset(Owned(cs, m2[s].obj, 0)) - multiset{m2[s].obj.fields[k]}), {s}, b);
    hide Owners;
    hide Owned;
    OpenSound(cs, m, m2, e, s, k, cls);
  }

  // ---- a member, in all cases ----

  // Where the old value of the member is dead when the source is cloned
  function HoleOf(m: Memory, regs: seq<nat>, lhs: nat, rhs: nat, self: nat, k: nat, dispose: bool): Hole
    requires lhs < |regs| && rhs < |regs| && self < |regs|
  {
    if dispose && OldDies(m, regs, lhs, rhs) then At(regs[self], k) else Nowhere
  }

  // What a deep copy into a member does, whatever the memory and the depth
  lemma MemberCopyWalks(cs: Classes, m: Memory, ext: multiset<nat>, regs: seq<nat>, lhs: nat, rhs: nat, self: nat,
                        k: nat, dispose: bool, cls: nat, fuel: nat)
    requires Assignable(cs, m, ext, regs, lhs, rhs, Of(self, k), cls)
    requires dispose ==> Disposable(cs, m, ext, regs, lhs, rhs, Of(self, k), cls)
    ensures self < |regs| && lhs < |regs| && rhs < |regs|
    ensures OutcomeForetold(WalkObject(cs, m, HoleOf(m, regs, lhs, rhs, self, k, dispose), regs[rhs], fuel + 1),
                            Run(cs, AssignCode(DeepCopy, lhs, rhs, Of(self, k), dispose, cls), regs, m, fuel))
  {
    SelfIs(cs, m, ext, regs, lhs, rhs, self, k, cls);
    hide *;
    HoleIs(m, regs, lhs, rhs, self, k, dispose);
    if !dispose {
      UndisposedCopy(cs, m, ext, regs, lhs, rhs, Of(self, k), cls, fuel);
    } else if !OldDies(m, regs, lhs, rhs) {
      SurvivorCopy(cs, m, ext, regs, lhs, rhs, Of(self, k), cls, fuel);
    } else {
      DyingCopy(cs, m, ext, regs, lhs, rhs, self, k, cls, fuel);
    }
  }

  lemma HoleIs(m: Memory, regs: seq<nat>, lhs: nat, rhs: nat, self: nat, k: nat, dispose: bool)
    requires lhs < |regs| && rhs < |regs| && self < |regs|
    ensures HoleOf(m, regs, lhs, rhs, self, k, dispose)
         == if dispose && OldDies(m, regs, lhs, rhs) then At(regs[self], k) else Nowhere
  {
  }

  lemma SelfIs(cs: Classes, m: Memory, ext: multiset<nat>, regs: seq<nat>, lhs: nat, rhs: nat, self: nat, k: nat,
               cls: nat)
    requires Assignable(cs, m, ext, regs, lhs, rhs, Of(self, k), cls)
    ensures self < |regs| && lhs < |regs| && rhs < |regs|
    ensures IsLive(m, regs[rhs]) && HasMember(cs, m, regs[self], k, cls) && AllTyped(cs, m)
  {
    hide Owners;
  }

  // Beyond its limits, a deep copy into a member only fails on a dead object, when the old value of the member dies and
  // the clone of the source goes through the object of this member, as in 's.k = x' where 'x' has 's' for member. When
  // the clone of the source goes through no cycle, and with a depth of the size of the memory, it always fails then,
  // and succeeds otherwise.
  lemma MemberCopyIsExact(cs: Classes, m: Memory, ext: multiset<nat>, regs: seq<nat>, lhs: nat, rhs: nat, self: nat,
                          k: nat, dispose: bool, cls: nat, fuel: nat)
    requires Assignable(cs, m, ext, regs, lhs, rhs, Of(self, k), cls)
    requires dispose ==> Disposable(cs, m, ext, regs, lhs, rhs, Of(self, k), cls)
    ensures self < |regs|
    ensures var o := Run(cs, AssignCode(DeepCopy, lhs, rhs, Of(self, k), dispose, cls), regs, m, fuel);
      var dies := dispose && OldDies(m, regs, lhs, rhs) && Reaches(cs, m, regs[rhs], regs[self]);
      && (o.Fault? && !Limit(o.fault) ==> dies && o.fault == UnknownPointer)
      && (o.Done? ==> !dies && Finite(cs, m, regs[rhs]))
      && (Finite(cs, m, regs[rhs]) && fuel >= |m| && o != Outcome.Fault(TooMany) ==>
            if dies then o == Outcome.Fault(UnknownPointer) else o.Done?)
  {
    hide *;
    MemberCopyWalks(cs, m, ext, regs, lhs, rhs, self, k, dispose, cls, fuel);
    SelfIs(cs, m, ext, regs, lhs, rhs, self, k, cls);
    var b, s := regs[rhs], regs[self];
    var hole := HoleOf(m, regs, lhs, rhs, self, k, dispose);
    HoleIs(m, regs, lhs, rhs, self, k, dispose);
    ForetoldMeans(WalkObject(cs, m, hole, b, fuel + 1),
                  Run(cs, AssignCode(DeepCopy, lhs, rhs, Of(self, k), dispose, cls), regs, m, fuel));
    MemberMeans(cs, m, s, k, cls);
    WalkDecides(cs, m, hole, s, k, b, fuel + 1);
  }

  lemma WalkDecides(cs: Classes, m: Memory, hole: Hole, s: nat, k: nat, b: nat, fuel: nat)
    requires AllTyped(cs, m) && IsLive(m, b) && (hole == At(s, k) || hole == Nowhere)
    requires IsLive(m, s) && Shaped(cs, m[s].obj) && k < |m[s].obj.fields| && cs[m[s].obj.cls][k].Ref?
    ensures var w := WalkObject(cs, m, hole, b, fuel);
      && (w.Dead? ==> hole == At(s, k) && Reaches(cs, m, b, s))
      && (hole == At(s, k) && Reaches(cs, m, b, s) ==> !w.Over?)
      && (w.Over? ==> Finite(cs, m, b))
      && (Finite(cs, m, b) && fuel >= |m| ==> !w.Deep?)
  {
    WalkIsFinite(cs, m, hole, b, fuel);
    hide Finite;
    if hole == Nowhere {
      NothingDead(cs, m, b, fuel);
    } else {
      if WalkObject(cs, m, hole, b, fuel).Dead? {
        DeadReaches(cs, m, s, k, b, fuel);
      }
      if Reaches(cs, m, b, s) {
        var n: nat :| ReachesIn(cs, m, b, s, n);
        ReachesDead(cs, m, s, k, b, n, fuel);
      }
    }
  }

  lemma ForetoldMeans(w: Walk, o: Outcome)
    requires OutcomeForetold(w, o)
    ensures o != Outcome.Fault(TooMany) ==>
      match w
      case Over => o.Done?
      case Dead => o == Outcome.Fault(UnknownPointer)
      case Deep => o == Outcome.Fault(TooDeep)
    ensures o.Fault? && !Limit(o.fault) ==> w.Dead? && o.fault == UnknownPointer
    ensures o.Done? ==> w.Over?
  {
  }

  lemma MemberMeans(cs: Classes, m: Memory, s: nat, k: nat, cls: nat)
    requires HasMember(cs, m, s, k, cls)
    ensures IsLive(m, s) && Shaped(cs, m[s].obj) && k < |m[s].obj.fields|
    ensures m[s].obj.cls < |cs| && |cs[m[s].obj.cls]| == |m[s].obj.fields|
    ensures cs[m[s].obj.cls][k].Ref? && cs[m[s].obj.cls][k].cls == cls
  {
  }

  // When the member is cloned with its object, the clone of such a source never ends, even if nothing is released: only
  // a member which is shared has a copy that the release makes fail
  lemma OwnMemberNeverEnds(cs: Classes, m: Memory, ext: multiset<nat>, regs: seq<nat>, lhs: nat, rhs: nat, self: nat,
                           k: nat, cls: nat, fuel: nat)
    requires Assignable(cs, m, ext, regs, lhs, rhs, Of(self, k), cls)
    requires Reaches(cs, m, regs[rhs], regs[self]) && !cs[m[regs[self]].obj.cls][k].shared
    ensures var o := Run(cs, AssignCode(DeepCopy, lhs, rhs, Of(self, k), false, cls), regs, m, fuel);
      o == Outcome.Fault(TooDeep) || o == Outcome.Fault(TooMany)
  {
    var b, s := regs[rhs], regs[self];
    SourceIs(cs, m, ext, regs, lhs, rhs, self, k, cls);
    var n: nat :| ReachesIn(cs, m, b, s, n);
    hide *;
    MemberCopyWalks(cs, m, ext, regs, lhs, rhs, self, k, false, cls, fuel);
    HoleIs(m, regs, lhs, rhs, self, k, false);
    ReachesLeads(cs, m, b, s, n);
    MemberMeans(cs, m, s, k, cls);
    ContainsIs(cs, m[s].obj.cls, k);
    ContainsItself(cs, m, b, m[s].obj.cls, k, n, fuel + 1);
    NothingDead(cs, m, b, fuel + 1);
    ForetoldMeans(WalkObject(cs, m, Nowhere, b, fuel + 1),
                  Run(cs, AssignCode(DeepCopy, lhs, rhs, Of(self, k), false, cls), regs, m, fuel));
  }

  lemma SourceIs(cs: Classes, m: Memory, ext: multiset<nat>, regs: seq<nat>, lhs: nat, rhs: nat, self: nat, k: nat,
                 cls: nat)
    requires Assignable(cs, m, ext, regs, lhs, rhs, Of(self, k), cls)
    ensures self < |regs| && lhs < |regs| && rhs < |regs|
    ensures IsLive(m, regs[rhs]) && m[regs[rhs]].obj.cls == cls && HasMember(cs, m, regs[self], k, cls)
    ensures AllTyped(cs, m)
  {
    hide Owners;
  }

  lemma ContainsIs(cs: Classes, c: nat, k: nat)
    requires c < |cs| && k < |cs[c]| && cs[c][k].Ref? && !cs[c][k].shared
    ensures Contains(cs, c, k)
  {
  }

  // ---- two memories ----

  // 'x.k = x', where the old value of 'x.k' has no other owner than 'x' and the register which holds it. The member has
  // the class of its object. Such objects come from the initial value of the member: the result of a function which
  // returns its argument is assigned by reference, 'self' to begin with, while a default value would be made for ever.
  const ONE_CLASS: Classes := [[Ref(0, false)]]
  const TWO_OBJECTS: Memory := [Free, Live(Object(0, 3, [2])), Live(Object(0, 2, [1]))]

  // The copy reads the old value. Nothing else could happen: without the release, it never ends.
  lemma CopyIntoItself(fuel: nat)
    ensures Assignable(ONE_CLASS, TWO_OBJECTS, multiset{2, 1, 1}, [2, 1, 1], 0, 1, Of(2, 0), 0)
    ensures Disposable(ONE_CLASS, TWO_OBJECTS, multiset{2, 1, 1}, [2, 1, 1], 0, 1, Of(2, 0), 0)
    ensures OldDies(TWO_OBJECTS, [2, 1, 1], 0, 1) && Reaches(ONE_CLASS, TWO_OBJECTS, 1, 1)
    ensures Run(ONE_CLASS, AssignCode(DeepCopy, 0, 1, Of(2, 0), true, 0), [2, 1, 1], TWO_OBJECTS, fuel)
         == Outcome.Fault(UnknownPointer)
    ensures var o := Run(ONE_CLASS, AssignCode(DeepCopy, 0, 1, Of(2, 0), false, 0), [2, 1, 1], TWO_OBJECTS, fuel);
      o == Outcome.Fault(TooDeep) || o == Outcome.Fault(TooMany)
  {
    TwoBalanced();
    ReachesSelf(ONE_CLASS, TWO_OBJECTS, 1);
    assert multiset{2, 1} <= multiset{2, 1, 1};
    hide Balanced;
    hide Run;
    OwnMemberNeverEnds(ONE_CLASS, TWO_OBJECTS, multiset{2, 1, 1}, [2, 1, 1], 0, 1, 2, 0, 0, fuel);
    IntoItselfRuns(fuel);
  }

  lemma IntoItselfRuns(fuel: nat)
    ensures Run(ONE_CLASS, AssignCode(DeepCopy, 0, 1, Of(2, 0), true, 0), [2, 1, 1], TWO_OBJECTS, fuel)
         == Outcome.Fault(UnknownPointer)
  {
    var cs, regs := ONE_CLASS, [2, 1, 1];
    var m1: Memory := [Free, Live(Object(0, 4, [2])), Live(Object(0, 2, [1]))];
    var m2: Memory := [Free, Live(Object(0, 3, [2])), Free];
    assert AddRef(TWO_OBJECTS, 1) == Ok(m1);
    IntoItselfDisposed(fuel);
    var rest := CloneCode(0, 1, 0) + StoreCode(0, Of(2, 0));
    DeepCodeIs(0, 1, Of(2, 0), true, 0);
    RunFirst(cs, RefOp(1), DisposeCode(0, Of(2, 0), true, 0) + rest, regs, TWO_OBJECTS, fuel);
    RunCat(cs, DisposeCode(0, Of(2, 0), true, 0), rest, regs, m1, fuel);
    RunCat(cs, CloneCode(0, 1, 0), StoreCode(0, Of(2, 0)), regs, m2, fuel);
    CloneRuns(cs, 0, 1, 0, regs, m2, fuel);
    var m3 := AddRef(Allocate(cs, m2, 0), 3).mem;
    assert m3[1] == m2[1] && m3[2] == Free;
    assert CloneMembers(cs, m3, 3, 1, 0, 0, fuel) == Failed(UnknownPointer);
  }

  lemma IntoItselfDisposed(fuel: nat)
    ensures Run(ONE_CLASS, DisposeCode(0, Of(2, 0), true, 0), [2, 1, 1],
                [Free, Live(Object(0, 4, [2])), Live(Object(0, 2, [1]))], fuel)
         == Done([2, 1, 1], [Free, Live(Object(0, 3, [2])), Free])
  {
    var cs, regs := ONE_CLASS, [2, 1, 1];
    var m: Memory := [Free, Live(Object(0, 4, [2])), Live(Object(0, 2, [1]))];
    var m1: Memory := [Free, Live(Object(0, 4, [2])), Live(Object(0, 1, [1]))];
    var m2: Memory := [Free, Live(Object(0, 4, [2])), Live(Object(0, 0, [1]))];
    var m3: Memory := [Free, Live(Object(0, 3, [2])), Live(Object(0, 0, [1]))];
    assert [UnrefOp(0, 0)] + [UnrefOp(0, 0)] == DisposeCode(0, Of(2, 0), true, 0);
    assert [UnrefOp(0, 0)] + [] == [UnrefOp(0, 0)];
    RunFirst(cs, UnrefOp(0, 0), [UnrefOp(0, 0)], regs, m, fuel);
    RunFirst(cs, UnrefOp(0, 0), [], regs, m1, fuel);
    assert WithCount(m, 2, 1) == m1 && WithCount(m1, 2, 0) == m2 && WithCount(m2, 1, 3) == m3;
    assert Unref(cs, m, 2, 0, 3) == Ok(m1);
    assert Unref(cs, m2, 1, 0, 2) == Ok(m3);
    assert ReleaseMembers(cs, m3, 2, 0, 1, 2) == Ok(m3);
    assert ReleaseMembers(cs, m2, 2, 0, 0, 2) == Ok(m3);
    assert m3[2 := Free] == [Free, Live(Object(0, 3, [2])), Free];
    assert Destroy(cs, m2, 2, 0, 2) == Ok([Free, Live(Object(0, 3, [2])), Free]);
    assert Unref(cs, m1, 2, 0, 3) == Ok([Free, Live(Object(0, 3, [2])), Free]);
  }

  lemma TwoOwners(p: nat)
    ensures Owners(ONE_CLASS, TWO_OBJECTS, {}, p, 3) == if p == 1 || p == 2 then 1 else 0
  {
    var cs, m := ONE_CLASS, TWO_OBJECTS;
    assert Heap.Owned(cs, m[1].obj, 1) == [] && Heap.Owned(cs, m[1].obj, 0) == [2] + [];
    assert Heap.Owned(cs, m[2].obj, 1) == [] && Heap.Owned(cs, m[2].obj, 0) == [1] + [];
    assert Owns(cs, m, {}, 0, p) == 0;
    assert Owns(cs, m, {}, 1, p) == if p == 2 then 1 else 0;
    assert Owns(cs, m, {}, 2, p) == if p == 1 then 1 else 0;
    hide Owns;
    assert Owners(cs, m, {}, p, 1) == 0;
    assert Owners(cs, m, {}, p, 2) == Owns(cs, m, {}, 1, p);
  }

  lemma TwoBalanced()
    ensures Balanced(ONE_CLASS, TWO_OBJECTS, multiset{2, 1, 1}, {})
  {
    TwoOwners(1);
    TwoOwners(2);
    hide Owners;
    assert multiset{2, 1, 1}[1] == 2 && multiset{2, 1, 1}[2] == 1;
  }

  // 's.k = x', where 'x' has 's' for member, and the member 'k' is shared
  const TWO_CLASSES: Classes := [[Ref(1, false)], [Ref(0, true)]]
  const THREE_OBJECTS: Memory := [Free, Live(Object(1, 3, [3])), Live(Object(0, 1, [1])), Live(Object(0, 2, [1]))]

  // The same code, with or without the release: it reads a dead object, or it makes the copy
  lemma SharedMemberDies(fuel: nat)
    requires fuel > 0
    ensures Assignable(TWO_CLASSES, THREE_OBJECTS, multiset{3, 2, 1}, [3, 2, 1], 0, 1, Of(2, 0), 0)
    ensures Disposable(TWO_CLASSES, THREE_OBJECTS, multiset{3, 2, 1}, [3, 2, 1], 0, 1, Of(2, 0), 0)
    ensures Run(TWO_CLASSES, AssignCode(DeepCopy, 0, 1, Of(2, 0), true, 0), [3, 2, 1], THREE_OBJECTS, fuel)
         == Outcome.Fault(UnknownPointer)
    ensures Run(TWO_CLASSES, AssignCode(DeepCopy, 0, 1, Of(2, 0), false, 0), [3, 2, 1], THREE_OBJECTS, fuel).Done?
  {
    ThreeBalanced();
    assert multiset{3, 2} <= multiset{3, 2, 1} && multiset{3, 1} <= multiset{3, 2, 1};
    hide Balanced;
    hide Run;
    SharedDies(fuel);
    SharedLives(fuel);
  }

  lemma SharedDies(fuel: nat)
    requires fuel > 0
    ensures Run(TWO_CLASSES, AssignCode(DeepCopy, 0, 1, Of(2, 0), true, 0), [3, 2, 1], THREE_OBJECTS, fuel)
         == Outcome.Fault(UnknownPointer)
  {
    var cs, regs := TWO_CLASSES, [3, 2, 1];
    var m1: Memory := [Free, Live(Object(1, 3, [3])), Live(Object(0, 2, [1])), Live(Object(0, 2, [1]))];
    var m2: Memory := [Free, Live(Object(1, 2, [3])), Live(Object(0, 2, [1])), Free];
    assert AddRef(THREE_OBJECTS, 2) == Ok(m1);
    SharedDisposed(fuel);
    var rest := CloneCode(0, 1, 0) + StoreCode(0, Of(2, 0));
    DeepCodeIs(0, 1, Of(2, 0), true, 0);
    RunFirst(cs, RefOp(1), DisposeCode(0, Of(2, 0), true, 0) + rest, regs, THREE_OBJECTS, fuel);
    RunCat(cs, DisposeCode(0, Of(2, 0), true, 0), rest, regs, m1, fuel);
    RunCat(cs, CloneCode(0, 1, 0), StoreCode(0, Of(2, 0)), regs, m2, fuel);
    CloneRuns(cs, 0, 1, 0, regs, m2, fuel);
    SharedDead(fuel);
  }

  lemma SharedDisposed(fuel: nat)
    ensures Run(TWO_CLASSES, DisposeCode(0, Of(2, 0), true, 0), [3, 2, 1],
                [Free, Live(Object(1, 3, [3])), Live(Object(0, 2, [1])), Live(Object(0, 2, [1]))], fuel)
         == Done([3, 2, 1], [Free, Live(Object(1, 2, [3])), Live(Object(0, 2, [1])), Free])
  {
    var cs, regs := TWO_CLASSES, [3, 2, 1];
    var m: Memory := [Free, Live(Object(1, 3, [3])), Live(Object(0, 2, [1])), Live(Object(0, 2, [1]))];
    var m1: Memory := [Free, Live(Object(1, 3, [3])), Live(Object(0, 2, [1])), Live(Object(0, 1, [1]))];
    var m2: Memory := [Free, Live(Object(1, 3, [3])), Live(Object(0, 2, [1])), Live(Object(0, 0, [1]))];
    var m3: Memory := [Free, Live(Object(1, 2, [3])), Live(Object(0, 2, [1])), Live(Object(0, 0, [1]))];
    var m4: Memory := [Free, Live(Object(1, 2, [3])), Live(Object(0, 2, [1])), Free];
    assert [UnrefOp(0, 0)] + [UnrefOp(0, 0)] == DisposeCode(0, Of(2, 0), true, 0);
    assert [UnrefOp(0, 0)] + [] == [UnrefOp(0, 0)];
    RunFirst(cs, UnrefOp(0, 0), [UnrefOp(0, 0)], regs, m, fuel);
    RunFirst(cs, UnrefOp(0, 0), [], regs, m1, fuel);
    assert WithCount(m, 3, 1) == m1 && WithCount(m1, 3, 0) == m2 && WithCount(m2, 1, 2) == m3;
    assert Unref(cs, m, 3, 0, 4) == Ok(m1);
    assert Unref(cs, m2, 1, 1, 3) == Ok(m3);
    assert ReleaseMembers(cs, m3, 3, 0, 1, 3) == Ok(m3);
    assert ReleaseMembers(cs, m2, 3, 0, 0, 3) == Ok(m3);
    assert m3[3 := Free] == m4;
    assert Destroy(cs, m2, 3, 0, 3) == Ok(m4);
    assert Unref(cs, m1, 3, 0, 4) == Ok(m4);
  }

  lemma OneMore(m: Memory, cls: nat)
    requires cls < 2 && |m| > 0
    ensures AddRef(Allocate(TWO_CLASSES, m, cls), |m|) == Ok(m + [Live(Object(cls, 1, [0]))])
  {
    var more := Allocate(TWO_CLASSES, m, cls);
    assert seq(1, _ => 0) == [0];
    assert more == m + [Live(Object(cls, 0, [0]))];
    assert more[|m| := Live(Object(cls, 1, [0]))] == m + [Live(Object(cls, 1, [0]))];
  }

  // The clone of the first object goes to the second one, whose shared member is dead
  lemma SharedDead(fuel: nat)
    requires fuel > 0
    ensures CloneDeep(TWO_CLASSES, [Free, Live(Object(1, 2, [3])), Live(Object(0, 2, [1])), Free], 2, 0, fuel + 1)
         == Lost(UnknownPointer)
  {
    var cs := TWO_CLASSES;
    var m: Memory := [Free, Live(Object(1, 2, [3])), Live(Object(0, 2, [1])), Free];
    var m1: Memory := [Free, Live(Object(1, 2, [3])), Live(Object(0, 2, [1])), Free, Live(Object(0, 1, [0]))];
    var m2: Memory := [Free, Live(Object(1, 3, [3])), Live(Object(0, 2, [1])), Free, Live(Object(0, 1, [0]))];
    var m3 := m2 + [Live(Object(1, 1, [0]))];
    OneMore(m, 0);
    assert m + [Live(Object(0, 1, [0]))] == m1;
    assert AddRef(m1, 1) == Ok(m2);
    OneMore(m2, 1);
    assert CloneMember(cs, m3, 3, cs[1][0], fuel - 1) == Lost(UnknownPointer);
    assert CloneMembers(cs, m3, 5, 1, 1, 0, fuel - 1) == Failed(UnknownPointer);
    assert CloneDeep(cs, m2, 1, 1, fuel) == Lost(UnknownPointer);
    assert CloneMembers(cs, m1, 4, 2, 0, 0, fuel) == Failed(UnknownPointer);
  }

  // Nothing is released before the clone, and each step succeeds
  lemma UndisposedRuns(cs: Classes, m: Memory, regs: seq<nat>, lhs: nat, rhs: nat, self: nat, k: nat, cls: nat,
                       fuel: nat, m1: Memory, v: nat, m2: Memory, m3: Memory)
    requires lhs < |regs| && rhs < |regs| && self < |regs| && lhs != rhs && lhs != self && cls < |cs|
    requires AddRef(m, regs[rhs]) == Ok(m1) && CloneDeep(cs, m1, regs[rhs], cls, fuel + 1) == Got(v, m2)
    requires AddRef(m2, v) == Ok(m3) && SetField(m3, regs[self], k, v).Ok?
    ensures Run(cs, AssignCode(DeepCopy, lhs, rhs, Of(self, k), false, cls), regs, m, fuel).Done?
  {
    hide *;
    var target := Of(self, k);
    var rest := CloneCode(lhs, rhs, cls) + StoreCode(lhs, target);
    DeepCodeIs(lhs, rhs, target, false, cls);
    NothingDisposed(lhs, target, cls, rest);
    RunFirst(cs, RefOp(rhs), rest, regs, m, fuel);
    RefRuns(cs, rhs, regs, m, fuel);
    RunCat(cs, CloneCode(lhs, rhs, cls), StoreCode(lhs, target), regs, m1, fuel);
    CloneRuns(cs, lhs, rhs, cls, regs, m1, fuel);
    StoreCode2(cs, m2, regs[lhs := v], lhs, target, fuel);
  }

  lemma SharedLives(fuel: nat)
    requires fuel > 0
    ensures Run(TWO_CLASSES, AssignCode(DeepCopy, 0, 1, Of(2, 0), false, 0), [3, 2, 1], THREE_OBJECTS, fuel).Done?
  {
    var m1: Memory := [Free, Live(Object(1, 3, [3])), Live(Object(0, 2, [1])), Live(Object(0, 2, [1]))];
    var m2: Memory := [Free, Live(Object(1, 3, [3])), Live(Object(0, 1, [1])), Live(Object(0, 3, [1])),
                       Live(Object(0, 1, [5])), Live(Object(1, 1, [3]))];
    assert AddRef(THREE_OBJECTS, 2) == Ok(m1);
    SharedClone(fuel);
    hide Run;
    hide CloneDeep;
    UndisposedRuns(TWO_CLASSES, THREE_OBJECTS, [3, 2, 1], 0, 1, 2, 0, 0, fuel, m1, 4, m2, AddRef(m2, 4).mem);
  }

  lemma SharedClone(fuel: nat)
    requires fuel > 0
    ensures CloneDeep(TWO_CLASSES, [Free, Live(Object(1, 3, [3])), Live(Object(0, 2, [1])), Live(Object(0, 2, [1]))],
                      2, 0,
                      fuel + 1)
         == Got(4, [Free, Live(Object(1, 3, [3])), Live(Object(0, 1, [1])), Live(Object(0, 3, [1])),
                    Live(Object(0, 1, [5])), Live(Object(1, 1, [3]))])
  {
    var cs := TWO_CLASSES;
    var m: Memory := [Free, Live(Object(1, 3, [3])), Live(Object(0, 2, [1])), Live(Object(0, 2, [1]))];
    var m1 := m + [Live(Object(0, 1, [0]))];
    var m2: Memory := [Free, Live(Object(1, 4, [3])), Live(Object(0, 2, [1])), Live(Object(0, 2, [1])),
                       Live(Object(0, 1, [0]))];
    var m3: Memory := [Free, Live(Object(1, 3, [3])), Live(Object(0, 2, [1])), Live(Object(0, 3, [1])),
                       Live(Object(0, 1, [0])), Live(Object(1, 1, [3]))];
    var m4: Memory := [Free, Live(Object(1, 3, [3])), Live(Object(0, 2, [1])), Live(Object(0, 3, [1])),
                       Live(Object(0, 1, [5])), Live(Object(1, 1, [3]))];
    var m5: Memory := [Free, Live(Object(1, 3, [3])), Live(Object(0, 1, [1])), Live(Object(0, 3, [1])),
                       Live(Object(0, 1, [5])), Live(Object(1, 1, [3]))];
    OneMore(m, 0);
    assert AddRef(m1, 1) == Ok(m2);
    SharedInner(fuel);
    assert [0][0 := 5] == [5];
    assert SetField(m3, 4, 0, 5) == Ok(m4);
    assert CloneMember(cs, m1, 1, cs[0][0], fuel) == Got(5, m3);
    assert CloneMembers(cs, m4, 4, 2, 0, 1, fuel) == Ok(m4);
    assert CloneMembers(cs, m1, 4, 2, 0, 0, fuel) == Ok(m4);
    assert WithCount(m4, 2, 1) == m5;
    assert Unref(cs, m4, 2, 0, 6) == Ok(m5);
  }

  lemma SharedInner(fuel: nat)
    requires fuel > 0
    ensures CloneDeep(TWO_CLASSES, [Free, Live(Object(1, 4, [3])), Live(Object(0, 2, [1])), Live(Object(0, 2, [1])),
                                    Live(Object(0, 1, [0]))], 1, 1, fuel)
         == Got(5, [Free, Live(Object(1, 3, [3])), Live(Object(0, 2, [1])), Live(Object(0, 3, [1])),
                    Live(Object(0, 1, [0])), Live(Object(1, 1, [3]))])
  {
    var cs := TWO_CLASSES;
    var m: Memory := [Free, Live(Object(1, 4, [3])), Live(Object(0, 2, [1])), Live(Object(0, 2, [1])),
                      Live(Object(0, 1, [0]))];
    var m1 := m + [Live(Object(1, 1, [0]))];
    var m2: Memory := [Free, Live(Object(1, 4, [3])), Live(Object(0, 2, [1])), Live(Object(0, 3, [1])),
                       Live(Object(0, 1, [0])), Live(Object(1, 1, [0]))];
    var m3: Memory := [Free, Live(Object(1, 4, [3])), Live(Object(0, 2, [1])), Live(Object(0, 3, [1])),
                       Live(Object(0, 1, [0])), Live(Object(1, 1, [3]))];
    OneMore(m, 1);
    assert AddRef(m1, 3) == Ok(m2);
    assert [0][0 := 3] == [3];
    assert SetField(m2, 5, 0, 3) == Ok(m3);
    assert CloneMember(cs, m1, 3, cs[1][0], fuel - 1) == Got(3, m2);
    assert CloneMembers(cs, m3, 5, 1, 1, 1, fuel - 1) == Ok(m3);
    assert CloneMembers(cs, m1, 5, 1, 1, 0, fuel - 1) == Ok(m3);
    assert Unref(cs, m3, 1, 1, 6) == Ok(WithCount(m3, 1, 3));
  }

  lemma ThreeOwners(p: nat)
    ensures Owners(TWO_CLASSES, THREE_OBJECTS, {}, p, 4) == if p == 1 then 2 else if p == 3 then 1 else 0
  {
    var cs, m := TWO_CLASSES, THREE_OBJECTS;
    assert Heap.Owned(cs, m[1].obj, 1) == [] && Heap.Owned(cs, m[1].obj, 0) == [3] + [];
    assert Heap.Owned(cs, m[2].obj, 1) == [] && Heap.Owned(cs, m[2].obj, 0) == [1] + [];
    assert Heap.Owned(cs, m[3].obj, 1) == [] && Heap.Owned(cs, m[3].obj, 0) == [1] + [];
    assert Owns(cs, m, {}, 0, p) == 0;
    assert Owns(cs, m, {}, 1, p) == if p == 3 then 1 else 0;
    assert Owns(cs, m, {}, 2, p) == if p == 1 then 1 else 0;
    assert Owns(cs, m, {}, 3, p) == if p == 1 then 1 else 0;
    hide Owns;
    assert Owners(cs, m, {}, p, 1) == 0;
    assert Owners(cs, m, {}, p, 2) == Owns(cs, m, {}, 1, p);
    assert Owners(cs, m, {}, p, 3) == Owns(cs, m, {}, 1, p) + Owns(cs, m, {}, 2, p);
  }

  lemma ThreeTyped(p: nat)
    ensures p == 1 || p == 2 || p == 3 ==> Typed(TWO_CLASSES, THREE_OBJECTS, THREE_OBJECTS[p].obj)
  {
  }

  lemma ThreeBalanced()
    ensures Balanced(TWO_CLASSES, THREE_OBJECTS, multiset{3, 2, 1}, {})
  {
    ThreeOwners(1);
    ThreeOwners(2);
    ThreeOwners(3);
    ThreeTyped(1);
    ThreeTyped(2);
    ThreeTyped(3);
    hide Owners;
    hide Typed;
    assert multiset{3, 2, 1}[1] == 1 && multiset{3, 2, 1}[2] == 1 && multiset{3, 2, 1}[3] == 1;
  }
}
