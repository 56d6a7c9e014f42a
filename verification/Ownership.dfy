// Running the code of an assignment keeps the law of ownership: every count is the number of owners.
module Ownership {
  import opened Isa
  import opened Heap
  import opened Cascade
  import opened Assignment

  lemma RunFirst(cs: Classes, op: Op, rest: seq<Op>, regs: seq<nat>, m: Memory, fuel: nat)
    ensures var o := RunOp(cs, op, regs, m, fuel);
      Run(cs, [op] + rest, regs, m, fuel) == if o.Fault? then o else Run(cs, rest, o.regs, o.mem, fuel)
    ensures Run(cs, [], regs, m, fuel) == Done(regs, m)
  {
    assert ([op] + rest)[1..] == rest;
  }

  lemma BalancedIsSane(cs: Classes, m: Memory, ext: multiset<nat>)
    requires Balanced(cs, m, ext, {})
    ensures Sane(cs, m)
  {
    forall p | 0 <= p < |m| && m[p].Live?
      ensures p > 0 && Shaped(cs, m[p].obj) && Weak(cs, m, m[p].obj)
    {
      assert Typed(cs, m, m[p].obj);
    }
  }

  // The member 'k' of the object 's' is of class 'cls'
  ghost predicate HasMember(cs: Classes, m: Memory, s: nat, k: nat, cls: nat) {
    && IsLive(m, s) && Shaped(cs, m[s].obj) && k < |m[s].obj.fields|
    && cs[m[s].obj.cls][k].Ref? && cs[m[s].obj.cls][k].cls == cls
  }

  // The old value was released. A member target is open: it still names a value which it does not own any more.
  ghost predicate Disposed(cs: Classes, m: Memory, e: multiset<nat>, regs: seq<nat>, target: Target, cls: nat) {
    && Sane(cs, m) && |m| > 0
    && if target.Plain? then Balanced(cs, m, e, {})
       else
         target.self < |regs|
         && var s := regs[target.self];
            && s in e && HasMember(cs, m, s, target.field, cls)
            && Balanced(cs, m, e + (multiset(Owned(cs, m[s].obj, 0)) - multiset{m[s].obj.fields[target.field]}), {s})
  }

  // What the assignment requires from the registers
  ghost predicate Assignable(cs: Classes, m: Memory, ext: multiset<nat>, regs: seq<nat>, lhs: nat, rhs: nat,
                             target: Target, cls: nat)
  {
    && Balanced(cs, m, ext, {}) && lhs < |regs| && rhs < |regs| && lhs != rhs && cls < |cs|
    && regs[rhs] in ext && m[regs[rhs]].obj.cls == cls
    && (target.Of? ==> target.self < |regs| && target.self != lhs && regs[target.self] in ext
                       && HasMember(cs, m, regs[target.self], target.field, cls))
  }

  // The register 'lhs' holds its value, which is the one of the member if any; nothing is counted twice
  ghost predicate Disposable(cs: Classes, m: Memory, ext: multiset<nat>, regs: seq<nat>, lhs: nat, rhs: nat,
                             target: Target, cls: nat)
    requires Assignable(cs, m, ext, regs, lhs, rhs, target, cls)
  {
    && multiset{regs[lhs], regs[rhs]} <= ext && m[regs[lhs]].obj.cls == cls
    && (target.Of? ==> multiset{regs[lhs], regs[target.self]} <= ext
                       && m[regs[target.self]].obj.fields[target.field] == regs[lhs])
  }

  // The member holds the same value as the register
  ghost predicate MemberReady(cs: Classes, m: Memory, e: multiset<nat>, regs: seq<nat>, lhs: nat, target: Target,
                              cls: nat)
    requires target.Of? && lhs < |regs|
  {
    && target.self < |regs| && multiset{regs[lhs], regs[target.self]} <= e
    && HasMember(cs, m, regs[target.self], target.field, cls)
    && m[regs[target.self]].obj.fields[target.field] == regs[lhs]
  }

  // The reference of a member on its old value, when nobody releases it: from now on, it is owned by no one
  function Abandoned(m: Memory, regs: seq<nat>, target: Target, dispose: bool): multiset<nat> {
    if dispose || target.Plain? || target.self >= |regs| || !IsLive(m, regs[target.self])
       || target.field >= |m[regs[target.self]].obj.fields| then multiset{}
    else multiset{m[regs[target.self]].obj.fields[target.field]}
  }

  // The references which are left once the old value was released, or abandoned
  function Remaining(m: Memory, ext: multiset<nat>, regs: seq<nat>, lhs: nat, target: Target,
                     dispose: bool): multiset<nat>
    requires lhs < |regs|
  {
    (if dispose then ext - multiset{regs[lhs]} else ext) + Abandoned(m, regs, target, dispose)
  }

  // The member has a value of its class
  ghost predicate OwnedTarget(cs: Classes, m: Memory, e: multiset<nat>, regs: seq<nat>, target: Target, cls: nat)
    requires target.Of?
  {
    target.self < |regs| && regs[target.self] in e && HasMember(cs, m, regs[target.self], target.field, cls)
  }

  predicate SameObject(o: Object, o': Object) { o'.cls == o.cls && o'.fields == o.fields }

  // ---- the old value is released ----

  // One release of 'a', with the objects in 'z' open
  lemma ReleaseOnce(cs: Classes, m: Memory, e: multiset<nat>, z: set<nat>, a: nat, cls: nat)
    requires Balanced(cs, m, e, z) && Sane(cs, m) && a in e && HeldBy(e - multiset{a}, z)
    requires IsLive(m, a) && m[a].obj.cls == cls
    ensures Unref(cs, m, a, cls, |m|).Ok?
    ensures var m' := Unref(cs, m, a, cls, |m|).mem;
      Balanced(cs, m', e - multiset{a}, z) && Evolved(m, m') && Sane(cs, m')
  {
    assert Held(m, e - multiset{a}, z);
    UnrefReleases(cs, m, e, z, a, |m|, {});
    EvolvedSane(cs, m, Unref(cs, m, a, cls, |m|).mem);
  }

  lemma MemberIsOwned(cs: Classes, m: Memory, s: nat, k: nat, cls: nat)
    requires HasMember(cs, m, s, k, cls)
    ensures m[s].obj.fields[k] in multiset(Owned(cs, m[s].obj, 0))
  {
    OwnedMember(cs, m[s].obj, 0, k);
  }

  // A member is released by its register, then by its object
  lemma ReleaseMember(cs: Classes, m: Memory, e: multiset<nat>, s: nat, k: nat, a: nat, cls: nat) returns (m2: Memory)
    requires Balanced(cs, m, e, {}) && HasMember(cs, m, s, k, cls) && m[s].obj.fields[k] == a
    requires multiset{a, s} <= e && m[a].obj.cls == cls
    ensures Unref(cs, m, a, cls, |m|).Ok?
    ensures var m1 := Unref(cs, m, a, cls, |m|).mem;
      Unref(cs, m1, a, cls, |m1|) == Ok(m2)
    ensures Sane(cs, m2) && |m2| == |m| && HasMember(cs, m2, s, k, cls) && s in e - multiset{a}
    ensures Balanced(cs, m2, e - multiset{a}
                             + (multiset(Owned(cs, m2[s].obj, 0)) - multiset{m2[s].obj.fields[k]}), {s})
    ensures forall q :: q in e - multiset{a} ==> IsLive(m2, q) && IsLive(m, q) && SameObject(m[q].obj, m2[q].obj)
  {
    BalancedIsSane(cs, m, e);
    assert s in e - multiset{a};
    ReleaseOnce(cs, m, e, {}, a, cls);
    var m1 := Unref(cs, m, a, cls, |m|).mem;
    OpenMember(cs, m, m1, e - multiset{a}, s, k, a, cls);
    var own := multiset(Owned(cs, m1[s].obj, 0));
    hide Unref;
    ReleaseOnce(cs, m1, e - multiset{a} + own, {s}, a, cls);
    m2 := Unref(cs, m1, a, cls, |m1|).mem;
    SameOwned(cs, m1, m2, e - multiset{a}, own, s, k, a, cls);
  }

  lemma OpenMember(cs: Classes, m: Memory, m1: Memory, e: multiset<nat>, s: nat, k: nat, a: nat, cls: nat)
    requires Balanced(cs, m1, e, {}) && Evolved(m, m1) && Sane(cs, m1) && s in e
    requires HasMember(cs, m, s, k, cls) && m[s].obj.fields[k] == a
    ensures HasMember(cs, m1, s, k, cls) && m1[s].obj.fields[k] == a
    ensures Balanced(cs, m1, e + multiset(Owned(cs, m1[s].obj, 0)), {s})
    ensures a in multiset(Owned(cs, m1[s].obj, 0)) && IsLive(m1, a) && m1[a].obj.cls == cls
    ensures HeldBy(e + multiset(Owned(cs, m1[s].obj, 0)) - multiset{a}, {s})
  {
    Open(cs, m1, e, {}, s);
    MemberIsOwned(cs, m1, s, k, cls);
    assert {} + {s} == {s};
    assert Typed(cs, m1, m1[s].obj);
  }

  lemma SameOwned(cs: Classes, m1: Memory, m2: Memory, e: multiset<nat>, own: multiset<nat>, s: nat, k: nat, a: nat,
                  cls: nat)
    requires HasMember(cs, m1, s, k, cls) && m1[s].obj.fields[k] == a && own == multiset(Owned(cs, m1[s].obj, 0))
    requires Evolved(m1, m2) && Balanced(cs, m2, e + own - multiset{a}, {s}) && a in own
    ensures HasMember(cs, m2, s, k, cls)
    ensures Balanced(cs, m2, e + (multiset(Owned(cs, m2[s].obj, 0)) - multiset{m2[s].obj.fields[k]}), {s})
    ensures forall q :: q in e ==> IsLive(m2, q)
  {
    assert s in {s};
    OwnedSame(cs, m1[s].obj, m2[s].obj, 0);
    assert e + own - multiset{a} == e + (own - multiset{a});
    forall q | q in e
      ensures IsLive(m2, q)
    {
      assert q in e + own - multiset{a};
    }
  }

  lemma DisposeRuns(cs: Classes, m: Memory, e: multiset<nat>, regs: seq<nat>, lhs: nat, target: Target, dispose: bool,
                    cls: nat, fuel: nat) returns (m': Memory)
    requires Balanced(cs, m, e, {}) && lhs < |regs| && |m| > 0
    requires dispose ==> regs[lhs] in e && m[regs[lhs]].obj.cls == cls
    requires target.Of? ==>
      if dispose then MemberReady(cs, m, e, regs, lhs, target, cls)
      else OwnedTarget(cs, m, e, regs, target, cls)
    ensures Run(cs, DisposeCode(lhs, target, dispose, cls), regs, m, fuel) == Done(regs, m')
    ensures var e' := Remaining(m, e, regs, lhs, target, dispose);
      && Disposed(cs, m', e', regs, target, cls) && |m'| == |m|
      && forall q :: q in e' ==> IsLive(m', q) && IsLive(m, q) && SameObject(m[q].obj, m'[q].obj)
  {
    hide *;
    if dispose || target.Plain? {
      RemainingIs(m, e, regs, lhs, target, dispose);
    }
    if target.Plain? {
      m' := PlainDisposeRuns(cs, m, e, regs, lhs, target, dispose, cls, fuel);
    } else if dispose {
      m' := MemberDisposeRuns(cs, m, e, regs, lhs, target, cls, fuel);
    } else {
      m' := m;
      Leaves(cs, m, e, regs, lhs, target, cls, fuel);
    }
  }

  lemma RemainingIs(m: Memory, ext: multiset<nat>, regs: seq<nat>, lhs: nat, target: Target, dispose: bool)
    requires lhs < |regs| && (dispose || target.Plain?)
    ensures Remaining(m, ext, regs, lhs, target, dispose) == if dispose then ext - multiset{regs[lhs]} else ext
  {
    assert ext + multiset{} == ext;
  }

  // Nothing is released: the member leaves its old value to no one
  lemma Leaves(cs: Classes, m: Memory, e: multiset<nat>, regs: seq<nat>, lhs: nat, target: Target, cls: nat, fuel: nat)
    requires Balanced(cs, m, e, {}) && lhs < |regs| && |m| > 0 && target.Of? && OwnedTarget(cs, m, e, regs, target, cls)
    ensures Run(cs, DisposeCode(lhs, target, false, cls), regs, m, fuel) == Done(regs, m)
    ensures var e' := Remaining(m, e, regs, lhs, target, false);
      && Disposed(cs, m, e', regs, target, cls)
      && forall q :: q in e' ==> IsLive(m, q) && SameObject(m[q].obj, m[q].obj)
  {
    var s := regs[target.self];
    var a := m[s].obj.fields[target.field];
    var own := multiset(Owned(cs, m[s].obj, 0));
    BalancedIsSane(cs, m, e);
    Open(cs, m, e, {}, s);
    assert {} + {s} == {s};
    MemberIsOwned(cs, m, s, target.field, cls);
    assert e + own == e + multiset{a} + (own - multiset{a});
    assert Typed(cs, m, m[s].obj);
    hide Owned;
    hide Owners;
  }

  lemma PlainDisposeRuns(cs: Classes, m: Memory, e: multiset<nat>, regs: seq<nat>, lhs: nat, target: Target,
                         dispose: bool, cls: nat, fuel: nat) returns (m': Memory)
    requires Balanced(cs, m, e, {}) && lhs < |regs| && |m| > 0 && target.Plain?
    requires dispose ==> regs[lhs] in e && m[regs[lhs]].obj.cls == cls
    ensures Run(cs, DisposeCode(lhs, target, dispose, cls), regs, m, fuel) == Done(regs, m')
    ensures var e' := if dispose then e - multiset{regs[lhs]} else e;
      && Disposed(cs, m', e', regs, target, cls) && |m'| == |m|
      && forall q :: q in e' ==> IsLive(m', q) && IsLive(m, q) && SameObject(m[q].obj, m'[q].obj)
  {
    hide Owners;
    hide Typed;
    hide Unref;
    BalancedIsSane(cs, m, e);
    RunFirst(cs, UnrefOp(lhs, cls), [], regs, m, fuel);
    assert [UnrefOp(lhs, cls)] + [] == [UnrefOp(lhs, cls)];
    if !dispose {
      m' := m;
    } else {
      ReleaseOnce(cs, m, e, {}, regs[lhs], cls);
      m' := Unref(cs, m, regs[lhs], cls, |m|).mem;
      assert forall q :: q in e - multiset{regs[lhs]} ==> IsLive(m', q);
    }
  }

  lemma MemberDisposeRuns(cs: Classes, m: Memory, e: multiset<nat>, regs: seq<nat>, lhs: nat, target: Target, cls: nat,
                          fuel: nat) returns (m': Memory)
    requires Balanced(cs, m, e, {}) && lhs < |regs| && |m| > 0 && target.Of?
    requires regs[lhs] in e && m[regs[lhs]].obj.cls == cls && MemberReady(cs, m, e, regs, lhs, target, cls)
    ensures Run(cs, DisposeCode(lhs, target, true, cls), regs, m, fuel) == Done(regs, m')
    ensures var e' := e - multiset{regs[lhs]};
      && Disposed(cs, m', e', regs, target, cls) && |m'| == |m|
      && forall q :: q in e' ==> IsLive(m', q) && IsLive(m, q) && SameObject(m[q].obj, m'[q].obj)
  {
    hide Balanced;
    hide Unref;
    hide Sane;
    hide Owned;
    m' := ReleaseMember(cs, m, e, regs[target.self], target.field, regs[lhs], cls);
    var m1 := Unref(cs, m, regs[lhs], cls, |m|).mem;
    RunFirst(cs, UnrefOp(lhs, cls), [UnrefOp(lhs, cls)], regs, m, fuel);
    RunFirst(cs, UnrefOp(lhs, cls), [], regs, m1, fuel);
    assert [UnrefOp(lhs, cls)] + [] == [UnrefOp(lhs, cls)];
    assert [UnrefOp(lhs, cls)] + [UnrefOp(lhs, cls)] == [UnrefOp(lhs, cls), UnrefOp(lhs, cls)];
  }

  // ---- the member gets its new value ----

  // The member which is the target holds 'v'
  predicate Member(m: Memory, regs: seq<nat>, target: Target, v: nat)
    requires target.Of?
  {
    && target.self < |regs| && IsLive(m, regs[target.self]) && target.field < |m[regs[target.self]].obj.fields|
    && m[regs[target.self]].obj.fields[target.field] == v
  }

  lemma OwnedStep(cs: Classes, o: Object, i: nat)
    requires Shaped(cs, o) && i < |o.fields|
    ensures multiset(Owned(cs, o, i)) == Acquired(cs[o.cls][i], o.fields[i]) + multiset(Owned(cs, o, i + 1))
  {
  }

  lemma Shuffle(h: multiset<nat>, x: multiset<nat>, y: multiset<nat>, a: multiset<nat>, b: multiset<nat>)
    requires x + a == y + b
    ensures h + x + a == h + y + b
  {
    assert h + x + a == h + (x + a);
    assert h + y + b == h + (y + b);
  }

  lemma {:induction false} OwnedReplace(cs: Classes, o: Object, k: nat, v: nat, i: nat)
    requires Shaped(cs, o) && k < |o.fields| && cs[o.cls][k].Ref? && i <= |o.fields|
    ensures var o' := o.(fields := o.fields[k := v]);
      multiset(Owned(cs, o', i)) + (if i <= k then multiset{o.fields[k]} else multiset{})
      == multiset(Owned(cs, o, i)) + (if i <= k then multiset{v} else multiset{})
    decreases |o.fields| - i
  {
    var o' := o.(fields := o.fields[k := v]);
    if i < |o.fields| {
      OwnedReplace(cs, o, k, v, i + 1);
      OwnedStep(cs, o, i);
      OwnedStep(cs, o', i);
      var x := multiset(Owned(cs, o', i + 1));
      var y := multiset(Owned(cs, o, i + 1));
      hide Owned;
      if i < k {
        Shuffle(Acquired(cs[o.cls][i], o.fields[i]), x, y, multiset{o.fields[k]}, multiset{v});
      } else {
        assert x + multiset{} == x && y + multiset{} == y;
        if i == k {
          Swap(multiset{v}, x, multiset{o.fields[k]});
        }
      }
    }
  }

  lemma Swap(a: multiset<nat>, x: multiset<nat>, b: multiset<nat>)
    ensures a + x + b == b + x + a
  {
  }

  // The object is closed again
  lemma CloseMember(cs: Classes, m: Memory, m2: Memory, e: multiset<nat>, s: nat, k: nat, v: nat, cls: nat)
    requires Sane(cs, m) && HasMember(cs, m, s, k, cls) && IsLive(m, v) && m[v].obj.cls == cls
    requires SetField(m, s, k, v).Ok? && m2 == SetField(m, s, k, v).mem
    requires Balanced(cs, m, e + (multiset(Owned(cs, m[s].obj, 0)) - multiset{m[s].obj.fields[k]}) + multiset{v}, {s})
    ensures Balanced(cs, m2, e, {})
  {
    var own := multiset(Owned(cs, m[s].obj, 0)) - multiset{m[s].obj.fields[k]};
    SetOpen(cs, m, e + own + multiset{v}, {s}, s, k, v);
    OwnedReplace(cs, m[s].obj, k, v, 0);
    MemberIsOwned(cs, m, s, k, cls);
    Exchange(multiset(Owned(cs, m[s].obj, 0)), multiset(Owned(cs, m2[s].obj, 0)), m[s].obj.fields[k], v);
    assert e + own + multiset{v} == e + multiset(Owned(cs, m2[s].obj, 0));
    TypedAgain(cs, m, m2, e, s, k, v, cls);
    Close(cs, m2, e, {s}, s);
    assert {s} - {s} == {};
  }

  lemma Exchange(a: multiset<nat>, b: multiset<nat>, x: nat, v: nat)
    requires b + multiset{x} == a + multiset{v} && x in a
    ensures a - multiset{x} + multiset{v} == b
  {
    assert b == b + multiset{x} - multiset{x};
  }

  lemma TypedAgain(cs: Classes, m: Memory, m2: Memory, e: multiset<nat>, s: nat, k: nat, v: nat, cls: nat)
    requires Sane(cs, m) && HasMember(cs, m, s, k, cls) && IsLive(m, v) && m[v].obj.cls == cls
    requires SetField(m, s, k, v).Ok? && m2 == SetField(m, s, k, v).mem
    requires Balanced(cs, m2, e + multiset(Owned(cs, m2[s].obj, 0)), {s})
    ensures Typed(cs, m2, m2[s].obj)
  {
    assert Weak(cs, m, m[s].obj);
    forall j | 0 <= j < |m2[s].obj.fields| && cs[m2[s].obj.cls][j].Ref?
      ensures IsLive(m2, m2[s].obj.fields[j])
      ensures m2[m2[s].obj.fields[j]].obj.cls == cs[m2[s].obj.cls][j].cls
    {
      OwnedMember(cs, m2[s].obj, 0, j);
      assert m2[s].obj.fields[j] in e + multiset(Owned(cs, m2[s].obj, 0));
    }
  }

  lemma StoreRuns(cs: Classes, m: Memory, e: multiset<nat>, regs: seq<nat>, lhs: nat, target: Target, cls: nat,
                  fuel: nat)
    requires Disposed(cs, m, e, regs, target, cls) && lhs < |regs| && regs[lhs] in e && IsLive(m, regs[lhs])
    requires m[regs[lhs]].obj.cls == cls
    ensures var o := Run(cs, StoreCode(lhs, target), regs, m, fuel);
      || o == Outcome.Fault(TooMany)
      || (o.Done? && o.regs == regs && Balanced(cs, o.mem, e, {})
          && (target.Of? ==> Member(o.mem, regs, target, regs[lhs])))
  {
    var v := regs[lhs];
    RunFirst(cs, RefOp(lhs), [], regs, m, fuel);
    if target.Of? && AddRef(m, v).Ok? {
      var s := regs[target.self];
      var own := multiset(Owned(cs, m[s].obj, 0)) - multiset{m[s].obj.fields[target.field]};
      var m1 := AddRef(m, v).mem;
      RefBalanced(cs, m, e + own, {s}, v);
      RefSane(cs, m, v);
      StoreCode2(cs, m, regs, lhs, target, fuel);
      OwnedSame(cs, m[s].obj, m1[s].obj, 0);
      CloseMember(cs, m1, SetField(m1, s, target.field, v).mem, e, s, target.field, v, cls);
    } else if target.Of? {
      StoreCode2(cs, m, regs, lhs, target, fuel);
    }
  }

  lemma StoreCode2(cs: Classes, m: Memory, regs: seq<nat>, lhs: nat, target: Target, fuel: nat)
    requires target.Of? && lhs < |regs| && target.self < |regs|
    ensures var o := Run(cs, StoreCode(lhs, target), regs, m, fuel);
      var r := AddRef(m, regs[lhs]);
      if r.Failed? then o == Outcome.Fault(r.fault)
      else
        var r2 := SetField(r.mem, regs[target.self], target.field, regs[lhs]);
        if r2.Failed? then o == Outcome.Fault(r2.fault) else o == Done(regs, r2.mem)
  {
    var put := Fieldset(lhs, target.self, target.field);
    RunFirst(cs, RefOp(lhs), [put], regs, m, fuel);
    assert [RefOp(lhs)] + [put] == StoreCode(lhs, target);
    if AddRef(m, regs[lhs]).Ok? {
      RunFirst(cs, put, [], regs, AddRef(m, regs[lhs]).mem, fuel);
      assert [put] + [] == [put];
    }
  }

  // ---- the theorem for references ----

  // The register 'lhs' holds the object of 'rhs', and owns it instead of its old value; so does the member.
  // It holds for 'a = a' as well. A count cannot be above its maximum. When the old value must not be released, the
  // reference that the member had on it is lost.
  lemma RefKeepsOwnership(cs: Classes, m: Memory, ext: multiset<nat>, regs: seq<nat>, lhs: nat, rhs: nat,
                          target: Target, dispose: bool, cls: nat, fuel: nat)
    requires Assignable(cs, m, ext, regs, lhs, rhs, target, cls)
    requires dispose ==> Disposable(cs, m, ext, regs, lhs, rhs, target, cls)
    ensures var o := Run(cs, AssignCode(ByRef, lhs, rhs, target, dispose, cls), regs, m, fuel);
      || o == Outcome.Fault(TooMany)
      || (o.Done? && o.regs == regs[lhs := regs[rhs]]
          && Balanced(cs, o.mem, Remaining(m, ext, regs, lhs, target, dispose) + multiset{regs[rhs]}, {})
          && (target.Of? ==> Member(o.mem, regs, target, regs[rhs])))
  {
    hide *;
    var code := DisposeCode(lhs, target, dispose, cls) + ([Copy(lhs, rhs)] + StoreCode(lhs, target));
    RefCodeIs(lhs, rhs, target, dispose, cls);
    RunFirst(cs, RefOp(rhs), code, regs, m, fuel);
    AssignableMeans(cs, m, ext, regs, lhs, rhs, target, cls);
    RefRuns(cs, rhs, regs, m, fuel);
    if AddRef(m, regs[rhs]).Ok? {
      var m1 := AddRef(m, regs[rhs]).mem;
      RefBalanced(cs, m, ext, {}, regs[rhs]);
      DisposeReady(cs, m, m1, ext, regs, lhs, rhs, target, dispose, cls);
      RemainingSame(m, m1, ext, regs, lhs, rhs, target, dispose);
      AfterRef(cs, m1, ext, regs, lhs, rhs, target, dispose, cls, fuel);
    } else {
      OnlyTooMany(m, regs[rhs]);
    }
  }

  lemma RefCodeIs(lhs: nat, rhs: nat, target: Target, dispose: bool, cls: nat)
    ensures AssignCode(ByRef, lhs, rhs, target, dispose, cls)
         == [RefOp(rhs)] + (DisposeCode(lhs, target, dispose, cls) + ([Copy(lhs, rhs)] + StoreCode(lhs, target)))
  {
  }

  lemma RefRuns(cs: Classes, rhs: nat, regs: seq<nat>, m: Memory, fuel: nat)
    requires rhs < |regs|
    ensures var r := AddRef(m, regs[rhs]);
      RunOp(cs, RefOp(rhs), regs, m, fuel) == if r.Ok? then Done(regs, r.mem) else Outcome.Fault(r.fault)
  {
  }

  lemma OnlyTooMany(m: Memory, p: nat)
    requires IsLive(m, p) && AddRef(m, p).Failed?
    ensures AddRef(m, p).fault == TooMany
  {
  }

  lemma AssignableMeans(cs: Classes, m: Memory, ext: multiset<nat>, regs: seq<nat>, lhs: nat, rhs: nat, target: Target,
                        cls: nat)
    requires Assignable(cs, m, ext, regs, lhs, rhs, target, cls)
    ensures Balanced(cs, m, ext, {}) && lhs < |regs| && rhs < |regs| && lhs != rhs && IsLive(m, regs[rhs])
    ensures target.Of? ==> target.self != lhs
    ensures regs[rhs] in ext && cls < |cs|
  {
    hide Owners;
    hide Typed;
  }

  lemma AfterRef(cs: Classes, m1: Memory, ext: multiset<nat>, regs: seq<nat>, lhs: nat, rhs: nat, target: Target,
                 dispose: bool, cls: nat, fuel: nat)
    requires lhs < |regs| && rhs < |regs| && lhs != rhs && |m1| > 0 && Balanced(cs, m1, ext + multiset{regs[rhs]}, {})
    requires IsLive(m1, regs[rhs]) && m1[regs[rhs]].obj.cls == cls && (target.Of? ==> target.self != lhs)
    requires dispose ==> regs[lhs] in ext && IsLive(m1, regs[lhs]) && m1[regs[lhs]].obj.cls == cls
    requires target.Of? ==>
      if dispose then MemberReady(cs, m1, ext + multiset{regs[rhs]}, regs, lhs, target, cls)
      else OwnedTarget(cs, m1, ext + multiset{regs[rhs]}, regs, target, cls)
    ensures var code := DisposeCode(lhs, target, dispose, cls) + ([Copy(lhs, rhs)] + StoreCode(lhs, target));
      var o := Run(cs, code, regs, m1, fuel);
      || o == Outcome.Fault(TooMany)
      || (o.Done? && o.regs == regs[lhs := regs[rhs]]
          && Balanced(cs, o.mem, Remaining(m1, ext, regs, lhs, target, dispose) + multiset{regs[rhs]}, {})
          && (target.Of? ==> Member(o.mem, regs, target, regs[rhs])))
  {
    hide *;
    var e := ext + multiset{regs[rhs]};
    var regs' := regs[lhs := regs[rhs]];
    var m2 := DisposeRuns(cs, m1, e, regs, lhs, target, dispose, cls, fuel);
    RunCat(cs, DisposeCode(lhs, target, dispose, cls), [Copy(lhs, rhs)] + StoreCode(lhs, target), regs, m1, fuel);
    RunFirst(cs, Copy(lhs, rhs), StoreCode(lhs, target), regs, m2, fuel);
    CopyRuns(cs, lhs, rhs, regs, m2, fuel);
    RefShift(m1, ext, regs, lhs, rhs, target, dispose);
    var e' := Remaining(m1, ext, regs, lhs, target, dispose) + multiset{regs[rhs]};
    DisposedRegs(cs, m2, e', regs, regs', lhs, target, cls);
    assert regs'[lhs] in e';
    LiveMeans(m2, regs[rhs]);
    LiveMeans(m1, regs[rhs]);
    SameMeans(m1[regs[rhs]].obj, m2[regs[rhs]].obj);
    StoreRuns(cs, m2, e', regs', lhs, target, cls, fuel);
    MemberRegs(cs, Run(cs, StoreCode(lhs, target), regs', m2, fuel), regs, regs', lhs, target, regs[rhs]);
  }

  lemma CopyRuns(cs: Classes, lhs: nat, rhs: nat, regs: seq<nat>, m: Memory, fuel: nat)
    requires lhs < |regs| && rhs < |regs|
    ensures RunOp(cs, Copy(lhs, rhs), regs, m, fuel) == Done(regs[lhs := regs[rhs]], m)
  {
  }

  lemma DisposedRegs(cs: Classes, m: Memory, e: multiset<nat>, regs: seq<nat>, regs': seq<nat>, lhs: nat,
                     target: Target, cls: nat)
    requires Disposed(cs, m, e, regs, target, cls) && |regs'| == |regs| && (target.Of? ==> target.self != lhs)
    requires forall i :: 0 <= i < |regs| && i != lhs ==> regs'[i] == regs[i]
    ensures Disposed(cs, m, e, regs', target, cls)
  {
    hide Balanced;
    hide Sane;
  }

  lemma MemberRegs(cs: Classes, o: Outcome, regs: seq<nat>, regs': seq<nat>, lhs: nat, target: Target, v: nat)
    requires |regs'| == |regs| && (target.Of? ==> target.self != lhs)
    requires forall i :: 0 <= i < |regs| && i != lhs ==> regs'[i] == regs[i]
    ensures o.Done? && target.Of? && Member(o.mem, regs', target, v) ==> Member(o.mem, regs, target, v)
  {
  }

  lemma RefShift(m: Memory, ext: multiset<nat>, regs: seq<nat>, lhs: nat, rhs: nat, target: Target, dispose: bool)
    requires lhs < |regs| && rhs < |regs| && (dispose ==> regs[lhs] in ext)
    ensures Remaining(m, ext + multiset{regs[rhs]}, regs, lhs, target, dispose)
         == Remaining(m, ext, regs, lhs, target, dispose) + multiset{regs[rhs]}
  {
  }

  lemma RemainingSame(m: Memory, m1: Memory, ext: multiset<nat>, regs: seq<nat>, lhs: nat, rhs: nat, target: Target,
                      dispose: bool)
    requires lhs < |regs| && rhs < |regs| && AddRef(m, regs[rhs]) == Ok(m1)
    ensures Remaining(m1, ext, regs, lhs, target, dispose) == Remaining(m, ext, regs, lhs, target, dispose)
  {
  }

  lemma DisposeReady(cs: Classes, m: Memory, m1: Memory, ext: multiset<nat>, regs: seq<nat>, lhs: nat, rhs: nat,
                     target: Target, dispose: bool, cls: nat)
    requires Assignable(cs, m, ext, regs, lhs, rhs, target, cls)
    requires dispose ==> Disposable(cs, m, ext, regs, lhs, rhs, target, cls)
    requires AddRef(m, regs[rhs]).Ok? && m1 == AddRef(m, regs[rhs]).mem
    ensures |m1| > 0 && IsLive(m1, regs[rhs]) && m1[regs[rhs]].obj.cls == cls
    ensures dispose ==> regs[lhs] in ext && IsLive(m1, regs[lhs]) && m1[regs[lhs]].obj.cls == cls
    ensures target.Of? ==>
      if dispose then MemberReady(cs, m1, ext + multiset{regs[rhs]}, regs, lhs, target, cls)
      else OwnedTarget(cs, m1, ext + multiset{regs[rhs]}, regs, target, cls)
  {
  }

  // ---- the theorem for deep copies ----

  function CloneCode(lhs: nat, rhs: nat, cls: nat): seq<Op> {
    [New(lhs, cls), RefOp(lhs), Clone(lhs, rhs, cls), UnrefOp(rhs, cls)]
  }

  // The four instructions of a deep copy
  lemma CloneRuns(cs: Classes, lhs: nat, rhs: nat, cls: nat, regs: seq<nat>, m: Memory, fuel: nat)
    requires lhs < |regs| && rhs < |regs| && lhs != rhs && cls < |cs|
    ensures var r := CloneDeep(cs, m, regs[rhs], cls, fuel + 1);
      Run(cs, CloneCode(lhs, rhs, cls), regs, m, fuel)
      == if r.Got? then Done(regs[lhs := r.v], r.mem) else Outcome.Fault(r.fault)
  {
    hide CloneMembers;
    hide Unref;
    var d := |m|;
    var regs' := regs[lhs := d];
    var m0 := Allocate(cs, m, cls);
    RunFirst(cs, New(lhs, cls), [RefOp(lhs), Clone(lhs, rhs, cls), UnrefOp(rhs, cls)], regs, m, fuel);
    assert [New(lhs, cls)] + [RefOp(lhs), Clone(lhs, rhs, cls), UnrefOp(rhs, cls)] == CloneCode(lhs, rhs, cls);
    RunFirst(cs, RefOp(lhs), [Clone(lhs, rhs, cls), UnrefOp(rhs, cls)], regs', m0, fuel);
    assert [RefOp(lhs)] + [Clone(lhs, rhs, cls), UnrefOp(rhs, cls)]
        == [RefOp(lhs), Clone(lhs, rhs, cls), UnrefOp(rhs, cls)];
    if AddRef(m0, d).Ok? {
      var m1 := AddRef(m0, d).mem;
      RunFirst(cs, Clone(lhs, rhs, cls), [UnrefOp(rhs, cls)], regs', m1, fuel);
      assert [Clone(lhs, rhs, cls)] + [UnrefOp(rhs, cls)] == [Clone(lhs, rhs, cls), UnrefOp(rhs, cls)];
      var r := CloneMembers(cs, m1, d, regs[rhs], cls, 0, fuel);
      if r.Ok? {
        RunFirst(cs, UnrefOp(rhs, cls), [], regs', r.mem, fuel);
        assert [UnrefOp(rhs, cls)] + [] == [UnrefOp(rhs, cls)];
      }
    }
  }

  // The source is released, the clone is owned; an open target stays open
  lemma ClonePlain(cs: Classes, m: Memory, e: multiset<nat>, regs: seq<nat>, lhs: nat, rhs: nat, target: Target,
                   cls: nat, fuel: nat)
    requires target.Plain?
    requires lhs < |regs| && rhs < |regs| && cls < |cs| && Disposed(cs, m, e + multiset{regs[rhs]}, regs, target, cls)
    requires IsLive(m, regs[rhs]) && m[regs[rhs]].obj.cls == cls && CloneDeep(cs, m, regs[rhs], cls, fuel).Got?
    ensures var r := CloneDeep(cs, m, regs[rhs], cls, fuel);
      && r.v == |m| && IsLive(r.mem, r.v) && r.mem[r.v].obj.cls == cls
      && Copied(cs, r.mem[r.v].obj, m[regs[rhs]].obj, |cs[cls]|, |m|)
      && Disposed(cs, r.mem, e + multiset{r.v}, regs[lhs := r.v], target, cls)
  {
    hide CloneDeep;
    hide Owned;
    hide Owners;
    hide Balanced;
    hide Sane;
    hide Copied;
    var b := regs[rhs];
    var r := CloneDeep(cs, m, b, cls, fuel);
    NoneHeld(e + multiset{b} - multiset{b});
    DeepBalanced(cs, m, e + multiset{b}, {}, b, cls, fuel);
    assert e + multiset{b} - multiset{b} + multiset{r.v} == e + multiset{r.v};
  }

  lemma NoneHeld(e: multiset<nat>)
    ensures HeldBy(e, {})
  {
  }

  lemma CloneOpen(cs: Classes, m: Memory, e: multiset<nat>, regs: seq<nat>, lhs: nat, rhs: nat, target: Target,
                  cls: nat, fuel: nat)
    requires target.Of?
    requires lhs < |regs| && rhs < |regs| && cls < |cs| && Disposed(cs, m, e + multiset{regs[rhs]}, regs, target, cls)
    requires target.self != lhs && target.self < |regs| && regs[target.self] in e
    requires IsLive(m, regs[rhs]) && m[regs[rhs]].obj.cls == cls && CloneDeep(cs, m, regs[rhs], cls, fuel).Got?
    ensures var r := CloneDeep(cs, m, regs[rhs], cls, fuel);
      && r.v == |m| && IsLive(r.mem, r.v) && r.mem[r.v].obj.cls == cls
      && Copied(cs, r.mem[r.v].obj, m[regs[rhs]].obj, |cs[cls]|, |m|)
      && Disposed(cs, r.mem, e + multiset{r.v}, regs[lhs := r.v], target, cls)
      && regs[target.self] < |m|
  {
    hide CloneDeep;
    hide Owned;
    hide Owners;
    hide Balanced;
    hide Sane;
    hide Copied;
    var b := regs[rhs];
    var r := CloneDeep(cs, m, b, cls, fuel);
    var s := regs[target.self];
    var own := multiset(Owned(cs, m[s].obj, 0)) - multiset{m[s].obj.fields[target.field]};
    Regroup(e, own, b, |m|);
    DeepBalanced(cs, m, e + multiset{b} + own, {s}, b, cls, fuel);
    OpenKept(cs, m, r.mem, e + multiset{r.v}, own, s, target.field, cls);
  }

  lemma CloneDisposed(cs: Classes, m: Memory, e: multiset<nat>, regs: seq<nat>, lhs: nat, rhs: nat, target: Target,
                      cls: nat, fuel: nat)
    requires lhs < |regs| && rhs < |regs| && cls < |cs| && Disposed(cs, m, e + multiset{regs[rhs]}, regs, target, cls)
    requires target.Of? ==> target.self != lhs && regs[target.self] in e
    requires IsLive(m, regs[rhs]) && m[regs[rhs]].obj.cls == cls && CloneDeep(cs, m, regs[rhs], cls, fuel).Got?
    ensures var r := CloneDeep(cs, m, regs[rhs], cls, fuel);
      && r.v == |m| && IsLive(r.mem, r.v) && r.mem[r.v].obj.cls == cls
      && Copied(cs, r.mem[r.v].obj, m[regs[rhs]].obj, |cs[cls]|, |m|)
      && Disposed(cs, r.mem, e + multiset{r.v}, regs[lhs := r.v], target, cls)
      && (target.Of? ==> regs[target.self] < |m|)
  {
    hide *;
    if target.Plain? {
      ClonePlain(cs, m, e, regs, lhs, rhs, target, cls, fuel);
    } else {
      DisposedSelf(cs, m, e + multiset{regs[rhs]}, regs, target, cls);
      CloneOpen(cs, m, e, regs, lhs, rhs, target, cls, fuel);
    }
  }

  lemma DisposedSelf(cs: Classes, m: Memory, e: multiset<nat>, regs: seq<nat>, target: Target, cls: nat)
    requires Disposed(cs, m, e, regs, target, cls) && target.Of?
    ensures target.self < |regs|
  {
  }

  lemma Regroup(e: multiset<nat>, own: multiset<nat>, b: nat, d: nat)
    ensures e + multiset{b} + own - multiset{b} == e + own
    ensures e + multiset{b} + own - multiset{b} + multiset{d} == e + multiset{d} + own
  {
  }

  lemma OpenKept(cs: Classes, m: Memory, m': Memory, e: multiset<nat>, own: multiset<nat>, s: nat, k: nat, cls: nat)
    requires HasMember(cs, m, s, k, cls) && Assignment.Kept(m, m') && s in e && Balanced(cs, m', e + own, {s})
    requires own == multiset(Owned(cs, m[s].obj, 0)) - multiset{m[s].obj.fields[k]}
    ensures HasMember(cs, m', s, k, cls)
    ensures Balanced(cs, m', e + (multiset(Owned(cs, m'[s].obj, 0)) - multiset{m'[s].obj.fields[k]}), {s})
  {
    assert s in {s};
    OwnedSame(cs, m[s].obj, m'[s].obj, 0);
  }

  lemma DeepCodeIs(lhs: nat, rhs: nat, target: Target, dispose: bool, cls: nat)
    ensures AssignCode(DeepCopy, lhs, rhs, target, dispose, cls)
         == [RefOp(rhs)] + (DisposeCode(lhs, target, dispose, cls)
                            + (CloneCode(lhs, rhs, cls) + StoreCode(lhs, target)))
  {
  }

  // The register 'lhs' holds a fresh object of the class, and owns it instead of its old value; so does the member.
  // The source keeps its owners, and the fresh object has the same members but for its own clones.
  lemma DeepKeepsOwnership(cs: Classes, m: Memory, ext: multiset<nat>, regs: seq<nat>, lhs: nat, rhs: nat,
                           target: Target, dispose: bool, cls: nat, fuel: nat)
    requires Assignable(cs, m, ext, regs, lhs, rhs, target, cls)
    requires dispose ==> Disposable(cs, m, ext, regs, lhs, rhs, target, cls)
    ensures var o := Run(cs, AssignCode(DeepCopy, lhs, rhs, target, dispose, cls), regs, m, fuel);
      o.Done? ==>
        && o.regs == regs[lhs := |m|]
        && IsLive(o.mem, |m|) && Copied(cs, o.mem[|m|].obj, m[regs[rhs]].obj, |cs[cls]|, |m|)
        && Balanced(cs, o.mem, Remaining(m, ext, regs, lhs, target, dispose) + multiset{|m|}, {})
        && (target.Of? ==> Member(o.mem, regs, target, |m|))
  {
    hide *;
    var code := DisposeCode(lhs, target, dispose, cls) + (CloneCode(lhs, rhs, cls) + StoreCode(lhs, target));
    DeepCodeIs(lhs, rhs, target, dispose, cls);
    AssignableMeans(cs, m, ext, regs, lhs, rhs, target, cls);
    RunFirst(cs, RefOp(rhs), code, regs, m, fuel);
    RefRuns(cs, rhs, regs, m, fuel);
    if AddRef(m, regs[rhs]).Ok? {
      var m1 := AddRef(m, regs[rhs]).mem;
      RefBalanced(cs, m, ext, {}, regs[rhs]);
      DisposeReady(cs, m, m1, ext, regs, lhs, rhs, target, dispose, cls);
      RemainingSame(m, m1, ext, regs, lhs, rhs, target, dispose);
      SelfStays(cs, m, ext, regs, lhs, rhs, target, dispose, cls);
      AfterRefDeep(cs, m1, ext, regs, lhs, rhs, target, dispose, cls, fuel);
      var o := Run(cs, code, regs, m1, fuel);
      if o.Done? {
        LiveMeans(o.mem, |m|);
        LiveMeans(m, regs[rhs]);
        LiveMeans(m1, regs[rhs]);
        SameSelf(m, m1, regs[rhs], o.mem[|m|].obj);
        CopyKept(cs, o.mem[|m|].obj, o.mem[|m|].obj, m1[regs[rhs]].obj, m[regs[rhs]].obj, |cs[cls]|, |m|);
      }
    }
  }

  lemma SameSelf(m: Memory, m1: Memory, b: nat, o: Object)
    requires IsLive(m, b) && AddRef(m, b) == Ok(m1)
    ensures IsLive(m1, b) && SameObject(m[b].obj, m1[b].obj) && SameObject(m1[b].obj, m[b].obj) && SameObject(o, o)
  {
  }

  lemma SelfStays(cs: Classes, m: Memory, ext: multiset<nat>, regs: seq<nat>, lhs: nat, rhs: nat, target: Target,
                  dispose: bool, cls: nat)
    requires Assignable(cs, m, ext, regs, lhs, rhs, target, cls)
    requires dispose ==> Disposable(cs, m, ext, regs, lhs, rhs, target, cls)
    ensures target.Of? ==> target.self < |regs| && regs[target.self] in Remaining(m, ext, regs, lhs, target, dispose)
    ensures AddRef(m, regs[rhs]).Ok? ==> |AddRef(m, regs[rhs]).mem| == |m|
  {
    hide Balanced;
  }

  lemma AfterRefDeep(cs: Classes, m1: Memory, ext: multiset<nat>, regs: seq<nat>, lhs: nat, rhs: nat, target: Target,
                     dispose: bool, cls: nat, fuel: nat)
    requires lhs < |regs| && rhs < |regs| && lhs != rhs && |m1| > 0 && Balanced(cs, m1, ext + multiset{regs[rhs]}, {})
    requires IsLive(m1, regs[rhs]) && m1[regs[rhs]].obj.cls == cls && (target.Of? ==> target.self != lhs) && cls < |cs|
    requires dispose ==> regs[lhs] in ext && IsLive(m1, regs[lhs]) && m1[regs[lhs]].obj.cls == cls
    requires target.Of? ==>
      if dispose then MemberReady(cs, m1, ext + multiset{regs[rhs]}, regs, lhs, target, cls)
      else OwnedTarget(cs, m1, ext + multiset{regs[rhs]}, regs, target, cls)
    requires target.Of? ==> target.self < |regs| && regs[target.self] in Remaining(m1, ext, regs, lhs, target, dispose)
    ensures var code := DisposeCode(lhs, target, dispose, cls) + (CloneCode(lhs, rhs, cls) + StoreCode(lhs, target));
      var o := Run(cs, code, regs, m1, fuel);
      o.Done? ==>
        && o.regs == regs[lhs := |m1|]
        && IsLive(o.mem, |m1|) && Copied(cs, o.mem[|m1|].obj, m1[regs[rhs]].obj, |cs[cls]|, |m1|)
        && Balanced(cs, o.mem, Remaining(m1, ext, regs, lhs, target, dispose) + multiset{|m1|}, {})
        && (target.Of? ==> Member(o.mem, regs, target, |m1|))
  {
    hide *;
    var e0 := Remaining(m1, ext, regs, lhs, target, dispose);
    var m2 := DisposeRuns(cs, m1, ext + multiset{regs[rhs]}, regs, lhs, target, dispose, cls, fuel);
    RunCat(cs, DisposeCode(lhs, target, dispose, cls), CloneCode(lhs, rhs, cls) + StoreCode(lhs, target), regs, m1,
             fuel);
    RunCat(cs, CloneCode(lhs, rhs, cls), StoreCode(lhs, target), regs, m2, fuel);
    CloneRuns(cs, lhs, rhs, cls, regs, m2, fuel);
    RefShift(m1, ext, regs, lhs, rhs, target, dispose);
    assert regs[rhs] in e0 + multiset{regs[rhs]};
    LiveMeans(m2, regs[rhs]);
    LiveMeans(m1, regs[rhs]);
    SameMeans(m1[regs[rhs]].obj, m2[regs[rhs]].obj);
    var r := CloneDeep(cs, m2, regs[rhs], cls, fuel + 1);
    if r.Got? {
      CloneDisposed(cs, m2, e0, regs, lhs, rhs, target, cls, fuel + 1);
      var regs' := regs[lhs := r.v];
      assert regs'[lhs] in e0 + multiset{r.v};
      LiveMeans(r.mem, r.v);
      StoreRuns(cs, r.mem, e0 + multiset{r.v}, regs', lhs, target, cls, fuel);
      StoreKeeps(cs, r.mem, regs', lhs, target, r.v, fuel);
      var o := Run(cs, StoreCode(lhs, target), regs', r.mem, fuel);
      if o.Done? {
        LiveMeans(o.mem, r.v);
        CopyKept(cs, r.mem[r.v].obj, o.mem[r.v].obj, m2[regs[rhs]].obj, m1[regs[rhs]].obj, |cs[cls]|, |m1|);
      }
      MemberRegs(cs, Run(cs, StoreCode(lhs, target), regs', r.mem, fuel), regs, regs', lhs, target, r.v);
    }
  }

  lemma LiveMeans(m: Memory, p: nat)
    ensures IsLive(m, p) ==> p < |m| && m[p].Live?
  {
  }

  lemma SameMeans(o: Object, o': Object)
    ensures SameObject(o, o') ==> o'.cls == o.cls && o'.fields == o.fields
  {
  }

  // The object which is not the target is left as it is, but for its count
  lemma StoreKeeps(cs: Classes, m: Memory, regs: seq<nat>, lhs: nat, target: Target, p: nat, fuel: nat)
    requires lhs < |regs| && IsLive(m, p) && (target.Of? ==> target.self < |regs| && regs[target.self] != p)
    ensures var o := Run(cs, StoreCode(lhs, target), regs, m, fuel);
      o.Done? ==> IsLive(o.mem, p) && SameObject(m[p].obj, o.mem[p].obj)
  {
    if target.Of? {
      StoreCode2(cs, m, regs, lhs, target, fuel);
    } else {
      RunFirst(cs, RefOp(lhs), [], regs, m, fuel);
    }
  }

  lemma CopyKept(cs: Classes, c: Object, c': Object, b: Object, b': Object, i: nat, lo: nat)
    requires Copied(cs, c, b, i, lo) && SameObject(c, c') && SameObject(b', b)
    ensures Copied(cs, c', b', i, lo)
  {
  }

  // ---- values which are not objects ----

  // The register is copied, and written to the member; no count changes
  lemma RawCopies(cs: Classes, m: Memory, regs: seq<nat>, lhs: nat, rhs: nat, target: Target, dispose: bool, cls: nat,
                  fuel: nat)
    requires lhs < |regs| && rhs < |regs| && lhs != rhs && (target.Of? ==> target.self < |regs| && target.self != lhs)
    ensures var o := Run(cs, AssignCode(RawRegister, lhs, rhs, target, dispose, cls), regs, m, fuel);
      if target.Plain? then o == Done(regs[lhs := regs[rhs]], m)
      else
        var r := SetField(m, regs[target.self], target.field, regs[rhs]);
        if r.Ok? then o == Done(regs[lhs := regs[rhs]], r.mem) else o == Outcome.Fault(UnknownPointer)
  {
    RunFirst(cs, Copy(lhs, rhs), [], regs, m, fuel);
    assert [Copy(lhs, rhs)] + [] == [Copy(lhs, rhs)];
    if target.Of? {
      var put := Fieldset(lhs, target.self, target.field);
      RunFirst(cs, Copy(lhs, rhs), [put], regs, m, fuel);
      RunFirst(cs, put, [], regs[lhs := regs[rhs]], m, fuel);
      assert [put] + [] == [put];
    }
  }
}
