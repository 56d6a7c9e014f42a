// The analyser emits an assignment: it chooses a strategy, then appends its instructions one by one.
module Assigning {
  import opened Heap
  import opened Assignment
  import opened Ownership

  // What is known of a register: whether it is released at the end of its scope, where its value comes from, its own
  // qualifier, and the member it stands for. The qualifier of a member is not the one of the registers which hold it.
  datatype Lvid = Lvid(autorelease: bool, memalloc: bool, returnedValue: bool, refQualifier: bool, target: Target)

  // Objects are cloned, unless the target is a reference or the value is one nobody else will use
  function StrategyFor(lhs: Lvid, rhs: Lvid, acquirable: bool, forceDeepcopy: bool): Strategy {
    if !acquirable then RawRegister
    else if forceDeepcopy then DeepCopy
    else if lhs.refQualifier || rhs.memalloc || rhs.returnedValue then ByRef
    else DeepCopy
  }

  // What an assignment does to the registers when it ends: the register 'lhs', and the member if any, hold the address
  // of the value, or one which was not used before
  ghost predicate Assigns(code: seq<Op>, lhs: nat, rhs: nat, target: Target, dispose: bool, cls: nat, shared: bool) {
    forall cs, m, ext, regs, fuel ::
      Assignable(cs, m, ext, regs, lhs, rhs, target, cls) && Run(cs, code, regs, m, fuel).Done?
      && (dispose ==> Disposable(cs, m, ext, regs, lhs, rhs, target, cls)) ==>
        Assigned(Run(cs, code, regs, m, fuel), m, regs, lhs, rhs, target, shared)
  }

  ghost predicate Assigned(o: Outcome, m: Memory, regs: seq<nat>, lhs: nat, rhs: nat, target: Target, shared: bool) {
    && o.Done? && |o.regs| == |regs| && lhs < |regs| && rhs < |regs|
    && (forall r :: 0 <= r < |regs| && r != lhs ==> o.regs[r] == regs[r])
    && (o.regs[lhs] == regs[rhs] <==> shared)
    && (!shared ==> o.regs[lhs] >= |m|)
    && (target.Of? ==> Ownership.Member(o.mem, regs, target, o.regs[lhs]))
  }

  lemma SharedAssigned(cs: Classes, m: Memory, ext: multiset<nat>, regs: seq<nat>, lhs: nat, rhs: nat, target: Target,
                       dispose: bool, cls: nat, fuel: nat)
    requires Assignable(cs, m, ext, regs, lhs, rhs, target, cls)
    requires dispose ==> Disposable(cs, m, ext, regs, lhs, rhs, target, cls)
    requires Run(cs, AssignCode(ByRef, lhs, rhs, target, dispose, cls), regs, m, fuel).Done?
    ensures Assigned(Run(cs, AssignCode(ByRef, lhs, rhs, target, dispose, cls), regs, m, fuel), m, regs, lhs, rhs,
                     target, true)
  {
    hide *;
    InUse(cs, m, ext, regs, lhs, rhs, target, cls);
    RefKeepsOwnership(cs, m, ext, regs, lhs, rhs, target, dispose, cls, fuel);
    AssignedIs(Run(cs, AssignCode(ByRef, lhs, rhs, target, dispose, cls), regs, m, fuel), m, regs, lhs, rhs, target,
               true, regs[rhs]);
  }

  lemma ClonedAssigned(cs: Classes, m: Memory, ext: multiset<nat>, regs: seq<nat>, lhs: nat, rhs: nat, target: Target,
                       dispose: bool, cls: nat, fuel: nat)
    requires Assignable(cs, m, ext, regs, lhs, rhs, target, cls)
    requires dispose ==> Disposable(cs, m, ext, regs, lhs, rhs, target, cls)
    requires Run(cs, AssignCode(DeepCopy, lhs, rhs, target, dispose, cls), regs, m, fuel).Done?
    ensures Assigned(Run(cs, AssignCode(DeepCopy, lhs, rhs, target, dispose, cls), regs, m, fuel), m, regs, lhs, rhs,
                     target, false)
  {
    hide *;
    InUse(cs, m, ext, regs, lhs, rhs, target, cls);
    DeepKeepsOwnership(cs, m, ext, regs, lhs, rhs, target, dispose, cls, fuel);
    AssignedIs(Run(cs, AssignCode(DeepCopy, lhs, rhs, target, dispose, cls), regs, m, fuel), m, regs, lhs, rhs, target,
               false, |m|);
  }

  lemma AssignedIs(o: Outcome, m: Memory, regs: seq<nat>, lhs: nat, rhs: nat, target: Target, shared: bool, v: nat)
    requires lhs < |regs| && rhs < |regs| && regs[rhs] < |m| && o.Done? && o.regs == regs[lhs := v]
    requires v == if shared then regs[rhs] else |m|
    requires target.Of? ==> Ownership.Member(o.mem, regs, target, v)
    ensures Assigned(o, m, regs, lhs, rhs, target, shared)
  {
    hide Ownership.Member;
  }

  lemma RefAssigns(lhs: nat, rhs: nat, target: Target, dispose: bool, cls: nat)
    ensures Assigns(AssignCode(ByRef, lhs, rhs, target, dispose, cls), lhs, rhs, target, dispose, cls, true)
  {
    hide AssignCode;
    hide Run;
    hide Assignable;
    hide Disposable;
    hide Assigned;
    var code := AssignCode(ByRef, lhs, rhs, target, dispose, cls);
    forall cs, m, ext, regs, fuel | Assignable(cs, m, ext, regs, lhs, rhs, target, cls)
                                    && Run(cs, code, regs, m, fuel).Done?
                                    && (dispose ==> Disposable(cs, m, ext, regs, lhs, rhs, target, cls))
      ensures Assigned(Run(cs, code, regs, m, fuel), m, regs, lhs, rhs, target, true)
    {
      SharedAssigned(cs, m, ext, regs, lhs, rhs, target, dispose, cls, fuel);
    }
  }

  lemma DeepAssigns(lhs: nat, rhs: nat, target: Target, dispose: bool, cls: nat)
    ensures Assigns(AssignCode(DeepCopy, lhs, rhs, target, dispose, cls), lhs, rhs, target, dispose, cls, false)
  {
    hide AssignCode;
    hide Run;
    hide Assignable;
    hide Disposable;
    hide Assigned;
    var code := AssignCode(DeepCopy, lhs, rhs, target, dispose, cls);
    forall cs, m, ext, regs, fuel | Assignable(cs, m, ext, regs, lhs, rhs, target, cls)
                                    && Run(cs, code, regs, m, fuel).Done?
                                    && (dispose ==> Disposable(cs, m, ext, regs, lhs, rhs, target, cls))
      ensures Assigned(Run(cs, code, regs, m, fuel), m, regs, lhs, rhs, target, false)
    {
      ClonedAssigned(cs, m, ext, regs, lhs, rhs, target, dispose, cls, fuel);
    }
  }

  // A value which is no object: the register is copied, no object is made and no count changes
  ghost predicate Copies(code: seq<Op>, lhs: nat, rhs: nat, target: Target) {
    forall cs: Classes, m: Memory, regs: seq<nat>, fuel: nat |
      Run(cs, code, regs, m, fuel).Done? && lhs < |regs| && rhs < |regs|
      && (target.Of? ==> target.self < |regs| && target.self != lhs) ::
      var o := Run(cs, code, regs, m, fuel);
      && o.regs == regs[lhs := regs[rhs]] && |o.mem| == |m|
      && (target.Of? ==> Ownership.Member(o.mem, regs, target, regs[rhs]))
      && forall p: nat :: IsLive(m, p) ==> IsLive(o.mem, p) && o.mem[p].obj.count == m[p].obj.count
  }

  lemma RawAssigns(lhs: nat, rhs: nat, target: Target, dispose: bool, cls: nat)
    requires lhs != rhs
    ensures Copies(AssignCode(RawRegister, lhs, rhs, target, dispose, cls), lhs, rhs, target)
  {
    var code := AssignCode(RawRegister, lhs, rhs, target, dispose, cls);
    forall cs: Classes, m: Memory, regs: seq<nat>, fuel: nat |
      Run(cs, code, regs, m, fuel).Done? && lhs < |regs| && rhs < |regs|
      && (target.Of? ==> target.self < |regs| && target.self != lhs)
      ensures var o := Run(cs, code, regs, m, fuel);
        && o.regs == regs[lhs := regs[rhs]] && |o.mem| == |m|
        && (target.Of? ==> Ownership.Member(o.mem, regs, target, regs[rhs]))
        && forall p: nat :: IsLive(m, p) ==> IsLive(o.mem, p) && o.mem[p].obj.count == m[p].obj.count
    {
      hide AssignCode;
      hide Run;
      RawCopies(cs, m, regs, lhs, rhs, target, dispose, cls, fuel);
    }
  }

  lemma InUse(cs: Classes, m: Memory, ext: multiset<nat>, regs: seq<nat>, lhs: nat, rhs: nat, target: Target, cls: nat)
    requires Assignable(cs, m, ext, regs, lhs, rhs, target, cls)
    ensures lhs < |regs| && rhs < |regs| && regs[rhs] < |m|
  {
    AssignableMeans(cs, m, ext, regs, lhs, rhs, target, cls);
    hide Assignable;
  }

  class Analyzer {
    var lvids: seq<Lvid>
    var out: seq<Op>

    constructor (registers: seq<Lvid>)
      ensures lvids == registers && out == []
    {
      lvids, out := registers, [];
    }

    method Emit(op: Op)
      modifies this`out
      ensures out == old(out) + [op]
    {
      out := out + [op];
    }

    // The old value is released by the register, and by the object when it is a member
    method EmitDispose(lhs: nat, target: Target, cls: nat, canDisposeLHS: bool)
      modifies this`out
      ensures out == old(out) + DisposeCode(lhs, target, canDisposeLHS, cls)
    {
      if canDisposeLHS {
        Emit(UnrefOp(lhs, cls));
        if target != Plain {
          Emit(UnrefOp(lhs, cls));
        }
      }
    }

    method EmitStore(lhs: nat, target: Target)
      modifies this`out
      ensures out == old(out) + StoreCode(lhs, target)
    {
      match target {
        case Of(self, field) =>
          Emit(RefOp(lhs));
          Emit(Fieldset(lhs, self, field));
        case Plain =>
      }
    }

    method InstanciateAssignment(lhs: nat, rhs: nat, canDisposeLHS: bool, forceDeepcopy: bool, acquirable: bool,
                                 cls: nat)
      returns (ok: bool)
      requires lhs < |lvids| && rhs < |lvids|
      modifies this
      ensures ok <==> lhs != 0 && rhs != 0 && lhs != rhs
      ensures !ok ==> out == old(out) && lvids == old(lvids)
      ensures ok ==>
        var strategy := StrategyFor(old(lvids)[lhs], old(lvids)[rhs], acquirable, forceDeepcopy);
        && out == old(out) + AssignCode(strategy, lhs, rhs, old(lvids)[lhs].target, canDisposeLHS, cls)
        && lvids == old(lvids)[lhs := old(lvids)[lhs].(
                      autorelease := acquirable || old(lvids)[lhs].autorelease,
                      memalloc := if strategy.DeepCopy? then true
                                  else if strategy.ByRef? then old(lvids)[rhs].memalloc else old(lvids)[lhs].memalloc,
                      returnedValue := if strategy.ByRef? then old(lvids)[rhs].returnedValue
                                       else old(lvids)[lhs].returnedValue)]
      ensures ok && acquirable ==>
        |out| >= |old(out)| && out[..|old(out)|] == old(out)
        && Assigns(out[|old(out)|..], lhs, rhs, old(lvids)[lhs].target, canDisposeLHS, cls,
                   !forceDeepcopy
                   && (old(lvids)[lhs].refQualifier || old(lvids)[rhs].memalloc || old(lvids)[rhs].returnedValue))
      ensures ok && !acquirable ==>
        |out| >= |old(out)| && out[..|old(out)|] == old(out)
        && Copies(out[|old(out)|..], lhs, rhs, old(lvids)[lhs].target)
    {
      hide AssignCode;
      hide Assigns;
      hide Copies;
      if lhs == 0 || rhs == 0 || lhs == rhs {
        return false;
      }
      var strategy := DeepCopy;
      if acquirable {
        if !forceDeepcopy {
          if lvids[lhs].refQualifier || lvids[rhs].memalloc || lvids[rhs].returnedValue {
            strategy := ByRef;
          }
        }
        lvids := lvids[lhs := lvids[lhs].(autorelease := true)];
      } else {
        strategy := RawRegister;
      }
      var target := lvids[lhs].target;
      match strategy {
        case RawRegister =>
          EmitRaw(lhs, rhs, target);
        case ByRef =>
          lvids := lvids[lhs := lvids[lhs].(memalloc := lvids[rhs].memalloc,
                                            returnedValue := lvids[rhs].returnedValue)];
          EmitRef(lhs, rhs, target, canDisposeLHS, cls);
        case DeepCopy =>
          lvids := lvids[lhs := lvids[lhs].(memalloc := true)];
          EmitDeep(lhs, rhs, target, canDisposeLHS, cls);
      }
      assert out == old(out) + AssignCode(strategy, lhs, rhs, target, canDisposeLHS, cls);
      assert out[|old(out)|..] == AssignCode(strategy, lhs, rhs, target, canDisposeLHS, cls);
      match strategy {
        case RawRegister => RawAssigns(lhs, rhs, target, canDisposeLHS, cls);
        case ByRef => RefAssigns(lhs, rhs, target, canDisposeLHS, cls);
        case DeepCopy => DeepAssigns(lhs, rhs, target, canDisposeLHS, cls);
      }
      return true;
    }

    method EmitRaw(lhs: nat, rhs: nat, target: Target)
      modifies this`out
      ensures forall dispose, cls :: out == old(out) + AssignCode(RawRegister, lhs, rhs, target, dispose, cls)
    {
      Emit(Copy(lhs, rhs));
      match target {
        case Of(self, field) => Emit(Fieldset(lhs, self, field));
        case Plain =>
      }
    }

    // The right value first, to make sure that all data are alive: 'a = a'
    method EmitRef(lhs: nat, rhs: nat, target: Target, canDisposeLHS: bool, cls: nat)
      modifies this`out
      ensures out == old(out) + AssignCode(ByRef, lhs, rhs, target, canDisposeLHS, cls)
    {
      hide DisposeCode;
      hide StoreCode;
      Emit(RefOp(rhs));
      EmitDispose(lhs, target, cls, canDisposeLHS);
      Emit(Copy(lhs, rhs));
      EmitStore(lhs, target);
      Together(old(out), [RefOp(rhs)], DisposeCode(lhs, target, canDisposeLHS, cls), [Copy(lhs, rhs)],
               StoreCode(lhs, target));
    }

    method EmitDeep(lhs: nat, rhs: nat, target: Target, canDisposeLHS: bool, cls: nat)
      modifies this`out
      ensures out == old(out) + AssignCode(DeepCopy, lhs, rhs, target, canDisposeLHS, cls)
    {
      hide DisposeCode;
      hide StoreCode;
      Emit(RefOp(rhs));
      EmitDispose(lhs, target, cls, canDisposeLHS);
      ghost var mid := out;
      Emit(New(lhs, cls));
      Emit(RefOp(lhs));
      Emit(Clone(lhs, rhs, cls));
      Emit(UnrefOp(rhs, cls));
      ghost var clone := [New(lhs, cls), RefOp(lhs), Clone(lhs, rhs, cls), UnrefOp(rhs, cls)];
      assert out == mid + clone;
      EmitStore(lhs, target);
      Together(old(out), [RefOp(rhs)], DisposeCode(lhs, target, canDisposeLHS, cls), clone, StoreCode(lhs, target));
    }
  }

  lemma Together(before: seq<Op>, a: seq<Op>, b: seq<Op>, c: seq<Op>, d: seq<Op>)
    ensures before + a + b + c + d == before + (a + (b + (c + d)))
  {
    assert before + a + b + c + d == before + a + b + (c + d);
    assert before + a + b + (c + d) == before + a + (b + (c + d));
  }
}
