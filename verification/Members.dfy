// The default destructor and the default 'clone' of a class: the code emitted for its members, and what it does. Also
// the VM instructions on counted objects.
module Members {
  import opened Isa
  import opened Heap
  import opened Assignment

  // Read a member; release a register; or an instruction of an assignment
  datatype Item = Get(lvid: nat, self: nat, field: nat) | Release(lvid: nat, cls: nat) | Do(op: Op)

  // ---- the code ----

  // 'self' is the register 2. Members which are no objects are skipped, registers are used one after the other.
  function DisposeMembers(members: seq<Member>, i: nat, lvid: nat): seq<Item>
    requires i <= |members|
    decreases |members| - i
  {
    if i == |members| then []
    else if members[i].Pod? then DisposeMembers(members, i + 1, lvid)
    else [Get(lvid, 2, i), Release(lvid, members[i].cls)] + DisposeMembers(members, i + 1, lvid + 1)
  }

  function Lift(ops: seq<Op>): (r: seq<Item>)
    ensures |r| == |ops| && forall k :: 0 <= k < |r| ==> r[k] == Do(ops[k])
  {
    seq(|ops|, k requires 0 <= k < |ops| => Do(ops[k]))
  }

  function StrategyOf(m: Member): Strategy
    requires m.Ref?
  {
    if m.shared then ByRef else DeepCopy
  }

  // The clone is the register 2, its model the register 3
  function CloneOne(m: Member, i: nat, lvid: nat): seq<Item> {
    if m.Pod? then [Get(lvid, 3, i), Do(Fieldset(lvid, 2, i))]
    else [Get(lvid, 3, i)] + Lift(AssignCode(StrategyOf(m), lvid + 1, lvid, Plain, false, m.cls))
         + [Do(Fieldset(lvid + 1, 2, i))]
  }

  function Width(m: Member): nat { if m.Pod? then 1 else 2 }

  function CloneAll(members: seq<Member>, i: nat, lvid: nat): seq<Item>
    requires i <= |members|
    decreases |members| - i
  {
    if i == |members| then []
    else CloneOne(members[i], i, lvid) + CloneAll(members, i + 1, lvid + Width(members[i]))
  }

  class Generator {
    var out: seq<Item>
    var lvid: nat

    constructor (firstLocal: nat)
      ensures out == [] && lvid == firstLocal
    {
      out, lvid := [], firstLocal;
    }

    method ProduceMemberVarDefaultDispose(members: seq<Member>)
      modifies this
      ensures out == old(out) + DisposeMembers(members, 0, old(lvid))
    {
      var i := 0;
      assert out + DisposeMembers(members, 0, lvid) == old(out) + DisposeMembers(members, 0, old(lvid));
      while i < |members|
        invariant i <= |members|
        invariant out + DisposeMembers(members, i, lvid) == old(out) + DisposeMembers(members, 0, old(lvid))
      {
        if members[i] != Pod {
          var reglvid := lvid;
          lvid := lvid + 1;
          ghost var rest := DisposeMembers(members, i + 1, lvid);
          out := out + [Get(reglvid, 2, i)];
          out := out + [Release(reglvid, members[i].cls)];
          Shift(old(out) + DisposeMembers(members, 0, old(lvid)), out, [Get(reglvid, 2, i)],
                [Release(reglvid, members[i].cls)], rest);
        }
        i := i + 1;
      }
      assert out + [] == out;
    }

    method ProduceMemberVarDefaultClone(members: seq<Member>)
      modifies this
      ensures out == old(out) + CloneAll(members, 0, old(lvid))
    {
      hide CloneOne;
      var i := 0;
      while i < |members|
        invariant i <= |members|
        invariant out + CloneAll(members, i, lvid) == old(out) + CloneAll(members, 0, old(lvid))
      {
        ghost var start, n := out, lvid;
        ProduceClone(members[i], i);
        assert start + CloneAll(members, i, n) == out + CloneAll(members, i + 1, lvid);
        i := i + 1;
      }
      assert out + [] == out;
    }

    method ProduceClone(m: Member, i: nat)
      modifies this
      ensures out == old(out) + CloneOne(m, i, old(lvid)) && lvid == old(lvid) + Width(m)
    {
      hide AssignCode;
      match m {
        case Ref(cls, shared) =>
          var rhsptr := lvid;
          var lhsptr := lvid + 1;
          lvid := lvid + 2;
          out := out + [Get(rhsptr, 3, i)];
          out := out + Lift(AssignCode(if shared then ByRef else DeepCopy, lhsptr, rhsptr, Plain, false, cls));
          out := out + [Do(Fieldset(lhsptr, 2, i))];
        case Pod =>
          out := out + [Get(lvid, 3, i)];
          out := out + [Do(Fieldset(lvid, 2, i))];
          lvid := lvid + 1;
      }
    }
  }

  lemma Shift(all: seq<Item>, now: seq<Item>, a: seq<Item>, b: seq<Item>, rest: seq<Item>)
    requires |now| >= |a| + |b| && now[|now| - |b|..] == b && now[|now| - |b| - |a|..|now| - |b|] == a
    requires all == now[..|now| - |b| - |a|] + (a + b + rest)
    ensures now + rest == all
  {
    assert now == now[..|now| - |b| - |a|] + a + b;
  }

  // ---- its execution ----

  function RunItem(cs: Classes, i: Item, regs: seq<nat>, m: Memory, fuel: nat): Outcome {
    match i
    case Get(lvid, self, field) =>
      if lvid >= |regs| || self >= |regs| || !IsLive(m, regs[self]) || field >= |m[regs[self]].obj.fields|
      then Fault(UnknownPointer)
      else Done(regs[lvid := m[regs[self]].obj.fields[field]], m)
    case Release(lvid, cls) =>
      if lvid >= |regs| then Fault(UnknownPointer)
      else (match Unref(cs, m, regs[lvid], cls, fuel)
            case Ok(m1) => Done(regs, m1)
            case Failed(f) => Fault(f))
    case Do(op) => RunOp(cs, op, regs, m, fuel)
  }

  function RunItems(cs: Classes, items: seq<Item>, regs: seq<nat>, m: Memory, fuel: nat): Outcome
    decreases |items|
  {
    if items == [] then Done(regs, m)
    else match RunItem(cs, items[0], regs, m, fuel)
         case Fault(f) => Fault(f)
         case Done(regs1, m1) => RunItems(cs, items[1..], regs1, m1, fuel)
  }

  lemma {:induction false} RunItemsCat(cs: Classes, a: seq<Item>, b: seq<Item>, regs: seq<nat>, m: Memory, fuel: nat)
    ensures RunItems(cs, a + b, regs, m, fuel)
         == (match RunItems(cs, a, regs, m, fuel)
             case Fault(f) => Fault(f)
             case Done(regs1, m1) => RunItems(cs, b, regs1, m1, fuel))
    decreases |a|
  {
    if a == [] {
      assert a + b == b;
    } else {
      assert (a + b)[0] == a[0] && (a + b)[1..] == a[1..] + b;
      hide RunItem;
      match RunItem(cs, a[0], regs, m, fuel)
      case Fault(f) =>
      case Done(regs1, m1) => RunItemsCat(cs, a[1..], b, regs1, m1, fuel);
    }
  }

  lemma {:induction false} RunLift(cs: Classes, ops: seq<Op>, regs: seq<nat>, m: Memory, fuel: nat)
    ensures RunItems(cs, Lift(ops), regs, m, fuel) == Run(cs, ops, regs, m, fuel)
    decreases |ops|
  {
    if ops != [] {
      hide RunOp;
      assert Lift(ops)[1..] == Lift(ops[1..]);
      match RunOp(cs, ops[0], regs, m, fuel)
      case Fault(f) =>
      case Done(regs1, m1) => RunLift(cs, ops[1..], regs1, m1, fuel);
    }
  }

  lemma RunItemsTwo(cs: Classes, a: Item, b: Item, regs: seq<nat>, m: Memory, fuel: nat)
    ensures RunItems(cs, [a, b], regs, m, fuel)
         == (match RunItem(cs, a, regs, m, fuel)
             case Fault(f) => Fault(f)
             case Done(regs1, m1) => RunItem(cs, b, regs1, m1, fuel))
  {
    hide RunItem;
    RunItemsOne(cs, a, regs, m, fuel);
    assert [a, b] == [a] + [b];
    RunItemsCat(cs, [a], [b], regs, m, fuel);
    match RunItem(cs, a, regs, m, fuel)
    case Fault(f) =>
    case Done(regs1, m1) => RunItemsOne(cs, b, regs1, m1, fuel);
  }

  lemma RunItemsOne(cs: Classes, a: Item, regs: seq<nat>, m: Memory, fuel: nat)
    ensures RunItems(cs, [a], regs, m, fuel) == RunItem(cs, a, regs, m, fuel)
  {
    hide RunItem;
    assert [a][1..] == [];
  }

  function Pointers(members: seq<Member>, i: nat): nat
    requires i <= |members|
    decreases |members| - i
  {
    if i == |members| then 0 else Pointers(members, i + 1) + if members[i].Ref? then 1 else 0
  }

  ghost predicate Same(o: Outcome, r: Result) {
    match o
    case Done(_, m) => r == Ok(m)
    case Fault(f) => r == Failed(f)
  }

  // The emitted destructor releases every member which is an object, in order, and stops at the first failure
  lemma {:induction false} DisposeRuns(cs: Classes, cls: nat, i: nat, lvid: nat, regs: seq<nat>, m: Memory, p: nat,
                                       fuel: nat)
    requires cls < |cs| && i <= |cs[cls]| && lvid > 2 && |regs| >= lvid + Pointers(cs[cls], i) && regs[2] == p
    ensures Same(RunItems(cs, DisposeMembers(cs[cls], i, lvid), regs, m, fuel), ReleaseMembers(cs, m, p, cls, i, fuel))
    decreases |cs[cls]| - i
  {
    hide Unref;
    hide RunItems;
    var members := cs[cls];
    if i == |members| {
      NoItems(cs, regs, m, fuel);
    } else if members[i].Pod? {
      DisposeRuns(cs, cls, i + 1, lvid, regs, m, p, fuel);
    } else {
      var a, b := Get(lvid, 2, i), Release(lvid, members[i].cls);
      RunItemsCat(cs, [a, b], DisposeMembers(members, i + 1, lvid + 1), regs, m, fuel);
      RunItemsTwo(cs, a, b, regs, m, fuel);
      if IsLive(m, p) && i < |m[p].obj.fields| {
        var regs1 := regs[lvid := m[p].obj.fields[i]];
        match Unref(cs, m, m[p].obj.fields[i], members[i].cls, fuel)
        case Failed(f) =>
        case Ok(m1) => DisposeRuns(cs, cls, i + 1, lvid + 1, regs1, m1, p, fuel);
      }
    }
  }

  lemma NoItems(cs: Classes, regs: seq<nat>, m: Memory, fuel: nat)
    ensures RunItems(cs, [], regs, m, fuel) == Done(regs, m)
  {
  }

  function Widths(members: seq<Member>, i: nat): nat
    requires i <= |members|
    decreases |members| - i
  {
    if i == |members| then 0 else Width(members[i]) + Widths(members, i + 1)
  }

  // The value of a member, copied or cloned into the next register
  lemma MemberRuns(cs: Classes, member: Member, lvid: nat, regs: seq<nat>, m: Memory, fuel: nat)
    requires member.Ref? && lvid + 1 < |regs| && fuel > 0
    ensures match Run(cs, AssignCode(StrategyOf(member), lvid + 1, lvid, Plain, false, member.cls), regs, m, fuel - 1)
            case Done(regs1, m1) =>
              |regs1| == |regs| && regs1 == regs[lvid + 1 := regs1[lvid + 1]]
              && CloneMember(cs, m, regs[lvid], member, fuel) == Got(regs1[lvid + 1], m1)
            case Fault(f) => CloneMember(cs, m, regs[lvid], member, fuel) == Lost(f)
  {
    hide Run;
    hide CloneMembers;
    hide Unref;
    var code := AssignCode(StrategyOf(member), lvid + 1, lvid, Plain, false, member.cls);
    if member.shared {
      assert code == [RefOp(lvid), Copy(lvid + 1, lvid)];
      RunTwo(cs, code[0], code[1], regs, m, fuel - 1);
    } else {
      assert code == [RefOp(lvid), New(lvid + 1, member.cls)]
                     + [RefOp(lvid + 1), Clone(lvid + 1, lvid, member.cls)] + [UnrefOp(lvid, member.cls)];
      DeepRuns(cs, member, lvid, regs, m, fuel);
    }
  }

  lemma RunTwo(cs: Classes, a: Op, b: Op, regs: seq<nat>, m: Memory, fuel: nat)
    ensures Run(cs, [a, b], regs, m, fuel)
         == (match RunOp(cs, a, regs, m, fuel)
             case Fault(f) => Fault(f)
             case Done(regs1, m1) => RunOp(cs, b, regs1, m1, fuel))
  {
    hide RunOp;
    assert [a, b][1..] == [b];
    match RunOp(cs, a, regs, m, fuel)
    case Fault(f) =>
    case Done(regs1, m1) => RunSingle(cs, b, regs1, m1, fuel);
  }

  lemma RunSingle(cs: Classes, a: Op, regs: seq<nat>, m: Memory, fuel: nat)
    ensures Run(cs, [a], regs, m, fuel) == RunOp(cs, a, regs, m, fuel)
  {
    hide RunOp;
    assert [a][1..] == [];
  }

  lemma DeepRuns(cs: Classes, member: Member, lvid: nat, regs: seq<nat>, m: Memory, fuel: nat)
    requires member.Ref? && !member.shared && lvid + 1 < |regs| && fuel > 0
    ensures match Run(cs, [RefOp(lvid), New(lvid + 1, member.cls)]
                          + [RefOp(lvid + 1), Clone(lvid + 1, lvid, member.cls)] + [UnrefOp(lvid, member.cls)],
                      regs, m, fuel - 1)
            case Done(regs1, m1) =>
              |regs1| == |regs| && regs1 == regs[lvid + 1 := regs1[lvid + 1]]
              && CloneMember(cs, m, regs[lvid], member, fuel) == Got(regs1[lvid + 1], m1)
            case Fault(f) => CloneMember(cs, m, regs[lvid], member, fuel) == Lost(f)
  {
    hide Run;
    hide CloneMembers;
    hide Unref;
    var cls := member.cls;
    var a, b := [RefOp(lvid), New(lvid + 1, cls)], [RefOp(lvid + 1), Clone(lvid + 1, lvid, cls)];
    var c := [UnrefOp(lvid, cls)];
    RunCat(cs, a + b, c, regs, m, fuel - 1);
    RunCat(cs, a, b, regs, m, fuel - 1);
    RunTwo(cs, a[0], a[1], regs, m, fuel - 1);
    if AddRef(m, regs[lvid]).Ok? && cls < |cs| {
      var m1 := AddRef(m, regs[lvid]).mem;
      var regs1 := regs[lvid + 1 := |m1|];
      RunTwo(cs, b[0], b[1], regs1, Allocate(cs, m1, cls), fuel - 1);
      var r2 := AddRef(Allocate(cs, m1, cls), |m1|);
      if r2.Ok? {
        var r3 := CloneMembers(cs, r2.mem, |m1|, regs[lvid], cls, 0, fuel - 1);
        if r3.Ok? {
          RunSingle(cs, c[0], regs1, r3.mem, fuel - 1);
        }
      }
    }
  }

  // The emitted clone copies every member in order: values, shared objects, and clones of the other objects
  lemma {:induction false} CloneRuns(cs: Classes, cls: nat, i: nat, lvid: nat, regs: seq<nat>, m: Memory, c: nat,
                                     b: nat, fuel: nat)
    requires cls < |cs| && i <= |cs[cls]| && lvid > 3 && |regs| >= lvid + Widths(cs[cls], i) && fuel > 0
    requires regs[2] == c && regs[3] == b
    ensures Same(RunItems(cs, CloneAll(cs[cls], i, lvid), regs, m, fuel - 1), CloneMembers(cs, m, c, b, cls, i, fuel))
    decreases |cs[cls]| - i
  {
    hide RunItems;
    hide CloneMember;
    var members := cs[cls];
    if i == |members| {
      NoItems(cs, regs, m, fuel - 1);
    } else {
      var next := lvid + Width(members[i]);
      RunItemsCat(cs, CloneOne(members[i], i, lvid), CloneAll(members, i + 1, next), regs, m, fuel - 1);
      CloneOneRuns(cs, cls, i, lvid, regs, m, c, b, fuel);
      if IsLive(m, b) && i < |m[b].obj.fields| {
        match CloneMember(cs, m, m[b].obj.fields[i], members[i], fuel)
        case Lost(f) =>
        case Got(v, m1) =>
          match SetField(m1, c, i, v)
          case Failed(f) =>
          case Ok(m2) =>
            var regs1 := RunItems(cs, CloneOne(members[i], i, lvid), regs, m, fuel - 1).regs;
            CloneRuns(cs, cls, i + 1, next, regs1, m2, c, b, fuel);
      }
    }
  }

  // What one member gives: a failure of the read, of its copy or of the write
  function OneMember(cs: Classes, m: Memory, c: nat, b: nat, member: Member, i: nat, fuel: nat): Result {
    if !IsLive(m, b) || i >= |m[b].obj.fields| then Failed(UnknownPointer)
    else match CloneMember(cs, m, m[b].obj.fields[i], member, fuel)
         case Lost(f) => Failed(f)
         case Got(v, m1) => SetField(m1, c, i, v)
  }

  lemma PodCloned(cs: Classes, m: Memory, c: nat, b: nat, member: Member, i: nat, fuel: nat)
    requires member.Pod?
    ensures OneMember(cs, m, c, b, member, i, fuel)
         == if !IsLive(m, b) || i >= |m[b].obj.fields| then Failed(UnknownPointer)
            else SetField(m, c, i, m[b].obj.fields[i])
  {
  }

  lemma CloneOneRuns(cs: Classes, cls: nat, i: nat, lvid: nat, regs: seq<nat>, m: Memory, c: nat, b: nat, fuel: nat)
    requires cls < |cs| && i < |cs[cls]| && lvid > 3 && |regs| >= lvid + Width(cs[cls][i]) && fuel > 0
    requires regs[2] == c && regs[3] == b
    ensures var o := RunItems(cs, CloneOne(cs[cls][i], i, lvid), regs, m, fuel - 1);
      Same(o, OneMember(cs, m, c, b, cs[cls][i], i, fuel))
      && (o.Done? ==> |o.regs| == |regs| && o.regs[2] == c && o.regs[3] == b)
  {
    hide *;
    WidthIs(cs[cls][i]);
    if cs[cls][i].Pod? {
      PodRuns(cs, cs[cls][i], i, lvid, regs, m, c, b, fuel);
    } else {
      RefRuns(cs, cs[cls][i], i, lvid, regs, m, c, b, fuel);
    }
  }

  lemma WidthIs(m: Member)
    ensures Width(m) == if m.Pod? then 1 else 2
  {
  }

  lemma GetIs(cs: Classes, lvid: nat, field: nat, regs: seq<nat>, m: Memory, fuel: nat)
    requires 3 < lvid < |regs|
    ensures RunItem(cs, Get(lvid, 3, field), regs, m, fuel)
         == if IsLive(m, regs[3]) && field < |m[regs[3]].obj.fields| then
              Done(regs[lvid := m[regs[3]].obj.fields[field]], m)
            else Fault(UnknownPointer)
  {
  }

  lemma PutIs(cs: Classes, lvid: nat, field: nat, regs: seq<nat>, m: Memory, fuel: nat)
    requires 3 < lvid < |regs|
    ensures var r := SetField(m, regs[2], field, regs[lvid]);
      RunItem(cs, Do(Fieldset(lvid, 2, field)), regs, m, fuel)
      == if r.Ok? then Done(regs, r.mem) else Fault(r.fault)
  {
    hide SetField;
  }

  lemma PodRuns(cs: Classes, member: Member, i: nat, lvid: nat, regs: seq<nat>, m: Memory, c: nat, b: nat, fuel: nat)
    requires member.Pod? && 3 < lvid < |regs| && regs[2] == c && regs[3] == b && fuel > 0
    ensures var o := RunItems(cs, CloneOne(member, i, lvid), regs, m, fuel - 1);
      Same(o, OneMember(cs, m, c, b, member, i, fuel))
      && (o.Done? ==> |o.regs| == |regs| && o.regs[2] == c && o.regs[3] == b)
  {
    hide RunItems;
    hide RunItem;
    hide SetField;
    hide OneMember;
    PodCloned(cs, m, c, b, member, i, fuel);
    RunItemsTwo(cs, Get(lvid, 3, i), Do(Fieldset(lvid, 2, i)), regs, m, fuel - 1);
    GetIs(cs, lvid, i, regs, m, fuel - 1);
    if IsLive(m, b) && i < |m[b].obj.fields| {
      PutIs(cs, lvid, i, regs[lvid := m[b].obj.fields[i]], m, fuel - 1);
    }
  }

  lemma RefCloned(cs: Classes, m: Memory, c: nat, b: nat, member: Member, i: nat, fuel: nat)
    ensures OneMember(cs, m, c, b, member, i, fuel)
         == if !IsLive(m, b) || i >= |m[b].obj.fields| then Failed(UnknownPointer)
            else match CloneMember(cs, m, m[b].obj.fields[i], member, fuel)
                 case Lost(f) => Failed(f)
                 case Got(v, m1) => SetField(m1, c, i, v)
  {
    hide CloneMember;
  }

  lemma RefRuns(cs: Classes, member: Member, i: nat, lvid: nat, regs: seq<nat>, m: Memory, c: nat, b: nat, fuel: nat)
    requires member.Ref? && 3 < lvid && lvid + 1 < |regs| && regs[2] == c && regs[3] == b && fuel > 0
    ensures var o := RunItems(cs, CloneOne(member, i, lvid), regs, m, fuel - 1);
      Same(o, OneMember(cs, m, c, b, member, i, fuel))
      && (o.Done? ==> |o.regs| == |regs| && o.regs[2] == c && o.regs[3] == b)
  {
    hide RunItems;
    hide RunItem;
    hide SetField;
    hide OneMember;
    hide CloneMember;
    hide AssignCode;
    hide Run;
    RefCloned(cs, m, c, b, member, i, fuel);
    var assign := AssignCode(StrategyOf(member), lvid + 1, lvid, Plain, false, member.cls);
    var last := [Do(Fieldset(lvid + 1, 2, i))];
    RunItemsCat(cs, [Get(lvid, 3, i)] + Lift(assign), last, regs, m, fuel - 1);
    RunItemsCat(cs, [Get(lvid, 3, i)], Lift(assign), regs, m, fuel - 1);
    RunItemsOne(cs, Get(lvid, 3, i), regs, m, fuel - 1);
    GetIs(cs, lvid, i, regs, m, fuel - 1);
    if IsLive(m, b) && i < |m[b].obj.fields| {
      var regs1 := regs[lvid := m[b].obj.fields[i]];
      RunLift(cs, assign, regs1, m, fuel - 1);
      MemberRuns(cs, member, lvid, regs1, m, fuel);
      match Run(cs, assign, regs1, m, fuel - 1)
      case Fault(f) =>
      case Done(regs2, m2) =>
        RunItemsOne(cs, last[0], regs2, m2, fuel - 1);
        PutIs(cs, lvid + 1, i, regs2, m2, fuel - 1);
    }
  }

  // ---- the VM ----

  class Executor {
    const classes: Classes
    var memory: Memory

    constructor (cs: Classes, m: Memory)
      ensures classes == cs && memory == m
    {
      classes, memory := cs, m;
    }

    method VisitRef(p: nat) returns (r: Option<Heap.Fault>)
      modifies this
      ensures Reflects(r, AddRef(old(memory), p))
    {
      if !IsLive(memory, p) {
        return Some(UnknownPointer);
      }
      if memory[p].obj.count == U64_SIZE - 1 {
        return Some(TooMany);
      }
      memory := WithCount(memory, p, memory[p].obj.count + 1);
      return None;
    }

    ghost predicate Reflects(r: Option<Heap.Fault>, s: Result)
      reads this
    {
      match r
      case None => s == Ok(memory)
      case Some(f) => s == Failed(f)
    }

    // The depth of the cascade is bounded by the native stack
    method VisitUnref(p: nat, cls: nat, depth: nat) returns (r: Option<Heap.Fault>)
      modifies this
      ensures Reflects(r, Unref(classes, old(memory), p, cls, depth))
      decreases depth, 2, 0
    {
      if !IsLive(memory, p) {
        return Some(UnknownPointer);
      }
      memory := WithCount(memory, p, (memory[p].obj.count - 1) % U64_SIZE);
      if memory[p].obj.count != 0 {
        return None;
      }
      if depth == 0 {
        return Some(TooDeep);
      }
      r := Destroy(p, cls, depth - 1);
    }

    method Destroy(p: nat, cls: nat, depth: nat) returns (r: Option<Heap.Fault>)
      modifies this
      ensures Reflects(r, Heap.Destroy(classes, old(memory), p, cls, depth))
      decreases depth, 4, 0
    {
      if cls >= |classes| {
        return Some(PointerMismatch);
      }
      r := CallDispose(p, cls, depth);
      if r.Some? {
        return;
      }
      if !IsLive(memory, p) || |memory[p].obj.fields| != |classes[cls]| {
        return Some(PointerMismatch);
      }
      memory := memory[p := Free];
    }

    // The default destructor of the class
    method CallDispose(p: nat, cls: nat, depth: nat) returns (r: Option<Heap.Fault>)
      requires cls < |classes|
      modifies this
      ensures Reflects(r, ReleaseMembers(classes, old(memory), p, cls, 0, depth))
      decreases depth, 3, 0
    {
      hide Unref;
      var i := 0;
      ghost var all := ReleaseMembers(classes, memory, p, cls, 0, depth);
      while i < |classes[cls]|
        invariant i <= |classes[cls]|
        invariant all == ReleaseMembers(classes, memory, p, cls, i, depth)
      {
        if classes[cls][i] != Pod {
          if !IsLive(memory, p) || i >= |memory[p].obj.fields| {
            return Some(UnknownPointer);
          }
          r := VisitUnref(memory[p].obj.fields[i], classes[cls][i].cls, depth);
          if r.Some? {
            return;
          }
        }
        i := i + 1;
      }
      r := None;
    }
  }
}
