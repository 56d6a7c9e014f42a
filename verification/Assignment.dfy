// Assignments: the code emitted for each strategy, and what each of its instructions does to the registers and to the
// counted objects. An object being built is open: it owns nothing until it is closed, and its members are references
// of their own in the meantime.
module Assignment {
  import opened Isa
  import opened Heap
  import opened Cascade

  // ---- the code ----

  // The instructions of an assignment. 'New' is an allocation, 'Clone' the call of a default 'clone' operator.
  datatype Op =
    | RefOp(lvid: nat)
    | UnrefOp(lvid: nat, cls: nat)
    | Copy(lvid: nat, source: nat)
    | Fieldset(lvid: nat, self: nat, field: nat)
    | New(lvid: nat, cls: nat)
    | Clone(lvid: nat, source: nat, cls: nat)

  datatype Strategy = RawRegister | ByRef | DeepCopy

  // A member of the object held by the register 'self', or a plain variable
  datatype Target = Plain | Of(self: nat, field: nat)

  // 'lhs = rhs', where the objects are of class 'cls'
  function AssignCode(strategy: Strategy, lhs: nat, rhs: nat, target: Target, dispose: bool, cls: nat): seq<Op> {
    match strategy
    case RawRegister => [Copy(lhs, rhs)] + if target.Of? then [Fieldset(lhs, target.self, target.field)] else []
    case ByRef => [RefOp(rhs)] + (DisposeCode(lhs, target, dispose, cls) + ([Copy(lhs, rhs)] + StoreCode(lhs, target)))
    case DeepCopy =>
      [RefOp(rhs)] + (DisposeCode(lhs, target, dispose, cls)
                      + ([New(lhs, cls), RefOp(lhs), Clone(lhs, rhs, cls), UnrefOp(rhs, cls)] + StoreCode(lhs, target)))
  }

  // The old value is released by the register, and by the object when it is a member
  function DisposeCode(lhs: nat, target: Target, dispose: bool, cls: nat): seq<Op> {
    if !dispose then [] else if target.Of? then [UnrefOp(lhs, cls), UnrefOp(lhs, cls)] else [UnrefOp(lhs, cls)]
  }

  function StoreCode(lhs: nat, target: Target): seq<Op> {
    if target.Of? then [RefOp(lhs), Fieldset(lhs, target.self, target.field)] else []
  }

  // ---- its execution ----

  datatype Outcome = Done(regs: seq<nat>, mem: Memory) | Fault(fault: Fault)

  function AddRef(m: Memory, p: nat): Result {
    if !IsLive(m, p) then Failed(UnknownPointer)
    else if m[p].obj.count == U64_SIZE - 1 then Failed(TooMany)
    else Ok(WithCount(m, p, m[p].obj.count + 1))
  }

  // A reference is refused on a dead object, and when the 64 bits of the count would overflow
  lemma RefIsExact(m: Memory, p: nat)
    ensures AddRef(m, p) == Failed(UnknownPointer) <==> !IsLive(m, p)
    ensures AddRef(m, p).Failed? && IsLive(m, p) <==> IsLive(m, p) && m[p].obj.count == 0xFFFF_FFFF_FFFF_FFFF
    ensures AddRef(m, p).Ok? ==>
      forall q: nat :: q < |m| ==>
        AddRef(m, p).mem[q] == if q == p then Live(m[p].obj.(count := m[p].obj.count + 1)) else m[q]
  {
  }

  function SetField(m: Memory, p: nat, i: nat, v: nat): Result {
    if !IsLive(m, p) || i >= |m[p].obj.fields| then Failed(UnknownPointer)
    else Ok(m[p := Live(m[p].obj.(fields := m[p].obj.fields[i := v]))])
  }

  // The members of a fresh object are null until they are written
  function Allocate(cs: Classes, m: Memory, cls: nat): Memory
    requires cls < |cs|
  {
    m + [Live(Object(cls, 0, seq(|cs[cls]|, _ => 0)))]
  }

  datatype Value = Got(v: nat, mem: Memory) | Lost(fault: Fault)

  // The default 'clone': member by member. The members which are not shared are cloned in turn.
  function CloneMembers(cs: Classes, m: Memory, c: nat, b: nat, cls: nat, i: nat, fuel: nat): Result
    requires cls < |cs| && i <= |cs[cls]|
    decreases fuel, 1, |cs[cls]| - i
  {
    if i == |cs[cls]| then Ok(m)
    else if !IsLive(m, b) || i >= |m[b].obj.fields| then Failed(UnknownPointer)
    else match CloneMember(cs, m, m[b].obj.fields[i], cs[cls][i], fuel)
         case Lost(f) => Failed(f)
         case Got(v, m1) =>
           match SetField(m1, c, i, v)
           case Failed(f) => Failed(f)
           case Ok(m2) => CloneMembers(cs, m2, c, b, cls, i + 1, fuel)
  }

  // The value of a member for the clone
  function CloneMember(cs: Classes, m: Memory, v: nat, member: Member, fuel: nat): Value
    decreases fuel, 0, 1
  {
    if member.Pod? then Got(v, m)
    else match AddRef(m, v)
         case Failed(f) => Lost(f)
         case Ok(m1) => if member.shared then Got(v, m1) else CloneDeep(cs, m1, v, member.cls, fuel)
  }

  // A fresh object, acquired, filled by 'clone'; then the source is released
  function CloneDeep(cs: Classes, m: Memory, v: nat, cls: nat, fuel: nat): Value
    decreases fuel, 0, 0
  {
    if cls >= |cs| then Lost(PointerMismatch)
    else if fuel == 0 then Lost(TooDeep)
    else
      var d := |m|;
      match AddRef(Allocate(cs, m, cls), d)
      case Failed(f) => Lost(f)
      case Ok(m1) =>
        match CloneMembers(cs, m1, d, v, cls, 0, fuel - 1)
        case Failed(f) => Lost(f)
        case Ok(m2) =>
          match Unref(cs, m2, v, cls, |m2|)
          case Failed(f) => Lost(f)
          case Ok(m3) => Got(d, m3)
  }

  function RunOp(cs: Classes, op: Op, regs: seq<nat>, m: Memory, fuel: nat): Outcome {
    match op
    case RefOp(lvid) =>
      if lvid >= |regs| then Fault(UnknownPointer)
      else (match AddRef(m, regs[lvid])
            case Ok(m1) => Done(regs, m1)
            case Failed(f) => Fault(f))
    case UnrefOp(lvid, cls) =>
      if lvid >= |regs| then Fault(UnknownPointer)
      else (match Unref(cs, m, regs[lvid], cls, |m|)
            case Ok(m1) => Done(regs, m1)
            case Failed(f) => Fault(f))
    case Copy(lvid, source) =>
      if lvid >= |regs| || source >= |regs| then Fault(UnknownPointer) else Done(regs[lvid := regs[source]], m)
    case Fieldset(lvid, self, field) =>
      if lvid >= |regs| || self >= |regs| then Fault(UnknownPointer)
      else (match SetField(m, regs[self], field, regs[lvid])
            case Ok(m1) => Done(regs, m1)
            case Failed(f) => Fault(f))
    case New(lvid, cls) =>
      if lvid >= |regs| || cls >= |cs| then Fault(PointerMismatch)
      else Done(regs[lvid := |m|], Allocate(cs, m, cls))
    case Clone(lvid, source, cls) =>
      if lvid >= |regs| || source >= |regs| || cls >= |cs| then Fault(UnknownPointer)
      else (match CloneMembers(cs, m, regs[lvid], regs[source], cls, 0, fuel)
            case Ok(m1) => Done(regs, m1)
            case Failed(f) => Fault(f))
  }

  function Run(cs: Classes, ops: seq<Op>, regs: seq<nat>, m: Memory, fuel: nat): Outcome
    decreases |ops|
  {
    if ops == [] then Done(regs, m)
    else match RunOp(cs, ops[0], regs, m, fuel)
         case Fault(f) => Fault(f)
         case Done(regs1, m1) => Run(cs, ops[1..], regs1, m1, fuel)
  }

  lemma {:induction false} RunCat(cs: Classes, a: seq<Op>, b: seq<Op>, regs: seq<nat>, m: Memory, fuel: nat)
    ensures Run(cs, a + b, regs, m, fuel)
         == (match Run(cs, a, regs, m, fuel)
             case Fault(f) => Fault(f)
             case Done(regs1, m1) => Run(cs, b, regs1, m1, fuel))
    decreases |a|
  {
    if a == [] {
      assert a + b == b;
    } else {
      assert (a + b)[1..] == a[1..] + b;
      match RunOp(cs, a[0], regs, m, fuel)
      case Fault(f) =>
      case Done(regs1, m1) => RunCat(cs, a[1..], b, regs1, m1, fuel);
    }
  }

  // ---- the memory after each operation ----

  lemma RefBalanced(cs: Classes, m: Memory, ext: multiset<nat>, z: set<nat>, p: nat)
    requires Balanced(cs, m, ext, z) && AddRef(m, p).Ok?
    ensures Balanced(cs, AddRef(m, p).mem, ext + multiset{p}, z)
  {
    var m' := AddRef(m, p).mem;
    CountKeepsOwns(cs, m, z, p, m[p].obj.count + 1);
    forall q | 0 <= q < |m'| && m'[q].Live?
      ensures m'[q].obj.count == (ext + multiset{p})[q] + Owners(cs, m', z, q, |m'|)
    {
      OwnersSame(cs, m, z, m', z, q, |m|);
    }
    hide Owners;
    hide Owns;
    assert forall q :: 0 <= q < |m'| && m'[q].Live? && q !in z ==> Typed(cs, m, m[q].obj);
  }

  // An object is opened: its members become references of their own
  lemma Open(cs: Classes, m: Memory, ext: multiset<nat>, z: set<nat>, s: nat)
    requires Balanced(cs, m, ext, z) && IsLive(m, s) && s !in z
    ensures Balanced(cs, m, ext + multiset(Owned(cs, m[s].obj, 0)), z + {s})
  {
    forall q | 0 <= q < |m| && m[q].Live?
      ensures m[q].obj.count == (ext + multiset(Owned(cs, m[s].obj, 0)))[q] + Owners(cs, m, z + {s}, q, |m|)
    {
      OwnersChange(cs, m, z, m, z + {s}, s, q, |m|);
      OwnersAtLeast(cs, m, z, s, q, |m|);
    }
    OwnedLive(cs, m, m[s].obj, 0);
    hide Owners;
    hide Owned;
    forall q: nat | q in ext + multiset(Owned(cs, m[s].obj, 0))
      ensures IsLive(m, q)
    {
      assert q in ext || q in Owned(cs, m[s].obj, 0);
    }
  }

  // An open object with all its members is closed: it owns them
  lemma Close(cs: Classes, m: Memory, ext: multiset<nat>, z: set<nat>, s: nat)
    requires s in z && IsLive(m, s) && Typed(cs, m, m[s].obj)
    requires Balanced(cs, m, ext + multiset(Owned(cs, m[s].obj, 0)), z)
    ensures Balanced(cs, m, ext, z - {s})
  {
    forall q | 0 <= q < |m| && m[q].Live?
      ensures m[q].obj.count == ext[q] + Owners(cs, m, z - {s}, q, |m|)
    {
      OwnersChange(cs, m, z, m, z - {s}, s, q, |m|);
    }
    hide Owners;
    hide Owned;
    forall q: nat | q in ext
      ensures IsLive(m, q)
    {
      assert q in ext + multiset(Owned(cs, m[s].obj, 0));
    }
  }

  // A member of an open object is written
  lemma SetOpen(cs: Classes, m: Memory, ext: multiset<nat>, z: set<nat>, s: nat, i: nat, v: nat)
    requires Balanced(cs, m, ext, z) && s in z && SetField(m, s, i, v).Ok?
    ensures Balanced(cs, SetField(m, s, i, v).mem, ext, z)
  {
    var m' := SetField(m, s, i, v).mem;
    forall q | 0 <= q < |m'| && m'[q].Live?
      ensures m'[q].obj.count == ext[q] + Owners(cs, m', z, q, |m'|)
    {
      OwnersSame(cs, m, z, m', z, q, |m|);
    }
    hide Owners;
    forall q | 0 <= q < |m'| && m'[q].Live? && q !in z
      ensures Typed(cs, m', m'[q].obj)
    {
      assert Typed(cs, m, m[q].obj);
    }
  }

  lemma {:induction false} OwnedAreLive(cs: Classes, m: Memory, ext: multiset<nat>, z: set<nat>, x: nat, p: nat)
    requires Balanced(cs, m, ext, z) && x < |m| && Owns(cs, m, z, x, p) > 0
    ensures IsLive(m, p)
  {
    OwnedLive(cs, m, m[x].obj, 0);
  }

  lemma {:induction false} OwnersGrow(cs: Classes, m: Memory, z: set<nat>, m': Memory, z': set<nat>, p: nat, n: nat)
    requires n <= |m| <= |m'| && forall x :: 0 <= x < n ==> Owns(cs, m, z, x, p) == Owns(cs, m', z', x, p)
    ensures Owners(cs, m, z, p, n) == Owners(cs, m', z', p, n)
    decreases n
  {
    if n > 0 {
      OwnersGrow(cs, m, z, m', z', p, n - 1);
    }
  }

  // A fresh object is open
  lemma AllocateBalanced(cs: Classes, m: Memory, ext: multiset<nat>, z: set<nat>, cls: nat)
    requires Balanced(cs, m, ext, z) && cls < |cs| && |m| > 0
    ensures Balanced(cs, Allocate(cs, m, cls), ext, z + {|m|})
    ensures Allocate(cs, m, cls)[|m|] == Live(Object(cls, 0, seq(|cs[cls]|, _ => 0)))
  {
    var m' := Allocate(cs, m, cls);
    var z' := z + {|m|};
    forall q | 0 <= q < |m'| && m'[q].Live?
      ensures m'[q].obj.count == ext[q] + Owners(cs, m', z', q, |m'|)
    {
      OwnersGrow(cs, m, z, m', z', q, |m|);
      if q == |m| {
        forall x | 0 <= x < |m|
          ensures Owns(cs, m, z, x, q) == 0
        {
          if Owns(cs, m, z, x, q) > 0 {
            OwnedAreLive(cs, m, ext, z, x, q);
          }
        }
        NoOwner(cs, m, z, q, |m|);
      }
    }
    hide Owners;
    hide Owns;
    forall q | 0 <= q < |m'| && m'[q].Live? && q !in z'
      ensures Typed(cs, m', m'[q].obj)
    {
      assert Typed(cs, m, m[q].obj);
    }
  }

  // ---- clones ----

  // Every live object has the right shape, and its members are of their class when they are alive
  ghost predicate Sane(cs: Classes, m: Memory) {
    forall p :: 0 <= p < |m| && m[p].Live? ==> p > 0 && Shaped(cs, m[p].obj) && Weak(cs, m, m[p].obj)
  }

  ghost predicate Weak(cs: Classes, m: Memory, o: Object)
    requires Shaped(cs, o)
  {
    forall i :: 0 <= i < |o.fields| && cs[o.cls][i].Ref? ==>
      o.fields[i] < |m| && (IsLive(m, o.fields[i]) ==> m[o.fields[i]].obj.cls == cs[o.cls][i].cls)
  }

  // What the i first members own
  function OwnedTo(cs: Classes, o: Object, i: nat): multiset<nat>
    requires Shaped(cs, o) && i <= |o.fields|
  {
    if i == 0 then multiset{}
    else OwnedTo(cs, o, i - 1) + if cs[o.cls][i - 1].Ref? then multiset{o.fields[i - 1]} else multiset{}
  }

  lemma {:induction false} OwnedSplit(cs: Classes, o: Object, i: nat)
    requires Shaped(cs, o) && i <= |o.fields|
    ensures multiset(Owned(cs, o, 0)) == OwnedTo(cs, o, i) + multiset(Owned(cs, o, i))
    decreases i
  {
    if i > 0 {
      OwnedSplit(cs, o, i - 1);
    }
  }

  lemma OwnedToAll(cs: Classes, o: Object)
    requires Shaped(cs, o)
    ensures OwnedTo(cs, o, |o.fields|) == multiset(Owned(cs, o, 0))
  {
    OwnedSplit(cs, o, |o.fields|);
  }

  lemma {:induction false} OwnedToSame(cs: Classes, o: Object, o': Object, i: nat)
    requires Shaped(cs, o) && Shaped(cs, o') && o'.cls == o.cls && i <= |o.fields|
    requires forall j :: 0 <= j < i ==> o'.fields[j] == o.fields[j]
    ensures OwnedTo(cs, o, i) == OwnedTo(cs, o', i)
    decreases i
  {
    if i > 0 {
      OwnedToSame(cs, o, o', i - 1);
    }
  }

  lemma {:induction false} OwnedToMember(cs: Classes, o: Object, i: nat, j: nat)
    requires Shaped(cs, o) && j < i <= |o.fields| && cs[o.cls][j].Ref?
    ensures o.fields[j] in OwnedTo(cs, o, i)
    decreases i
  {
    if j < i - 1 {
      OwnedToMember(cs, o, i - 1, j);
    }
  }

  // The objects which survive are the same; only 'c' may have been written
  ghost predicate Steps(m: Memory, m': Memory, c: nat) {
    && |m| <= |m'|
    && forall q :: 0 <= q < |m| && m'[q].Live? ==>
         && m[q].Live? && m'[q].obj.cls == m[q].obj.cls && |m'[q].obj.fields| == |m[q].obj.fields|
         && (q != c ==> m'[q].obj.fields == m[q].obj.fields)
  }

  // No surviving object was written
  ghost predicate Kept(m: Memory, m': Memory) {
    && |m| <= |m'|
    && forall q :: 0 <= q < |m| && m'[q].Live? ==>
         m[q].Live? && m'[q].obj.cls == m[q].obj.cls && m'[q].obj.fields == m[q].obj.fields
  }

  lemma KeptTrans(m: Memory, m1: Memory, m2: Memory)
    requires Kept(m, m1) && Kept(m1, m2)
    ensures Kept(m, m2)
  {
  }

  lemma KeptSteps(m: Memory, m1: Memory, c: nat)
    requires Kept(m, m1)
    ensures Steps(m, m1, c)
  {
  }

  lemma StepsTrans(m: Memory, m1: Memory, m2: Memory, c: nat)
    requires Steps(m, m1, c) && Steps(m1, m2, c)
    ensures Steps(m, m2, c)
  {
  }

  // The objects being built are held by registers
  ghost predicate HeldBy(ext: multiset<nat>, z: set<nat>) { forall p :: p in z ==> p in ext }

  // The i first members of 'c' are those of 'b', or fresh objects where they are not shared
  ghost predicate Copied(cs: Classes, c: Object, b: Object, i: nat, lo: nat) {
    && Shaped(cs, c) && Shaped(cs, b) && c.cls == b.cls && i <= |c.fields|
    && forall j :: 0 <= j < i ==>
         if cs[c.cls][j].Ref? && !cs[c.cls][j].shared then c.fields[j] >= lo else c.fields[j] == b.fields[j]
  }

  // A clone under way: 'c' is being filled from 'b', whose class is 'cls'
  ghost predicate Cloning(cs: Classes, m: Memory, ext: multiset<nat>, z: set<nat>, c: nat, b: nat, cls: nat, i: nat) {
    && Sane(cs, m) && HeldBy(ext, z) && c in z && b in ext && b != c && |m| > 0 && cls < |cs| && i <= |cs[cls]|
    && IsLive(m, c) && m[c].obj.cls == cls && IsLive(m, b) && m[b].obj.cls == cls && Shaped(cs, m[c].obj)
    && Balanced(cs, m, ext + OwnedTo(cs, m[c].obj, i), z)
    && forall j :: 0 <= j < i && cs[cls][j].Ref? ==>
         IsLive(m, m[c].obj.fields[j]) && m[m[c].obj.fields[j]].obj.cls == cs[cls][j].cls
  }

  lemma RefSane(cs: Classes, m: Memory, p: nat)
    requires Sane(cs, m) && AddRef(m, p).Ok?
    ensures Sane(cs, AddRef(m, p).mem) && Kept(m, AddRef(m, p).mem)
  {
    var m' := AddRef(m, p).mem;
    assert forall q :: 0 <= q < |m'| && m'[q].Live? ==> Weak(cs, m, m[q].obj);
  }

  lemma AllocateSane(cs: Classes, m: Memory, cls: nat)
    requires Sane(cs, m) && cls < |cs| && |m| > 0
    ensures Sane(cs, Allocate(cs, m, cls)) && Kept(m, Allocate(cs, m, cls))
  {
    var m' := Allocate(cs, m, cls);
    forall q | 0 <= q < |m'| && m'[q].Live?
      ensures Shaped(cs, m'[q].obj) && Weak(cs, m', m'[q].obj)
    {
      if q < |m| {
        assert Weak(cs, m, m[q].obj);
      }
    }
  }

  lemma EvolvedSane(cs: Classes, m: Memory, m': Memory)
    requires Sane(cs, m) && Evolved(m, m')
    ensures Sane(cs, m') && Kept(m, m')
  {
    forall q | 0 <= q < |m'| && m'[q].Live?
      ensures Shaped(cs, m'[q].obj) && Weak(cs, m', m'[q].obj)
    {
      assert Weak(cs, m, m[q].obj);
    }
  }

  // The prefix of the members of 'c' is typed
  ghost predicate Prefix(cs: Classes, m: Memory, c: nat, cls: nat, i: nat) {
    && cls < |cs| && i <= |cs[cls]| && IsLive(m, c) && m[c].obj.cls == cls && Shaped(cs, m[c].obj)
    && forall j :: 0 <= j < i && cs[cls][j].Ref? ==>
         IsLive(m, m[c].obj.fields[j]) && m[m[c].obj.fields[j]].obj.cls == cs[cls][j].cls
  }

  function Acquired(member: Member, v: nat): multiset<nat> { if member.Ref? then multiset{v} else multiset{} }

  // The i-th member is written
  lemma WriteMember(cs: Classes, m: Memory, ext: multiset<nat>, z: set<nat>, c: nat, cls: nat, i: nat, v: nat)
    requires Sane(cs, m) && c in z && Prefix(cs, m, c, cls, i) && i < |cs[cls]|
    requires Balanced(cs, m, ext + OwnedTo(cs, m[c].obj, i) + Acquired(cs[cls][i], v), z)
    requires cs[cls][i].Ref? ==> IsLive(m, v) && m[v].obj.cls == cs[cls][i].cls
    ensures SetField(m, c, i, v).Ok?
    ensures var m' := SetField(m, c, i, v).mem;
      && Sane(cs, m') && Prefix(cs, m', c, cls, i + 1) && Steps(m, m', c)
      && m'[c].obj.fields == m[c].obj.fields[i := v]
      && Balanced(cs, m', ext + OwnedTo(cs, m'[c].obj, i + 1), z)
  {
    hide Balanced;
    hide Sane;
    hide Weak;
    hide OwnedTo;
    WriteSane(cs, m, c, cls, i, v);
    var m' := SetField(m, c, i, v).mem;
    SetOpen(cs, m, ext + OwnedTo(cs, m[c].obj, i) + Acquired(cs[cls][i], v), z, c, i, v);
    WriteOwned(cs, m, m', ext, c, cls, i, v);
  }

  lemma WriteSane(cs: Classes, m: Memory, c: nat, cls: nat, i: nat, v: nat)
    requires Sane(cs, m) && Prefix(cs, m, c, cls, i) && i < |cs[cls]|
    requires cs[cls][i].Ref? ==> IsLive(m, v) && m[v].obj.cls == cs[cls][i].cls
    ensures SetField(m, c, i, v).Ok?
    ensures var m' := SetField(m, c, i, v).mem;
      && Sane(cs, m') && Prefix(cs, m', c, cls, i + 1) && Steps(m, m', c)
      && m'[c].obj.fields == m[c].obj.fields[i := v] && m'[c].obj.cls == m[c].obj.cls
  {
    var m' := SetField(m, c, i, v).mem;
    forall q | 0 <= q < |m'| && m'[q].Live?
      ensures Weak(cs, m', m'[q].obj)
    {
      assert Weak(cs, m, m[q].obj);
    }
  }

  lemma WriteOwned(cs: Classes, m: Memory, m': Memory, ext: multiset<nat>, c: nat, cls: nat, i: nat, v: nat)
    requires Prefix(cs, m, c, cls, i) && Prefix(cs, m', c, cls, i + 1) && i < |cs[cls]|
    requires m'[c].obj.fields == m[c].obj.fields[i := v]
    ensures ext + OwnedTo(cs, m'[c].obj, i + 1) == ext + OwnedTo(cs, m[c].obj, i) + Acquired(cs[cls][i], v)
  {
    OwnedToSame(cs, m[c].obj, m'[c].obj, i);
  }

  // The value of a member: acquired, or cloned
  lemma MemberBalanced(cs: Classes, m: Memory, ext: multiset<nat>, z: set<nat>, b: nat, cls: nat, i: nat, fuel: nat)
    requires Sane(cs, m) && HeldBy(ext, z) && Balanced(cs, m, ext, z) && IsLive(m, b) && m[b].obj.cls == cls
    requires cls < |cs| && i < |cs[cls]| && |m| > 0 && Shaped(cs, m[b].obj)
    requires CloneMember(cs, m, m[b].obj.fields[i], cs[cls][i], fuel).Got?
    ensures var r := CloneMember(cs, m, m[b].obj.fields[i], cs[cls][i], fuel);
      && Balanced(cs, r.mem, ext + Acquired(cs[cls][i], r.v), z) && Sane(cs, r.mem)
      && Kept(m, r.mem)
      && (cs[cls][i].Ref? ==> IsLive(r.mem, r.v) && r.mem[r.v].obj.cls == cs[cls][i].cls)
      && (if cs[cls][i].Ref? && !cs[cls][i].shared then r.v >= |m| else r.v == m[b].obj.fields[i])
    decreases fuel, 0, 1
  {
    var v := m[b].obj.fields[i];
    var member := cs[cls][i];
    assert Weak(cs, m, m[b].obj);
    hide Balanced;
    hide Weak;
    hide CloneDeep;
    if member.Pod? {
      assert ext + multiset{} == ext;
    } else {
      var m1 := AddRef(m, v).mem;
      RefBalanced(cs, m, ext, z, v);
      RefSane(cs, m, v);
      if !member.shared {
        assert ext + multiset{v} - multiset{v} == ext;
        DeepBalanced(cs, m1, ext + multiset{v}, z, v, member.cls, fuel);
        var r := CloneDeep(cs, m1, v, member.cls, fuel);
        KeptTrans(m, m1, r.mem);
      }
    }
  }

  lemma {:induction false} CloneBalanced(cs: Classes, m: Memory, ext: multiset<nat>, z: set<nat>, c: nat, b: nat,
                                         cls: nat, i: nat, lo: nat, fuel: nat)
    requires Cloning(cs, m, ext, z, c, b, cls, i) && CloneMembers(cs, m, c, b, cls, i, fuel).Ok?
    requires lo <= |m| && Copied(cs, m[c].obj, m[b].obj, i, lo)
    ensures var m' := CloneMembers(cs, m, c, b, cls, i, fuel).mem;
      && Cloning(cs, m', ext, z, c, b, cls, |cs[cls]|) && Steps(m, m', c)
      && Copied(cs, m'[c].obj, m[b].obj, |cs[cls]|, lo)
    decreases fuel, 1, |cs[cls]| - i
  {
    hide *;
    CloningMeans(cs, m, ext, z, c, b, cls, i);
    UnfoldClone(cs, m, c, b, cls, i, fuel);
    if i == |cs[cls]| {
      StepsSelf(m, c);
    } else {
      var v := m[b].obj.fields[i];
      var r := CloneMember(cs, m, v, cs[cls][i], fuel);
      MoreHeld(ext, OwnedTo(cs, m[c].obj, i), z);
      MemberBalanced(cs, m, ext + OwnedTo(cs, m[c].obj, i), z, b, cls, i, fuel);
      var m1 := r.mem;
      PrefixKept(cs, m, m1, ext, z, c, b, cls, i, r.v);
      WriteMember(cs, m1, ext, z, c, cls, i, r.v);
      var m2 := SetField(m1, c, i, r.v).mem;
      StillCloning(cs, m, m1, m2, ext, z, c, b, cls, i, r.v, lo);
      CloneBalanced(cs, m2, ext, z, c, b, cls, i + 1, lo, fuel);
      var m3 := CloneMembers(cs, m2, c, b, cls, i + 1, fuel).mem;
      CloningMeans(cs, m3, ext, z, c, b, cls, |cs[cls]|);
      KeptSteps(m, m1, c);
      StepsTrans(m, m1, m2, c);
      StepsTrans(m, m2, m3, c);
      CopiedSame(cs, m3[c].obj, m2[b].obj, m[b].obj, |cs[cls]|, lo);
    }
  }

  lemma StepsSelf(m: Memory, c: nat)
    ensures Steps(m, m, c)
  {
  }

  lemma CopiedSame(cs: Classes, c: Object, b: Object, b': Object, i: nat, lo: nat)
    requires Copied(cs, c, b, i, lo) && b'.cls == b.cls && b'.fields == b.fields
    ensures Copied(cs, c, b', i, lo)
  {
  }

  lemma CloningMeans(cs: Classes, m: Memory, ext: multiset<nat>, z: set<nat>, c: nat, b: nat, cls: nat, i: nat)
    requires Cloning(cs, m, ext, z, c, b, cls, i)
    ensures Sane(cs, m) && HeldBy(ext, z) && c in z && |m| > 0 && cls < |cs| && i <= |cs[cls]|
    ensures IsLive(m, b) && b < |m| && m[b].Live? && m[b].obj.cls == cls && Shaped(cs, m[b].obj)
    ensures |m[b].obj.fields| == |cs[cls]| && c < |m| && m[c].Live?
    ensures Shaped(cs, m[c].obj) && i <= |m[c].obj.fields| && Balanced(cs, m, ext + OwnedTo(cs, m[c].obj, i), z)
  {
    hide Balanced;
    hide OwnedTo;
  }

  lemma UnfoldClone(cs: Classes, m: Memory, c: nat, b: nat, cls: nat, i: nat, fuel: nat)
    requires cls < |cs| && i <= |cs[cls]| && CloneMembers(cs, m, c, b, cls, i, fuel).Ok?
    ensures i == |cs[cls]| ==> CloneMembers(cs, m, c, b, cls, i, fuel).mem == m
    ensures i < |cs[cls]| ==>
      && b < |m| && m[b].Live? && i < |m[b].obj.fields|
      && var r := CloneMember(cs, m, m[b].obj.fields[i], cs[cls][i], fuel);
         && r.Got? && SetField(r.mem, c, i, r.v).Ok?
         && CloneMembers(cs, m, c, b, cls, i, fuel)
            == CloneMembers(cs, SetField(r.mem, c, i, r.v).mem, c, b, cls, i + 1, fuel)
  {
  }

  lemma MoreHeld(ext: multiset<nat>, more: multiset<nat>, z: set<nat>)
    requires HeldBy(ext, z)
    ensures HeldBy(ext + more, z)
  {
  }

  lemma PrefixKept(cs: Classes, m: Memory, m1: Memory, ext: multiset<nat>, z: set<nat>, c: nat, b: nat, cls: nat,
                   i: nat, v: nat)
    requires Cloning(cs, m, ext, z, c, b, cls, i) && i < |cs[cls]| && Kept(m, m1) && Sane(cs, m1)
    requires Balanced(cs, m1, ext + OwnedTo(cs, m[c].obj, i) + Acquired(cs[cls][i], v), z)
    ensures |m1| >= |m| && c < |m1| && m1[c].Live? && b < |m1| && m1[b].Live?
    ensures Prefix(cs, m1, c, cls, i) && m1[c].obj.fields == m[c].obj.fields && Shaped(cs, m1[c].obj)
    ensures i <= |m1[c].obj.fields|
    ensures OwnedTo(cs, m1[c].obj, i) == OwnedTo(cs, m[c].obj, i)
    ensures IsLive(m1, b) && m1[b].obj.cls == cls && m1[b].obj.fields == m[b].obj.fields
  {
    assert IsLive(m1, c);
    assert b in ext + OwnedTo(cs, m[c].obj, i) + Acquired(cs[cls][i], v);
    assert IsLive(m1, b);
    OwnedToSame(cs, m[c].obj, m1[c].obj, i);
    forall j | 0 <= j < i && cs[cls][j].Ref?
      ensures IsLive(m1, m[c].obj.fields[j]) && m1[m[c].obj.fields[j]].obj.cls == cs[cls][j].cls
    {
      OwnedToMember(cs, m[c].obj, i, j);
      assert m[c].obj.fields[j] in ext + OwnedTo(cs, m[c].obj, i) + Acquired(cs[cls][i], v);
    }
  }

  lemma StillCloning(cs: Classes, m: Memory, m1: Memory, m2: Memory, ext: multiset<nat>, z: set<nat>, c: nat, b: nat,
                     cls: nat, i: nat, v: nat, lo: nat)
    requires Cloning(cs, m, ext, z, c, b, cls, i) && i < |cs[cls]| && |m1| >= |m| && lo <= |m|
    requires Copied(cs, m[c].obj, m[b].obj, i, lo)
    requires IsLive(m1, b) && m1[b].obj.cls == cls && m1[b].obj.fields == m[b].obj.fields
    requires Prefix(cs, m1, c, cls, i) && m1[c].obj.fields == m[c].obj.fields
    requires SetField(m1, c, i, v).Ok? && m2 == SetField(m1, c, i, v).mem
    requires Sane(cs, m2) && Prefix(cs, m2, c, cls, i + 1) && m2[c].obj.fields == m1[c].obj.fields[i := v]
    requires Balanced(cs, m2, ext + OwnedTo(cs, m2[c].obj, i + 1), z)
    requires if cs[cls][i].Ref? && !cs[cls][i].shared then v >= |m| else v == m[b].obj.fields[i]
    ensures |m2| == |m1| && c < |m2| && m2[c].Live? && b < |m2| && m2[b].Live?
    ensures Cloning(cs, m2, ext, z, c, b, cls, i + 1) && m2[b].obj.fields == m[b].obj.fields
    ensures m2[b].obj.cls == m[b].obj.cls
    ensures Copied(cs, m2[c].obj, m2[b].obj, i + 1, lo)
  {
    hide Balanced;
    hide Sane;
    hide OwnedTo;
  }

  // A deep copy: the source loses one reference, the clone has one
  lemma DeepBalanced(cs: Classes, m: Memory, ext: multiset<nat>, z: set<nat>, v: nat, cls: nat, fuel: nat)
    requires Sane(cs, m) && Balanced(cs, m, ext, z) && v in ext && HeldBy(ext - multiset{v}, z)
    requires IsLive(m, v) && m[v].obj.cls == cls && |m| > 0 && CloneDeep(cs, m, v, cls, fuel).Got?
    ensures cls < |cs|
    ensures var r := CloneDeep(cs, m, v, cls, fuel);
      && r.v == |m| && IsLive(r.mem, r.v) && r.mem[r.v].obj.cls == cls && Sane(cs, r.mem)
      && Balanced(cs, r.mem, ext - multiset{v} + multiset{r.v}, z) && Kept(m, r.mem)
      && Copied(cs, r.mem[r.v].obj, m[v].obj, |cs[cls]|, |m|)
    decreases fuel, 0, 0
  {
    hide Balanced;
    hide Unref;
    var d := |m|;
    var m0 := Allocate(cs, m, cls);
    AllocateBalanced(cs, m, ext, z, cls);
    AllocateSane(cs, m, cls);
    var m1 := AddRef(m0, d).mem;
    RefBalanced(cs, m0, ext, z + {d}, d);
    RefSane(cs, m0, d);
    FreshClone(cs, m, m1, ext, z, v, cls);
    OpenAreOld(cs, m, ext, z);
    CloneBalanced(cs, m1, ext + multiset{d}, z + {d}, d, v, cls, 0, |m|, fuel - 1);
    var m2 := CloneMembers(cs, m1, d, v, cls, 0, fuel - 1).mem;
    CloneCloses(cs, m2, ext + multiset{d}, z, d, v, cls);
    DropSource(cs, m2, ext + multiset{d}, z, v, cls, d, ext);
    var m3 := Unref(cs, m2, v, cls, |m2|).mem;
    EvolvedSane(cs, m2, m3);
    KeptTrans(m, m0, m1);
    KeptFresh(m, m1, m2, d);
    KeptTrans(m, m2, m3);
    CopiedSame(cs, m2[d].obj, m1[v].obj, m[v].obj, |cs[cls]|, |m|);
  }

  lemma OpenAreOld(cs: Classes, m: Memory, ext: multiset<nat>, z: set<nat>)
    requires Balanced(cs, m, ext, z)
    ensures |m| !in z
  {
  }

  lemma KeptFresh(m: Memory, m1: Memory, m2: Memory, d: nat)
    requires d >= |m| && Kept(m, m1) && Steps(m1, m2, d)
    ensures Kept(m, m2)
  {
  }

  lemma FreshClone(cs: Classes, m: Memory, m1: Memory, ext: multiset<nat>, z: set<nat>, v: nat, cls: nat)
    requires Sane(cs, m) && v in ext && HeldBy(ext - multiset{v}, z) && IsLive(m, v) && m[v].obj.cls == cls
    requires cls < |cs| && |m| > 0 && AddRef(Allocate(cs, m, cls), |m|).Ok?
    requires m1 == AddRef(Allocate(cs, m, cls), |m|).mem && Sane(cs, m1)
    requires Balanced(cs, m1, ext + multiset{|m|}, z + {|m|})
    ensures Cloning(cs, m1, ext + multiset{|m|}, z + {|m|}, |m|, v, cls, 0)
    ensures Copied(cs, m1[|m|].obj, m1[v].obj, 0, |m|)
  {
    hide Balanced;
    assert ext + multiset{|m|} + OwnedTo(cs, m1[|m|].obj, 0) == ext + multiset{|m|};
  }

  lemma CloneCloses(cs: Classes, m: Memory, ext: multiset<nat>, z: set<nat>, d: nat, v: nat, cls: nat)
    requires cls < |cs| && Cloning(cs, m, ext, z + {d}, d, v, cls, |cs[cls]|) && d !in z
    ensures Balanced(cs, m, ext, z) && IsLive(m, d) && m[d].obj.cls == cls
  {
    OwnedToAll(cs, m[d].obj);
    hide Balanced;
    assert Typed(cs, m, m[d].obj);
    Close(cs, m, ext, z + {d}, d);
    assert z + {d} - {d} == z;
  }

  lemma DropSource(cs: Classes, m: Memory, all: multiset<nat>, z: set<nat>, v: nat, cls: nat, d: nat,
                   ext: multiset<nat>)
    requires Balanced(cs, m, all, z) && all == ext + multiset{d} && v in ext && HeldBy(ext - multiset{v}, z)
    requires IsLive(m, v) && m[v].obj.cls == cls && IsLive(m, d) && d != v
    ensures Unref(cs, m, v, cls, |m|).Ok?
    ensures var m' := Unref(cs, m, v, cls, |m|).mem;
      && Balanced(cs, m', ext - multiset{v} + multiset{d}, z) && Evolved(m, m')
      && IsLive(m', d) && m'[d].obj.cls == m[d].obj.cls
  {
    assert all - multiset{v} == ext - multiset{v} + multiset{d};
    assert Held(m, all - multiset{v}, z);
    UnrefReleases(cs, m, all, z, v, |m|, {});
    hide Unref;
    assert d in all - multiset{v};
  }
}
