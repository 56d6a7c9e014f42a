// Reference counting: 'unref', and the cascade of destructions it may start.
module Heap {
  import opened Isa

  // ---- objects ----

  // A member variable: a value, or a counted pointer to an object of some class; a clone shares it when it is declared
  // with 'ref'
  datatype Member = Pod | Ref(cls: nat, shared: bool)

  type Classes = seq<seq<Member>>

  datatype Object = Object(cls: nat, count: u64, fields: seq<nat>)

  // The live objects by address, as known to the allocator
  datatype Slot = Free | Live(obj: Object)

  type Memory = seq<Slot>

  datatype Fault = UnknownPointer | PointerMismatch | TooDeep | TooMany

  datatype Result = Ok(mem: Memory) | Failed(fault: Fault)

  // 'validate'
  predicate IsLive(m: Memory, p: nat) { 0 < p < |m| && m[p].Live? }

  function WithCount(m: Memory, p: nat, count: u64): (r: Memory)
    requires IsLive(m, p)
    ensures |r| == |m| && IsLive(r, p) && r[p].obj == m[p].obj.(count := count)
    ensures forall q :: 0 <= q < |m| && q != p ==> r[q] == m[q]
  {
    m[p := Live(m[p].obj.(count := count))]
  }

  // ---- the code ----

  // 'unref': an object whose count becomes zero is destroyed. A count of zero would wrap around.
  function Unref(cs: Classes, m: Memory, p: nat, cls: nat, fuel: nat): Result
    decreases fuel, 2, 0
  {
    if !IsLive(m, p) then Failed(UnknownPointer)
    else
      var m1 := WithCount(m, p, (m[p].obj.count - 1) % U64_SIZE);
      if m1[p].obj.count != 0 then Ok(m1)
      else if fuel == 0 then Failed(TooDeep)
      else Destroy(cs, m1, p, cls, fuel - 1)
  }

  // The destructor of a class without one of its own: every member which is an object is released, in order
  function ReleaseMembers(cs: Classes, m: Memory, p: nat, cls: nat, i: nat, fuel: nat): Result
    requires cls < |cs| && i <= |cs[cls]|
    decreases fuel, 3, |cs[cls]| - i
  {
    if i == |cs[cls]| then Ok(m)
    else if cs[cls][i].Pod? then ReleaseMembers(cs, m, p, cls, i + 1, fuel)
    else if !IsLive(m, p) || i >= |m[p].obj.fields| then Failed(UnknownPointer)
    else match Unref(cs, m, m[p].obj.fields[i], cs[cls][i].cls, fuel)
         case Failed(f) => Failed(f)
         case Ok(m1) => ReleaseMembers(cs, m1, p, cls, i + 1, fuel)
  }

  function Deallocate(cs: Classes, m: Memory, p: nat, cls: nat): Result {
    if !IsLive(m, p) || cls >= |cs| || |m[p].obj.fields| != |cs[cls]| then Failed(PointerMismatch)
    else Ok(m[p := Free])
  }

  function Destroy(cs: Classes, m: Memory, p: nat, cls: nat, fuel: nat): Result
    decreases fuel, 4, 0
  {
    if cls >= |cs| then Failed(PointerMismatch)
    else match ReleaseMembers(cs, m, p, cls, 0, fuel)
         case Failed(f) => Failed(f)
         case Ok(m1) => Deallocate(cs, m1, p, cls)
  }

  // ---- owners ----

  // The pointers owned by an object, from its i-th member on
  function Owned(cs: Classes, o: Object, i: nat): seq<nat>
    requires o.cls < |cs| && |o.fields| == |cs[o.cls]| && i <= |o.fields|
    decreases |o.fields| - i
  {
    if i == |o.fields| then []
    else if cs[o.cls][i].Ref? then [o.fields[i]] + Owned(cs, o, i + 1)
    else Owned(cs, o, i + 1)
  }

  function Occurrences(s: seq<nat>, p: nat): nat { multiset(s)[p] }

  // An object of the right shape
  predicate Shaped(cs: Classes, o: Object) { o.cls < |cs| && |o.fields| == |cs[o.cls]| }

  // How many times the object at 'x' owns 'p'. The objects in 'z', which are being built or destroyed, own nothing.
  function Owns(cs: Classes, m: Memory, z: set<nat>, x: nat, p: nat): nat
    requires x < |m|
  {
    if m[x].Live? && x !in z && Shaped(cs, m[x].obj) then Occurrences(Owned(cs, m[x].obj, 0), p) else 0
  }

  function Owners(cs: Classes, m: Memory, z: set<nat>, p: nat, n: nat): nat
    requires n <= |m|
  {
    if n == 0 then 0 else Owners(cs, m, z, p, n - 1) + Owns(cs, m, z, n - 1, p)
  }

  // Members point to live objects of the class they are declared with
  ghost predicate Typed(cs: Classes, m: Memory, o: Object) {
    && Shaped(cs, o)
    && forall i :: 0 <= i < |o.fields| && cs[o.cls][i].Ref? ==>
         IsLive(m, o.fields[i]) && m[o.fields[i]].obj.cls == cs[o.cls][i].cls
  }

  // Every count is the number of owners: the references in 'ext' and the members of the other objects
  ghost predicate Balanced(cs: Classes, m: Memory, ext: multiset<nat>, z: set<nat>) {
    && (forall p :: 0 <= p < |m| && m[p].Live? ==>
          p > 0 && Shaped(cs, m[p].obj) && (p !in z ==> Typed(cs, m, m[p].obj)))
    && (forall p :: 0 <= p < |m| && m[p].Live? ==> m[p].obj.count == ext[p] + Owners(cs, m, z, p, |m|))
    && (forall p :: p in ext ==> IsLive(m, p))
    && (forall p :: p in z ==> IsLive(m, p))
  }

  // The objects in 'z' are not destroyed while 'ext' is kept
  ghost predicate Held(m: Memory, ext: multiset<nat>, z: set<nat>) {
    forall p :: p in z ==> IsLive(m, p) && (m[p].obj.count == 0 || p in ext)
  }
}
