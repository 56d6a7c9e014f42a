// Resolution of a type alias through other aliases, in any graph of aliases.
module Alias {

  datatype Option<+T> = None | Some(value: T)

  // What a classdef stands for
  datatype Type = Builtin | Refers(atomid: nat) | Unresolved

  // An atom, its parent, and the type it returns, which is the target of an alias
  datatype Atom = Atom(parent: nat, returned: Type, alias: bool)

  type Atoms = map<nat, Atom>

  datatype Outcome =
    | Solved(cdef: Type, atomid: nat)
    | InvalidTypedef(cdef: Type)
    | RefDeclaredAfter(atomid: nat)
    | CircularReference(atomid: nat)

  function FindClassdefAtom(atoms: Atoms, t: Type): Option<nat> {
    if t.Refers? && t.atomid in atoms then Some(t.atomid) else None
  }

  // ---- the chain of aliases ----

  function Chain(atoms: Atoms, original: nat, n: nat): Type
    requires original in atoms
  {
    if n == 0 then atoms[original].returned
    else
      var t := Chain(atoms, original, n - 1);
      if t.Refers? && t.atomid in atoms then atoms[t.atomid].returned else Unresolved
  }

  // An atom which was declared in the same place, but after, cannot be used: atoms are numbered in order
  predicate Usable(atoms: Atoms, original: nat, t: Type)
    requires original in atoms
  {
    t.Refers? && t.atomid in atoms && (t.atomid <= original || atoms[t.atomid].parent != atoms[original].parent)
  }

  // The n-th type of the chain is another alias, which may be followed
  predicate Follows(atoms: Atoms, original: nat, n: nat)
    requires original in atoms
  {
    var t := Chain(atoms, original, n);
    Usable(atoms, original, t) && atoms[t.atomid].alias
  }

  // The n-th type of the chain is a type
  predicate Ends(atoms: Atoms, original: nat, n: nat)
    requires original in atoms
  {
    var t := Chain(atoms, original, n);
    t.Builtin? || (Usable(atoms, original, t) && !atoms[t.atomid].alias)
  }

  ghost predicate Resolves(atoms: Atoms, original: nat, n: nat)
    requires original in atoms
  {
    Ends(atoms, original, n) && forall m: nat :: m < n ==> Follows(atoms, original, m)
  }

  lemma {:induction false} SameTail(atoms: Atoms, original: nat, m: nat, n: nat, k: nat)
    requires original in atoms && Chain(atoms, original, m) == Chain(atoms, original, n)
    ensures Chain(atoms, original, m + k) == Chain(atoms, original, n + k)
    decreases k
  {
    if k > 0 {
      SameTail(atoms, original, m, n, k - 1);
    }
  }

  // A repeated alias is repeated for ever
  lemma {:induction false} CycleFollows(atoms: Atoms, original: nat, m: nat, n: nat, k: nat)
    requires original in atoms && m < n && Chain(atoms, original, m) == Chain(atoms, original, n)
    requires forall i: nat :: i < n ==> Follows(atoms, original, i)
    ensures Follows(atoms, original, k)
    decreases k
  {
    if k >= n {
      var before := k - (n - m);
      CycleFollows(atoms, original, m, n, before);
      SameTail(atoms, original, m, n, before - m);
    }
  }

  lemma StopsHere(atoms: Atoms, original: nat, n: nat, k: nat)
    requires original in atoms && !Follows(atoms, original, n) && !Ends(atoms, original, n)
    requires forall i: nat :: i < n ==> Follows(atoms, original, i)
    ensures !Resolves(atoms, original, k)
  {
    if k < n {
      assert Follows(atoms, original, k);
    }
  }

  lemma OneEnd(atoms: Atoms, original: nat, m: nat, n: nat)
    requires original in atoms && Resolves(atoms, original, m) && Resolves(atoms, original, n)
    ensures m == n
  {
    EndsThere(atoms, original, m);
    EndsThere(atoms, original, n);
  }

  lemma EndsThere(atoms: Atoms, original: nat, n: nat)
    requires original in atoms && Ends(atoms, original, n)
    ensures !Follows(atoms, original, n)
  {
  }

  lemma ChainFirst(atoms: Atoms, original: nat)
    requires original in atoms
    ensures Chain(atoms, original, 0) == atoms[original].returned
  {
  }

  lemma ChainNext(atoms: Atoms, original: nat, n: nat)
    requires original in atoms && Follows(atoms, original, n)
    ensures Chain(atoms, original, n + 1) == atoms[Chain(atoms, original, n).atomid].returned
  {
  }

  // The search always ends, and finds a type if and only if the chain reaches one before an unresolved type, a
  // sibling declared later, or a repeated alias
  method ResolveTypeAlias(atoms: Atoms, original: nat) returns (r: Outcome)
    requires original in atoms && atoms[original].alias
    ensures r.Solved? <==> exists n: nat :: Resolves(atoms, original, n)
    ensures r.Solved? ==> exists n: nat :: Resolves(atoms, original, n) && r.cdef == Chain(atoms, original, n)
    ensures r.Solved? ==> r.atomid == if r.cdef.Refers? then r.cdef.atomid else original
    ensures r.InvalidTypedef? ==> exists n: nat ::
              r.cdef == Chain(atoms, original, n) && !r.cdef.Builtin?
              && (r.cdef.Refers? ==> r.cdef.atomid !in atoms)
    ensures r.RefDeclaredAfter? ==> exists n: nat ::
              Chain(atoms, original, n) == Refers(r.atomid) && r.atomid in atoms
              && atoms[r.atomid].parent == atoms[original].parent && r.atomid > original
    ensures r.CircularReference? ==> exists m: nat, n: nat ::
              m < n && Chain(atoms, original, m) == Chain(atoms, original, n) == Refers(r.atomid)
  {
    hide Chain;
    ChainFirst(atoms, original);
    var cdef := atoms[original].returned;
    var encountered: set<nat> := {};
    ghost var n: nat := 0;
    while true
      invariant cdef == Chain(atoms, original, n)
      invariant forall i: nat :: i < n ==> Follows(atoms, original, i)
      invariant forall i: nat :: i < n ==>
        Chain(atoms, original, i).Refers? && Chain(atoms, original, i).atomid in encountered
      invariant forall id :: id in encountered ==>
        id in atoms && exists i: nat :: i < n && Chain(atoms, original, i) == Refers(id)
      decreases atoms.Keys - encountered
    {
      if cdef.Builtin? {
        assert Resolves(atoms, original, n);
        return Solved(cdef, original);
      }
      var alias := FindClassdefAtom(atoms, cdef);
      if alias.None? {
        forall k: nat
          ensures !Resolves(atoms, original, k)
        {
          StopsHere(atoms, original, n, k);
        }
        return InvalidTypedef(cdef);
      }
      if atoms[alias.value].parent == atoms[original].parent && alias.value > original {
        forall k: nat
          ensures !Resolves(atoms, original, k)
        {
          StopsHere(atoms, original, n, k);
        }
        return RefDeclaredAfter(alias.value);
      }
      if !atoms[alias.value].alias {
        assert Resolves(atoms, original, n);
        return Solved(cdef, alias.value);
      }
      assert Follows(atoms, original, n);
      if alias.value in encountered {
        ghost var m: nat :| m < n && Chain(atoms, original, m) == Refers(alias.value);
        forall k: nat
          ensures !Resolves(atoms, original, k)
        {
          CycleFollows(atoms, original, m, n, k);
        }
        return CircularReference(alias.value);
      }
      ChainNext(atoms, original, n);
      encountered := encountered + {alias.value};
      cdef := atoms[alias.value].returned;
      n := n + 1;
    }
  }
}
