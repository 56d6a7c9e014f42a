// The table of types, with a layer of substitutes over it while a function is analysed.
module Overlay {

  datatype Clid = Clid(atomid: nat, lvid: nat)

  // An entry of the table knows its own id: two ids sharing one entry are hard-linked
  datatype Classdef = Classdef(clid: Clid, qualifiers: nat, body: nat)

  type Table = map<Clid, Classdef>

  const NO_ATOM: nat := 0xFFFF_FFFF

  predicate Linked(base: Table, c: Clid)
    requires c in base
  {
    base[c].clid != c
  }

  // The table overridden by the substitutes, through hard links
  function Overridden(base: Table, subs: Table): Table {
    map c | c in base.Keys + subs.Keys ::
      if c in subs then subs[c] else if base[c].clid in subs then subs[base[c].clid] else base[c]
  }

  // Once the substitutes are made permanent, an id gives the same type as before if and only if it was not hard-linked
  // to a substituted id, unless that changed nothing. A link does not survive: it still leads to the former type.
  lemma MergeIsExact(base: Table, subs: Table, c: Clid)
    requires c in base.Keys + subs.Keys
    ensures c in base + subs
    ensures (base + subs)[c] == Overridden(base, subs)[c]
      <==> !(c in base && c !in subs && base[c].clid in subs && subs[base[c].clid] != base[c])
  {
  }

  // The overlay is the union which the merge makes, exactly when no hard link leads to a substitute which changes it;
  // without hard links, in particular
  lemma OverriddenIsUnion(base: Table, subs: Table)
    ensures Overridden(base, subs) == base + subs
       <==> forall c :: c in base && c !in subs && base[c].clid in subs ==> subs[base[c].clid] == base[c]
    ensures (forall c :: c in base ==> !Linked(base, c)) ==> Overridden(base, subs) == base + subs
  {
    forall c | c in base.Keys + subs.Keys
      ensures (base + subs)[c] == Overridden(base, subs)[c]
        <==> !(c in base && c !in subs && base[c].clid in subs && subs[base[c].clid] != base[c])
    {
      MergeIsExact(base, subs, c);
    }
  }

  // The id 2 is hard-linked to the id 1, which has the type 5 and is substituted by the type 6: the id 2 has the type
  // 6, then the type 5 again once the layer is merged
  lemma LinkIsLost()
    ensures var one, two := Clid(1, 0), Clid(1, 1);
      var base := map[one := Classdef(one, 0, 5), two := Classdef(one, 0, 5)];
      var subs := map[one := Classdef(one, 0, 6)];
      && Overridden(base, subs)[two].body == 6 && (base + subs)[two].body == 5
  {
  }

  // A substitute brings its own id: an entry which was found without a link is still found without a link
  lemma MergeAddsNoLink(base: Table, subs: Table, c: Clid)
    requires c in base + subs && (forall d :: d in subs ==> subs[d].clid == d)
    ensures Linked(base + subs, c) <==> c !in subs && Linked(base, c)
  {
  }

  // The substitutes held by a layer
  ghost function Layer(atomid: nat, flags: seq<bool>, storage: seq<Classdef>): (r: Table)
    requires |flags| == |storage|
    ensures forall c :: c in r <==> c.atomid == atomid && c.lvid < |flags| && flags[c.lvid]
    ensures forall c :: c in r ==> r[c] == storage[c.lvid]
  {
    map i: nat | i < |flags| && flags[i] :: Clid(atomid, i) := storage[i]
  }

  lemma LayerSet(atomid: nat, flags: seq<bool>, storage: seq<Classdef>, i: nat, x: Classdef)
    requires |flags| == |storage| && i < |flags|
    ensures Layer(atomid, flags[i := true], storage[i := x]) == Layer(atomid, flags, storage)[Clid(atomid, i) := x]
  {
    hide Layer;
  }

  lemma LayerAdd(atomid: nat, flags: seq<bool>, storage: seq<Classdef>, x: Classdef)
    requires |flags| == |storage|
    ensures Layer(atomid, flags + [true], storage + [x])
         == Layer(atomid, flags, storage)[Clid(atomid, |flags|) := x]
  {
    hide Layer;
  }

  lemma LayerGrows(atomid: nat, flags: seq<bool>, storage: seq<Classdef>, more: seq<bool>, others: seq<Classdef>)
    requires |flags| == |storage| && |more| == |others| && forall i :: 0 <= i < |more| ==> !more[i]
    ensures Layer(atomid, flags + more, storage + others) == Layer(atomid, flags, storage)
  {
    hide Layer;
  }

  class ClassdefTable {
    var base: Table
    // the layer
    var atomid: nat
    var count: nat
    var flags: seq<bool>
    var storage: seq<Classdef>

    ghost predicate Valid()
      reads this
    {
      && |flags| == |storage| == count
      && (atomid != NO_ATOM ==> forall i :: 0 <= i < count && flags[i] ==> storage[i].clid == Clid(atomid, i))
      && (forall c :: c in base ==> c.atomid != NO_ATOM && base[c].clid.atomid != NO_ATOM)
      && (forall c :: c in base && base[c].clid.atomid == atomid ==> base[c].clid.lvid < count)
    }

    // The substitutes of the current layer
    ghost function Subs(): (r: Table)
      requires Valid()
      reads this
      ensures forall c :: c in r ==> r[c].clid == c && c.lvid < count
    {
      if atomid == NO_ATOM then map[] else Layer(atomid, flags, storage)
    }

    ghost function View(): Table
      requires Valid()
      reads this
    {
      Overridden(base, Subs())
    }

    // A table without layer
    constructor (entries: Table)
      requires forall c :: c in entries ==> c.atomid != NO_ATOM && entries[c].clid.atomid != NO_ATOM
      ensures Valid() && base == entries && Subs() == map[]
    {
      base, atomid, count, flags, storage := entries, NO_ATOM, 0, [], [];
    }

    method FindClassdef(clid: Clid) returns (r: Classdef)
      requires Valid() && clid in View() && clid.atomid != NO_ATOM
      requires clid.atomid == atomid ==> clid.lvid < count
      ensures r == View()[clid]
    {
      if clid.atomid == atomid {
        if flags[clid.lvid] {
          return storage[clid.lvid];
        }
      }
      var result := base[clid];
      if result.clid.atomid == atomid {
        if flags[result.clid.lvid] {
          return storage[result.clid.lvid];
        }
      }
      return result;
    }

    method HasClassdef(clid: Clid) returns (r: bool)
      requires Valid() && clid.atomid != NO_ATOM
      ensures r <==> clid in Subs() || (clid.atomid != atomid && clid in base)
    {
      if clid.atomid == atomid {
        return clid.lvid < count && flags[clid.lvid];
      } else {
        return clid in base;
      }
    }

    // Links are followed from the other atoms only
    method HasSubstitute(clid: Clid) returns (r: bool)
      requires Valid() && clid.atomid != NO_ATOM
      requires clid.atomid == atomid ==> clid.lvid < count
      ensures r <==> clid in Subs() || (clid.atomid != atomid && clid in base && base[clid].clid in Subs())
    {
      var id := clid;
      var known := HasClassdef(clid);
      if known {
        var cdef := FindClassdef(clid);
        id := cdef.clid;
      }
      if id.atomid == atomid {
        return flags[id.lvid];
      }
      return false;
    }

    // The substitute of a register, made at the first request with the qualifiers of the table
    method Substitute(lvid: nat) returns (r: Classdef)
      requires Valid() && atomid != NO_ATOM && lvid < count
      modifies this`flags, this`storage
      ensures Valid() && r.clid == Clid(atomid, lvid)
      ensures Subs() == old(Subs())[Clid(atomid, lvid) := r]
      ensures Clid(atomid, lvid) in old(Subs()) ==> r == old(Subs())[Clid(atomid, lvid)]
      ensures Clid(atomid, lvid) !in old(Subs()) && Clid(atomid, lvid) in base ==>
        r.qualifiers == base[Clid(atomid, lvid)].qualifiers
    {
      hide Layer;
      if !flags[lvid] {
        flags := flags[lvid := true];
        var newcdef := storage[lvid];
        if Clid(atomid, lvid) in base {
          newcdef := newcdef.(qualifiers := base[Clid(atomid, lvid)].qualifiers);
        }
        newcdef := newcdef.(clid := Clid(atomid, lvid));
        LayerSet(atomid, old(flags), storage, lvid, newcdef);
        storage := storage[lvid := newcdef];
      }
      return storage[lvid];
    }

    // What is written through the result of 'Substitute'
    method Write(lvid: nat, body: nat, qualifiers: nat)
      requires Valid() && atomid != NO_ATOM && Clid(atomid, lvid) in Subs()
      modifies this`storage
      ensures Valid()
      ensures Subs() == old(Subs())[Clid(atomid, lvid) := Classdef(Clid(atomid, lvid), qualifiers, body)]
    {
      LayerSet(atomid, flags, storage, lvid, Classdef(Clid(atomid, lvid), qualifiers, body));
      assert flags[lvid := true] == flags;
      storage := storage[lvid := Classdef(Clid(atomid, lvid), qualifiers, body)];
    }

    method AddSubstitute(body: nat, qualifiers: nat) returns (r: Classdef)
      requires Valid() && atomid != NO_ATOM
      modifies this`count, this`flags, this`storage
      ensures Valid() && count == old(count) + 1
      ensures r == Classdef(Clid(atomid, old(count)), qualifiers, body)
      ensures Subs() == old(Subs())[Clid(atomid, old(count)) := r]
    {
      hide Layer;
      r := Classdef(Clid(atomid, count), qualifiers, body);
      LayerAdd(atomid, flags, storage, r);
      flags := flags + [true];
      storage := storage + [r];
      count := count + 1;
    }

    // Functions made on the fly may miss some entries
    method CompleteTable(from: nat, size: nat, any: nat)
      requires from <= size
      modifies this`base
      ensures forall c :: c in base <==> c in old(base) || (c.atomid == atomid && from <= c.lvid < size)
      ensures forall c :: c in base ==> base[c] == if c in old(base) then old(base)[c] else Classdef(c, 0, any)
    {
      var i := from;
      while i != size
        invariant from <= i <= size
        invariant forall c :: c in base <==> c in old(base) || (c.atomid == atomid && from <= c.lvid < i)
        invariant forall c :: c in base ==> base[c] == if c in old(base) then old(base)[c] else Classdef(c, 0, any)
        decreases size - i
      {
        var clid := Clid(atomid, i);
        if clid !in base {
          base := base[clid := Classdef(clid, 0, any)];
        }
        i := i + 1;
      }
    }

    // New registers are not substituted, and known to the table
    method SubstituteResize(size: nat, any: nat)
      requires Valid() && atomid != NO_ATOM
      modifies this`base, this`count, this`flags, this`storage
      ensures Valid() && count == (if size <= old(count) then old(count) else size) && Subs() == old(Subs())
      ensures forall c :: c in base <==> c in old(base) || (c.atomid == atomid && old(count) <= c.lvid < size)
      ensures forall c :: c in base ==> base[c] == if c in old(base) then old(base)[c] else Classdef(c, 0, any)
    {
      hide Layer;
      var previous := count;
      if size <= previous {
        return;
      }
      count := size;
      var id := atomid;
      var more, others := seq(size - previous, _ => false),
                          seq(size - previous, i => Classdef(Clid(id, if i < 0 then 0 else previous + i), 0, any));
      LayerGrows(id, flags, storage, more, others);
      flags := flags + more;
      storage := storage + others;
      CompleteTable(previous, size, any);
    }

    // Substitutes become permanent, and the layer is over
    method MergeSubstitutes() returns (ok: bool)
      requires Valid()
      modifies this`base, this`atomid
      ensures Valid() && ok == (old(atomid) != NO_ATOM)
      ensures atomid == NO_ATOM && Subs() == map[]
      ensures base == old(base) + old(Subs())
    {
      if atomid == NO_ATOM {
        return false;
      }
      var i := 0;
      while i != count
        invariant 0 <= i <= count && atomid == old(atomid)
        invariant forall c :: c in base <==>
            c in old(base) || (c.atomid == atomid && c.lvid < i && flags[c.lvid])
        invariant forall c :: c in base ==>
            base[c] == if c.atomid == atomid && c.lvid < i && flags[c.lvid] then storage[c.lvid] else old(base)[c]
        decreases count - i
      {
        if flags[i] {
          base := base[Clid(atomid, i) := storage[i]];
        }
        i := i + 1;
      }
      assert base == old(base) + old(Subs());
      atomid := NO_ATOM;
      return true;
    }

    // The target shares the entry of the source
    method MakeHardlink(source: Clid, target: Clid) returns (ok: bool)
      requires Valid() && source != target
      modifies this`base
      ensures Valid() && ok == (source in old(base) && target in old(base))
      ensures base == if ok then old(base)[target := old(base)[source]] else old(base)
      ensures Subs() == old(Subs())
    {
      if source in base && target in base {
        base := base[target := base[source]];
        return true;
      }
      return false;
    }
  }
}
