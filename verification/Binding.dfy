// Binding of the arguments of a call to the parameters of a function.
module Binding {
  import opened Overloads

  datatype Parameter = Parameter(name: string, clid: nat)

  datatype Prototype = Prototype(params: seq<Parameter>, tmplparams: seq<Parameter>, returned: nat)

  datatype Arguments = Arguments(rettype: seq<nat>, indexed: seq<nat>, named: seq<Parameter>,
                                 tmplIndexed: seq<nat>, tmplNamed: seq<Parameter>)

  // What the type checker answers about classdefs. 'wanted' tells the types of a result which must be matched, and
  // 'nothing' those a call whose result is not used may have.
  datatype Types = Types(similar: (nat, nat) -> Match, any: nat -> bool, void: nat -> bool, wanted: nat -> bool,
                         nothing: nat -> bool)

  function Fit(t: Types, clid: nat, param: nat): Match { if t.any(clid) then NoMatch else t.similar(clid, param) }

  // The first parameter of that name, from 'offset'
  function FindByName(params: seq<Parameter>, name: string, offset: nat): (r: Option<nat>)
    ensures r.Some? ==> offset <= r.value < |params| && params[r.value].name == name
    ensures r.Some? ==> forall i :: offset <= i < r.value ==> params[i].name != name
    ensures r.None? ==> forall i :: offset <= i < |params| ==> params[i].name != name
    decreases |params| - offset
  {
    if offset >= |params| then None
    else if params[offset].name == name then Some(offset)
    else FindByName(params, name, offset + 1)
  }

  // ---- the rule ----

  function Place(f: Prototype, a: Arguments, k: nat): Option<nat>
    requires k < |a.named|
  {
    FindByName(f.params, a.named[k].name, |a.indexed|)
  }

  // Every argument is placed somewhere
  predicate Placed(f: Prototype, a: Arguments, count: nat)
    requires count <= |a.named|
  {
    |a.indexed| <= |f.params| && forall k :: 0 <= k < count ==> Place(f, a, k).Some?
  }

  // The parameters once the indexed arguments and the first named ones are bound
  function Bound(f: Prototype, a: Arguments, count: nat): (r: seq<Option<nat>>)
    requires count <= |a.named| && Placed(f, a, count)
    ensures |r| == |f.params|
  {
    if count == 0 then seq(|f.params|, i => if 0 <= i < |a.indexed| then Some(a.indexed[i]) else None)
    else Bound(f, a, count - 1)[Place(f, a, count - 1).value := Some(a.named[count - 1].clid)]
  }

  function TmplFit(t: Types, f: Prototype, a: Arguments, i: nat): Match
    requires i < |a.tmplIndexed| <= |f.tmplparams|
  {
    Fit(t, a.tmplIndexed[i], f.tmplparams[i].clid)
  }

  function IndexedFit(t: Types, f: Prototype, a: Arguments, i: nat): Match
    requires i < |a.indexed| <= |f.params|
  {
    Fit(t, a.indexed[i], f.params[i].clid)
  }

  function NamedFit(t: Types, f: Prototype, a: Arguments, k: nat): Match
    requires k < |a.named|
  {
    match Place(f, a, k)
    case None => NoMatch
    case Some(i) => Fit(t, a.named[k].clid, f.params[i].clid)
  }

  predicate ReturnFits(t: Types, f: Prototype, a: Arguments) {
    if |a.rettype| == 1 then t.wanted(a.rettype[0]) ==> t.similar(a.rettype[0], f.returned) != NoMatch
    else |a.rettype| == 0 && t.nothing(f.returned)
  }

  predicate Provided(t: Types, p: Option<nat>) { p.Some? && !t.void(p.value) }

  predicate ProvidedFrom(t: Types, values: seq<Option<nat>>, first: nat) {
    forall i :: first <= i < |values| ==> Provided(t, values[i])
  }

  predicate TmplsMatch(t: Types, f: Prototype, a: Arguments)
    requires |a.tmplIndexed| <= |f.tmplparams|
  {
    forall i :: 0 <= i < |a.tmplIndexed| ==> TmplFit(t, f, a, i) != NoMatch
  }

  predicate IndexedMatch(t: Types, f: Prototype, a: Arguments)
    requires |a.indexed| <= |f.params|
  {
    forall i :: 0 <= i < |a.indexed| ==> IndexedFit(t, f, a, i) != NoMatch
  }

  predicate NamedMatch(t: Types, f: Prototype, a: Arguments) {
    forall k :: 0 <= k < |a.named| ==> NamedFit(t, f, a, k) != NoMatch
  }

  predicate Accepts(t: Types, f: Prototype, a: Arguments) {
    && |a.indexed| <= |f.params| && |a.tmplIndexed| == |f.tmplparams| && a.tmplNamed == []
    && TmplsMatch(t, f, a) && IndexedMatch(t, f, a) && NamedMatch(t, f, a)
    && Placed(f, a, |a.named|) && ProvidedFrom(t, Bound(f, a, |a.named|), |a.indexed|)
    && ReturnFits(t, f, a)
  }

  // How the first arguments of each kind match
  function TmplFits(t: Types, f: Prototype, a: Arguments, n: nat): (r: seq<Match>)
    requires n <= |a.tmplIndexed| <= |f.tmplparams|
    ensures |r| == n
  {
    seq(n, i requires 0 <= i < n => TmplFit(t, f, a, i))
  }

  function IndexedFits(t: Types, f: Prototype, a: Arguments, n: nat): (r: seq<Match>)
    requires n <= |a.indexed| <= |f.params|
    ensures |r| == n
  {
    seq(n, i requires 0 <= i < n => IndexedFit(t, f, a, i))
  }

  function NamedFits(t: Types, f: Prototype, a: Arguments, n: nat): (r: seq<Match>)
    requires n <= |a.named|
    ensures |r| == n
  {
    seq(n, k requires 0 <= k < n => NamedFit(t, f, a, k))
  }

  function Fits(t: Types, f: Prototype, a: Arguments): seq<Match>
    requires |a.indexed| <= |f.params| && |a.tmplIndexed| <= |f.tmplparams|
  {
    TmplFits(t, f, a, |a.tmplIndexed|) + IndexedFits(t, f, a, |a.indexed|) + NamedFits(t, f, a, |a.named|)
  }

  // The number of strict matches
  function Strictness(ms: seq<Match>): (n: nat)
    ensures n <= |ms|
    ensures n == |ms| <==> forall i :: 0 <= i < |ms| ==> ms[i] == StrictEqual
  {
    if ms == [] then 0 else Strictness(ms[..|ms| - 1]) + if ms[|ms| - 1] == StrictEqual then 1 else 0
  }

  lemma {:induction false} StrictnessCat(a: seq<Match>, b: seq<Match>)
    ensures Strictness(a + b) == Strictness(a) + Strictness(b)
    decreases |b|
  {
    if b == [] {
      assert a + b == a;
    } else {
      StrictnessCat(a, b[..|b| - 1]);
      assert (a + b)[..|a + b| - 1] == a + b[..|b| - 1];
    }
  }

  lemma StrictnessStep(ms: seq<Match>, m: Match)
    ensures Strictness(ms + [m]) == Strictness(ms) + if m == StrictEqual then 1 else 0
  {
    assert (ms + [m])[..|ms|] == ms;
  }

  // ---- what the rule promises ----

  // The type of a named argument suits the parameter it binds
  ghost predicate Suits(t: Types, f: Prototype, a: Arguments, k: nat)
    requires k < |a.named|
  {
    exists i: nat ::
      BindsIt(f, a, i, k) && !t.any(a.named[k].clid) && t.similar(a.named[k].clid, f.params[i].clid) != NoMatch
  }

  // The last argument of its name is the value of a parameter
  ghost predicate HasValue(t: Types, f: Prototype, a: Arguments, i: nat) {
    exists k: nat ::
      BindsIt(f, a, i, k) && !t.void(a.named[k].clid) && forall l :: k < l < |a.named| ==> !BindsIt(f, a, i, l)
  }

  // In terms of the type checker: the arguments fit the parameters which they bind, each other parameter has a value,
  // and the result is one which is wanted
  lemma AcceptsMeans(t: Types, f: Prototype, a: Arguments)
    ensures Accepts(t, f, a) <==>
      && |a.indexed| <= |f.params| && |a.tmplIndexed| == |f.tmplparams| && a.tmplNamed == []
      && (forall i :: 0 <= i < |a.tmplIndexed| ==>
            !t.any(a.tmplIndexed[i]) && t.similar(a.tmplIndexed[i], f.tmplparams[i].clid) != NoMatch)
      && (forall i :: 0 <= i < |a.indexed| ==>
            !t.any(a.indexed[i]) && t.similar(a.indexed[i], f.params[i].clid) != NoMatch)
      && (forall k :: 0 <= k < |a.named| ==> Suits(t, f, a, k))
      && (forall i :: |a.indexed| <= i < |f.params| ==> HasValue(t, f, a, i))
      && (|a.rettype| == 1 && t.wanted(a.rettype[0]) ==> t.similar(a.rettype[0], f.returned) != NoMatch)
      && |a.rettype| <= 1 && (a.rettype == [] ==> t.nothing(f.returned))
  {
    NamedMeans(t, f, a);
    if |a.indexed| <= |f.params| && |a.tmplIndexed| == |f.tmplparams| {
      IndexedMeans(t, f, a);
      if Placed(f, a, |a.named|) {
        ValuesMean(t, f, a);
      }
      hide Bound;
      hide Placed;
    }
    hide Suits;
    hide HasValue;
    hide NamedMatch;
    hide IndexedMatch;
    hide TmplsMatch;
    hide ProvidedFrom;
  }

  lemma IndexedMeans(t: Types, f: Prototype, a: Arguments)
    requires |a.indexed| <= |f.params| && |a.tmplIndexed| <= |f.tmplparams|
    ensures IndexedMatch(t, f, a) <==> forall i :: 0 <= i < |a.indexed| ==>
              !t.any(a.indexed[i]) && t.similar(a.indexed[i], f.params[i].clid) != NoMatch
    ensures TmplsMatch(t, f, a) <==> forall i :: 0 <= i < |a.tmplIndexed| ==>
              !t.any(a.tmplIndexed[i]) && t.similar(a.tmplIndexed[i], f.tmplparams[i].clid) != NoMatch
  {
    assert forall i :: 0 <= i < |a.indexed| ==>
      (IndexedFit(t, f, a, i) != NoMatch
       <==> !t.any(a.indexed[i]) && t.similar(a.indexed[i], f.params[i].clid) != NoMatch);
    assert forall i :: 0 <= i < |a.tmplIndexed| ==>
      (TmplFit(t, f, a, i) != NoMatch
       <==> !t.any(a.tmplIndexed[i]) && t.similar(a.tmplIndexed[i], f.tmplparams[i].clid) != NoMatch);
  }

  lemma NamedMeans(t: Types, f: Prototype, a: Arguments)
    ensures NamedMatch(t, f, a) <==> forall k :: 0 <= k < |a.named| ==> Suits(t, f, a, k)
    ensures NamedMatch(t, f, a) && |a.indexed| <= |f.params| ==> Placed(f, a, |a.named|)
  {
    forall k | 0 <= k < |a.named|
      ensures NamedFit(t, f, a, k) != NoMatch <==> Suits(t, f, a, k)
      ensures Suits(t, f, a, k) ==> Place(f, a, k).Some?
    {
      PlaceIs(f, a, k);
    }
  }

  lemma ValuesMean(t: Types, f: Prototype, a: Arguments)
    requires Placed(f, a, |a.named|)
    ensures ProvidedFrom(t, Bound(f, a, |a.named|), |a.indexed|)
      <==> forall i :: |a.indexed| <= i < |f.params| ==> HasValue(t, f, a, i)
  {
    ghost var values := Bound(f, a, |a.named|);
    forall i | |a.indexed| <= i < |f.params|
      ensures Provided(t, values[i]) <==> HasValue(t, f, a, i)
    {
      LastBinds(f, a, |a.named|, i);
    }
    hide HasValue;
    hide Provided;
    hide Bound;
  }

  lemma PlaceIs(f: Prototype, a: Arguments, k: nat)
    requires k < |a.named|
    ensures forall i: nat :: BindsIt(f, a, i, k) <==> Place(f, a, k) == Some(i)
  {
  }

  // The last argument of the name of a parameter is its value
  lemma {:induction false} LastBinds(f: Prototype, a: Arguments, count: nat, i: nat)
    requires count <= |a.named| && Placed(f, a, count) && |a.indexed| <= i < |f.params|
    ensures Bound(f, a, count)[i].None? <==> forall k :: 0 <= k < count ==> !BindsIt(f, a, i, k)
    ensures Bound(f, a, count)[i].Some? ==> exists k: nat ::
              k < count && BindsIt(f, a, i, k) && Bound(f, a, count)[i] == Some(a.named[k].clid)
              && forall l :: k < l < count ==> !BindsIt(f, a, i, l)
    decreases count
  {
    if count > 0 {
      LastBinds(f, a, count - 1, i);
      PlaceIs(f, a, count - 1);
    }
  }

  // The score counts the arguments which match strictly, and the match is strict when all of them do
  lemma FitsMean(t: Types, f: Prototype, a: Arguments)
    requires Accepts(t, f, a)
    ensures |Fits(t, f, a)| == |a.tmplIndexed| + |a.indexed| + |a.named|
    ensures forall i :: 0 <= i < |a.tmplIndexed| ==>
      Fits(t, f, a)[i] == t.similar(a.tmplIndexed[i], f.tmplparams[i].clid)
    ensures forall i :: 0 <= i < |a.indexed| ==>
      Fits(t, f, a)[|a.tmplIndexed| + i] == t.similar(a.indexed[i], f.params[i].clid)
    ensures forall i: nat, k: nat :: BindsIt(f, a, i, k) ==>
      Fits(t, f, a)[|a.tmplIndexed| + |a.indexed| + k] == t.similar(a.named[k].clid, f.params[i].clid)
  {
    forall i: nat, k: nat | BindsIt(f, a, i, k)
      ensures Fits(t, f, a)[|a.tmplIndexed| + |a.indexed| + k] == t.similar(a.named[k].clid, f.params[i].clid)
    {
      PlaceIs(f, a, k);
      assert NamedFit(t, f, a, k) != NoMatch;
    }
    assert forall i :: 0 <= i < |a.tmplIndexed| ==> TmplFit(t, f, a, i) != NoMatch;
    assert forall i :: 0 <= i < |a.indexed| ==> IndexedFit(t, f, a, i) != NoMatch;
  }

  predicate DistinctNames(a: Arguments) {
    forall k, l :: 0 <= k < l < |a.named| ==> a.named[k].name != a.named[l].name
  }

  // A parameter which was bound to a named argument still is
  lemma {:induction false} BoundTo(f: Prototype, a: Arguments, count: nat, i: nat)
    requires count <= |a.named| && Placed(f, a, count) && |a.indexed| <= i < |f.params|
    ensures Bound(f, a, count)[i].Some? ==>
      exists k :: 0 <= k < count && Place(f, a, k) == Some(i) && Bound(f, a, count)[i] == Some(a.named[k].clid)
    ensures Bound(f, a, count)[i].None? ==> forall k :: 0 <= k < count ==> Place(f, a, k) != Some(i)
    decreases count
  {
    if count > 0 {
      BoundTo(f, a, count - 1, i);
      if Place(f, a, count - 1) == Some(i) {
        assert Bound(f, a, count)[i] == Some(a.named[count - 1].clid);
      } else {
        assert Bound(f, a, count)[i] == Bound(f, a, count - 1)[i];
      }
    }
  }

  lemma {:induction false} IndexedFirst(f: Prototype, a: Arguments, count: nat, i: nat)
    requires count <= |a.named| && Placed(f, a, count) && i < |a.indexed|
    ensures Bound(f, a, count)[i] == Some(a.indexed[i])
    decreases count
  {
    if count > 0 {
      IndexedFirst(f, a, count - 1, i);
    }
  }

  // The one argument which binds the i-th parameter
  ghost predicate BindsIt(f: Prototype, a: Arguments, i: nat, k: nat) {
    && k < |a.named| && |a.indexed| <= i < |f.params|
    && f.params[i].name == a.named[k].name
    && forall j :: |a.indexed| <= j < i ==> f.params[j].name != a.named[k].name
  }

  lemma BoundNext(f: Prototype, a: Arguments, k: nat)
    requires k < |a.named| && Placed(f, a, k + 1)
    ensures Bound(f, a, k + 1) == Bound(f, a, k)[Place(f, a, k).value := Some(a.named[k].clid)]
  {
  }

  lemma AcceptedPlaced(t: Types, f: Prototype, a: Arguments)
    requires Accepts(t, f, a)
    ensures Placed(f, a, |a.named|)
  {
    forall k | 0 <= k < |a.named|
      ensures Place(f, a, k).Some?
    {
      assert NamedFit(t, f, a, k) != NoMatch;
    }
  }

  // An accepted call whose arguments have distinct names: the indexed arguments bind the first parameters in order,
  // and each other parameter is bound by exactly one named argument, at the first parameter of that name
  lemma BindingIsTotal(t: Types, f: Prototype, a: Arguments, i: nat)
    requires Accepts(t, f, a) && DistinctNames(a) && i < |f.params|
    ensures Placed(f, a, |a.named|)
    ensures i < |a.indexed| ==>
      Bound(f, a, |a.named|)[i] == Some(a.indexed[i]) && forall k: nat :: !BindsIt(f, a, i, k)
    ensures i >= |a.indexed| ==>
      exists k: nat :: BindsIt(f, a, i, k) && Bound(f, a, |a.named|)[i] == Some(a.named[k].clid)
    ensures forall k: nat, l: nat :: BindsIt(f, a, i, k) && BindsIt(f, a, i, l) ==> k == l
  {
    AcceptedPlaced(t, f, a);
    if i < |a.indexed| {
      IndexedFirst(f, a, |a.named|, i);
    } else {
      BoundTo(f, a, |a.named|, i);
      assert Provided(t, Bound(f, a, |a.named|)[i]);
      var k :| 0 <= k < |a.named| && Place(f, a, k) == Some(i) && Bound(f, a, |a.named|)[i] == Some(a.named[k].clid);
      assert BindsIt(f, a, i, k);
    }
  }

  // No argument is lost either
  lemma EveryArgumentBinds(t: Types, f: Prototype, a: Arguments, k: nat)
    requires Accepts(t, f, a) && k < |a.named|
    ensures exists i: nat :: BindsIt(f, a, i, k)
  {
    AcceptedPlaced(t, f, a);
    assert BindsIt(f, a, Place(f, a, k).value, k);
  }

  // Two arguments of the same name are accepted: the last one silently replaces the other one
  lemma SameNameReplaces(t: Types, name: string, first: nat, last: nat, param: nat, returned: nat)
    requires Fit(t, first, param) != NoMatch && Fit(t, last, param) != NoMatch && !t.void(last)
    requires t.nothing(returned)
    ensures var f := Prototype([Parameter(name, param)], [], returned);
      var a := Arguments([], [], [Parameter(name, first), Parameter(name, last)], [], []);
      Accepts(t, f, a) && Bound(f, a, 2) == [Some(last)]
  {
    var f := Prototype([Parameter(name, param)], [], returned);
    var a := Arguments([], [], [Parameter(name, first), Parameter(name, last)], [], []);
    assert FindByName(f.params, name, 0) == Some(0);
    assert Place(f, a, 0) == Some(0) && Place(f, a, 1) == Some(0);
    assert Bound(f, a, 1) == [Some(first)];
    assert Bound(f, a, 2) == [Some(last)];
  }

  // ---- the search ----

  method FindParameter(params: seq<Parameter>, name: string, offset: nat) returns (r: Option<nat>)
    ensures r == FindByName(params, name, offset)
  {
    var i := offset;
    while i < |params|
      invariant offset <= i
      invariant FindByName(params, name, offset) == FindByName(params, name, i)
    {
      if params[i].name == name {
        return Some(i);
      }
      i := i + 1;
    }
    return None;
  }

  class FuncOverloadMatch {
    const types: Types
    var input: Arguments
    var params: seq<Option<nat>>
    var tmplparams: seq<Option<nat>>
    var score: nat
    var perfectMatch: bool

    constructor (t: Types, a: Arguments)
      ensures types == t && input == a
    {
      types, input, params, tmplparams, score, perfectMatch := t, a, [], [], 0, true;
    }

    // One more argument: the number of strict matches grows, or the match is no longer perfect
    method Push(strategy: Match, strict: nat, ghost before: seq<Match>) returns (ok: bool, now: nat)
      requires strict == Strictness(before) && (perfectMatch <==> strict == |before|)
      modifies this`perfectMatch
      ensures ok <==> strategy != NoMatch
      ensures ok ==> now == Strictness(before + [strategy])
      ensures ok ==> (perfectMatch <==> now == |before| + 1)
    {
      StrictnessStep(before, strategy);
      ok, now := true, strict;
      match strategy
      case Equal => perfectMatch := false;
      case StrictEqual => now := strict + 1;
      case NoMatch => ok := false;
    }

    method PushTemplates(f: Prototype) returns (ok: bool, strict: nat)
      requires |input.tmplIndexed| <= |f.tmplparams| == |tmplparams| && perfectMatch
      modifies this`tmplparams, this`perfectMatch
      ensures |tmplparams| == |f.tmplparams|
      ensures ok <==> TmplsMatch(types, f, input)
      ensures ok ==> strict == Strictness(TmplFits(types, f, input, |input.tmplIndexed|))
      ensures ok ==> NoneMissing(TmplFits(types, f, input, |input.tmplIndexed|))
      ensures ok ==> (perfectMatch <==> strict == |input.tmplIndexed|)
      ensures ok && old(tmplparams) == seq(|f.tmplparams|, _ => None) ==>
        (ProvidedFrom(types, tmplparams, |input.tmplIndexed|) <==> |input.tmplIndexed| == |f.tmplparams|)
    {
      hide Strictness;
      StrictnessNone();
      strict := 0;
      ghost var fits: seq<Match> := [];
      for i := 0 to |input.tmplIndexed|
        invariant |tmplparams| == |f.tmplparams|
        invariant fits == TmplFits(types, f, input, i)
        invariant forall j :: 0 <= j < i ==> fits[j] != NoMatch
        invariant strict == Strictness(fits) && (perfectMatch <==> strict == i)
        invariant forall j :: i <= j < |tmplparams| ==> tmplparams[j] == old(tmplparams)[j]
      {
        tmplparams := tmplparams[i := Some(input.tmplIndexed[i])];
        ok, strict := Push(TmplFit(types, f, input, i), strict, fits);
        if !ok {
          return;
        }
        fits := fits + [TmplFit(types, f, input, i)];
      }
      ok := true;
      assert forall i :: 0 <= i < |fits| ==> fits[i] == TmplFit(types, f, input, i);
      assert |input.tmplIndexed| < |f.tmplparams| && old(tmplparams) == seq(|f.tmplparams|, _ => None) ==>
        !Provided(types, tmplparams[|input.tmplIndexed|]);
    }

    method PushIndexed(f: Prototype, before: nat, ghost fitted: seq<Match>) returns (ok: bool, strict: nat)
      requires |input.indexed| <= |f.params| && params == seq(|f.params|, _ => None)
      requires NoneMissing(fitted)
      requires before == Strictness(fitted) && (perfectMatch <==> before == |fitted|)
      modifies this`params, this`perfectMatch
      ensures ok <==> IndexedMatch(types, f, input)
      ensures ok ==> params == Bound(f, input, 0)
      ensures ok ==> strict == Strictness(fitted + IndexedFits(types, f, input, |input.indexed|))
      ensures ok ==> NoneMissing(fitted + IndexedFits(types, f, input, |input.indexed|))
      ensures ok ==> (perfectMatch <==> strict == |fitted| + |input.indexed|)
    {
      hide Strictness;
      strict := before;
      ghost var fits := fitted;
      for i := 0 to |input.indexed|
        invariant |params| == |f.params|
        invariant forall j :: 0 <= j < i ==> params[j] == Some(input.indexed[j])
        invariant forall j :: i <= j < |params| ==> params[j] == None
        invariant fits == fitted + IndexedFits(types, f, input, i)
        invariant forall j :: 0 <= j < |fits| ==> fits[j] != NoMatch
        invariant forall j :: 0 <= j < i ==> IndexedFit(types, f, input, j) != NoMatch
        invariant strict == Strictness(fits) && (perfectMatch <==> strict == |fits|)
      {
        params := params[i := Some(input.indexed[i])];
        ok, strict := Push(IndexedFit(types, f, input, i), strict, fits);
        if !ok {
          return;
        }
        fits := fits + [IndexedFit(types, f, input, i)];
      }
      ok := true;
      assert params == Bound(f, input, 0);
    }

    method PushNamed(f: Prototype, before: nat, ghost fitted: seq<Match>) returns (ok: bool, strict: nat)
      requires |input.indexed| <= |f.params| && params == Bound(f, input, 0)
      requires NoneMissing(fitted)
      requires before == Strictness(fitted) && (perfectMatch <==> before == |fitted|)
      modifies this`params, this`perfectMatch
      ensures ok <==> NamedMatch(types, f, input)
      ensures ok ==> Placed(f, input, |input.named|) && params == Bound(f, input, |input.named|)
      ensures ok ==> strict == Strictness(fitted + NamedFits(types, f, input, |input.named|))
      ensures ok ==> (perfectMatch <==> strict == |fitted| + |input.named|)
    {
      hide Strictness;
      hide FindByName;
      hide Bound;
      strict := before;
      ghost var fits := fitted;
      for k := 0 to |input.named|
        invariant Placed(f, input, k) && params == Bound(f, input, k)
        invariant fits == fitted + NamedFits(types, f, input, k)
        invariant forall j :: 0 <= j < |fits| ==> fits[j] != NoMatch
        invariant forall j :: 0 <= j < k ==> NamedFit(types, f, input, j) != NoMatch
        invariant strict == Strictness(fits) && (perfectMatch <==> strict == |fits|)
      {
        var index := FindParameter(f.params, input.named[k].name, |input.indexed|);
        assert index == Place(f, input, k);
        if index.None? {
          assert NamedFit(types, f, input, k) == NoMatch;
          return false, strict;
        }
        assert Placed(f, input, k + 1);
        BoundNext(f, input, k);
        params := params[index.value := Some(input.named[k].clid)];
        ok, strict := Push(NamedFit(types, f, input, k), strict, fits);
        if !ok {
          return;
        }
        fits := fits + [NamedFit(types, f, input, k)];
      }
      ok := true;
    }

    // Every parameter from 'first' got a value
    method AllProvided(values: seq<Option<nat>>, first: nat) returns (ok: bool)
      ensures ok <==> ProvidedFrom(types, values, first)
    {
      var i := first;
      while i < |values|
        invariant forall j :: first <= j < i && j < |values| ==> Provided(types, values[j])
      {
        if values[i].None? || types.void(values[i].value) {
          assert !Provided(types, values[i]);
          return false;
        }
        i := i + 1;
      }
      return true;
    }

    // The match is strict exactly when every argument matches strictly
    method Validate(f: Prototype) returns (m: Match)
      modifies this`params, this`tmplparams, this`score, this`perfectMatch
      ensures m != NoMatch <==> Accepts(types, f, input)
      ensures m != NoMatch ==> (m == StrictEqual <==> forall s :: s in Fits(types, f, input) ==> s == StrictEqual)
      ensures m != NoMatch ==> params == Bound(f, input, |input.named|)
      ensures score == match m
                       case NoMatch => 0
                       case Equal => Strictness(Fits(types, f, input))
                       case StrictEqual => 0xFFFF_FFFF
    {
      hide *;
      FitsIs(types, f, input);
      AcceptsIs(types, f, input);
      score := 0;
      if |f.params| < |input.indexed| || |f.tmplparams| < |input.tmplIndexed| {
        return NoMatch;
      }
      perfectMatch := true;
      params := seq(|f.params|, _ => None);
      tmplparams := seq(|f.tmplparams|, _ => None);
      var ok, strict := PushTemplates(f);
      if !ok || input.tmplNamed != [] {
        return NoMatch;
      }
      ghost var fits := TmplFits(types, f, input, |input.tmplIndexed|);
      ok, strict := PushIndexed(f, strict, fits);
      if !ok {
        return NoMatch;
      }
      fits := fits + IndexedFits(types, f, input, |input.indexed|);
      ok, strict := PushNamed(f, strict, fits);
      if !ok {
        return NoMatch;
      }
      fits := fits + NamedFits(types, f, input, |input.named|);
      ok := AllProvided(tmplparams, |input.tmplIndexed|);
      if !ok {
        return NoMatch;
      }
      ok := AllProvided(params, |input.indexed|);
      if !ok {
        return NoMatch;
      }
      if |input.rettype| == 1 {
        if types.wanted(input.rettype[0]) && types.similar(input.rettype[0], f.returned) == NoMatch {
          return NoMatch;
        }
      } else if |input.rettype| != 0 || !types.nothing(f.returned) {
        return NoMatch;
      }
      StrictnessFull(fits);
      if !perfectMatch {
        score := strict;
        return Equal;
      }
      score := 0xFFFF_FFFF;
      return StrictEqual;
    }
  }

  lemma StrictnessFull(ms: seq<Match>)
    ensures Strictness(ms) == |ms| <==> forall s :: s in ms ==> s == StrictEqual
  {
    assert forall i :: 0 <= i < |ms| ==> ms[i] in ms;
  }

  lemma FitsIs(t: Types, f: Prototype, a: Arguments)
    ensures |a.indexed| <= |f.params| && |a.tmplIndexed| <= |f.tmplparams| ==>
      Fits(t, f, a)
      == TmplFits(t, f, a, |a.tmplIndexed|) + IndexedFits(t, f, a, |a.indexed|) + NamedFits(t, f, a, |a.named|)
  {
    hide NamedFit;
    hide IndexedFit;
    hide TmplFit;
  }

  // Every match of a list is one
  predicate NoneMissing(ms: seq<Match>) { forall i :: 0 <= i < |ms| ==> ms[i] != NoMatch }

  lemma AcceptsIs(t: Types, f: Prototype, a: Arguments)
    ensures |a.indexed| > |f.params| || |a.tmplIndexed| > |f.tmplparams| || a.tmplNamed != [] ==> !Accepts(t, f, a)
    ensures |a.indexed| <= |f.params| && |a.tmplIndexed| <= |f.tmplparams| && a.tmplNamed == [] ==>
      (Accepts(t, f, a) <==>
         && TmplsMatch(t, f, a) && IndexedMatch(t, f, a) && NamedMatch(t, f, a) && Placed(f, a, |a.named|)
         && |a.tmplIndexed| == |f.tmplparams| && ProvidedFrom(t, Bound(f, a, |a.named|), |a.indexed|)
         && (if |a.rettype| == 1 then t.wanted(a.rettype[0]) ==> t.similar(a.rettype[0], f.returned) != NoMatch
             else |a.rettype| == 0 && t.nothing(f.returned)))
  {
    hide Bound;
    hide NamedMatch;
    hide IndexedMatch;
    hide TmplsMatch;
    hide ProvidedFrom;
    hide Placed;
  }

  lemma StrictnessNone()
    ensures Strictness([]) == 0
  {
  }
}
