// Resolution of a call to an overloaded function, among its candidates.
module Overloads {

  datatype Option<+T> = None | Some(value: T)

  datatype Match = NoMatch | Equal | StrictEqual

  // What is known of a candidate: how well it matches the arguments, the number of those which match strictly, and
  // whether its body can be instanciated for them
  datatype Candidate = Candidate(atomid: nat, fits: Match, score: nat, instanciable: bool)

  // ---- the rule ----

  datatype Test = Suitable | Strict | Instanciable | AtLeast(score: nat)

  predicate Passes(c: Candidate, t: Test) {
    !c.fits.NoMatch? &&
    match t
    case Suitable => true
    case Strict => c.fits.StrictEqual?
    case Instanciable => c.instanciable
    case AtLeast(score) => c.score >= score
  }

  function Count(cs: seq<Candidate>, t: Test): (n: nat)
    ensures n <= |cs|
    ensures n == 0 <==> forall c :: c in cs ==> !Passes(c, t)
  {
    if cs == [] then 0 else Count(cs[..|cs| - 1], t) + if Passes(cs[|cs| - 1], t) then 1 else 0
  }

  predicate IsBest(cs: seq<Candidate>, c: Candidate) {
    c in cs && Passes(c, Suitable) && c.score > 0 && Count(cs, AtLeast(c.score)) == 1
  }

  // The only suitable candidate; else the only strict match; else, without any, the one best score which is not
  // null; else the only one which can be instanciated
  ghost predicate Chooses(cs: seq<Candidate>, c: Candidate) {
    c in cs &&
    if Count(cs, Suitable) <= 1 then Passes(c, Suitable)
    else if Count(cs, Strict) == 1 then Passes(c, Strict)
    else if Count(cs, Strict) == 0 && HasBest(cs) then IsBest(cs, c)
    else Count(cs, Instanciable) == 1 && Passes(c, Instanciable)
  }

  ghost predicate HasBest(cs: seq<Candidate>) { exists c :: IsBest(cs, c) }

  // ---- counting ----

  lemma {:induction false} CountCat(a: seq<Candidate>, b: seq<Candidate>, t: Test)
    ensures Count(a + b, t) == Count(a, t) + Count(b, t)
    decreases |b|
  {
    if b == [] {
      assert a + b == a;
    } else {
      CountCat(a, b[..|b| - 1], t);
      assert (a + b)[..|a + b| - 1] == a + b[..|b| - 1];
    }
  }

  lemma CountOne(c: Candidate, t: Test)
    ensures Count([c], t) == if Passes(c, t) then 1 else 0
  {
    assert [c][..0] == [];
  }

  lemma CountWithout(cs: seq<Candidate>, i: nat, t: Test)
    requires i < |cs|
    ensures Count(cs, t) == Count(cs[..i] + cs[i + 1..], t) + if Passes(cs[i], t) then 1 else 0
  {
    assert cs == cs[..i] + ([cs[i]] + cs[i + 1..]);
    CountCat(cs[..i], [cs[i]] + cs[i + 1..], t);
    CountCat([cs[i]], cs[i + 1..], t);
    CountCat(cs[..i], cs[i + 1..], t);
    CountOne(cs[i], t);
  }

  lemma CountEmpty(t: Test)
    ensures Count([], t) == 0
  {
  }

  lemma CountStep(cs: seq<Candidate>, k: nat, t: Test)
    requires k < |cs|
    ensures Count(cs[..k + 1], t) == Count(cs[..k], t) + if Passes(cs[k], t) then 1 else 0
  {
    assert cs[..k + 1][..k] == cs[..k];
  }

  lemma Without(cs: seq<Candidate>, i: nat)
    requires i < |cs|
    ensures multiset(cs[..i] + cs[i + 1..]) == multiset(cs) - multiset{cs[i]}
  {
    assert cs == cs[..i] + [cs[i]] + cs[i + 1..];
  }

  lemma {:induction false} CountPermuted(cs: seq<Candidate>, ds: seq<Candidate>, t: Test)
    requires multiset(cs) == multiset(ds)
    ensures Count(cs, t) == Count(ds, t)
    decreases |cs|
  {
    hide Count;
    hide Passes;
    if cs == [] {
      assert |multiset(ds)| == 0;
    } else {
      assert cs[0] in multiset(ds);
      var j :| 0 <= j < |ds| && ds[j] == cs[0];
      var rest, others := cs[1..], ds[..j] + ds[j + 1..];
      assert cs == [cs[0]] + rest;
      Without(cs, 0);
      Without(ds, j);
      assert cs[..0] + cs[1..] == rest;
      CountPermuted(rest, others, t);
      CountWithout(ds, j, t);
      CountCat([cs[0]], rest, t);
      CountOne(cs[0], t);
    }
  }

  lemma OnlyOne(cs: seq<Candidate>, t: Test, c: Candidate, d: Candidate)
    requires Count(cs, t) <= 1 && c in cs && d in cs && Passes(c, t) && Passes(d, t)
    ensures c == d
  {
    var i :| 0 <= i < |cs| && cs[i] == c;
    CountWithout(cs, i, t);
    Others(cs, i, d);
  }

  lemma Others(cs: seq<Candidate>, i: nat, d: Candidate)
    requires i < |cs| && d in cs
    ensures d == cs[i] || d in cs[..i] + cs[i + 1..]
  {
    var j :| 0 <= j < |cs| && cs[j] == d;
    if j < i {
      assert (cs[..i] + cs[i + 1..])[j] == d;
    } else if j > i {
      assert (cs[..i] + cs[i + 1..])[j - 1] == d;
    }
  }

  lemma OneBest(cs: seq<Candidate>, c: Candidate, d: Candidate)
    requires IsBest(cs, c) && IsBest(cs, d)
    ensures c == d
  {
    if c.score <= d.score {
      OnlyOne(cs, AtLeast(c.score), c, d);
    } else {
      OnlyOne(cs, AtLeast(d.score), c, d);
    }
  }

  // ---- what the rule promises ----

  lemma ChoosesOne(cs: seq<Candidate>, c: Candidate, d: Candidate)
    requires Chooses(cs, c) && Chooses(cs, d)
    ensures c == d
  {
    if Count(cs, Suitable) <= 1 {
      OnlyOne(cs, Suitable, c, d);
    } else if Count(cs, Strict) == 1 {
      OnlyOne(cs, Strict, c, d);
    } else if Count(cs, Strict) == 0 && HasBest(cs) {
      OneBest(cs, c, d);
    } else {
      OnlyOne(cs, Instanciable, c, d);
    }
  }

  lemma BestPermuted(cs: seq<Candidate>, ds: seq<Candidate>, c: Candidate)
    requires multiset(cs) == multiset(ds)
    ensures IsBest(cs, c) <==> IsBest(ds, c)
  {
    CountPermuted(cs, ds, AtLeast(c.score));
    assert c in cs <==> c in multiset(cs);
    assert c in ds <==> c in multiset(ds);
  }

  // Whatever the order of the candidates, the same one is chosen, or none
  lemma OrderIndependent(cs: seq<Candidate>, ds: seq<Candidate>)
    requires multiset(cs) == multiset(ds)
    ensures forall c :: Chooses(cs, c) <==> Chooses(ds, c)
  {
    forall c: Candidate
      ensures c in cs <==> c in ds
    {
      assert c in cs <==> c in multiset(cs);
      assert c in ds <==> c in multiset(ds);
    }
    forall c: Candidate
      ensures IsBest(cs, c) <==> IsBest(ds, c)
    {
      BestPermuted(cs, ds, c);
    }
    CountPermuted(cs, ds, Suitable);
    CountPermuted(cs, ds, Strict);
    CountPermuted(cs, ds, Instanciable);
  }

  // ---- the resolver ----

  class Resolver {
    var atom: Option<nat>         // the chosen candidate, by index
    var suitableCount: nat
    var suitable: seq<bool>
    var scores: seq<nat>

    constructor ()
      ensures atom == None && suitableCount == 0
    {
      atom, suitableCount, suitable, scores := None, 0, [], [];
    }

    // The candidates which match the arguments, and the last strict match
    method FindSuitable(solutions: seq<Candidate>) returns (perfectMatch: Option<nat>, perfectMatchCount: nat)
      requires suitableCount == 0
      modifies this
      ensures |suitable| == |scores| == |solutions|
      ensures forall k :: 0 <= k < |solutions| ==>
        suitable[k] == Passes(solutions[k], Suitable) && (suitable[k] ==> scores[k] == solutions[k].score)
      ensures suitableCount == Count(solutions, Suitable)
      ensures suitableCount > 0 ==>
        atom.Some? && atom.value < |solutions| && Passes(solutions[atom.value], Suitable)
      ensures perfectMatchCount == Count(solutions, Strict)
      ensures perfectMatchCount > 0 <==> perfectMatch.Some?
      ensures perfectMatch.Some? ==>
        perfectMatch.value < |solutions| && Passes(solutions[perfectMatch.value], Strict)
    {
      hide Count;
      CountEmpty(Suitable);
      CountEmpty(Strict);
      suitable := seq(|solutions|, _ => false);
      scores := seq(|solutions|, _ => 0);
      atom, perfectMatch, perfectMatchCount := None, None, 0;
      var r := 0;
      while r != |solutions|
        invariant r <= |solutions| == |suitable| == |scores|
        invariant forall k :: 0 <= k < r ==>
          suitable[k] == Passes(solutions[k], Suitable) && (suitable[k] ==> scores[k] == solutions[k].score)
        invariant forall k :: r <= k < |solutions| ==> !suitable[k]
        invariant suitableCount == Count(solutions[..r], Suitable)
        invariant suitableCount > 0 ==> atom.Some? && atom.value < r && Passes(solutions[atom.value], Suitable)
        invariant perfectMatchCount == Count(solutions[..r], Strict)
        invariant perfectMatchCount > 0 <==> perfectMatch.Some?
        invariant perfectMatch.Some? ==> perfectMatch.value < r && Passes(solutions[perfectMatch.value], Strict)
        decreases |solutions| - r
      {
        CountStep(solutions, r, Suitable);
        CountStep(solutions, r, Strict);
        if solutions[r].fits != NoMatch {
          suitableCount := suitableCount + 1;
          suitable := suitable[r := true];
          scores := scores[r := solutions[r].score];
          atom := Some(r);
          if solutions[r].fits == StrictEqual {
            perfectMatch := atom;
            perfectMatchCount := perfectMatchCount + 1;
          }
        }
        r := r + 1;
      }
      assert solutions[..r] == solutions;
    }

    // The one candidate with the greatest score, if that score is not null
    method FindBest(solutions: seq<Candidate>) returns (best: Option<nat>)
      requires |suitable| == |scores| == |solutions|
      requires forall k :: 0 <= k < |solutions| ==>
        suitable[k] == Passes(solutions[k], Suitable) && (suitable[k] ==> scores[k] == solutions[k].score)
      ensures best.Some? ==> best.value < |solutions| && IsBest(solutions, solutions[best.value])
      ensures best.None? ==> !HasBest(solutions)
    {
      hide Count;
      var bestScoreIndex, bestScore, unique := 0, 0, true;
      var r := 0;
      while r != |solutions|
        invariant r <= |solutions|
        invariant forall k :: 0 <= k < r && suitable[k] ==> scores[k] <= bestScore
        invariant bestScore > 0 ==>
          bestScoreIndex < r && suitable[bestScoreIndex] && scores[bestScoreIndex] == bestScore
        invariant bestScore > 0 ==> (unique <==> Count(solutions[..r], AtLeast(bestScore)) == 1)
        invariant bestScore > 0 ==> Count(solutions[..r], AtLeast(bestScore)) > 0
        decreases |solutions| - r
      {
        CountStep(solutions, r, AtLeast(bestScore));
        if suitable[r] {
          var s := scores[r];
          if s > bestScore {
            CountStep(solutions, r, AtLeast(s));
            NoneAbove(solutions[..r], s);
            unique, bestScore, bestScoreIndex := true, s, r;
          } else if s == bestScore {
            unique := false;
          }
        }
        r := r + 1;
      }
      assert solutions[..r] == solutions;
      if bestScore != 0 && unique {
        best := Some(bestScoreIndex);
      } else {
        best := None;
        forall c | c in solutions
          ensures !IsBest(solutions, c)
        {
          NoBest(solutions, c, bestScore, bestScoreIndex);
        }
      }
    }

    // The number of candidates which can be instanciated, the last one being kept
    method Instanciate(solutions: seq<Candidate>) returns (instanceSuccessCount: nat)
      requires |suitable| == |solutions|
      requires forall k :: 0 <= k < |solutions| ==> suitable[k] == Passes(solutions[k], Suitable)
      modifies this`atom, this`suitable
      ensures instanceSuccessCount == Count(solutions, Instanciable)
      ensures instanceSuccessCount > 0 ==>
        atom.Some? && atom.value < |solutions| && Passes(solutions[atom.value], Instanciable)
      ensures |suitable| == |solutions|
      ensures instanceSuccessCount > 0 ==>
        forall k :: 0 <= k < |solutions| ==> suitable[k] == Passes(solutions[k], Instanciable)
    {
      hide Count;
      CountEmpty(Instanciable);
      instanceSuccessCount := 0;
      var canBeInstanciated := seq(|solutions|, _ => false);
      var r := 0;
      while r != |solutions|
        invariant r <= |solutions| == |canBeInstanciated|
        invariant suitable == old(suitable)
        invariant forall k :: 0 <= k < r ==> canBeInstanciated[k] == Passes(solutions[k], Instanciable)
        invariant forall k :: r <= k < |solutions| ==> !canBeInstanciated[k]
        invariant instanceSuccessCount == Count(solutions[..r], Instanciable)
        invariant instanceSuccessCount > 0 ==>
          atom.Some? && atom.value < r && Passes(solutions[atom.value], Instanciable)
        decreases |solutions| - r
      {
        CountStep(solutions, r, Instanciable);
        if suitable[r] && solutions[r].instanciable {
          instanceSuccessCount := instanceSuccessCount + 1;
          atom := Some(r);
          canBeInstanciated := canBeInstanciated[r := true];
        }
        r := r + 1;
      }
      assert solutions[..r] == solutions;
      if instanceSuccessCount > 0 {
        var k := 0;
        ghost var last := atom;
        while k != |suitable|
          invariant atom == last
          invariant k <= |suitable| == |solutions|
          invariant forall j :: 0 <= j < k ==> suitable[j] == Passes(solutions[j], Instanciable)
          invariant forall j :: k <= j < |suitable| ==> suitable[j] == old(suitable)[j]
          decreases |suitable| - k
        {
          suitable := suitable[k := suitable[k] && canBeInstanciated[k]];
          k := k + 1;
        }
      }
    }

    // A resolver is used once: the number of suitable solutions is never reset
    method Resolve(solutions: seq<Candidate>) returns (ok: bool)
      requires suitableCount == 0
      modifies this
      ensures ok ==> atom.Some? && atom.value < |solutions| && Chooses(solutions, solutions[atom.value])
      ensures !ok ==> forall c :: !Chooses(solutions, c)
      ensures ok <==> suitableCount == 1
    {
      if |solutions| == 0 {
        atom := None;
        return false;
      }
      var perfectMatch, perfectMatchCount := FindSuitable(solutions);
      if suitableCount == 0 {
        return false;
      }
      if suitableCount > 1 {
        if perfectMatch == None {
          var best := FindBest(solutions);
          if best.Some? {
            perfectMatchCount := 1;
            perfectMatch := best;
          }
        }
        if perfectMatchCount == 1 {
          atom := perfectMatch;
          suitableCount := 1;
        } else {
          suitableCount := Instanciate(solutions);
        }
      }
      ok := suitableCount == 1;
      if !ok {
        forall c | c in solutions
          ensures !Chooses(solutions, c)
        {
        }
      }
    }
  }

  lemma NoneAbove(cs: seq<Candidate>, s: nat)
    requires forall k :: 0 <= k < |cs| && Passes(cs[k], Suitable) ==> cs[k].score < s
    ensures Count(cs, AtLeast(s)) == 0
  {
  }

  lemma NoBest(cs: seq<Candidate>, c: Candidate, bestScore: nat, index: nat)
    requires forall k :: 0 <= k < |cs| && Passes(cs[k], Suitable) ==> cs[k].score <= bestScore
    requires bestScore > 0 ==>
      index < |cs| && Passes(cs[index], Suitable) && cs[index].score == bestScore
      && Count(cs, AtLeast(bestScore)) != 1
    requires c in cs
    ensures !IsBest(cs, c)
  {
    if IsBest(cs, c) {
      if c.score < bestScore {
        OnlyOne(cs, AtLeast(c.score), c, cs[index]);
      }
    }
  }
}
