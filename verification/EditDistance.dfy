// The distance between two names, used to suggest declared ones: a matrix filled row by row.
module EditDistance {

  datatype Option<+T> = None | Some(value: T)

  function Min(a: nat, b: nat): nat { if a < b then a else b }

  function Differ(a: char, b: char): nat { if a == b then 0 else 1 }

  // Two characters are swapped, then perhaps replaced
  function Swapped(s: string, t: string, i: nat, j: nat): nat
    requires 2 <= i <= |s| && 2 <= j <= |t|
  {
    1 + Differ(s[i - 2], t[j - 1]) + Differ(s[i - 1], t[j - 2])
  }

  // A cell from the ones above it, on its left, and on the diagonal
  function Fill(s: string, t: string, i: nat, j: nat, above: nat, left: nat, diag: nat, diag2: nat): nat
    requires 0 < i <= |s| && 0 < j <= |t|
  {
    var edit := Min(above + 1, Min(left + 1, diag + Differ(s[i - 1], t[j - 1])));
    if i > 2 && j > 2 then Min(edit, diag2 + Swapped(s, t, i, j)) else edit
  }

  // The cell (i, j) of the matrix
  function Cell(s: string, t: string, i: nat, j: nat): nat
    requires i <= |s| && j <= |t|
  {
    if i == 0 then j
    else if j == 0 then i
    else Fill(s, t, i, j, Cell(s, t, i - 1, j), Cell(s, t, i, j - 1), Cell(s, t, i - 1, j - 1),
              if i > 2 && j > 2 then Cell(s, t, i - 2, j - 2) else 0)
  }

  // The least of its candidates
  lemma FillIsLeast(s: string, t: string, i: nat, j: nat, above: nat, left: nat, diag: nat, diag2: nat)
    requires 0 < i <= |s| && 0 < j <= |t|
    ensures var r := Fill(s, t, i, j, above, left, diag, diag2);
      && r <= above + 1 && r <= left + 1 && r <= diag + Differ(s[i - 1], t[j - 1])
      && (i > 2 && j > 2 ==> r <= diag2 + Swapped(s, t, i, j))
      && (r == above + 1 || r == left + 1 || r == diag + Differ(s[i - 1], t[j - 1])
          || (i > 2 && j > 2 && r == diag2 + Swapped(s, t, i, j)))
  {
  }

  lemma CellIs(s: string, t: string, i: nat, j: nat)
    requires i <= |s| && j <= |t|
    ensures i == 0 ==> Cell(s, t, i, j) == j
    ensures j == 0 ==> Cell(s, t, i, j) == i
    ensures i > 0 && j > 0 ==>
      Cell(s, t, i, j) == Fill(s, t, i, j, Cell(s, t, i - 1, j), Cell(s, t, i, j - 1), Cell(s, t, i - 1, j - 1),
                               if i > 2 && j > 2 then Cell(s, t, i - 2, j - 2) else 0)
  {
    hide Fill;
  }

  lemma CellIsLeast(s: string, t: string, i: nat, j: nat)
    requires 0 < i <= |s| && 0 < j <= |t|
    ensures var r := Cell(s, t, i, j);
      && r <= Cell(s, t, i - 1, j) + 1 && r <= Cell(s, t, i, j - 1) + 1
      && r <= Cell(s, t, i - 1, j - 1) + Differ(s[i - 1], t[j - 1])
      && (i > 2 && j > 2 ==> r <= Cell(s, t, i - 2, j - 2) + Swapped(s, t, i, j))
      && (r == Cell(s, t, i - 1, j) + 1 || r == Cell(s, t, i, j - 1) + 1
          || r == Cell(s, t, i - 1, j - 1) + Differ(s[i - 1], t[j - 1])
          || (i > 2 && j > 2 && r == Cell(s, t, i - 2, j - 2) + Swapped(s, t, i, j)))
  {
    hide *;
    CellIs(s, t, i, j);
    FillIsLeast(s, t, i, j, Cell(s, t, i - 1, j), Cell(s, t, i, j - 1), Cell(s, t, i - 1, j - 1),
                if i > 2 && j > 2 then Cell(s, t, i - 2, j - 2) else 0);
  }

  function Distance(s: string, t: string): nat { Cell(s, t, |s|, |t|) }

  method FillCell(source: string, target: string, i: nat, j: nat, above: nat, left: nat, diag: nat, diag2: nat)
    returns (cell: nat)
    requires 0 < i <= |source| && 0 < j <= |target|
    ensures cell == Fill(source, target, i, j, above, left, diag, diag2)
  {
    var s_i, t_j := source[i - 1], target[j - 1];
    var cost := if s_i == t_j then 0 else 1;
    cell := Min(above + 1, Min(left + 1, diag + cost));
    if i > 2 && j > 2 {
      var trans := diag2 + 1;
      if source[i - 2] != t_j {
        trans := trans + 1;
      }
      if s_i != target[j - 2] {
        trans := trans + 1;
      }
      if cell > trans {
        cell := trans;
      }
    }
  }

  method LevenshteinDistance(source: string, target: string) returns (d: nat)
    ensures d == Distance(source, target)
  {
    hide Cell;
    hide Fill;
    CellIs(source, target, |source|, |target|);
    if source == "" {
      return |target|;
    }
    if target == "" {
      return |source|;
    }
    var matrix := new nat[|source| + 1, |target| + 1];
    for i := 0 to |source| + 1
      invariant forall x :: 0 <= x < i ==> matrix[x, 0] == Cell(source, target, x, 0)
    {
      CellIs(source, target, i, 0);
      matrix[i, 0] := i;
    }
    for j := 0 to |target| + 1
      invariant forall x :: 0 <= x <= |source| ==> matrix[x, 0] == Cell(source, target, x, 0)
      invariant forall y :: 0 <= y < j ==> matrix[0, y] == Cell(source, target, 0, y)
    {
      CellIs(source, target, 0, j);
      matrix[0, j] := j;
    }
    for i := 1 to |source| + 1
      invariant forall x :: 0 <= x <= |source| ==> matrix[x, 0] == Cell(source, target, x, 0)
      invariant forall x, y :: 0 <= x < i && 0 <= y <= |target| ==> matrix[x, y] == Cell(source, target, x, y)
    {
      for j := 1 to |target| + 1
        invariant forall x :: 0 <= x <= |source| ==> matrix[x, 0] == Cell(source, target, x, 0)
        invariant forall x, y :: 0 <= x < i && 0 <= y <= |target| ==> matrix[x, y] == Cell(source, target, x, y)
        invariant forall y :: 0 <= y < j ==> matrix[i, y] == Cell(source, target, i, y)
      {
        var cell := FillCell(source, target, i, j, matrix[i - 1, j], matrix[i, j - 1], matrix[i - 1, j - 1],
                             if i > 2 && j > 2 then matrix[i - 2, j - 2] else 0);
        CellIs(source, target, i, j);
        matrix[i, j] := cell;
      }
    }
    return matrix[|source|, |target|];
  }

  // ---- what it means: the cheapest way to write one name while reading the other one ----

  datatype Edit = Keep | Delete | Insert(c: char) | Replace(c: char) | Swap(first: char, second: char)

  datatype Progress = Progress(read: nat, written: string, cost: nat)

  // Nothing is swapped with the very first character of a name
  function Perform(s: string, p: Progress, e: Edit): (r: Option<Progress>)
    requires p.read <= |s|
    ensures r.Some? ==> r.value.read <= |s|
  {
    match e
    case Keep => if p.read < |s| then Some(Progress(p.read + 1, p.written + [s[p.read]], p.cost)) else None
    case Delete => if p.read < |s| then Some(Progress(p.read + 1, p.written, p.cost + 1)) else None
    case Insert(c) => Some(Progress(p.read, p.written + [c], p.cost + 1))
    case Replace(c) => if p.read < |s| then Some(Progress(p.read + 1, p.written + [c], p.cost + 1)) else None
    case Swap(a, b) =>
      if p.read + 1 < |s| && p.read > 0 && |p.written| > 0 then
        Some(Progress(p.read + 2, p.written + [a, b], p.cost + 1 + Differ(s[p.read], b) + Differ(s[p.read + 1], a)))
      else None
  }

  function Apply(s: string, script: seq<Edit>): (r: Option<Progress>)
    ensures r.Some? ==> r.value.read <= |s|
  {
    if script == [] then Some(Progress(0, "", 0))
    else match Apply(s, script[..|script| - 1])
         case None => None
         case Some(p) => Perform(s, p, script[|script| - 1])
  }

  predicate Rewrites(s: string, script: seq<Edit>, t: string, cost: nat) {
    Apply(s, script) == Some(Progress(|s|, t, cost))
  }

  lemma CellStep(s: string, t: string, p: Progress, e: Edit)
    requires p.read <= |s| && |p.written| <= |t| && t[..|p.written|] == p.written
    requires Cell(s, t, p.read, |p.written|) <= p.cost
    requires var r := Perform(s, p, e);
      r.Some? && |r.value.written| <= |t| && t[..|r.value.written|] == r.value.written
    ensures var q := Perform(s, p, e).value; Cell(s, t, q.read, |q.written|) <= q.cost
  {
    hide Cell;
    hide Fill;
    var q := Perform(s, p, e).value;
    CellIs(s, t, p.read, |p.written|);
    CellIs(s, t, q.read, |q.written|);
    if q.read > 0 && |q.written| > 0 {
      CellIsLeast(s, t, q.read, |q.written|);
    }
    if !e.Delete? {
      assert t[|p.written|] == q.written[|p.written|];
    }
    if e.Swap? {
      assert t[|p.written| + 1] == q.written[|p.written| + 1];
    }
  }

  lemma {:induction false} NoCheaperPrefix(s: string, script: seq<Edit>, t: string)
    requires var r := Apply(s, script);
      r.Some? && |r.value.written| <= |t| && t[..|r.value.written|] == r.value.written
    ensures var p := Apply(s, script).value; Cell(s, t, p.read, |p.written|) <= p.cost
    decreases |script|
  {
    if script != [] {
      var before := script[..|script| - 1];
      var p, q := Apply(s, before).value, Apply(s, script).value;
      assert q.written[..|p.written|] == p.written;
      assert t[..|p.written|] == q.written[..|p.written|];
      NoCheaperPrefix(s, before, t);
      hide Cell;
      CellStep(s, t, p, script[|script| - 1]);
    }
  }

  lemma Appended(s: string, script: seq<Edit>, e: Edit)
    requires Apply(s, script).Some?
    ensures Apply(s, script + [e]) == Perform(s, Apply(s, script).value, e)
  {
    assert (script + [e])[..|script|] == script;
  }

  lemma Untouched(s: string)
    ensures Apply(s, []) == Some(Progress(0, "", 0))
  {
  }

  // A script which reaches every cell at its cost
  lemma {:induction false} Cheapest(s: string, t: string, i: nat, j: nat) returns (script: seq<Edit>)
    requires i <= |s| && j <= |t|
    ensures Apply(s, script) == Some(Progress(i, t[..j], Cell(s, t, i, j)))
    decreases i + j
  {
    hide Cell;
    hide Fill;
    hide Apply;
    CellIs(s, t, i, j);
    if i > 0 && j > 0 {
      CellIsLeast(s, t, i, j);
    }
    if i == 0 && j == 0 {
      script := [];
      Untouched(s);
    } else if i == 0 || (j > 0 && Cell(s, t, i, j) == Cell(s, t, i, j - 1) + 1) {
      var rest := Cheapest(s, t, i, j - 1);
      CellIs(s, t, i, j - 1);
      script := rest + [Insert(t[j - 1])];
      Appended(s, rest, Insert(t[j - 1]));
      assert t[..j] == t[..j - 1] + [t[j - 1]];
    } else if j == 0 || Cell(s, t, i, j) == Cell(s, t, i - 1, j) + 1 {
      var rest := Cheapest(s, t, i - 1, j);
      CellIs(s, t, i - 1, j);
      script := rest + [Delete];
      Appended(s, rest, Delete);
    } else if Cell(s, t, i, j) == Cell(s, t, i - 1, j - 1) + Differ(s[i - 1], t[j - 1]) {
      var rest := Cheapest(s, t, i - 1, j - 1);
      var e := if s[i - 1] == t[j - 1] then Keep else Replace(t[j - 1]);
      script := rest + [e];
      Appended(s, rest, e);
      assert t[..j] == t[..j - 1] + [t[j - 1]];
    } else {
      var rest := Cheapest(s, t, i - 2, j - 2);
      script := rest + [Swap(t[j - 2], t[j - 1])];
      Appended(s, rest, Swap(t[j - 2], t[j - 1]));
      assert t[..j] == t[..j - 2] + [t[j - 2], t[j - 1]];
    }
  }

  // The distance is the least cost of all the scripts which rewrite a name into the other one
  lemma DistanceIsOptimal(s: string, t: string) returns (best: seq<Edit>)
    ensures Rewrites(s, best, t, Distance(s, t))
    ensures forall script, cost :: Rewrites(s, script, t, cost) ==> Distance(s, t) <= cost
  {
    best := Cheapest(s, t, |s|, |t|);
    assert t[..|t|] == t;
    forall script, cost | Rewrites(s, script, t, cost)
      ensures Distance(s, t) <= cost
    {
      NoCheaperPrefix(s, script, t);
    }
  }

  // ---- consequences ----

  lemma {:induction false} CellSymmetric(s: string, t: string, i: nat, j: nat)
    requires i <= |s| && j <= |t|
    ensures Cell(s, t, i, j) == Cell(t, s, j, i)
    decreases i + j
  {
    hide Cell;
    hide Fill;
    CellIs(s, t, i, j);
    CellIs(t, s, j, i);
    if i > 0 && j > 0 {
      CellIsLeast(s, t, i, j);
      CellIsLeast(t, s, j, i);
      CellSymmetric(s, t, i - 1, j);
      CellSymmetric(s, t, i, j - 1);
      CellSymmetric(s, t, i - 1, j - 1);
      if i > 2 && j > 2 {
        CellSymmetric(s, t, i - 2, j - 2);
      }
    }
  }

  lemma {:induction false} CellBounds(s: string, t: string, i: nat, j: nat)
    requires i <= |s| && j <= |t|
    ensures i - j <= Cell(s, t, i, j) && j - i <= Cell(s, t, i, j)
    ensures Cell(s, t, i, j) <= i || Cell(s, t, i, j) <= j
    decreases i + j
  {
    hide Cell;
    hide Fill;
    CellIs(s, t, i, j);
    if i > 0 && j > 0 {
      CellIsLeast(s, t, i, j);
      CellBounds(s, t, i - 1, j);
      CellBounds(s, t, i, j - 1);
      CellBounds(s, t, i - 1, j - 1);
      if i > 2 && j > 2 {
        CellBounds(s, t, i - 2, j - 2);
      }
    }
  }

  lemma {:induction false} CellZero(s: string, t: string, i: nat, j: nat)
    requires i <= |s| && j <= |t|
    ensures Cell(s, t, i, j) == 0 <==> i == j && s[..i] == t[..j]
    decreases i + j
  {
    hide Cell;
    hide Fill;
    CellIs(s, t, i, j);
    if i > 0 && j > 0 {
      CellIsLeast(s, t, i, j);
      CellZero(s, t, i - 1, j - 1);
      assert s[..i] == s[..i - 1] + [s[i - 1]] && t[..j] == t[..j - 1] + [t[j - 1]];
    }
  }

  lemma DistanceIsSymmetric(s: string, t: string)
    ensures Distance(s, t) == Distance(t, s)
  {
    CellSymmetric(s, t, |s|, |t|);
  }

  lemma DistanceIsBounded(s: string, t: string)
    ensures |s| - |t| <= Distance(s, t) && |t| - |s| <= Distance(s, t)
    ensures Distance(s, t) <= if |s| > |t| then |s| else |t|
  {
    CellBounds(s, t, |s|, |t|);
  }

  lemma DistanceIsZero(s: string, t: string)
    ensures Distance(s, t) == 0 <==> s == t
  {
    CellZero(s, t, |s|, |t|);
    assert s[..|s|] == s && t[..|t|] == t;
  }

  // ---- suggestions ----

  function Abs(x: int): nat { if x < 0 then -x else x }

  method StringsAreCloseEnough(a: string, b: string) returns (close: bool, note: nat)
    ensures note == Distance(a, b) + |a| + if |a| < |b| then |b| - |a| else |a| - |b|
    ensures close <==> note <= 8
  {
    note := LevenshteinDistance(a, b);
    note := note + |a|;
    note := note + Abs(|a| - |b|);
    close := note <= 8;
  }

  // The length of the name itself is part of the note: a name is suggested for itself exactly when it is short, and
  // a name of eight characters has no other suggestion than itself
  lemma LongNamesAreAlone(a: string, b: string)
    requires Distance(a, b) + |a| + (if |a| < |b| then |b| - |a| else |a| - |b|) <= 8
    ensures |a| <= 8 && (|a| == 8 ==> a == b)
    ensures |b| <= 8
  {
    DistanceIsZero(a, b);
    DistanceIsBounded(a, b);
  }
}
