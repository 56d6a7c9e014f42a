// Resolution of a label: the search goes forward or backward, as decided from a single number.
module Jumps {
  import opened Isa

  // First label 'id' at or after 'from'
  function FindForward(code: Code, from: nat, id: nat): (r: Option<nat>)
    ensures r.Some? ==> from <= r.value < |code| && code[r.value] == Label(id)
    ensures r.Some? ==> forall i :: from <= i < r.value ==> code[i] != Label(id)
    ensures r.None? ==> forall i :: from <= i < |code| ==> code[i] != Label(id)
    decreases |code| - from
  {
    if from >= |code| then None
    else if code[from] == Label(id) then Some(from)
    else FindForward(code, from + 1, id)
  }

  // Last label 'id' strictly before 'to'
  function FindBackward(code: Code, to: nat, id: nat): (r: Option<nat>)
    requires to <= |code|
    ensures r.Some? ==> r.value < to && code[r.value] == Label(id)
    ensures r.Some? ==> forall i :: r.value < i < to ==> code[i] != Label(id)
    ensures r.None? ==> forall i :: 0 <= i < to ==> code[i] != Label(id)
  {
    if to == 0 then None
    else if code[to - 1] == Label(id) then Some(to - 1)
    else FindBackward(code, to - 1, id)
  }

  // Where a jump lands, from the instruction at 'pc'. The direction comes from the greatest label met so far.
  function Goto(code: Code, pc: nat, upper: nat, id: nat): (r: Option<nat>)
    requires pc < |code|
    ensures r.Some? ==> r.value < |code| && code[r.value] == Label(id)
  {
    if id > upper then FindForward(code, pc + 1, id) else FindBackward(code, pc, id)
  }

  method JumpToLabelForward(code: Code, cursor: nat, id: nat) returns (found: bool, target: nat)
    requires cursor < |code|
    ensures FindForward(code, cursor + 1, id) == if found then Some(target) else None
    ensures !found ==> target == cursor
  {
    var i := cursor + 1;
    while i < |code|
      invariant cursor < i <= |code|
      invariant FindForward(code, cursor + 1, id) == FindForward(code, i, id)
    {
      if code[i] == Label(id) {
        return true, i;
      }
      i := i + 1;
    }
    return false, cursor;
  }

  method JumpToLabelBackward(code: Code, cursor: nat, id: nat) returns (found: bool, target: nat)
    requires cursor < |code|
    ensures FindBackward(code, cursor, id) == if found then Some(target) else None
    ensures !found ==> target == cursor
  {
    var i := cursor;
    while i > 0
      invariant 0 <= i <= cursor
      invariant FindBackward(code, cursor, id) == FindBackward(code, i, id)
    {
      i := i - 1;
      if code[i] == Label(id) {
        return true, i;
      }
    }
    return false, cursor;
  }

  // With positive and strictly increasing labels, the search finds the one label of that name wherever it
  // stands, and fails only when the label does not exist
  lemma GotoIsExact(code: Code, pc: nat, id: nat)
    requires StrictLabels(code) && PositiveLabels(code) && pc < |code| && !code[pc].Label?
    ensures Goto(code, pc, UpTo(code, pc), id).Some? <==> HasLabel(code, id)
    ensures forall t :: 0 <= t < |code| && code[t] == Label(id) ==> Goto(code, pc, UpTo(code, pc), id) == Some(t)
  {
    forall t | 0 <= t < |code| && code[t] == Label(id)
      ensures Goto(code, pc, UpTo(code, pc), id) == Some(t)
    {
      if t < pc {
        UpToIsBound(code, pc, t);
      } else if UpTo(code, pc) > 0 {
        var i := UpToIsReached(code, pc);
      }
    }
  }

  // Labels which are only ordered, not all distinct: a jump reaches the closest label of that name
  // in the direction of the greatest one met so far
  lemma GotoIsNearest(code: Code, pc: nat, id: nat)
    requires OrderedLabels(code) && PositiveLabels(code) && pc < |code| && !code[pc].Label?
    ensures Goto(code, pc, UpTo(code, pc), id).Some? <==> HasLabel(code, id)
    ensures var r := Goto(code, pc, UpTo(code, pc), id);
      r.Some? ==> UpTo(code, r.value + 1) == id
  {
    var r := Goto(code, pc, UpTo(code, pc), id);
    if r.Some? {
      UpToOrdered(code, r.value);
    }
    forall t | 0 <= t < |code| && code[t] == Label(id)
      ensures r.Some?
    {
      if t < pc {
        UpToIsBound(code, pc, t);
      } else if UpTo(code, pc) > 0 {
        var i := UpToIsReached(code, pc);
      }
    }
  }
}
