// Error handlers of a function: the stack kept by the analyser, and the code which dispatches an error.
module Handlers {
  import opened Isa

  // An unset handler has no label
  datatype Handler = Handler(lvid: nat, target: nat, scope: int)

  datatype Typed = Typed(atomid: nat, handler: Handler)

  const UNSET: Handler := Handler(0, 0, 0)

  // The typed handlers in registration order, and the handler of any error (without target when absent)
  datatype Stack = Stack(typed: seq<Typed>, any: Handler) {

    predicate IsEmpty() { typed == [] && any.target == 0 }

    predicate HasAny() { any.target != 0 }

    function Size(): nat { |typed| + if HasAny() then 1 else 0 }

    // The typed handlers come first, the handler of any error is the last one
    function At(k: nat): Handler
      requires k < Size()
    {
      if k < |typed| then typed[k].handler else any
    }

    function Types(): (r: seq<nat>)
      ensures |r| == |typed|
      ensures forall i :: 0 <= i < |r| ==> r[i] == typed[i].atomid
    {
      seq(|typed|, i requires 0 <= i < |typed| => typed[i].atomid)
    }

    // The handler chosen for a type of error, by index
    function Select(atomid: nat): (r: Option<nat>)
      ensures r.Some? ==> r.value < Size()
      ensures r == Choose(Types(), HasAny(), atomid)
    {
      Choose(Types(), HasAny(), atomid)
    }

    function Find(atomid: nat): Option<Handler> {
      match Select(atomid)
      case None => None
      case Some(k) => Some(At(k))
    }
  }

  const NO_HANDLER: Stack := Stack([], UNSET)

  // The first handler of that very type, else the handler of any error
  function Choose(types: seq<nat>, any: bool, atomid: nat): (r: Option<nat>)
    ensures r.Some? ==> r.value < |types| + (if any then 1 else 0)
    ensures r.Some? && r.value < |types| ==> types[r.value] == atomid
    ensures r.Some? ==> forall i :: 0 <= i < r.value ==> types[i] != atomid
    ensures r.Some? && r.value == |types| ==> any
    ensures r.None? ==> !any && atomid !in types
  {
    if types == [] then if any then Some(0) else None
    else if types[0] == atomid then Some(0)
    else match Choose(types[1..], any, atomid)
         case None => None
         case Some(k) => Some(k + 1)
  }

  // ---- the code emitted for 'jzraise' ----

  function Chain(typed: seq<Typed>): (code: Code)
    ensures |code| == |typed|
    ensures forall i :: 0 <= i < |typed| ==> code[i] == Jmperrhandler(typed[i].atomid, typed[i].handler.target)
  {
    seq(|typed|, i requires 0 <= i < |typed| => Jmperrhandler(typed[i].atomid, typed[i].handler.target))
  }

  // What is executed when an error comes out of a call
  function OnError(hs: Stack): Code {
    if hs.IsEmpty() then [Ret(0)]
    else Chain(hs.typed) + if hs.HasAny() then [Jmperrhandler(0, hs.any.target)] else []
  }

  function Dispatch(hs: Stack, id: nat): Code {
    [Jzraise(id)] + OnError(hs) + [Label(id)]
  }

  lemma DispatchShape(hs: Stack, id: nat)
    ensures var code := Dispatch(hs, id);
      && |code| == |OnError(hs)| + 2
      && code[0] == Jzraise(id) && code[|code| - 1] == Label(id)
      && (forall i :: 0 <= i < |OnError(hs)| ==> code[i + 1] == OnError(hs)[i])
      && (hs.IsEmpty() ==> OnError(hs) == [Ret(0)])
      && (!hs.IsEmpty() ==> |OnError(hs)| == hs.Size())
      && (forall i :: 0 <= i < |OnError(hs)| ==> !OnError(hs)[i].Label?)
      && (!hs.IsEmpty() ==> forall i :: 0 <= i < hs.Size() ==>
            OnError(hs)[i] == Jmperrhandler(if i < |hs.typed| then hs.typed[i].atomid else 0, hs.At(i).target))
  {
  }
}
