/** The instruction classifier: the closed set of instruction categories and
    the function that assigns one to every instruction. */
module Classifier {
  import opened Ir

  /** The categories an instruction callback can be registered under. */
  datatype InstructionType = Load | Store | AtomicCmpXchg | AtomicRMW | Alloca | NotSupported

  /** The categories classification tests for, in the order it tests them. */
  const Recognized: seq<InstructionType> := [Load, Store, AtomicCmpXchg, AtomicRMW, Alloca]

  /** Every category, each exactly once. */
  function AllInstructionTypes(): (s: seq<InstructionType>)
    ensures |s| == 6
    ensures forall i, j :: 0 <= i < j < |s| ==> s[i] != s[j]
    ensures forall t: InstructionType :: t in s
  {
    var s := Recognized + [NotSupported];
    assert s == [Load, Store, AtomicCmpXchg, AtomicRMW, Alloca, NotSupported];
    assert forall t: InstructionType :: t in s by {
      forall t: InstructionType ensures t in s {
        if t.Load? { assert s[0] == t; }
        else if t.Store? { assert s[1] == t; }
        else if t.AtomicCmpXchg? { assert s[2] == t; }
        else if t.AtomicRMW? { assert s[3] == t; }
        else if t.Alloca? { assert s[4] == t; }
        else { assert s[5] == t; }
      }
    }
    s
  }

  /** `IsA(k, t)`: an instruction of kind `k` is an instance of the IR class
      behind category `t`, the question a `dyn_cast` to that class answers.
      Nothing is an instance of `NotSupported`. */
  predicate IsA(k: InstrKind, t: InstructionType)
  {
    match t
    case Load => k.LoadInst?
    case Store => k.StoreInst?
    case AtomicCmpXchg => k.AtomicCmpXchgInst?
    case AtomicRMW => k.AtomicRMWInst?
    case Alloca => k.AllocaInst?
    case NotSupported => false
  }

  /** The category of an instruction: the first recognised category it is an
      instance of, tested in the order of `Recognized`, or `NotSupported` when
      it is an instance of none. */
  function GetInstructionType(k: InstrKind): (t: InstructionType)
    ensures t != NotSupported ==> IsA(k, t)
    ensures t == NotSupported <==> forall i :: 0 <= i < |Recognized| ==> !IsA(k, Recognized[i])
    ensures forall i :: 0 <= i < |Recognized| && Recognized[i] == t ==>
              forall j :: 0 <= j < i ==> !IsA(k, Recognized[j])
  {
    assert Recognized[0] == Load && Recognized[1] == Store && Recognized[2] == AtomicCmpXchg;
    assert Recognized[3] == AtomicRMW && Recognized[4] == Alloca;
    if k.LoadInst? then Load
    else if k.StoreInst? then Store
    else if k.AtomicCmpXchgInst? then AtomicCmpXchg
    else if k.AtomicRMWInst? then AtomicRMW
    else if k.AllocaInst? then Alloca
    else NotSupported
  }

  /** No instruction kind is an instance of two categories, so the testing
      order never decides between two matches. */
  lemma CategoriesDisjoint(k: InstrKind, t1: InstructionType, t2: InstructionType)
    requires IsA(k, t1) && IsA(k, t2)
    ensures t1 == t2
  {
  }
}
