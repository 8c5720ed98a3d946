/** The host compiler's IR objects as the pass runner sees them: a module owns
    functions, a function owns its instructions in program order. The runner
    only reads these values; it never builds or changes them. */
module Ir {

  /** The kind of an instruction, standing in for the host's instruction class
      hierarchy. Only the five kinds the classifier recognises are named; every
      other instruction carries its opcode name. */
  datatype InstrKind =
    | LoadInst
    | StoreInst
    | AtomicCmpXchgInst
    | AtomicRMWInst
    | AllocaInst
    | OtherInst(opcode: string)

  /** A function: its name and its instructions, flattened over its basic
      blocks in the order the host's instruction iterator visits them. */
  datatype Function = Function(name: string, instrs: seq<InstrKind>)

  /** A module: `resolvedPath` is its source file name after the host has made
      it absolute and resolved symbolic links; `name` is its identifier. */
  datatype Module = Module(resolvedPath: string, name: string, funcs: seq<Function>)
}
