/** What one run of the pass runner does, as a value: the sequence of callback
    invocations (and failure reports) that traversing a module produces under a
    given registry. The runner's methods are proved to produce exactly these
    sequences; the properties of the sequences are proved in
    TraversalProperties. */
module Traversal {
  import opened Ir
  import opened Classifier
  import opened Exclusion

  /** A registered callback, identified by an opaque number. */
  type CallbackId = nat

  /** The four pre/post processing phases of the module and function levels. */
  datatype Phase = ModulePre | ModulePost | FunctionPre | FunctionPost

  /** What a module- or function-level callback is invoked on. */
  datatype Subject = OfModule(mod: Module) | OfFunction(fn: Function)
  {
    function Name(): string
    {
      match this
      case OfModule(m) => m.name
      case OfFunction(f) => f.name
    }
  }

  /** The boolean each module or function callback returns when invoked on a
      subject; the callbacks' own logic lies outside the runner. */
  type Outcome = (CallbackId, Subject) -> bool

  /** One observable step of a run.
      - `Invoke`: a pre/post callback of `phase` runs on the module or function
        named `subject`;
      - `Dispatch`: an instruction callback runs on instruction number `index`
        (in program order) of the function named `owner`, whose category is
        `itype`;
      - `Failed`: the diagnostic the runner emits when some callback of
        `phase` returned false for `subject`. */
  datatype Event =
    | Invoke(phase: Phase, callback: CallbackId, subject: string)
    | Dispatch(callback: CallbackId, owner: string, index: nat, itype: InstructionType)
    | Failed(phase: Phase, subject: string)

  /** The instruction callbacks, kept per category in registration order. */
  type InstructionCallbacks = map<InstructionType, seq<CallbackId>>

  /** Everything a runner has been configured with: the value of its fields. */
  datatype Configuration = Configuration(
    instructionCallbacks: InstructionCallbacks,
    functionExclusions: seq<string>,
    moduleExclusions: seq<string>,
    modulePost: seq<CallbackId>,
    modulePre: seq<CallbackId>,
    functionPost: seq<CallbackId>,
    functionPre: seq<CallbackId>)

  /** The configuration of a freshly constructed runner. */
  const Empty: Configuration := Configuration(map[], [], [], [], [], [], [])

  /** The callbacks registered for category `t`, none if the category has no entry. */
  function CallbacksFor(registry: InstructionCallbacks, t: InstructionType): seq<CallbackId>
  {
    if t in registry then registry[t] else []
  }

  /** Every category present in `registry` has at least one callback. */
  ghost predicate NoEmptyEntries(registry: InstructionCallbacks)
  {
    forall t :: t in registry ==> registry[t] != []
  }

  /** The name of the module or function an event is about. */
  function Owner(e: Event): string
  {
    match e
    case Invoke(_, _, s) => s
    case Dispatch(_, f, _, _) => f
    case Failed(_, s) => s
  }

  /** The position of an event in the life of one module: module pre
      processing, then per function pre processing, instruction dispatch and
      post processing, then module post processing. */
  function Stage(e: Event): nat
  {
    if e.Dispatch? then 2
    else match e.phase
      case ModulePre => 0
      case FunctionPre => 1
      case FunctionPost => 3
      case ModulePost => 4
  }

  /** Events that belong to the traversal of some function. */
  predicate FunctionLevel(e: Event)
  {
    1 <= Stage(e) <= 3
  }

  /** Running the callbacks `cbs` of `phase` on `subject`: each one, once, in
      registration order. */
  function PhaseEvents(phase: Phase, cbs: seq<CallbackId>, subject: string): (r: seq<Event>)
    ensures |r| == |cbs|
    ensures forall i :: 0 <= i < |cbs| ==> r[i] == Invoke(phase, cbs[i], subject)
  {
    if cbs == [] then [] else [Invoke(phase, cbs[0], subject)] + PhaseEvents(phase, cbs[1..], subject)
  }

  /** The aggregate of a phase: the conjunction of the results of all its
      callbacks, true when there are none. */
  predicate AllSucceed(cbs: seq<CallbackId>, outcome: Outcome, s: Subject)
  {
    forall i :: 0 <= i < |cbs| ==> outcome(cbs[i], s)
  }

  /** A phase as the traversal performs it: all its callbacks, then a failure
      report when the aggregate is false. */
  function Report(phase: Phase, cbs: seq<CallbackId>, s: Subject, outcome: Outcome): seq<Event>
  {
    PhaseEvents(phase, cbs, s.Name()) + if AllSucceed(cbs, outcome, s) then [] else [Failed(phase, s.Name())]
  }

  /** Running the instruction callbacks `cbs` on one instruction: each one,
      once, in registration order. */
  function DispatchEvents(cbs: seq<CallbackId>, owner: string, index: nat, t: InstructionType): (r: seq<Event>)
    ensures |r| == |cbs|
    ensures forall j :: 0 <= j < |cbs| ==> r[j] == Dispatch(cbs[j], owner, index, t)
  {
    if cbs == [] then [] else [Dispatch(cbs[0], owner, index, t)] + DispatchEvents(cbs[1..], owner, index, t)
  }

  /** Dispatching one instruction: the callbacks registered under its category. */
  function InstructionEvents(registry: InstructionCallbacks, owner: string, index: nat, k: InstrKind): seq<Event>
  {
    var t := GetInstructionType(k);
    DispatchEvents(CallbacksFor(registry, t), owner, index, t)
  }

  /** Dispatching the instructions `instrs` of the function `owner` in program order. */
  function BodyEvents(registry: InstructionCallbacks, owner: string, instrs: seq<InstrKind>): seq<Event>
    decreases |instrs|
  {
    if instrs == [] then []
    else
      var n := |instrs| - 1;
      BodyEvents(registry, owner, instrs[..n]) + InstructionEvents(registry, owner, n, instrs[n])
  }

  /** Dispatching one more instruction extends the body's events. */
  lemma BodyEventsSnoc(registry: InstructionCallbacks, owner: string, instrs: seq<InstrKind>, i: nat)
    requires i < |instrs|
    ensures BodyEvents(registry, owner, instrs[..i + 1])
         == BodyEvents(registry, owner, instrs[..i]) + InstructionEvents(registry, owner, i, instrs[i])
  {
    assert instrs[..i + 1][..i] == instrs[..i];
  }

  /** The traversal of one function: nothing if it is excluded; otherwise its
      pre processing, its instructions, its post processing. */
  function FunctionEvents(cfg: Configuration, outcome: Outcome, f: Function): seq<Event>
  {
    if FunctionExcluded(cfg.functionExclusions, f.name) then []
    else
      Report(FunctionPre, cfg.functionPre, OfFunction(f), outcome)
      + BodyEvents(cfg.instructionCallbacks, f.name, f.instrs)
      + Report(FunctionPost, cfg.functionPost, OfFunction(f), outcome)
  }

  /** The traversal of the functions `funcs`, one after another in declaration order. */
  function FunctionsEvents(cfg: Configuration, outcome: Outcome, funcs: seq<Function>): seq<Event>
    decreases |funcs|
  {
    if funcs == [] then []
    else
      var n := |funcs| - 1;
      FunctionsEvents(cfg, outcome, funcs[..n]) + FunctionEvents(cfg, outcome, funcs[n])
  }

  /** Traversing one more function extends the functions' events. */
  lemma FunctionsEventsSnoc(cfg: Configuration, outcome: Outcome, funcs: seq<Function>, i: nat)
    requires i < |funcs|
    ensures FunctionsEvents(cfg, outcome, funcs[..i + 1])
         == FunctionsEvents(cfg, outcome, funcs[..i]) + FunctionEvents(cfg, outcome, funcs[i])
  {
    assert funcs[..i + 1][..i] == funcs[..i];
  }

  /** The traversal of a module: nothing if it is excluded; otherwise its pre
      processing, its functions, its post processing. */
  function ModuleEvents(cfg: Configuration, outcome: Outcome, m: Module): seq<Event>
  {
    if ModuleExcluded(cfg.moduleExclusions, m.resolvedPath) then []
    else
      Report(ModulePre, cfg.modulePre, OfModule(m), outcome)
      + FunctionsEvents(cfg, outcome, m.funcs)
      + Report(ModulePost, cfg.modulePost, OfModule(m), outcome)
  }
}
