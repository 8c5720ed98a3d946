/** The pass runner: its registries and exclusion lists, the registration
    operations that append to them, and the traversal that walks a module and
    invokes the registered callbacks. Every traversal operation returns, beside
    its own result, the log of the callback invocations it performed, and is
    proved to produce the log that Traversal specifies. */
module Engine {
  import opened Ir
  import opened Classifier
  import opened Exclusion
  import opened Traversal

  /** Runs the callbacks `cbs` of `phase` on `subject`, every one of them and in
      order, and combines their results with a non-short-circuiting AND. */
  method InvokeAll(phase: Phase, cbs: seq<CallbackId>, subject: Subject, outcome: Outcome)
    returns (ok: bool, log: seq<Event>)
    ensures ok == AllSucceed(cbs, outcome, subject)
    ensures |log| == |cbs|
    ensures forall i :: 0 <= i < |cbs| ==> log[i] == Invoke(phase, cbs[i], subject.Name())
  {
    ok := true;
    log := [];
    var i := 0;
    while i < |cbs|
      invariant 0 <= i <= |cbs|
      invariant ok == AllSucceed(cbs[..i], outcome, subject)
      invariant |log| == i
      invariant forall j :: 0 <= j < i ==> log[j] == Invoke(phase, cbs[j], subject.Name())
    {
      // The callback runs before its result is combined: a false result so
      // far never skips it.
      var r := outcome(cbs[i], subject);
      log := log + [Invoke(phase, cbs[i], subject.Name())];
      ok := ok && r;
      i := i + 1;
    }
    assert cbs[..i] == cbs;
  }

  class PassRunner {
    var instructionCallbacks: InstructionCallbacks
    var functionExclusionList: seq<string>
    var moduleExclusionList: seq<string>
    var modulePostProcessCallbacks: seq<CallbackId>
    var modulePreProcessCallbacks: seq<CallbackId>
    var functionPostProcessCallbacks: seq<CallbackId>
    var functionPreProcessCallbacks: seq<CallbackId>

    /** Registration only ever creates a category's entry to append to it, so
        no category maps to an empty list. */
    ghost predicate Valid()
      reads this
    {
      NoEmptyEntries(instructionCallbacks)
    }

    /** The runner's configuration as a value. */
    function Config(): Configuration
      reads this
    {
      Configuration(instructionCallbacks, functionExclusionList, moduleExclusionList,
                    modulePostProcessCallbacks, modulePreProcessCallbacks,
                    functionPostProcessCallbacks, functionPreProcessCallbacks)
    }

    constructor ()
      ensures Valid()
      ensures Config() == Empty
    {
      instructionCallbacks := map[];
      functionExclusionList := [];
      moduleExclusionList := [];
      modulePostProcessCallbacks := [];
      modulePreProcessCallbacks := [];
      functionPostProcessCallbacks := [];
      functionPreProcessCallbacks := [];
    }

    // Registration: each operation appends to one list and leaves the rest alone.

    method RegisterCallback(t: InstructionType, cb: CallbackId)
      requires Valid()
      modifies this
      ensures Valid()
      ensures Config() == old(Config()).(instructionCallbacks :=
                old(instructionCallbacks)[t := CallbacksFor(old(instructionCallbacks), t) + [cb]])
    {
      instructionCallbacks := instructionCallbacks[t := CallbacksFor(instructionCallbacks, t) + [cb]];
    }

    method AddModuleToExclusionList(path: string)
      requires Valid()
      modifies this
      ensures Valid()
      ensures Config() == old(Config()).(moduleExclusions := old(moduleExclusionList) + [path])
    {
      moduleExclusionList := moduleExclusionList + [path];
    }

    method AddFunctionToExclusionList(name: string)
      requires Valid()
      modifies this
      ensures Valid()
      ensures Config() == old(Config()).(functionExclusions := old(functionExclusionList) + [name])
    {
      functionExclusionList := functionExclusionList + [name];
    }

    method AddModulePostProcessCallback(cb: CallbackId)
      requires Valid()
      modifies this
      ensures Valid()
      ensures Config() == old(Config()).(modulePost := old(modulePostProcessCallbacks) + [cb])
    {
      modulePostProcessCallbacks := modulePostProcessCallbacks + [cb];
    }

    method AddModulePreProcessCallback(cb: CallbackId)
      requires Valid()
      modifies this
      ensures Valid()
      ensures Config() == old(Config()).(modulePre := old(modulePreProcessCallbacks) + [cb])
    {
      modulePreProcessCallbacks := modulePreProcessCallbacks + [cb];
    }

    method AddFunctionPostProcessCallback(cb: CallbackId)
      requires Valid()
      modifies this
      ensures Valid()
      ensures Config() == old(Config()).(functionPost := old(functionPostProcessCallbacks) + [cb])
    {
      functionPostProcessCallbacks := functionPostProcessCallbacks + [cb];
    }

    method AddFunctionPreProcessCallback(cb: CallbackId)
      requires Valid()
      modifies this
      ensures Valid()
      ensures Config() == old(Config()).(functionPre := old(functionPreProcessCallbacks) + [cb])
    {
      functionPreProcessCallbacks := functionPreProcessCallbacks + [cb];
    }

    // Exclusion tests: scans of the lists that stop at the first match.

    method InModuleExclusionList(m: Module) returns (excluded: bool)
      ensures excluded == ModuleExcluded(moduleExclusionList, m.resolvedPath)
    {
      var path := m.resolvedPath;
      var i := 0;
      while i < |moduleExclusionList|
        invariant 0 <= i <= |moduleExclusionList|
        invariant forall j :: 0 <= j < i ==> !IsPrefix(moduleExclusionList[j], path)
      {
        if IsPrefix(moduleExclusionList[i], path) {
          return true;
        }
        i := i + 1;
      }
      return false;
    }

    method InFunctionExclusionList(f: Function) returns (excluded: bool)
      ensures excluded == FunctionExcluded(functionExclusionList, f.name)
    {
      var i := 0;
      while i < |functionExclusionList|
        invariant 0 <= i <= |functionExclusionList|
        invariant f.name !in functionExclusionList[..i]
      {
        if f.name == functionExclusionList[i] {
          return true;
        }
        i := i + 1;
      }
      assert functionExclusionList[..i] == functionExclusionList;
      return false;
    }

    // The four pre/post processing runs.

    method RunModulePreProcessCallbacks(m: Module, outcome: Outcome) returns (ok: bool, log: seq<Event>)
      ensures ok <==> forall i :: 0 <= i < |modulePreProcessCallbacks| ==> outcome(modulePreProcessCallbacks[i], OfModule(m))
      ensures log == PhaseEvents(ModulePre, modulePreProcessCallbacks, m.name)
    {
      ok, log := InvokeAll(ModulePre, modulePreProcessCallbacks, OfModule(m), outcome);
    }

    method RunModulePostProcessCallbacks(m: Module, outcome: Outcome) returns (ok: bool, log: seq<Event>)
      ensures ok <==> forall i :: 0 <= i < |modulePostProcessCallbacks| ==> outcome(modulePostProcessCallbacks[i], OfModule(m))
      ensures log == PhaseEvents(ModulePost, modulePostProcessCallbacks, m.name)
    {
      ok, log := InvokeAll(ModulePost, modulePostProcessCallbacks, OfModule(m), outcome);
    }

    method RunFunctionPreProcessCallbacks(f: Function, outcome: Outcome) returns (ok: bool, log: seq<Event>)
      ensures ok <==> forall i :: 0 <= i < |functionPreProcessCallbacks| ==> outcome(functionPreProcessCallbacks[i], OfFunction(f))
      ensures log == PhaseEvents(FunctionPre, functionPreProcessCallbacks, f.name)
    {
      ok, log := InvokeAll(FunctionPre, functionPreProcessCallbacks, OfFunction(f), outcome);
    }

    method RunFunctionPostProcessCallbacks(f: Function, outcome: Outcome) returns (ok: bool, log: seq<Event>)
      ensures ok <==> forall i :: 0 <= i < |functionPostProcessCallbacks| ==> outcome(functionPostProcessCallbacks[i], OfFunction(f))
      ensures log == PhaseEvents(FunctionPost, functionPostProcessCallbacks, f.name)
    {
      ok, log := InvokeAll(FunctionPost, functionPostProcessCallbacks, OfFunction(f), outcome);
    }

    // Traversal.

    /** Dispatches instruction number `index` of the function `owner`, of kind
        `k`: every callback registered under its category, once each and in
        registration order; their results are ignored. */
    method RunOnInstruction(owner: string, index: nat, k: InstrKind) returns (log: seq<Event>)
      ensures GetInstructionType(k) !in instructionCallbacks ==> log == []
      ensures Valid() ==> (log == [] <==> GetInstructionType(k) !in instructionCallbacks)
      ensures |log| == |CallbacksFor(instructionCallbacks, GetInstructionType(k))|
      ensures forall j :: 0 <= j < |log| ==>
                log[j] == Dispatch(instructionCallbacks[GetInstructionType(k)][j], owner, index, GetInstructionType(k))
      ensures log == InstructionEvents(instructionCallbacks, owner, index, k)
    {
      var t := GetInstructionType(k);
      log := [];
      if t in instructionCallbacks {
        var cbs := instructionCallbacks[t];
        var i := 0;
        while i < |cbs|
          invariant 0 <= i <= |cbs|
          invariant |log| == i
          invariant forall j :: 0 <= j < i ==> log[j] == Dispatch(cbs[j], owner, index, t)
        {
          log := log + [Dispatch(cbs[i], owner, index, t)];
          i := i + 1;
        }
      }
    }

    /** The instruction loop of `runOnFunction`: dispatches the instructions of
        `f` one by one, in program order. */
    method RunOnInstructions(f: Function) returns (log: seq<Event>)
      ensures log == BodyEvents(instructionCallbacks, f.name, f.instrs)
    {
      log := [];
      var i := 0;
      while i < |f.instrs|
        invariant 0 <= i <= |f.instrs|
        invariant log == BodyEvents(instructionCallbacks, f.name, f.instrs[..i])
      {
        var events := RunOnInstruction(f.name, i, f.instrs[i]);
        BodyEventsSnoc(instructionCallbacks, f.name, f.instrs, i);
        log := log + events;
        i := i + 1;
      }
      assert f.instrs[..i] == f.instrs;
    }

    /** Traverses one function: nothing if it is excluded; otherwise its pre
        processing, each of its instructions in program order, its post
        processing. A false aggregate is reported and changes nothing else. */
    method RunOnFunction(f: Function, outcome: Outcome) returns (log: seq<Event>)
      ensures log == FunctionEvents(Config(), outcome, f)
    {
      log := [];
      var excluded := InFunctionExclusionList(f);
      if excluded {
        return;
      }
      var ok, pre := RunFunctionPreProcessCallbacks(f, outcome);
      log := pre + if ok then [] else [Failed(FunctionPre, f.name)];
      assert log == Report(FunctionPre, functionPreProcessCallbacks, OfFunction(f), outcome);
      var body := RunOnInstructions(f);
      log := log + body;
      var post;
      ok, post := RunFunctionPostProcessCallbacks(f, outcome);
      var tail := post + if ok then [] else [Failed(FunctionPost, f.name)];
      assert tail == Report(FunctionPost, functionPostProcessCallbacks, OfFunction(f), outcome);
      log := log + tail;
    }

    /** The function loop of `runOnModule`: traverses the functions `funcs`
        one by one, in declaration order. */
    method RunOnFunctions(funcs: seq<Function>, outcome: Outcome) returns (log: seq<Event>)
      ensures log == FunctionsEvents(Config(), outcome, funcs)
    {
      log := [];
      var i := 0;
      while i < |funcs|
        invariant 0 <= i <= |funcs|
        invariant log == FunctionsEvents(Config(), outcome, funcs[..i])
      {
        var events := RunOnFunction(funcs[i], outcome);
        FunctionsEventsSnoc(Config(), outcome, funcs, i);
        log := log + events;
        i := i + 1;
      }
      assert funcs[..i] == funcs;
    }

    /** Traverses a module. An excluded module is left untouched and the result
        is false; otherwise the result is true whatever the callbacks return. */
    method RunOnModule(m: Module, outcome: Outcome) returns (result: bool, log: seq<Event>)
      ensures result <==> !ModuleExcluded(moduleExclusionList, m.resolvedPath)
      ensures !result ==> log == []
      ensures log == ModuleEvents(Config(), outcome, m)
    {
      log := [];
      var excluded := InModuleExclusionList(m);
      if excluded {
        return false, log;
      }
      var ok, pre := RunModulePreProcessCallbacks(m, outcome);
      log := pre + if ok then [] else [Failed(ModulePre, m.name)];
      assert log == Report(ModulePre, modulePreProcessCallbacks, OfModule(m), outcome);
      var body := RunOnFunctions(m.funcs, outcome);
      log := log + body;
      var post;
      ok, post := RunModulePostProcessCallbacks(m, outcome);
      var tail := post + if ok then [] else [Failed(ModulePost, m.name)];
      assert tail == Report(ModulePost, modulePostProcessCallbacks, OfModule(m), outcome);
      log := log + tail;
      return true, log;
    }
  }
}
