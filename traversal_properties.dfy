/** What the traversal promises, proved about the event sequences Traversal
    specifies (and so, through the runner's postconditions, about every run):
    the order of the phases, that each registered callback runs exactly once
    per applicable subject, that exclusion silences a module or a function and
    nothing else, and how registration changes a later run. */
module TraversalProperties {
  import opened Ir
  import opened Classifier
  import opened Exclusion
  import opened Traversal

  /** Where an event falls in the traversal of one module: its pre
      processing (0), the traversal of its functions (1), its post
      processing (2). */
  function Level(e: Event): nat
  {
    if Stage(e) == 0 then 0 else if Stage(e) == 4 then 2 else 1
  }

  // ---------------------------------------------------------------------------
  // One phase

  /** A phase runs each registered callback as many times as it is registered
      (once, for a callback registered once). */
  lemma PhaseEventsCount(phase: Phase, cbs: seq<CallbackId>, subject: string, c: CallbackId)
    ensures multiset(PhaseEvents(phase, cbs, subject))[Invoke(phase, c, subject)] == multiset(cbs)[c]
  {
    InvocationCount(PhaseEvents(phase, cbs, subject), cbs, phase, subject, c);
  }

  /** The counting argument behind `PhaseEventsCount`, for any sequence that
      invokes `cbs` one by one. */
  lemma {:induction false} InvocationCount(r: seq<Event>, cbs: seq<CallbackId>, phase: Phase, subject: string, c: CallbackId)
    requires |r| == |cbs|
    requires forall i :: 0 <= i < |r| ==> r[i] == Invoke(phase, cbs[i], subject)
    ensures multiset(r)[Invoke(phase, c, subject)] == multiset(cbs)[c]
  {
    if r != [] {
      InvocationCount(r[1..], cbs[1..], phase, subject, c);
      assert r == [r[0]] + r[1..];
      assert cbs == [cbs[0]] + cbs[1..];
    }
  }

  /** A phase as performed consists of events of that phase about its subject. */
  lemma ReportMembers(phase: Phase, cbs: seq<CallbackId>, s: Subject, outcome: Outcome)
    ensures forall x :: x in Report(phase, cbs, s, outcome) ==> !x.Dispatch? && x.phase == phase && Owner(x) == s.Name()
  {
    var p := PhaseEvents(phase, cbs, s.Name());
    forall x | x in p ensures x.Invoke? && x.phase == phase && x.subject == s.Name() {
      var k :| 0 <= k < |p| && p[k] == x;
    }
  }

  /** A phase as performed reports a failure exactly when some callback
      returned false. */
  lemma ReportFailure(phase: Phase, cbs: seq<CallbackId>, s: Subject, outcome: Outcome)
    ensures Failed(phase, s.Name()) in Report(phase, cbs, s, outcome) <==> exists i :: 0 <= i < |cbs| && !outcome(cbs[i], s)
  {
    var p := PhaseEvents(phase, cbs, s.Name());
    forall x | x in p ensures x.Invoke? {
      var k :| 0 <= k < |p| && p[k] == x;
    }
  }

  /** The count of `x` in a phase as performed, when `x` is not a failure report. */
  lemma ReportCount(phase: Phase, cbs: seq<CallbackId>, s: Subject, outcome: Outcome, x: Event)
    requires !x.Failed?
    ensures multiset(Report(phase, cbs, s, outcome))[x] == multiset(PhaseEvents(phase, cbs, s.Name()))[x]
  {
  }

  /** A phase as performed holds no dispatch and no event of another phase. */
  lemma ReportForeignCount(phase: Phase, cbs: seq<CallbackId>, s: Subject, outcome: Outcome, x: Event)
    requires x.Dispatch? || x.phase != phase
    ensures multiset(Report(phase, cbs, s, outcome))[x] == 0
  {
    ReportMembers(phase, cbs, s, outcome);
    assert x !in Report(phase, cbs, s, outcome);
  }

  /** A phase as performed runs each of its callbacks as many times as it is
      registered for the phase. */
  lemma ReportInvokeCount(phase: Phase, cbs: seq<CallbackId>, s: Subject, outcome: Outcome, c: CallbackId)
    ensures multiset(Report(phase, cbs, s, outcome))[Invoke(phase, c, s.Name())] == multiset(cbs)[c]
  {
    ReportCount(phase, cbs, s, outcome, Invoke(phase, c, s.Name()));
    PhaseEventsCount(phase, cbs, s.Name(), c);
  }

  /** Registering one more callback for a phase makes it run after all the
      earlier ones. */
  lemma AddedCallbackRunsLast(phase: Phase, cbs: seq<CallbackId>, cb: CallbackId, subject: string)
    ensures PhaseEvents(phase, cbs + [cb], subject) == PhaseEvents(phase, cbs, subject) + [Invoke(phase, cb, subject)]
  {
    var l := PhaseEvents(phase, cbs + [cb], subject);
    var r := PhaseEvents(phase, cbs, subject) + [Invoke(phase, cb, subject)];
    assert |l| == |r|;
    forall k | 0 <= k < |l| ensures l[k] == r[k] {
      if k < |cbs| {
        assert (cbs + [cb])[k] == cbs[k];
      }
    }
  }

  // ---------------------------------------------------------------------------
  // Instruction dispatch

  /** Dispatching one instruction runs each callback of its category as many
      times as it is registered there. */
  lemma DispatchEventsCount(cbs: seq<CallbackId>, owner: string, index: nat, t: InstructionType, c: CallbackId)
    ensures multiset(DispatchEvents(cbs, owner, index, t))[Dispatch(c, owner, index, t)] == multiset(cbs)[c]
  {
    DispatchRunCount(DispatchEvents(cbs, owner, index, t), cbs, owner, index, t, c);
  }

  /** The counting argument behind `DispatchEventsCount`, for any sequence
      that dispatches `cbs` one by one. */
  lemma {:induction false} DispatchRunCount(r: seq<Event>, cbs: seq<CallbackId>, owner: string, index: nat,
                                            t: InstructionType, c: CallbackId)
    requires |r| == |cbs|
    requires forall i :: 0 <= i < |r| ==> r[i] == Dispatch(cbs[i], owner, index, t)
    ensures multiset(r)[Dispatch(c, owner, index, t)] == multiset(cbs)[c]
  {
    if r != [] {
      DispatchRunCount(r[1..], cbs[1..], owner, index, t, c);
      assert r == [r[0]] + r[1..];
      assert cbs == [cbs[0]] + cbs[1..];
    }
  }

  /** Registering callback `cb` under category `t` adds exactly one dispatch of
      `cb`, after the earlier ones, to every instruction of category `t`, and
      changes nothing for the other categories. */
  lemma RegisterCallbackEffect(registry: InstructionCallbacks, t: InstructionType, cb: CallbackId,
                               owner: string, index: nat, k: InstrKind)
    ensures InstructionEvents(registry[t := CallbacksFor(registry, t) + [cb]], owner, index, k)
         == InstructionEvents(registry, owner, index, k)
            + if GetInstructionType(k) == t then [Dispatch(cb, owner, index, t)] else []
  {
    var cbs := CallbacksFor(registry, t);
    if GetInstructionType(k) == t {
      var l := DispatchEvents(cbs + [cb], owner, index, t);
      var r := DispatchEvents(cbs, owner, index, t) + [Dispatch(cb, owner, index, t)];
      assert |l| == |r|;
      forall j | 0 <= j < |l| ensures l[j] == r[j] {
        if j < |cbs| {
          assert (cbs + [cb])[j] == cbs[j];
        }
      }
    }
  }

  /** When no category maps to an empty list, an instruction gets a dispatch
      exactly when its category has an entry. */
  lemma InstructionSilentIffUnregistered(registry: InstructionCallbacks, owner: string, index: nat, k: InstrKind)
    requires NoEmptyEntries(registry)
    ensures InstructionEvents(registry, owner, index, k) == [] <==> GetInstructionType(k) !in registry
  {
  }

  /** No instruction of `instrs` has a category with an entry in `registry`. */
  ghost predicate NoneRegistered(registry: InstructionCallbacks, instrs: seq<InstrKind>)
  {
    forall i :: 0 <= i < |instrs| ==> GetInstructionType(instrs[i]) !in registry
  }

  lemma NoneRegisteredSnoc(registry: InstructionCallbacks, instrs: seq<InstrKind>, n: nat)
    requires n == |instrs| - 1
    ensures NoneRegistered(registry, instrs)
        <==> NoneRegistered(registry, instrs[..n]) && GetInstructionType(instrs[n]) !in registry
  {
    assert forall i :: 0 <= i < n ==> instrs[..n][i] == instrs[i];
  }

  /** When no category maps to an empty list, a body gets no dispatch exactly
      when none of its instructions' categories has an entry. */
  lemma {:induction false} BodySilentIffUnregistered(registry: InstructionCallbacks, owner: string, instrs: seq<InstrKind>)
    requires NoEmptyEntries(registry)
    ensures BodyEvents(registry, owner, instrs) == [] <==> NoneRegistered(registry, instrs)
    decreases |instrs|
  {
    if instrs != [] {
      var n := |instrs| - 1;
      var p, q := BodyEvents(registry, owner, instrs[..n]), InstructionEvents(registry, owner, n, instrs[n]);
      assert BodyEvents(registry, owner, instrs) == p + q;
      assert |p + q| == |p| + |q|;
      BodySilentIffUnregistered(registry, owner, instrs[..n]);
      InstructionSilentIffUnregistered(registry, owner, n, instrs[n]);
      NoneRegisteredSnoc(registry, instrs, n);
    }
  }

  /** `r` consists of dispatches on the instructions `instrs` of the function
      `owner`, each with its instruction's category, with instruction numbers
      that never go back. */
  ghost predicate DispatchesInOrder(r: seq<Event>, owner: string, instrs: seq<InstrKind>)
  {
    && (forall k :: 0 <= k < |r| ==>
          r[k].Dispatch? && r[k].owner == owner && r[k].index < |instrs| &&
          r[k].itype == GetInstructionType(instrs[r[k].index]))
    && (forall a, b :: 0 <= a <= b < |r| && r[a].Dispatch? && r[b].Dispatch? ==> r[a].index <= r[b].index)
  }

  /** The dispatches on instruction `n`, the last of `instrs`, following
      dispatches in order on the instructions before it, are still in order. */
  lemma DispatchesInOrderSnoc(p: seq<Event>, q: seq<Event>, owner: string, instrs: seq<InstrKind>, n: nat)
    requires n == |instrs| - 1
    requires DispatchesInOrder(p, owner, instrs[..n])
    requires forall j :: 0 <= j < |q| ==>
               q[j].Dispatch? && q[j].owner == owner && q[j].index == n && q[j].itype == GetInstructionType(instrs[n])
    ensures DispatchesInOrder(p + q, owner, instrs)
  {
    var r := p + q;
    forall k | 0 <= k < |r|
      ensures r[k].Dispatch? && r[k].owner == owner && r[k].index < |instrs|
      ensures r[k].itype == GetInstructionType(instrs[r[k].index])
      ensures k < |p| ==> r[k].index < n
      ensures k >= |p| ==> r[k].index == n
    {
      if k < |p| {
        assert r[k] == p[k];
        assert instrs[..n][p[k].index] == instrs[p[k].index];
      } else {
        assert r[k] == q[k - |p|];
      }
    }
  }

  /** The instructions of a function are dispatched in program order. */
  lemma {:induction false} DispatchInProgramOrder(registry: InstructionCallbacks, owner: string, instrs: seq<InstrKind>)
    ensures DispatchesInOrder(BodyEvents(registry, owner, instrs), owner, instrs)
    decreases |instrs|
  {
    if instrs != [] {
      var n := |instrs| - 1;
      DispatchInProgramOrder(registry, owner, instrs[..n]);
      DispatchesInOrderSnoc(BodyEvents(registry, owner, instrs[..n]), InstructionEvents(registry, owner, n, instrs[n]),
                            owner, instrs, n);
    }
  }

  /** Each instruction of a function gets each callback of its category as many
      times as it is registered there, and no more. */
  lemma {:induction false} DispatchCount(registry: InstructionCallbacks, owner: string, instrs: seq<InstrKind>,
                                         i: nat, c: CallbackId)
    requires i < |instrs|
    ensures var t := GetInstructionType(instrs[i]);
      multiset(BodyEvents(registry, owner, instrs))[Dispatch(c, owner, i, t)] == multiset(CallbacksFor(registry, t))[c]
  {
    var t := GetInstructionType(instrs[i]);
    var x := Dispatch(c, owner, i, t);
    var n := |instrs| - 1;
    var prefix := instrs[..n];
    var p := BodyEvents(registry, owner, prefix);
    var tn := GetInstructionType(instrs[n]);
    var q := DispatchEvents(CallbacksFor(registry, tn), owner, n, tn);
    assert BodyEvents(registry, owner, instrs) == p + q;
    if i == n {
      DispatchInProgramOrder(registry, owner, prefix);
      assert x !in p;
      DispatchEventsCount(CallbacksFor(registry, t), owner, n, t, c);
    } else {
      DispatchCount(registry, owner, prefix, i, c);
      assert prefix[i] == instrs[i];
      assert x !in q;
    }
  }

  // ---------------------------------------------------------------------------
  // One function

  /** Three runs of events, each at one level, the levels increasing from run
      to run: their concatenation is ordered by level. */
  lemma OrderedConcat(p: seq<Event>, q: seq<Event>, s: seq<Event>, level: Event -> nat, i: nat, j: nat, l: nat)
    requires i <= j <= l
    requires forall x :: x in p ==> level(x) == i
    requires forall x :: x in q ==> level(x) == j
    requires forall x :: x in s ==> level(x) == l
    ensures var r := p + q + s; forall a, b :: 0 <= a <= b < |r| ==> level(r[a]) <= level(r[b])
  {
    var r := p + q + s;
    forall k | 0 <= k < |r| ensures level(r[k]) == if k < |p| then i else if k < |p| + |q| then j else l {
      if k < |p| {
        assert r[k] == p[k];
      } else if k < |p| + |q| {
        assert r[k] == q[k - |p|];
      } else {
        assert r[k] == s[k - |p| - |q|];
      }
    }
  }

  /** Every event of `r` belongs to the traversal of the function `name`. */
  ghost predicate AboutFunction(r: seq<Event>, name: string)
  {
    forall x :: x in r ==> FunctionLevel(x) && Owner(x) == name
  }

  /** The instruction dispatches of a function, as members. */
  lemma BodyMembers(registry: InstructionCallbacks, owner: string, instrs: seq<InstrKind>)
    ensures forall x :: x in BodyEvents(registry, owner, instrs) ==> x.Dispatch? && x.owner == owner && Stage(x) == 2
    ensures AboutFunction(BodyEvents(registry, owner, instrs), owner)
  {
    var body := BodyEvents(registry, owner, instrs);
    DispatchInProgramOrder(registry, owner, instrs);
    forall x | x in body ensures x.Dispatch? && x.owner == owner {
      var k :| 0 <= k < |body| && body[k] == x;
    }
  }

  /** A function's pre or post processing is about that function. */
  lemma ReportAboutFunction(phase: Phase, cbs: seq<CallbackId>, f: Function, outcome: Outcome)
    requires phase == FunctionPre || phase == FunctionPost
    ensures AboutFunction(Report(phase, cbs, OfFunction(f), outcome), f.name)
    ensures forall x :: x in Report(phase, cbs, OfFunction(f), outcome) ==> Stage(x) == if phase == FunctionPre then 1 else 3
  {
    ReportMembers(phase, cbs, OfFunction(f), outcome);
  }

  lemma AboutFunctionConcat(p: seq<Event>, q: seq<Event>, s: seq<Event>, name: string)
    requires AboutFunction(p, name) && AboutFunction(q, name) && AboutFunction(s, name)
    ensures AboutFunction(p + q + s, name)
  {
  }

  /** Every event of the traversal of a function is about that function. */
  lemma FunctionMembers(cfg: Configuration, outcome: Outcome, f: Function)
    ensures AboutFunction(FunctionEvents(cfg, outcome, f), f.name)
  {
    if !FunctionExcluded(cfg.functionExclusions, f.name) {
      var pre := Report(FunctionPre, cfg.functionPre, OfFunction(f), outcome);
      var body := BodyEvents(cfg.instructionCallbacks, f.name, f.instrs);
      var post := Report(FunctionPost, cfg.functionPost, OfFunction(f), outcome);
      ReportAboutFunction(FunctionPre, cfg.functionPre, f, outcome);
      ReportAboutFunction(FunctionPost, cfg.functionPost, f, outcome);
      BodyMembers(cfg.instructionCallbacks, f.name, f.instrs);
      AboutFunctionConcat(pre, body, post, f.name);
    }
  }

  /** The traversal of a function: nothing when it is excluded; otherwise only
      events about that function, in the order pre processing, instruction
      dispatch, post processing. */
  lemma FunctionEventsShape(cfg: Configuration, outcome: Outcome, f: Function)
    ensures FunctionExcluded(cfg.functionExclusions, f.name) ==> FunctionEvents(cfg, outcome, f) == []
    ensures forall x :: x in FunctionEvents(cfg, outcome, f) ==> FunctionLevel(x) && Owner(x) == f.name
    ensures var r := FunctionEvents(cfg, outcome, f);
      forall a, b :: 0 <= a <= b < |r| ==> Stage(r[a]) <= Stage(r[b])
  {
    FunctionMembers(cfg, outcome, f);
    if !FunctionExcluded(cfg.functionExclusions, f.name) {
      var pre := Report(FunctionPre, cfg.functionPre, OfFunction(f), outcome);
      var body := BodyEvents(cfg.instructionCallbacks, f.name, f.instrs);
      var post := Report(FunctionPost, cfg.functionPost, OfFunction(f), outcome);
      ReportAboutFunction(FunctionPre, cfg.functionPre, f, outcome);
      ReportAboutFunction(FunctionPost, cfg.functionPost, f, outcome);
      BodyMembers(cfg.instructionCallbacks, f.name, f.instrs);
      OrderedConcat(pre, body, post, Stage, 1, 2, 3);
    }
  }

  /** A function's pre or post processing reports a failure exactly when the
      function is traversed and some callback of that phase returned false. */
  lemma FunctionFailureReported(cfg: Configuration, outcome: Outcome, f: Function, phase: Phase)
    requires phase == FunctionPre || phase == FunctionPost
    ensures var cbs := if phase == FunctionPre then cfg.functionPre else cfg.functionPost;
      Failed(phase, f.name) in FunctionEvents(cfg, outcome, f) <==>
        !FunctionExcluded(cfg.functionExclusions, f.name) && exists i :: 0 <= i < |cbs| && !outcome(cbs[i], OfFunction(f))
  {
    var cbs := if phase == FunctionPre then cfg.functionPre else cfg.functionPost;
    var other := if phase == FunctionPre then FunctionPost else FunctionPre;
    var otherCbs := if phase == FunctionPre then cfg.functionPost else cfg.functionPre;
    if !FunctionExcluded(cfg.functionExclusions, f.name) {
      ReportFailure(phase, cbs, OfFunction(f), outcome);
      ReportMembers(other, otherCbs, OfFunction(f), outcome);
      BodyMembers(cfg.instructionCallbacks, f.name, f.instrs);
    }
  }

  // ---------------------------------------------------------------------------
  // The functions of a module

  /** Traversing no further functions adds nothing. */
  lemma FunctionsEventsAppendNone(cfg: Configuration, outcome: Outcome, a: seq<Function>, b: seq<Function>)
    requires b == []
    ensures FunctionsEvents(cfg, outcome, a + b) == FunctionsEvents(cfg, outcome, a) + FunctionsEvents(cfg, outcome, b)
  {
    assert a + b == a;
  }

  /** The last function of `a + b`, for a nonempty `b`, is the last of `b`. */
  lemma AppendLast(a: seq<Function>, b: seq<Function>)
    requires b != []
    ensures (a + b)[..|a + b| - 1] == a + b[..|b| - 1]
    ensures (a + b)[|a + b| - 1] == b[|b| - 1]
  {
  }

  /** One step of `FunctionsEventsAppend`, given the result for `b` without its
      last function. */
  lemma FunctionsEventsAppendStep(cfg: Configuration, outcome: Outcome, a: seq<Function>, b: seq<Function>)
    requires b != []
    requires FunctionsEvents(cfg, outcome, a + b[..|b| - 1])
          == FunctionsEvents(cfg, outcome, a) + FunctionsEvents(cfg, outcome, b[..|b| - 1])
    ensures FunctionsEvents(cfg, outcome, a + b) == FunctionsEvents(cfg, outcome, a) + FunctionsEvents(cfg, outcome, b)
  {
    AppendLast(a, b);
  }

  /** Traversing two runs of functions one after the other is traversing the
      run they make together. */
  lemma {:induction false} FunctionsEventsAppend(cfg: Configuration, outcome: Outcome, a: seq<Function>, b: seq<Function>)
    ensures FunctionsEvents(cfg, outcome, a + b) == FunctionsEvents(cfg, outcome, a) + FunctionsEvents(cfg, outcome, b)
    decreases |b|
  {
    if b == [] {
      FunctionsEventsAppendNone(cfg, outcome, a, b);
    } else {
      FunctionsEventsAppend(cfg, outcome, a, b[..|b| - 1]);
      FunctionsEventsAppendStep(cfg, outcome, a, b);
    }
  }

  /** Traversing a single function. */
  lemma FunctionsEventsSingle(cfg: Configuration, outcome: Outcome, f: Function)
    ensures FunctionsEvents(cfg, outcome, [f]) == FunctionEvents(cfg, outcome, f)
  {
    assert [f][..0] == [];
  }

  /** Functions are traversed in declaration order: everything done for
      function `k` comes after everything done for the functions declared
      before it and before everything done for those declared after it. */
  lemma DeclarationOrder(cfg: Configuration, outcome: Outcome, funcs: seq<Function>, k: nat)
    requires k < |funcs|
    ensures FunctionsEvents(cfg, outcome, funcs)
         == FunctionsEvents(cfg, outcome, funcs[..k]) + FunctionEvents(cfg, outcome, funcs[k])
            + FunctionsEvents(cfg, outcome, funcs[k + 1..])
  {
    assert funcs == funcs[..k] + [funcs[k]] + funcs[k + 1..];
    FunctionsEventsAppend(cfg, outcome, funcs[..k] + [funcs[k]], funcs[k + 1..]);
    FunctionsEventsAppend(cfg, outcome, funcs[..k], [funcs[k]]);
    FunctionsEventsSingle(cfg, outcome, funcs[k]);
  }

  /** `x` is an event of a traversed function among `funcs`. */
  ghost predicate OfTraversedFunction(cfg: Configuration, funcs: seq<Function>, x: Event)
  {
    FunctionLevel(x) && !FunctionExcluded(cfg.functionExclusions, Owner(x)) &&
    exists j :: 0 <= j < |funcs| && funcs[j].name == Owner(x)
  }

  /** One step of `FunctionsEventsShape`. */
  lemma FunctionsEventsShapeStep(cfg: Configuration, outcome: Outcome, funcs: seq<Function>, prefix: seq<Function>)
    requires funcs != [] && prefix == funcs[..|funcs| - 1]
    requires forall x :: x in FunctionsEvents(cfg, outcome, prefix) ==> OfTraversedFunction(cfg, prefix, x)
    ensures forall x :: x in FunctionsEvents(cfg, outcome, funcs) ==> OfTraversedFunction(cfg, funcs, x)
  {
    var n := |funcs| - 1;
    var p := FunctionsEvents(cfg, outcome, funcs[..n]);
    var q := FunctionEvents(cfg, outcome, funcs[n]);
    FunctionMembers(cfg, outcome, funcs[n]);
    assert FunctionsEvents(cfg, outcome, funcs) == p + q;
    forall x | x in p + q ensures OfTraversedFunction(cfg, funcs, x) {
      if x in p {
        var j :| 0 <= j < n && funcs[..n][j].name == Owner(x);
        assert funcs[j].name == Owner(x);
      } else {
        assert funcs[n].name == Owner(x);
      }
    }
  }

  /** Every event of the traversal of some functions belongs to a function that
      is not excluded, and is about a function of that list. */
  lemma {:induction false} FunctionsEventsShape(cfg: Configuration, outcome: Outcome, funcs: seq<Function>)
    ensures forall x :: x in FunctionsEvents(cfg, outcome, funcs) ==> OfTraversedFunction(cfg, funcs, x)
    decreases |funcs|
  {
    if funcs != [] {
      FunctionsEventsShape(cfg, outcome, funcs[..|funcs| - 1]);
      FunctionsEventsShapeStep(cfg, outcome, funcs, funcs[..|funcs| - 1]);
    }
  }

  // ---------------------------------------------------------------------------
  // A module

  /** The traversal of a module: module pre processing first, then the
      functions, then module post processing. */
  lemma ModuleEventsStaged(cfg: Configuration, outcome: Outcome, m: Module)
    ensures var r := ModuleEvents(cfg, outcome, m);
      forall a, b :: 0 <= a <= b < |r| ==> Level(r[a]) <= Level(r[b])
  {
    if !ModuleExcluded(cfg.moduleExclusions, m.resolvedPath) {
      var pre := Report(ModulePre, cfg.modulePre, OfModule(m), outcome);
      var body := FunctionsEvents(cfg, outcome, m.funcs);
      var post := Report(ModulePost, cfg.modulePost, OfModule(m), outcome);
      ReportMembers(ModulePre, cfg.modulePre, OfModule(m), outcome);
      ReportMembers(ModulePost, cfg.modulePost, OfModule(m), outcome);
      FunctionsEventsShape(cfg, outcome, m.funcs);
      OrderedConcat(pre, body, post, Level, 0, 1, 2);
    }
  }

  /** No callback at all runs for an excluded function: no pre or post
      processing and no dispatch of its instructions. */
  lemma ExcludedFunctionUntouched(cfg: Configuration, outcome: Outcome, m: Module, name: string)
    requires FunctionExcluded(cfg.functionExclusions, name)
    ensures forall x :: x in ModuleEvents(cfg, outcome, m) && FunctionLevel(x) ==> Owner(x) != name
  {
    if !ModuleExcluded(cfg.moduleExclusions, m.resolvedPath) {
      ReportMembers(ModulePre, cfg.modulePre, OfModule(m), outcome);
      ReportMembers(ModulePost, cfg.modulePost, OfModule(m), outcome);
      FunctionsEventsShape(cfg, outcome, m.funcs);
    }
  }

  /** An event that is not about a function comes from the module's own pre
      or post processing. */
  lemma ModuleLevelCount(cfg: Configuration, outcome: Outcome, m: Module, x: Event)
    requires !ModuleExcluded(cfg.moduleExclusions, m.resolvedPath)
    requires !FunctionLevel(x)
    ensures multiset(ModuleEvents(cfg, outcome, m))[x]
         == multiset(Report(ModulePre, cfg.modulePre, OfModule(m), outcome))[x]
            + multiset(Report(ModulePost, cfg.modulePost, OfModule(m), outcome))[x]
  {
    var pre := Report(ModulePre, cfg.modulePre, OfModule(m), outcome);
    var body := FunctionsEvents(cfg, outcome, m.funcs);
    var post := Report(ModulePost, cfg.modulePost, OfModule(m), outcome);
    FunctionsEventsShape(cfg, outcome, m.funcs);
    assert x !in body;
    assert ModuleEvents(cfg, outcome, m) == pre + body + post;
  }

  /** The module's pre and post processing callbacks each run as many times as
      they are registered when the module is traversed, and never when it is
      excluded. */
  lemma ModulePhaseCount(cfg: Configuration, outcome: Outcome, m: Module, phase: Phase, c: CallbackId)
    requires phase == ModulePre || phase == ModulePost
    ensures var cbs := if phase == ModulePre then cfg.modulePre else cfg.modulePost;
      multiset(ModuleEvents(cfg, outcome, m))[Invoke(phase, c, m.name)]
        == if ModuleExcluded(cfg.moduleExclusions, m.resolvedPath) then 0 else multiset(cbs)[c]
  {
    var x := Invoke(phase, c, m.name);
    if !ModuleExcluded(cfg.moduleExclusions, m.resolvedPath) {
      ModuleLevelCount(cfg, outcome, m, x);
      if phase == ModulePre {
        ReportInvokeCount(ModulePre, cfg.modulePre, OfModule(m), outcome, c);
        ReportForeignCount(ModulePost, cfg.modulePost, OfModule(m), outcome, x);
      } else {
        ReportForeignCount(ModulePre, cfg.modulePre, OfModule(m), outcome, x);
        ReportInvokeCount(ModulePost, cfg.modulePost, OfModule(m), outcome, c);
      }
    }
  }

  /** A module's pre or post processing reports a failure exactly when the
      module is traversed and some callback of that phase returned false. */
  lemma ModuleFailureReported(cfg: Configuration, outcome: Outcome, m: Module, phase: Phase)
    requires phase == ModulePre || phase == ModulePost
    ensures var cbs := if phase == ModulePre then cfg.modulePre else cfg.modulePost;
      Failed(phase, m.name) in ModuleEvents(cfg, outcome, m) <==>
        !ModuleExcluded(cfg.moduleExclusions, m.resolvedPath) && exists i :: 0 <= i < |cbs| && !outcome(cbs[i], OfModule(m))
  {
    if !ModuleExcluded(cfg.moduleExclusions, m.resolvedPath) {
      var cbs := if phase == ModulePre then cfg.modulePre else cfg.modulePost;
      var other := if phase == ModulePre then ModulePost else ModulePre;
      var otherCbs := if phase == ModulePre then cfg.modulePost else cfg.modulePre;
      ReportFailure(phase, cbs, OfModule(m), outcome);
      ReportMembers(other, otherCbs, OfModule(m), outcome);
      FunctionsEventsShape(cfg, outcome, m.funcs);
    }
  }

  /** The events of a traversed function, counted by part. */
  lemma FunctionSplitCount(cfg: Configuration, outcome: Outcome, f: Function, x: Event)
    requires !FunctionExcluded(cfg.functionExclusions, f.name)
    ensures multiset(FunctionEvents(cfg, outcome, f))[x]
         == multiset(Report(FunctionPre, cfg.functionPre, OfFunction(f), outcome))[x]
            + multiset(BodyEvents(cfg.instructionCallbacks, f.name, f.instrs))[x]
            + multiset(Report(FunctionPost, cfg.functionPost, OfFunction(f), outcome))[x]
  {
  }

  /** The instruction dispatches of a function hold nothing but dispatches. */
  lemma BodyForeignCount(registry: InstructionCallbacks, owner: string, instrs: seq<InstrKind>, x: Event)
    requires !x.Dispatch?
    ensures multiset(BodyEvents(registry, owner, instrs))[x] == 0
  {
    BodyMembers(registry, owner, instrs);
    assert x !in BodyEvents(registry, owner, instrs);
  }

  /** Within the traversal of a function that is not excluded, each pre or
      post processing callback runs as many times as it is registered. */
  lemma FunctionPhaseCount(cfg: Configuration, outcome: Outcome, f: Function, phase: Phase, c: CallbackId)
    requires !FunctionExcluded(cfg.functionExclusions, f.name)
    requires phase == FunctionPre || phase == FunctionPost
    ensures var cbs := if phase == FunctionPre then cfg.functionPre else cfg.functionPost;
      multiset(FunctionEvents(cfg, outcome, f))[Invoke(phase, c, f.name)] == multiset(cbs)[c]
  {
    var x := Invoke(phase, c, f.name);
    FunctionSplitCount(cfg, outcome, f, x);
    BodyForeignCount(cfg.instructionCallbacks, f.name, f.instrs, x);
    if phase == FunctionPre {
      ReportInvokeCount(FunctionPre, cfg.functionPre, OfFunction(f), outcome, c);
      ReportForeignCount(FunctionPost, cfg.functionPost, OfFunction(f), outcome, x);
    } else {
      ReportForeignCount(FunctionPre, cfg.functionPre, OfFunction(f), outcome, x);
      ReportInvokeCount(FunctionPost, cfg.functionPost, OfFunction(f), outcome, c);
    }
  }

  /** Within the traversal of a function that is not excluded, each
      instruction callback runs on instruction `i` as many times as it is
      registered under the instruction's category. */
  lemma FunctionDispatchCount(cfg: Configuration, outcome: Outcome, f: Function, i: nat, c: CallbackId)
    requires !FunctionExcluded(cfg.functionExclusions, f.name)
    requires i < |f.instrs|
    ensures var t := GetInstructionType(f.instrs[i]);
      multiset(FunctionEvents(cfg, outcome, f))[Dispatch(c, f.name, i, t)]
        == multiset(CallbacksFor(cfg.instructionCallbacks, t))[c]
  {
    var x := Dispatch(c, f.name, i, GetInstructionType(f.instrs[i]));
    FunctionSplitCount(cfg, outcome, f, x);
    ReportForeignCount(FunctionPre, cfg.functionPre, OfFunction(f), outcome, x);
    ReportForeignCount(FunctionPost, cfg.functionPost, OfFunction(f), outcome, x);
    DispatchCount(cfg.instructionCallbacks, f.name, f.instrs, i, c);
  }

  /** None of the events of the traversal of `funcs` is about `name` when no
      function of `funcs` bears that name. */
  lemma NoEventsAbout(cfg: Configuration, outcome: Outcome, funcs: seq<Function>, name: string)
    requires forall j :: 0 <= j < |funcs| ==> funcs[j].name != name
    ensures forall x :: x in FunctionsEvents(cfg, outcome, funcs) ==> Owner(x) != name
  {
    FunctionsEventsShape(cfg, outcome, funcs);
  }

  /** In a module whose function names are distinct, the events about the
      function at `k` are those of its own traversal: the traversals of the
      functions declared before and after it contribute none. */
  lemma OwnEventsOnly(cfg: Configuration, outcome: Outcome, funcs: seq<Function>, k: nat, x: Event)
    requires k < |funcs|
    requires forall i, j :: 0 <= i < j < |funcs| ==> funcs[i].name != funcs[j].name
    requires Owner(x) == funcs[k].name
    ensures multiset(FunctionsEvents(cfg, outcome, funcs))[x] == multiset(FunctionEvents(cfg, outcome, funcs[k]))[x]
  {
    var before := funcs[..k];
    var after := funcs[k + 1..];
    forall j | 0 <= j < |before| ensures before[j].name != funcs[k].name {
      assert before[j] == funcs[j];
    }
    forall j | 0 <= j < |after| ensures after[j].name != funcs[k].name {
      assert after[j] == funcs[k + 1 + j];
    }
    NoEventsAbout(cfg, outcome, before, funcs[k].name);
    NoEventsAbout(cfg, outcome, after, funcs[k].name);
    DeclarationOrder(cfg, outcome, funcs, k);
  }

  /** An event about a function comes from the traversal of the module's functions. */
  lemma FunctionLevelCount(cfg: Configuration, outcome: Outcome, m: Module, x: Event)
    requires !ModuleExcluded(cfg.moduleExclusions, m.resolvedPath)
    requires FunctionLevel(x)
    ensures multiset(ModuleEvents(cfg, outcome, m))[x] == multiset(FunctionsEvents(cfg, outcome, m.funcs))[x]
  {
    ReportMembers(ModulePre, cfg.modulePre, OfModule(m), outcome);
    ReportMembers(ModulePost, cfg.modulePost, OfModule(m), outcome);
  }

  /** In a traversed module whose function names are distinct, an event
      about the function at `k` is counted by that function's traversal. */
  lemma ModuleOwnCount(cfg: Configuration, outcome: Outcome, m: Module, k: nat, x: Event)
    requires !ModuleExcluded(cfg.moduleExclusions, m.resolvedPath)
    requires k < |m.funcs|
    requires forall i, j :: 0 <= i < j < |m.funcs| ==> m.funcs[i].name != m.funcs[j].name
    requires FunctionLevel(x) && Owner(x) == m.funcs[k].name
    ensures multiset(ModuleEvents(cfg, outcome, m))[x] == multiset(FunctionEvents(cfg, outcome, m.funcs[k]))[x]
  {
    FunctionLevelCount(cfg, outcome, m, x);
    OwnEventsOnly(cfg, outcome, m.funcs, k, x);
  }

  /** In a traversed module whose function names are distinct, a pre or post
      processing callback runs on the function at `k` as many times as it is
      registered, or never when that function is excluded. */
  lemma FunctionPhaseCountInModule(cfg: Configuration, outcome: Outcome, m: Module, k: nat, phase: Phase, c: CallbackId)
    requires !ModuleExcluded(cfg.moduleExclusions, m.resolvedPath)
    requires k < |m.funcs|
    requires forall i, j :: 0 <= i < j < |m.funcs| ==> m.funcs[i].name != m.funcs[j].name
    requires phase == FunctionPre || phase == FunctionPost
    ensures var f := m.funcs[k]; var cbs := if phase == FunctionPre then cfg.functionPre else cfg.functionPost;
      multiset(ModuleEvents(cfg, outcome, m))[Invoke(phase, c, f.name)]
        == if FunctionExcluded(cfg.functionExclusions, f.name) then 0 else multiset(cbs)[c]
  {
    var f := m.funcs[k];
    ModuleOwnCount(cfg, outcome, m, k, Invoke(phase, c, f.name));
    if !FunctionExcluded(cfg.functionExclusions, f.name) {
      FunctionPhaseCount(cfg, outcome, f, phase, c);
    }
  }

  /** In a traversed module whose function names are distinct, an instruction
      callback runs on instruction `i` of the function at `k` as many times as
      it is registered under the instruction's category, or never when that
      function is excluded. */
  lemma FunctionDispatchCountInModule(cfg: Configuration, outcome: Outcome, m: Module, k: nat, i: nat, c: CallbackId)
    requires !ModuleExcluded(cfg.moduleExclusions, m.resolvedPath)
    requires k < |m.funcs| && i < |m.funcs[k].instrs|
    requires forall i, j :: 0 <= i < j < |m.funcs| ==> m.funcs[i].name != m.funcs[j].name
    ensures var f := m.funcs[k]; var t := GetInstructionType(f.instrs[i]);
      multiset(ModuleEvents(cfg, outcome, m))[Dispatch(c, f.name, i, t)]
        == if FunctionExcluded(cfg.functionExclusions, f.name) then 0
           else multiset(CallbacksFor(cfg.instructionCallbacks, t))[c]
  {
    var f := m.funcs[k];
    ModuleOwnCount(cfg, outcome, m, k, Dispatch(c, f.name, i, GetInstructionType(f.instrs[i])));
    if !FunctionExcluded(cfg.functionExclusions, f.name) {
      FunctionDispatchCount(cfg, outcome, f, i, c);
    }
  }

  /** In a traversed module whose function names are distinct, the callbacks
      of every function that is not excluded run: each pre and post processing
      callback as many times as it is registered, and each instruction
      callback that many times on every instruction of its category; for an
      excluded function none of them runs, whatever its siblings are. */
  lemma FunctionCallbackCount(cfg: Configuration, outcome: Outcome, m: Module, k: nat, c: CallbackId)
    requires !ModuleExcluded(cfg.moduleExclusions, m.resolvedPath)
    requires k < |m.funcs|
    requires forall i, j :: 0 <= i < j < |m.funcs| ==> m.funcs[i].name != m.funcs[j].name
    ensures var f := m.funcs[k]; var r := ModuleEvents(cfg, outcome, m);
      var excluded := FunctionExcluded(cfg.functionExclusions, f.name);
      && multiset(r)[Invoke(FunctionPre, c, f.name)] == (if excluded then 0 else multiset(cfg.functionPre)[c])
      && multiset(r)[Invoke(FunctionPost, c, f.name)] == (if excluded then 0 else multiset(cfg.functionPost)[c])
      && forall i :: 0 <= i < |f.instrs| ==>
           var t := GetInstructionType(f.instrs[i]);
           multiset(r)[Dispatch(c, f.name, i, t)]
             == if excluded then 0 else multiset(CallbacksFor(cfg.instructionCallbacks, t))[c]
  {
    FunctionPhaseCountInModule(cfg, outcome, m, k, FunctionPre, c);
    FunctionPhaseCountInModule(cfg, outcome, m, k, FunctionPost, c);
    forall i | 0 <= i < |m.funcs[k].instrs|
      ensures var f := m.funcs[k]; var t := GetInstructionType(f.instrs[i]);
        multiset(ModuleEvents(cfg, outcome, m))[Dispatch(c, f.name, i, t)]
          == if FunctionExcluded(cfg.functionExclusions, f.name) then 0
             else multiset(CallbacksFor(cfg.instructionCallbacks, t))[c]
    {
      FunctionDispatchCountInModule(cfg, outcome, m, k, i, c);
    }
  }

  // ---------------------------------------------------------------------------
  // A fresh runner

  lemma {:induction false} BodyEventsUnregistered(owner: string, instrs: seq<InstrKind>)
    ensures BodyEvents(map[], owner, instrs) == []
    decreases |instrs|
  {
    if instrs != [] {
      BodyEventsUnregistered(owner, instrs[..|instrs| - 1]);
    }
  }

  lemma {:induction false} FunctionsEventsUnconfigured(outcome: Outcome, funcs: seq<Function>)
    ensures FunctionsEvents(Empty, outcome, funcs) == []
    decreases |funcs|
  {
    if funcs != [] {
      var f := funcs[|funcs| - 1];
      FunctionsEventsUnconfigured(outcome, funcs[..|funcs| - 1]);
      BodyEventsUnregistered(f.name, f.instrs);
    }
  }

  /** A freshly constructed runner excludes nothing and runs no callback: it
      traverses every module, invoking nothing and reporting nothing. */
  lemma FreshRunnerIsSilent(outcome: Outcome, m: Module)
    ensures !ModuleExcluded(Empty.moduleExclusions, m.resolvedPath)
    ensures ModuleEvents(Empty, outcome, m) == []
  {
    FunctionsEventsUnconfigured(outcome, m.funcs);
  }
}
