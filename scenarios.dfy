/** Concrete runs: small configurations and modules, and the invocation logs
    the traversal produces for them. */
module Scenarios {
  import opened Ir
  import opened Classifier
  import opened Exclusion
  import opened Traversal
  import opened TraversalProperties

  /** A module whose resolved path begins with an excluded directory is not
      traversed: nothing runs, whatever is registered. */
  lemma ExcludedDirectory(outcome: Outcome, funcs: seq<Function>)
    ensures var cfg := Empty.(moduleExclusions := ["/a/b"], modulePre := [1], functionPre := [2],
                              instructionCallbacks := map[Load := [3]]);
      ModuleExcluded(cfg.moduleExclusions, "/a/b/main.ir") &&
      ModuleEvents(cfg, outcome, Module("/a/b/main.ir", "main", funcs)) == []
  {
    assert IsPrefix(["/a/b"][0], "/a/b/main.ir");
  }

  /** The relative entry "a/b" excludes no module: the resolved path
      "/a/b/main.ir" is absolute. */
  lemma RelativeEntryIgnored()
    ensures !ModuleExcluded(["a/b"], "/a/b/main.ir")
  {
    RelativeEntryNeverMatches(["a/b"], "/a/b/main.ir");
  }

  /** The configuration of the next two scenarios: function "f1" excluded,
      one function pre, one function post and one load callback. */
  const SiblingConfig: Configuration :=
    Empty.(functionExclusions := ["f1"], functionPre := [1], functionPost := [2],
           instructionCallbacks := map[Load := [3]])

  /** The module of the next two scenarios: functions "f1" and "f2", each a single load. */
  const SiblingModule: Module :=
    Module("/src/m.c", "m", [Function("f1", [LoadInst]), Function("f2", [LoadInst])])

  /** Of two functions, the excluded one gets no pre or post processing and no
      dispatch. */
  lemma ExcludedSibling(outcome: Outcome)
    ensures var r := ModuleEvents(SiblingConfig, outcome, SiblingModule);
      && multiset(r)[Invoke(FunctionPre, 1, "f1")] == 0
      && multiset(r)[Invoke(FunctionPost, 2, "f1")] == 0
      && multiset(r)[Dispatch(3, "f1", 0, Load)] == 0
  {
    var cfg := SiblingConfig;
    var m := SiblingModule;
    assert !ModuleExcluded(cfg.moduleExclusions, m.resolvedPath);
    assert FunctionExcluded(cfg.functionExclusions, "f1") by {
      assert cfg.functionExclusions[0] == "f1";
    }
    assert m.funcs[0].name == "f1" && m.funcs[1].name == "f2";
    assert m.funcs[0].instrs[0] == LoadInst;
    FunctionCallbackCount(cfg, outcome, m, 0, 1);
    FunctionCallbackCount(cfg, outcome, m, 0, 2);
    FunctionCallbackCount(cfg, outcome, m, 0, 3);
  }

  /** The sibling of an excluded function gets each of its callbacks once. */
  lemma SiblingStillRuns(outcome: Outcome)
    ensures var r := ModuleEvents(SiblingConfig, outcome, SiblingModule);
      && multiset(r)[Invoke(FunctionPre, 1, "f2")] == 1
      && multiset(r)[Invoke(FunctionPost, 2, "f2")] == 1
      && multiset(r)[Dispatch(3, "f2", 0, Load)] == 1
  {
    var cfg := SiblingConfig;
    var m := SiblingModule;
    assert !ModuleExcluded(cfg.moduleExclusions, m.resolvedPath);
    assert !FunctionExcluded(cfg.functionExclusions, "f2") by {
      assert cfg.functionExclusions == ["f1"];
    }
    assert m.funcs[0].name == "f1" && m.funcs[1].name == "f2";
    assert m.funcs[1].instrs[0] == LoadInst;
    assert multiset(cfg.functionPre)[1] == 1 && multiset(cfg.functionPost)[2] == 1;
    assert CallbacksFor(cfg.instructionCallbacks, Load) == [3];
    assert multiset([3])[3] == 1;
    FunctionCallbackCount(cfg, outcome, m, 1, 1);
    FunctionCallbackCount(cfg, outcome, m, 1, 2);
    FunctionCallbackCount(cfg, outcome, m, 1, 3);
  }

  /** Instructions load, store, load under one load and one store callback:
      the load callback runs on the first and third, the store callback on
      the second, in program order. */
  lemma LoadStoreLoad()
    ensures BodyEvents(map[Load := [7], Store := [8]], "f", [LoadInst, StoreInst, LoadInst])
         == [Dispatch(7, "f", 0, Load), Dispatch(8, "f", 1, Store), Dispatch(7, "f", 2, Load)]
  {
    var registry := map[Load := [7], Store := [8]];
    var d0, d1, d2 := Dispatch(7, "f", 0, Load), Dispatch(8, "f", 1, Store), Dispatch(7, "f", 2, Load);
    assert [LoadInst][..0] == [];
    assert BodyEvents(registry, "f", [LoadInst]) == [d0];
    assert [LoadInst, StoreInst][..1] == [LoadInst];
    assert BodyEvents(registry, "f", [LoadInst, StoreInst]) == [d0, d1];
    assert [LoadInst, StoreInst, LoadInst][..2] == [LoadInst, StoreInst];
  }

  /** Two module pre processing callbacks, the first failing: both run, in
      order, and the failure is reported after them. */
  lemma FirstOfTwoFails(m: Module, outcome: Outcome)
    requires !outcome(1, OfModule(m)) && outcome(2, OfModule(m))
    ensures Report(ModulePre, [1, 2], OfModule(m), outcome)
         == [Invoke(ModulePre, 1, m.name), Invoke(ModulePre, 2, m.name), Failed(ModulePre, m.name)]
  {
    assert !AllSucceed([1, 2], outcome, OfModule(m)) by {
      assert [1, 2][0] == 1;
    }
  }
}
