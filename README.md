# PassRunner: a verified model of the traversal and dispatch engine

The pass runner is the engine of an LLVM module pass. It walks a module, then
each of its functions in declaration order, then each instruction of a
function in program order. At each step it invokes the callbacks that client
code has registered:

- module pre- and post-processing callbacks;
- function pre- and post-processing callbacks;
- instruction callbacks, kept in one ordered list per instruction category.

An instruction's category is one of Load, Store, AtomicCmpXchg, AtomicRMW,
Alloca or NotSupported. Two exclusion lists filter the walk:

- a module is skipped when an entry of the module list is a textual prefix of
  its resolved path;
- a function is skipped when an entry of the function list equals its name.

A pre/post phase runs every callback, ANDs their results, and on a false
result only prints a diagnostic. `runOnModule` returns false exactly when the
module is excluded.

The project is made of these modules:

- `Ir` (ir.dfy): the host objects. A module has a resolved path, a name and
  functions. A function has a name and instructions. An instruction is a kind
  tag that stands for the IR class hierarchy.
- `Classifier` (classifier.dfy): the six categories and `GetInstructionType`.
- `Exclusion` (exclusion.dfy): the two exclusion tests as predicates, and how
  appending an entry changes them.
- `Traversal` (traversal.dfy): what one run does, as a value. This is the
  sequence of events a traversal produces:
  - `Invoke`: a pre/post callback runs on a module or function;
  - `Dispatch`: an instruction callback runs on instruction number `i` of a
    function;
  - `Failed`: a phase's aggregate was false, where the source prints a
    diagnostic.
- `Engine` (engine.dfy): the class `PassRunner`. Its fields are the registry
  map and the six lists. Its registration methods append, and its traversal
  methods loop. Each traversal method returns the log of what it invoked and
  is proved to produce exactly the events `Traversal` specifies for the
  runner's configuration.
- `TraversalProperties` (traversal_properties.dfy): what those event
  sequences guarantee. This covers phase order, declaration and program
  order, exactly-once counts, failure reporting, the effect of exclusion and
  of registration, and the silence of a fresh runner.
- `Scenarios` (scenarios.dfy): small concrete runs.

A callback is an opaque number. The result a module or function callback
returns is given by an `Outcome` function of the callback and its subject.

## Model

| member | source | states |
|---|---|---|
| Classifier.AllInstructionTypes | module-pass/passrunner.hpp:20-28 | there are exactly six categories, pairwise distinct, and every category is one of them |
| Classifier.GetInstructionType | module-pass/passrunner.cpp:102-126 | the category is NotSupported exactly when the instruction is none of the five recognised kinds; otherwise the instruction is of that kind and of none tested before it |
| Classifier.CategoriesDisjoint | module-pass/passrunner.cpp:102-126 | no instruction kind belongs to two categories, so the testing order never picks between two matches |
| Exclusion.ModuleExclusionExtend | module-pass/passrunner.cpp:173-176 | after appending a path, a module is excluded exactly when it was before or the new entry is a prefix of its resolved path |
| Exclusion.FunctionExclusionExtend | module-pass/passrunner.cpp:178-181 | after appending a name, a function is excluded exactly when it was before or the new entry is its name |
| Exclusion.RelativeEntryNeverMatches | module-pass/passrunner.cpp:133-155 | a list whose entries are all non-empty and do not begin with '/' excludes no module whose resolved path begins with '/' |
| Exclusion.EmptyEntryExcludesAll | module-pass/passrunner.cpp:133-145 | an empty entry of the module list is a prefix of every path, so it excludes every module, resolved or not |
| Exclusion.UnresolvedPathExclusion | module-pass/passrunner.cpp:133-155 | when the path does not resolve and the resolved path is empty, the module is excluded exactly when the list holds an empty entry |
| Exclusion.PrefixExcludesModuleNotFunction | module-pass/passrunner.cpp:133-169 | "foo" excludes the module path "foobar" but not the function "foobar"; "/src/lib" excludes "/src/library/x.c" because the test is textual |
| Engine.InvokeAll | module-pass/passrunner.cpp:201-247 | every callback of the list runs once, in registration order, with no short-circuit; the result is the AND of all results, true for an empty list |
| Engine.PassRunner.constructor | module-pass/passrunner.hpp:44-56 | a fresh runner has an empty registry map and six empty lists |
| Engine.PassRunner.RegisterCallback | module-pass/passrunner.cpp:128-131 | appends the callback to its category's list, creating the list if absent; nothing else changes; no category maps to an empty list |
| Engine.PassRunner.AddModuleToExclusionList | module-pass/passrunner.cpp:173-176 | appends to the module exclusion list only |
| Engine.PassRunner.AddFunctionToExclusionList | module-pass/passrunner.cpp:178-181 | appends to the function exclusion list only |
| Engine.PassRunner.AddModulePostProcessCallback | module-pass/passrunner.cpp:183-186 | appends to the module post-processing list only |
| Engine.PassRunner.AddModulePreProcessCallback | module-pass/passrunner.cpp:187-190 | appends to the module pre-processing list only |
| Engine.PassRunner.AddFunctionPostProcessCallback | module-pass/passrunner.cpp:192-195 | appends to the function post-processing list only |
| Engine.PassRunner.AddFunctionPreProcessCallback | module-pass/passrunner.cpp:196-199 | appends to the function pre-processing list only |
| Engine.PassRunner.InModuleExclusionList | module-pass/passrunner.cpp:133-145 | true exactly when some entry is a prefix of the module's resolved path |
| Engine.PassRunner.InFunctionExclusionList | module-pass/passrunner.cpp:157-169 | true exactly when some entry equals the function's name |
| Engine.PassRunner.RunModulePreProcessCallbacks | module-pass/passrunner.cpp:213-223 | runs every module pre callback once in order; the result is true exactly when all of them returned true |
| Engine.PassRunner.RunModulePostProcessCallbacks | module-pass/passrunner.cpp:201-211 | the same for the module post callbacks |
| Engine.PassRunner.RunFunctionPreProcessCallbacks | module-pass/passrunner.cpp:225-235 | the same for the function pre callbacks |
| Engine.PassRunner.RunFunctionPostProcessCallbacks | module-pass/passrunner.cpp:237-247 | the same for the function post callbacks |
| Engine.PassRunner.RunOnInstruction | module-pass/passrunner.cpp:87-100 | runs exactly the callbacks registered under the instruction's category, once each, in registration order; nothing when the category has no entry; on a valid runner, nothing exactly when the category has no entry |
| Engine.PassRunner.RunOnInstructions | module-pass/passrunner.cpp:75-79 | dispatches the function's instructions one after another in program order |
| Engine.PassRunner.RunOnFunction | module-pass/passrunner.cpp:61-85 | nothing for an excluded function; otherwise pre phase, instructions, post phase, with a failure report after a phase whose aggregate is false |
| Engine.PassRunner.RunOnFunctions | module-pass/passrunner.cpp:47-50 | traverses the module's functions one after another in declaration order |
| Engine.PassRunner.RunOnModule | module-pass/passrunner.cpp:16-59 | returns false exactly when the module is excluded, and then runs nothing; otherwise returns true after pre phase, functions, post phase, whatever the callbacks return |
| Traversal.PhaseEvents | module-pass/passrunner.cpp:201-247 | a phase produces one invocation per registered callback, the i-th for the i-th callback |
| Traversal.DispatchEvents | module-pass/passrunner.cpp:95-98 | an instruction produces one dispatch per callback of its category, the j-th for the j-th callback |
| Traversal.BodyEventsSnoc | module-pass/passrunner.cpp:75-79 | dispatching one more instruction appends its dispatches after those of the earlier instructions |
| Traversal.FunctionsEventsSnoc | module-pass/passrunner.cpp:47-50 | traversing one more function appends its events after those of the earlier functions |
| TraversalProperties.PhaseEventsCount | module-pass/passrunner.cpp:201-247 | a phase runs each callback exactly as many times as it is registered in that phase |
| TraversalProperties.ReportMembers | module-pass/passrunner.cpp:42-56 | a phase as performed holds only events of that phase about its own subject |
| TraversalProperties.ReportFailure | module-pass/passrunner.cpp:42-56 | a phase reports a failure exactly when some callback of it returned false |
| TraversalProperties.ReportCount | module-pass/passrunner.cpp:42-56 | apart from the failure report, a phase as performed counts exactly the invocations of its callbacks |
| TraversalProperties.ReportInvokeCount | module-pass/passrunner.cpp:201-247 | a phase as performed runs each of its callbacks as many times as it is registered |
| TraversalProperties.ReportForeignCount | module-pass/passrunner.cpp:201-247 | a phase as performed contains no dispatch and no event of another phase |
| TraversalProperties.AddedCallbackRunsLast | module-pass/passrunner.cpp:183-199 | a callback added to a phase runs after all callbacks added before it, and the earlier order is kept |
| TraversalProperties.InstructionSilentIffUnregistered | module-pass/passrunner.cpp:87-100 | when no category maps to an empty list, an instruction gets no dispatch exactly when its category has no entry |
| TraversalProperties.BodySilentIffUnregistered | module-pass/passrunner.cpp:75-100 | when no category maps to an empty list, a function body gets no dispatch exactly when none of its instructions' categories has an entry |
| TraversalProperties.DispatchEventsCount | module-pass/passrunner.cpp:95-98 | one instruction gets each callback of its category exactly as many times as it is registered there |
| TraversalProperties.RegisterCallbackEffect | module-pass/passrunner.cpp:128-131 | registering a callback under a category adds exactly one dispatch of it, after the others, to every instruction of that category, and changes nothing for other categories |
| TraversalProperties.DispatchInProgramOrder | module-pass/passrunner.cpp:75-79 | a function's body produces only dispatches on its own instructions, each with that instruction's category, and instruction numbers never go back |
| TraversalProperties.DispatchCount | module-pass/passrunner.cpp:75-100 | every instruction of a function gets each callback of its category exactly as many times as it is registered, and no other callback |
| TraversalProperties.BodyMembers | module-pass/passrunner.cpp:75-79 | a function's body produces only dispatches about that function |
| TraversalProperties.BodyForeignCount | module-pass/passrunner.cpp:75-79 | a function's body holds no pre/post invocation and no failure report |
| TraversalProperties.FunctionMembers | module-pass/passrunner.cpp:61-85 | every event of a function's traversal is function-level and about that function |
| TraversalProperties.FunctionEventsShape | module-pass/passrunner.cpp:61-85 | an excluded function produces nothing; otherwise only events about it, ordered pre phase, dispatches, post phase |
| TraversalProperties.FunctionFailureReported | module-pass/passrunner.cpp:69-84 | a function's phase reports a failure exactly when the function is not excluded and some callback of that phase returned false |
| TraversalProperties.FunctionsEventsAppend | module-pass/passrunner.cpp:47-50 | traversing two runs of functions in turn is traversing their concatenation |
| TraversalProperties.DeclarationOrder | module-pass/passrunner.cpp:47-50 | everything done for function k comes after everything for the functions declared before it and before everything for those declared after it |
| TraversalProperties.FunctionsEventsShape | module-pass/passrunner.cpp:47-67 | every event of the function loop is function-level and about a function of the module that is not excluded |
| TraversalProperties.ModuleEventsStaged | module-pass/passrunner.cpp:42-56 | module pre-processing events come first, then the functions' events, then module post-processing |
| TraversalProperties.ExcludedFunctionUntouched | module-pass/passrunner.cpp:61-67 | no pre, post or instruction callback ever runs on an excluded function |
| TraversalProperties.ModuleLevelCount | module-pass/passrunner.cpp:42-56 | a module-level event of a traversed module comes only from its pre or post phase |
| TraversalProperties.ModulePhaseCount | module-pass/passrunner.cpp:28-56 | each module pre/post callback runs as many times as it is registered on a traversed module, and never on an excluded one |
| TraversalProperties.ModuleFailureReported | module-pass/passrunner.cpp:42-56 | a module's phase reports a failure exactly when the module is not excluded and some callback of that phase returned false |
| TraversalProperties.FunctionSplitCount | module-pass/passrunner.cpp:69-84 | a traversed function's events are those of its pre phase, its body and its post phase, counted together |
| TraversalProperties.FunctionPhaseCount | module-pass/passrunner.cpp:69-84 | within a traversed function, each pre/post callback runs as many times as it is registered |
| TraversalProperties.FunctionDispatchCount | module-pass/passrunner.cpp:75-79 | within a traversed function, each instruction gets each callback of its category as many times as it is registered |
| TraversalProperties.NoEventsAbout | module-pass/passrunner.cpp:47-50 | the function loop produces no event about a name that no function of the list bears |
| TraversalProperties.OwnEventsOnly | module-pass/passrunner.cpp:47-50 | with distinct function names, the events about a function come from its own traversal only |
| TraversalProperties.FunctionLevelCount | module-pass/passrunner.cpp:42-56 | the function-level events of a traversed module come from its function loop only |
| TraversalProperties.ModuleOwnCount | module-pass/passrunner.cpp:47-50 | with distinct function names, the module counts an event about function k as often as k's own traversal does |
| TraversalProperties.FunctionPhaseCountInModule | module-pass/passrunner.cpp:47-73 | with distinct function names, each function pre/post callback runs on function k as many times as it is registered, or never when k is excluded |
| TraversalProperties.FunctionDispatchCountInModule | module-pass/passrunner.cpp:47-79 | with distinct function names, each instruction callback runs on instruction i of function k as many times as it is registered for its category, or never when k is excluded |
| TraversalProperties.FunctionCallbackCount | module-pass/passrunner.cpp:47-85 | every callback of a non-excluded function runs exactly as registered, and none runs for an excluded one, whatever its siblings are |
| TraversalProperties.FreshRunnerIsSilent | module-pass/passrunner.hpp:44-56 | a fresh runner excludes no module and invokes nothing |
| Scenarios.ExcludedDirectory | module-pass/passrunner.cpp:28-32 | with "/a/b" excluded, the module whose resolved path is "/a/b/main.ir" is skipped and no callback runs |
| Scenarios.RelativeEntryIgnored | module-pass/passrunner.cpp:133-145 | the relative entry "a/b" does not exclude the module whose resolved path is "/a/b/main.ir" |
| Scenarios.ExcludedSibling | module-pass/passrunner.cpp:61-67 | of functions f1 (excluded) and f2, f1 gets no pre, post or load callback |
| Scenarios.SiblingStillRuns | module-pass/passrunner.cpp:47-50 | in the same module, f2 gets its pre, post and load callbacks once each |
| Scenarios.LoadStoreLoad | module-pass/passrunner.cpp:75-98 | on load, store, load, the load callback runs on the first and third and the store callback on the second, in that order |
| Scenarios.FirstOfTwoFails | module-pass/passrunner.cpp:213-223 | of two module pre callbacks the first failing, both run and the failure is reported after them |

## Left out

- Path resolution: `getAbsoluteModulePath` (module-pass/passrunner.cpp:147-155) is not modelled. The module's resolved path is an input of the model, because `real_path` queries the filesystem. The code ignores the error `real_path` returns. LLVM's `real_path` leaves its output empty on failure, so the code then tests the empty string against the list. Such a module is then excluded exactly when the list holds an empty entry (Exclusion.UnresolvedPathExclusion).
- A non-empty module exclusion entry that does not begin with '/' never matches a resolved path, because resolved paths are absolute (Exclusion.RelativeEntryNeverMatches). An empty entry, by contrast, excludes every module, resolved or not (Exclusion.EmptyEntryExcludesAll). The model accepts any string as a resolved path and does not enforce this.
- Diagnostics: the text written to `llvm::errs()` is not modelled. A `Failed` event marks where a diagnostic is printed.
- Pass-manager plumbing is host integration and is not modelled. This covers the `ModulePass` base class, `s_id` and the static `RegisterStandardPasses` hook.
- `utility::dumpModuleToFile` and `utility::insertWeakDefinition` (module-pass/utilities.hpp) are not part of this model. They are file I/O and IRBuilder calls.
- Callback bodies are not modelled. A callback is a number. A module or function callback's result comes from the `Outcome` parameter, a pure function of the callback and its subject. A callback that keeps state between calls is therefore not modelled.
- Engine.PassRunner.RunOnInstruction: the log does not record instruction callbacks' boolean results, because the source discards them.
- Engine.PassRunner.RunOnInstruction: the instruction is given as its function's name, its position and its kind, because the model has no instruction objects.
- Callbacks are modelled as leaving the IR unchanged: the module, its function list, its functions' names and their instruction lists are the same after a callback as before it. In the source a module or function callback may change any of them, and the traversal then sees the change. A module pre callback that erases a function the loop has not reached yet means the source never visits it (module-pass/passrunner.cpp:47), while the model does. One that renames a function with `setName` means the source tests the new name against the function list (module-pass/passrunner.cpp:63, 162), while the model tests the old one. A function pre callback that erases or replaces instructions means the source dispatches the instructions present once it returns (module-pass/passrunner.cpp:75), while the model dispatches the original `f.instrs`. The next four lines are further cases of this.
- Engine.PassRunner.RunOnModule walks `m.funcs` as it was when the call began. The source starts its function loop (module-pass/passrunner.cpp:47) after the module pre callbacks (line 42). A function those callbacks add, for instance through `getOrInsertFunction` (possibly given a body by `utility::insertWeakDefinition`), is therefore traversed in the source but not in the model.
- Engine.PassRunner.RunOnFunctions walks `funcs` as it was passed in. The source's `for (auto &func : M)` (module-pass/passrunner.cpp:47-50) runs up to the module's end sentinel, so it also reaches functions appended while the loop runs. A function pre or post callback, or an instruction callback, can append one through `getOrInsertFunction`, for instance to declare a runtime hook, and may give it a body through `utility::insertWeakDefinition`. The source then traverses that function after the original ones: it runs the function pre and post callbacks on it, and the instruction callbacks when it has a body. The model does not visit it.
- Engine.PassRunner.RunOnFunction walks `f.instrs` as it was when the call began. The source takes `inst_begin(F)` (module-pass/passrunner.cpp:75) after the function pre callbacks (line 70). Instructions those callbacks insert are therefore dispatched in the source but not in the model.
- Instruction callbacks that insert or erase instructions during the walk are not modelled either. Nothing is claimed about the visiting of such instructions.
- Engine.PassRunner.RunOnInstructions and Engine.PassRunner.RunOnFunctions are the two loops inside `runOnFunction` and `runOnModule`, written as methods of their own.
- The definitions are split between the `mpass` and `memorypass` namespaces in the source. The model treats all of them as members of one `PassRunner`.
- TraversalProperties.FunctionCallbackCount and the lemmas behind it assume distinct function names. With duplicate names, the events of two functions cannot be told apart by name.
- TraversalProperties.FunctionPhaseCountInModule requires distinct function names. LLVM gives every unnamed function the empty name, so a module can hold duplicates; for them the lemma says nothing.
- TraversalProperties.FunctionDispatchCountInModule requires distinct function names, for the same reason.
- TraversalProperties.OwnEventsOnly and TraversalProperties.ModuleOwnCount require distinct function names, for the same reason.
