# Initializer and Stateless_Julia modules of StreamPU, in Dafny

This project models two modules of the StreamPU streaming runtime.

- **`Initializer<T>`** is a stateful module. Its one task, `initialize`, copies the
  initialisation row of the current frame into its output socket. The table
  `init_data` has one row per frame and `n_elmts` elements per row. Three
  validating setters overwrite it, and `set_n_frames` resizes it, seeding new
  frames from row 0 (`initializer.dfy`, module `Initializer`).
- **`Stateless_Julia`** is a module whose codelets are Julia functions. Each task
  owns three parallel lists:
  - the boxed constants;
  - their GC pin ids;
  - the argument vector of its Julia call.

  Three recipe lists, held through `shared_ptr` and so shared by every clone,
  record how to rebuild that state: the constants of each task, the Julia code
  to load, and the task whose argument vector a codelet recipe lays out.
  `eval` replays the recipes task by task, and a codelet runs only once the
  module has been evaluated. A clone is marked as such and reset. It cannot
  take new tasks or codelets, and it is evaluated by replaying the recipes it
  shares (`stateless_julia.dfy`, module `StatelessJulia`).
- The branch-only helpers of that module are modelled as pure functions in
  `julia_dispatch.dfy`, module `JuliaDispatch`:
  - the arity dispatch of `jl_call_func`;
  - the socket-type mapping of `jl_new_array_from_data`;
  - the task search of `get_task_id`.
- `wrappers.dfy` holds `Option`, `Result` and `Outcome`. Every `throw` of the
  source is an `Err`/`Fail` carrying the error, and on each such path the
  model keeps the source's partial effects.

Julia objects are opaque values:
- a function is named by the symbol it was looked up under;
- an array by the socket buffer it wraps;
- a box by a serial number or by its 32-bit content;
- a GC pin id by the value it pins.

Loading Julia code and looking a function up have no modelled effect beyond a
ghost `trace` of recipe runs. That trace states the order in which `eval` runs
the recipes.

A codelet whose argument vector has more than ten slots is refused only when
it is called: `jl_call_func` throws at call time
(`Stateless_Julia.cpp:178-183`), and the layout built by the codelet recipe
never checks the count. `JuliaDispatch.JlCallFunc` and
`StatelessJulia.ExecOnLayout` state it that way.

Line 458 of `Stateless_Julia.cpp` pins the frame-id box a second time where the
wave-size box was presumably meant. The model keeps it as written: both new pin
ids of a codelet recipe name the frame-id box. GC behaviour is outside the
model, so nothing else depends on it.

## Model

| member | source | states |
|---|---|---|
| Initializer.Initializer.New | src/Module/Stateful/Initializer/Initializer.cpp:13-38 | refuses `n_elmts == 0` with an error and builds nothing; otherwise a valid module with one frame (the base default) whose row is `n_elmts` zeros, with `ns` kept |
| Initializer.Initializer.Init | src/Module/Stateful/Initializer/Initializer.cpp:13-17 | the member initialisation: one row of `n_elmts` copies of the zero value, `ns` stored, shape invariant established |
| Initializer.Initializer.Copy | src/Module/Stateful/Initializer/Initializer.cpp:44 | the copy constructor copies table, frame count, `ns` and width |
| Initializer.Initializer.Clone | src/Module/Stateful/Initializer/Initializer.cpp:40-47 | a fresh module with the same table and settings; later changes to the copy do not reach the original |
| Initializer.Initializer.SetNs | src/Module/Stateful/Initializer/Initializer.cpp:49-61 | after `set_ns(x)`, `get_ns()` returns `x`; the table and frame count are unchanged |
| Initializer.Initializer.GetNs | src/Module/Stateful/Initializer/Initializer.cpp:49-54 | returns the stored busy-wait duration `ns` |
| Initializer.Initializer.GetInitData | src/Module/Stateful/Initializer/Initializer.cpp:63-68 | returns the `initData` table, which on a valid module has one row per frame, each of `nElmts` elements |
| Initializer.Initializer.SetInitDataRow | src/Module/Stateful/Initializer/Initializer.cpp:70-84 | a row of the wrong length is refused with both lengths and nothing changes; otherwise every frame's row equals the given row and the frame count is kept |
| Initializer.Initializer.SetInitDataMatrix | src/Module/Stateful/Initializer/Initializer.cpp:86-110 | a row count other than the frame count is refused with no change; otherwise, when frame `f` is the first whose row has the wrong length, the error names `f` and both lengths, the rows below `f` are already overwritten and the rest untouched; with no such frame the table equals the matrix |
| Initializer.FirstBadRow | src/Module/Stateful/Initializer/Initializer.cpp:98-107 | the frame at which the validating loop stops: a frame whose length differs, every earlier frame fitting, and None exactly when all rows fit |
| Initializer.FirstBadRowSkips | src/Module/Stateful/Initializer/Initializer.cpp:98-109 | frames the loop has already accepted do not change where it stops |
| Initializer.AssignedAll | src/Module/Stateful/Initializer/Initializer.cpp:98-109 | when every row fits, assigning all of them gives exactly the new matrix |
| Initializer.Initializer.SetInitDataValue | src/Module/Stateful/Initializer/Initializer.cpp:112-118 | every element of every row becomes the value; the shape and frame count are kept |
| Initializer.FilledShape | src/Module/Stateful/Initializer/Initializer.cpp:116-117 | filling keeps the row count and every row's length |
| Initializer.FillIdempotent | src/Module/Stateful/Initializer/Initializer.cpp:112-118 | filling twice with one value is filling once |
| Initializer.Initializer.SetNFrames | src/Module/Stateful/Initializer/Initializer.cpp:120-133 | the frame count becomes `n`; rows below the old and new counts are kept, each added row equals row 0, and shrinking truncates; the shape invariant holds |
| Initializer.ResizedShape | src/Module/Stateful/Initializer/Initializer.cpp:129-131 | a resize gives `n` rows of the old width |
| Initializer.ResizeToSameCount | src/Module/Stateful/Initializer/Initializer.cpp:124-125 | setting the current frame count changes nothing |
| Initializer.ResizeGrowShrinkRoundTrip | src/Module/Stateful/Initializer/Initializer.cpp:120-133 | growing and then shrinking back restores the table |
| Initializer.ResizeAfterGrowth | src/Module/Stateful/Initializer/Initializer.cpp:120-133 | after a growth, any further resize equals one resize of the original table |
| Initializer.ResizeShrinkGrow | src/Module/Stateful/Initializer/Initializer.cpp:120-133 | shrinking loses rows: growing back restores the kept rows and refills the lost ones with row 0 |
| Initializer.FillThenResize | src/Module/Stateful/Initializer/Initializer.cpp:112-133 | a fill followed by a resize is a resize followed by a fill |
| Initializer.Initializer.Initialize | src/Module/Stateful/Initializer/Initializer.cpp:143-158 | the first `n_elmts` elements of `out` become the frame's row; no other element of `out` and nothing in the module changes |
| Initializer.Initializer.Codelet | src/Module/Stateful/Initializer/Initializer.cpp:31-37 | the codelet performs that copy and always returns SUCCESS |
| JuliaDispatch.NewArrayFromData | src/Module/Stateless/Stateless_Julia.cpp:191-222 | succeeds exactly for the ten integer and floating types; the array wraps the socket's buffer and element count with an element type of the same width and kind; any other type is refused with that type |
| JuliaDispatch.NewArrayFromDataInjective | src/Module/Stateless/Stateless_Julia.cpp:196-215 | two different socket types never map to the same Julia element type |
| JuliaDispatch.JlTypeDeterminedByBitsAndKind | src/Module/Stateless/Stateless_Julia.cpp:196-215 | width and kind single out a Julia element type, so the mapping's contract fixes it completely |
| JuliaDispatch.JlCallFunc | src/Module/Stateless/Stateless_Julia.cpp:11-189 | a call is made exactly when the vector has 1 to 10 slots, calling slot 0 with the other slots in order, in safe mode exactly when the safety flag is set; any other count, 0 included, is refused with that count |
| JuliaDispatch.JlCallFuncKeepsVector | src/Module/Stateless/Stateless_Julia.cpp:16-172 | the callee followed by the arguments is the whole vector |
| JuliaDispatch.Wrap32 | src/Module/Stateless/Stateless_Julia.cpp:421-423 | a value stored into a 32-bit box is below 2^32, and unchanged when it already fits |
| JuliaDispatch.FindTask | src/Module/Stateless/Stateless_Julia.cpp:228-229 | the search loop from a position: the first index holding the task, compared by identity, or an error exactly when no later index holds it |
| JuliaDispatch.GetTaskId | src/Module/Stateless/Stateless_Julia.cpp:224-234 | succeeds exactly when the task is in the list, with the first index holding it; otherwise the "not in the module" error |
| JuliaDispatch.GetTaskIdStable | src/Module/Stateless/Stateless_Julia.cpp:224-234 | creating further tasks does not move the index of an existing task |
| JuliaDispatch.Task.constructor | src/Module/Stateless/Stateless_Julia.cpp:345 | a task keeps the name and the sockets it was declared with |
| StatelessJulia.StatelessJuliaModule.constructor | include/Module/Stateless/Stateless_Julia.hpp:42 | `jl_safe` defaults to true; a new module is neither evaluated nor a clone, has no tasks, and owns three fresh, empty recipe lists |
| StatelessJulia.StatelessJuliaModule.Copy | include/Module/Stateless/Stateless_Julia.hpp:30-39 | the implicit copy constructor copies the per-task lists and the flags, and shares the recipe lists |
| StatelessJulia.StatelessJuliaModule.Clone | src/Module/Stateless/Stateless_Julia.cpp:254-260 | the clone is fresh, marked as a clone, not evaluated, with every per-task list emptied and their number kept; it shares the origin's recipe lists and keeps its tasks and safety flag |
| StatelessJulia.StatelessJuliaModule.DeepCopy | src/Module/Stateless/Stateless_Julia.cpp:262-268 | marks the module as a clone and resets it |
| StatelessJulia.StatelessJuliaModule.Reset | src/Module/Stateless/Stateless_Julia.cpp:270-281 | every per-task list is emptied, their number kept, and the module is no longer evaluated; nothing else changes |
| StatelessJulia.ClearedIdempotent | src/Module/Stateless/Stateless_Julia.cpp:270-281 | resetting twice is resetting once; the emptied lists stay parallel to the task list |
| StatelessJulia.StatelessJuliaModule.IsEval | src/Module/Stateless/Stateless_Julia.cpp:283-287 | returns the `evaluated` flag, the one a successful `Eval` sets and `Reset` clears |
| StatelessJulia.StatelessJuliaModule.IsJlSafe | src/Module/Stateless/Stateless_Julia.cpp:295-299 | returns the `jlSafe` flag, the one `SetJlSafety` stores and the call dispatch uses to choose its mode |
| StatelessJulia.StatelessJuliaModule.SetJlSafety | src/Module/Stateless/Stateless_Julia.cpp:289-299 | after `set_jl_safety(x)`, `is_jl_safe()` returns `x`; nothing else changes |
| StatelessJulia.StatelessJuliaModule.SetNFramesPerWave | include/Module/Stateless/Stateless_Julia.hpp:73 | the wave size becomes `n`; nothing else changes |
| StatelessJulia.StatelessJuliaModule.CreateTask | src/Module/Stateless/Stateless_Julia.cpp:330-346 | on a clone, refused with nothing changed; otherwise one empty entry is appended to the shared constant-recipe list and to each per-task list, and the new task to the task list, so the lists stay parallel |
| StatelessJulia.StatelessJuliaModule.CreateTsk | src/Module/Stateless/Stateless_Julia.cpp:348-352 | the same contract as `create_task` |
| StatelessJulia.StatelessJuliaModule.CreateCodeletFrom | src/Module/Stateless/Stateless_Julia.cpp:355-368 | on a clone, refused before any recipe is pushed; otherwise the code is appended to the evaluate recipes, the evaluate recipe at the task's index runs, and a codelet recipe capturing that index is appended and run |
| StatelessJulia.StatelessJuliaModule.CreateCodelet | src/Module/Stateless/Stateless_Julia.cpp:354-368 | the contract above for Julia source code |
| StatelessJulia.StatelessJuliaModule.CreateCdl | src/Module/Stateless/Stateless_Julia.cpp:370-374 | the same contract as `create_codelet` |
| StatelessJulia.StatelessJuliaModule.CreateCodeletFile | src/Module/Stateless/Stateless_Julia.cpp:376-390 | the contract above for a Julia file path |
| StatelessJulia.StatelessJuliaModule.CreateCdlFile | src/Module/Stateless/Stateless_Julia.cpp:392-396 | the same contract as `create_codelet_file` |
| StatelessJulia.StatelessJuliaModule.AddCodeletRecipe | src/Module/Stateless/Stateless_Julia.cpp:398-402 | the codelet recipe capturing the task's index is appended, and the recipe at that index runs at once; an absent task is refused with nothing changed |
| StatelessJulia.StatelessJuliaModule.RunCodeletRecipe | src/Module/Stateless/Stateless_Julia.cpp:428-462 | running a codelet recipe refuses a non-empty argument vector, reporting the task and the vector's size, with nothing changed; otherwise it lays out the vector and appends the two boxes and their pins |
| StatelessJulia.LayOutRow | src/Module/Stateless/Stateless_Julia.cpp:440-461 | the slot writes of the codelet recipe produce exactly the argument-vector layout |
| StatelessJulia.LayoutSlots | src/Module/Stateless/Stateless_Julia.cpp:440-461 | the layout has `1 + sockets + constants + 1` slots: slot 0 holds the function; the slots for sockets 1 to n-1 are left empty; constant `i` is at slot `sockets + i`; the frame-id box is second to last and the wave-size box last; with no socket the first constant or the frame-id box overwrites the function |
| StatelessJulia.StatelessJuliaModule.Eval | src/Module/Stateless/Stateless_Julia.cpp:301-328 | an evaluated module is refused, and so is one with no code, with nothing changed; otherwise the recipes run task by task (constants, code, codelet recipe), stopping at the first that throws; the module becomes evaluated exactly when none throws |
| StatelessJulia.StatelessJuliaModule.RunAllRecipes | src/Module/Stateless/Stateless_Julia.cpp:318-325 | the loop of `eval` leaves the lists and the run order given by the recipe replay, and fails exactly when that replay does |
| StatelessJulia.StatelessJuliaModule.RunTaskRecipes | src/Module/Stateless/Stateless_Julia.cpp:320-324 | one pass of the loop: the task's constant recipes, its evaluate recipe, then its codelet recipe |
| StatelessJulia.StatelessJuliaModule.RunConstantRecipes | src/Module/Stateless/Stateless_Julia.cpp:320-321 | a task's constant recipes run in order, each appending its value and its pin to that task's lists |
| StatelessJulia.EvalFromStep | src/Module/Stateless/Stateless_Julia.cpp:318-325 | one iteration of the loop keeps the lists parallel, and the replay from task `k` is that task's runs followed by the replay from `k + 1` |
| StatelessJulia.EvalFromAdvance | src/Module/Stateless/Stateless_Julia.cpp:318-325 | one pass of the loop after some runs were performed: task `k`'s runs join them and the replay goes on from task `k + 1` on the lists its codelet recipe leaves, or stops with that recipe's error |
| StatelessJulia.EvalCompletes | src/Module/Stateless/Stateless_Julia.cpp:318-327 | when each codelet recipe lays out its own task and finds that task's vector empty, `eval` completes, and its runs follow task order: constants, code, codelet, task after task |
| StatelessJulia.EvalKeepsEarlierTasks | src/Module/Stateless/Stateless_Julia.cpp:318-325 | under those conditions, the tasks before `k` are left untouched |
| StatelessJulia.EvalLaysOutEveryTask | src/Module/Stateless/Stateless_Julia.cpp:318-325 | under those conditions, each task receives its constants, the two boxes and their pins, and its laid-out argument vector |
| StatelessJulia.EvalStopsAtLaidOutTask | src/Module/Stateless/Stateless_Julia.cpp:318-325 | eval on a module whose vectors are already laid out stops at the first non-empty vector with that task's index and size, so the module that declared the codelets cannot itself be evaluated until it is reset |
| StatelessJulia.ConstantsRunStep | src/Module/Stateless/Stateless_Julia.cpp:320-321 | running no constant recipe changes nothing, and running them one more at a time appends that value and its pin |
| StatelessJulia.StatelessJuliaModule.ExecCodelet | src/Module/Stateless/Stateless_Julia.cpp:404-426 | before eval, refused with nothing changed; otherwise each socket but the last is wrapped into slot `s + 1` in order, and the first unsupported type stops the loop with its error; else the frame id and the wave size are written into the last two slots and the dispatch is called on the vector with the module's safety flag |
| StatelessJulia.BindRow | src/Module/Stateless/Stateless_Julia.cpp:415-419 | the socket loop as a loop gives the binding the recursive definition describes |
| StatelessJulia.BindSockets | src/Module/Stateless/Stateless_Julia.cpp:415-419 | the socket loop from socket `s`: vector length and the slots it does not bind are kept; it succeeds exactly when every remaining socket type is supported, and then slot `i + 1` holds socket `i`'s array |
| StatelessJulia.FirstUnsupported | src/Module/Stateless/Stateless_Julia.cpp:415-419 | the first socket of an unsupported type from `s` on, every earlier one supported |
| StatelessJulia.BindSocketsStopsAtFirstUnsupported | src/Module/Stateless/Stateless_Julia.cpp:415-419 | the loop fails exactly when some socket type is unsupported, and with the error of the first such socket |
| StatelessJulia.ExecOnLayout | src/Module/Stateless/Stateless_Julia.cpp:404-461 | a codelet run on the vector its recipe laid out calls the task's function with these arguments, in order: every socket but the last as an array, the constants, then the frame id and the wave size, each kept to 32 bits; the call is made exactly when the vector has at most ten slots |

## Left out

- `Initializer::initialize` (Initializer.cpp:135-141) only binds a socket and runs the task through the base runtime, so it is not modelled. `Codelet` stands for the registered codelet.
- The busy-wait after the copy (Initializer.cpp:147-157) is timing only. `ns` is stored and read, but has no other effect.
- The base `Module`/`Stateful` machinery is not part of this model:
  - task and socket creation, `Module::deep_copy`, `set_n_frames`, `exec` and socket binding;
  - the set-up of the names, task, socket and codelet in the `Initializer` constructor.

  The frame count of `Initializer` is a field. `CreateTask` takes the task's final socket list. `ExecCodelet` stands for the codelet that `_create_codelet` registers through `Module::create_codelet`.
- StatelessJulia.StatelessJuliaModule.SetNFramesPerWave: requires `n > 0`. A wave size of zero is the base module's case (`set_n_frames_per_wave`, reached through the using-declaration at `Stateless_Julia.hpp:73`), which is not part of this model.
- Initializer.Initializer.SetNFrames: requires `n > 0`. A frame count of zero is refused by the base module's `set_n_frames`, which is not part of this model.
- `Stateless_Julia::create_constant` is not part of this model: it is defined in `Stateless_Julia.hxx`. The constant recipes are values in the shared list, and running one appends its boxed value and its pin to the task's lists. No operation of the model adds a constant recipe.
- Every Julia runtime call is modelled as opaque:
  - `safe_eval`/`safe_eval_file` only record a run in the ghost trace;
  - `get_function` yields the function named by the task;
  - `box` yields the boxed value;
  - `gc_preserve` yields the pin of the value it is given;
  - the destructor's `gc_release` loop is left out.
- StatelessJulia.StatelessJuliaModule.ExecCodelet: returns the call made into Julia rather than the `int32` status that Julia's return value unboxes to, because the Julia function is not part of the model.
- StatelessJulia.StatelessJuliaModule.ExecCodelet: the source writes the frame id and the wave size through `int32_t` pointers into the two boxes. Those boxes are also held in the task's constant list. The model stores new 32-bit boxes in the last two slots and leaves the constant list unchanged, so that aliasing is not captured.
- StatelessJulia.StatelessJuliaModule.ExecCodelet: requires at least one socket, where the source's `size() - 1` would wrap around. It also requires a laid-out argument vector once evaluated, where the source would index an empty vector. Both are undefined behaviour in the source.
- StatelessJulia.StatelessJuliaModule.Eval: requires that the recipe lists hold an entry for every task, and that each codelet recipe lays out an existing task, whenever the two checked errors do not apply. The source indexes the lists without checking.
- StatelessJulia.StatelessJuliaModule.CreateCodeletFrom: requires that the task's index is within reach of the appended recipes (`CodeletSlotsReachable`). The source pushes one recipe and indexes by the task's index, which is only coherent when codelets are created once per task, in task order. The same requires holds for `CreateCodelet`, `CreateCdl`, `CreateCodeletFile`, `CreateCdlFile` and `AddCodeletRecipe`.
- JuliaDispatch.GetTaskId: searches the tasks of the module the operation runs on, where `get_task_id` searches those of the task's own module (`task.get_module()`, Stateless_Julia.cpp:227). For a task created by another module, `CreateCodeletFrom`, `CreateCodelet`, `CreateCdl`, `CreateCodeletFile`, `CreateCdlFile` and `AddCodeletRecipe` refuse it with `TaskNotInModule`, whereas the source goes on with that task's index in its own module. The model has no owner link from a task to its module.
- StatelessJulia.StatelessJuliaModule.Clone: the clone holds the same task objects as its origin, because the base module's deep copy of tasks and sockets is not modelled.
- The Scheduler interface, and the runtime's concurrency and pipelining, are outside these modules.
