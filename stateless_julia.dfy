/**
 * The stateless module whose codelets run in an embedded Julia runtime.
 *
 * Each task owns three parallel lists (boxed constants, their GC pin ids,
 * and the argument vector of its Julia call), indexed by task id.  Three
 * recipe lists, shared with every clone, record how to rebuild that state:
 * the constants to box per task, the Julia code to load, and the task whose
 * argument vector a codelet recipe lays out.  `Eval` replays the recipes;
 * a codelet runs only after it.
 *
 * Calls into Julia are opaque: loading code and looking a function up have
 * no modelled effect beyond the ghost `trace` of recipe runs; boxing a value
 * yields the `JlValue` it holds; `gc_preserve` yields the `Pin` of the value
 * it was given.
 */
module StatelessJulia {
  import opened Wrappers
  import opened JuliaDispatch

  /** The Julia code an evaluate recipe loads: a string, or the path of a file. */
  datatype Code = Source(text: string) | SourceFile(path: string)

  /** One run of a recipe, as eval and codelet creation perform them. */
  datatype RecipeRun =
    | ConstantRun(tid: nat, index: nat)
    | EvaluateRun(position: nat, code: Code)
    | CodeletRun(position: nat, tid: nat)

  /** The three per-task lists of one module instance. */
  datatype TaskLists = TaskLists(
    constantsPtr: seq<seq<JlValue>>,
    constantsId: seq<seq<GcId>>,
    funcArgs: seq<seq<Slot>>)

  /** The contents of the shared recipe lists. */
  datatype RecipeLists = RecipeLists(
    createConstants: seq<seq<JlValue>>,
    evaluate: seq<Code>,
    createCodelet: seq<nat>)

  /** One entry per task in each list, and a pin id for every boxed constant. */
  predicate Parallel(l: TaskLists, n: nat) {
    && |l.constantsPtr| == n && |l.constantsId| == n && |l.funcArgs| == n
    && forall tid :: 0 <= tid < n ==> |l.constantsPtr[tid]| == |l.constantsId[tid]|
  }

  /**
   * Every task below `n` has an entry in each recipe list, and each codelet
   * recipe among them lays out a task below `n`: what eval indexes.
   */
  predicate Covers(r: RecipeLists, n: nat) {
    && n <= |r.createConstants| && n <= |r.evaluate| && n <= |r.createCodelet|
    && forall j :: 0 <= j < n ==> r.createCodelet[j] < n
  }

  /** The box the codelet recipe creates for the frame id (`box<uint32_t>(0)`). */
  const FrameIdBox: JlValue := UInt32Box(0)

  /** The box holding the wave size. */
  function WaveBox(wave: nat): JlValue {
    UInt32Box(Wrap32(wave))
  }

  /**
   * The argument vector a codelet recipe lays out for a task named `name`
   * with `nSockets` sockets and the boxed `constants`: `1 + nSockets +
   * |constants| + 1` slots, the Julia function first, the constants in the
   * slots that end just before the last two, then the frame-id box and the
   * wave-size box.  Later writes win where the regions meet.
   */
  function Layout(name: string, nSockets: nat, constants: seq<JlValue>, wave: nat): seq<Slot> {
    var size := 1 + nSockets + |constants| + 1;
    seq(size, k requires 0 <= k < size =>
      if k == size - 1 then Value(WaveBox(wave))
      else if k == size - 2 then Value(FrameIdBox)
      else if size - (|constants| + 2) <= k then Value(constants[k - (size - (|constants| + 2))])
      else if k == 0 then Function(name)
      else Null)
  }

  /** The pin ids of boxed values, one per value. */
  function Pins(values: seq<JlValue>): seq<GcId> {
    seq(|values|, i requires 0 <= i < |values| => Pin(values[i]))
  }

  /**
   * The slots of a laid-out argument vector: the function, one slot per
   * socket but the last left empty, the constants, the frame-id box and the
   * wave-size box.  Without sockets the first constant, or the frame-id box
   * when there is none, takes the function's slot.
   */
  lemma LayoutSlots(name: string, nSockets: nat, constants: seq<JlValue>, wave: nat)
    ensures var r := Layout(name, nSockets, constants, wave);
      && |r| == nSockets + |constants| + 2
      && r[|r| - 1] == Value(WaveBox(wave)) && r[|r| - 2] == Value(FrameIdBox)
      && (forall i :: 0 <= i < |constants| ==> r[nSockets + i] == Value(constants[i]))
      && (nSockets >= 1 ==> r[0] == Function(name))
      && (forall k :: 1 <= k < nSockets ==> r[k] == Null)
      && (nSockets == 0 && |constants| > 0 ==> r[0] == Value(constants[0]))
      && (nSockets == 0 && |constants| == 0 ==> r[0] == Value(FrameIdBox))
  {
  }

  /** The per-task lists after the constant recipes `values` of task `tid` have run. */
  function ConstantsRun(l: TaskLists, tid: nat, values: seq<JlValue>): TaskLists
    requires tid < |l.constantsPtr| && tid < |l.constantsId|
  {
    l.(constantsPtr := l.constantsPtr[tid := l.constantsPtr[tid] + values],
       constantsId := l.constantsId[tid := l.constantsId[tid] + Pins(values)])
  }

  /**
   * The codelet recipe of task `tid`: refuses a non-empty argument vector,
   * otherwise lays it out and appends the frame-id and wave-size boxes to the
   * task's constants.  Both new pin ids name the frame-id box, as written.
   */
  function CodeletRecipe(l: TaskLists, tid: nat, task: Task, wave: nat): Result<TaskLists, JuliaError>
    requires tid < |l.constantsPtr| && tid < |l.constantsId| && tid < |l.funcArgs|
  {
    if |l.funcArgs[tid]| > 0 then Err(FuncArgsNotEmpty(tid, |l.funcArgs[tid]|))
    else Ok(TaskLists(
      l.constantsPtr[tid := l.constantsPtr[tid] + [FrameIdBox, WaveBox(wave)]],
      l.constantsId[tid := l.constantsId[tid] + [Pin(FrameIdBox), Pin(FrameIdBox)]],
      l.funcArgs[tid := Layout(task.name, |task.sockets|, l.constantsPtr[tid], wave)]))
  }

  /** What eval leaves: the lists, the recipe runs in order, and the error that stopped it, if any. */
  datatype EvalRun = EvalRun(lists: TaskLists, runs: seq<RecipeRun>, error: Option<JuliaError>)

  /** The runs of one task's recipes, in the order eval performs them. */
  function TaskRuns(k: nat, r: RecipeLists): seq<RecipeRun>
    requires k < |r.createConstants| && k < |r.evaluate| && k < |r.createCodelet|
  {
    seq(|r.createConstants[k]|, j requires 0 <= j => ConstantRun(k, j))
      + [EvaluateRun(k, r.evaluate[k]), CodeletRun(k, r.createCodelet[k])]
  }

  /** The body of eval's loop from task `k` on: constants, code, codelet recipe, task after task. */
  function EvalFrom(l: TaskLists, k: nat, tasks: seq<Task>, r: RecipeLists, wave: nat): EvalRun
    requires Parallel(l, |tasks|) && Covers(r, |tasks|) && k <= |tasks|
    decreases |tasks| - k
  {
    if k == |tasks| then EvalRun(l, [], None)
    else
      var l1 := ConstantsRun(l, k, r.createConstants[k]);
      var tid := r.createCodelet[k];
      match CodeletRecipe(l1, tid, tasks[tid], wave)
      case Err(e) => EvalRun(l1, TaskRuns(k, r), Some(e))
      case Ok(l2) =>
        var rest := EvalFrom(l2, k + 1, tasks, r, wave);
        EvalRun(rest.lists, TaskRuns(k, r) + rest.runs, rest.error)
  }

  /** The runs eval performs for tasks `k` to `n - 1` when no recipe fails. */
  function EvalTrace(k: nat, n: nat, r: RecipeLists): seq<RecipeRun>
    requires k <= n && Covers(r, n)
    decreases n - k
  {
    if k == n then [] else TaskRuns(k, r) + EvalTrace(k + 1, n, r)
  }

  /** Result of binding the sockets of a codelet call to its argument vector. */
  datatype Bound = Bound(args: seq<Slot>, error: Option<JuliaError>)

  /**
   * The socket loop of a codelet from socket `s` on: socket `s` is wrapped
   * in a Julia array stored at slot `s + 1`; an unsupported type stops it.
   */
  function BindSockets(args: seq<Slot>, sockets: seq<Socket>, s: nat): (r: Bound)
    requires s <= |sockets| < |args|
    ensures |r.args| == |args|
    ensures forall k :: 0 <= k < |args| && !(s + 1 <= k <= |sockets|) ==> r.args[k] == args[k]
    ensures r.error.None? <==> forall i :: s <= i < |sockets| ==> NewArrayFromData(sockets[i]).Ok?
    ensures r.error.None? ==> forall i :: s <= i < |sockets| ==> r.args[i + 1] == Array(NewArrayFromData(sockets[i]).value)
    decreases |sockets| - s
  {
    if s == |sockets| then Bound(args, None)
    else match NewArrayFromData(sockets[s])
      case Err(e) => Bound(args, Some(e))
      case Ok(a) => BindSockets(args[s + 1 := Array(a)], sockets, s + 1)
  }

  /**
   * The writes of the codelet recipe into a task's argument vector: sized
   * for the function, the sockets, the constants and the two boxes, the
   * function first, each constant in turn, then the frame-id and wave-size
   * boxes.
   */
  method LayOutRow(task: Task, constants: seq<JlValue>, wave: nat) returns (row: seq<Slot>)
    ensures row == Layout(task.name, |task.sockets|, constants, wave)
  {
    var nConstants := |constants|;
    var size := 1 + |task.sockets| + nConstants + 1;
    row := seq(size, _ => Null);
    row := row[0 := Function(task.name)];
    var i := 0;
    while i < nConstants
      invariant 0 <= i <= nConstants && |row| == size
      invariant forall k :: 0 <= k < size ==>
        row[k] ==
          if size - (nConstants + 2) <= k < size - (nConstants + 2) + i then Value(constants[k - (size - (nConstants + 2))])
          else if k == 0 then Function(task.name)
          else Null
    {
      row := row[size - (nConstants + 2) + i := Value(constants[i])];
      i := i + 1;
    }
    row := row[size - 2 := Value(FrameIdBox)][size - 1 := Value(WaveBox(wave))];
  }

  /** The index of the first socket from `s` on whose type cannot be handed to Julia, or `|sockets|`. */
  function FirstUnsupported(sockets: seq<Socket>, s: nat): (r: nat)
    requires s <= |sockets|
    ensures s <= r <= |sockets|
    ensures forall j :: s <= j < r ==> NewArrayFromData(sockets[j]).Ok?
    ensures r < |sockets| ==> NewArrayFromData(sockets[r]).Err?
    decreases |sockets| - s
  {
    if s == |sockets| || NewArrayFromData(sockets[s]).Err? then s
    else FirstUnsupported(sockets, s + 1)
  }

  /** The socket loop stops at the first socket of an unsupported type, with that type's error. */
  lemma {:induction false} BindSocketsStopsAtFirstUnsupported(args: seq<Slot>, sockets: seq<Socket>, s: nat)
    requires s <= |sockets| < |args|
    ensures BindSockets(args, sockets, s).error.Some? <==> FirstUnsupported(sockets, s) < |sockets|
    ensures FirstUnsupported(sockets, s) < |sockets| ==>
      BindSockets(args, sockets, s).error == Some(UnsupportedDatatype(sockets[FirstUnsupported(sockets, s)].dataType))
    decreases |sockets| - s
  {
    if s == |sockets| {
      assert FirstUnsupported(sockets, s) == s;
    } else if NewArrayFromData(sockets[s]).Err? {
      assert FirstUnsupported(sockets, s) == s;
      assert BindSockets(args, sockets, s).error == Some(UnsupportedDatatype(sockets[s].dataType));
    } else {
      var next := args[s + 1 := Array(NewArrayFromData(sockets[s]).value)];
      assert BindSockets(args, sockets, s) == BindSockets(next, sockets, s + 1);
      assert FirstUnsupported(sockets, s) == FirstUnsupported(sockets, s + 1);
      BindSocketsStopsAtFirstUnsupported(next, sockets, s + 1);
    }
  }

  /** The argument vector with the frame id and the wave size written into its last two boxes. */
  function Stamped(args: seq<Slot>, frameId: nat, wave: nat): seq<Slot>
    requires |args| >= 2
  {
    args[|args| - 2 := Value(UInt32Box(Wrap32(frameId)))][|args| - 1 := Value(UInt32Box(Wrap32(wave)))]
  }

  /** Every per-task list emptied, their number kept. */
  function Cleared(l: TaskLists): TaskLists {
    TaskLists(
      seq(|l.constantsPtr|, _ => []),
      seq(|l.constantsId|, _ => []),
      seq(|l.funcArgs|, _ => []))
  }

  /** Clearing twice is clearing once, and keeps the per-task lists parallel to the tasks. */
  lemma ClearedIdempotent(l: TaskLists, n: nat)
    requires Parallel(l, n)
    ensures Cleared(Cleared(l)) == Cleared(l)
    ensures Parallel(Cleared(l), n)
    ensures forall tid :: 0 <= tid < n ==> Cleared(l).funcArgs[tid] == [] && Cleared(l).constantsPtr[tid] == []
  {
  }

  /** The recipe lists held through `shared_ptr`: one object that a clone shares with its origin. */
  class Recipes {
    var createConstants: seq<seq<JlValue>>
    var evaluate: seq<Code>
    var createCodelet: seq<nat>

    constructor ()
      ensures createConstants == [] && evaluate == [] && createCodelet == []
    {
      createConstants, evaluate, createCodelet := [], [], [];
    }

    function View(): RecipeLists
      reads this
    {
      RecipeLists(createConstants, evaluate, createCodelet)
    }
  }

  class StatelessJuliaModule {
    /** The base module's tasks, in creation order. */
    var tasks: seq<Task>
    /** The base module's number of frames per wave. */
    var nFramesPerWave: nat
    var constantsPtr: seq<seq<JlValue>>
    var constantsId: seq<seq<GcId>>
    var funcArgs: seq<seq<Slot>>
    var evaluated: bool
    var jlSafe: bool
    var cloned: bool
    const recipes: Recipes
    /** The recipe runs this instance performed, oldest first. */
    ghost var trace: seq<RecipeRun>

    function Lists(): TaskLists
      reads this
    {
      TaskLists(constantsPtr, constantsId, funcArgs)
    }

    /** The per-task lists are parallel to the task list; a laid-out argument vector has room for its task's sockets. */
    ghost predicate Valid()
      reads this
    {
      && Parallel(Lists(), |tasks|)
      && forall tid :: 0 <= tid < |tasks| ==> funcArgs[tid] == [] || |funcArgs[tid]| >= |tasks[tid].sockets| + 2
    }

    /** The fields no operation on the per-task state touches. */
    twostate predicate SettingsUnchanged()
      reads this
    {
      && tasks == old(tasks) && nFramesPerWave == old(nFramesPerWave)
      && jlSafe == old(jlSafe) && cloned == old(cloned)
    }

    constructor (jlSafe: bool := true)
      ensures Valid() && fresh(recipes)
      ensures this.jlSafe == jlSafe && !evaluated && !cloned
      ensures tasks == [] && nFramesPerWave == 1 && Lists() == TaskLists([], [], [])
      ensures recipes.View() == RecipeLists([], [], []) && trace == []
    {
      tasks := [];
      nFramesPerWave := 1;
      constantsPtr, constantsId, funcArgs := [], [], [];
      evaluated := false;
      this.jlSafe := jlSafe;
      cloned := false;
      recipes := new Recipes();
      trace := [];
    }

    /** The implicit copy constructor: every member copied, the recipe lists shared. */
    constructor Copy(m: StatelessJuliaModule)
      requires m.Valid()
      ensures Valid()
      ensures recipes == m.recipes && tasks == m.tasks && nFramesPerWave == m.nFramesPerWave
      ensures Lists() == m.Lists() && evaluated == m.evaluated && jlSafe == m.jlSafe && cloned == m.cloned
      ensures trace == []
    {
      tasks := m.tasks;
      nFramesPerWave := m.nFramesPerWave;
      constantsPtr, constantsId, funcArgs := m.constantsPtr, m.constantsId, m.funcArgs;
      evaluated := m.evaluated;
      jlSafe := m.jlSafe;
      cloned := m.cloned;
      recipes := m.recipes;
      trace := [];
    }

    /** A clone: a copy marked as a clone and reset, sharing the recipe lists of this module. */
    method Clone() returns (c: StatelessJuliaModule)
      requires Valid()
      ensures fresh(c) && c.Valid()
      ensures c.recipes == recipes && c.tasks == tasks && c.nFramesPerWave == nFramesPerWave
      ensures c.cloned && !c.evaluated && c.jlSafe == jlSafe
      ensures c.Lists() == Cleared(Lists())
    {
      c := new StatelessJuliaModule.Copy(this);
      c.DeepCopy(this);
    }

    /** `deep_copy`: after the base module's copy (not modelled), mark as a clone and reset. */
    method DeepCopy(m: StatelessJuliaModule)
      requires Valid()
      modifies this
      ensures Valid() && cloned && !evaluated
      ensures tasks == old(tasks) && nFramesPerWave == old(nFramesPerWave) && jlSafe == old(jlSafe)
      ensures Lists() == Cleared(old(Lists())) && trace == old(trace)
    {
      cloned := true;
      Reset();
    }

    /** `reset`: every per-task list is emptied (their number kept) and the module is no longer evaluated. */
    method Reset()
      requires Valid()
      modifies this
      ensures Valid() && SettingsUnchanged() && !evaluated
      ensures Lists() == Cleared(old(Lists())) && trace == old(trace)
    {
      var tid := 0;
      while tid < |constantsPtr|
        invariant 0 <= tid <= |constantsPtr| == |old(constantsPtr)|
        invariant forall j :: 0 <= j < tid ==> constantsPtr[j] == []
        invariant constantsId == old(constantsId) && funcArgs == old(funcArgs)
        invariant SettingsUnchanged() && trace == old(trace)
      {
        constantsPtr := constantsPtr[tid := []];
        tid := tid + 1;
      }
      tid := 0;
      while tid < |constantsId|
        invariant 0 <= tid <= |constantsId| == |old(constantsId)|
        invariant forall j :: 0 <= j < tid ==> constantsId[j] == []
        invariant constantsPtr == seq(|old(constantsPtr)|, _ => []) && funcArgs == old(funcArgs)
        invariant SettingsUnchanged() && trace == old(trace)
      {
        constantsId := constantsId[tid := []];
        tid := tid + 1;
      }
      tid := 0;
      while tid < |funcArgs|
        invariant 0 <= tid <= |funcArgs| == |old(funcArgs)|
        invariant forall j :: 0 <= j < tid ==> funcArgs[j] == []
        invariant constantsPtr == seq(|old(constantsPtr)|, _ => [])
        invariant constantsId == seq(|old(constantsId)|, _ => [])
        invariant SettingsUnchanged() && trace == old(trace)
      {
        funcArgs := funcArgs[tid := []];
        tid := tid + 1;
      }
      evaluated := false;
    }

    /** `is_eval`: whether eval has completed since the last reset. */
    function IsEval(): (r: bool)
      reads this
      ensures r <==> evaluated
    {
      evaluated
    }

    /** `is_jl_safe`: whether codelets call into Julia through the checked entry points. */
    function IsJlSafe(): (r: bool)
      reads this
      ensures r == jlSafe
    {
      jlSafe
    }

    method SetJlSafety(jlSafe: bool)
      modifies this
      ensures IsJlSafe() == jlSafe
      ensures tasks == old(tasks) && Lists() == old(Lists()) && evaluated == old(evaluated) && cloned == old(cloned)
      ensures nFramesPerWave == old(nFramesPerWave) && trace == old(trace)
    {
      this.jlSafe := jlSafe;
    }

    /** The base module's `set_n_frames_per_wave`, reached through a using-declaration. */
    method SetNFramesPerWave(n: nat)
      requires n > 0
      modifies this
      ensures nFramesPerWave == n
      ensures tasks == old(tasks) && Lists() == old(Lists()) && evaluated == old(evaluated)
      ensures cloned == old(cloned) && jlSafe == old(jlSafe) && trace == old(trace)
    {
      nFramesPerWave := n;
    }

    /**
     * What `create_task` does: refused on a clone with nothing changed;
     * otherwise one empty entry is appended to the shared constant-recipe
     * list and to each per-task list, and the new task to the task list.
     */
    twostate predicate TaskCreated(name: string, sockets: seq<Socket>, new r: Result<Task, JuliaError>)
      reads this, recipes
    {
      && nFramesPerWave == old(nFramesPerWave) && jlSafe == old(jlSafe) && cloned == old(cloned)
      && evaluated == old(evaluated) && trace == old(trace)
      && recipes.evaluate == old(recipes.evaluate) && recipes.createCodelet == old(recipes.createCodelet)
      && (old(cloned) ==>
            && r == Err(TaskOnClone) && tasks == old(tasks) && Lists() == old(Lists())
            && recipes.createConstants == old(recipes.createConstants))
      && (!old(cloned) ==>
            && r.Ok? && fresh(r.value) && r.value.name == name && r.value.sockets == sockets
            && tasks == old(tasks) + [r.value]
            && recipes.createConstants == old(recipes.createConstants) + [[]]
            && constantsPtr == old(constantsPtr) + [[]]
            && constantsId == old(constantsId) + [[]]
            && funcArgs == old(funcArgs) + [[]])
    }

    /**
     * `create_task(name)`.  The sockets are declared through the base module,
     * which is not modelled: the model takes the task's final socket list.
     */
    method CreateTask(name: string, sockets: seq<Socket>) returns (r: Result<Task, JuliaError>)
      requires Valid()
      modifies this, recipes
      ensures Valid() && TaskCreated(name, sockets, r)
    {
      if cloned {
        return Err(TaskOnClone);
      }
      recipes.createConstants := recipes.createConstants + [[]];
      constantsPtr := constantsPtr + [[]];
      constantsId := constantsId + [[]];
      funcArgs := funcArgs + [[]];
      var task := new Task(name, sockets);
      tasks := tasks + [task];
      r := Ok(task);
    }

    /** `create_tsk`: the same as `create_task`. */
    method CreateTsk(name: string, sockets: seq<Socket>) returns (r: Result<Task, JuliaError>)
      requires Valid()
      modifies this, recipes
      ensures Valid() && TaskCreated(name, sockets, r)
    {
      r := CreateTask(name, sockets);
    }

    /**
     * The codelet recipe at `position` of the shared list, run on this
     * module: it lays out the argument vector of the task it captured.
     */
    method RunCodeletRecipe(position: nat) returns (r: Outcome<JuliaError>)
      requires Valid()
      requires position < |recipes.createCodelet| && recipes.createCodelet[position] < |tasks|
      modifies this
      ensures Valid() && SettingsUnchanged() && evaluated == old(evaluated)
      ensures trace == old(trace) + [CodeletRun(position, recipes.createCodelet[position])]
      ensures
        var tid := recipes.createCodelet[position];
        match CodeletRecipe(old(Lists()), tid, tasks[tid], nFramesPerWave)
        case Err(e) => r == Fail(e) && Lists() == old(Lists())
        case Ok(l) => r == Pass && Lists() == l
    {
      var tid := recipes.createCodelet[position];
      trace := trace + [CodeletRun(position, tid)];
      var task := tasks[tid];
      if |funcArgs[tid]| > 0 {
        return Fail(FuncArgsNotEmpty(tid, |funcArgs[tid]|));
      }
      var row := LayOutRow(task, constantsPtr[tid], nFramesPerWave);
      constantsPtr := constantsPtr[tid := constantsPtr[tid] + [FrameIdBox, WaveBox(nFramesPerWave)]];
      constantsId := constantsId[tid := constantsId[tid] + [Pin(FrameIdBox), Pin(FrameIdBox)]];
      funcArgs := funcArgs[tid := row];
      r := Pass;
    }

    /**
     * What the recipe lists need for a codelet on `task` to be created: its
     * evaluate and codelet recipes sit at the task's index, so that index is
     * at most their current length, and a codelet recipe already there lays
     * out an existing task.
     */
    predicate CodeletSlotsReachable(task: Task)
      reads this, recipes
    {
      GetTaskId(tasks, task).Ok? ==>
        var tid := GetTaskId(tasks, task).value;
        && tid <= |recipes.evaluate| && tid <= |recipes.createCodelet|
        && (tid < |recipes.createCodelet| ==> recipes.createCodelet[tid] < |tasks|)
    }

    /**
     * What `_create_codelet` does once the evaluate recipe is in place: a
     * codelet recipe capturing the task's index is appended, and the recipe
     * at that index is run at once.
     */
    twostate predicate CodeletRecipeAdded(task: Task, new r: Outcome<JuliaError>)
      requires old(Valid())
      reads this, recipes
    {
      && SettingsUnchanged() && evaluated == old(evaluated)
      && recipes.createConstants == old(recipes.createConstants) && recipes.evaluate == old(recipes.evaluate)
      && match GetTaskId(tasks, task)
         case Err(e) =>
           r == Fail(e) && recipes.createCodelet == old(recipes.createCodelet)
           && Lists() == old(Lists()) && trace == old(trace)
         case Ok(tid) =>
           && recipes.createCodelet == old(recipes.createCodelet) + [tid]
           && tid < |recipes.createCodelet|
           && var captured := recipes.createCodelet[tid];
           && captured < |tasks|
           && trace == old(trace) + [CodeletRun(tid, captured)]
           && match CodeletRecipe(old(Lists()), captured, tasks[captured], nFramesPerWave)
              case Err(e) => r == Fail(e) && Lists() == old(Lists())
              case Ok(l) => r == Pass && Lists() == l
    }

    /** `_create_codelet`.  Registering the codelet on the task is the base module's part, modelled by `ExecCodelet`. */
    method AddCodeletRecipe(task: Task) returns (r: Outcome<JuliaError>)
      requires Valid() && CodeletSlotsReachable(task)
      modifies this, recipes
      ensures Valid() && CodeletRecipeAdded(task, r)
    {
      var found := GetTaskId(tasks, task);
      if found.Err? {
        return Fail(found.error);
      }
      var tid := found.value;
      recipes.createCodelet := recipes.createCodelet + [tid];
      r := RunCodeletRecipe(tid);
    }

    /**
     * What `create_codelet` and `create_codelet_file` do: refused on a clone
     * with nothing changed; otherwise the evaluate recipe for `code` is
     * appended, the evaluate recipe at the task's index is run, and the
     * codelet recipe is added and run.
     */
    twostate predicate CodeletCreated(task: Task, code: Code, new r: Outcome<JuliaError>)
      requires old(Valid())
      reads this, recipes
    {
      && SettingsUnchanged() && evaluated == old(evaluated)
      && recipes.createConstants == old(recipes.createConstants)
      && (old(cloned) ==>
            && r == Fail(CodeletOnClone) && recipes.evaluate == old(recipes.evaluate)
            && recipes.createCodelet == old(recipes.createCodelet)
            && Lists() == old(Lists()) && trace == old(trace))
      && (!old(cloned) ==>
            && recipes.evaluate == old(recipes.evaluate) + [code]
            && match GetTaskId(tasks, task)
               case Err(e) =>
                 r == Fail(e) && recipes.createCodelet == old(recipes.createCodelet)
                 && Lists() == old(Lists()) && trace == old(trace)
               case Ok(tid) =>
                 && recipes.createCodelet == old(recipes.createCodelet) + [tid]
                 && tid < |recipes.createCodelet| && tid < |recipes.evaluate|
                 && var captured := recipes.createCodelet[tid];
                 && captured < |tasks|
                 && trace == old(trace) + [EvaluateRun(tid, recipes.evaluate[tid]), CodeletRun(tid, captured)]
                 && match CodeletRecipe(old(Lists()), captured, tasks[captured], nFramesPerWave)
                    case Err(e) => r == Fail(e) && Lists() == old(Lists())
                    case Ok(l) => r == Pass && Lists() == l)
    }

    /** The body `create_codelet` and `create_codelet_file` share, for the code either loads. */
    method CreateCodeletFrom(task: Task, code: Code) returns (r: Outcome<JuliaError>)
      requires Valid() && (!cloned ==> CodeletSlotsReachable(task))
      modifies this, recipes
      ensures Valid() && CodeletCreated(task, code, r)
    {
      if cloned {
        return Fail(CodeletOnClone);
      }
      recipes.evaluate := recipes.evaluate + [code];
      var found := GetTaskId(tasks, task);
      if found.Err? {
        return Fail(found.error);
      }
      var tid := found.value;
      trace := trace + [EvaluateRun(tid, recipes.evaluate[tid])];
      r := AddCodeletRecipe(task);
    }

    /** `create_codelet(task, julia_code)`. */
    method CreateCodelet(task: Task, juliaCode: string) returns (r: Outcome<JuliaError>)
      requires Valid() && (!cloned ==> CodeletSlotsReachable(task))
      modifies this, recipes
      ensures Valid() && CodeletCreated(task, Source(juliaCode), r)
    {
      r := CreateCodeletFrom(task, Source(juliaCode));
    }

    /** `create_cdl`: the same as `create_codelet`. */
    method CreateCdl(task: Task, juliaCode: string) returns (r: Outcome<JuliaError>)
      requires Valid() && (!cloned ==> CodeletSlotsReachable(task))
      modifies this, recipes
      ensures Valid() && CodeletCreated(task, Source(juliaCode), r)
    {
      r := CreateCodelet(task, juliaCode);
    }

    /** `create_codelet_file(task, julia_filepath)`. */
    method CreateCodeletFile(task: Task, juliaFilepath: string) returns (r: Outcome<JuliaError>)
      requires Valid() && (!cloned ==> CodeletSlotsReachable(task))
      modifies this, recipes
      ensures Valid() && CodeletCreated(task, SourceFile(juliaFilepath), r)
    {
      r := CreateCodeletFrom(task, SourceFile(juliaFilepath));
    }

    /** `create_cdl_file`: the same as `create_codelet_file`. */
    method CreateCdlFile(task: Task, juliaFilepath: string) returns (r: Outcome<JuliaError>)
      requires Valid() && (!cloned ==> CodeletSlotsReachable(task))
      modifies this, recipes
      ensures Valid() && CodeletCreated(task, SourceFile(juliaFilepath), r)
    {
      r := CreateCodeletFile(task, juliaFilepath);
    }

    /**
     * `eval`: refused when already evaluated or when no code was recorded;
     * otherwise, task after task, the task's constant recipes, the evaluate
     * recipe and the codelet recipe at its index run, and the module is
     * evaluated unless a codelet recipe throws.
     */
    method Eval() returns (r: Outcome<JuliaError>)
      requires Valid()
      requires !evaluated && |recipes.evaluate| > 0 ==> Covers(recipes.View(), |tasks|)
      modifies this
      ensures Valid() && SettingsUnchanged()
      ensures old(evaluated) ==>
        r == Fail(AlreadyEvaluated) && evaluated && Lists() == old(Lists()) && trace == old(trace)
      ensures !old(evaluated) && |recipes.evaluate| == 0 ==>
        r == Fail(NothingToEvaluate) && !evaluated && Lists() == old(Lists()) && trace == old(trace)
      ensures !old(evaluated) && |recipes.evaluate| > 0 ==>
        var run := EvalFrom(old(Lists()), 0, tasks, recipes.View(), nFramesPerWave);
        && Lists() == run.lists && trace == old(trace) + run.runs
        && (run.error.None? ==> r == Pass && evaluated)
        && (run.error.Some? ==> r == Fail(run.error.value) && !evaluated)
    {
      if evaluated {
        return Fail(AlreadyEvaluated);
      }
      if |recipes.evaluate| == 0 {
        return Fail(NothingToEvaluate);
      }
      r := RunAllRecipes();
      if r.Pass? {
        evaluated := true;
      }
    }

    /** Eval's loop: the recipes of every task in index order, stopping at the first that throws. */
    method RunAllRecipes() returns (r: Outcome<JuliaError>)
      requires Valid() && Covers(recipes.View(), |tasks|)
      modifies this
      ensures Valid() && SettingsUnchanged() && evaluated == old(evaluated)
      ensures
        var run := EvalFrom(old(Lists()), 0, tasks, recipes.View(), nFramesPerWave);
        && Lists() == run.lists && trace == old(trace) + run.runs
        && (run.error.None? <==> r == Pass)
        && (run.error.Some? ==> r == Fail(run.error.value))
    {
      ghost var rl := recipes.View();
      var tid := 0;
      while tid < |tasks|
        invariant 0 <= tid <= |tasks| && Valid() && SettingsUnchanged() && evaluated == old(evaluated)
        invariant Prefixed(old(trace), EvalFrom(old(Lists()), 0, tasks, rl, nFramesPerWave))
          == Prefixed(trace, EvalFrom(Lists(), tid, tasks, rl, nFramesPerWave))
      {
        EvalFromAdvance(trace, Lists(), tid, tasks, rl, nFramesPerWave);
        var e := RunTaskRecipes(tid);
        if e.Fail? {
          return e;
        }
        tid := tid + 1;
      }
      assert trace + [] == trace;
      r := Pass;
    }

    /** Task `tid`'s argument vector replaced by one of the same size. */
    method StoreArgs(tid: nat, row: seq<Slot>)
      requires Valid() && tid < |tasks| && |row| == |funcArgs[tid]|
      modifies this
      ensures Valid() && SettingsUnchanged() && evaluated == old(evaluated) && trace == old(trace)
      ensures constantsPtr == old(constantsPtr) && constantsId == old(constantsId)
      ensures funcArgs == old(funcArgs)[tid := row]
    {
      funcArgs := funcArgs[tid := row];
    }

    /** The constant recipes of task `tid`, in order, as eval runs them. */
    method RunConstantRecipes(tid: nat)
      requires Valid() && tid < |tasks| && tid < |recipes.createConstants|
      modifies this
      ensures Valid() && SettingsUnchanged() && evaluated == old(evaluated)
      ensures Lists() == ConstantsRun(old(Lists()), tid, recipes.createConstants[tid])
      ensures trace == old(trace) + seq(|recipes.createConstants[tid]|, i requires 0 <= i => ConstantRun(tid, i))
    {
      ghost var before := Lists();
      var values := recipes.createConstants[tid];
      var j := 0;
      ConstantsRunStep(before, tid, [], values);
      while j < |values|
        invariant 0 <= j <= |values| && Valid() && SettingsUnchanged() && evaluated == old(evaluated)
        invariant Lists() == ConstantsRun(before, tid, values[..j])
        invariant trace == old(trace) + seq(j, i requires 0 <= i => ConstantRun(tid, i))
      {
        ConstantsRunStep(before, tid, values[..j], values[j..]);
        assert values[..j + 1] == values[..j] + [values[j]];
        constantsPtr := constantsPtr[tid := constantsPtr[tid] + [values[j]]];
        constantsId := constantsId[tid := constantsId[tid] + [Pin(values[j])]];
        trace := trace + [ConstantRun(tid, j)];
        j := j + 1;
      }
      assert values[..j] == values;
    }

    /** One pass of eval's loop: task `tid`'s constant recipes, its evaluate recipe, its codelet recipe. */
    method RunTaskRecipes(tid: nat) returns (r: Outcome<JuliaError>)
      requires Valid() && Covers(recipes.View(), |tasks|) && tid < |tasks|
      modifies this
      ensures Valid() && SettingsUnchanged() && evaluated == old(evaluated)
      ensures trace == old(trace) + TaskRuns(tid, recipes.View())
      ensures
        var l1 := ConstantsRun(old(Lists()), tid, recipes.createConstants[tid]);
        var captured := recipes.createCodelet[tid];
        match CodeletRecipe(l1, captured, tasks[captured], nFramesPerWave)
        case Err(e) => r == Fail(e) && Lists() == l1
        case Ok(l2) => r == Pass && Lists() == l2
    {
      RunConstantRecipes(tid);
      trace := trace + [EvaluateRun(tid, recipes.evaluate[tid])];
      r := RunCodeletRecipe(tid);
    }

    /**
     * The codelet `_create_codelet` registers for the task at index `tid`,
     * run on frame `frameId`: refused before eval; otherwise every socket
     * but the last is wrapped in a Julia array at slot `s + 1`, the frame id
     * and the wave size are written into the last two boxes, and the
     * function in slot 0 is called on the other slots.
     */
    method ExecCodelet(tid: nat, frameId: nat) returns (r: Result<Invocation, JuliaError>)
      requires Valid() && tid < |tasks| && |tasks[tid].sockets| >= 1
      requires evaluated ==> funcArgs[tid] != []
      modifies this
      ensures Valid() && SettingsUnchanged() && evaluated == old(evaluated) && trace == old(trace)
      ensures constantsPtr == old(constantsPtr) && constantsId == old(constantsId)
      ensures !old(evaluated) ==> r == Err(NotEvaluated) && funcArgs == old(funcArgs)
      ensures old(evaluated) ==>
        var sockets := tasks[tid].sockets;
        var b := BindSockets(old(funcArgs)[tid], sockets[..|sockets| - 1], 0);
        && (b.error.Some? ==> r == Err(b.error.value) && funcArgs == old(funcArgs)[tid := b.args])
        && (b.error.None? ==>
              && funcArgs == old(funcArgs)[tid := Stamped(b.args, frameId, nFramesPerWave)]
              && r == JlCallFunc(funcArgs[tid], jlSafe))
    {
      if !evaluated {
        return Err(NotEvaluated);
      }
      var sockets := tasks[tid].sockets;
      var row, error := BindRow(funcArgs[tid], sockets[..|sockets| - 1]);
      if error.Some? {
        StoreArgs(tid, row);
        return Err(error.value);
      }
      var size := |row|;
      row := row[size - 2 := Value(UInt32Box(Wrap32(frameId)))];
      row := row[size - 1 := Value(UInt32Box(Wrap32(nFramesPerWave)))];
      assert row == Stamped(BindSockets(old(funcArgs)[tid], sockets[..|sockets| - 1], 0).args, frameId, nFramesPerWave);
      StoreArgs(tid, row);
      r := JlCallFunc(row, jlSafe);
    }
  }

  /**
   * The socket loop of a codelet on its own: socket `s` wrapped at slot
   * `s + 1`, stopping at the first socket of an unsupported type.
   */
  method BindRow(args: seq<Slot>, sockets: seq<Socket>) returns (row: seq<Slot>, error: Option<JuliaError>)
    requires |sockets| < |args|
    ensures Bound(row, error) == BindSockets(args, sockets, 0)
  {
    row := args;
    var s := 0;
    while s < |sockets|
      invariant 0 <= s <= |sockets| && |row| == |args|
      invariant BindSockets(args, sockets, 0) == BindSockets(row, sockets, s)
    {
      var wrapped := NewArrayFromData(sockets[s]);
      if wrapped.Err? {
        return row, Some(wrapped.error);
      }
      row := row[s + 1 := Array(wrapped.value)];
      s := s + 1;
    }
    error := None;
  }

  /** Running constant recipes in two batches is running them in one. */
  lemma ConstantsRunStep(l: TaskLists, tid: nat, first: seq<JlValue>, more: seq<JlValue>)
    requires tid < |l.constantsPtr| && tid < |l.constantsId|
    ensures ConstantsRun(l, tid, []) == l
    ensures more != [] ==>
      ConstantsRun(l, tid, first + [more[0]])
        == ConstantsRun(l, tid, first).(
             constantsPtr := ConstantsRun(l, tid, first).constantsPtr[tid := ConstantsRun(l, tid, first).constantsPtr[tid] + [more[0]]],
             constantsId := ConstantsRun(l, tid, first).constantsId[tid := ConstantsRun(l, tid, first).constantsId[tid] + [Pin(more[0])]])
  {
    assert l.constantsPtr[tid] + [] == l.constantsPtr[tid];
    assert Pins([]) == [];
    assert l.constantsId[tid] + [] == l.constantsId[tid];
    assert l.constantsPtr[tid := l.constantsPtr[tid]] == l.constantsPtr;
    assert l.constantsId[tid := l.constantsId[tid]] == l.constantsId;
    if more != [] {
      var v := more[0];
      assert l.constantsPtr[tid] + (first + [v]) == l.constantsPtr[tid] + first + [v];
      var pins := Pins(first);
      assert Pins(first + [v]) == pins + [Pin(v)];
      assert l.constantsId[tid] + (pins + [Pin(v)]) == l.constantsId[tid] + pins + [Pin(v)];
    }
  }

  /** An eval run with `runs` performed before it. */
  function Prefixed(runs: seq<RecipeRun>, e: EvalRun): EvalRun {
    EvalRun(e.lists, runs + e.runs, e.error)
  }

  /** One step of eval's loop, as `EvalFrom` unfolds it. */
  lemma EvalFromStep(l: TaskLists, k: nat, tasks: seq<Task>, r: RecipeLists, wave: nat)
    requires Parallel(l, |tasks|) && Covers(r, |tasks|) && k < |tasks|
    ensures
      var l1 := ConstantsRun(l, k, r.createConstants[k]);
      var tid := r.createCodelet[k];
      && Parallel(l1, |tasks|)
      && match CodeletRecipe(l1, tid, tasks[tid], wave)
         case Err(e) => EvalFrom(l, k, tasks, r, wave) == EvalRun(l1, TaskRuns(k, r), Some(e))
         case Ok(l2) =>
           && Parallel(l2, |tasks|)
           && EvalFrom(l, k, tasks, r, wave) == Prefixed(TaskRuns(k, r), EvalFrom(l2, k + 1, tasks, r, wave))
  {
  }

  /**
   * One pass of eval's loop seen from the runs already performed: task
   * `k`'s runs join them, and the replay goes on from task `k + 1` on the
   * lists the codelet recipe leaves, or stops with its error.
   */
  lemma EvalFromAdvance(performed: seq<RecipeRun>, l: TaskLists, k: nat, tasks: seq<Task>, r: RecipeLists, wave: nat)
    requires Parallel(l, |tasks|) && Covers(r, |tasks|) && k < |tasks|
    ensures
      var l1 := ConstantsRun(l, k, r.createConstants[k]);
      var tid := r.createCodelet[k];
      match CodeletRecipe(l1, tid, tasks[tid], wave)
      case Err(e) => Prefixed(performed, EvalFrom(l, k, tasks, r, wave)) == EvalRun(l1, performed + TaskRuns(k, r), Some(e))
      case Ok(l2) =>
        && Parallel(l2, |tasks|)
        && Prefixed(performed, EvalFrom(l, k, tasks, r, wave))
             == Prefixed(performed + TaskRuns(k, r), EvalFrom(l2, k + 1, tasks, r, wave))
  {
    EvalFromStep(l, k, tasks, r, wave);
    var l1 := ConstantsRun(l, k, r.createConstants[k]);
    var tid := r.createCodelet[k];
    if CodeletRecipe(l1, tid, tasks[tid], wave).Ok? {
      var rest := EvalFrom(CodeletRecipe(l1, tid, tasks[tid], wave).value, k + 1, tasks, r, wave);
      assert performed + (TaskRuns(k, r) + rest.runs) == (performed + TaskRuns(k, r)) + rest.runs;
    }
  }

  /** Task `j`'s entries are the same in both lists. */
  predicate TaskUntouched(before: TaskLists, after: TaskLists, j: nat)
    requires j < |before.constantsPtr| && j < |before.constantsId| && j < |before.funcArgs|
    requires j < |after.constantsPtr| && j < |after.constantsId| && j < |after.funcArgs|
  {
    && after.constantsPtr[j] == before.constantsPtr[j]
    && after.constantsId[j] == before.constantsId[j]
    && after.funcArgs[j] == before.funcArgs[j]
  }

  /**
   * Task `j`'s entries after its constant recipes `constants` and its own
   * codelet recipe ran on an empty argument vector.
   */
  predicate TaskLaidOut(before: TaskLists, after: TaskLists, j: nat, task: Task, constants: seq<JlValue>, wave: nat)
    requires j < |before.constantsPtr| && j < |before.constantsId| && j < |before.funcArgs|
    requires j < |after.constantsPtr| && j < |after.constantsId| && j < |after.funcArgs|
  {
    && after.constantsPtr[j] == before.constantsPtr[j] + constants + [FrameIdBox, WaveBox(wave)]
    && after.constantsId[j] == before.constantsId[j] + Pins(constants) + [Pin(FrameIdBox), Pin(FrameIdBox)]
    && after.funcArgs[j] == Layout(task.name, |task.sockets|, before.constantsPtr[j] + constants, wave)
  }

  /**
   * When every codelet recipe from task `k` on lays out its own task and
   * finds that task's argument vector empty, eval runs to the end and its
   * runs follow task order.
   */
  lemma {:induction false} EvalCompletes(l: TaskLists, k: nat, tasks: seq<Task>, r: RecipeLists, wave: nat)
    requires Parallel(l, |tasks|) && Covers(r, |tasks|) && k <= |tasks|
    requires forall j :: k <= j < |tasks| ==> r.createCodelet[j] == j && l.funcArgs[j] == []
    ensures EvalFrom(l, k, tasks, r, wave).error == None
    ensures EvalFrom(l, k, tasks, r, wave).runs == EvalTrace(k, |tasks|, r)
    decreases |tasks| - k
  {
    if k < |tasks| {
      var l1 := ConstantsRun(l, k, r.createConstants[k]);
      var l2 := CodeletRecipe(l1, k, tasks[k], wave).value;
      EvalFromStep(l, k, tasks, r, wave);
      assert forall j :: k < j < |tasks| ==> l2.funcArgs[j] == l.funcArgs[j];
      EvalCompletes(l2, k + 1, tasks, r, wave);
    }
  }

  /** Under the same conditions, eval leaves the tasks before `k` untouched. */
  lemma {:induction false} EvalKeepsEarlierTasks(l: TaskLists, k: nat, tasks: seq<Task>, r: RecipeLists, wave: nat)
    requires Parallel(l, |tasks|) && Covers(r, |tasks|) && k <= |tasks|
    requires forall j :: k <= j < |tasks| ==> r.createCodelet[j] == j && l.funcArgs[j] == []
    ensures Parallel(EvalFrom(l, k, tasks, r, wave).lists, |tasks|)
    ensures forall j :: 0 <= j < k ==> TaskUntouched(l, EvalFrom(l, k, tasks, r, wave).lists, j)
    decreases |tasks| - k
  {
    if k < |tasks| {
      var l1 := ConstantsRun(l, k, r.createConstants[k]);
      var l2 := CodeletRecipe(l1, k, tasks[k], wave).value;
      EvalFromStep(l, k, tasks, r, wave);
      assert forall j :: k < j < |tasks| ==> l2.funcArgs[j] == l.funcArgs[j];
      EvalKeepsEarlierTasks(l2, k + 1, tasks, r, wave);
      var out := EvalFrom(l2, k + 1, tasks, r, wave).lists;
      forall j | 0 <= j < k
        ensures TaskUntouched(l, out, j)
      {
        assert TaskUntouched(l, l2, j);
        assert TaskUntouched(l2, out, j);
      }
    }
  }

  /**
   * Under the same conditions, every task from `k` on gets its constants,
   * the frame-id and wave-size boxes and its laid-out argument vector.
   */
  lemma {:induction false} EvalLaysOutEveryTask(l: TaskLists, k: nat, tasks: seq<Task>, r: RecipeLists, wave: nat)
    requires Parallel(l, |tasks|) && Covers(r, |tasks|) && k <= |tasks|
    requires forall j :: k <= j < |tasks| ==> r.createCodelet[j] == j && l.funcArgs[j] == []
    ensures Parallel(EvalFrom(l, k, tasks, r, wave).lists, |tasks|)
    ensures forall j :: k <= j < |tasks| ==>
      TaskLaidOut(l, EvalFrom(l, k, tasks, r, wave).lists, j, tasks[j], r.createConstants[j], wave)
    decreases |tasks| - k
  {
    EvalKeepsEarlierTasks(l, k, tasks, r, wave);
    if k < |tasks| {
      var l1 := ConstantsRun(l, k, r.createConstants[k]);
      var l2 := CodeletRecipe(l1, k, tasks[k], wave).value;
      EvalFromStep(l, k, tasks, r, wave);
      assert TaskLaidOut(l, l2, k, tasks[k], r.createConstants[k], wave);
      assert forall j :: k < j < |tasks| ==> l2.funcArgs[j] == l.funcArgs[j];
      EvalLaysOutEveryTask(l2, k + 1, tasks, r, wave);
      EvalKeepsEarlierTasks(l2, k + 1, tasks, r, wave);
      var out := EvalFrom(l2, k + 1, tasks, r, wave).lists;
      assert TaskUntouched(l2, out, k);
      forall j | k < j < |tasks|
        ensures TaskLaidOut(l, out, j, tasks[j], r.createConstants[j], wave)
      {
        assert TaskUntouched(l, l2, j);
        assert TaskLaidOut(l2, out, j, tasks[j], r.createConstants[j], wave);
      }
    }
  }

  /**
   * Eval on a module whose argument vectors are already laid out throws:
   * with codelet recipes in task order, it stops at the first task `j`
   * whose argument vector is not empty, with that vector's size.
   */
  lemma {:induction false} EvalStopsAtLaidOutTask(l: TaskLists, k: nat, tasks: seq<Task>, r: RecipeLists, wave: nat, j: nat)
    requires Parallel(l, |tasks|) && Covers(r, |tasks|) && k <= j < |tasks|
    requires forall i :: k <= i < |tasks| ==> r.createCodelet[i] == i
    requires forall i :: k <= i < j ==> l.funcArgs[i] == []
    requires l.funcArgs[j] != []
    ensures EvalFrom(l, k, tasks, r, wave).error == Some(FuncArgsNotEmpty(j, |l.funcArgs[j]|))
    decreases j - k
  {
    EvalFromStep(l, k, tasks, r, wave);
    if k < j {
      var l1 := ConstantsRun(l, k, r.createConstants[k]);
      var l2 := CodeletRecipe(l1, k, tasks[k], wave).value;
      assert forall i :: k < i < |tasks| ==> l2.funcArgs[i] == l.funcArgs[i];
      EvalStopsAtLaidOutTask(l2, k + 1, tasks, r, wave, j);
    }
  }

  /**
   * A codelet run on the argument vector its recipe laid out, when the
   * sockets bound are of supported types: slot 0 is the task's function,
   * every socket but the last is passed as an array in order, the constants
   * follow, then the frame id and the wave size, each kept to 32 bits; the
   * call is made exactly when the function takes at most nine arguments.
   */
  lemma ExecOnLayout(task: Task, constants: seq<JlValue>, wave: nat, frameId: nat, waveNow: nat, jlSafe: bool)
    requires |task.sockets| >= 1
    requires forall i :: 0 <= i < |task.sockets| - 1 ==> NewArrayFromData(task.sockets[i]).Ok?
    ensures
      var n := |task.sockets|;
      var b := BindSockets(Layout(task.name, n, constants, wave), task.sockets[..n - 1], 0);
      var a := Stamped(b.args, frameId, waveNow);
      && b.error == None
      && |a| == n + |constants| + 2
      && a[0] == Function(task.name)
      && (forall i :: 0 <= i < n - 1 ==> a[i + 1] == Array(NewArrayFromData(task.sockets[i]).value))
      && (forall i :: 0 <= i < |constants| ==> a[n + i] == Value(constants[i]))
      && a[|a| - 2] == Value(UInt32Box(Wrap32(frameId)))
      && a[|a| - 1] == Value(UInt32Box(Wrap32(waveNow)))
      && (JlCallFunc(a, jlSafe).Ok? <==> n + |constants| + 2 <= 10)
  {
    var n := |task.sockets|;
    var bound := task.sockets[..n - 1];
    var l := Layout(task.name, n, constants, wave);
    LayoutSlots(task.name, n, constants, wave);
    var b := BindSockets(l, bound, 0);
    assert forall i :: 0 <= i < |bound| ==> bound[i] == task.sockets[i];
    assert forall k :: n <= k < n + |constants| ==> b.args[k] == l[k];
    assert b.args[0] == l[0];
  }

  /** One task declared on a fresh module, with its codelet. */
  method DeclareFirstTask() returns (m: StatelessJuliaModule, t0: Task)
    ensures fresh(m) && fresh(m.recipes) && m.Valid() && !m.cloned && !m.evaluated && m.jlSafe
    ensures m.tasks == [t0] && m.nFramesPerWave == 1
    ensures t0.name == "scale" && |t0.sockets| == 2
    ensures m.recipes.View() == RecipeLists([[]], [Source("scale(x, frame, wave) = x .* 2")], [0])
    ensures m.funcArgs[0] == Layout("scale", 2, [], 1)
  {
    m := new StatelessJuliaModule();
    var r0 := m.CreateTask("scale", [Socket("in", Float32, 100, 4), Socket("status", Int32, 200, 1)]);
    t0 := r0.value;
    var c0 := m.CreateCodelet(t0, "scale(x, frame, wave) = x .* 2");
    assert c0 == Pass;
  }

  /** A second task declared after the first, with its codelet loaded from a file. */
  method DeclareSecondTask(m: StatelessJuliaModule, t0: Task) returns (t1: Task)
    requires m.Valid() && !m.cloned && !m.evaluated && m.jlSafe && m.tasks == [t0] && m.nFramesPerWave == 1
    requires m.recipes.View() == RecipeLists([[]], [Source("scale(x, frame, wave) = x .* 2")], [0])
    requires m.funcArgs[0] == Layout("scale", 2, [], 1)
    modifies m, m.recipes
    ensures m.Valid() && !m.cloned && !m.evaluated && m.jlSafe
    ensures m.tasks == [t0, t1] && m.nFramesPerWave == 1
    ensures t1.name == "mix" && |t1.sockets| == 3
    ensures forall i :: 0 <= i < |t1.sockets| - 1 ==> NewArrayFromData(t1.sockets[i]).Ok?
    ensures m.recipes.View() == RecipeLists([[], []], [Source("scale(x, frame, wave) = x .* 2"), SourceFile("mix.jl")], [0, 1])
    ensures m.funcArgs[0] == Layout("scale", 2, [], 1)
  {
    var r1 := m.CreateTask("mix", [Socket("a", UInt8, 300, 8), Socket("b", Int64, 400, 8), Socket("status", Int32, 500, 1)]);
    t1 := r1.value;
    assert m.tasks == [t0, t1] && GetTaskId(m.tasks, t1) == Ok(1);
    assert m.funcArgs[0] == Layout("scale", 2, [], 1) && m.funcArgs[1] == [];
    ghost var declared := m.Lists();
    var c1 := m.CreateCodeletFile(t1, "mix.jl");
    assert m.recipes.createCodelet[1] == 1;
    assert c1 == Pass && m.funcArgs[0] == declared.funcArgs[0];
  }

  /** Two tasks declared on a fresh module, each with its codelet, in task order. */
  method DeclareTasks() returns (m: StatelessJuliaModule, t0: Task, t1: Task)
    ensures fresh(m) && fresh(m.recipes) && m.Valid() && !m.cloned && !m.evaluated && m.jlSafe
    ensures m.tasks == [t0, t1] && m.nFramesPerWave == 1
    ensures t0.name == "scale" && |t0.sockets| == 2 && t1.name == "mix" && |t1.sockets| == 3
    ensures forall i :: 0 <= i < |t1.sockets| - 1 ==> NewArrayFromData(t1.sockets[i]).Ok?
    ensures m.recipes.View() == RecipeLists([[], []], [Source("scale(x, frame, wave) = x .* 2"), SourceFile("mix.jl")], [0, 1])
    ensures m.funcArgs[0] == Layout("scale", 2, [], 1)
  {
    m, t0 := DeclareFirstTask();
    t1 := DeclareSecondTask(m, t0);
  }

  /**
   * The module the tasks were declared on: its argument vectors are already
   * laid out, so eval throws, and its codelets refuse to run.
   */
  method OriginalCannotRun()
  {
    var m, t0, t1 := DeclareTasks();
    EvalStopsAtLaidOutTask(m.Lists(), 0, m.tasks, m.recipes.View(), 1, 0);
    var e := m.Eval();
    assert e == Fail(FuncArgsNotEmpty(0, 4));
    var x := m.ExecCodelet(0, 7);
    assert x == Err(NotEvaluated);
  }

  /** The module the tasks were declared on evaluates once it has been reset. */
  method OriginalRunsAfterReset()
  {
    var m, t0, t1 := DeclareTasks();
    m.Reset();
    EvalCompletes(m.Lists(), 0, m.tasks, m.recipes.View(), 1);
    var e := m.Eval();
    assert e == Pass && m.IsEval();
  }

  /** A clone of the declared module, sharing its recipes and evaluated by replaying them. */
  method EvaluatedClone() returns (m: StatelessJuliaModule, c: StatelessJuliaModule, t1: Task)
    ensures fresh(c) && fresh(c.recipes) && c.Valid() && c.cloned && c.evaluated && c.jlSafe && c.recipes == m.recipes
    ensures |c.tasks| == 2 && c.tasks[1] == t1 && c.nFramesPerWave == 1
    ensures t1.name == "mix" && |t1.sockets| == 3
    ensures forall i :: 0 <= i < |t1.sockets| - 1 ==> NewArrayFromData(t1.sockets[i]).Ok?
    ensures c.recipes.View() == RecipeLists([[], []], [Source("scale(x, frame, wave) = x .* 2"), SourceFile("mix.jl")], [0, 1])
    ensures c.funcArgs[1] == Layout("mix", 3, [], 1)
  {
    var t0;
    m, t0, t1 := DeclareTasks();
    c := m.Clone();
    ghost var cleared := c.Lists();
    EvalCompletes(cleared, 0, c.tasks, c.recipes.View(), 1);
    EvalLaysOutEveryTask(cleared, 0, c.tasks, c.recipes.View(), 1);
    var e := c.Eval();
    assert e == Pass;
    assert TaskLaidOut(cleared, c.Lists(), 1, t1, [], 1);
    assert cleared.constantsPtr[1] + [] == [];
  }

  /** The evaluated clone runs a codelet: the function of the task, its bound sockets, the frame id and the wave size. */
  method CloneRunsCodelet()
  {
    var m, c, t1 := EvaluatedClone();
    ExecOnLayout(t1, [], 1, 7, 1, true);
    var x := c.ExecCodelet(1, 7);
    assert x.Ok? && x.value.callee == Function("mix") && |x.value.arguments| == 4;
    assert x.value.arguments[2] == Value(UInt32Box(7)) && x.value.arguments[3] == Value(UInt32Box(1));
  }

  /** The evaluated clone takes no new task and refuses a second eval; after a reset it evaluates again. */
  method CloneResets()
  {
    var m, c, t1 := EvaluatedClone();
    var t2 := c.CreateTask("late", []);
    assert t2 == Err(TaskOnClone);
    var e := c.Eval();
    assert e == Fail(AlreadyEvaluated);
    c.Reset();
    EvalCompletes(c.Lists(), 0, c.tasks, c.recipes.View(), 1);
    e := c.Eval();
    assert e == Pass;
  }
}
