/**
 * The branch-only helpers of the Julia-backed stateless module: the socket
 * type to Julia array type mapping, the positional-call dispatch on the
 * argument count, and the search of a task's index in its module.
 *
 * Julia objects are opaque here: a function is named by the Julia symbol it
 * was looked up under, an array by the socket buffer it wraps, a boxed
 * value by a serial number or its 32-bit content.
 */
module JuliaDispatch {
  import opened Wrappers

  /** The element type of a socket buffer; `Other` is any type the module cannot hand to Julia. */
  datatype DataType =
    | Int8 | UInt8 | Int16 | UInt16 | Int32 | UInt32 | Int64 | UInt64 | Float32 | Float64
    | Other(name: string)

  /** Julia's element types for arrays built over foreign memory. */
  datatype JlType =
    | JlInt8 | JlUInt8 | JlInt16 | JlUInt16 | JlInt32 | JlUInt32 | JlInt64 | JlUInt64
    | JlFloat32 | JlFloat64

  datatype Kind = Signed | Unsigned | Floating

  /** Width in bits of a socket element type (0 for an unsupported type). */
  function Bits(t: DataType): nat {
    match t
    case Int8 | UInt8 => 8
    case Int16 | UInt16 => 16
    case Int32 | UInt32 | Float32 => 32
    case Int64 | UInt64 | Float64 => 64
    case Other(_) => 0
  }

  function KindOf(t: DataType): Kind {
    match t
    case Int8 | Int16 | Int32 | Int64 => Signed
    case UInt8 | UInt16 | UInt32 | UInt64 => Unsigned
    case _ => Floating
  }

  function JlBits(t: JlType): nat {
    match t
    case JlInt8 | JlUInt8 => 8
    case JlInt16 | JlUInt16 => 16
    case JlInt32 | JlUInt32 | JlFloat32 => 32
    case JlInt64 | JlUInt64 | JlFloat64 => 64
  }

  function JlKindOf(t: JlType): Kind {
    match t
    case JlInt8 | JlInt16 | JlInt32 | JlInt64 => Signed
    case JlUInt8 | JlUInt16 | JlUInt32 | JlUInt64 => Unsigned
    case JlFloat32 | JlFloat64 => Floating
  }

  /** The exceptions the Julia-backed module throws (all `runtime_error` in the source). */
  datatype JuliaError =
    | TaskOnClone
    | CodeletOnClone
    | AlreadyEvaluated
    | NothingToEvaluate
    | NotEvaluated
    | FuncArgsNotEmpty(tid: nat, size: nat)
    | TaskNotInModule
    | UnsupportedDatatype(dataType: DataType)
    | UnsupportedArgCount(count: nat)

  /** A socket: its element type, the address of its buffer and its element count. */
  datatype Socket = Socket(name: string, dataType: DataType, dataptr: nat, nElmts: nat)

  /** A Julia array built over a socket buffer without copying it. */
  datatype JlArray = JlArray(elementType: JlType, data: nat, length: nat)

  /** A boxed Julia value: a user constant, or one of the two unsigned 32-bit boxes of a codelet. */
  datatype JlValue = Constant(serial: nat) | UInt32Box(content: nat)

  /** What `gc_preserve` returns: the identifier of the pin it placed on a value. */
  datatype GcId = Pin(pinned: JlValue)

  /** One entry of a codelet's argument vector (`void*` in the source; `Null` before it is written). */
  datatype Slot = Null | Function(name: string) | Array(array: JlArray) | Value(value: JlValue)

  datatype CallMode = SafeCall | UnsafeCall

  /** The positional call made into Julia: the function and its arguments, in order. */
  datatype Invocation = Invocation(mode: CallMode, callee: Slot, arguments: seq<Slot>)

  /** A task of the runtime: its name and its sockets, in declaration order. */
  class Task {
    const name: string
    const sockets: seq<Socket>

    constructor (name: string, sockets: seq<Socket>)
      ensures this.name == name && this.sockets == sockets
    {
      this.name := name;
      this.sockets := sockets;
    }
  }

  /** A `size_t` stored into an unsigned 32-bit Julia box keeps its low 32 bits. */
  function Wrap32(x: nat): (r: nat)
    ensures r < 0x1_0000_0000
    ensures x < 0x1_0000_0000 ==> r == x
  {
    x % 0x1_0000_0000
  }

  /**
   * `jl_new_array_from_data`: wraps a socket buffer in a Julia array of the
   * matching element type, or fails for a type it does not know.
   */
  function NewArrayFromData(sck: Socket): (r: Result<JlArray, JuliaError>)
    ensures r.Ok? <==> !sck.dataType.Other?
    ensures r.Ok? ==> r.value.data == sck.dataptr && r.value.length == sck.nElmts
    ensures r.Ok? ==> JlBits(r.value.elementType) == Bits(sck.dataType)
    ensures r.Ok? ==> JlKindOf(r.value.elementType) == KindOf(sck.dataType)
    ensures r.Err? ==> r.error == UnsupportedDatatype(sck.dataType)
  {
    var p, e := sck.dataptr, sck.nElmts;
    if sck.dataType == UInt8 then Ok(JlArray(JlUInt8, p, e))
    else if sck.dataType == Int8 then Ok(JlArray(JlInt8, p, e))
    else if sck.dataType == UInt16 then Ok(JlArray(JlUInt16, p, e))
    else if sck.dataType == Int16 then Ok(JlArray(JlInt16, p, e))
    else if sck.dataType == UInt32 then Ok(JlArray(JlUInt32, p, e))
    else if sck.dataType == Int32 then Ok(JlArray(JlInt32, p, e))
    else if sck.dataType == UInt64 then Ok(JlArray(JlUInt64, p, e))
    else if sck.dataType == Int64 then Ok(JlArray(JlInt64, p, e))
    else if sck.dataType == Float32 then Ok(JlArray(JlFloat32, p, e))
    else if sck.dataType == Float64 then Ok(JlArray(JlFloat64, p, e))
    else Err(UnsupportedDatatype(sck.dataType))
  }

  /** Width and kind single out a Julia element type, so the mapping above is fully determined. */
  lemma JlTypeDeterminedByBitsAndKind(a: JlType, b: JlType)
    requires JlBits(a) == JlBits(b) && JlKindOf(a) == JlKindOf(b)
    ensures a == b
  {
  }

  /** Two distinct socket types never share a Julia element type. */
  lemma NewArrayFromDataInjective(s1: Socket, s2: Socket)
    requires NewArrayFromData(s1).Ok? && NewArrayFromData(s2).Ok?
    requires s1.dataType != s2.dataType
    ensures NewArrayFromData(s1).value.elementType != NewArrayFromData(s2).value.elementType
  {
  }

  /**
   * `jl_call_func`: slot 0 is the function, the other slots its positional
   * arguments; one branch per argument count from 1 to 10, any other count
   * (0 included) is refused.  The mode follows the module's safety flag.
   */
  function JlCallFunc(args: seq<Slot>, jlSafe: bool): (r: Result<Invocation, JuliaError>)
    ensures r.Ok? <==> 1 <= |args| <= 10
    ensures r.Ok? ==> r.value.callee == args[0] && r.value.arguments == args[1..]
    ensures r.Ok? ==> (r.value.mode == SafeCall <==> jlSafe)
    ensures r.Err? ==> r.error == UnsupportedArgCount(|args|)
  {
    var mode := if jlSafe then SafeCall else UnsafeCall;
    var n := |args|;
    if n == 1 then Ok(Invocation(mode, args[0], []))
    else if n == 2 then Ok(Invocation(mode, args[0], [args[1]]))
    else if n == 3 then Ok(Invocation(mode, args[0], [args[1], args[2]]))
    else if n == 4 then Ok(Invocation(mode, args[0], [args[1], args[2], args[3]]))
    else if n == 5 then Ok(Invocation(mode, args[0], [args[1], args[2], args[3], args[4]]))
    else if n == 6 then Ok(Invocation(mode, args[0], [args[1], args[2], args[3], args[4], args[5]]))
    else if n == 7 then
      Ok(Invocation(mode, args[0], [args[1], args[2], args[3], args[4], args[5], args[6]]))
    else if n == 8 then
      Ok(Invocation(mode, args[0], [args[1], args[2], args[3], args[4], args[5], args[6], args[7]]))
    else if n == 9 then
      Ok(Invocation(mode, args[0], [args[1], args[2], args[3], args[4], args[5], args[6], args[7], args[8]]))
    else if n == 10 then
      Ok(Invocation(mode, args[0],
        [args[1], args[2], args[3], args[4], args[5], args[6], args[7], args[8], args[9]]))
    else Err(UnsupportedArgCount(n))
  }

  /** A successful dispatch passes every slot, in order: the function followed by its arguments is the vector. */
  lemma JlCallFuncKeepsVector(args: seq<Slot>, jlSafe: bool)
    requires JlCallFunc(args, jlSafe).Ok?
    ensures [JlCallFunc(args, jlSafe).value.callee] + JlCallFunc(args, jlSafe).value.arguments == args
  {
  }

  /**
   * The loop of `get_task_id` from index `from`: the first position holding
   * `task`, compared by identity, or an error when none does.
   */
  function FindTask(tasks: seq<Task>, task: Task, from: nat): (r: Result<nat, JuliaError>)
    requires from <= |tasks|
    ensures r.Ok? ==> from <= r.value < |tasks| && tasks[r.value] == task
    ensures r.Ok? ==> forall j :: from <= j < r.value ==> tasks[j] != task
    ensures r.Err? <==> forall j :: from <= j < |tasks| ==> tasks[j] != task
    ensures r.Err? ==> r.error == TaskNotInModule
    decreases |tasks| - from
  {
    if from == |tasks| then Err(TaskNotInModule)
    else if tasks[from] == task then Ok(from)
    else FindTask(tasks, task, from + 1)
  }

  /** `get_task_id`: the index of `task` in its module's task list, or an error when it is absent. */
  function GetTaskId(tasks: seq<Task>, task: Task): (r: Result<nat, JuliaError>)
    ensures r.Ok? <==> task in tasks
    ensures r.Ok? ==> r.value < |tasks| && tasks[r.value] == task
    ensures r.Ok? ==> forall j :: 0 <= j < r.value ==> tasks[j] != task
    ensures r.Err? ==> r.error == TaskNotInModule
  {
    FindTask(tasks, task, 0)
  }

  /** Appending tasks does not move the index of a task already present. */
  lemma GetTaskIdStable(tasks: seq<Task>, more: seq<Task>, task: Task)
    requires task in tasks
    ensures GetTaskId(tasks + more, task) == GetTaskId(tasks, task)
  {
    var i := GetTaskId(tasks, task).value;
    var k := GetTaskId(tasks + more, task).value;
    assert (tasks + more)[i] == task;
    assert tasks[k] == task by {
      if k >= i { assert k == i; }
    }
  }
}
