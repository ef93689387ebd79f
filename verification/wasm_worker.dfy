/**
 * src/app/static/js/wasm_worker.js: the module-level pending-call state of the
 * marshaling protocol, the byte-window writers into sandbox memory, the import
 * patching of the isolated worker, and the worker's message handler.
 */
module WasmWorker {
  import opened JsValues
  import opened Imports
  import opened MarshalSpec

  /**
   * One sandbox instance's linear memory together with the protocol's two
   * module-level lists `_functionBufferArgs` and `_functionReturnValues`,
   * each `null` (None) or a list.
   */
  class Marshaler {
    const memory: array<byte>
    var bufferArgs: Option<seq<Bytes>>
    var returnValues: Option<seq<Value>>

    /** No marshaled call is pending. */
    predicate Idle()
      reads this
    {
      bufferArgs.None? && returnValues.None?
    }

    /** A marshaled call is pending. */
    predicate Pending()
      reads this
    {
      bufferArgs.Some? && returnValues.Some?
    }

    /** The pending call as a value, for stating what a run of callee steps does. */
    function State(): CallState
      reads this, memory
      requires Pending()
    {
      CallState(memory[..], bufferArgs.value, returnValues.value)
    }

    /** A freshly instantiated module whose memory starts as `initial`, nothing pending. */
    constructor (initial: Bytes)
      ensures Idle() && fresh(memory)
      ensures memory[..] == initial
    {
      memory := new byte[|initial|](i requires 0 <= i < |initial| => initial[i]);
      bufferArgs := None;
      returnValues := None;
    }

    /** `writeCharStr`: the low byte of each UTF-16 code unit of `toWrite`, written from
        `ptr`, provided the string fits in `len`; 0 without writing when it does not. */
    method WriteCharStr(ptr: int, len: int, toWrite: JsString) returns (r: Result<int>)
      modifies memory
      ensures |toWrite| > len ==> r == Ok(0) && memory[..] == old(memory[..])
      ensures |toWrite| <= len && !WindowFits(memory.Length, ptr, len) ==>
        r == Throw(RangeError) && memory[..] == old(memory[..])
      ensures |toWrite| <= len && WindowFits(memory.Length, ptr, len) ==>
        r == Ok(|toWrite|) && memory[..] == Spliced(old(memory[..]), ptr, LowBytes(toWrite))
    {
      if |toWrite| > len {
        return Ok(0);
      }
      if !WindowFits(memory.Length, ptr, len) {
        return Throw(RangeError);
      }
      var bytes := LowBytes(toWrite);
      var i := 0;
      while i < |toWrite|
        invariant 0 <= i <= |toWrite|
        invariant memory[..] == Spliced(old(memory[..]), ptr, bytes[..i])
      {
        memory[ptr + i] := toWrite[i] % 256;
        i := i + 1;
      }
      assert bytes[..i] == bytes;
      r := Ok(|toWrite|);
    }

    /** `writeArrayBuffer`: copies `buf` to `ptr..ptr+|buf|` when it fits in `len`;
        throws, leaving memory as it was, when it does not or the window is invalid. */
    method WriteArrayBuffer(ptr: int, len: int, buf: Bytes) returns (r: Result<()>)
      modifies memory
      ensures |buf| > len ==> r == Throw(MismatchedLengths)
      ensures |buf| <= len && !WindowFits(memory.Length, ptr, len) ==> r == Throw(RangeError)
      ensures r.Ok? <==> HeadFits(memory.Length, ptr, len, buf)
      ensures r.Ok? ==> memory[..] == Spliced(old(memory[..]), ptr, buf)
      ensures r.Throw? ==> memory[..] == old(memory[..])
    {
      if |buf| > len {
        return Throw(MismatchedLengths);
      }
      if !WindowFits(memory.Length, ptr, len) {
        return Throw(RangeError);
      }
      var i := 0;
      while i < |buf|
        invariant 0 <= i <= |buf|
        invariant memory[..] == Spliced(old(memory[..]), ptr, buf[..i])
      {
        memory[ptr + i] := buf[i];
        i := i + 1;
      }
      assert buf[..i] == buf;
      r := Ok(());
    }

    /** `fillDataBuffer`: always removes the queue head; copies it into the window and
        returns 1 when it fits, returns 0 otherwise (empty queue, head too long, bad
        window). Throws a TypeError, as `null.shift()` does, when no call is pending. */
    method FillDataBuffer(ptr: int, len: int) returns (r: Result<int>)
      modifies this`bufferArgs, memory
      ensures old(bufferArgs).None? ==>
        r == Throw(TypeError) && bufferArgs == None && memory[..] == old(memory[..])
      ensures old(bufferArgs) == Some([]) ==>
        r == Ok(0) && bufferArgs == Some([]) && memory[..] == old(memory[..])
      ensures old(bufferArgs).Some? && old(bufferArgs).value != [] ==>
        var q := old(bufferArgs).value;
        && bufferArgs == Some(q[1..])
        && (r == Ok(1) <==> HeadFits(memory.Length, ptr, len, q[0]))
        && (r == Ok(0) <==> !HeadFits(memory.Length, ptr, len, q[0]))
        && memory[..] == (if HeadFits(memory.Length, ptr, len, q[0])
                          then Spliced(old(memory[..]), ptr, q[0]) else old(memory[..]))
    {
      if bufferArgs.None? {
        return Throw(TypeError);
      }
      var q := bufferArgs.value;
      if q == [] {
        return Ok(0);
      }
      bufferArgs := Some(q[1..]);
      var written := WriteArrayBuffer(ptr, len, q[0]);
      if written.Throw? {
        return Ok(0);
      }
      r := Ok(1);
    }

    /** `addReturnValueFloat`: appends `value` to the pending results and returns 1;
        returns 0 and appends nothing when no call is pending. */
    method AddReturnValueFloat(value: real) returns (r: int)
      modifies this`returnValues
      ensures old(returnValues).None? ==> r == 0 && returnValues == None
      ensures old(returnValues).Some? ==>
        r == 1 && returnValues == Some(old(returnValues).value + [Num(value)])
    {
      if returnValues.None? {
        return 0;
      }
      returnValues := Some(returnValues.value + [Num(value)]);
      r := 1;
    }

    /** `addReturnValueInt`: as `AddReturnValueFloat`, for an i32 the sandbox passes. */
    method AddReturnValueInt(value: int) returns (r: int)
      modifies this`returnValues
      ensures old(returnValues).None? ==> r == 0 && returnValues == None
      ensures old(returnValues).Some? ==>
        r == 1 && returnValues == Some(old(returnValues).value + [Num(value as real)])
    {
      if returnValues.None? {
        return 0;
      }
      returnValues := Some(returnValues.value + [Num(value as real)]);
      r := 1;
    }

    /** `addReturnValueBuf`: appends a copy of exactly the `len` bytes at `ptr` and
        returns 1; 0 when no call is pending; a RangeError for a window outside memory. */
    method AddReturnValueBuf(ptr: int, len: int) returns (r: Result<int>)
      modifies this`returnValues
      ensures old(returnValues).None? ==> r == Ok(0) && returnValues == None
      ensures old(returnValues).Some? && !WindowFits(memory.Length, ptr, len) ==>
        r == Throw(RangeError) && returnValues == old(returnValues)
      ensures old(returnValues).Some? && WindowFits(memory.Length, ptr, len) ==>
        r == Ok(1) && returnValues == Some(old(returnValues).value + [Buf(memory[ptr..ptr + len])])
    {
      if returnValues.None? {
        return Ok(0);
      }
      if !WindowFits(memory.Length, ptr, len) {
        return Throw(RangeError);
      }
      var copy := memory[ptr..ptr + len];
      returnValues := Some(returnValues.value + [Buf(copy)]);
      r := Ok(1);
    }

    /** The first half of `callWasmFunction`: the non-reentrancy guard, then the argument
        encoding. Both lists are set before the arguments are looked at, so an unsupported
        argument throws with the call still marked pending. */
    method BeginCall(args: seq<Arg>) returns (r: Result<seq<real>>)
      modifies this`bufferArgs, this`returnValues
      ensures old(bufferArgs).Some? ==>
        r == Throw(BadBufferArgs) && bufferArgs == old(bufferArgs) && returnValues == old(returnValues)
      ensures old(bufferArgs).None? && old(returnValues).Some? ==>
        r == Throw(BadReturnValues) && bufferArgs == None && returnValues == old(returnValues)
      ensures old(Idle()) && AllSupported(args) ==>
        r == Ok(WasmArgs(args)) && bufferArgs == Some(BufferQueue(args)) && returnValues == Some([])
      ensures old(Idle()) && !AllSupported(args) ==>
        && r == Throw(Rejection(args))
        && bufferArgs == Some(BufferQueue(args[..FirstUnsupported(args)]))
        && returnValues == Some([])
    {
      if bufferArgs.Some? {
        return Throw(BadBufferArgs);
      }
      if returnValues.Some? {
        return Throw(BadReturnValues);
      }
      bufferArgs := Some([]);
      returnValues := Some([]);
      var wasmArgs: seq<real> := [];
      var i := 0;
      while i < |args|
        invariant 0 <= i <= |args|
        invariant AllSupported(args[..i])
        invariant wasmArgs == WasmArgs(args[..i])
        invariant bufferArgs == Some(BufferQueue(args[..i]))
        invariant returnValues == Some([])
      {
        if Supported(args[i]) {
          EncodeStep(args, i);
        }
        match args[i] {
          case Number(x) =>
            wasmArgs := wasmArgs + [x];
            assert BufferQueue(args[..i]) + [] == BufferQueue(args[..i]);
          case Text(text) =>
            var encoded := Utf8Encode(text);
            wasmArgs := wasmArgs + [|encoded| as real];
            bufferArgs := Some(bufferArgs.value + [encoded]);
          case Buffer(bytes) =>
            wasmArgs := wasmArgs + [|bytes| as real];
            bufferArgs := Some(bufferArgs.value + [bytes]);
          case Other =>
            FirstUnsupportedIsLength(args);
            assert FirstUnsupported(args) == i;
            return Throw(UnsupportedArg);
          case Faulting =>
            FirstUnsupportedIsLength(args);
            assert FirstUnsupported(args) == i;
            return Throw(TypeError);
        }
        i := i + 1;
      }
      assert args[..i] == args;
      r := Ok(wasmArgs);
    }

    /** The sandboxed export running with the call pending: its host calls and its own
        stores, in order, against this instance, then its return or trap. An exception a
        host call throws, or a store outside memory, ends the run. */
    method RunCallee(run: CalleeRun) returns (r: Result<real>)
      requires Pending()
      modifies this`bufferArgs, this`returnValues, memory
      ensures Pending()
      ensures var out := Run(old(State()), run.calls);
        && State() == out.state
        && r == (if out.error.Some? then Throw(out.error.value)
                 else if run.end.Trap? then Throw(WasmTrap) else Ok(run.end.x))
    {
      var i := 0;
      while i < |run.calls|
        invariant 0 <= i <= |run.calls|
        invariant Pending()
        invariant Run(old(State()), run.calls) == Run(State(), run.calls[i..])
      {
        ghost var before := State();
        assert run.calls[i..][0] == run.calls[i] && run.calls[i..][1..] == run.calls[i + 1..];
        match run.calls[i] {
          case FillDataBuffer(ptr, len) =>
          var _ := FillDataBuffer(ptr, len);
        case AddReturnValueFloat(x) =>
          var _ := AddReturnValueFloat(x);
        case AddReturnValueInt(v) =>
          var _ := AddReturnValueInt(v);
        case AddReturnValueBuf(ptr, len) =>
          var pushed := AddReturnValueBuf(ptr, len);
          if pushed.Throw? {
            return Throw(pushed.error);
          }
        case Store(ptr, bytes) =>
          // the store writes the bytes as a copy into an exactly fitting window does
          var stored := WriteArrayBuffer(ptr, |bytes|, bytes);
          if stored.Throw? {
            return Throw(WasmTrap);
          }
        }
        assert Step(before, run.calls[i]) == Ok(State());
        i := i + 1;
      }
      match run.end
      case Trap => r := Throw(WasmTrap);
      case Return(x) => r := Ok(x);
    }

    /** The second half of `callWasmFunction`: both lists are reset before the unused-buffer
        check, so a call that leaves buffers unread throws and the next call can start. */
    method EndCall(returnValue: real) returns (r: Result<seq<Value>>)
      requires Pending()
      modifies this`bufferArgs, this`returnValues
      ensures Idle()
      ensures old(bufferArgs).value != [] ==> r == Throw(UnusedBufferArgs(|old(bufferArgs).value|))
      ensures old(bufferArgs).value == [] ==> r == Ok([Num(returnValue)] + old(returnValues).value)
    {
      var pendingBuffers := bufferArgs.value;
      var pushed := returnValues.value;
      bufferArgs := None;
      returnValues := None;
      if |pendingBuffers| != 0 {
        return Throw(UnusedBufferArgs(|pendingBuffers|));
      }
      r := Ok([Num(returnValue)] + pushed);
    }

    /** `callWasmFunction`, as written: a call started while another is pending is refused
        and changes nothing; otherwise the result is `CallOutcome`. Only a call that reaches
        the callee's return resets the pending lists; an unsupported argument, an exception
        in a host call or a trap leaves them set, holding what the run had left in them. */
    method CallWasmFunction(callee: seq<real> -> CalleeRun, args: seq<Arg>) returns (r: Result<seq<Value>>)
      modifies this`bufferArgs, this`returnValues, memory
      ensures old(bufferArgs).Some? ==>
        r == Throw(BadBufferArgs) && bufferArgs == old(bufferArgs) && returnValues == old(returnValues)
        && memory[..] == old(memory[..])
      ensures old(bufferArgs).None? && old(returnValues).Some? ==>
        r == Throw(BadReturnValues) && Unchanged(old(bufferArgs), old(returnValues), old(memory[..]))
      ensures old(Idle()) ==> r == CallOutcome(old(memory[..]), callee, args)
      ensures old(Idle()) && !AllSupported(args) ==>
        && bufferArgs == Some(BufferQueue(args[..FirstUnsupported(args)])) && returnValues == Some([])
        && memory[..] == old(memory[..])
      ensures old(Idle()) && AllSupported(args) ==>
        var run := callee(WasmArgs(args));
        var out := Run(CallState(old(memory[..]), BufferQueue(args), []), run.calls);
        && memory[..] == out.state.memory
        && (Idle() <==> out.error.None? && run.end.Return?)
        && (!Idle() ==> bufferArgs == Some(out.state.queue) && returnValues == Some(out.state.pushed))
    {
      var begun := BeginCall(args);
      if begun.Throw? {
        return Throw(begun.error);
      }
      var primary := RunCallee(callee(begun.value));
      if primary.Throw? {
        return Throw(primary.error);
      }
      r := EndCall(primary.value);
    }

    /** The state is exactly as given. */
    predicate Unchanged(b: Option<seq<Bytes>>, v: Option<seq<Value>>, m: Bytes)
      reads this, memory
    {
      bufferArgs == b && returnValues == v && memory[..] == m
    }

    /** `callWasmFunction` with its pending lists reset on every exit once the guard has
        passed (a `try`/`finally` around lines 100-132): the same result, and the
        protocol is idle again after every call that started idle. */
    method CallWasmFunctionGuarded(callee: seq<real> -> CalleeRun, args: seq<Arg>) returns (r: Result<seq<Value>>)
      modifies this`bufferArgs, this`returnValues, memory
      ensures old(bufferArgs).Some? ==>
        r == Throw(BadBufferArgs) && Unchanged(old(bufferArgs), old(returnValues), old(memory[..]))
      ensures old(bufferArgs).None? && old(returnValues).Some? ==>
        r == Throw(BadReturnValues) && Unchanged(old(bufferArgs), old(returnValues), old(memory[..]))
      ensures old(Idle()) ==> r == CallOutcome(old(memory[..]), callee, args) && Idle()
      ensures old(Idle()) && !AllSupported(args) ==> memory[..] == old(memory[..])
      ensures old(Idle()) && AllSupported(args) ==>
        memory[..] == Run(CallState(old(memory[..]), BufferQueue(args), []), callee(WasmArgs(args)).calls).state.memory
    {
      var wasIdle := Idle();
      r := CallWasmFunction(callee, args);
      if wasIdle {
        bufferArgs := None;
        returnValues := None;
      }
    }
  }

  /** The low byte of each code unit, as a `Uint8Array` element assignment stores it. */
  function LowBytes(s: JsString): (b: Bytes)
    ensures |b| == |s|
  {
    seq(|s|, i requires 0 <= i < |s| => s[i] % 256)
  }

  /** For ASCII text `writeCharStr` writes exactly the UTF-8 bytes a `TextEncoder`
      produces, so the sandbox can decode what it receives as UTF-8. */
  lemma WriteCharStrAsciiIsUtf8(s: JsString)
    requires IsAscii(s)
    ensures LowBytes(s) == Utf8Encode(s)
  {
    Utf8EncodeAscii(s);
  }

  // ---------------------------------------------------------------------------
  // patchWasmModuleImports
  // ---------------------------------------------------------------------------

  /** Only function imports from module "env" are patched. */
  predicate IsEnvFunction(im: ImportDescriptor)
  {
    im.moduleName == "env" && im.kind == FunctionImport
  }

  /** One iteration of the patch loop. */
  function PatchOne(entries: map<string, Binding>, im: ImportDescriptor): map<string, Binding>
  {
    if IsEnvFunction(im) && !Has(entries, im.name) then entries[im.name := Stub(im.name)]
    else entries
  }

  /** The env entries after patching for `imports`, in order; patching only adds names. */
  function Patched(entries: map<string, Binding>, imports: seq<ImportDescriptor>): (p: map<string, Binding>)
    ensures entries.Keys <= p.Keys
    decreases |imports|
  {
    if imports == [] then entries
    else PatchOne(Patched(entries, imports[..|imports| - 1]), imports[|imports| - 1])
  }

  /** `patchWasmModuleImports(module, env)`: walks the module's imports in order and gives
      every function import of "env" that `env` lacks a throwing stub. */
  method PatchWasmModuleImports(imports: seq<ImportDescriptor>, env: Env)
    modifies env
    ensures env.entries == Patched(old(env.entries), imports)
  {
    var i := 0;
    while i < |imports|
      invariant 0 <= i <= |imports|
      invariant env.entries == Patched(old(env.entries), imports[..i])
    {
      assert imports[..i + 1][..i] == imports[..i];
      var im := imports[i];
      if im.moduleName == "env" && im.kind == FunctionImport {
        if !Has(env.entries, im.name) {
          env.entries := env.entries[im.name := Stub(im.name)];
        }
      }
      i := i + 1;
    }
    assert imports[..i] == imports;
  }

  /** Patching never replaces or removes an entry `env` already has. */
  lemma {:induction false} PatchKeepsEntries(entries: map<string, Binding>, imports: seq<ImportDescriptor>)
    ensures forall n :: n in entries ==> n in Patched(entries, imports) && Patched(entries, imports)[n] == entries[n]
    decreases |imports|
  {
    if imports != [] {
      PatchKeepsEntries(entries, imports[..|imports| - 1]);
    }
  }

  /** Every entry patching adds is a stub for a function import of "env" under that same
      name, and never one of the names an object inherits. */
  lemma {:induction false} PatchAddsOnlyStubs(entries: map<string, Binding>, imports: seq<ImportDescriptor>)
    ensures forall n :: n in Patched(entries, imports) && n !in entries ==>
      && Patched(entries, imports)[n] == Stub(n)
      && !Inherited(n)
      && exists i :: 0 <= i < |imports| && IsEnvFunction(imports[i]) && imports[i].name == n
    decreases |imports|
  {
    if imports != [] {
      var k := |imports| - 1;
      var pre := imports[..k];
      PatchAddsOnlyStubs(entries, pre);
      forall n | n in Patched(entries, imports) && n !in entries
        ensures exists i :: 0 <= i < |imports| && IsEnvFunction(imports[i]) && imports[i].name == n
      {
        if n in Patched(entries, pre) {
          var i :| 0 <= i < |pre| && IsEnvFunction(pre[i]) && pre[i].name == n;
          assert imports[i] == pre[i];
        } else {
          assert imports[k].name == n;
        }
      }
    }
  }

  /** After patching, every function import of "env" the module declares is present in
      `env`, so instantiation never fails for a missing "env" function. */
  lemma {:induction false} PatchResolvesEnvFunctions(entries: map<string, Binding>, imports: seq<ImportDescriptor>)
    ensures forall i :: 0 <= i < |imports| && IsEnvFunction(imports[i]) ==>
      Has(Patched(entries, imports), imports[i].name)
    decreases |imports|
  {
    if imports != [] {
      var k := |imports| - 1;
      var pre := imports[..k];
      PatchResolvesEnvFunctions(entries, pre);
      forall i | 0 <= i < |imports| && IsEnvFunction(imports[i])
        ensures Has(Patched(entries, imports), imports[i].name)
      {
        if i < k {
          assert imports[i] == pre[i];
        }
      }
    }
  }

  // ---------------------------------------------------------------------------
  // The worker's message handler
  // ---------------------------------------------------------------------------

  /** An export of an instantiated module. */
  datatype Export = FunctionExport(body: seq<real> -> CalleeRun) | OtherExport

  /** A compiled module: what `WebAssembly.Module.imports` reports, its exports by name,
      and the initial contents of its memory. */
  datatype WasmModule = WasmModule(imports: seq<ImportDescriptor>, exports: map<JsString, Export>, initialMemory: Bytes)

  /** One element of the message array posted to the worker. */
  datatype MessageItem = ModuleItem(compiled: WasmModule) | ArgItem(arg: Arg)

  datatype WorkerReply = Replied(values: seq<Value>) | NoReply

  /** The worker's own import surface: logging and the four marshaling primitives. */
  const WorkerEnv: map<string, Binding> :=
    map["consoleMessage" := Host("consoleMessage"),
        "fillDataBuffer" := Host("fillDataBuffer"),
        "addReturnValueFloat" := Host("addReturnValueFloat"),
        "addReturnValueInt" := Host("addReturnValueInt"),
        "addReturnValueBuf" := Host("addReturnValueBuf")]

  /** `env[name]` is callable: an own entry (every binding is a function) or a method
      inherited from `Object.prototype`. `env.__proto__` is `Object.prototype` itself,
      which is not callable. */
  predicate Callable(entries: map<string, Binding>, name: string)
  {
    name in entries || (Inherited(name) && name != "__proto__")
  }

  /** `WebAssembly.instantiate` succeeds: the import object has only "env", so every
      import must be an "env" function for which `env` holds something callable. */
  predicate Instantiable(entries: map<string, Binding>, imports: seq<ImportDescriptor>)
  {
    forall i :: 0 <= i < |imports| ==> IsEnvFunction(imports[i]) && Callable(entries, imports[i].name)
  }

  /** How a message element is passed on as a call argument; a module object is an
      "object" that is not an ArrayBuffer. */
  function ItemArg(item: MessageItem): Arg
  {
    match item
    case ModuleItem(_) => Other
    case ArgItem(a) => a
  }

  function CallArgs(data: seq<MessageItem>): seq<Arg>
    requires |data| >= 2
  {
    seq(|data| - 2, i requires 0 <= i < |data| - 2 => ItemArg(data[i + 2]))
  }

  /** The name the worker looks up among the exports, when it is a string. */
  function FunctionName(data: seq<MessageItem>): Option<JsString>
    requires |data| >= 2
  {
    if data[1].ArgItem? && data[1].arg.Text? then Some(data[1].arg.s) else None
  }

  /** What the worker posts back for the message `data`: a reply only for a module it
      can instantiate, and then always a non-empty list. */
  function WorkerResponse(data: seq<MessageItem>): (r: WorkerReply)
    ensures r.Replied? ==> |data| >= 2 && data[0].ModuleItem? && |r.values| >= 1
    ensures r.Replied? ==> Instantiable(Patched(WorkerEnv, data[0].compiled.imports), data[0].compiled.imports)
  {
    if |data| < 2 || !data[0].ModuleItem? then NoReply
    else
      var m := data[0].compiled;
      var name := FunctionName(data);
      if !Instantiable(Patched(WorkerEnv, m.imports), m.imports) then NoReply
      else if name.None? || name.value !in m.exports || m.exports[name.value].OtherExport? then NoReply
      else match CallOutcome(m.initialMemory, m.exports[name.value].body, CallArgs(data))
        case Ok(values) => Replied(values)
        case Throw(_) => NoReply
  }

  /** `onmessage`: fewer than two elements is refused; otherwise the module is
      instantiated afresh with the patched worker imports, the named export is called
      through the marshaling protocol and its result list is posted back. */
  method OnMessage(data: seq<MessageItem>) returns (reply: WorkerReply)
    ensures |data| < 2 ==> reply == NoReply
    ensures reply == WorkerResponse(data)
  {
    if |data| < 2 {
      return NoReply;
    }
    if !data[0].ModuleItem? {
      return NoReply;
    }
    var m := data[0].compiled;
    var name := FunctionName(data);
    var args := CallArgs(data);
    var env := new Env(WorkerEnv);
    PatchWasmModuleImports(m.imports, env);
    if !Instantiable(env.entries, m.imports) {
      return NoReply;
    }
    if name.None? || name.value !in m.exports || m.exports[name.value].OtherExport? {
      return NoReply;
    }
    var instance := new Marshaler(m.initialMemory);
    var result := instance.CallWasmFunction(m.exports[name.value].body, args);
    reply := if result.Ok? then Replied(result.value) else NoReply;
  }

  /** A module whose imports are all functions of "env" instantiates in the worker,
      whatever it imports beyond the worker's own surface, exactly when none of them is
      named `__proto__`: that name counts as present, so it gets no stub, and what it
      resolves to cannot be called. Every reply the worker posts is a non-empty list. */
  lemma WorkerInstantiatesEnvModules(data: seq<MessageItem>)
    requires |data| >= 2 && data[0].ModuleItem?
    requires forall i :: 0 <= i < |data[0].compiled.imports| ==> IsEnvFunction(data[0].compiled.imports[i])
    ensures var imports := data[0].compiled.imports;
      Instantiable(Patched(WorkerEnv, imports), imports) <==>
        forall i :: 0 <= i < |imports| ==> imports[i].name != "__proto__"
    ensures WorkerResponse(data).Replied? ==> |WorkerResponse(data).values| >= 1
  {
    var imports := data[0].compiled.imports;
    var patched := Patched(WorkerEnv, imports);
    PatchResolvesEnvFunctions(WorkerEnv, imports);
    PatchAddsOnlyStubs(WorkerEnv, imports);
    assert Inherited("__proto__");
    assert "__proto__" !in patched by {
      assert "__proto__" !in WorkerEnv;
    }
  }

  // ---------------------------------------------------------------------------
  // A call that fails before its callee returns leaves the protocol pending
  // ---------------------------------------------------------------------------

  /** As written, one unsupported argument makes every later call on the same instance
      fail the non-reentrancy guard, even one with no arguments. */
  method UnsupportedArgumentBlocksLaterCalls() returns (first: Result<seq<Value>>, second: Result<seq<Value>>)
    ensures first == Throw(UnsupportedArg)
    ensures second == Throw(BadBufferArgs)
  {
    var instance := new Marshaler([]);
    var callee := (w: seq<real>) => CalleeRun([], Return(0.0));
    first := instance.CallWasmFunction(callee, [Other]);
    second := instance.CallWasmFunction(callee, []);
  }

  /** With the lists reset on every exit, the same two calls are independent: the
      second one runs and returns its callee's result. */
  method GuardedCallsStayIndependent() returns (first: Result<seq<Value>>, second: Result<seq<Value>>)
    ensures first == Throw(UnsupportedArg)
    ensures second == Ok([Num(0.0)])
  {
    var instance := new Marshaler([]);
    var callee := (w: seq<real>) => CalleeRun([], Return(0.0));
    first := instance.CallWasmFunctionGuarded(callee, [Other]);
    var noArgs: seq<Arg> := [];
    second := instance.CallWasmFunctionGuarded(callee, noArgs);
    assert AllSupported(noArgs) && BufferQueue(noArgs) == [];
    assert callee(WasmArgs(noArgs)) == CalleeRun([], Return(0.0));
    assert [Num(0.0)] + [] == [Num(0.0)];
  }
}
