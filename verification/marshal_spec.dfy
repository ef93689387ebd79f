/**
 * The call-marshaling protocol of src/app/static/js/wasm_worker.js, as
 * values: how the arguments of a marshaled call are encoded, what each host
 * call the callee makes does to the pending call, and what the whole call
 * returns. The class `WasmWorker.Marshaler` is proved against these.
 */
module MarshalSpec {
  import opened JsValues

  /** An argument of `callWasmFunction`, by its JavaScript type. */
  datatype Arg =
    | Number(x: real)        // typeof "number"
    | Text(s: JsString)      // typeof "string"
    | Buffer(bytes: Bytes)   // an ArrayBuffer
    | Other                  // undefined, a boolean, a bigint, a function, an object that is no ArrayBuffer
    | Faulting               // null, an object with no `constructor` (no prototype), or a Symbol

  /** An element of the list a marshaled call returns. */
  datatype Value = Num(x: real) | Buf(bytes: Bytes)

  predicate Supported(a: Arg) { a.Number? || a.Text? || a.Buffer? }

  /** What the argument loop throws at an argument it does not accept. For `null` and an
      object without a prototype, reading `arg.constructor.name` is already a TypeError;
      a Symbol reaches the final branch, where formatting it into the message is one. */
  function ArgError(a: Arg): Error
    requires !Supported(a)
  {
    if a.Faulting? then TypeError else UnsupportedArg
  }

  predicate AllSupported(args: seq<Arg>)
  {
    forall i :: 0 <= i < |args| ==> Supported(args[i])
  }

  /** A string or ArrayBuffer argument travels through the buffer queue. */
  predicate Queued(a: Arg) { a.Text? || a.Buffer? }

  /** The bytes queued for a string or ArrayBuffer argument. */
  function Payload(a: Arg): Bytes
    requires Queued(a)
  {
    if a.Text? then Utf8Encode(a.s) else a.bytes
  }

  /** The scalar that stands for an argument in the sandbox call. */
  function Scalar(a: Arg): real
    requires Supported(a)
  {
    if a.Number? then a.x else |Payload(a)| as real
  }

  /** The scalar argument list the callee receives. */
  function WasmArgs(args: seq<Arg>): (w: seq<real>)
    requires AllSupported(args)
    ensures |w| == |args|
  {
    seq(|args|, i requires 0 <= i < |args| => Scalar(args[i]))
  }

  /** The buffers queued for the callee, in argument order: at most one per argument. */
  function BufferQueue(args: seq<Arg>): (q: seq<Bytes>)
    ensures |q| <= |args|
    decreases |args|
  {
    if args == [] then []
    else
      var last := args[|args| - 1];
      BufferQueue(args[..|args| - 1]) + (if Queued(last) then [Payload(last)] else [])
  }

  /** The index of the first unsupported argument, or |args| when there is none. */
  function FirstUnsupported(args: seq<Arg>): (k: nat)
    ensures k <= |args|
    ensures AllSupported(args[..k])
    ensures k < |args| ==> !Supported(args[k])
    decreases |args|
  {
    if args == [] then 0
    else if !Supported(args[0]) then 0
    else
      var k := 1 + FirstUnsupported(args[1..]);
      assert forall i :: 1 <= i < k ==> args[..k][i] == args[1..][..k - 1][i - 1];
      k
  }

  lemma FirstUnsupportedIsLength(args: seq<Arg>)
    ensures FirstUnsupported(args) == |args| <==> AllSupported(args)
  {
    var k := FirstUnsupported(args);
    if k == |args| { assert args[..k] == args; }
  }

  /** The exception a call with an argument it does not accept throws: that of the
      first such argument. */
  function Rejection(args: seq<Arg>): (e: Error)
    requires !AllSupported(args)
    ensures e == TypeError || e == UnsupportedArg
  {
    FirstUnsupportedIsLength(args);
    ArgError(args[FirstUnsupported(args)])
  }

  /** Encoding one more supported argument appends its scalar to the scalar list and,
      for a string or ArrayBuffer, its payload to the queue. */
  lemma EncodeStep(args: seq<Arg>, i: nat)
    requires i < |args| && AllSupported(args[..i]) && Supported(args[i])
    ensures AllSupported(args[..i + 1])
    ensures WasmArgs(args[..i + 1]) == WasmArgs(args[..i]) + [Scalar(args[i])]
    ensures BufferQueue(args[..i + 1]) ==
      BufferQueue(args[..i]) + (if Queued(args[i]) then [Payload(args[i])] else [])
  {
    assert args[..i + 1][..i] == args[..i];
    assert forall k :: 0 <= k < i ==> args[..i + 1][k] == args[..i][k];
  }

  /** Every queue of a prefix of the arguments is a prefix of the full queue. */
  lemma {:induction false} BufferQueuePrefix(args: seq<Arg>, j: nat)
    requires j <= |args|
    ensures BufferQueue(args[..j]) <= BufferQueue(args)
    decreases |args| - j
  {
    if j < |args| {
      var n := |args|;
      assert args[..n - 1][..j] == args[..j];
      BufferQueuePrefix(args[..n - 1], j);
      assert args[..n][..n - 1] == args[..n - 1];
      assert args[..n] == args;
    } else {
      assert args[..j] == args;
    }
  }

  /** Queue order is argument order: the k-th queued buffer belongs to the k-th string
      or ArrayBuffer argument, and the scalar that argument was replaced by is exactly
      the byte length of the buffer the callee will pull for it. */
  lemma QueueMatchesArguments(args: seq<Arg>, i: nat)
    requires i < |args| && Queued(args[i])
    ensures |BufferQueue(args[..i])| < |BufferQueue(args)|
    ensures BufferQueue(args)[|BufferQueue(args[..i])|] == Payload(args[i])
    ensures AllSupported(args) ==> WasmArgs(args)[i] == |BufferQueue(args)[|BufferQueue(args[..i])|]| as real
  {
    BufferQueuePrefix(args, i + 1);
    assert args[..i + 1][..i] == args[..i];
    assert BufferQueue(args[..i + 1]) == BufferQueue(args[..i]) + [Payload(args[i])];
  }

  /** Only string and ArrayBuffer arguments are queued: one queue entry per such argument. */
  lemma {:induction false} BufferQueueLength(args: seq<Arg>)
    ensures |BufferQueue(args)| == |set i | 0 <= i < |args| && Queued(args[i])|
    decreases |args|
  {
    if args != [] {
      var n := |args|;
      var pre := args[..n - 1];
      BufferQueueLength(pre);
      var before := set i | 0 <= i < |pre| && Queued(pre[i]);
      assert before == set i | 0 <= i < n - 1 && Queued(args[i]) by {
        assert forall i :: 0 <= i < |pre| ==> pre[i] == args[i];
      }
      var all := set i | 0 <= i < n && Queued(args[i]);
      if Queued(args[n - 1]) {
        assert all == before + {n - 1};
      } else {
        assert all == before;
      }
    }
  }

  // ---------------------------------------------------------------------------
  // What the callee does while a call is pending
  // ---------------------------------------------------------------------------

  /** One thing the sandboxed callee does while the marshaled call runs: an import
      call into the host, or a store of its own into its linear memory. */
  datatype CalleeStep =
    | FillDataBuffer(ptr: int, len: int)
    | AddReturnValueFloat(x: real)
    | AddReturnValueInt(v: int)
    | AddReturnValueBuf(ptr: int, len: int)
    | Store(ptr: int, bytes: Bytes)

  /** The import calls that push a result. */
  predicate IsPush(c: CalleeStep)
  {
    c.AddReturnValueFloat? || c.AddReturnValueInt? || c.AddReturnValueBuf?
  }

  datatype CalleeEnd = Return(x: real) | Trap

  /** What the callee does when invoked: its host calls and stores in order, then how it ends. */
  datatype CalleeRun = CalleeRun(calls: seq<CalleeStep>, end: CalleeEnd)

  /** The sandbox memory and the pending call's two lists, while a call is pending. */
  datatype CallState = CallState(memory: Bytes, queue: seq<Bytes>, pushed: seq<Value>)

  /** A queue head of `head` can be copied into the window `[ptr, ptr + len)`. */
  predicate HeadFits(memorySize: nat, ptr: int, len: int, head: Bytes)
  {
    |head| <= len && WindowFits(memorySize, ptr, len)
  }

  /** The effect of one step of the callee on a pending call. A store outside memory
      traps, as WebAssembly's bounds check does. */
  function Step(s: CallState, c: CalleeStep): (r: Result<CallState>)
    ensures r.Ok? ==> |r.value.memory| == |s.memory|
    ensures r.Ok? && IsPush(c) ==> r.value.memory == s.memory && r.value.queue == s.queue
    ensures r.Ok? && !IsPush(c) ==> r.value.pushed == s.pushed
    ensures r.Throw? <==>
      (c.AddReturnValueBuf? && !WindowFits(|s.memory|, c.ptr, c.len)) ||
      (c.Store? && !WindowFits(|s.memory|, c.ptr, |c.bytes|))
    ensures r.Throw? ==> r.error == (if c.Store? then WasmTrap else RangeError)
  {
    match c
    case FillDataBuffer(ptr, len) =>
      if s.queue == [] then Ok(s)
      else if HeadFits(|s.memory|, ptr, len, s.queue[0]) then
        Ok(CallState(Spliced(s.memory, ptr, s.queue[0]), s.queue[1..], s.pushed))
      else Ok(s.(queue := s.queue[1..]))
    case AddReturnValueFloat(x) => Ok(s.(pushed := s.pushed + [Num(x)]))
    case AddReturnValueInt(v) => Ok(s.(pushed := s.pushed + [Num(v as real)]))
    case AddReturnValueBuf(ptr, len) =>
      if WindowFits(|s.memory|, ptr, len) then
        Ok(s.(pushed := s.pushed + [Buf(s.memory[ptr..ptr + len])]))
      else Throw(RangeError)
    case Store(ptr, bytes) =>
      if WindowFits(|s.memory|, ptr, |bytes|) then Ok(s.(memory := Spliced(s.memory, ptr, bytes)))
      else Throw(WasmTrap)
  }

  /** The state after a run of callee steps, and the exception that cut it short, if any. */
  datatype RunOutcome = RunOutcome(state: CallState, error: Option<Error>)

  /** The steps in order from `s`; a step that throws ends the run in the state before it.
      Memory never changes size, and the only exceptions are a RangeError from
      `addReturnValueBuf` and a trap from a store. */
  function Run(s: CallState, calls: seq<CalleeStep>): (r: RunOutcome)
    ensures |r.state.memory| == |s.memory|
    ensures r.error.Some? ==> r.error.value == RangeError || r.error.value == WasmTrap
    decreases |calls|
  {
    if calls == [] then RunOutcome(s, None)
    else match Step(s, calls[0])
      case Throw(e) => RunOutcome(s, Some(e))
      case Ok(s') => Run(s', calls[1..])
  }

  function Fills(calls: seq<CalleeStep>): nat
  {
    if calls == [] then 0
    else (if calls[0].FillDataBuffer? then 1 else 0) + Fills(calls[1..])
  }

  function Pushes(calls: seq<CalleeStep>): nat
  {
    if calls == [] then 0
    else (if IsPush(calls[0]) then 1 else 0) + Pushes(calls[1..])
  }

  /** Buffers are pulled first-in first-out: every fill removes the queue head, whether
      the copy succeeds or not, so a run that completes leaves the queue minus as many
      leading buffers as it made fills. */
  lemma {:induction false} RunPullsFifo(s: CallState, calls: seq<CalleeStep>)
    requires Run(s, calls).error.None?
    ensures var q := Run(s, calls).state.queue;
      q == s.queue[if Fills(calls) < |s.queue| then Fills(calls) else |s.queue|..]
    decreases |calls|
  {
    if calls != [] {
      var s' := Step(s, calls[0]).value;
      RunPullsFifo(s', calls[1..]);
      if calls[0].FillDataBuffer? && s.queue != [] {
        assert s'.queue == s.queue[1..];
      }
    }
  }

  /** Pushed results are only ever appended: a completed run keeps every earlier value
      in place and adds exactly one value per push call. */
  lemma {:induction false} RunAppendsResults(s: CallState, calls: seq<CalleeStep>)
    requires Run(s, calls).error.None?
    ensures var p := Run(s, calls).state.pushed;
      |p| == |s.pushed| + Pushes(calls) && p[..|s.pushed|] == s.pushed
    decreases |calls|
  {
    if calls != [] {
      var s' := Step(s, calls[0]).value;
      RunAppendsResults(s', calls[1..]);
      var p := Run(s, calls).state.pushed;
      assert p[..|s'.pushed|][..|s.pushed|] == p[..|s.pushed|];
    }
  }

  /** The values a run of push calls appends when memory does not change under it. */
  function PushedValues(memory: Bytes, calls: seq<CalleeStep>): seq<Value>
    requires forall i :: 0 <= i < |calls| ==> IsPush(calls[i])
    requires forall i :: 0 <= i < |calls| && calls[i].AddReturnValueBuf? ==>
      WindowFits(|memory|, calls[i].ptr, calls[i].len)
  {
    seq(|calls|, i requires 0 <= i < |calls| => PushedValue(memory, calls[i]))
  }

  /** The value one push call appends. */
  function PushedValue(memory: Bytes, c: CalleeStep): Value
    requires IsPush(c)
    requires c.AddReturnValueBuf? ==> WindowFits(|memory|, c.ptr, c.len)
  {
    match c
    case AddReturnValueFloat(x) => Num(x)
    case AddReturnValueInt(v) => Num(v as real)
    case AddReturnValueBuf(ptr, len) => Buf(memory[ptr..ptr + len])
  }

  /** A callee that only pushes results gets them back in push order, each float or
      int unchanged and each buffer byte for byte the memory window it named. */
  lemma {:induction false} RunPushesInOrder(s: CallState, calls: seq<CalleeStep>)
    requires forall i :: 0 <= i < |calls| ==> IsPush(calls[i])
    requires forall i :: 0 <= i < |calls| && calls[i].AddReturnValueBuf? ==>
      WindowFits(|s.memory|, calls[i].ptr, calls[i].len)
    ensures Run(s, calls).error.None?
    ensures Run(s, calls).state == s.(pushed := s.pushed + PushedValues(s.memory, calls))
    decreases |calls|
  {
    if calls != [] {
      var s' := Step(s, calls[0]).value;
      RunPushesInOrder(s', calls[1..]);
      assert PushedValues(s.memory, calls) == [PushedValues(s.memory, calls)[0]] + PushedValues(s.memory, calls[1..]);
    }
  }

  /** What `callWasmFunction` returns when it starts with no call pending, on the
      memory `memory`, for a callee behaving as `callee` on its scalar arguments. */
  function CallOutcome(memory: Bytes, callee: seq<real> -> CalleeRun, args: seq<Arg>): (r: Result<seq<Value>>)
    ensures !AllSupported(args) ==> r.Throw? && (r.error == UnsupportedArg || r.error == TypeError)
    ensures r.Ok? ==> AllSupported(args) && |r.value| >= 1 && r.value[0].Num?
  {
    if !AllSupported(args) then Throw(Rejection(args))
    else
      var run := callee(WasmArgs(args));
      var out := Run(CallState(memory, BufferQueue(args), []), run.calls);
      if out.error.Some? then Throw(out.error.value)
      else if run.end.Trap? then Throw(WasmTrap)
      else if out.state.queue != [] then Throw(UnusedBufferArgs(|out.state.queue|))
      else Ok([Num(run.end.x)] + out.state.pushed)
  }

  /** A successful call returns the callee's primary result first and then one value per
      push, so its list is never empty; it succeeds only if the callee made at least as
      many fills as there were string and ArrayBuffer arguments. */
  lemma CallResultShape(memory: Bytes, callee: seq<real> -> CalleeRun, args: seq<Arg>)
    requires CallOutcome(memory, callee, args).Ok?
    ensures AllSupported(args)
    ensures var vs := CallOutcome(memory, callee, args).value;
      var run := callee(WasmArgs(args));
      |vs| == 1 + Pushes(run.calls) && run.end.Return? && vs[0] == Num(run.end.x)
    ensures Fills(callee(WasmArgs(args)).calls) >= |BufferQueue(args)|
  {
    var run := callee(WasmArgs(args));
    var s := CallState(memory, BufferQueue(args), []);
    RunAppendsResults(s, run.calls);
    RunPullsFifo(s, run.calls);
  }
}
