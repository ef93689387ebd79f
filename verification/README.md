# The WebAssembly host bridge, modelled in Dafny

This project models the browser-side bridge that lets a sandboxed WebAssembly module talk to the page. It covers three pieces.

- **The call-marshaling protocol** (`src/app/static/js/wasm_worker.js`).
  - A marshaled call replaces each number argument by itself and each string or `ArrayBuffer` argument by its byte length. The bytes go on a buffer queue.
  - While the call runs, the sandboxed callee pulls the buffers first-in first-out with `fillDataBuffer`. It pushes extra results with `addReturnValueFloat`, `addReturnValueInt` and `addReturnValueBuf`.
  - The call returns `[primary, ...pushed]`, or throws if a buffer was left unread.
  - The file also holds:
    - the byte-window writers `writeCharStr` and `writeArrayBuffer`;
    - `patchWasmModuleImports`, which gives every missing `env` function import a throwing stub;
    - the worker's `onmessage` handler.
- **The handle tables and host shims** (`src/app/static/js/wasm.js`).
  - Eight append-only tables turn WebGL objects into integer handles.
  - The `glCreate*`, `glBind*`, `glDeleteTexture` and `glGetUniformLocation` overrides, plus `compileShader`, `linkShaderProgram`, `createTexture`, `createTextureWithData` and `loadFontDataJs`, grow or read those tables.
  - `fillGlFunctions` fills the `env` object. It adds one `gl`-prefixed forwarder per context function, then installs the hand-written overrides.
  - Pure decisions: the `.layer` texture header, the texture response handling, the HTTP method mapping and the font-worker round trip.
- **Ordered image-sequence loading** (`src/app/static/js/common.js`).
  - `loadImagesInternal` walks image sequences in order, skipping those already flagged. It flags and reports each sequence whose images are all cached and complete, and stops at the first one that is not.
  - `px` formats a pixel length.

The project has six modules:

| module | what it holds |
|---|---|
| `JsValues` | bytes, JS strings as UTF-16 code units, the UTF-8 encoding of a `TextEncoder`, and exceptions as the `Throw` case of a `Result` |
| `Imports` | the mutable `env` import object and the import descriptors of a module |
| `MarshalSpec` | the marshaling protocol as values: the argument encoding, the effect `Step` of one host call or store of the callee, a run of them `Run`, and the whole call `CallOutcome` |
| `WasmWorker` | the class `Marshaler` (one sandbox memory plus the two pending lists), proved against `MarshalSpec`; import patching; the worker's message handler |
| `WasmHost` | the class `GlBridge` (the eight tables) and the pure decisions of `wasm.js` |
| `CommonJs` | `Px`, and the class `ImageLoader` with its specification function `ScanFrom` |

Inputs the code gets from the browser become parameters:

- The WebGL context is an opaque object source. A shim that creates an object takes the object `gl.createX()` returned (or `GlNull`) as a parameter. Compile and link status are parameters too.
- The sandboxed callee is a fixed script, `CalleeRun`: its host calls and its own stores into memory, in order, then a return value or a trap.
- "Image complete" is the boolean stored against each source in the image cache.
- The image cache is a plain object. It is modelled by its own entries plus the names it inherits from `Object.prototype`, which the `in` operator also sees.

## Model

| member | source | states |
|---|---|---|
| `WasmWorker.Marshaler.constructor` | src/app/static/js/wasm_worker.js:1-5 | A fresh instance has memory equal to the module's initial memory and no call pending (both lists null). |
| `WasmWorker.Marshaler.WriteCharStr` | src/app/static/js/wasm_worker.js:23-33 | A string longer than `len` gives 0 and leaves memory alone. A window outside memory throws a RangeError. Otherwise the low byte of each code unit is written from `ptr`, the rest of memory is unchanged, and the string length is returned. |
| `WasmWorker.WriteCharStrAsciiIsUtf8` | src/app/static/js/wasm_worker.js:23-33 | For ASCII text the bytes `writeCharStr` writes are exactly what a `TextEncoder` produces. |
| `WasmWorker.Marshaler.WriteArrayBuffer` | src/app/static/js/wasm_worker.js:35-45 | A buffer longer than `len` throws the length mismatch. A bad window throws a RangeError. It succeeds exactly when the buffer fits. On success the buffer is copied at `ptr`; on a throw memory is unchanged. |
| `WasmWorker.Marshaler.FillDataBuffer` | src/app/static/js/wasm_worker.js:47-60 | With no call pending it throws a TypeError. An empty queue gives 0. Otherwise it always removes the head. It returns 1 and copies the head at `ptr` exactly when the head fits the window; else it returns 0 with memory unchanged. |
| `WasmWorker.Marshaler.AddReturnValueFloat` | src/app/static/js/wasm_worker.js:62-69 | With no call pending it returns 0 and pushes nothing. Otherwise it appends the value and returns 1. |
| `WasmWorker.Marshaler.AddReturnValueInt` | src/app/static/js/wasm_worker.js:71-78 | The same as the float variant, for an i32. |
| `WasmWorker.Marshaler.AddReturnValueBuf` | src/app/static/js/wasm_worker.js:80-90 | With no call pending it returns 0. A window outside memory throws a RangeError and pushes nothing. Otherwise it appends a copy of exactly the `len` bytes at `ptr` and returns 1. |
| `WasmWorker.Marshaler.BeginCall` | src/app/static/js/wasm_worker.js:93-120 | The non-reentrancy guard: a pending buffer list or a pending result list throws and changes nothing. From idle, all-supported arguments give the scalar list `WasmArgs` and the queue `BufferQueue`. Otherwise the first argument it does not accept throws `Rejection`: a TypeError for `null`, an object without a prototype or a Symbol, the unsupported-type error for anything else. The lists are left set to the queue of the arguments before it. |
| `WasmWorker.Marshaler.RunCallee` | src/app/static/js/wasm_worker.js:47-122 | The callee's host calls and its own stores change the pending state and memory exactly as the specification `Run` says. An exception from a host call, a store outside memory, or a trap is what the call throws. |
| `WasmWorker.Marshaler.EndCall` | src/app/static/js/wasm_worker.js:124-132 | Both lists are reset to null before the unused-buffer check. Leftover buffers throw with their count; otherwise the result is the primary value followed by the pushed values in push order. |
| `WasmWorker.Marshaler.CallWasmFunction` | src/app/static/js/wasm_worker.js:92-133 | A call started while another is pending throws and changes nothing. From idle the result equals `CallOutcome`. A rejected argument leaves memory unchanged. Otherwise memory is what the callee's steps produced, and the protocol is idle afterwards exactly when the callee returned without an exception; if not, the lists hold the queue and results the run had left. |
| `WasmWorker.Marshaler.CallWasmFunctionGuarded` | src/app/static/js/wasm_worker.js:92-133 | The corrected call: the same guard, the same result `CallOutcome` and the same memory, and the protocol is idle again after every call that started idle. |
| `WasmWorker.UnsupportedArgumentBlocksLaterCalls` | src/app/static/js/wasm_worker.js:100-118 | As written, a call with an unsupported argument throws, and a following call with no arguments is then refused by the guard. |
| `WasmWorker.GuardedCallsStayIndependent` | src/app/static/js/wasm_worker.js:100-132 | With the lists reset on every exit, the same second call runs and returns its callee's result. |
| `MarshalSpec.WasmArgs` | src/app/static/js/wasm_worker.js:103-120 | The callee receives exactly one scalar per argument. |
| `MarshalSpec.FirstUnsupported` | src/app/static/js/wasm_worker.js:114-118 | The index where the argument loop throws: every argument before it is supported, and the argument at it is not. |
| `MarshalSpec.FirstUnsupportedIsLength` | src/app/static/js/wasm_worker.js:103-120 | The loop runs to the end exactly when every argument is supported. |
| `MarshalSpec.Rejection` | src/app/static/js/wasm_worker.js:104-119 | A call with an argument it does not accept throws a TypeError or the unsupported-type error, the one of the first such argument. |
| `MarshalSpec.BufferQueue` | src/app/static/js/wasm_worker.js:103-120 | The queue holds at most one buffer per argument. |
| `MarshalSpec.BufferQueuePrefix` | src/app/static/js/wasm_worker.js:103-120 | The queue built from a prefix of the arguments is a prefix of the full queue. |
| `MarshalSpec.QueueMatchesArguments` | src/app/static/js/wasm_worker.js:103-120 | Queue order is argument order. The buffer at a queued argument's position is its payload (UTF-8 bytes or the ArrayBuffer). The scalar the callee gets for it is that buffer's byte length. |
| `MarshalSpec.BufferQueueLength` | src/app/static/js/wasm_worker.js:103-120 | The queue holds exactly one buffer per string or ArrayBuffer argument. |
| `MarshalSpec.Step` | src/app/static/js/wasm_worker.js:47-90 | One step of the callee keeps the memory size. A push changes neither memory nor queue, and only a push adds a result. It throws exactly for `addReturnValueBuf` on a window outside memory (a RangeError) and for a store outside memory (a trap). |
| `MarshalSpec.Run` | src/app/static/js/wasm_worker.js:47-122 | A run keeps the memory size, and ends early only with a RangeError or a trap. |
| `MarshalSpec.RunPullsFifo` | src/app/static/js/wasm_worker.js:47-60 | Buffers are pulled first-in first-out: a completed run leaves the queue minus as many leading buffers as it made fills. |
| `MarshalSpec.RunAppendsResults` | src/app/static/js/wasm_worker.js:62-90 | Pushed results are only appended: earlier values stay in place, and each push call adds exactly one value. |
| `MarshalSpec.RunPushesInOrder` | src/app/static/js/wasm_worker.js:62-90 | A callee that only pushes gets its values back in push order, with memory and queue unchanged. Floats and ints are unchanged; each buffer is the memory window it named. |
| `MarshalSpec.CallOutcome` | src/app/static/js/wasm_worker.js:92-133 | A call with an argument it does not accept throws the unsupported-type error or a TypeError. A successful call had only supported arguments, and its list starts with the primary number. |
| `MarshalSpec.CallResultShape` | src/app/static/js/wasm_worker.js:122-132 | A successful call had supported arguments and a returning callee. Its list is the primary value followed by one value per push, so it has at least one element. The callee made at least as many fills as there were queued buffers. |
| `JsValues.Utf8EncodeLength` | src/app/static/js/wasm_worker.js:109-113 | The UTF-8 length of a string lies between its `length` and three times it. |
| `JsValues.Utf8EncodeAscii` | src/app/static/js/wasm_worker.js:109-113 | ASCII text encodes to its own code units. |
| `WasmWorker.PatchWasmModuleImports` | src/app/static/js/wasm_worker.js:135-149 | `env` afterwards is `Patched`: the imports applied in order, each function import of "env" that `name in env` misses getting a stub. |
| `WasmWorker.Patched` | src/app/static/js/wasm_worker.js:138-148 | Patching only adds names to `env`. |
| `WasmWorker.PatchKeepsEntries` | src/app/static/js/wasm_worker.js:135-149 | No existing `env` entry is replaced or removed. |
| `WasmWorker.PatchAddsOnlyStubs` | src/app/static/js/wasm_worker.js:135-149 | Every added entry is a stub under its own name. Its name is never inherited from `Object.prototype`, and it belongs to a function import of "env"; other imports add nothing. |
| `WasmWorker.PatchResolvesEnvFunctions` | src/app/static/js/wasm_worker.js:135-149 | After patching, every function import of "env" is present in `env`. |
| `WasmWorker.OnMessage` | src/app/static/js/wasm_worker.js:153-182 | Fewer than two elements gives no reply. Otherwise the module is instantiated with the patched worker imports, the named export is called through the protocol, and its result list is posted back, as `WorkerResponse` defines. |
| `WasmWorker.WorkerResponse` | src/app/static/js/wasm_worker.js:153-182 | The worker replies only to a module it can instantiate, and every reply is a non-empty list. |
| `WasmWorker.WorkerInstantiatesEnvModules` | src/app/static/js/wasm_worker.js:135-182 | A module whose imports are all "env" functions instantiates in the worker exactly when none of them is named `__proto__`: that name counts as present, so it gets no stub, and `Object.prototype` is not callable. Every reply the worker posts is a non-empty list. |
| `WasmHost.ResolveAppended` | src/app/static/js/wasm.js:135-142 | Appending to a table never changes what an existing handle resolves to, and the i-th appended object gets handle `length + i`. |
| `WasmHost.GlBridge.constructor` | src/app/static/js/wasm.js:135-142 | All eight tables start empty. |
| `WasmHost.GlBridge.Push` | src/app/static/js/wasm.js:383-386 | Appends to one table, returns `length - 1` of the new table, which resolves to the object, and leaves the other seven tables unchanged. |
| `WasmHost.GlBridge.GlCreateBuffer` | src/app/static/js/wasm.js:383-386 | Appends the new buffer to the buffer table, returns its index, and leaves the other tables unchanged. |
| `WasmHost.GlBridge.GlCreateFramebuffer` | src/app/static/js/wasm.js:400-403 | The same for framebuffers. |
| `WasmHost.GlBridge.GlCreateRenderbuffer` | src/app/static/js/wasm.js:414-417 | The same for renderbuffers. |
| `WasmHost.GlBridge.GlCreateTexture` | src/app/static/js/wasm.js:422-425 | The same for textures. |
| `WasmHost.GlBridge.GlCreateVertexArray` | src/app/static/js/wasm.js:469-472 | The same for vertex arrays. |
| `WasmHost.GlBridge.GlBindBuffer` | src/app/static/js/wasm.js:387-389 | Binds the object at the handle, or null for a handle outside the table. |
| `WasmHost.GlBridge.GlBindFramebuffer` | src/app/static/js/wasm.js:404-406 | The same for framebuffers. |
| `WasmHost.GlBridge.GlBindRenderbuffer` | src/app/static/js/wasm.js:418-420 | The same for renderbuffers. |
| `WasmHost.GlBridge.GlBindTexture` | src/app/static/js/wasm.js:426-428 | The same for textures. |
| `WasmHost.GlBridge.GlBindVertexArray` | src/app/static/js/wasm.js:473-475 | The same for vertex arrays. |
| `WasmHost.GlBridge.GlDeleteTexture` | src/app/static/js/wasm.js:429-431 | Deletes the object at the handle (null outside the table). It modifies no table, so handles stay stable and are never reused. |
| `WasmHost.GlBridge.GlGetUniformLocation` | src/app/static/js/wasm.js:440-448 | A bad name window throws a RangeError. A handle to no program throws a TypeError. A null location gives -1 and appends nothing. Otherwise the location is appended and its index returned. Other tables are unchanged. |
| `WasmHost.GlBridge.CompileShader` | src/app/static/js/wasm.js:144-155 | Succeeds exactly when the source window is valid, a shader was created and it compiled. A compile failure throws. On success exactly one shader is appended and its index returned; on any throw the table is unchanged. |
| `WasmHost.GlBridge.LinkShaderProgram` | src/app/static/js/wasm.js:157-168 | The same for programs: success needs a created program, two attachable shaders and a successful link. A link failure throws without appending. |
| `WasmHost.GlBridge.CreateTexture` | src/app/static/js/wasm.js:170-189 | Appends the new texture first. It returns its index exactly when `width * height * 4` is a length a `Uint8Array` accepts; otherwise it throws a RangeError with the texture still in the table. |
| `WasmHost.GlBridge.CreateTextureWithData` | src/app/static/js/wasm.js:191-217 | The texture is appended before the channel check. A channel count other than 1, 3 or 4 then throws. A bad data window throws a RangeError. Otherwise it returns the new index. |
| `WasmHost.ChannelFormat` | src/app/static/js/wasm.js:198-205 | 1 maps to LUMINANCE, 3 to RGB and 4 to RGBA, each with that many components per pixel. Any other count throws. |
| `WasmHost.GlBridge.LoadFontDataJs` | src/app/static/js/wasm.js:273-324 | A bad URL window throws before anything is appended. Otherwise the atlas texture is appended; an `atlasSize * atlasSize` a `Uint8Array` refuses then throws a RangeError, and any other size returns the new index. |
| `WasmHost.UpperChar` | src/app/static/js/wasm.js:376 | A lower-case ASCII letter becomes its upper-case form; any other character is kept. |
| `WasmHost.GlName` | src/app/static/js/wasm.js:376 | The forwarder name is "gl", then the upper-cased first character of the key, then the rest of the key. |
| `WasmHost.GlNameInjective` | src/app/static/js/wasm.js:373-381 | Two keys get the same forwarder name only if they agree after the first character and their first characters upper-case alike. |
| `WasmHost.FillGlFunctions` | src/app/static/js/wasm.js:366-476 | With a null context `env` is unchanged. Otherwise it gets one forwarder per function member under its prefixed name, in enumeration order, followed by all overrides (`Filled`). |
| `WasmHost.Filled` | src/app/static/js/wasm.js:366-476 | A null context leaves `env` as it was. Otherwise every override is installed under its name, over anything the generic loop wrote there. |
| `WasmHost.ForwardedEntries` | src/app/static/js/wasm.js:373-381 | The generic loop only writes prefixed names of function members, each bound to a forwarder for such a member. It adds every one of them and keeps every other entry. |
| `WasmHost.OverrideNamesPrefixed` | src/app/static/js/wasm.js:383-475 | Every override name begins with "gl". |
| `WasmHost.FillGlFunctionsEntries` | src/app/static/js/wasm.js:373-475 | After filling, every override is the hand-written shim, even over a generic entry of the same name. Every other context function is reachable through a forwarder. Names that do not start with "gl" are untouched. |
| `WasmHost.HostEnvUnprefixed` | src/app/static/js/wasm.js:331-364 | None of the host's own `env` names begins with "gl". |
| `WasmHost.HostEnvSurvivesFill` | src/app/static/js/wasm.js:331-381 | All of the host's own entries survive `fillGlFunctions`, with or without a context. |
| `WasmHost.BigEndianU32` | src/app/static/js/wasm.js:248-251 | A four-byte big-endian read is below 2^32. |
| `WasmHost.U32Bytes` | src/app/static/js/wasm.js:248-251 | The big-endian encoding of a u32 is four bytes. |
| `WasmHost.U32RoundTrip` | src/app/static/js/wasm.js:248-251 | Reading back the big-endian bytes of a u32 gives the value. |
| `WasmHost.U32BytesOf` | src/app/static/js/wasm.js:248-251 | Encoding a value read from four bytes gives those bytes back. |
| `WasmHost.ParseLayer` | src/app/static/js/wasm.js:246-253 | The header parses exactly when the payload has at least 16 bytes (else a RangeError, as a `DataView` read past the end throws). The four fields are u32s, and the image is the payload from byte 16. |
| `WasmHost.EncodeLayer` | src/app/static/js/wasm.js:246-253 | A header and image lay out as 16 header bytes followed by the image. |
| `WasmHost.ParseEncodeLayer` | src/app/static/js/wasm.js:246-253 | Parsing an encoded header and image gives them back. |
| `WasmHost.EncodeParseLayer` | src/app/static/js/wasm.js:246-253 | Re-encoding a parsed payload gives the payload back. |
| `WasmHost.TextureResponse` | src/app/static/js/wasm.js:239-254 | A non-200 status reports size 0 and a zero header. For a `.layer` URL the header is read from the first 16 bytes and the image is the rest (too short throws). Any other URL decodes the whole payload with a zero header. |
| `WasmHost.MethodName` | src/app/static/js/wasm.js:110-115 | Method code 1 maps to GET and 2 to POST; every other code has no method. |
| `WasmHost.HttpRequestWasm` | src/app/static/js/wasm.js:109-133 | The handler as written. A request is planned exactly for codes 1 and 2, with the given URI and body, and a header only when its name is non-empty. Any other code throws a ReferenceError. |
| `WasmHost.UnknownMethodThrows` | src/app/static/js/wasm.js:116-122 | As written, an unknown method code throws instead of reaching `onHttp`. |
| `WasmHost.HttpRequestWasmFixed` | src/app/static/js/wasm.js:109-133 | The corrected handler sends exactly for codes 1 and 2, the same request as the handler as written. |
| `WasmHost.UnknownMethodReported` | src/app/static/js/wasm.js:116-120 | Corrected, an unknown code is reported to `onHttp` with arguments the protocol accepts, the URI queued before the empty body. |
| `WasmHost.FontWorkerMessageAccepted` | src/app/static/js/wasm.js:302 | The font message passes the worker's argument-count check and names `loadFontData`. All its arguments are accepted, the font file is the only queued buffer, and the callee receives atlas size, font length, font size and scale. |
| `WasmHost.UnpackFontReply` | src/app/static/js/wasm.js:303-321 | The reply is ignored exactly when its first element is not 1. Otherwise a second element that is a number truncating to a negative or too large length throws a RangeError before `onLoadedFont` is called. Else the atlas is the second element, and `onLoadedFont` gets `_memoryPtr`, the id and the third element; that call is accepted exactly when the reply has a third element. |
| `CommonJs.DigitChar` | src/app/static/js/common.js:1-4 | The character of a decimal digit. |
| `CommonJs.NatToDecimal` | src/app/static/js/common.js:1-4 | A natural number's decimal text is non-empty digits with no leading zero. |
| `CommonJs.DecimalRoundTrip` | src/app/static/js/common.js:1-4 | The decimal text of a natural number reads back as that number. |
| `CommonJs.ParseNegative` | src/app/static/js/common.js:1-4 | "-" followed by the decimal text of `m` parses as `-m`. |
| `CommonJs.ParseNatural` | src/app/static/js/common.js:1-4 | The decimal text of `m` parses as `m`. |
| `CommonJs.IntRoundTrip` | src/app/static/js/common.js:1-4 | The decimal text of any integer parses back to it. |
| `CommonJs.Px` | src/app/static/js/common.js:1-4 | The text ends in "px", and what precedes it is the decimal text of `n`. |
| `CommonJs.CheckFromComplete` | src/app/static/js/common.js:72-80 | The completion check from image `j` succeeds exactly when every later image is cached and complete. |
| `CommonJs.CheckFrom` | src/app/static/js/common.js:74-80 | The check over the remaining images never reports the first image as unrequested, and reports a missing image only when one of them was never requested. |
| `CommonJs.Status` | src/app/static/js/common.js:72-80 | A sequence is unrequested exactly when its first key fails `in`, and reports a missing image only when one of its images was never requested. |
| `CommonJs.StatusComplete` | src/app/static/js/common.js:72-80 | A sequence counts as loaded exactly when its first key is present and every image is cached and complete. |
| `CommonJs.InsertedEntries` | src/app/static/js/common.js:81-90 | Requesting a sequence's images leaves each of its sources cached and not complete. It keeps every other entry and adds nothing else. |
| `CommonJs.Inserted` | src/app/static/js/common.js:81-90 | Requesting a sequence's images never removes a cache entry. |
| `CommonJs.ScanFrom` | src/app/static/js/common.js:64-99 | A pass leaves one flag per sequence. |
| `CommonJs.Range` | src/app/static/js/common.js:92-97 | The consecutive indices `p .. q-1`. |
| `CommonJs.ScanSkipsFlagged` | src/app/static/js/common.js:67-69 | Flagged sequences are passed over without looking at the cache. |
| `CommonJs.ScanFromStepStop` | src/app/static/js/common.js:72-90 | A pass that reaches an unflagged sequence that is not complete inserts all its sources, not complete, when its first source was never requested. It throws a TypeError when a later source was never requested. |
| `CommonJs.ScanFromReports` | src/app/static/js/common.js:67-97 | From flags marking a prefix `p`, a pass reports `p, p+1, …` in index order and flags exactly those, so the flags again mark a prefix. |
| `CommonJs.ScanFromCompletes` | src/app/static/js/common.js:72-97 | Every sequence a pass reports was complete in the cache it started with, and the one it stops at is not. |
| `CommonJs.ScanFromPrefix` | src/app/static/js/common.js:64-99 | The two lemmas above together: from prefix flags, a pass reports and flags the next complete sequences in order, and stops at the first incomplete one. |
| `CommonJs.ScanFromStop` | src/app/static/js/common.js:72-90 | Where a pass from prefix flags stops: the cache changes exactly when that sequence's first image was never requested, and then by inserting all its sources. The pass throws exactly when a later image of it was never requested. |
| `CommonJs.ScanReportsRange` | src/app/static/js/common.js:64-99 | A whole pass from prefix flags reports consecutive indices starting at the first unflagged one and leaves prefix flags. |
| `CommonJs.ScansContinue` | src/app/static/js/common.js:67-97 | Two passes in a row never report an index twice: the second continues where the first stopped. |
| `CommonJs.ImageLoader.constructor` | src/app/static/js/common.js:62 | The image cache starts with no entries of its own and inherits the names of `Object.prototype`. |
| `CommonJs.ImageLoader.LoadImagesInternal` | src/app/static/js/common.js:64-99 | The new cache, the flags array in place, the reported indices and the error are exactly those of `ScanFrom` on the old cache and flags. |
| `CommonJs.ImageLoader.LoadImages` | src/app/static/js/common.js:102-109 | Starts with a fresh array of one false flag per sequence and runs the first pass on it. |
| `CommonJs.ImageLoader.OnLoad` | src/app/static/js/common.js:85-87 | An image's load marks its source complete in the cache, then rescans with the caller's flags. |
| `CommonJs.FirstPassReportsPrefix` | src/app/static/js/common.js:102-109 | The first pass reports sequences 0, 1, … in order, each complete, up to the first one that is not. |

## Left out

- `readCharStr`, `readUint8Array`, `readUtf8String` and `TextDecoder`: the shims take the decoded text or bytes as inputs. Their window checks are modelled where they decide whether a table changes or what a shim throws: before the append in `GlGetUniformLocation`, `CompileShader` and `LoadFontDataJs`, and after it in `CreateTextureWithData`.
- `wasm.js` imports `httpRequest`, `getWasmInstance`, `wasmBytes` and other helpers from `common.js` and `wasm_worker.js`, and the revisions of those files modelled here do not export them. The model assumes those imports resolve to functions that behave as their names say.
- `consoleMessage` and every `console.error`: logging only.
- The callee of a marshaled call is a fixed script of host calls and stores, so it cannot branch on what `fillDataBuffer` returns. A callee that reacts to those results is not modelled.
- RunCallee: `memory.grow` is not modelled. The sandbox memory keeps its initial size for the whole call, so a callee that grows its memory and then fills or pushes beyond the old end is not covered.
- CreateTexture, LoadFontDataJs and UnpackFontReply: a `Uint8Array` length that `ToIndex` accepts but the engine cannot allocate also throws a RangeError. Such limits depend on the engine and are not modelled.
- Exports that return nothing or a BigInt: the primary result is always a number.
- `Px`: JavaScript's number-to-string conversion is modelled for integers only. Fractions, exponent notation, `NaN` and infinities are left out.
- `GlName`: `toUpperCase` is modelled for ASCII letters only.
- DOM event listeners, the canvas, resizing, the animation-frame loop, scroll syncing, `toDevicePx` and `toRealPx`: browser plumbing and floating-point arithmetic.
- XHR (`httpGet`, `httpPost`), `fetch`, `WebAssembly.compile`/`instantiate`, `createImageBitmap`, `FileReader` and base64, and Worker creation and posting: asynchronous I/O. Their results appear only as inputs of the pure decisions (status and payload of `TextureResponse`, the reply of `UnpackFontReply`).
- `httpRequest`, the function `httpRequestWasm` hands its plan to, is not part of this model. `HttpRequestWasm` stops at the plan and does not model the later `onHttp` callback.
- The WebGL calls themselves (`texImage2D`, `bufferData`, uniforms and so on): foreign calls on an opaque context.
- The other overrides of `fillGlFunctions` (`glUseProgram`, `glUniform*`, attribute locations and so on) only forward to the context through a table lookup. They appear as names (`OverrideNames`) bound to host shims, and their bodies are not modelled.
- Stubs installed by `patchWasmModuleImports` throw when invoked; invoking a stub is not modelled.
- `OnMessage`: a second element that is not a string is not looked up. Exports that are not functions and a failed instantiation give no reply, which is what the source's unhandled rejection amounts to.
- `ImageLoader.OnLoad`: completion is recorded against the image's source, not against the `Image` object. An image replaced in the cache by a second request is therefore not distinguished from the first.
- `callbackComplete` runs after its sequence is flagged. A callback that calls back into the loader is not modelled.
- An image source equal to `__proto__` is treated as an ordinary cache key.

## Findings

| source | as written | input that shows it | evidently intended | confidence | as-written member | corrected member |
|---|---|---|---|---|---|---|
| src/app/static/js/wasm_worker.js:100-132 | Both pending lists are set before the argument loop and reset only after the callee returns. An unsupported argument, a host call that throws, or a trap leaves them set. | `callWasmFunction(f, [undefined])` throws "Unsupported arg type", then `callWasmFunction(f, [])` throws "Bad WASM function buffer args". | The lists are reset on every exit once the guard has passed, so a failed call does not wedge later ones. | not executed | `WasmWorker.UnsupportedArgumentBlocksLaterCalls` (with `WasmWorker.Marshaler.CallWasmFunction`) | `WasmWorker.GuardedCallsStayIndependent` (with `WasmWorker.Marshaler.CallWasmFunctionGuarded`) |
| src/app/static/js/wasm.js:116-122 | The unknown-method branch reads `uri` at line 118, but `uri` is a `const` declared at line 122, so the read throws a ReferenceError and `onHttp` is never called. | `httpRequestWasm(3, …)` | `uri` is read before the method check, and the unknown method is reported to `onHttp` with an empty body. As corrected here the report passes four arguments with no status, while the success path at line 131 puts `status` before `uri`; and because the report calls back into the module at once, the protocol guard refuses it while a marshaled call is pending. | not executed | `WasmHost.UnknownMethodThrows` (with `WasmHost.HttpRequestWasm`) | `WasmHost.UnknownMethodReported` (with `WasmHost.HttpRequestWasmFixed`) |
