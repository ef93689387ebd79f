/**
 * The main-thread side of the bridge: the tables that turn WebGL objects into
 * integer handles a sandboxed module can hold, the shims that create, look up
 * and forward those objects, the `env` object filled with graphics forwarders,
 * and the pure decisions behind texture, font and HTTP loading.
 *
 * The WebGL context is an opaque object source: every call that makes a GL
 * object takes the object `gl.createX()` returned (or `GlNull`) as an input,
 * and success flags the context reports (compile and link status) likewise.
 */
module WasmHost {
  import opened JsValues
  import opened Imports
  import opened MarshalSpec
  import opened WasmWorker

  // ---------------------------------------------------------------------------
  // Handle tables
  // ---------------------------------------------------------------------------

  /** A WebGL object as the context hands it out: `null`, or an opaque object. */
  datatype GlObject = GlNull | GlRef(id: nat)

  /** The eight append-only tables, one per kind of WebGL object. */
  datatype TableKind =
    | Buffers | Framebuffers | Renderbuffers | Programs
    | Shaders | Textures | UniformLocations | VertexArrays

  /** `table[id]`; an index outside the table gives `undefined`, which WebGL's
      nullable parameters receive as `null`. */
  function Resolve(table: seq<GlObject>, id: int): GlObject
  {
    if 0 <= id < |table| then table[id] else GlNull
  }

  /** Appending never changes what an existing handle resolves to, and the i-th
      appended object is reached through handle `|table| + i`. */
  lemma ResolveAppended(table: seq<GlObject>, objs: seq<GlObject>)
    ensures forall h :: 0 <= h < |table| ==> Resolve(table + objs, h) == Resolve(table, h)
    ensures forall i :: 0 <= i < |objs| ==> Resolve(table + objs, |table| + i) == objs[i]
  {
  }

  class GlBridge {
    var buffers: seq<GlObject>
    var framebuffers: seq<GlObject>
    var renderbuffers: seq<GlObject>
    var programs: seq<GlObject>
    var shaders: seq<GlObject>
    var textures: seq<GlObject>
    var uniformLocations: seq<GlObject>
    var vertexArrays: seq<GlObject>

    /** All tables start empty. */
    constructor ()
      ensures forall k :: Table(k) == []
    {
      buffers, framebuffers, renderbuffers, programs := [], [], [], [];
      shaders, textures, uniformLocations, vertexArrays := [], [], [], [];
    }

    function Table(kind: TableKind): seq<GlObject>
      reads this
    {
      match kind
      case Buffers => buffers
      case Framebuffers => framebuffers
      case Renderbuffers => renderbuffers
      case Programs => programs
      case Shaders => shaders
      case Textures => textures
      case UniformLocations => uniformLocations
      case VertexArrays => vertexArrays
    }

    /** `_glX.push(o); return _glX.length - 1;` on the table of `kind`. */
    method Push(kind: TableKind, o: GlObject) returns (handle: int)
      modifies this
      ensures Table(kind) == old(Table(kind)) + [o]
      ensures handle == |old(Table(kind))| && Resolve(Table(kind), handle) == o
      ensures forall k :: k != kind ==> Table(k) == old(Table(k))
    {
      match kind {
        case Buffers => buffers := buffers + [o];
        case Framebuffers => framebuffers := framebuffers + [o];
        case Renderbuffers => renderbuffers := renderbuffers + [o];
        case Programs => programs := programs + [o];
        case Shaders => shaders := shaders + [o];
        case Textures => textures := textures + [o];
        case UniformLocations => uniformLocations := uniformLocations + [o];
        case VertexArrays => vertexArrays := vertexArrays + [o];
      }
      handle := |Table(kind)| - 1;
    }

    /** `env.glCreateBuffer`: stores what `gl.createBuffer()` returned. */
    method GlCreateBuffer(created: GlObject) returns (handle: int)
      modifies this
      ensures buffers == old(buffers) + [created] && handle == |old(buffers)|
      ensures forall k :: k != Buffers ==> Table(k) == old(Table(k))
    {
      handle := Push(Buffers, created);
    }

    /** `env.glCreateFramebuffer`. */
    method GlCreateFramebuffer(created: GlObject) returns (handle: int)
      modifies this
      ensures framebuffers == old(framebuffers) + [created] && handle == |old(framebuffers)|
      ensures forall k :: k != Framebuffers ==> Table(k) == old(Table(k))
    {
      handle := Push(Framebuffers, created);
    }

    /** `env.glCreateRenderbuffer`. */
    method GlCreateRenderbuffer(created: GlObject) returns (handle: int)
      modifies this
      ensures renderbuffers == old(renderbuffers) + [created] && handle == |old(renderbuffers)|
      ensures forall k :: k != Renderbuffers ==> Table(k) == old(Table(k))
    {
      handle := Push(Renderbuffers, created);
    }

    /** `env.glCreateTexture`. */
    method GlCreateTexture(created: GlObject) returns (handle: int)
      modifies this
      ensures textures == old(textures) + [created] && handle == |old(textures)|
      ensures forall k :: k != Textures ==> Table(k) == old(Table(k))
    {
      handle := Push(Textures, created);
    }

    /** `env.glCreateVertexArray`. */
    method GlCreateVertexArray(created: GlObject) returns (handle: int)
      modifies this
      ensures vertexArrays == old(vertexArrays) + [created] && handle == |old(vertexArrays)|
      ensures forall k :: k != VertexArrays ==> Table(k) == old(Table(k))
    {
      handle := Push(VertexArrays, created);
    }

    /** `env.glBindBuffer`: the object handed to `gl.bindBuffer`. */
    method GlBindBuffer(id: int) returns (bound: GlObject)
      ensures 0 <= id < |buffers| ==> bound == buffers[id]
      ensures !(0 <= id < |buffers|) ==> bound == GlNull
    {
      bound := Resolve(buffers, id);
    }

    /** `env.glBindFramebuffer`. */
    method GlBindFramebuffer(id: int) returns (bound: GlObject)
      ensures 0 <= id < |framebuffers| ==> bound == framebuffers[id]
      ensures !(0 <= id < |framebuffers|) ==> bound == GlNull
    {
      bound := Resolve(framebuffers, id);
    }

    /** `env.glBindRenderbuffer`. */
    method GlBindRenderbuffer(id: int) returns (bound: GlObject)
      ensures 0 <= id < |renderbuffers| ==> bound == renderbuffers[id]
      ensures !(0 <= id < |renderbuffers|) ==> bound == GlNull
    {
      bound := Resolve(renderbuffers, id);
    }

    /** `env.glBindTexture`. */
    method GlBindTexture(id: int) returns (bound: GlObject)
      ensures 0 <= id < |textures| ==> bound == textures[id]
      ensures !(0 <= id < |textures|) ==> bound == GlNull
    {
      bound := Resolve(textures, id);
    }

    /** `env.glBindVertexArray`. */
    method GlBindVertexArray(id: int) returns (bound: GlObject)
      ensures 0 <= id < |vertexArrays| ==> bound == vertexArrays[id]
      ensures !(0 <= id < |vertexArrays|) ==> bound == GlNull
    {
      bound := Resolve(vertexArrays, id);
    }

    /** `env.glDeleteTexture`: hands the stored texture to `gl.deleteTexture` and
        leaves the table as it is (it modifies nothing), so the handle keeps its
        slot and is never given out again. */
    method GlDeleteTexture(id: int) returns (deleted: GlObject)
      ensures 0 <= id < |textures| ==> deleted == textures[id]
      ensures !(0 <= id < |textures|) ==> deleted == GlNull
    {
      deleted := Resolve(textures, id);
    }

    /** `env.glGetUniformLocation`: reads the name from memory (RangeError on a bad
        window), asks the context for the location in the stored program (a program
        handle that resolves to nothing is a TypeError), and stores a non-null
        location; `null` gives -1 and stores nothing. */
    method GlGetUniformLocation(memorySize: nat, programId: int, namePtr: int, nameLen: int, location: GlObject)
      returns (r: Result<int>)
      modifies this
      ensures !WindowFits(memorySize, namePtr, nameLen) ==> r == Throw(RangeError)
      ensures WindowFits(memorySize, namePtr, nameLen) && Resolve(programs, programId) == GlNull ==>
        r == Throw(TypeError)
      ensures r.Ok? <==>
        WindowFits(memorySize, namePtr, nameLen) && Resolve(programs, programId) != GlNull
      ensures r.Ok? && location == GlNull ==> r.value == -1
      ensures r.Ok? && location != GlNull ==>
        uniformLocations == old(uniformLocations) + [location] && r.value == |old(uniformLocations)|
      ensures !(r.Ok? && location != GlNull) ==> uniformLocations == old(uniformLocations)
      ensures forall k :: k != UniformLocations ==> Table(k) == old(Table(k))
    {
      if !WindowFits(memorySize, namePtr, nameLen) {
        return Throw(RangeError);
      }
      if Resolve(programs, programId) == GlNull {
        return Throw(TypeError);
      }
      if location == GlNull {
        return Ok(-1);
      }
      var handle := Push(UniformLocations, location);
      assert Table(Programs) == old(Table(Programs));
      r := Ok(handle);
    }

    /** `compileShader`: reads the source (RangeError on a bad window); a `null`
        shader is rejected by `gl.shaderSource` with a TypeError; a failed compile
        throws; only a compiled shader is stored. */
    method CompileShader(memorySize: nat, sourcePtr: int, sourceLen: int, created: GlObject, compiled: bool)
      returns (r: Result<int>)
      modifies this
      ensures r.Ok? <==> WindowFits(memorySize, sourcePtr, sourceLen) && created != GlNull && compiled
      ensures WindowFits(memorySize, sourcePtr, sourceLen) && created != GlNull && !compiled ==>
        r == Throw(CompileFailed)
      ensures r.Ok? ==> shaders == old(shaders) + [created] && r.value == |old(shaders)|
      ensures r.Throw? ==> shaders == old(shaders)
      ensures forall k :: k != Shaders ==> Table(k) == old(Table(k))
    {
      if !WindowFits(memorySize, sourcePtr, sourceLen) {
        return Throw(RangeError);
      }
      if created == GlNull {
        return Throw(TypeError);
      }
      if !compiled {
        return Throw(CompileFailed);
      }
      var handle := Push(Shaders, created);
      r := Ok(handle);
    }

    /** `linkShaderProgram`: attaches the two stored shaders to a new program
        (`gl.attachShader` rejects a `null` program or shader with a TypeError);
        a failed link throws; only a linked program is stored. */
    method LinkShaderProgram(vertexShaderId: int, fragmentShaderId: int, created: GlObject, linked: bool)
      returns (r: Result<int>)
      modifies this
      ensures var attachable := created != GlNull && Resolve(shaders, vertexShaderId) != GlNull
                                && Resolve(shaders, fragmentShaderId) != GlNull;
        && (!attachable ==> r == Throw(TypeError))
        && (attachable && !linked ==> r == Throw(LinkFailed))
        && (r.Ok? <==> attachable && linked)
      ensures r.Ok? ==> programs == old(programs) + [created] && r.value == |old(programs)|
      ensures r.Throw? ==> programs == old(programs)
      ensures forall k :: k != Programs ==> Table(k) == old(Table(k))
    {
      if created == GlNull || Resolve(shaders, vertexShaderId) == GlNull || Resolve(shaders, fragmentShaderId) == GlNull {
        return Throw(TypeError);
      }
      if !linked {
        return Throw(LinkFailed);
      }
      var handle := Push(Programs, created);
      assert Table(Shaders) == old(Table(Shaders));
      r := Ok(handle);
    }

    /** `createTexture`: a new texture through `env.glCreateTexture`, then a zeroed
        RGBA pixel array of `width * height * 4` bytes for the context. The texture is
        stored first, so a size the array refuses throws with it still in the table. */
    method CreateTexture(width: int, height: int, created: GlObject) returns (r: Result<int>)
      modifies this
      ensures textures == old(textures) + [created]
      ensures r.Ok? <==> ValidLength(width * height * 4)
      ensures r.Ok? ==> r.value == |old(textures)|
      ensures r.Throw? ==> r.error == RangeError
      ensures forall k :: k != Textures ==> Table(k) == old(Table(k))
    {
      var handle := GlCreateTexture(created);
      if !ValidLength(width * height * 4) {
        return Throw(RangeError);
      }
      r := Ok(handle);
    }

    /** `createTextureWithData`: the texture is stored first, then the channel count
        is checked and the pixel window read, so a throw still leaves the new
        texture in the table. */
    method CreateTextureWithData(memorySize: nat, channels: int, dataPtr: int, dataLen: int, created: GlObject)
      returns (r: Result<int>)
      modifies this
      ensures textures == old(textures) + [created]
      ensures ChannelFormat(channels).Throw? ==> r == Throw(UnexpectedChannels)
      ensures ChannelFormat(channels).Ok? && !WindowFits(memorySize, dataPtr, dataLen) ==> r == Throw(RangeError)
      ensures r.Ok? <==> ChannelFormat(channels).Ok? && WindowFits(memorySize, dataPtr, dataLen)
      ensures r.Ok? ==> r.value == |old(textures)|
      ensures forall k :: k != Textures ==> Table(k) == old(Table(k))
    {
      var handle := GlCreateTexture(created);
      var format := ChannelFormat(channels);
      if format.Throw? {
        return Throw(format.error);
      }
      if !WindowFits(memorySize, dataPtr, dataLen) {
        return Throw(RangeError);
      }
      r := Ok(handle);
    }

    /** `loadFontDataJs`, synchronous part: reads the font URL (RangeError on a bad
        window), creates the atlas texture, then allocates its `atlasSize * atlasSize`
        zeroed bytes (RangeError on a size the array refuses, texture already stored). */
    method LoadFontDataJs(memorySize: nat, fontUrlPtr: int, fontUrlLen: int, atlasSize: int, created: GlObject)
      returns (r: Result<int>)
      modifies this
      ensures r.Ok? <==> WindowFits(memorySize, fontUrlPtr, fontUrlLen) && ValidLength(atlasSize * atlasSize)
      ensures textures == if WindowFits(memorySize, fontUrlPtr, fontUrlLen) then old(textures) + [created] else old(textures)
      ensures r.Ok? ==> r.value == |old(textures)|
      ensures r.Throw? ==> r.error == RangeError
      ensures forall k :: k != Textures ==> Table(k) == old(Table(k))
    {
      if !WindowFits(memorySize, fontUrlPtr, fontUrlLen) {
        return Throw(RangeError);
      }
      var handle := GlCreateTexture(created);
      if !ValidLength(atlasSize * atlasSize) {
        return Throw(RangeError);
      }
      r := Ok(handle);
    }
  }

  // ---------------------------------------------------------------------------
  // Texture formats
  // ---------------------------------------------------------------------------

  const LUMINANCE: int := 0x1909
  const RGB: int := 0x1907
  const RGBA: int := 0x1908

  /** Bytes per pixel of an unsigned-byte texture in the given format
      (section 3.7.1 of the OpenGL ES 2.0 specification, table 3.4). */
  function ComponentsPerPixel(format: int): nat
  {
    if format == LUMINANCE then 1
    else if format == RGB then 3
    else if format == RGBA then 4
    else 0
  }

  /** The internal format `createTextureWithData` picks for a channel count. */
  function ChannelFormat(channels: int): (r: Result<int>)
    ensures r.Ok? <==> channels == 1 || channels == 3 || channels == 4
    ensures r.Ok? ==> ComponentsPerPixel(r.value) == channels
    ensures r.Throw? ==> r.error == UnexpectedChannels
  {
    if channels == 1 then Ok(LUMINANCE)
    else if channels == 3 then Ok(RGB)
    else if channels != 4 then Throw(UnexpectedChannels)
    else Ok(RGBA)
  }

  // ---------------------------------------------------------------------------
  // fillGlFunctions
  // ---------------------------------------------------------------------------

  /** A property name of the GL context; property names are never empty. */
  type Identifier = s: string | |s| > 0 witness "a"

  /** One enumerable property of the GL context, and whether it is a function. */
  datatype GlMember = GlMember(key: Identifier, isFunction: bool)

  /** `toUpperCase` on one character of an identifier (ASCII letters only). */
  function UpperChar(c: char): (u: char)
    ensures 'a' <= c <= 'z' ==> 'A' <= u <= 'Z' && u as int == c as int - 32
    ensures !('a' <= c <= 'z') ==> u == c
  {
    if 'a' <= c <= 'z' then (c as int - 32) as char else c
  }

  /** The `env` name under which the forwarder for GL method `k` is installed. */
  function GlName(k: Identifier): (name: string)
    ensures |name| == |k| + 2 && GlPrefixed(name) && name[3..] == k[1..]
    ensures name[2] == UpperChar(k[0])
  {
    "gl" + [UpperChar(k[0])] + k[1..]
  }

  /** Two methods whose names differ only in the case of the first letter share a
      prefixed name; otherwise the derivation is injective. */
  lemma GlNameInjective(a: Identifier, b: Identifier)
    requires GlName(a) == GlName(b)
    ensures a[1..] == b[1..] && UpperChar(a[0]) == UpperChar(b[0])
  {
    assert GlName(a)[3..] == a[1..] && GlName(b)[3..] == b[1..];
    assert GlName(a)[2] == UpperChar(a[0]) && GlName(b)[2] == UpperChar(b[0]);
  }

  /** The hand-written overrides installed after the generic forwarders, by the
      part of their name after "gl". */
  const OverrideSuffixes: set<string> :=
    {"CreateBuffer", "BindBuffer", "BufferDataSize", "BufferData", "BufferSubData",
     "CreateFramebuffer", "BindFramebuffer", "FramebufferTexture2D", "FramebufferRenderbuffer",
     "CreateRenderbuffer", "BindRenderbuffer",
     "CreateTexture", "BindTexture", "DeleteTexture",
     "UseProgram", "GetAttribLocation", "GetUniformLocation",
     "Uniform1i", "Uniform1iv", "Uniform1fv", "Uniform2fv", "Uniform3fv", "Uniform4fv",
     "CreateVertexArray", "BindVertexArray"}

  const OverrideNames: set<string> := set suffix | suffix in OverrideSuffixes :: "gl" + suffix

  const Overrides: map<string, Binding> := map name | name in OverrideNames :: Host(name)

  /** The main thread's `env` before any GL forwarder is added. */
  const HostEnv: map<string, Binding> :=
    map["consoleMessage" := Host("consoleMessage"),
        "fillDataBuffer" := Host("fillDataBuffer"),
        "loadFontDataJs" := Host("loadFontDataJs"),
        "clearAllEmbeds" := Host("clearAllEmbeds"),
        "addYoutubeEmbed" := Host("addYoutubeEmbed"),
        "setCursor" := Host("setCursor"),
        "setScrollY" := Host("setScrollY"),
        "getHostLen" := Host("getHostLen"),
        "getHost" := Host("getHost"),
        "getUriLen" := Host("getUriLen"),
        "getUri" := Host("getUri"),
        "setUri" := Host("setUri"),
        "pushState" := Host("pushState"),
        "httpRequest" := Host("httpRequestWasm"),
        "compileShader" := Host("compileShader"),
        "linkShaderProgram" := Host("linkShaderProgram"),
        "createTexture" := Host("createTexture"),
        "createTextureWithData" := Host("createTextureWithData"),
        "loadTexture" := Host("loadTexture"),
        "bindNullFramebuffer" := Host("bindNullFramebuffer"),
        "addReturnValueFloat" := Host("addReturnValueFloat"),
        "addReturnValueInt" := Host("addReturnValueInt"),
        "addReturnValueBuf" := Host("addReturnValueBuf")]

  /** The entries after the generic loop over `members`, in enumeration order. */
  function Forwarded(entries: map<string, Binding>, members: seq<GlMember>): map<string, Binding>
    decreases |members|
  {
    if members == [] then entries
    else
      var m := members[|members| - 1];
      var pre := Forwarded(entries, members[..|members| - 1]);
      if m.isFunction then pre[GlName(m.key) := Forward(m.key)] else pre
  }

  /** The entries after `fillGlFunctions(env)` with context `gl` (`None` for a null
      context, which only logs an error). */
  function Filled(entries: map<string, Binding>, gl: Option<seq<GlMember>>): (f: map<string, Binding>)
    ensures gl.None? ==> f == entries
    ensures gl.Some? ==> forall n :: n in Overrides ==> n in f && f[n] == Overrides[n]
  {
    if gl.None? then entries else Forwarded(entries, gl.value) + Overrides
  }

  /** `fillGlFunctions(env)`: one forwarder per function of the context under its
      prefixed name, then the hand-written overrides. */
  method FillGlFunctions(env: Env, gl: Option<seq<GlMember>>)
    modifies env
    ensures env.entries == Filled(old(env.entries), gl)
  {
    if gl.None? {
      return;
    }
    var members := gl.value;
    var i := 0;
    while i < |members|
      invariant 0 <= i <= |members|
      invariant env.entries == Forwarded(old(env.entries), members[..i])
    {
      assert members[..i + 1][..i] == members[..i];
      var m := members[i];
      if m.isFunction {
        env.entries := env.entries[GlName(m.key) := Forward(m.key)];
      }
      i := i + 1;
    }
    assert members[..i] == members;
    env.entries := env.entries + Overrides;
  }

  /** Every name the generic loop writes is a prefixed name of a function member,
      bound to a forwarder for a member with that name; every other entry is kept. */
  lemma {:induction false} ForwardedEntries(entries: map<string, Binding>, members: seq<GlMember>)
    ensures forall n :: n in Forwarded(entries, members) ==>
      || (n in entries && Forwarded(entries, members)[n] == entries[n])
      || exists j :: 0 <= j < |members| && members[j].isFunction && GlName(members[j].key) == n
                     && Forwarded(entries, members)[n] == Forward(members[j].key)
    ensures forall j :: 0 <= j < |members| && members[j].isFunction ==>
      GlName(members[j].key) in Forwarded(entries, members) && Forwarded(entries, members)[GlName(members[j].key)].Forward?
    ensures forall n :: n in entries ==> n in Forwarded(entries, members)
    decreases |members|
  {
    if members != [] {
      var k := |members| - 1;
      var pre := members[..k];
      ForwardedEntries(entries, pre);
      forall n | n in Forwarded(entries, members)
        ensures || (n in entries && Forwarded(entries, members)[n] == entries[n])
                || exists j :: 0 <= j < |members| && members[j].isFunction && GlName(members[j].key) == n
                               && Forwarded(entries, members)[n] == Forward(members[j].key)
      {
        if members[k].isFunction && n == GlName(members[k].key) {
        } else if n in entries && Forwarded(entries, pre)[n] == entries[n] {
        } else {
          var j :| 0 <= j < |pre| && pre[j].isFunction && GlName(pre[j].key) == n
                   && Forwarded(entries, pre)[n] == Forward(pre[j].key);
          assert members[j] == pre[j];
        }
      }
      forall j | 0 <= j < |members| && members[j].isFunction
        ensures GlName(members[j].key) in Forwarded(entries, members)
             && Forwarded(entries, members)[GlName(members[j].key)].Forward?
      {
        if j < k {
          assert members[j] == pre[j];
        }
      }
    }
  }

  /** Whether a name begins with "gl". */
  predicate GlPrefixed(n: string)
  {
    |n| >= 2 && n[0] == 'g' && n[1] == 'l'
  }

  lemma OverrideNamesPrefixed()
    ensures forall n :: n in OverrideNames ==> GlPrefixed(n)
  {
    forall n | n in OverrideNames ensures GlPrefixed(n) {
      var suffix :| suffix in OverrideSuffixes && n == "gl" + suffix;
    }
  }

  /** After `fillGlFunctions` with a context: every override is the hand-written
      shim whatever the context offers; every other function of the context is
      reachable under its prefixed name through a forwarder; names that do not
      start with "gl" are untouched. */
  lemma FillGlFunctionsEntries(entries: map<string, Binding>, members: seq<GlMember>)
    ensures var r := Filled(entries, Some(members));
      && (forall n :: n in OverrideNames ==> n in r && r[n] == Host(n))
      && (forall j :: 0 <= j < |members| && members[j].isFunction && GlName(members[j].key) !in OverrideNames ==>
            GlName(members[j].key) in r && r[GlName(members[j].key)].Forward?)
      && (forall n :: n in entries && !GlPrefixed(n) ==> n in r && r[n] == entries[n])
  {
    ForwardedEntries(entries, members);
    OverrideNamesPrefixed();
    var f := Forwarded(entries, members);
    var r := Filled(entries, Some(members));
    forall n | n in OverrideNames ensures n in r && r[n] == Host(n) {
      assert n in Overrides;
    }
    forall j | 0 <= j < |members| && members[j].isFunction && GlName(members[j].key) !in OverrideNames
      ensures GlName(members[j].key) in r && r[GlName(members[j].key)].Forward?
    {
      assert GlName(members[j].key) !in Overrides;
    }
    forall n | n in entries && !GlPrefixed(n) ensures n in r && r[n] == entries[n] {
      assert n !in Overrides;
    }
  }

  /** None of the host's own names begins with "gl". */
  lemma HostEnvUnprefixed()
    ensures forall n :: n in HostEnv ==> !GlPrefixed(n)
  {
  }

  /** The host's own entries never collide with a GL name, so they all survive
      `fillGlFunctions`, with or without a context. */
  lemma HostEnvSurvivesFill(gl: Option<seq<GlMember>>)
    ensures forall n :: n in HostEnv ==> n in Filled(HostEnv, gl) && Filled(HostEnv, gl)[n] == HostEnv[n]
  {
    if gl.Some? {
      HostEnvUnprefixed();
      FillGlFunctionsEntries(HostEnv, gl.value);
    }
  }

  // ---------------------------------------------------------------------------
  // loadTexture: the `.layer` header and the response handling
  // ---------------------------------------------------------------------------

  /** The four fields a `.layer` file carries before its image. */
  datatype LayerHeader = LayerHeader(canvasWidth: nat, canvasHeight: nat, topLeftX: nat, topLeftY: nat)

  const NoHeader := LayerHeader(0, 0, 0, 0)

  const U32Limit: int := 0x1_0000_0000

  predicate HeaderFits(h: LayerHeader)
  {
    h.canvasWidth < U32Limit && h.canvasHeight < U32Limit && h.topLeftX < U32Limit && h.topLeftY < U32Limit
  }

  /** `DataView.getUint32(offset, false)`: four bytes, most significant first. */
  function BigEndianU32(data: Bytes, offset: nat): (v: nat)
    requires offset + 4 <= |data|
    ensures v < U32Limit
  {
    ((data[offset] as int * 0x100 + data[offset + 1]) * 0x100 + data[offset + 2]) * 0x100 + data[offset + 3]
  }

  /** The four bytes of a u32, most significant first. */
  function U32Bytes(v: nat): (b: Bytes)
    requires v < U32Limit
    ensures |b| == 4
  {
    var v1 := v / 0x100;
    var v2 := v1 / 0x100;
    [v2 / 0x100, v2 % 0x100, v1 % 0x100, v % 0x100]
  }

  /** Dividing `q * 256 + r` by 256, for a byte `r`, gives back `q` and `r`. */
  lemma ByteDivMod(q: nat, r: byte)
    ensures (q * 0x100 + r) / 0x100 == q && (q * 0x100 + r) % 0x100 == r
  {
  }

  lemma U32RoundTrip(v: nat)
    requires v < U32Limit
    ensures BigEndianU32(U32Bytes(v), 0) == v
  {
    var v1 := v / 0x100;
    var v2 := v1 / 0x100;
    assert v == v1 * 0x100 + v % 0x100;
    assert v1 == v2 * 0x100 + v1 % 0x100;
    assert v2 == (v2 / 0x100) * 0x100 + v2 % 0x100;
  }

  lemma U32BytesOf(data: Bytes, offset: nat)
    requires offset + 4 <= |data|
    ensures U32Bytes(BigEndianU32(data, offset)) == data[offset..offset + 4]
  {
    var a, b, c, d := data[offset], data[offset + 1], data[offset + 2], data[offset + 3];
    var v2 := a as int * 0x100 + b;
    var v1 := v2 * 0x100 + c;
    ByteDivMod(v1, d);
    ByteDivMod(v2, c);
    ByteDivMod(a, b);
  }

  /** The header and image of a `.layer` file; fewer than 16 bytes make one of the
      header reads a RangeError. */
  function ParseLayer(data: Bytes): (r: Result<(LayerHeader, Bytes)>)
    ensures r.Ok? <==> |data| >= 16
    ensures r.Throw? ==> r.error == RangeError
    ensures r.Ok? ==> HeaderFits(r.value.0) && r.value.1 == data[16..]
  {
    if |data| < 16 then Throw(RangeError)
    else Ok((LayerHeader(BigEndianU32(data, 0), BigEndianU32(data, 4), BigEndianU32(data, 8), BigEndianU32(data, 12)),
             data[16..]))
  }

  /** The bytes of a `.layer` file with header `h` and image `image`. */
  function EncodeLayer(h: LayerHeader, image: Bytes): (data: Bytes)
    requires HeaderFits(h)
    ensures |data| == 16 + |image|
  {
    U32Bytes(h.canvasWidth) + U32Bytes(h.canvasHeight) + U32Bytes(h.topLeftX) + U32Bytes(h.topLeftY) + image
  }

  /** Encoding then parsing gives back the header and the image. */
  lemma ParseEncodeLayer(h: LayerHeader, image: Bytes)
    requires HeaderFits(h)
    ensures ParseLayer(EncodeLayer(h, image)) == Ok((h, image))
  {
    var d := EncodeLayer(h, image);
    assert d[0..4] == U32Bytes(h.canvasWidth);
    assert d[4..8] == U32Bytes(h.canvasHeight);
    assert d[8..12] == U32Bytes(h.topLeftX);
    assert d[12..16] == U32Bytes(h.topLeftY);
    assert d[16..] == image;
    U32RoundTrip(h.canvasWidth);
    U32RoundTrip(h.canvasHeight);
    U32RoundTrip(h.topLeftX);
    U32RoundTrip(h.topLeftY);
    assert BigEndianU32(d, 0) == BigEndianU32(d[0..4], 0);
    assert BigEndianU32(d, 4) == BigEndianU32(d[4..8], 0);
    assert BigEndianU32(d, 8) == BigEndianU32(d[8..12], 0);
    assert BigEndianU32(d, 12) == BigEndianU32(d[12..16], 0);
  }

  /** Every file the parser accepts is the encoding of what it parsed. */
  lemma EncodeParseLayer(data: Bytes)
    requires |data| >= 16
    ensures ParseLayer(data).Ok? && EncodeLayer(ParseLayer(data).value.0, ParseLayer(data).value.1) == data
  {
    U32BytesOf(data, 0);
    U32BytesOf(data, 4);
    U32BytesOf(data, 8);
    U32BytesOf(data, 12);
    assert data == data[0..4] + data[4..8] + data[8..12] + data[12..16] + data[16..];
  }

  predicate EndsWith(s: string, suffix: string)
  {
    |s| >= |suffix| && s[|s| - |suffix|..] == suffix
  }

  /** What the `loadTexture` response handler does next: report to the module at
      once, decode an image (the context reports its size later), or stop on an
      exception. */
  datatype TextureStep =
    | Report(width: nat, height: nat, header: LayerHeader)
    | DecodeImage(image: Bytes, header: LayerHeader)
    | Abort(error: Error)

  /** The `loadTexture` response handler for URL `url`, HTTP status `status` and
      payload `data`. */
  function TextureResponse(url: string, status: int, data: Bytes): (step: TextureStep)
    ensures status != 200 ==> step == Report(0, 0, NoHeader)
    ensures status == 200 && !EndsWith(url, ".layer") ==> step == DecodeImage(data, NoHeader)
    ensures status == 200 && EndsWith(url, ".layer") && |data| < 16 ==> step == Abort(RangeError)
    ensures status == 200 && EndsWith(url, ".layer") && |data| >= 16 ==>
      step.DecodeImage? && step.image == data[16..] && HeaderFits(step.header)
      && EncodeLayer(step.header, step.image) == data
  {
    if status != 200 then Report(0, 0, NoHeader)
    else if EndsWith(url, ".layer") then
      match ParseLayer(data)
      case Throw(e) => Abort(e)
      case Ok((h, image)) =>
        EncodeParseLayer(data);
        DecodeImage(image, h)
    else DecodeImage(data, NoHeader)
  }

  // ---------------------------------------------------------------------------
  // httpRequestWasm
  // ---------------------------------------------------------------------------

  /** A request handed to `httpRequest`. */
  datatype HttpPlan = HttpPlan(verb: string, uri: JsString, headers: map<JsString, JsString>, body: Bytes)

  /** The method string for a method code, if there is one. */
  function MethodName(code: int): (name: Option<string>)
    ensures name.Some? <==> code == 1 || code == 2
    ensures code == 1 ==> name == Some("GET")
    ensures code == 2 ==> name == Some("POST")
  {
    if code == 1 then Some("GET") else if code == 2 then Some("POST") else None
  }

  function Headers(h1: JsString, v1: JsString): map<JsString, JsString>
  {
    if |h1| > 0 then map[h1 := v1] else map[]
  }

  /** `httpRequestWasm` as written: an unknown method code reaches a read of `uri`
      before its declaration, which throws a ReferenceError. */
  function HttpRequestWasm(methodCode: int, uri: JsString, h1: JsString, v1: JsString, body: Bytes): (r: Result<HttpPlan>)
    ensures r.Ok? <==> methodCode == 1 || methodCode == 2
    ensures r.Throw? ==> r.error == ReferenceError
    ensures r.Ok? ==> Some(r.value.verb) == MethodName(methodCode) && r.value.uri == uri && r.value.body == body
    ensures r.Ok? ==> (h1 in r.value.headers <==> |h1| > 0) && |r.value.headers| <= 1
    ensures r.Ok? && |h1| > 0 ==> r.value.headers[h1] == v1
  {
    match MethodName(methodCode)
    case None => Throw(ReferenceError)
    case Some(m) => Ok(HttpPlan(m, uri, Headers(h1, v1), body))
  }

  /** What the corrected handler does: send a request, or report the unknown method
      straight back through `onHttp`. */
  datatype HttpDecision = Send(plan: HttpPlan) | ReportUnsupported(onHttpArgs: seq<Arg>)

  /** `httpRequestWasm` with `uri` read before the method check, as the unknown-method
      branch evidently intends. */
  function HttpRequestWasmFixed(memoryPtr: real, methodCode: int, uri: JsString, h1: JsString, v1: JsString, body: Bytes)
    : (d: HttpDecision)
    ensures d.Send? <==> methodCode == 1 || methodCode == 2
    ensures d.Send? ==> Ok(d.plan) == HttpRequestWasm(methodCode, uri, h1, v1, body)
  {
    match MethodName(methodCode)
    case None => ReportUnsupported([Number(memoryPtr), Number(methodCode as real), Text(uri), Buffer([])])
    case Some(m) => Send(HttpPlan(m, uri, Headers(h1, v1), body))
  }

  /** As written, the module is never told about an unknown method code: the
      handler throws instead. */
  lemma UnknownMethodThrows(methodCode: int, uri: JsString, h1: JsString, v1: JsString, body: Bytes)
    requires methodCode != 1 && methodCode != 2
    ensures HttpRequestWasm(methodCode, uri, h1, v1, body) == Throw(ReferenceError)
  {
  }

  /** Corrected, an unknown method code is reported to `onHttp` with arguments the
      marshaling protocol accepts, the URI queued before the empty body. */
  lemma UnknownMethodReported(memoryPtr: real, methodCode: int, uri: JsString, h1: JsString, v1: JsString, body: Bytes)
    requires methodCode != 1 && methodCode != 2
    ensures var d := HttpRequestWasmFixed(memoryPtr, methodCode, uri, h1, v1, body);
      && d.ReportUnsupported?
      && AllSupported(d.onHttpArgs)
      && BufferQueue(d.onHttpArgs) == [Utf8Encode(uri), []]
  {
    var args := [Number(memoryPtr), Number(methodCode as real), Text(uri), Buffer([])];
    assert BufferQueue(args[..1]) == [] by { assert args[..1][..0] == []; }
    assert BufferQueue(args[..2]) == [] by { assert args[..2][..1] == args[..1]; }
    assert BufferQueue(args[..3]) == [Utf8Encode(uri)] by { assert args[..3][..2] == args[..2]; }
    assert args[..4] == args;
  }

  // ---------------------------------------------------------------------------
  // loadFontDataJs: the worker round trip
  // ---------------------------------------------------------------------------

  /** The message `loadFontDataJs` posts to a font worker. */
  function FontWorkerMessage(compiled: WasmModule, atlasSize: real, fontData: Bytes, fontSize: real, scale: real)
    : seq<MessageItem>
  {
    [ModuleItem(compiled), ArgItem(Text(CodeUnits("loadFontData"))), ArgItem(Number(atlasSize)), ArgItem(Buffer(fontData)),
     ArgItem(Number(fontSize)), ArgItem(Number(scale))]
  }

  /** The font message passes the worker's argument-count check, names the export
      `loadFontData`, and its arguments are all accepted, with the font file as the
      one queued buffer. */
  lemma FontWorkerMessageAccepted(compiled: WasmModule, atlasSize: real, fontData: Bytes, fontSize: real, scale: real)
    ensures var msg := FontWorkerMessage(compiled, atlasSize, fontData, fontSize, scale);
      && |msg| >= 2
      && FunctionName(msg) == Some(CodeUnits("loadFontData"))
      && CallArgs(msg) == [Number(atlasSize), Buffer(fontData), Number(fontSize), Number(scale)]
      && AllSupported(CallArgs(msg))
      && BufferQueue(CallArgs(msg)) == [fontData]
      && WasmArgs(CallArgs(msg)) == [atlasSize, |fontData| as real, fontSize, scale]
  {
    var args := [Number(atlasSize), Buffer(fontData), Number(fontSize), Number(scale)];
    assert BufferQueue(args[..1]) == [] by { assert args[..1][..0] == []; }
    assert BufferQueue(args[..2]) == [fontData] by { assert args[..2][..1] == args[..1]; }
    assert BufferQueue(args[..3]) == [fontData] by { assert args[..3][..2] == args[..2]; }
    assert args[..4] == args;
  }

  /** What the main thread does with the worker's reply to a font request. */
  datatype FontReplyAction =
    | IgnoreReply
    | UploadAndNotify(pixels: Option<Value>, onLoadedFontArgs: seq<Arg>)

  /** A value from the reply, passed back into the module as a call argument. */
  function ReplyArg(reply: seq<Value>, i: nat): Arg
  {
    if i >= |reply| then Other
    else match reply[i]
      case Num(x) => Number(x)
      case Buf(b) => Buffer(b)
  }

  /** `new Uint8Array(pixelData)` accepts the reply's second element: a buffer, a
      missing element (an empty array), or a number whose truncation is a valid length. */
  predicate PixelsAccepted(reply: seq<Value>)
  {
    |reply| < 2 || reply[1].Buf? || ValidLength(Truncate(reply[1].x))
  }

  /** `worker.onmessage` in `loadFontDataJs`: anything but a first element equal to
      1 is a failure that only logs; otherwise the second element is the atlas and
      the third is handed to `onLoadedFont` after `_memoryPtr` and the id. A second
      element the pixel array refuses throws before `onLoadedFont` is called. */
  function UnpackFontReply(memoryPtr: real, id: real, reply: seq<Value>): (r: Result<FontReplyAction>)
    ensures r == Ok(IgnoreReply) <==> !(|reply| >= 1 && reply[0] == Num(1.0))
    ensures r.Throw? <==> |reply| >= 1 && reply[0] == Num(1.0) && !PixelsAccepted(reply)
    ensures r.Throw? ==> r.error == RangeError && reply[1].Num? && (reply[1].x <= -1.0 || reply[1].x >= MaxSafeInteger as real + 1.0)
    ensures r.Ok? && r.value.UploadAndNotify? ==>
      var a := r.value;
      && |a.onLoadedFontArgs| == 3
      && a.onLoadedFontArgs[0] == Number(memoryPtr) && a.onLoadedFontArgs[1] == Number(id)
      && (a.pixels.Some? <==> |reply| >= 2)
      && (AllSupported(a.onLoadedFontArgs) <==> |reply| >= 3)
  {
    if |reply| >= 1 && reply[0] == Num(1.0) then
      if !PixelsAccepted(reply) then Throw(RangeError)
      else
        var args := [Number(memoryPtr), Number(id), ReplyArg(reply, 2)];
        assert AllSupported(args) <==> Supported(args[2]);
        Ok(UploadAndNotify(if |reply| >= 2 then Some(reply[1]) else None, args))
    else Ok(IgnoreReply)
  }
}
