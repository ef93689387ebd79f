/**
 * The JavaScript values the bridge moves across the sandbox boundary:
 * bytes of the sandbox's linear memory, JS strings as UTF-16 code units,
 * the UTF-8 encoding a `TextEncoder` produces, and the exceptions the
 * bridge throws, modelled as the `Throw` case of a result.
 */
module JsValues {

  /** One byte of an `ArrayBuffer` or of the sandbox memory. */
  type byte = x: int | 0 <= x < 256

  type Bytes = seq<byte>

  /** One UTF-16 code unit: what `charCodeAt` returns and what `length` counts. */
  type CodeUnit = x: int | 0 <= x < 0x1_0000

  /** A JavaScript string, as the sequence of its UTF-16 code units. */
  type JsString = seq<CodeUnit>

  /** The exceptions the modelled code raises (thrown strings and built-in errors). */
  datatype Error =
    | BadBufferArgs                 // "Bad WASM function buffer args"
    | BadReturnValues               // "Bad WASM function return values"
    | UnsupportedArg                // "Unsupported arg type ..."
    | UnusedBufferArgs(count: nat)  // "Unused function buffer args: ..."
    | MismatchedLengths             // "Mismatched lengths len=... byteLength=..."
    | WasmTrap                      // the sandboxed callee trapped
    | CompileFailed                 // "Error compiling shader:..."
    | LinkFailed                    // "Error linking program:..."
    | UnexpectedChannels            // "Unexpected channels=..."
    | RangeError                    // built-in: a typed-array window outside its buffer
    | TypeError                     // built-in: property access on null/undefined, bad argument type
    | ReferenceError                // built-in: a `const` read before its declaration

  /** A completed JavaScript evaluation: a value, or the exception it threw. */
  datatype Result<+T> = Ok(value: T) | Throw(error: Error)

  datatype Option<+T> = None | Some(value: T)

  /** A byte window `[ptr, ptr + len)` that `new Uint8Array(buffer, ptr, len)` accepts
      for a buffer of `size` bytes; any other window raises a RangeError. */
  predicate WindowFits(size: nat, ptr: int, len: int)
  {
    0 <= ptr && 0 <= len && ptr + len <= size
  }

  /** 2^53 - 1, the largest length `ToIndex` accepts. */
  const MaxSafeInteger: int := 0x1F_FFFF_FFFF_FFFF

  /** A length `new Uint8Array(n)` accepts; any other raises a RangeError (`ToIndex`,
      section 7.1.22 of ECMAScript 2024). */
  predicate ValidLength(n: int)
  {
    0 <= n <= MaxSafeInteger
  }

  /** A number truncated toward zero, as `ToIntegerOrInfinity` does. */
  function Truncate(x: real): (n: int)
    ensures x >= 0.0 ==> n as real <= x < n as real + 1.0
    ensures x < 0.0 ==> n as real - 1.0 < x <= n as real
  {
    if x >= 0.0 then x.Floor else -((-x).Floor)
  }

  /** `m` with `data` written over it from offset `ptr`. */
  function Spliced(m: Bytes, ptr: nat, data: Bytes): (r: Bytes)
    requires ptr + |data| <= |m|
    ensures |r| == |m|
    ensures forall k :: 0 <= k < |r| ==>
      r[k] == (if ptr <= k < ptr + |data| then data[k - ptr] else m[k])
  {
    m[..ptr] + data + m[ptr + |data|..]
  }

  // ---------------------------------------------------------------------------
  // TextEncoder: UTF-16 code units to UTF-8 bytes (WHATWG Encoding standard,
  // section 9.1; a lone surrogate is replaced by U+FFFD)
  // ---------------------------------------------------------------------------

  predicate IsHighSurrogate(c: CodeUnit) { 0xD800 <= c < 0xDC00 }
  predicate IsLowSurrogate(c: CodeUnit) { 0xDC00 <= c < 0xE000 }
  predicate IsSurrogate(c: CodeUnit) { 0xD800 <= c < 0xE000 }

  /** The UTF-8 bytes of one Unicode scalar value (RFC 3629, section 3). */
  function EncodeScalar(c: int): (b: Bytes)
    requires 0 <= c < 0x11_0000
    ensures 1 <= |b| <= 4
    ensures |b| == 1 <==> c < 0x80
    ensures |b| == 4 <==> c >= 0x1_0000
  {
    if c < 0x80 then [c]
    else if c < 0x800 then [0xC0 + c / 0x40, 0x80 + c % 0x40]
    else if c < 0x1_0000 then [0xE0 + c / 0x1000, 0x80 + (c / 0x40) % 0x40, 0x80 + c % 0x40]
    else [0xF0 + c / 0x4_0000, 0x80 + (c / 0x1000) % 0x40, 0x80 + (c / 0x40) % 0x40, 0x80 + c % 0x40]
  }

  /** `new TextEncoder().encode(s)`: a surrogate pair becomes one four-byte sequence,
      a lone surrogate becomes U+FFFD, every other code unit its own scalar value. */
  function Utf8Encode(s: JsString): Bytes
    decreases |s|
  {
    if s == [] then []
    else if |s| > 1 && IsHighSurrogate(s[0]) && IsLowSurrogate(s[1]) then
      EncodeScalar(0x1_0000 + (s[0] as int - 0xD800) * 0x400 + (s[1] as int - 0xDC00)) + Utf8Encode(s[2..])
    else if IsSurrogate(s[0]) then
      EncodeScalar(0xFFFD) + Utf8Encode(s[1..])
    else
      EncodeScalar(s[0]) + Utf8Encode(s[1..])
  }

  predicate IsAscii(s: JsString)
  {
    forall i :: 0 <= i < |s| ==> s[i] < 0x80
  }

  /** An ASCII literal of the source, as the code units of the JS string it denotes. */
  function CodeUnits(s: string): (u: JsString)
    requires forall i :: 0 <= i < |s| ==> s[i] as int < 0x80
    ensures |u| == |s| && IsAscii(u)
    ensures forall i :: 0 <= i < |s| ==> u[i] == s[i] as int
  {
    seq(|s|, i requires 0 <= i < |s| => s[i] as int)
  }

  /** The encoded byte length lies between the string's `length` and three times it:
      one code unit never takes more than three bytes, a surrogate pair exactly four. */
  lemma {:induction false} Utf8EncodeLength(s: JsString)
    ensures |s| <= |Utf8Encode(s)| <= 3 * |s|
    decreases |s|
  {
    if s == [] {
    } else if |s| > 1 && IsHighSurrogate(s[0]) && IsLowSurrogate(s[1]) {
      Utf8EncodeLength(s[2..]);
    } else {
      Utf8EncodeLength(s[1..]);
    }
  }

  /** ASCII text encodes to its own code units, one byte each. */
  lemma {:induction false} Utf8EncodeAscii(s: JsString)
    requires IsAscii(s)
    ensures Utf8Encode(s) == s
    decreases |s|
  {
    if s != [] {
      assert s[0] < 0x80;
      assert IsAscii(s[1..]) by {
        forall i | 0 <= i < |s[1..]| ensures s[1..][i] < 0x80 { assert s[1..][i] == s[i + 1]; }
      }
      Utf8EncodeAscii(s[1..]);
      assert s == [s[0]] + s[1..];
    }
  }
}
