/**
 * The `env` import object a WebAssembly module is instantiated with, and the
 * import descriptors `WebAssembly.Module.imports` reports for a module.
 * The object is shared by both sides of the bridge: the worker patches it,
 * the main thread fills it with graphics forwarders.
 */
module Imports {

  /** What an `env` entry is bound to. */
  datatype Binding =
    | Host(name: string)           // a hand-written host function of that name
    | Forward(glMethod: string)    // the generic forwarder to `gl[glMethod]`
    | Stub(importName: string)     // a patched stub that throws when invoked

  datatype ImportKind = FunctionImport | TableImport | MemoryImport | GlobalImport

  /** One entry of `WebAssembly.Module.imports(module)`. */
  datatype ImportDescriptor = ImportDescriptor(moduleName: string, name: string, kind: ImportKind)

  /** Names every plain object inherits from `Object.prototype`; the `in` operator
      reports them as present on an `env` object that never defined them. */
  const ObjectPrototypeKeys: set<string> :=
    {"constructor", "hasOwnProperty", "isPrototypeOf", "propertyIsEnumerable",
     "toLocaleString", "toString", "valueOf", "__defineGetter__", "__defineSetter__",
     "__lookupGetter__", "__lookupSetter__", "__proto__"}

  /** `name` is inherited from `Object.prototype`. */
  predicate Inherited(name: string)
  {
    name in ObjectPrototypeKeys
  }

  /** `name in env` for an env object whose own properties are `entries`. */
  predicate Has(entries: map<string, Binding>, name: string)
  {
    name in entries || Inherited(name)
  }

  /** The mutable `env` object. */
  class Env {
    var entries: map<string, Binding>

    constructor (initial: map<string, Binding>)
      ensures entries == initial
    {
      entries := initial;
    }
  }
}
