/** Values that cross the bridge between script code and the native dialogs:
    the scripting engine's tagged values, the opaque identities of windows and
    functions, file paths, and the 32-bit integers of the native side. */
module Values {

  datatype Option<+T> = None | Some(value: T)

  /** The native `int`: 32 bits, two's complement. */
  newtype int32 = x: int | -0x8000_0000 <= x < 0x8000_0000

  /** Opaque identity of a live native window. */
  type WindowId = nat

  /** Opaque identity of a script function. */
  type FunctionId = nat

  /** A file-system path; on the native side it is a plain byte string. */
  type Path = string

  /** What `Window::Unwrap` finds inside a script object that wraps a browser
      window: the native window it drives, or `None` once that window is gone. */
  datatype HostWindow = HostWindow(native: Option<WindowId>)

  /** A scripting-engine value, restricted to the shapes this bridge observes.
      `Object.host` is the browser window the object wraps, if it wraps one;
      `Function.source` is the function's source text (what it prints as). */
  datatype Value =
    | Undefined
    | Number(n: int)
    | Str(s: string)
    | Array(elements: seq<Value>)
    | Object(host: Option<HostWindow>)
    | Function(id: FunctionId, source: string)
}
