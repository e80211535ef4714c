/** The single-use callback handle and the completion handlers that fire it. */
module Callbacks {
  import opened Values
  import opened Coercions

  /** A persistent handle on a script function. `target` is the function held,
      `None` for the empty handle. `calls` records the argument list of every
      invocation, in order; `disposed` says the held reference was released. */
  class Callback {
    const target: Option<FunctionId>
    var calls: seq<seq<Value>>
    var disposed: bool

    /** The handle's life cycle: an empty handle is never invoked, a live one
        is invoked at most once, and it is released only after it has been. */
    ghost predicate Valid()
      reads this
    {
      && |calls| <= 1
      && (disposed ==> |calls| == 1)
      && (target.None? ==> calls == [])
    }

    /** A fresh handle on `target` (the empty handle for `None`). */
    constructor (target: Option<FunctionId>)
      ensures Valid()
      ensures this.target == target && calls == [] && !disposed
    {
      this.target := target;
      calls := [];
      disposed := false;
    }

    predicate IsEmpty()
      reads this
    {
      target.None?
    }

    /** Invoke the held function with the argument list `argv`; a handle that
        has been invoked once cannot be invoked again. */
    method Call(argv: seq<Value>)
      requires Valid() && !IsEmpty() && calls == []
      modifies this
      ensures Valid()
      ensures calls == [argv] && disposed == old(disposed)
    {
      calls := calls + [argv];
    }

    /** Release the held reference, once, after the single invocation. */
    method Dispose()
      requires Valid() && |calls| == 1 && !disposed
      modifies this
      ensures Valid()
      ensures disposed && calls == old(calls)
    {
      disposed := true;
    }
  }

  /** The completion handler for a dialog whose result always exists,
      instantiated at the result type `kind`: convert the result, fire the
      callback once with that one value, then release it. The handle must not
      be empty and must not have been used. */
  method CallV8Function(callback: Callback, ghost kind: ResultKind, arg: NativeResult)
    requires OfKind(arg, kind)
    requires callback.Valid() && !callback.IsEmpty() && callback.calls == []
    modifies callback
    ensures callback.Valid() && callback.disposed
    ensures callback.calls == [[ToV8Value(arg)]]
  {
    var value;
    if arg.Paths? {
      value := PathsToV8Value(arg.paths);
    } else {
      value := ToV8Value(arg);
    }
    callback.Call([value]);
    callback.Dispose();
  }

  /** What the completion handler of a cancellable dialog passes to the
      callback: the converted result when the dialog succeeded, and the
      converted null result otherwise. */
  function Delivered(success: bool, arg: NativeResult): (v: Value)
    ensures !success ==> v == Undefined
    ensures success ==> v == ToV8Value(arg)
  {
    ToV8Value(if success then arg else NoResult)
  }

  /** The completion handler for a cancellable dialog, instantiated at the
      result type `kind`: fire the callback once with the result, or with
      `Undefined` when the dialog was cancelled. */
  method CallV8Function2(callback: Callback, ghost kind: ResultKind, success: bool, arg: NativeResult)
    requires OfKind(arg, kind)
    requires callback.Valid() && !callback.IsEmpty() && callback.calls == []
    modifies callback
    ensures callback.Valid() && callback.disposed
    ensures callback.calls == [[Delivered(success, arg)]]
  {
    if success {
      CallV8Function(callback, kind, arg);
    } else {
      CallV8Function(callback, NullKind, NoResult);
    }
  }
}
