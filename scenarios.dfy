/** Clients of the entry points: what a caller can conclude from their
    contracts alone. The same well-shaped call made without a callback and with
    one gives the same value, once returned directly and once delivered as the
    callback's single argument. */
module Scenarios {
  import opened Values
  import opened Coercions
  import opened Callbacks
  import opened Dialog

  /** A message box answered with `chosen`: the synchronous call returns it,
      the asynchronous call returns `Undefined` and later fires its callback
      once with it. */
  method MessageBoxModesAgree(kind: Value, buttons: Value, title: Value, message: Value, detail: Value,
                              window: Value, fn: FunctionId, source: string, chosen: int32)
    returns (direct: Value, deferred: Value, delivered: seq<seq<Value>>)
    requires kind.Number? && buttons.Array? && title.Str? && message.Str? && detail.Str?
    ensures direct == Number(chosen as int)
    ensures deferred == Undefined
    ensures delivered == [[direct]]
  {
    var fixed := [kind, buttons, title, message, detail, window];
    MessageBoxShapesSpelledOut(fixed);
    MessageBoxShapesSpelledOut(fixed + [Function(fn, source)]);
    var now, _ := ShowMessageBox(fixed, chosen);
    direct := now.value;
    var later, _ := ShowMessageBox(fixed + [Function(fn, source)], 0);
    deferred := later.Immediate();
    RunCompletion(later, true, Code(chosen));
    delivered := later.callback.calls;
  }

  /** An open dialog that reports `success` and `paths`: the synchronous call
      returns the converted result (or `Undefined`), and the asynchronous call
      returns `Undefined` and later fires its callback once with that same value. */
  method OpenDialogModesAgree(title: Value, defaultPath: Value, properties: Value, window: Value,
                              fn: FunctionId, source: string, success: bool, paths: seq<Path>)
    returns (direct: Value, deferred: Value, delivered: seq<seq<Value>>)
    requires title.Str? && defaultPath.Str? && properties.Number?
    ensures direct == Delivered(success, Paths(paths))
    ensures deferred == Undefined
    ensures delivered == [[direct]]
  {
    var fixed := [title, defaultPath, properties, window];
    OpenDialogShapesSpelledOut(fixed);
    OpenDialogShapesSpelledOut(fixed + [Function(fn, source)]);
    var now, _ := ShowOpenDialog(fixed, success, paths);
    direct := now.value;
    var later, _ := ShowOpenDialog(fixed + [Function(fn, source)], false, []);
    deferred := later.Immediate();
    RunCompletion(later, success, Paths(paths));
    delivered := later.callback.calls;
  }

  /** The same agreement for a save dialog that reports `success` and `path`. */
  method SaveDialogModesAgree(title: Value, defaultPath: Value, window: Value,
                              fn: FunctionId, source: string, success: bool, path: Path)
    returns (direct: Value, deferred: Value, delivered: seq<seq<Value>>)
    requires title.Str? && defaultPath.Str?
    ensures direct == Delivered(success, SinglePath(path))
    ensures deferred == Undefined
    ensures delivered == [[direct]]
  {
    var fixed := [title, defaultPath, window];
    SaveDialogShapesSpelledOut(fixed);
    SaveDialogShapesSpelledOut(fixed + [Function(fn, source)]);
    var now, _ := ShowSaveDialog(fixed, success, path);
    direct := now.value;
    var later, _ := ShowSaveDialog(fixed + [Function(fn, source)], false, "");
    deferred := later.Immediate();
    RunCompletion(later, success, SinglePath(path));
    delivered := later.callback.calls;
  }

  /** `showMessageBox(0, ["OK", "Cancel"], "T", "M", "D")` with no window and
      no callback, answered with button 0, shows those labels and returns 0. */
  method MessageBoxReturnsChosenButton() returns (result: Value, shown: Option<Request>)
    ensures result == Number(0)
    ensures shown == Some(MessageBoxRequest(None, 0, ["OK", "Cancel"], "T", "M", "D"))
  {
    var args := [Number(0), Array([Str("OK"), Str("Cancel")]), Str("T"), Str("M"), Str("D")];
    MessageBoxShapesSpelledOut(args);
    var outcome;
    outcome, shown := ShowMessageBox(args, 0);
    result := outcome.value;
    assert '\0' !in "OK" && '\0' !in "Cancel" && '\0' !in "T" && '\0' !in "M" && '\0' !in "D";
    assert Labels([Str("OK"), Str("Cancel")]) == ["OK", "Cancel"];
  }

  /** `showOpenDialog("Open", "", 0, undefined, cb)` that the user cancels:
      the call returns `Undefined` at once, and the callback is later fired
      exactly once, with `Undefined`. */
  method OpenDialogCancelled(fn: FunctionId, source: string) returns (immediate: Value, delivered: seq<seq<Value>>)
    ensures immediate == Undefined
    ensures delivered == [[Undefined]]
  {
    var args := [Str("Open"), Str(""), Number(0), Undefined, Function(fn, source)];
    OpenDialogShapesSpelledOut(args);
    var outcome, _ := ShowOpenDialog(args, false, []);
    immediate := outcome.Immediate();
    RunCompletion(outcome, false, Paths([]));
    delivered := outcome.callback.calls;
  }

  /** `showSaveDialog("Save", "/tmp/x")` answered with `/tmp/x/out.txt`
      returns that string. */
  method SaveDialogReturnsPath() returns (result: Value)
    ensures result == Str("/tmp/x/out.txt")
  {
    var args := [Str("Save"), Str("/tmp/x")];
    SaveDialogShapesSpelledOut(args);
    var outcome, _ := ShowSaveDialog(args, true, "/tmp/x/out.txt");
    result := outcome.value;
  }

  /** A message box whose buttons argument is not an array throws the type
      error and asks no native primitive, whatever callback is passed. */
  method NonArrayButtonsRejected(buttons: Value, callback: Value) returns (outcome: Outcome, shown: Option<Request>)
    requires !buttons.Array?
    ensures outcome == Thrown(BadArgument)
    ensures shown == None
  {
    var args := [Number(0), buttons, Str("T"), Str("M"), Str("D"), Undefined, callback];
    MessageBoxShapesSpelledOut(args);
    outcome, shown := ShowMessageBox(args, 0);
  }
}
