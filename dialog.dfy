/** The three script-facing entry points: each checks the shapes of its
    positional arguments, coerces them to a native request, and then either
    asks the native dialog synchronously and returns the converted result, or
    starts the dialog asynchronously and leaves a completion pending that later
    fires the script's callback once. */
module Dialog {
  import opened Values
  import opened Coercions
  import opened Callbacks

  /** The argument shapes an entry point checks. */
  datatype Shape = NumberShape | ArrayShape | StringShape

  predicate HasShape(v: Value, s: Shape)
  {
    match s
    case NumberShape => v.Number?
    case ArrayShape => v.Array?
    case StringShape => v.Str?
  }

  /** Positional argument `i` of a call; an argument the caller left out reads
      as `Undefined`. */
  function Arg(args: seq<Value>, i: nat): Value
  {
    if i < |args| then args[i] else Undefined
  }

  /** Whether arguments `k` onwards have the shapes `shapes` asks for, checked
      left to right. */
  function MatchFrom(args: seq<Value>, shapes: seq<Shape>, k: nat): (ok: bool)
    requires k <= |shapes|
    ensures ok <==> forall i | k <= i < |shapes| :: HasShape(Arg(args, i), shapes[i])
    decreases |shapes| - k
  {
    k == |shapes| || (HasShape(Arg(args, k), shapes[k]) && MatchFrom(args, shapes, k + 1))
  }

  predicate ArgumentsMatch(args: seq<Value>, shapes: seq<Shape>)
  {
    MatchFrom(args, shapes, 0)
  }

  const MessageBoxShapes: seq<Shape> := [NumberShape, ArrayShape, StringShape, StringShape, StringShape]
  const OpenDialogShapes: seq<Shape> := [StringShape, StringShape, NumberShape]
  const SaveDialogShapes: seq<Shape> := [StringShape, StringShape]

  /** The message box takes a kind (number), buttons (array), title, message
      and detail (strings). */
  lemma MessageBoxShapesSpelledOut(args: seq<Value>)
    ensures ArgumentsMatch(args, MessageBoxShapes) <==>
      && Arg(args, 0).Number?
      && Arg(args, 1).Array?
      && Arg(args, 2).Str?
      && Arg(args, 3).Str?
      && Arg(args, 4).Str?
  {
  }

  /** The open dialog takes a title and a default path (strings) and the
      dialog properties (number). */
  lemma OpenDialogShapesSpelledOut(args: seq<Value>)
    ensures ArgumentsMatch(args, OpenDialogShapes) <==>
      Arg(args, 0).Str? && Arg(args, 1).Str? && Arg(args, 2).Number?
  {
  }

  /** The save dialog takes a title and a default path (strings). */
  lemma SaveDialogShapesSpelledOut(args: seq<Value>)
    ensures ArgumentsMatch(args, SaveDialogShapes) <==> Arg(args, 0).Str? && Arg(args, 1).Str?
  {
  }

  /** The type error an entry point throws on a shape mismatch. */
  datatype Error = TypeError(message: string)

  const BadArgument := TypeError("Bad argument")

  /** The native argument tuple handed to the dialog primitive. */
  datatype Request =
    | MessageBoxRequest(window: Option<WindowId>, kind: int32, buttons: seq<string>,
                        title: string, message: string, detail: string)
    | OpenDialogRequest(window: Option<WindowId>, title: string, defaultPath: Path, properties: int32)
    | SaveDialogRequest(window: Option<WindowId>, title: string, defaultPath: Path)

  /** Which completion handler the asynchronous primitive was given, and the
      result type it was instantiated at. */
  datatype Binding = BoundCallV8Function(kind: ResultKind) | BoundCallV8Function2(kind: ResultKind)

  /** The single terminal outcome of a call: a thrown type error, a value
      returned directly, or (having returned `Undefined`) a callback waiting for
      the dialog to complete. */
  datatype Outcome =
    | Thrown(error: Error)
    | Returned(value: Value)
    | Pending(callback: Callback, handler: Binding)
  {
    /** The value the call returns to the script at once. */
    function Immediate(): Value
      requires !Thrown?
    {
      if Returned? then value else Undefined
    }
  }

  /** The button labels of a message box: the string conversion of each element
      of the buttons array, in order. */
  function Labels(es: seq<Value>): seq<string>
  {
    seq(|es|, i requires 0 <= i < |es| => AsString(es[i]))
  }

  /** The loop that fills the button vector one label at a time. */
  method CollectButtons(es: seq<Value>) returns (buttons: seq<string>)
    ensures buttons == Labels(es)
    ensures |buttons| == |es|
    ensures forall i | 0 <= i < |es| :: buttons[i] == AsString(es[i])
  {
    buttons := [];
    var i := 0;
    while i < |es|
      invariant 0 <= i <= |es|
      invariant |buttons| == i
      invariant forall k | 0 <= k < i :: buttons[k] == AsString(es[k])
    {
      buttons := buttons + [AsString(es[i])];
      i := i + 1;
    }
  }

  /** The native request a well-shaped message box call makes. */
  function MessageBoxRequestFor(args: seq<Value>): (r: Request)
    requires ArgumentsMatch(args, MessageBoxShapes)
    ensures r.MessageBoxRequest?
    ensures r.window == AsWindow(Arg(args, 5))
    ensures Arg(args, 0).Number? && (-0x8000_0000 <= Arg(args, 0).n < 0x8000_0000 ==> r.kind as int == Arg(args, 0).n)
    ensures Arg(args, 1).Array? && |r.buttons| == |Arg(args, 1).elements|
    ensures forall i | 0 <= i < |r.buttons| :: r.buttons[i] == AsString(Arg(args, 1).elements[i])
    ensures Arg(args, 2).Str? && CText(Arg(args, 2).s, r.title)
    ensures Arg(args, 3).Str? && CText(Arg(args, 3).s, r.message)
    ensures Arg(args, 4).Str? && CText(Arg(args, 4).s, r.detail)
  {
    MessageBoxShapesSpelledOut(args);
    MessageBoxRequest(AsWindow(Arg(args, 5)), AsInt(Arg(args, 0)), Labels(Arg(args, 1).elements),
                      AsString(Arg(args, 2)), AsString(Arg(args, 3)), AsString(Arg(args, 4)))
  }

  /** The native request a well-shaped open dialog call makes. */
  function OpenDialogRequestFor(args: seq<Value>): (r: Request)
    requires ArgumentsMatch(args, OpenDialogShapes)
    ensures r.OpenDialogRequest?
    ensures r.window == AsWindow(Arg(args, 3))
    ensures Arg(args, 0).Str? && CText(Arg(args, 0).s, r.title)
    ensures Arg(args, 1).Str? && CText(Arg(args, 1).s, r.defaultPath)
    ensures Arg(args, 2).Number? && (-0x8000_0000 <= Arg(args, 2).n < 0x8000_0000 ==> r.properties as int == Arg(args, 2).n)
  {
    OpenDialogShapesSpelledOut(args);
    OpenDialogRequest(AsWindow(Arg(args, 3)), AsString(Arg(args, 0)), AsPath(Arg(args, 1)), AsInt(Arg(args, 2)))
  }

  /** The native request a well-shaped save dialog call makes. */
  function SaveDialogRequestFor(args: seq<Value>): (r: Request)
    requires ArgumentsMatch(args, SaveDialogShapes)
    ensures r.SaveDialogRequest?
    ensures r.window == AsWindow(Arg(args, 2))
    ensures Arg(args, 0).Str? && CText(Arg(args, 0).s, r.title)
    ensures Arg(args, 1).Str? && CText(Arg(args, 1).s, r.defaultPath)
  {
    SaveDialogShapesSpelledOut(args);
    SaveDialogRequest(AsWindow(Arg(args, 2)), AsString(Arg(args, 0)), AsPath(Arg(args, 1)))
  }

  /** `showMessageBox(kind, buttons, title, message, detail, window?, callback?)`.
      `chosen` is what the synchronous native primitive answers if it is asked;
      `shown` is the request given to the native primitive, if any. */
  method ShowMessageBox(args: seq<Value>, chosen: int32) returns (outcome: Outcome, shown: Option<Request>)
    ensures !ArgumentsMatch(args, MessageBoxShapes) ==> outcome == Thrown(BadArgument) && shown == None
    ensures ArgumentsMatch(args, MessageBoxShapes) ==> shown == Some(MessageBoxRequestFor(args))
    ensures ArgumentsMatch(args, MessageBoxShapes) && !Arg(args, 6).Function? ==>
      outcome == Returned(Number(chosen as int))
    ensures ArgumentsMatch(args, MessageBoxShapes) && Arg(args, 6).Function? ==>
      && outcome.Pending? && outcome.handler == BoundCallV8Function(CodeKind)
      && fresh(outcome.callback) && outcome.callback.Valid()
      && outcome.callback.target == Some(Arg(args, 6).id)
      && outcome.callback.calls == [] && !outcome.callback.disposed
  {
    if !ArgumentsMatch(args, MessageBoxShapes) {
      return Thrown(BadArgument), None;
    }
    MessageBoxShapesSpelledOut(args);
    var window := AsWindow(Arg(args, 5));
    var callback := new Callback(AsCallback(Arg(args, 6)));
    var kind := AsInt(Arg(args, 0));
    var buttons := CollectButtons(Arg(args, 1).elements);
    var title := AsString(Arg(args, 2));
    var message := AsString(Arg(args, 3));
    var detail := AsString(Arg(args, 4));
    shown := Some(MessageBoxRequest(window, kind, buttons, title, message, detail));
    if callback.IsEmpty() {
      outcome := Returned(ToV8Value(Code(chosen)));
    } else {
      outcome := Pending(callback, BoundCallV8Function(CodeKind));
    }
  }

  /** `showOpenDialog(title, defaultPath, properties, window?, callback?)`.
      `success` and `paths` are what the synchronous native primitive reports
      if it is asked. */
  method ShowOpenDialog(args: seq<Value>, success: bool, paths: seq<Path>) returns (outcome: Outcome, shown: Option<Request>)
    ensures !ArgumentsMatch(args, OpenDialogShapes) ==> outcome == Thrown(BadArgument) && shown == None
    ensures ArgumentsMatch(args, OpenDialogShapes) ==> shown == Some(OpenDialogRequestFor(args))
    ensures ArgumentsMatch(args, OpenDialogShapes) && !Arg(args, 4).Function? && !success ==>
      outcome == Returned(Undefined)
    ensures ArgumentsMatch(args, OpenDialogShapes) && !Arg(args, 4).Function? && success ==>
      && outcome.Returned? && outcome.value.Array?
      && |outcome.value.elements| == |paths|
      && forall i | 0 <= i < |paths| :: outcome.value.elements[i] == Str(paths[i])
    ensures ArgumentsMatch(args, OpenDialogShapes) && Arg(args, 4).Function? ==>
      && outcome.Pending? && outcome.handler == BoundCallV8Function2(PathsKind)
      && fresh(outcome.callback) && outcome.callback.Valid()
      && outcome.callback.target == Some(Arg(args, 4).id)
      && outcome.callback.calls == [] && !outcome.callback.disposed
  {
    if !ArgumentsMatch(args, OpenDialogShapes) {
      return Thrown(BadArgument), None;
    }
    OpenDialogShapesSpelledOut(args);
    var window := AsWindow(Arg(args, 3));
    var callback := new Callback(AsCallback(Arg(args, 4)));
    var title := AsString(Arg(args, 0));
    var defaultPath := AsPath(Arg(args, 1));
    var properties := AsInt(Arg(args, 2));
    shown := Some(OpenDialogRequest(window, title, defaultPath, properties));
    if callback.IsEmpty() {
      if !success {
        return Returned(Undefined), shown;
      }
      var result := PathsToV8Value(paths);
      outcome := Returned(result);
    } else {
      outcome := Pending(callback, BoundCallV8Function2(PathsKind));
    }
  }

  /** `showSaveDialog(title, defaultPath, window?, callback?)`.
      `success` and `path` are what the synchronous native primitive reports
      if it is asked. */
  method ShowSaveDialog(args: seq<Value>, success: bool, path: Path) returns (outcome: Outcome, shown: Option<Request>)
    ensures !ArgumentsMatch(args, SaveDialogShapes) ==> outcome == Thrown(BadArgument) && shown == None
    ensures ArgumentsMatch(args, SaveDialogShapes) ==> shown == Some(SaveDialogRequestFor(args))
    ensures ArgumentsMatch(args, SaveDialogShapes) && !Arg(args, 3).Function? ==>
      outcome == Returned(if success then Str(path) else Undefined)
    ensures ArgumentsMatch(args, SaveDialogShapes) && Arg(args, 3).Function? ==>
      && outcome.Pending? && outcome.handler == BoundCallV8Function2(PathKind)
      && fresh(outcome.callback) && outcome.callback.Valid()
      && outcome.callback.target == Some(Arg(args, 3).id)
      && outcome.callback.calls == [] && !outcome.callback.disposed
  {
    if !ArgumentsMatch(args, SaveDialogShapes) {
      return Thrown(BadArgument), None;
    }
    SaveDialogShapesSpelledOut(args);
    var window := AsWindow(Arg(args, 2));
    var callback := new Callback(AsCallback(Arg(args, 3)));
    var title := AsString(Arg(args, 0));
    var defaultPath := AsPath(Arg(args, 1));
    shown := Some(SaveDialogRequest(window, title, defaultPath));
    if callback.IsEmpty() {
      if !success {
        return Returned(Undefined), shown;
      }
      outcome := Returned(ToV8Value(SinglePath(path)));
    } else {
      outcome := Pending(callback, BoundCallV8Function2(PathKind));
    }
  }

  /** Running the completion bound to a pending call once the dialog closes:
      the native side passes a result of the type the handler was instantiated
      at (and, for a cancellable dialog, the success flag, which the message
      box's handler does not take). The callback then fires exactly once. */
  method RunCompletion(outcome: Outcome, success: bool, arg: NativeResult)
    requires outcome.Pending? && OfKind(arg, outcome.handler.kind)
    requires outcome.callback.Valid() && !outcome.callback.IsEmpty() && outcome.callback.calls == []
    modifies outcome.callback
    ensures outcome.callback.Valid() && outcome.callback.disposed
    ensures outcome.handler.BoundCallV8Function? ==> outcome.callback.calls == [[ToV8Value(arg)]]
    ensures outcome.handler.BoundCallV8Function2? ==> outcome.callback.calls == [[Delivered(success, arg)]]
  {
    match outcome.handler
    case BoundCallV8Function(kind) => CallV8Function(outcome.callback, kind, arg);
    case BoundCallV8Function2(kind) => CallV8Function2(outcome.callback, kind, success, arg);
  }
}
