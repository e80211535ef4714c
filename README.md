# Dialog bridge model

A Dafny model of the dialog bridge of the atom browser shell
(`browser/api/atom_api_dialog.cc`). Script code calls `showMessageBox`,
`showOpenDialog` and `showSaveDialog`. Each entry point does the same four steps:

1. It checks the shapes of its positional arguments. A mismatch throws the type error "Bad argument".
2. It coerces the arguments to a native request.
3. If the callback argument is not a function, it asks the native dialog synchronously and returns the converted result directly.
4. Otherwise it starts the dialog asynchronously and returns `undefined`. The callback is later fired exactly once with the converted result, then released.

Modules, leaf first:

- `Values` (values.dfy): the engine's tagged values (`Undefined`, `Number`, `Str`, `Array`, `Object` wrapping an optional browser window, `Function`), `int32`, window and function identities, paths.
- `Coercions` (coercions.dfy): the `FromV8Value` conversion operators as total functions, and the `ToV8Value` overloads. It has the function `ToV8Value` and the in-place array-filling loop `PathsToV8Value` that it specifies.
- `Callbacks` (callbacks.dfy): the persistent function handle as a class with `calls` and `disposed` fields, and the completion handlers `CallV8Function` and `CallV8Function2`.
- `Dialog` (dialog.dfy): shape validation, the native requests, and the three entry points.
- `Scenarios` (scenarios.dfy): client methods that use only the entry points' contracts. They show that the two modes agree, and they work through concrete calls such as `showMessageBox(0, ["OK", "Cancel"], "T", "M", "D")`.

The native dialog primitives are not part of this model. Their answers are parameters supplied by the caller:

- the synchronous answer is a parameter of the entry point;
- the asynchronous answer is a parameter of `RunCompletion`, which the caller runs on the pending outcome later. It runs the bound `CallV8Function` or `CallV8Function2` and accepts only a result of the type that handler was instantiated at.

Each entry point also returns `shown`, the request passed to the native primitive, or `None` when no dialog was asked for.

## Model

| member | source | states |
|---|---|---|
| `Coercions.ToInt32` | browser/api/atom_api_dialog.cc:34-36 | the native `int` keeps the integer when it fits in 32 bits, and in every case agrees with it modulo 2^32 |
| `Coercions.UpToNul` | browser/api/atom_api_dialog.cc:31 | copying the engine's `char*` text into a `std::string` keeps exactly the characters before the first NUL (all of them when there is none) |
| `Coercions.AsString` | browser/api/atom_api_dialog.cc:30-32 | the engine's string conversion, cut at its first NUL: a script string converts to its characters up to the first NUL, a NUL-free string to exactly itself, `undefined` to the text "undefined" |
| `Coercions.AsInt` | browser/api/atom_api_dialog.cc:34-36 | a number whose value fits in 32 bits converts to that value |
| `Coercions.AsPath` | browser/api/atom_api_dialog.cc:38-40 | a script string converts to a path with its bytes up to the first NUL and no other change; a NUL-free string keeps all its bytes |
| `Coercions.AsWindow` | browser/api/atom_api_dialog.cc:42-49 | the result is a window exactly when the value is an object wrapping a browser window whose native window is live, and then it is that window; a non-object gives the null window |
| `Coercions.AsCallback` | browser/api/atom_api_dialog.cc:51-57 | the handle is non-empty exactly when the value is a function, and then it holds that function |
| `Coercions.ToV8Value` | browser/api/atom_api_dialog.cc:62-80 | a button index becomes a number, a path a string of the same bytes, a list of paths an array with one string per path in order, and the null result `undefined` |
| `Coercions.PathsToV8Value` | browser/api/atom_api_dialog.cc:75-80 | the array it builds has one element per path, in order, element i being the string of path i |
| `Coercions.PathRoundTrip` | browser/api/atom_api_dialog.cc:62-65 | a NUL-free path converted to a script string and back is byte-identical |
| `Coercions.StringRoundTrip` | browser/api/atom_api_dialog.cc:38-40 | a NUL-free script string converted to a path and back is the same value |
| `Coercions.StringRoundTripLosesNul` | browser/api/atom_api_dialog.cc:31 | a script string holding a NUL does not survive that round trip: it comes back strictly shorter |
| `Coercions.NulCutsString` | browser/api/atom_api_dialog.cc:31 | the script string "a\0b" converts to the native string "a" |
| `Coercions.CodeRoundTrip` | browser/api/atom_api_dialog.cc:71-73 | a button index becomes a script number that reads back as the same index, negative codes included |
| `Coercions.PathsRoundTrip` | browser/api/atom_api_dialog.cc:75-80 | the converted list of NUL-free paths keeps count and order, and each element reads back as its path |
| `Callbacks.Callback.constructor` | browser/api/atom_api_dialog.cc:51-57 | a new handle holds the given function, or is empty; it has not been invoked or released |
| `Callbacks.Callback.Call` | browser/api/atom_api_dialog.cc:88 | a live handle not yet invoked is invoked once with the argument list, and stays valid; a handle already invoked cannot be invoked again |
| `Callbacks.Callback.Dispose` | browser/api/atom_api_dialog.cc:89 | a handle invoked once and not yet released is marked released, with its invocation unchanged |
| `Callbacks.CallV8Function` | browser/api/atom_api_dialog.cc:83-90 | given a non-empty, unused handle and a result of the type it is instantiated at, it fires the callback exactly once with one argument, the converted result, and then releases it |
| `Callbacks.Delivered` | browser/api/atom_api_dialog.cc:92-100 | the value the completion handler passes is `Undefined` when the dialog failed and is the converted result otherwise |
| `Callbacks.CallV8Function2` | browser/api/atom_api_dialog.cc:92-100 | given a non-empty, unused handle and a result of its type, it fires the callback exactly once with that delivered value and releases it |
| `Dialog.MatchFrom` | browser/api/atom_api_dialog.cc:115-120 | the left-to-right shape check passes exactly when every checked argument has its declared shape, a missing argument reading as `undefined` |
| `Dialog.MessageBoxShapesSpelledOut` | browser/api/atom_api_dialog.cc:115-120 | the message box check passes exactly when the arguments are number, array, string, string, string |
| `Dialog.OpenDialogShapesSpelledOut` | browser/api/atom_api_dialog.cc:156-159 | the open dialog check passes exactly when the arguments are string, string, number |
| `Dialog.SaveDialogShapesSpelledOut` | browser/api/atom_api_dialog.cc:197-199 | the save dialog check passes exactly when the arguments are string, string |
| `Dialog.CollectButtons` | browser/api/atom_api_dialog.cc:127-130 | the button vector has the length of the buttons array, and label i is the string conversion of element i |
| `Dialog.MessageBoxRequestFor` | browser/api/atom_api_dialog.cc:122-134 | the message box request carries the coerced window, the kind, the labels in order, and the title, message and detail strings, each up to its first NUL |
| `Dialog.OpenDialogRequestFor` | browser/api/atom_api_dialog.cc:161-166 | the open dialog request carries the coerced window, the title and default path, each up to its first NUL, and the properties number |
| `Dialog.SaveDialogRequestFor` | browser/api/atom_api_dialog.cc:201-205 | the save dialog request carries the coerced window and the title and default path, each up to its first NUL |
| `Dialog.ShowMessageBox` | browser/api/atom_api_dialog.cc:112-151 | it has exactly one outcome. On a shape mismatch it throws "Bad argument" and shows nothing. With no function callback it shows the request and returns the chosen index unchanged (-1 included). With a function it shows the request and leaves a fresh, unused handle on that function pending on `CallV8Function` at the button-index type |
| `Dialog.ShowOpenDialog` | browser/api/atom_api_dialog.cc:153-192 | on a shape mismatch it throws "Bad argument" and shows nothing; synchronously it returns `Undefined` on failure and otherwise the paths as an array of the same count and order; with a function it leaves a fresh, unused handle pending on `CallV8Function2` at the path-list type |
| `Dialog.ShowSaveDialog` | browser/api/atom_api_dialog.cc:194-224 | on a shape mismatch it throws "Bad argument" and shows nothing; synchronously it returns `Undefined` on failure and otherwise the path as a string; with a function it leaves a fresh, unused handle pending on `CallV8Function2` at the single-path type |
| `Dialog.RunCompletion` | browser/api/atom_api_dialog.cc:140-222 | running a pending call's completion (bound at lines 148, 188 and 221) with a result of the bound type fires its unused callback exactly once, with the converted result for the message box and with the delivered value (`Undefined` on failure) for the file dialogs, and releases it |
| `Scenarios.MessageBoxModesAgree` | browser/api/atom_api_dialog.cc:136-149 | for any well-shaped message box call, the synchronous return and the single callback argument of the asynchronous call are both the chosen index, and the asynchronous call returns `Undefined` |
| `Scenarios.OpenDialogModesAgree` | browser/api/atom_api_dialog.cc:168-190 | for any well-shaped open dialog call and native outcome, the synchronous return equals the single callback argument of the asynchronous call, and the asynchronous call returns `Undefined` |
| `Scenarios.SaveDialogModesAgree` | browser/api/atom_api_dialog.cc:207-222 | for any well-shaped save dialog call and native outcome, the synchronous return equals the single callback argument of the asynchronous call, and the asynchronous call returns `Undefined` |
| `Scenarios.MessageBoxReturnsChosenButton` | browser/api/atom_api_dialog.cc:136-139 | `showMessageBox(0, ["OK", "Cancel"], "T", "M", "D")` answered with 0 shows those labels and returns 0 |
| `Scenarios.OpenDialogCancelled` | browser/api/atom_api_dialog.cc:182-190 | a cancelled asynchronous open dialog returns `Undefined` at once and fires its callback once with `Undefined` |
| `Scenarios.SaveDialogReturnsPath` | browser/api/atom_api_dialog.cc:207-215 | a synchronous save dialog answered with `/tmp/x/out.txt` returns that string |
| `Scenarios.NonArrayButtonsRejected` | browser/api/atom_api_dialog.cc:115-120 | a non-array buttons argument throws "Bad argument" and asks no native primitive, whatever the callback argument |

Notes on the model:

- A callback fires at most once. `Call` requires a handle that has not been invoked, and keeps `Callback.Valid()`, which allows at most one invocation and a release only after it. So a handle that `CallV8Function` or `CallV8Function2` has fired cannot be fired again.
- An empty handle is never invoked, because `Call` requires a non-empty handle. So the synchronous path never fires a callback.
- The synchronous open dialog fills its result array with the same loop as the list-of-paths `ToV8Value` overload (lines 177-179 repeat lines 76-78). Both are modelled by `PathsToV8Value`.
- Callers pass an array of strings as `buttons`, but the code checks only `IsArray` (line 116) and converts each element with the engine's string conversion (line 130). The model follows the code: an element of any shape is accepted and printed.
- Each pending completion records the result type its handler is instantiated at: `int` for the message box (line 148), a vector of paths for the open dialog (line 188), one path for the save dialog (line 221). `RunCompletion` accepts only a result of that type.
- Every string conversion goes through a `char*` (line 31), so a title, message, detail, button label or default path is cut at its first NUL. Paths returned to the script keep their length (line 64), so a NUL-free path round-trips exactly; a script string holding a NUL does not.
- The message box's dismissal result is passed through unchanged. The model keeps that ambiguity: -1 is not told apart from a button index.

## Left out

- V8 handle scopes, the garbage-collection semantics of `Persistent` handles, and `node_isolate` are left out: they are runtime plumbing. The handle is an abstract one-shot object.
- The real dialogs (`file_dialog::*`, `atom::ShowMessageBox`) are not part of this model. Their results and success flags are inputs. An entry point's synchronous-answer parameters are unused on the asynchronous path.
- `Window::Unwrap` and `NativeWindow` internals are not part of this model. An object carries an optional wrapped window, whose native window may be gone.
- V8 treats arrays and functions as objects too. The model's arrays and functions wrap no window, so they coerce to the null window. The unchecked unwrap of an arbitrary object is not modelled.
- Numbers are integers. The engine's truncation of a non-integral double (`IntegerValue`) is floating point and is left out. So is the 64-bit range of `IntegerValue`; the 32-bit narrowing to `int` is modelled.
- `Coercions.AsInt` requires a number. The engine's number conversion of other values is not modelled because each use comes after an `IsNumber` check.
- `Coercions.AsString` models the engine's string conversion only for the shapes here. Strings are themselves, integers are decimal, `undefined` is "undefined", arrays join their elements with commas, objects print as "[object Object]", and functions print as their source text; the result is then cut at its first NUL. User-defined `toString` methods, non-integral numbers and UTF-8 encoding are left out. The engine prints an integral number of magnitude 10^21 or more in exponent form (`1e+21`); the model prints every integer in decimal, so such a button label differs. Paths are the same bytes as strings.
- The unchecked cast of the message box kind to `MessageBoxType` (line 125) is kept as the narrowed `int32`. No behaviour hangs on it here.
- The receiver of the callback invocation (the function itself) is not recorded. Only the argument list is.
- `Initialize` and `NODE_MODULE` are registration wiring and are left out.
- Moving the completion back onto the engine's thread is concurrency outside this file and is left out.
