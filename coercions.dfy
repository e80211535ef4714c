/** The value coercion layer: the `FromV8Value` conversions from a script value
    to each native type the entry points ask for, and the `ToV8Value` overloads
    that turn a native dialog result back into a script value. Every conversion
    is total: a value of the wrong shape yields a default, never an error. */
module Coercions {
  import opened Values

  /** Narrowing of the engine's 64-bit integer value to the native `int`, which
      keeps the low 32 bits. */
  function ToInt32(n: int): (r: int32)
    ensures -0x8000_0000 <= n < 0x8000_0000 ==> r as int == n
    ensures (n - r as int) % 0x1_0000_0000 == 0
  {
    var m := n % 0x1_0000_0000;
    if m < 0x8000_0000 then m as int32 else (m - 0x1_0000_0000) as int32
  }

  function DigitChar(d: nat): char
    requires d < 10
  {
    "0123456789"[d]
  }

  function Digits(n: nat): string
  {
    if n < 10 then [DigitChar(n)] else Digits(n / 10) + [DigitChar(n % 10)]
  }

  /** How the engine prints an integral number. */
  function DecimalText(n: int): string
  {
    if n < 0 then "-" + Digits(-n) else Digits(n)
  }

  /** `r` is what a C string copy of `s` keeps: the characters before the
      first NUL, or all of `s` when it holds none. */
  ghost predicate CText(s: string, r: string)
  {
    r <= s && '\0' !in r && (|r| < |s| ==> s[|r|] == '\0')
  }

  /** Copying a NUL-terminated buffer into a `std::string`: it stops at the
      first NUL. */
  function UpToNul(s: string): (r: string)
    ensures CText(s, r)
  {
    if s == [] || s[0] == '\0' then [] else [s[0]] + UpToNul(s[1..])
  }

  /** The engine's string conversion of a value. A string converts to itself. */
  function EngineText(v: Value): (r: string)
    ensures v.Str? ==> r == v.s
    ensures v.Undefined? ==> r == "undefined"
    decreases v, 1
  {
    match v
    case Undefined => "undefined"
    case Number(n) => DecimalText(n)
    case Str(s) => s
    case Array(es) => ElementsText(v, es)
    case Object(_) => "[object Object]"
    case Function(_, source) => source
  }

  /** `FromV8Value` as `std::string`: the engine's string conversion, read back
      through a `char*` and so cut at its first NUL. A string without NUL
      converts to exactly its own characters. */
  function AsString(v: Value): (r: string)
    ensures CText(EngineText(v), r)
    ensures v.Str? ==> CText(v.s, r)
    ensures v.Str? && '\0' !in v.s ==> r == v.s
    ensures v.Undefined? ==> r == "undefined"
  {
    UpToNul(EngineText(v))
  }

  /** The engine's printing of an array: its elements joined by commas, where an
      undefined element prints as nothing. */
  function ElementsText(ghost parent: Value, es: seq<Value>): string
    requires forall e | e in es :: e < parent
    decreases parent, 0, |es|
  {
    if es == [] then ""
    else
      assert es[0] in es;
      assert forall e | e in es[1..] :: e in es;
      var first := if es[0].Undefined? then "" else EngineText(es[0]);
      if |es| == 1 then first else first + "," + ElementsText(parent, es[1..])
  }

  /** `FromV8Value` as `int`: the integer value of a number, narrowed to 32 bits.
      Every use in the bridge follows a successful number check. */
  function AsInt(v: Value): (r: int32)
    requires v.Number?
    ensures -0x8000_0000 <= v.n < 0x8000_0000 ==> r as int == v.n
  {
    ToInt32(v.n)
  }

  /** `FromV8Value` as a file path: the string conversion (so also cut at the
      first NUL), with no normalisation of the bytes. */
  function AsPath(v: Value): (p: Path)
    ensures v.Str? ==> CText(v.s, p)
    ensures v.Str? && '\0' !in v.s ==> p == v.s
  {
    AsString(v)
  }

  /** `FromV8Value` as a native window: the live window an object wraps, and
      `None` (a null window) for a non-object, an object that wraps no window,
      or a window wrapper whose native window is gone. */
  function AsWindow(v: Value): (w: Option<WindowId>)
    ensures w.Some? <==> v.Object? && v.host.Some? && v.host.value.native.Some?
    ensures w.Some? ==> w.value == v.host.value.native.value
    ensures !v.Object? ==> w == None
  {
    if v.Object? then
      match v.host
      case Some(HostWindow(Some(id))) => Some(id)
      case _ => None
    else None
  }

  /** `FromV8Value` as a persistent function handle: the function a callable
      value denotes, and the empty handle (`None`) for anything else. */
  function AsCallback(v: Value): (f: Option<FunctionId>)
    ensures f.Some? <==> v.Function?
    ensures f.Some? ==> f.value == v.id
  {
    if v.Function? then Some(v.id) else None
  }

  /** The native results the dialogs produce, one per `ToV8Value` overload:
      a button index, the chosen paths of an open dialog, the chosen path of a
      save dialog, and the null `void*` that stands for "no result". */
  datatype NativeResult =
    | Code(code: int32)
    | Paths(paths: seq<Path>)
    | SinglePath(path: Path)
    | NoResult

  /** The native result types the `ToV8Value` overloads take: `int`, a vector
      of paths, one path, and `void*`. A completion handler is instantiated at
      one of them. */
  datatype ResultKind = CodeKind | PathsKind | PathKind | NullKind

  predicate OfKind(r: NativeResult, k: ResultKind)
  {
    match k
    case CodeKind => r.Code?
    case PathsKind => r.Paths?
    case PathKind => r.SinglePath?
    case NullKind => r.NoResult?
  }

  /** The `ToV8Value` overloads: a button index becomes a number, a path a
      string of the same length and bytes, a list of paths an array with one
      string per path in order, and the null result `undefined`. */
  function ToV8Value(r: NativeResult): (v: Value)
    ensures r.Code? ==> v == Number(r.code as int)
    ensures r.SinglePath? ==> v == Str(r.path)
    ensures r.Paths? ==> v.Array? && |v.elements| == |r.paths|
    ensures r.Paths? ==> forall i | 0 <= i < |r.paths| :: v.elements[i] == Str(r.paths[i])
    ensures r.NoResult? ==> v == Undefined
  {
    match r
    case Code(c) => Number(c as int)
    case Paths(ps) => Array(seq(|ps|, i requires 0 <= i < |ps| => Str(ps[i])))
    case SinglePath(p) => Str(p)
    case NoResult => Undefined
  }

  /** The list-of-paths overload as lines 75-80 run it: allocate an array of
      the right length and set each element to the converted path. */
  method PathsToV8Value(paths: seq<Path>) returns (v: Value)
    ensures v == ToV8Value(Paths(paths))
    ensures v.Array? && |v.elements| == |paths|
    ensures forall i | 0 <= i < |paths| :: v.elements[i] == Str(paths[i])
  {
    var result := new Value[|paths|](_ => Undefined);
    var i := 0;
    while i < |paths|
      invariant 0 <= i <= |paths|
      invariant forall k | 0 <= k < i :: result[k] == Str(paths[k])
    {
      result[i] := ToV8Value(SinglePath(paths[i]));
      i := i + 1;
    }
    v := Array(result[..]);
  }

  /** A path converted to a script string and back is byte-identical, as long
      as it holds no NUL (no file-system path does). */
  lemma PathRoundTrip(p: Path)
    requires '\0' !in p
    ensures AsPath(ToV8Value(SinglePath(p))) == p
  {
  }

  /** A script string without NUL converted to a path and back is the same
      script value. */
  lemma StringRoundTrip(v: Value)
    requires v.Str? && '\0' !in v.s
    ensures ToV8Value(SinglePath(AsPath(v))) == v
  {
  }

  /** A script string that holds a NUL loses everything from it on: converted
      to a path and back it is a strictly shorter string. */
  lemma StringRoundTripLosesNul(v: Value)
    requires v.Str? && '\0' in v.s
    ensures ToV8Value(SinglePath(AsPath(v))).Str?
    ensures |ToV8Value(SinglePath(AsPath(v))).s| < |v.s|
    ensures ToV8Value(SinglePath(AsPath(v))) != v
  {
  }

  /** For instance, the script string "a\0b" converts to the native string "a". */
  lemma NulCutsString()
    ensures AsString(Str("a\0b")) == "a"
  {
    assert UpToNul("a\0b") == ['a'] + UpToNul("\0b");
  }

  /** A button index converted to a script number and back is unchanged,
      including negative dismissal codes. */
  lemma CodeRoundTrip(c: int32)
    ensures ToV8Value(Code(c)).Number?
    ensures AsInt(ToV8Value(Code(c))) == c
  {
  }

  /** The converted path list keeps count and order, and each element reads
      back as the path it came from (paths hold no NUL). */
  lemma PathsRoundTrip(ps: seq<Path>)
    requires forall i | 0 <= i < |ps| :: '\0' !in ps[i]
    ensures ToV8Value(Paths(ps)).Array?
    ensures |ToV8Value(Paths(ps)).elements| == |ps|
    ensures forall i | 0 <= i < |ps| :: AsPath(ToV8Value(Paths(ps)).elements[i]) == ps[i]
  {
  }
}
