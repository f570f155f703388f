/** Untyped JavaScript values as they arrive from `JSON.parse` or a response body,
    with the handful of JavaScript operations the front end applies to them:
    truthiness, `typeof v === "object"`, property reads, `??` and `String(v)`. */
module JsonValues {
  import opened Wrappers
  import opened Text

  /** A JavaScript number. Finite numbers are modelled as integers. */
  datatype Num = Finite(value: int) | PosInf | NegInf | NaN

  datatype Json =
    | JNull
    | JBool(b: bool)
    | JNum(n: Num)
    | JStr(s: string)
    | JArr(items: seq<Json>)
    | JObj(fields: map<string, Json>)

  /** `!!v`: `null`, `false`, `0`, `NaN` and `""` are falsy, everything else truthy. */
  predicate Truthy(v: Json)
  {
    match v
    case JNull => false
    case JBool(b) => b
    case JNum(n) => !(n == Finite(0) || n == NaN)
    case JStr(s) => s != ""
    case JArr(_) => true
    case JObj(_) => true
  }

  /** Truthiness of a value that may be `undefined`. */
  predicate TruthyOpt(v: Option<Json>)
  {
    v.Some? && Truthy(v.value)
  }

  /** Truthiness of a `string | null | undefined`. */
  predicate TruthyStr(s: Option<string>)
  {
    s.Some? && s.value != ""
  }

  /** `typeof v === "object" && v !== null`: objects and arrays. */
  predicate IsObject(v: Json)
  {
    v.JObj? || v.JArr?
  }

  /** `v[key]`: an own field of an object; `undefined` for every other value. */
  function Prop(v: Json, key: string): (r: Option<Json>)
    ensures r.Some? <==> v.JObj? && key in v.fields
    ensures r.Some? ==> r.value == v.fields[key]
  {
    if v.JObj? && key in v.fields then Some(v.fields[key]) else None
  }

  /** Reading a property of a value that may itself be `undefined` (optional chaining). */
  function PropOpt(v: Option<Json>, key: string): Option<Json>
  {
    if v.Some? then Prop(v.value, key) else None
  }

  /** `v == null`: `undefined` or `null`. */
  predicate Nullish(v: Option<Json>)
  {
    v.None? || v.value.JNull?
  }

  /** `a ?? b`. */
  function Coalesce(a: Option<Json>, b: Option<Json>): (r: Option<Json>)
    ensures !Nullish(a) ==> r == a
    ensures Nullish(a) ==> r == b
  {
    if Nullish(a) then b else a
  }

  /** The string of a property when it is a string (`typeof v[key] === "string"`). */
  function StringProp(v: Json, key: string): (r: Option<string>)
    ensures r.Some? <==> Prop(v, key).Some? && Prop(v, key).value.JStr?
    ensures r.Some? ==> Prop(v, key) == Some(JStr(r.value))
  {
    match Prop(v, key)
    case Some(JStr(s)) => Some(s)
    case _ => None
  }

  /** The number of a property when it is a number (`typeof v[key] === "number"`). */
  function NumberProp(v: Json, key: string): (r: Option<Num>)
    ensures r.Some? <==> Prop(v, key).Some? && Prop(v, key).value.JNum?
    ensures r.Some? ==> Prop(v, key) == Some(JNum(r.value))
  {
    match Prop(v, key)
    case Some(JNum(n)) => Some(n)
    case _ => None
  }

  /** `String(n)` for a number. */
  function NumToString(n: Num): string
  {
    match n
    case Finite(x) => IntToString(x)
    case PosInf => "Infinity"
    case NegInf => "-Infinity"
    case NaN => "NaN"
  }

  /** `String(v)`. Arrays print their elements joined by `,`, with `null` elements
      printed as the empty string; plain objects print as `[object Object]`. */
  function ToJsString(v: Json): string
  {
    match v
    case JNull => "null"
    case JBool(b) => if b then "true" else "false"
    case JNum(n) => NumToString(n)
    case JStr(s) => s
    case JArr(items) =>
      Join(seq(|items|, i requires 0 <= i < |items| =>
                 if items[i].JNull? then "" else ToJsString(items[i])), ",")
    case JObj(_) => "[object Object]"
  }

  /** `String(n)` for a finite number is its decimal text, which reads back as `n`. */
  lemma NumberStringRoundTrip(x: int)
    ensures ToJsString(JNum(Finite(x))) == IntToString(x)
    ensures ParseInt(ToJsString(JNum(Finite(x)))) == Some(x)
  {
    ParseIntToString(x);
  }
}
