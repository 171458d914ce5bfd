/** Configuration values as JavaScript sees them after `JSON.parse` or a YAML load: the JSON
    value kinds plus `undefined`, which an object may hold as the value of an own key. Numbers
    are integers here. The helpers give the JavaScript meaning of the operators the core uses:
    truthiness, `??`, `||`, property reads and writes, `for…in` and string conversion. */
module Json {
  import opened Results
  import opened Text

  /** An array holds its elements and the named properties assigned onto it (`arr.name = x`),
      which are not elements; a parsed array has none. */
  datatype JVal =
    | JUndef
    | JNull
    | JBool(b: bool)
    | JNum(n: int)
    | JStr(s: string)
    | JArr(items: seq<JVal>, props: map<string, JVal>)
    | JObj(fields: map<string, JVal>)

  /** A plain object, by its own keys. */
  type Obj = map<string, JVal>

  /** JavaScript truthiness: `undefined`, `null`, `false`, `0` and `''` are falsy. */
  predicate Truthy(v: JVal) {
    match v
    case JUndef => false
    case JNull => false
    case JBool(b) => b
    case JNum(n) => n != 0
    case JStr(s) => s != ""
    case JArr(_, _) => true
    case JObj(_) => true
  }

  predicate IsNullish(v: JVal) {
    v.JUndef? || v.JNull?
  }

  /** `v ?? d`. */
  function Coalesce(v: JVal, d: JVal): JVal {
    if IsNullish(v) then d else v
  }

  /** `v || d`. */
  function OrElse(v: JVal, d: JVal): JVal {
    if Truthy(v) then v else d
  }

  /** `m[k]` on a plain object: a key it does not own reads as `undefined`. */
  function Get(m: Obj, k: string): JVal {
    if k in m then m[k] else JUndef
  }

  /** `v?.k` for the configuration keys the core reads: none of them is an array index,
      `length`, or a property that strings and numbers carry. */
  function Prop(v: JVal, k: string): JVal {
    match v
    case JObj(m) => Get(m, k)
    case JArr(_, named) => Get(named, k)
    case _ => JUndef
  }

  /** The keys `for (const key in v)` visits and `hasOwnProperty` accepts, with their values:
      an object's own keys, the indices of an array followed by its named properties, the
      indices of a string, nothing for other values. */
  function OwnEntries(v: JVal): Obj {
    DecimalInjective();
    match v
    case JObj(m) => m
    case JArr(xs, named) => (map i | 0 <= i < |xs| :: DecimalString(i) := xs[i]) + named
    case JStr(s) => map i | 0 <= i < |s| :: DecimalString(i) := JStr([s[i]])
    case _ => map[]
  }

  /** The keys of `m` whose value is not `undefined`. */
  function DefinedKeys(m: Obj): set<string> {
    set k | k in m && m[k] != JUndef
  }

  /** `String(v)`, which is also what a template literal inserts. */
  function JsString(v: JVal): string {
    match v
    case JUndef => "undefined"
    case JNull => "null"
    case JBool(b) => if b then "true" else "false"
    case JNum(n) => if n < 0 then "-" + DecimalString(-n) else DecimalString(n)
    case JStr(s) => s
    case JArr(xs, _) => JoinElements(xs, 0)
    case JObj(_) => "[object Object]"
  }

  /** `xs.slice(i).join(',')`, where `null` and `undefined` elements become empty. */
  function JoinElements(xs: seq<JVal>, i: nat): string
    requires i <= |xs|
    decreases xs, |xs| - i
  {
    if i == |xs| then ""
    else
      var head := if IsNullish(xs[i]) then "" else JsString(xs[i]);
      if i + 1 == |xs| then head else head + "," + JoinElements(xs, i + 1)
  }

  function TypeName(v: JVal): string {
    match v
    case JUndef => "undefined"
    case JNull => "null"
    case JBool(_) => "boolean"
    case JNum(_) => "number"
    case JStr(_) => "string"
    case JArr(_, _) => "object"
    case JObj(_) => "object"
  }

  /** `v.k = x` in strict-mode code, for a name `k` that is not an array index or `length`: an
      object gains or replaces the key, an array gains or replaces the named property and keeps
      its elements; `null`, `undefined` and primitives throw a TypeError. */
  function SetProp(v: JVal, k: string, x: JVal): (r: Result<JVal>)
    ensures v.JObj? ==> r == Ok(JObj(v.fields[k := x]))
    ensures v.JArr? ==> r == Ok(JArr(v.items, v.props[k := x]))
    ensures r.Ok? ==> Prop(r.value, k) == x
    ensures r.Err? <==> !v.JObj? && !v.JArr?
  {
    match v
    case JObj(m) => Ok(JObj(m[k := x]))
    case JArr(xs, named) => Ok(JArr(xs, named[k := x]))
    case JUndef => Err("Cannot set properties of undefined (setting '" + k + "')")
    case JNull => Err("Cannot set properties of null (setting '" + k + "')")
    case _ => Err("Cannot create property '" + k + "' on " + TypeName(v) + " '" + JsString(v) + "'")
  }
}
