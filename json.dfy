/** Parsed JSON values (RFC 8259) as the JavaScript code sees them after
    `JSON.parse`. Parsing itself is not modelled: code that parses takes the
    parser as a function parameter. Numbers are integers here. */
module Json {
  import opened Wrappers
  import opened Strings

  datatype Json =
    | JNull
    | JBool(b: bool)
    | JNum(n: int)
    | JStr(s: string)
    | JArr(items: seq<Json>)
    | JObj(fields: seq<(string, Json)>)

  /** `typeof v === 'object' && v !== null` (arrays included). */
  predicate IsObject(v: Json) { v.JObj? || v.JArr? }

  /** `typeof v === 'object' && v !== null` for a property that may be `undefined` (None). */
  predicate IsObjectValue(v: Option<Json>) { v.Some? && IsObject(v.value) }

  /** The value stored under `key` in an object's field list; a later duplicate
      key wins, as it does in `JSON.parse`. */
  function Lookup(fields: seq<(string, Json)>, key: string): Option<Json>
  {
    if fields == [] then None
    else if fields[|fields| - 1].0 == key then Some(fields[|fields| - 1].1)
    else Lookup(fields[..|fields| - 1], key)
  }

  /** Property access `v[key]`; None stands for `undefined`. */
  function Get(v: Json, key: string): Option<Json>
  {
    if v.JObj? then Lookup(v.fields, key) else None
  }

  /** Property access through a value that may itself be `undefined`. */
  function GetIn(v: Option<Json>, key: string): Option<Json>
  {
    if v.Some? then Get(v.value, key) else None
  }

  /** JavaScript truthiness of a value that may be `undefined`. */
  predicate Truthy(v: Option<Json>)
  {
    match v
    case None => false
    case Some(JNull) => false
    case Some(JBool(b)) => b
    case Some(JNum(n)) => n != 0
    case Some(JStr(s)) => s != []
    case Some(_) => true
  }

  /** `null` or `undefined`, the values `??` skips. */
  predicate IsNullish(v: Option<Json>) { v.None? || v.value.JNull? }

  /** `a ?? b ?? ...`: the first alternative that is neither null nor undefined. */
  function Coalesce(vs: seq<Option<Json>>): (r: Option<Json>)
    ensures r.Some? ==> !IsNullish(r) && r in vs
    ensures r.None? ==> forall i :: 0 <= i < |vs| ==> IsNullish(vs[i])
  {
    if vs == [] then None
    else if !IsNullish(vs[0]) then vs[0]
    else Coalesce(vs[1..])
  }

  /** `a || b || ...` without a final default: the first truthy alternative. */
  function FirstTruthy(vs: seq<Option<Json>>): (r: Option<Json>)
    ensures r.Some? ==> Truthy(r) && r in vs
    ensures r.None? <==> forall i :: 0 <= i < |vs| ==> !Truthy(vs[i])
  {
    if vs == [] then None
    else if Truthy(vs[0]) then vs[0]
    else FirstTruthy(vs[1..])
  }

  /** The string held by a value when `typeof v === 'string'`. */
  function AsString(v: Option<Json>): Option<string>
  {
    if v.Some? && v.value.JStr? then Some(v.value.s) else None
  }

  /** `typeof v === 'string' ? v : ''`. */
  function StringOrEmpty(v: Option<Json>): string
  {
    if v.Some? && v.value.JStr? then v.value.s else ""
  }

  /** `String(v || '')` for the values the runners read as text: a string is
      itself, a falsy value is ''. Other values are rendered as '' here. */
  function TextOf(v: Option<Json>): string
  {
    if v.Some? && v.value.JStr? then v.value.s
    else if v.Some? && v.value.JNum? && v.value.n != 0 then IntToString(v.value.n)
    else ""
  }

  /** A string field when it is a string, else `undefined`. */
  function GetString(v: Json, key: string): Option<string>
  {
    AsString(Get(v, key))
  }

  /** The result of JavaScript's `Number(v)`: a finite value or NaN/Infinity. */
  datatype Numeric = Finite(r: real) | NotFinite

  /** `Number(v)` for a JSON value; numeric strings are decimal digit strings
      here, and a one-item array reads as its item. */
  function ToNumber(v: Option<Json>): Numeric
  {
    if v.None? then NotFinite else ValueNumber(v.value)
  }

  /** `Number(x)` for a value that is present. */
  function ValueNumber(x: Json): Numeric
  {
    match x
    case JNull => Finite(0.0)
    case JBool(b) => Finite(if b then 1.0 else 0.0)
    case JNum(n) => Finite(n as real)
    case JStr(s) =>
      var t := Trim(s);
      if t == [] then Finite(0.0)
      else if forall i :: 0 <= i < |t| ==> IsDigit(t[i]) then Finite(DecimalValue(t) as real)
      else NotFinite
    case JArr(items) =>
      // `Number([x])` reads `String(x)`; two or more items hold a comma.
      if items == [] then Finite(0.0)
      else if |items| == 1 && items[0].JNull? then Finite(0.0)
      else if |items| == 1 && (items[0].JNum? || items[0].JStr? || items[0].JArr?) then ValueNumber(items[0])
      else NotFinite
    case JObj(_) => NotFinite
  }

}
