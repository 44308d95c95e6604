/** JavaScript values as the route handlers receive them from `request.json()`,
    and the operators the handlers use to default them: `||`, `??`, `!!` and `?.`. */
module Js {
  import opened Text

  datatype Option<+T> = None | Some(value: T)

  /** A JSON value after parsing, plus `undefined` for a key that is absent.
      Numbers are integers here: no handler does arithmetic on them. */
  datatype Val =
    | Undef
    | Null
    | Bool(b: bool)
    | Num(n: int)
    | Str(s: string)
    | Arr(items: seq<Val>)
    | Obj(fields: map<string, Val>)

  /** JavaScript truthiness (`!!v`): false, 0, "", null and undefined are falsy. */
  predicate Truthy(v: Val)
  {
    match v
    case Undef => false
    case Null => false
    case Bool(b) => b
    case Num(n) => n != 0
    case Str(s) => s != ""
    case Arr(_) => true
    case Obj(_) => true
  }

  /** `a || b` */
  function Or(a: Val, b: Val): Val
  {
    if Truthy(a) then a else b
  }

  /** `a ?? d`: only null and undefined are replaced. */
  function Coalesce(a: Val, d: Val): Val
  {
    if a == Undef || a == Null then d else a
  }

  /** `v?.key`, and also plain `v.key` on an object. */
  function Get(v: Val, key: string): Val
  {
    if v.Obj? && key in v.fields then v.fields[key] else Undef
  }

  /** `typeof v === 'object' && !Array.isArray(v)`, which also holds of null. */
  predicate IsPlainObjectOrNull(v: Val)
  {
    v.Obj? || v.Null?
  }

  /** The own enumerable properties `{ ...v }` copies: none for null, undefined or a primitive. */
  function SpreadFields(v: Val): map<string, Val>
  {
    if v.Obj? then v.fields else map[]
  }

  /** A string read from the query string with `searchParams.get`: absent or present. */
  predicate Given(p: Option<string>)
  {
    p.Some? && p.value != ""
  }

  /** Destructuring `const { a, b } = v` throws for null and undefined only. */
  predicate Destructurable(v: Val)
  {
    !v.Null? && !v.Undef?
  }

  /** `v.length` for the values that have one: strings and arrays. */
  function Length(v: Val): (r: Option<nat>)
    ensures r.Some? <==> v.Str? || v.Arr?
    ensures v.Str? ==> r == Some(|v.s|)
    ensures v.Arr? ==> r == Some(|v.items|)
  {
    match v
    case Str(s) => Some(|s|)
    case Arr(items) => Some(|items|)
    case _ => None
  }

  /** `String(v)`. Inside an array, null and undefined print as nothing. */
  function StringOf(v: Val): (r: string)
    ensures v.Str? ==> r == v.s
    ensures v.Obj? ==> r == "[object Object]"
    decreases v, 1
  {
    match v
    case Undef => "undefined"
    case Null => "null"
    case Bool(b) => if b then "true" else "false"
    case Num(n) => if n < 0 then "-" + Decimal(-n) else Decimal(n)
    case Str(s) => s
    case Arr(items) => Join(seq(|items|, i requires 0 <= i < |items| => ElementString(items[i])), ",")
    case Obj(_) => "[object Object]"
  }

  function ElementString(v: Val): string
    decreases v, 2
  {
    if v.Null? || v.Undef? then "" else StringOf(v)
  }
}
