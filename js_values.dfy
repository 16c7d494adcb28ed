/**
 * The untyped JavaScript values (`any`) that flow through the monitor:
 * request and response bodies, parameters, metadata values.
 */
module Js {
  import opened Strings

  /** A JavaScript value; numbers are integers here. */
  datatype Value =
    | Undefined
    | Null
    | Bool(b: bool)
    | Num(n: int)
    | Str(s: string)
    | Arr(items: seq<Value>)
    | Obj(fields: map<string, Value>)

  /** JavaScript truthiness: `undefined`, `null`, `false`, `0` and `""` are falsy. */
  predicate Truthy(v: Value) {
    match v
    case Undefined => false
    case Null => false
    case Bool(b) => b
    case Num(n) => n != 0
    case Str(s) => s != ""
    case Arr(_) => true
    case Obj(_) => true
  }

  /** How `${v}` renders a value inside a template literal. */
  function Show(v: Value): string
    decreases v, 1
  {
    match v
    case Undefined => "undefined"
    case Null => "null"
    case Bool(b) => if b then "true" else "false"
    case Num(n) => IntToString(n)
    case Str(s) => s
    case Arr(items) => ShowItems(v, 0)
    case Obj(_) => "[object Object]"
  }

  /** `items.join(",")` from index `i` on, where `null` and `undefined` show as empty. */
  function ShowItems(v: Value, i: nat): string
    requires v.Arr? && i <= |v.items|
    decreases v, 0, |v.items| - i
  {
    if i == |v.items| then ""
    else
      var x := v.items[i];
      (if i > 0 then "," else "")
      + (if x.Undefined? || x.Null? then "" else Show(x))
      + ShowItems(v, i + 1)
  }
}
