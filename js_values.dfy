/** The JavaScript values that reach the query builders: the fields of the
    options and property objects, `guest_id` and `limit`. Numbers are integers
    here; see README for what that leaves out. */
module JsValues {
  import opened Decimal

  datatype JsValue = Undefined | Null | Bool(b: bool) | Num(n: int) | Str(s: string)

  /** JavaScript truthiness, as used by `if (options.city)`: `undefined`,
      `null`, `false`, `0` and `""` are falsy, everything else is truthy. */
  predicate Truthy(v: JsValue) {
    match v
    case Undefined => false
    case Null => false
    case Bool(b) => b
    case Num(n) => n != 0
    case Str(s) => s != ""
  }

  function IntToString(i: int): (s: string)
    ensures s != []
  {
    if i < 0 then "-" + NatToString(-i) else NatToString(i)
  }

  /** The text a template literal `${v}` produces for `v`. For a number this
      is its plain decimal numeral, which is what JavaScript writes for
      integers of magnitude below 10^21. */
  function TemplateString(v: JsValue): string {
    match v
    case Undefined => "undefined"
    case Null => "null"
    case Bool(b) => if b then "true" else "false"
    case Num(n) => IntToString(n)
    case Str(s) => s
  }

  /** A query as handed to `pool.query`: SQL text and the values of its placeholders. */
  datatype Query = Query(text: string, params: seq<JsValue>)

  /** A parameter declared `limit = 10` takes the default only when the
      argument is `undefined` (also when it is missing). */
  function WithDefault(arg: JsValue, default: JsValue): JsValue {
    if arg.Undefined? then default else arg
  }
}
