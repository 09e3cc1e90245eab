/** The JavaScript values the frontend utilities inspect, with property access, truthiness, `||` and template-literal text. */
module JsValues {
  import Basics

  /** A JavaScript value as far as the client inspects it (integers only). */
  datatype JsValue =
    | JUndefined
    | JNull
    | JBool(b: bool)
    | JNum(n: int)
    | JStr(s: string)
    | JObj(fields: map<string, JsValue>)

  /**
   * Property access `v.k`, and `v?.k`: a non-object has none of the
   * properties the utilities read.
   */
  function Prop(v: JsValue, k: string): (r: JsValue)
    ensures !v.JObj? ==> r == JUndefined
    ensures v.JObj? && k !in v.fields ==> r == JUndefined
  {
    if v.JObj? && k in v.fields then v.fields[k] else JUndefined
  }

  /** JavaScript truthiness. */
  predicate Truthy(v: JsValue) {
    match v
    case JUndefined => false
    case JNull => false
    case JBool(b) => b
    case JNum(n) => n != 0
    case JStr(s) => s != ""
    case JObj(_) => true
  }

  /** `a || b`. */
  function Or(a: JsValue, b: JsValue): (r: JsValue)
    ensures Truthy(a) ==> r == a
    ensures !Truthy(a) ==> r == b
  {
    if Truthy(a) then a else b
  }

  /** What a template literal `${v}` turns a value into. */
  function Text(v: JsValue): string {
    match v
    case JUndefined => "undefined"
    case JNull => "null"
    case JBool(b) => if b then "true" else "false"
    case JNum(n) => Basics.IntToString(n)
    case JStr(s) => s
    case JObj(_) => "[object Object]"
  }
}
