/** The slice of JavaScript's dynamic values that the supervisor inspects:
    an optional argument may be missing, a string, a number, or a function
    or object whose enumerable properties may hold functions. Numbers are integers here;
    NaN and fractional values are not modelled. */
module JsValues {

  datatype JsValue =
    | Undefined
    | Null
    | Bool(b: bool)
    | Num(n: int)
    | Str(s: string)
    /** A function is an object too: `props` holds its enumerable properties. */
    | Func(props: map<string, JsValue>)
    /** `props` holds the object's enumerable properties, own or inherited. */
    | Obj(props: map<string, JsValue>)

  /** JavaScript truthiness: `undefined`, `null`, `false`, `0` and `""` are falsy. */
  predicate Truthy(v: JsValue)
  {
    match v
    case Undefined => false
    case Null => false
    case Bool(b) => b
    case Num(n) => n != 0
    case Str(s) => s != ""
    case Func(_) => true
    case Obj(_) => true
  }

  /** The `typeof` operator (`typeof null` is "object"). */
  function TypeOf(v: JsValue): (t: string)
    ensures t == "number" <==> v.Num?
    ensures t == "function" <==> v.Func?
    ensures t == "string" <==> v.Str?
  {
    match v
    case Undefined => "undefined"
    case Null => "object"
    case Bool(_) => "boolean"
    case Num(_) => "number"
    case Str(_) => "string"
    case Func(_) => "function"
    case Obj(_) => "object"
  }

  /** lodash `_.functions`: the names of an object's or a function's enumerable
      properties, own or inherited, that hold functions; primitives have none. */
  function Functions(v: JsValue): set<string>
  {
    match v
    case Obj(props) => set k | k in props && props[k].Func?
    case Func(props) => set k | k in props && props[k].Func?
    case _ => {}
  }
}
