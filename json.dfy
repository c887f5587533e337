/** JSON values as Python's `json` module hands them to the clients, Python's
    truthiness and equality on them, and the text the clients build from them. */
module Json {
  import opened Py

  datatype Value =
    | Null
    | Bool(b: bool)
    | Int(i: int)
    | Real(r: real)
    | Str(s: string)
    | Arr(items: seq<Value>)
    | Obj(fields: map<string, Value>)

  /** A JSON object, the shape of every JSON-RPC message. */
  type Object = map<string, Value>

  /** A message with both a `role` and a `content` entry. */
  predicate HasRoleAndContent(m: Object)
  {
    "role" in m && "content" in m
  }

  /** Python's `bool(v)`. */
  predicate Truthy(v: Value)
  {
    match v
    case Null => false
    case Bool(b) => b
    case Int(i) => i != 0
    case Real(r) => r != 0.0
    case Str(s) => s != ""
    case Arr(items) => items != []
    case Obj(fields) => fields != map[]
  }

  /** `o.get(k)`: the value under `k`, or None. */
  function Get(o: Object, k: string): (v: Value)
    ensures k !in o ==> v == Null
    ensures k in o ==> v == o[k]
  {
    if k in o then o[k] else Null
  }

  /** The numeric reading Python gives booleans, integers and floats. */
  function AsNumber(v: Value): Option<real>
  {
    match v
    case Bool(b) => Some(if b then 1.0 else 0.0)
    case Int(i) => Some(i as real)
    case Real(r) => Some(r)
    case _ => None
  }

  /** Python's `==` on scalars: `True == 1 == 1.0`; other values compare structurally. */
  predicate PyEq(a: Value, b: Value)
  {
    var x, y := AsNumber(a), AsNumber(b);
    if x.Some? && y.Some? then x.value == y.value else a == b
  }

  /** `str(v)` where the model knows the text exactly: None, booleans, integers, strings. */
  function ScalarText(v: Value): (r: Option<string>)
    ensures r.None? <==> v.Real? || v.Arr? || v.Obj?
    ensures v.Str? ==> r == Some(v.s)
  {
    match v
    case Null => Some("None")
    case Bool(b) => Some(if b then "True" else "False")
    case Int(i) => Some(IntToString(i))
    case Str(s) => Some(s)
    case _ => None
  }

  /** Text a client returns. Python's `str()` and `json.dumps` of a float, list or
      dict is not spelled out: such text is kept as the value it renders. */
  datatype Text =
    | Lit(s: string)                  // known character for character
    | Show(prefix: string, v: Value)  // prefix followed by str(v)
    | Raw(v: Value)                   // a non-string value handed back as it is
    | Pretty(v: Value)                // json.dumps(v, indent=2, ensure_ascii=False)
    | Raised(prefix: string)          // prefix followed by str() of a Python exception

  /** `f"{prefix}{v}"`. */
  function ShowValue(prefix: string, v: Value): (t: Text)
    ensures v.Str? ==> t == Lit(prefix + v.s)
    ensures ScalarText(v).Some? ==> t == Lit(prefix + ScalarText(v).value)
    ensures ScalarText(v).None? ==> t == Show(prefix, v)
  {
    match ScalarText(v)
    case Some(s) => Lit(prefix + s)
    case None => Show(prefix, v)
  }

  /** A value a client returns unchanged to a caller expecting a string. */
  function Returned(v: Value): (t: Text)
    ensures v.Str? <==> t.Lit?
    ensures v.Str? ==> t.s == v.s
  {
    if v.Str? then Lit(v.s) else Raw(v)
  }
}
