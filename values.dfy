/**
 * The values that the assistant keeps in its `customer_data` dictionary, and the
 * pieces of Python's object semantics the workflow applies to them: `dict.get`
 * (absent keys give `None`), truthiness, `str()` and `==` (where `True == 1`).
 */
module PyValues {
  import opened Text

  datatype Option<+T> = None | Some(value: T)

  /** A profile value: the source stores strings, integers and booleans only. */
  datatype Value = Str(s: string) | Int(i: int) | Bool(b: bool)

  /** `m.get(key)`. */
  function Get(m: map<string, Value>, key: string): (v: Option<Value>)
    ensures v.Some? <==> key in m
    ensures v.Some? ==> v.value == m[key]
  {
    if key in m then Some(m[key]) else None
  }

  /** Python's `bool(v)`; `None` is false. */
  predicate Truthy(v: Option<Value>) {
    match v
    case None => false
    case Some(Str(s)) => s != ""
    case Some(Int(i)) => i != 0
    case Some(Bool(b)) => b
  }

  /** Python's `str(v)`, as used by f-strings. */
  function PyStr(v: Value): string {
    match v
    case Str(s) => s
    case Int(i) => IntToDecimal(i)
    case Bool(b) => if b then "True" else "False"
  }

  /** The number a value stands for in a comparison: `bool` is a subclass of `int`. */
  function AsNumber(v: Value): Option<int> {
    match v
    case Str(_) => None
    case Int(i) => Some(i)
    case Bool(b) => Some(if b then 1 else 0)
  }

  /** Python's `==` on two optional values: `None == None`, `True == 1`, strings by content. */
  predicate PyEq(a: Option<Value>, b: Option<Value>) {
    match (a, b)
    case (None, None) => true
    case (Some(x), Some(y)) =>
      if x.Str? || y.Str? then x == y else AsNumber(x) == AsNumber(y)
    case _ => false
  }

  /** `==` is symmetric on these values. */
  lemma PyEqSymmetric(a: Option<Value>, b: Option<Value>)
    ensures PyEq(a, b) == PyEq(b, a)
  {
  }
}
