/** Dynamically typed values as they appear in the flight, complaint and
    summary rows the scripts pass around as Python dicts. Only the value
    kinds those rows hold are modelled: None, bool, int and str. */
module Values {

  /** The conventional Some/None datatype, standing for Python's `Optional`. */
  datatype Option<T> = None | Some(value: T)

  /** The outcome of an operation that can raise: its value, or the name of
      the Python exception it raises. */
  datatype Result<T> = Ok(value: T) | Err(error: string)

  /** A Python value stored in a row. */
  datatype Value = Null | Bool(b: bool) | Int(i: int) | Str(s: string)

  /** A row: a Python dict from column name to value. */
  type Record = map<string, Value>

  /** Python truthiness: None, False, 0 and "" are falsy. */
  predicate Truthy(v: Value)
  {
    match v
    case Null => false
    case Bool(b) => b
    case Int(i) => i != 0
    case Str(s) => s != ""
  }

  /** `d.get(key)`: the stored value, or None when the key is absent. */
  function Get(r: Record, key: string): Value
  {
    if key in r then r[key] else Null
  }

  /** `d.get(key, default)`: the default is used only when the key is absent,
      not when the stored value is None. */
  function GetOr(r: Record, key: string, default: Value): (v: Value)
    ensures key !in r ==> v == default
    ensures key in r ==> v == r[key]
  {
    if key in r then r[key] else default
  }

  /** Python's `a or b`: the first operand if it is truthy, else the second. */
  function Or(a: Value, b: Value): (v: Value)
    ensures Truthy(a) ==> v == a
    ensures !Truthy(a) ==> v == b
  {
    if Truthy(a) then a else b
  }

  /** `bool(v)` */
  function ToBool(v: Value): (r: Value)
    ensures r.Bool? && (r.b <==> Truthy(v))
  {
    Bool(Truthy(v))
  }

  /** The integer a value stands for in arithmetic comparisons: bool is a
      subclass of int in Python, so True counts as 1 and False as 0. */
  function NumberOf(v: Value): Option<int>
  {
    match v
    case Bool(b) => Some(if b then 1 else 0)
    case Int(i) => Some(i)
    case _ => None
  }

  /** Python's slice `s[:n]`: the first `n` items, or all of them when
      there are fewer. */
  function Take<T>(s: seq<T>, n: nat): (r: seq<T>)
    ensures |r| == if |s| < n then |s| else n
    ensures r == s[..|r|]
  {
    if |s| <= n then s else s[..n]
  }

  /** Python `==` between two row values: numbers (ints and bools) compare by
      value, everything else structurally. */
  predicate PyEq(a: Value, b: Value)
  {
    if NumberOf(a).Some? && NumberOf(b).Some? then NumberOf(a) == NumberOf(b)
    else a == b
  }

  lemma PyEqTrueIsOne()
    ensures PyEq(Bool(true), Int(1)) && PyEq(Bool(false), Int(0))
    ensures !PyEq(Bool(true), Str("1"))
  {
  }
}
