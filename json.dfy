/** JSON values as Python's `json` module hands them to the views, and the few
    Python operations the views apply to them (dictionary `get`, `isinstance`
    tests, `==` between numbers). */
module Json {

  datatype Option<+T> = None | Some(value: T) {
    predicate IsFailure() { None? }

    function PropagateFailure<U>(): Option<U>
      requires None?
    {
      None
    }

    function Extract(): T
      requires Some?
    {
      value
    }
  }

  /** A decoded JSON value. Python's decoder gives an `int` for an integral
      literal, a `float` for a literal with a fraction or an exponent, and
      `bool`, `str`, `None`, `list` and `dict` for the rest. */
  datatype Value =
    | VNull
    | VBool(b: bool)
    | VInt(i: int)
    | VFloat(f: real)
    | VStr(s: string)
    | VArray(items: seq<Value>)
    | VObject(entries: map<string, Value>)

  /** `d.get(key, None)`: a missing key and an explicit JSON null read alike. */
  function Get(d: map<string, Value>, key: string): (v: Value)
    ensures v == VNull <==> key !in d || d[key] == VNull
    ensures v != VNull ==> key in d && d[key] == v
  {
    if key in d then d[key] else VNull
  }

  /** Removing a key and setting it to JSON null cannot be told apart
      through `get`. */
  lemma MissingReadsAsNull(d: map<string, Value>, key: string)
    ensures Get(d - {key}, key) == Get(d[key := VNull], key) == VNull
    ensures forall k :: Get(d - {key}, k) == Get(d[key := VNull], k)
  {
  }

  /** `isinstance(v, int)`; Python's `bool` is a subclass of `int`. */
  predicate IsPyInt(v: Value)
  {
    v.VInt? || v.VBool?
  }

  /** The integer a Python `int` (or `bool`) stands for. */
  function PyIntValue(v: Value): int
    requires IsPyInt(v)
  {
    if v.VInt? then v.i else if v.b then 1 else 0
  }

  /** `isinstance(v, int) and not v < 0`, the test the views put on a transaction id. */
  predicate IsNonNegativePyInt(v: Value)
  {
    IsPyInt(v) && PyIntValue(v) >= 0
  }

  /** `isinstance(v, float) and not v <= 0`, the test the views put on an amount. */
  predicate IsPositiveFloat(v: Value)
  {
    v.VFloat? && v.f > 0.0
  }

  /** The number a Python `bool`, `int` or `float` compares as. */
  function Numeric(v: Value): Option<real>
  {
    match v
    case VBool(b) => Some(if b then 1.0 else 0.0)
    case VInt(i) => Some(i as real)
    case VFloat(f) => Some(f)
    case _ => None
  }

  /** Python's `a == b`: numbers compare by value across `bool`, `int` and
      `float`; everything else compares structurally. */
  predicate PyEq(a: Value, b: Value)
  {
    if Numeric(a).Some? && Numeric(b).Some? then Numeric(a).value == Numeric(b).value
    else a == b
  }

  /** A calendar date, as `datetime.date`. */
  datatype Date = Date(year: int, month: int, day: int)

  /** `a < b` on dates: year, then month, then day. */
  predicate Before(a: Date, b: Date)
  {
    a.year < b.year
    || (a.year == b.year && a.month < b.month)
    || (a.year == b.year && a.month == b.month && a.day < b.day)
  }
}
