/**
  The Python values the classifier handler sees: the parsed JSON body,
  the `float` it converts the `hba1c` field to, Python truthiness (which
  decides whether the body is replaced by `{}`) and the `float()`
  conversion itself.
*/
module PyValues {

  datatype Option<+T> = None | Some(value: T)

  /** A Python float (an IEEE-754 double) seen through its value: a finite
      number, one of the two infinities, or NaN. */
  datatype Float = Finite(r: real) | PosInf | NegInf | NaN

  /** `a < c` in Python, for a float `a` and a finite constant `c`.
      NaN compares false with everything. */
  predicate Less(a: Float, c: real)
  {
    match a
    case Finite(r) => r < c
    case NegInf => true
    case PosInf => false
    case NaN => false
  }

  /** `c <= a` in Python, for a finite constant `c` and a float `a`. */
  predicate AtLeast(a: Float, c: real)
  {
    match a
    case Finite(r) => c <= r
    case PosInf => true
    case NegInf => false
    case NaN => false
  }

  /** The order of the doubles other than NaN: -inf < every finite < +inf. */
  predicate Ordered(a: Float, b: Float)
    requires !a.NaN? && !b.NaN?
  {
    match (a, b)
    case (NegInf, _) => true
    case (_, PosInf) => true
    case (Finite(x), Finite(y)) => x <= y
    case _ => false
  }

  /** Comparing a double with a constant: below it or at least it, exactly
      one of the two, unless the double is NaN, which is neither. */
  lemma LessOrAtLeast(a: Float, c: real)
    ensures a.NaN? ==> !Less(a, c) && !AtLeast(a, c)
    ensures !a.NaN? ==> (Less(a, c) <==> !AtLeast(a, c))
  {
  }

  /** Both comparisons are monotone in the order of the doubles. */
  lemma ComparisonsMonotone(a: Float, b: Float, c: real)
    requires !a.NaN? && !b.NaN? && Ordered(a, b)
    ensures Less(b, c) ==> Less(a, c)
    ensures AtLeast(a, c) ==> AtLeast(b, c)
  {
  }

  /** A JSON number as Python's `json` module produces it: an `int` for an
      integer literal, a `float` otherwise (including NaN and Infinity). */
  datatype Number = Int(i: int) | Double(f: Float)

  /** A parsed JSON value; `Null` is Python's `None`. */
  datatype Json =
    | Null
    | Bool(b: bool)
    | Num(n: Number)
    | Str(s: string)
    | Array(items: seq<Json>)
    | Object(fields: map<string, Json>)

  /** Python's `bool(x)` for a parsed JSON value: `None`, `False`, zero,
      and empty strings, lists and dicts are false; NaN and the infinities
      are true. */
  predicate Truthy(j: Json)
  {
    match j
    case Null => false
    case Bool(b) => b
    case Num(Int(i)) => i != 0
    case Num(Double(f)) => f != Finite(0.0)
    case Str(s) => s != ""
    case Array(items) => items != []
    case Object(fields) => fields != map[]
  }

  /** Python's `type(x).__name__` for a parsed JSON value. */
  function TypeName(j: Json): string
  {
    match j
    case Null => "NoneType"
    case Bool(_) => "bool"
    case Num(Int(_)) => "int"
    case Num(Double(_)) => "float"
    case Str(_) => "str"
    case Array(_) => "list"
    case Object(_) => "dict"
  }

  /** The outcome of `float(x)`: a value, a `TypeError` or `ValueError`
      (which the handler catches and answers with 400), or any other
      exception, with its text (which reaches the handler's catch-all). */
  datatype Conversion = Converted(value: Float) | Rejected | Raised(message: string)

  /** The smallest magnitude of an `int` that `float()` rounds past the
      largest double: 2^1024 - 2^970, halfway between the largest double
      (2^1024 - 2^971) and 2^1024, which rounding to even sends up. From
      here on `float()` raises OverflowError. */
  const IntOverflowBound: int := 179_769_313_486_231_580_793_728_971_405_303_415_079_934_132_710_037_826_936_173_778_980_444_968_292_764_750_946_649_017_977_587_207_096_330_286_416_692_887_910_946_555_547_851_940_402_630_657_488_671_505_820_681_908_902_000_708_383_676_273_854_845_817_711_531_764_475_730_270_069_855_571_366_959_622_842_914_819_860_834_936_475_292_719_074_168_444_365_510_704_342_711_559_699_508_093_042_880_177_904_174_497_792

  /** Python's `float(x)` for a JSON value. `parseStr` is the grammar
      `float()` accepts for strings (None where it raises ValueError). */
  function ToFloat(j: Json, parseStr: string -> Option<Float>): (c: Conversion)
    ensures c.Raised? <==> j.Num? && j.n.Int? && (j.n.i >= IntOverflowBound || -j.n.i >= IntOverflowBound)
    ensures j.Num? && j.n.Double? ==> c == Converted(j.n.f)
    ensures j.Str? ==> (c.Rejected? <==> parseStr(j.s).None?)
    ensures (j.Null? || j.Array? || j.Object?) ==> c == Rejected
    ensures c.Converted? && c.value.NaN? ==> j.Str? || (j.Num? && j.n.Double?)
    ensures j.Num? && j.n.Int? && !c.Raised? ==> c == Converted(Finite(j.n.i as real))
    ensures j.Bool? ==> c == Converted(Finite(if j.b then 1.0 else 0.0))
    ensures j.Str? && parseStr(j.s).Some? ==> c == Converted(parseStr(j.s).value)
  {
    match j
    case Null => Rejected
    case Bool(b) => Converted(Finite(if b then 1.0 else 0.0))
    case Num(Int(i)) =>
      if i >= IntOverflowBound || -i >= IntOverflowBound then Raised("int too large to convert to float")
      else Converted(Finite(i as real))
    case Num(Double(f)) => Converted(f)
    case Str(s) =>
      (match parseStr(s)
       case Some(f) => Converted(f)
       case None => Rejected)
    case Array(_) => Rejected
    case Object(_) => Rejected
  }
}
