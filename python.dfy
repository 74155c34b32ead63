/**
 * The pieces of the Python runtime that the inventory handlers lean on:
 * values produced by `json.loads`, exact `decimal.Decimal` numbers,
 * exceptions, and the two conversions the create handler applies to client
 * input, `int(x)` and `Decimal(str(x))`, each with the exception it raises.
 *
 * `int(s)` on a string, `Decimal(s)` on a string and `json.loads(s)` are not
 * given a grammar here: they are the fields of a `Builtins` value that every
 * caller receives, so every property below holds whatever those parsers accept.
 */
module Python {

  datatype Option<+T> = None | Some(value: T)

  /** A raised exception, by class; `text` is what `str(e)` shows. */
  datatype PyError =
    | ValueError(text: string)        // includes json.JSONDecodeError
    | TypeError(text: string)
    | KeyError(text: string)
    | AttributeError(text: string)
    | InvalidOperation(text: string)  // decimal.InvalidOperation: an ArithmeticError, not a ValueError
    | ServiceError(text: string)      // anything the table client raises

  /** A Python call either returns a value or raises. */
  datatype Outcome<+T> = Returned(value: T) | Raised(error: PyError) {
    predicate IsFailure() {
      Raised?
    }

    function PropagateFailure<U>(): Outcome<U>
      requires Raised?
    {
      Raised(error)
    }

    function Extract(): T
      requires Returned?
    {
      value
    }
  }

  /** A finite `decimal.Decimal`: the exact number coefficient * 10^exponent. */
  datatype Decimal = Decimal(coefficient: int, exponent: int)

  /** A float as `float(d)` renders the exact decimal `d` at the JSON boundary. */
  datatype Float = NearestFloat(exact: Decimal)

  /** The value of a finite binary float: the exact number mantissa * 2^exponent. */
  datatype Binary = Binary(mantissa: int, exponent: int)

  /**
   * A value built by `json.loads`. A JSON number with a fraction or exponent
   * becomes a finite float; `JFloat(repr, value)` carries the decimal `repr`
   * that `str()` prints for it and the binary number `value` it holds. The
   * two differ once the float is not exactly its shortest decimal: the float
   * read from `1e23` prints as 1e+23 but holds 99999999999999991611392.
   */
  datatype Json =
    | JNull
    | JBool(b: bool)
    | JInt(i: int)
    | JFloat(repr: Decimal, value: Binary)
    | JString(s: string)
    | JArray(elems: seq<Json>)
    | JObject(fields: map<string, Json>)

  /** The partial parsers the handlers call, given rather than defined. */
  datatype Builtins = Builtins(
    parseInt: string -> Option<int>,          // int(s) for a str s; None when it raises ValueError
    parseDecimal: string -> Option<Decimal>,  // Decimal(s); None when it raises InvalidOperation
    loadJson: string -> Outcome<Json>)        // json.loads(s)

  function Pow2(n: nat): (p: nat)
    ensures p >= 1
  {
    if n == 0 then 1 else 2 * Pow2(n - 1)
  }

  lemma DivisionBounds(a: nat, p: nat)
    requires p >= 1
    ensures 0 <= a / p && (a / p) * p <= a < (a / p + 1) * p
  {
    assert a == (a / p) * p + a % p;
  }

  lemma ProductSign(m: int, p: nat)
    requires p >= 1
    ensures m * p > 0 ==> m > 0
    ensures m * p < 0 ==> m < 0
  {
    if m <= 0 {
      assert m * p <= 0;
    }
    if m >= 0 {
      assert m * p >= 0;
    }
  }

  /** `int(f)` on a finite float: the integer part of its binary value, with the sign of that value. */
  function Truncate(f: Binary): (r: int)
    ensures r > 0 ==> f.mantissa > 0
    ensures r < 0 ==> f.mantissa < 0
  {
    if f.exponent >= 0 then
      ProductSign(f.mantissa, Pow2(f.exponent));
      f.mantissa * Pow2(f.exponent)
    else
      var p := Pow2(-f.exponent);
      if f.mantissa >= 0 then
        DivisionBounds(f.mantissa, p);
        f.mantissa / p
      else
        DivisionBounds(-f.mantissa, p);
        -((-f.mantissa) / p)
  }

  /**
   * `int()` of a float truncates its binary value toward zero: down for a
   * positive value, up for a negative one; the printed decimal plays no part.
   */
  lemma TruncatesTowardZero(py: Builtins, repr: Decimal, f: Binary)
    ensures IntOf(py, JFloat(repr, f)) == Returned(Truncate(f))
    ensures f.exponent >= 0 ==> Truncate(f) == f.mantissa * Pow2(f.exponent)
    ensures f.exponent < 0 && f.mantissa >= 0 ==>
              var r, p := Truncate(f), Pow2(-f.exponent);
              0 <= r && r * p <= f.mantissa < (r + 1) * p
    ensures f.exponent < 0 && f.mantissa < 0 ==>
              var r, p := Truncate(f), Pow2(-f.exponent);
              r <= 0 && (r - 1) * p < f.mantissa <= r * p
  {
    if f.exponent < 0 {
      var p := Pow2(-f.exponent);
      if f.mantissa >= 0 {
        DivisionBounds(f.mantissa, p);
      } else {
        DivisionBounds(-f.mantissa, p);
      }
    }
  }

  /**
   * `int()` of the float read from `1e23` is the integer it holds,
   * 99999999999999991611392 = 5960464477539062 * 2^24, not 10^23.
   */
  lemma LargeFloatKeepsItsBinaryValue(py: Builtins)
    ensures IntOf(py, JFloat(Decimal(1, 23), Binary(5960464477539062, 24))) == Returned(99999999999999991611392)
  {
    assert Pow2(8) == 256;
    assert Pow2(16) == 65536;
    assert Pow2(24) == 16777216;
  }

  /** What `type(v).__name__` prints for a decoded JSON value. */
  function TypeName(v: Json): string
  {
    match v
    case JNull => "NoneType"
    case JBool(_) => "bool"
    case JInt(_) => "int"
    case JFloat(_, _) => "float"
    case JString(_) => "str"
    case JArray(_) => "list"
    case JObject(_) => "dict"
  }

  /**
   * Python's `int(v)` for a decoded JSON value: a bool is 0 or 1, a float is
   * its binary value truncated, a string goes to the integer parser, anything else is refused.
   * Only an unparsable string raises ValueError.
   */
  function IntOf(py: Builtins, v: Json): (r: Outcome<int>)
    ensures r.Raised? ==> r.error.ValueError? || r.error.TypeError?
    ensures (r.Raised? && r.error.ValueError?) <==> (v.JString? && py.parseInt(v.s).None?)
    ensures r.Raised? && r.error.TypeError? <==> v.JNull? || v.JArray? || v.JObject?
    ensures v.JInt? ==> r == Returned(v.i)
    ensures v.JBool? ==> r == Returned(if v.b then 1 else 0)
    ensures v.JString? && py.parseInt(v.s).Some? ==> r == Returned(py.parseInt(v.s).value)
  {
    if v.JString? then
      match py.parseInt(v.s)
      case Some(n) => Returned(n)
      case None => Raised(InvalidLiteral(v.s))
    else if v.JNull? || v.JArray? || v.JObject? then
      Raised(NotANumber(v))
    else
      Returned(NumberValue(v))
  }

  /** `int(v)` for a bool, an int or a float: 0 or 1, the int itself, the float truncated. */
  function NumberValue(v: Json): int
    requires v.JBool? || v.JInt? || v.JFloat?
  {
    match v
    case JBool(b) => if b then 1 else 0
    case JInt(i) => i
    case JFloat(_, value) => Truncate(value)
  }

  /** What `int(s)` raises for a string it cannot read. */
  function InvalidLiteral(s: string): (e: PyError)
    ensures e.ValueError?
  {
    ValueError("invalid literal for int() with base 10: '" + s + "'")
  }

  /** What `int(v)` raises for a value that is neither a number nor a string. */
  function NotANumber(v: Json): (e: PyError)
    ensures e.TypeError?
  {
    TypeError("int() argument must be a string, a bytes-like object or a real number, not '" + TypeName(v) + "'")
  }

  /**
   * Python's `Decimal(str(v))` for a decoded JSON value. An int converts
   * exactly and a float to the decimal `str()` prints for it; a string goes to the decimal parser; the text `str()`
   * gives for null, a bool, a list or a dict ("None", "True", "[...", ...) is
   * never a number. Every failure is InvalidOperation, never ValueError.
   */
  function DecimalOf(py: Builtins, v: Json): (r: Outcome<Decimal>)
    ensures r.Raised? ==> r.error.InvalidOperation?
    ensures r.Returned? <==> v.JInt? || v.JFloat? || (v.JString? && py.parseDecimal(v.s).Some?)
    ensures v.JInt? ==> r == Returned(Decimal(v.i, 0))
    ensures v.JFloat? ==> r == Returned(v.repr)
  {
    match v
    case JInt(i) => Returned(Decimal(i, 0))
    case JFloat(repr, _) => Returned(repr)
    case JString(s) =>
      (match py.parseDecimal(s)
       case Some(d) => Returned(d)
       case None => Raised(InvalidOperation("[<class 'decimal.ConversionSyntax'>]")))
    case _ => Raised(InvalidOperation("[<class 'decimal.ConversionSyntax'>]"))
  }

  /** `part` occurs in `s` starting at index `i`. */
  predicate OccursAt(s: string, part: string, i: nat)
  {
    i + |part| <= |s| && s[i..i + |part|] == part
  }

  /** Python's `part in s` on two strings: `part` occurs in `s` as a contiguous run. */
  predicate Contains(s: string, part: string)
    ensures part == "" ==> Contains(s, part)
    ensures Contains(s, part) ==> |part| <= |s|
    decreases |s|
  {
    |part| <= |s| && (s[..|part|] == part || (|s| > 0 && Contains(s[1..], part)))
  }

  lemma {:induction false} ContainsAt(s: string, part: string, i: nat)
    requires OccursAt(s, part, i)
    ensures Contains(s, part)
    decreases i
  {
    if i > 0 {
      assert s[1..][i - 1..i - 1 + |part|] == s[i..i + |part|];
      ContainsAt(s[1..], part, i - 1);
    } else {
      assert s[..|part|] == s[0..|part|];
    }
  }

  lemma {:induction false} ContainsWitness(s: string, part: string) returns (i: nat)
    requires Contains(s, part)
    ensures OccursAt(s, part, i)
    decreases |s|
  {
    if s[..|part|] == part {
      i := 0;
    } else {
      var j := ContainsWitness(s[1..], part);
      assert s[1..][j..j + |part|] == s[j + 1..j + 1 + |part|];
      i := j + 1;
    }
  }

  /** `part in s` holds exactly when `part` occurs at some index of `s`. */
  lemma ContainsIffOccurs(s: string, part: string)
    ensures Contains(s, part) <==> exists i: nat :: OccursAt(s, part, i)
  {
    if Contains(s, part) {
      var i := ContainsWitness(s, part);
    }
    if exists i: nat :: OccursAt(s, part, i) {
      var i: nat :| OccursAt(s, part, i);
      ContainsAt(s, part, i);
    }
  }

  function DigitString(n: nat): (r: string)
    requires n < 10
    ensures |r| == 1 && '0' <= r[0] <= '9' && (r[0] == '0' <==> n == 0)
  {
    ["0123456789"[n]]
  }

  /** The number a run of decimal digits denotes, read most significant digit first. */
  function DigitsValue(s: string): int
  {
    if s == [] then 0 else DigitsValue(s[..|s| - 1]) * 10 + (s[|s| - 1] as int - '0' as int)
  }

  /**
   * `str(n)` for a non-negative integer: its decimal digits, which denote
   * `n`, without a leading zero unless `n` is 0.
   */
  function NatString(n: nat): (r: string)
    ensures |r| > 0 && r[0] == '0' ==> n == 0
    ensures |r| > 0 && forall i :: 0 <= i < |r| ==> '0' <= r[i] <= '9'
    ensures DigitsValue(r) == n
  {
    if n < 10 then DigitString(n)
    else
      var prefix, last := NatString(n / 10), DigitString(n % 10);
      assert (prefix + last)[..|prefix + last| - 1] == prefix;
      prefix + last
  }

  /**
   * `str(n)` for an integer: a minus sign exactly when `n` is negative, then
   * the digits of its magnitude.
   */
  function IntString(n: int): (r: string)
    ensures |r| > 0 && (r[0] == '-' <==> n < 0)
    ensures n < 0 ==> |r| > 1 && r[1..] == NatString(-n) && DigitsValue(r[1..]) == -n
    ensures n >= 0 ==> (forall i :: 0 <= i < |r| ==> '0' <= r[i] <= '9') && DigitsValue(r) == n
  {
    if n < 0 then "-" + NatString(-n) else NatString(n)
  }
}
