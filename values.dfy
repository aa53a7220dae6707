/*
 * Values as the API endpoint sees them: the result of decoding a JSON
 * request body into PHP arrays, and the handful of PHP and SQL conversions
 * the handlers apply to them (empty(), isset(), ??, truthiness, the `< 0`
 * test, and the way a bound parameter is compared with an INT column).
 */
module PhpValues {
  import opened Wrappers

  /** A decoded JSON value. JSON objects become (associative) arrays in PHP;
      `Obj` keeps them apart from lists only so that field access can be stated. */
  datatype Value =
    | Null
    | Bool(b: bool)
    | Num(x: real)
    | Str(s: string)
    | Arr(elems: seq<Value>)
    | Obj(fields: map<string, Value>)

  /** PHP's empty(): null, false, 0, 0.0, "", "0" and the empty array.
      A missing key reads as null, so it is empty too. Apart from null, the
      empty values are exactly the set ones that empty() refuses and isset()
      lets through, which is how `adjust_stock` accepts a stock of 0. */
  predicate Empty(v: Value)
    ensures v != Null && Empty(v) <==> v in {Bool(false), Num(0.0), Str(""), Str("0"), Arr([]), Obj(map[])}
  {
    match v
    case Null => true
    case Bool(b) => !b
    case Num(x) => x == 0.0
    case Str(s) => s == "" || s == "0"
    case Arr(elems) => elems == []
    case Obj(fields) => fields == map[]
  }

  /** PHP's isset() on an array element: present and not null. Whatever
      isset() refuses, empty() refuses too. */
  predicate IsSet(v: Value)
    ensures !IsSet(v) ==> Empty(v)
  {
    v != Null
  }

  /** `$data[key]`: reading a missing key (or indexing something that is not
      an array) yields null. */
  function Field(data: Value, key: string): Value
  {
    if data.Obj? && key in data.fields then data.fields[key] else Null
  }

  /** `v ?? fallback` */
  function Coalesce(v: Value, fallback: Value): Value
  {
    if v == Null then fallback else v
  }

  /** The boolean a value converts to in `$v ? a : b`: exactly the non-empty ones. */
  predicate Truthy(v: Value)
  {
    !Empty(v)
  }

  /** `foreach ($v as $item)`: the elements of a list; anything else iterates nothing. */
  function Elements(v: Value): seq<Value>
  {
    if v.Arr? then v.elems else []
  }

  predicate IsDigit(c: char)
  {
    '0' <= c <= '9'
  }

  predicate AllDigits(s: string)
  {
    forall i :: 0 <= i < |s| ==> IsDigit(s[i])
  }

  /** The natural number a (possibly empty) decimal digit string denotes. */
  function DigitsValue(s: string): nat
    requires AllDigits(s)
  {
    if s == [] then 0
    else 10 * DigitsValue(s[..|s| - 1]) + (s[|s| - 1] as int - '0' as int)
  }

  /** The number SQL reads from a bound parameter: JSON numbers as they are,
      plain decimal digit strings by their value; anything else is not a
      number the model gives a value to. */
  function SqlNumber(v: Value): Option<real>
  {
    match v
    case Num(x) => Some(x)
    case Str(s) => if s != "" && AllDigits(s) then Some(DigitsValue(s) as real) else None
    case _ => None
  }

  /** The primary key a bound id parameter selects in `WHERE id = ?`:
      some integral number, or no row at all. */
  function RowKey(v: Value): (k: Option<int>)
    ensures k.Some? ==> SqlNumber(v) == Some(k.value as real)
    ensures k.None? ==> SqlNumber(v).None? || SqlNumber(v).value.Floor as real != SqlNumber(v).value
  {
    match SqlNumber(v)
    case Some(x) => if x.Floor as real == x then Some(x.Floor) else None
    case None => None
  }

  /** `stock_actual - ?` in SQL: numeric operands subtract, NULL or an
      unreadable operand gives NULL. */
  function SqlMinus(a: Value, b: Value): (r: Value)
    ensures r == Null <==> SqlNumber(a).None? || SqlNumber(b).None?
    ensures r != Null ==> SqlNumber(r) == Some(SqlNumber(a).value - SqlNumber(b).value)
  {
    match (SqlNumber(a), SqlNumber(b))
    case (Some(x), Some(y)) => Num(x - y)
    case _ => Null
  }

  /** PHP 8's `$v < 0` on a value isset() has let through. Numbers compare
      numerically; a string that is a plain (optionally negated) digit string
      compares by its value; any other string is compared with "0" as a
      string; false, true, arrays and objects are never below 0. On every
      value SQL reads as a number, the test agrees with that number's sign. */
  predicate BelowZero(v: Value)
    ensures SqlNumber(v).Some? ==> (BelowZero(v) <==> SqlNumber(v).value < 0.0)
  {
    match v
    case Num(x) => x < 0.0
    case Str(s) =>
      if s != "" && AllDigits(s) then false
      else if |s| >= 2 && s[0] == '-' && AllDigits(s[1..]) then DigitsValue(s[1..]) > 0
      else s == "" || s[0] < '0'
    case _ => false
  }

  /** A digit string read as a row key denotes its own decimal value. */
  lemma {:induction false} DigitStringKey(s: string)
    requires s != "" && AllDigits(s)
    ensures RowKey(Str(s)) == Some(DigitsValue(s))
  {
    var n := DigitsValue(s) as real;
    assert n.Floor == DigitsValue(s);
  }
}
