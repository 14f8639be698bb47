/** PHP byte strings and the dynamic values that the client receives from its
    callers and from the JSON decoder, with the PHP conversions the client
    relies on: truthiness, string conversion, `count`, `foreach` and `$v[k]`. */
module PhpValues {

  /** A PHP string is a sequence of bytes; a byte is written here as a
      character below 256, so that string literals can be used directly. */
  type Byte = c: char | c as int < 256
  type Bytes = seq<Byte>

  datatype Option<T> = None | Some(value: T)

  /** The PHP values the client handles. JSON objects (string-keyed arrays)
      and floats are not modelled; a list array keeps its values in order. */
  datatype Value =
    | Null
    | Bool(b: bool)
    | Int(i: int)
    | Str(s: Bytes)
    | Arr(elems: seq<Value>)

  /** PHP truthiness: `!$v` holds exactly for null, false, 0, "", "0" and the
      empty array. */
  predicate Falsy(v: Value) {
    match v
    case Null => true
    case Bool(b) => !b
    case Int(i) => i == 0
    case Str(s) => s == "" || s == "0"
    case Arr(es) => es == []
  }

  function DigitChar(d: nat): (c: Byte)
    requires d < 10
    ensures '0' <= c <= '9' && c as int - '0' as int == d
  {
    ('0' as int + d) as char
  }

  /** The value of a string of decimal digits, read left to right. */
  function DigitsValue(s: Bytes): nat
    requires forall i :: 0 <= i < |s| ==> '0' <= s[i] <= '9'
  {
    if s == [] then 0
    else 10 * DigitsValue(s[..|s| - 1]) + (s[|s| - 1] as int - '0' as int)
  }

  /** The decimal digits of a natural number, most significant first. */
  function Digits(n: nat): (r: Bytes)
    ensures |r| > 0
    ensures forall i :: 0 <= i < |r| ==> '0' <= r[i] <= '9'
    ensures DigitsValue(r) == n
    ensures n >= 10 ==> r[0] != '0'
  {
    if n < 10 then [DigitChar(n)]
    else
      var r := Digits(n / 10) + [DigitChar(n % 10)];
      assert r[..|r| - 1] == Digits(n / 10);
      r
  }

  /** PHP's conversion of an integer to a string: an optional minus sign
      followed by the decimal digits. */
  function Decimal(i: int): Bytes {
    if i < 0 then "-" + Digits(-i) else Digits(i)
  }

  /** The string of an integer is a minus sign exactly for a negative one,
      then digits that read back as its absolute value. */
  lemma DecimalDigits(i: int)
    ensures var r := Decimal(i);
      && |r| > 0 && (r[0] == '-' <==> i < 0)
      && var digits := if i < 0 then r[1..] else r;
      && |digits| > 0
      && (forall k :: 0 <= k < |digits| ==> '0' <= digits[k] <= '9')
      && DigitsValue(digits) == if i < 0 then -i else i
  {
    if i < 0 {
      assert Decimal(i)[1..] == Digits(-i);
    }
  }

  /** PHP's string conversion `(string)$v`, as applied by `implode` and by
      `str_split`. An array converts to the literal "Array". */
  function ToStr(v: Value): Bytes {
    match v
    case Null => ""
    case Bool(b) => if b then "1" else ""
    case Int(i) => Decimal(i)
    case Str(s) => s
    case Arr(_) => "Array"
  }

  /** `count($v)` with the PHP 5/7 rule: null counts 0 and any other scalar
      counts 1. */
  function Count(v: Value): nat {
    match v
    case Null => 0
    case Arr(es) => |es|
    case _ => 1
  }

  /** The values `foreach ($v as $x)` visits: those of an array, in order;
      a scalar or null gives no iteration. */
  function Elements(v: Value): (es: seq<Value>)
    ensures |es| <= Count(v)
    ensures v.Arr? ==> |es| == Count(v) && forall i :: 0 <= i < |es| ==> es[i] == v.elems[i]
    ensures !v.Arr? ==> es == []
  {
    if v.Arr? then v.elems else []
  }

  /** Reading `$v[k]` for an integer offset: an array element, a one-byte
      string, or null when there is no such element. */
  function Index(v: Value, k: nat): Value
  {
    match v
    case Arr(es) => if k < |es| then es[k] else Null
    case Str(s) => if k < |s| then Str([s[k]]) else Str("")
    case _ => Null
  }

  /** Distinct integers convert to distinct strings. */
  lemma DecimalInjective(i: int, j: int)
    requires Decimal(i) == Decimal(j)
    ensures i == j
  {
    DecimalDigits(i);
    DecimalDigits(j);
    if i < 0 {
      assert Decimal(i)[1..] == Decimal(j)[1..];
    }
  }
}
