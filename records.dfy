/**
 * The crawled records as the uploader sees them: JSON objects whose fields are read with
 * `item["id"]` and `item.get(name, default)`, whose values are tested for truthiness and
 * turned into text with `str(...)`.
 */
module Records {
  import opened KeySanitizer

  /**
   * A decoded JSON value. Floats, lists and nested objects are `Other`, carrying the text
   * `str()` gives for them and whether they are truthy.
   */
  datatype Value =
    | Str(s: string)
    | Int(i: int)
    | Bool(b: bool)
    | Null
    | Other(repr: string, truthy: bool)

  /** One crawled product: a JSON object. */
  type Record = map<string, Value>

  /** Python truthiness: empty strings, zero, `False` and `None` are false. */
  predicate Truthy(v: Value) {
    match v
    case Str(s) => s != []
    case Int(i) => i != 0
    case Bool(b) => b
    case Null => false
    case Other(_, t) => t
  }

  /** `item.get(field, default)`. */
  function Get(item: Record, field: string, default: Value): Value {
    if field in item then item[field] else default
  }

  function DigitChar(d: nat): char
    requires d < 10
  {
    ('0' as int + d) as char
  }

  predicate IsDigits(s: string) {
    forall i :: 0 <= i < |s| ==> '0' <= s[i] <= '9'
  }

  /** The decimal numeral of `n`, without leading zeros. */
  function Decimal(n: nat): (s: string)
    ensures s != [] && IsDigits(s)
    ensures |s| > 1 ==> s[0] != '0'
    decreases n
  {
    if n < 10 then [DigitChar(n)] else Decimal(n / 10) + [DigitChar(n % 10)]
  }

  /** The number a string of decimal digits denotes. */
  function DecimalValue(s: string): nat
    requires IsDigits(s)
  {
    if s == [] then 0 else 10 * DecimalValue(s[..|s| - 1]) + (s[|s| - 1] as int - '0' as int)
  }

  /** Reading a numeral back gives the number. */
  lemma {:induction false} DecimalValueOfDecimal(n: nat)
    ensures DecimalValue(Decimal(n)) == n
    decreases n
  {
    if n >= 10 {
      DecimalValueOfDecimal(n / 10);
      var s := Decimal(n);
      assert s[..|s| - 1] == Decimal(n / 10);
    }
  }

  /** `str(i)` of an integer: a `-` for a negative one, then the decimal numeral. */
  function IntStr(i: int): string {
    if i < 0 then ['-'] + Decimal(-i) else Decimal(i)
  }

  /** `str(v)`. */
  function ToStr(v: Value): string {
    match v
    case Str(s) => s
    case Int(i) => IntStr(i)
    case Bool(b) => if b then "True" else "False"
    case Null => "None"
    case Other(repr, _) => repr
  }

  /** The numeral of an integer starts with `-` exactly when the integer is negative. */
  lemma IntStrSign(a: int)
    ensures IntStr(a) != [] && (IntStr(a)[0] == '-' <==> a < 0)
  {
  }

  lemma DecimalInjective(m: nat, n: nat)
    requires Decimal(m) == Decimal(n)
    ensures m == n
  {
    DecimalValueOfDecimal(m);
    DecimalValueOfDecimal(n);
  }

  /** Dropping the sign of a negative numeral leaves the numeral of the magnitude. */
  lemma NegativeNumeral(a: int)
    requires a < 0
    ensures |IntStr(a)| > 1 && IntStr(a)[1..] == Decimal(-a)
  {
    assert IntStr(a) == ['-'] + Decimal(-a);
  }

  lemma NegativeIntStrInjective(a: int, b: int)
    requires a < 0 && b < 0 && IntStr(a) == IntStr(b)
    ensures a == b
  {
    NegativeNumeral(a);
    NegativeNumeral(b);
    DecimalInjective(-a, -b);
  }

  /** `str()` of two different integers gives two different strings. */
  lemma IntStrInjective(a: int, b: int)
    ensures IntStr(a) == IntStr(b) ==> a == b
  {
    IntStrSign(a);
    IntStrSign(b);
    if IntStr(a) == IntStr(b) {
      if a < 0 {
        NegativeIntStrInjective(a, b);
      } else {
        DecimalInjective(a, b);
      }
    }
  }

  /**
   * An integer id is a key already: `clean_key(str(id))` is its decimal numeral, so two
   * records with different integer ids get different vector ids.
   */
  lemma IntIdIsKey(a: int, b: int)
    ensures CleanKey(ToStr(Int(a))) == ToStr(Int(a))
    ensures a != b ==> CleanKey(ToStr(Int(a))) != CleanKey(ToStr(Int(b)))
  {
    var sa := ToStr(Int(a));
    assert forall i :: 0 <= i < |sa| ==> IsKeyChar(sa[i]);
    CleanKeyFixpoints(sa);
    var sb := ToStr(Int(b));
    assert forall i :: 0 <= i < |sb| ==> IsKeyChar(sb[i]);
    CleanKeyFixpoints(sb);
    IntStrInjective(a, b);
  }
}
