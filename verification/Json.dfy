/**
 * Parsed JSON and the Python conversions the verifiers apply to it.
 * Numbers are exact: an integer literal is an int, any other literal a real.
 */
module Json {
  import opened Options
  import opened Text

  datatype Json =
    | Null
    | Bool(b: bool)
    | Int(n: int)
    | Real(r: real)
    | Str(s: string)
    | List(items: seq<Json>)
    | Obj(fields: seq<Member>)

  datatype Member = Member(key: string, value: Json)

  const True := Bool(true)
  const False := Bool(false)

  function Lookup(fields: seq<Member>, key: string): Option<Json> {
    if fields == [] then None
    else if fields[0].key == key then Some(fields[0].value)
    else Lookup(fields[1..], key)
  }

  /** `key in value` */
  predicate Has(value: Json, key: string) {
    value.Obj? && Lookup(value.fields, key).Some?
  }

  /** `value.get(key)` of an object; null for anything that is not an object. */
  function Field(value: Json, key: string): Json {
    if Has(value, key) then Lookup(value.fields, key).value else Null
  }

  /** `bool(value)` */
  predicate Truthy(value: Json) {
    match value
    case Null => false
    case Bool(b) => b
    case Int(n) => n != 0
    case Real(r) => r != 0.0
    case Str(s) => s != ""
    case List(items) => items != []
    case Obj(fields) => fields != []
  }

  /** `left or right` */
  function Or(left: Json, right: Json): Json {
    if Truthy(left) then left else right
  }

  /** `isinstance(value, (int, float)) and not isinstance(value, bool)` */
  predicate IsNumber(value: Json) {
    value.Int? || value.Real?
  }

  function NumberOf(value: Json): real
    requires IsNumber(value)
  {
    if value.Int? then value.n as real else value.r
  }

  predicate DigitAt(s: string, i: int) {
    0 <= i < |s| && IsDigit(s[i])
  }

  /** Digits, with single underscores allowed between two of them. */
  predicate IsIntLiteral(s: string) {
    && s != ""
    && forall i :: 0 <= i < |s| ==> IsDigit(s[i]) || (s[i] == '_' && DigitAt(s, i - 1) && DigitAt(s, i + 1))
  }

  function DigitsOnly(s: string): (r: string)
    ensures AllDigits(r)
  {
    if s == "" then ""
    else if IsDigit(s[0]) then [s[0]] + DigitsOnly(s[1..])
    else DigitsOnly(s[1..])
  }

  /** `int(text)`; None is the ValueError. */
  function IntOfString(text: string): Option<int> {
    var t := Strip(text);
    var signed := t != "" && (t[0] == '-' || t[0] == '+');
    var body := if signed then t[1..] else t;
    if !IsIntLiteral(body) then None
    else
      var n: int := Value(DigitsOnly(body));
      Some(if signed && t[0] == '-' then -n else n)
  }

  lemma {:induction false} DigitsAreKept(s: string)
    requires AllDigits(s)
    ensures DigitsOnly(s) == s
  {
    if s != "" {
      DigitsAreKept(s[1..]);
      assert s == [s[0]] + s[1..];
    }
  }

  lemma NothingToStrip(s: string)
    requires s != "" && !IsSpace(s[0]) && !IsSpace(s[|s| - 1])
    ensures Strip(s) == s
  {
  }

  lemma DigitsAreLiteral(digits: string)
    requires digits != "" && AllDigits(digits)
    ensures IsIntLiteral(digits) && DigitsOnly(digits) == digits && Strip(digits) == digits && Strip("-" + digits) == "-" + digits
    ensures digits[0] != '-' && digits[0] != '+'
  {
    DigitsAreKept(digits);
    assert IsDigit(digits[0]) && IsDigit(digits[|digits| - 1]);
    var negative := "-" + digits;
    assert negative[|negative| - 1] == digits[|digits| - 1];
    hide Strip, DigitsOnly;
    NothingToStrip(digits);
    NothingToStrip(negative);
  }

  /** A printed integer converts back to itself. */
  lemma IntRoundTrip(n: int)
    ensures IntOf(Str(Decimal(n))) == Some(n)
  {
    var digits := if n < 0 then Digits(-n) else Digits(n);
    DigitsRoundTrip(if n < 0 then -n else n);
    DigitsAreLiteral(digits);
    hide Digits, Value, DigitsOnly, Strip, IsIntLiteral;
    assert ("-" + digits)[1..] == digits;
  }

  function Truncate(r: real): int {
    if r >= 0.0 then r.Floor else -((-r).Floor)
  }

  /** `int(value)`; None is the TypeError or ValueError. */
  function IntOf(value: Json): Option<int> {
    match value
    case Bool(b) => Some(if b then 1 else 0)
    case Int(n) => Some(n)
    case Real(r) => Some(Truncate(r))
    case Str(s) => IntOfString(s)
    case _ => None
  }

  /** The objects among a list of values. */
  function Objects(items: seq<Json>): (r: seq<Json>)
    ensures forall x :: x in r <==> x in items && x.Obj?
  {
    if items == [] then []
    else if items[0].Obj? then [items[0]] + Objects(items[1..])
    else Objects(items[1..])
  }
}
