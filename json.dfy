/**
 * Decoded JSON as PHP sees it after `json_decode($text, true)`, together with
 * the three pieces of PHP semantics the plugin's decisions rest on:
 * `empty()`, the `??` lookup of a key, and the cast of a scalar to a string.
 */
module Json {
  import opened Wrappers

  datatype Json =
    | JNull
    | JBool(b: bool)
    | JInt(i: int)
    | JFloat(f: real)
    | JStr(s: string)
    | JList(items: seq<Json>)
    | JObject(fields: map<string, Json>)

  /** A decoded JSON object: a PHP associative array. */
  type Object = map<string, Json>

  /** PHP `empty($v)`: null, false, 0, 0.0, "", "0" and the empty array. */
  predicate Empty(v: Json) {
    match v
    case JNull => true
    case JBool(b) => !b
    case JInt(i) => i == 0
    case JFloat(f) => f == 0.0
    case JStr(s) => EmptyText(s)
    case JList(items) => |items| == 0
    case JObject(fields) => |fields| == 0
  }

  /**
   * The values PHP's `empty()` treats as empty and, for contrast, strings
   * that look falsy but are not: only "" and "0" are empty strings.
   */
  lemma EmptyCases()
    ensures Empty(JNull) && Empty(JBool(false)) && Empty(JInt(0)) && Empty(JFloat(0.0))
    ensures Empty(JStr("")) && Empty(JStr("0")) && Empty(JList([])) && Empty(JObject(map[]))
    ensures !Empty(JBool(true)) && !Empty(JInt(-1)) && !Empty(JList([JNull]))
    ensures !Empty(JStr("00")) && !Empty(JStr(" ")) && !Empty(JStr("0.0")) && !Empty(JStr("false"))
  {
  }

  /** PHP `empty($s)` for a string: only "" and "0" are empty. */
  predicate EmptyText(s: string) {
    s == "" || s == "0"
  }

  /** `$o[$key]` where `$o` may be null: a missing key and a null array both give null. */
  function Field(o: Option<Object>, key: string): Json {
    if o.Some? && key in o.value then o.value[key] else JNull
  }

  /** `$o[$key] ?? $default`: the default replaces a missing key and a null value. */
  function FieldOr(o: Option<Object>, key: string, default: Json): (v: Json)
    ensures Field(o, key).JNull? ==> v == default
    ensures !Field(o, key).JNull? ==> o.Some? && key in o.value && v == o.value[key]
  {
    var v := Field(o, key);
    if v.JNull? then default else v
  }

  /** The values PHP casts to a string without a conversion of its own choosing. */
  predicate IsPlainScalar(v: Json) {
    v.JNull? || v.JBool? || v.JInt? || v.JStr?
  }

  /**
   * PHP's `(string)` cast, as applied by a `?string` return type, string
   * concatenation and `sanitize_text_field`. Floats and arrays read as "":
   * PHP renders floats its own way and refuses arrays with a TypeError.
   */
  function Text(v: Json): (t: string)
    ensures v.JNull? ==> t == ""
    ensures v.JBool? ==> (t == "1" <==> v.b) && (t == "" <==> !v.b)
    ensures v.JStr? ==> t == v.s
    ensures v.JInt? && v.i >= 0 ==>
      && |t| >= 1
      && (forall k :: 0 <= k < |t| ==> IsDigit(t[k]))
      && (t[0] == '0' ==> t == "0")
      && ParseDecimal(t) == v.i
    ensures v.JInt? && v.i < 0 ==>
      && |t| >= 2 && t[0] == '-'
      && (forall k :: 1 <= k < |t| ==> IsDigit(t[k]))
      && t[1] != '0'
      && ParseDecimal(t[1..]) == -v.i
  {
    match v
    case JNull => ""
    case JBool(b) => if b then "1" else ""
    case JInt(i) =>
      DecimalRoundTrip(if i >= 0 then i else -i);
      IntToDecimal(i)
    case JStr(s) => s
    case _ => ""
  }

  predicate IsDigit(c: char) {
    '0' <= c <= '9'
  }

  function Digit(d: nat): (c: char)
    requires d < 10
    ensures IsDigit(c) && DigitValue(c) == d
  {
    "0123456789"[d]
  }

  function DigitValue(c: char): nat
    requires IsDigit(c)
  {
    (c as int - '0' as int) as nat
  }

  /** The decimal text of a natural number, as PHP prints an int. */
  function NatToDecimal(n: nat): (s: string)
    ensures |s| >= 1
    ensures forall i :: 0 <= i < |s| ==> IsDigit(s[i])
    ensures (s[0] == '0') <==> (n == 0)
    ensures n == 0 <==> s == "0"
  {
    if n < 10 then [Digit(n)] else NatToDecimal(n / 10) + [Digit(n % 10)]
  }

  function IntToDecimal(i: int): string {
    if i < 0 then "-" + NatToDecimal(-i) else NatToDecimal(i)
  }

  /** Reads a string of digits back as a number: the inverse of `NatToDecimal`. */
  function ParseDecimal(s: string): nat
    requires forall i :: 0 <= i < |s| ==> IsDigit(s[i])
  {
    if s == [] then 0 else ParseDecimal(s[..|s| - 1]) * 10 + DigitValue(s[|s| - 1])
  }

  /** An int cast to a string reads back as the same number. */
  lemma {:induction false} DecimalRoundTrip(n: nat)
    ensures ParseDecimal(NatToDecimal(n)) == n
  {
    if n >= 10 {
      var s := NatToDecimal(n);
      assert s[..|s| - 1] == NatToDecimal(n / 10);
      DecimalRoundTrip(n / 10);
    }
  }

  /** A run of digits that does not start with '0' denotes a positive number. */
  lemma {:induction false} LeadingDigitPositive(s: string)
    requires |s| >= 1 && forall i :: 0 <= i < |s| ==> IsDigit(s[i])
    requires s[0] != '0'
    ensures ParseDecimal(s) >= 1
  {
    if |s| > 1 {
      LeadingDigitPositive(s[..|s| - 1]);
    }
  }

  /**
   * The decimal text of a number is unique: a non-empty run of digits with
   * no leading zero (other than "0" itself) that reads back as `n` is
   * exactly PHP's cast of `n`.
   */
  lemma {:induction false} DecimalUnique(s: string, n: nat)
    requires |s| >= 1 && forall i :: 0 <= i < |s| ==> IsDigit(s[i])
    requires s[0] == '0' ==> s == "0"
    requires ParseDecimal(s) == n
    ensures s == NatToDecimal(n)
  {
    var last := s[|s| - 1];
    if |s| == 1 {
      assert Digit(n) == last;
    } else {
      var p := s[..|s| - 1];
      LeadingDigitPositive(p);
      assert n / 10 == ParseDecimal(p) && n % 10 == DigitValue(last);
      DecimalUnique(p, n / 10);
      assert Digit(n % 10) == last;
      assert s == p + [last];
    }
  }

  /**
   * For the values PHP casts plainly, the cast keeps truthiness: a value is
   * empty exactly when its string is. So a truthy token stays truthy once a
   * `?string` return type has turned it into text.
   */
  lemma TextKeepsEmptiness(v: Json)
    ensures IsPlainScalar(v) ==> (Empty(v) <==> EmptyText(Text(v)))
  {
  }
}
