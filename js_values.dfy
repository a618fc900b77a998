/** JavaScript values as the storefront's code handles them.

    A JavaScript object is a `Record`: a map from property name to value.
    Reading a missing property gives `Undefined`, and the object spread
    `{ ...a, ...b }` is the map union `a + b` (the right operand wins on a
    shared key).  Numbers are modelled as mathematical reals (money therefore
    carries exact decimals such as 4.99); there is no NaN value: a coercion
    that would produce NaN yields `None` instead. */
module JsValues {

  datatype Option<T> = None | Some(value: T)

  datatype Value =
    | Undefined
    | Null
    | Bool(b: bool)
    | Num(x: real)
    | Str(s: string)
    | Rec(fields: map<string, Value>)

  type Record = map<string, Value>

  /** Property read `r.key`. */
  function Get(r: Record, key: string): Value
  {
    if key in r then r[key] else Undefined
  }

  /** JavaScript truthiness: `undefined`, `null`, `false`, `0` and `''` are falsy. */
  predicate Truthy(v: Value)
  {
    match v
    case Undefined => false
    case Null => false
    case Bool(b) => b
    case Num(x) => x != 0.0
    case Str(s) => s != ""
    case Rec(_) => true
  }

  /** The falsy values are exactly `undefined`, `null`, `false`, `0` and `''`. */
  lemma FalsyValues(v: Value)
    ensures !Truthy(v) <==> v in {Undefined, Null, Bool(false), Num(0.0), Str("")}
  {
  }

  /** Nullish coalescing `v ?? fallback`. */
  function Coalesce(v: Value, fallback: Value): (r: Value)
    ensures r == v || r == fallback
    ensures Truthy(v) ==> r == v
  {
    if v.Undefined? || v.Null? then fallback else v
  }

  predicate IsDigit(c: char)
  {
    '0' <= c <= '9'
  }

  predicate AllDigits(s: string)
  {
    forall i :: 0 <= i < |s| ==> IsDigit(s[i])
  }

  function DigitsValue(s: string): nat
    requires AllDigits(s)
  {
    if s == [] then 0
    else DigitsValue(s[..|s| - 1]) * 10 + (s[|s| - 1] as int - '0' as int)
  }

  function Pow10(k: nat): (p: nat)
    ensures p >= 1
  {
    if k == 0 then 1 else 10 * Pow10(k - 1)
  }

  /** Index of the first '.' in s, or |s| when there is none. */
  function FirstDot(s: string): (k: nat)
    ensures k <= |s|
    ensures k < |s| ==> s[k] == '.'
    ensures forall i :: 0 <= i < k ==> s[i] != '.'
  {
    if s == [] then 0
    else if s[0] == '.' then 0
    else 1 + FirstDot(s[1..])
  }

  /** `Number(s)` for a string: the empty string is 0, unsigned decimal
      numerals ("12", "24.90", ".5", "5.") have their value, anything else
      is NaN (`None`). */
  function ParseNumber(s: string): (r: Option<real>)
    ensures r.Some? ==> r.value >= 0.0
    ensures AllDigits(s) ==> r == Some(DigitsValue(s) as real)
  {
    if s == "" then Some(0.0)
    else if AllDigits(s) then Some(DigitsValue(s) as real)
    else
      var k := FirstDot(s);
      if k < |s| && |s| > 1 && AllDigits(s[..k]) && AllDigits(s[k + 1..]) then
        Some(DigitsValue(s[..k]) as real + DigitsValue(s[k + 1..]) as real / Pow10(|s| - k - 1) as real)
      else None
  }

  /** `Number(v)`; `None` stands for NaN. */
  function ToNumber(v: Value): (r: Option<real>)
    ensures v.Num? ==> r == Some(v.x)
    ensures v.Str? && r.Some? ==> r.value >= 0.0
    ensures v.Undefined? || v.Rec? ==> r.None?
  {
    match v
    case Undefined => None
    case Null => Some(0.0)
    case Bool(b) => Some(if b then 1.0 else 0.0)
    case Num(x) => Some(x)
    case Str(s) => ParseNumber(s)
    case Rec(_) => None
  }

  /** The idiom `Number(v) || fallback`: NaN and 0 both give the fallback. */
  function NumberOr(v: Value, fallback: real): (r: real)
    ensures r == fallback || r != 0.0
    ensures ToNumber(v).Some? && ToNumber(v).value != 0.0 ==> r == ToNumber(v).value
    ensures (ToNumber(v).None? || ToNumber(v) == Some(0.0)) ==> r == fallback
  {
    match ToNumber(v)
    case None => fallback
    case Some(x) => if x == 0.0 then fallback else x
  }

  /** `??` differs from `||` on the falsy values that are not nullish:
      `0 ?? d` and `'' ?? d` keep 0 and `''`. */
  lemma CoalesceKeepsFalsy(v: Value, fallback: Value)
    ensures v.Undefined? || v.Null? ==> Coalesce(v, fallback) == fallback
    ensures Coalesce(Num(0.0), fallback) == Num(0.0) && Coalesce(Str(""), fallback) == Str("")
    ensures Coalesce(Bool(false), fallback) == Bool(false)
  {
  }

  /** `Number()` on non-text values, the empty string and an integer numeral. */
  lemma NumberOfSimpleValues()
    ensures ToNumber(Str("")) == Some(0.0) && ToNumber(Str("12")) == Some(12.0)
    ensures ToNumber(Null) == Some(0.0) && ToNumber(Undefined) == None
    ensures ToNumber(Bool(true)) == Some(1.0) && ToNumber(Bool(false)) == Some(0.0)
  {
    assert DigitsValue("12") == 12 by { assert "12"[..1] == "1"; assert "1"[..0] == ""; }
  }

  /** `Number()` on decimal numerals: a price as text has its value. */
  lemma NumberOfDecimal()
    ensures ToNumber(Str("24.90")) == Some(24.9)
  {
    var dec := "24.90";
    assert dec[2] == '.' && dec[0] != '.' && dec[1] != '.';
    assert FirstDot(dec) == 2 && !IsDigit(dec[2]);
    assert dec[..2] == "24" && dec[3..] == "90";
    assert DigitsValue("24") == 24 by { assert "24"[..1] == "2"; assert "2"[..0] == ""; }
    assert DigitsValue("90") == 90 by { assert "90"[..1] == "9"; assert "9"[..0] == ""; }
  }

  /** An empty integer part reads as 0. */
  lemma NumberOfBareFraction()
    ensures ToNumber(Str(".5")) == Some(0.5)
  {
    var half := ".5";
    assert FirstDot(half) == 0 && !IsDigit(half[0]);
    assert half[..0] == "" && half[1..] == "5";
    assert DigitsValue("5") == 5 by { assert "5"[..0] == ""; }
  }

  /** `Number()` on text that is not a numeral is NaN. */
  lemma NumberOfText()
    ensures ToNumber(Str("abc")) == None
    ensures ToNumber(Str("1.2.3")) == None
  {
    var word := "abc";
    assert !IsDigit(word[0]);
    assert word[0] != '.' && word[1] != '.' && word[2] != '.';
    assert FirstDot(word) == 3;
    var dots := "1.2.3";
    assert dots[1] == '.' && dots[0] != '.';
    assert FirstDot(dots) == 1 && !IsDigit(dots[1]);
    assert dots[2..][1] == '.';
  }
}
