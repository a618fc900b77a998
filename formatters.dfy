/** `truncateText` and `formatAddress` from `utils/formatters.js`. */
module Formatters {
  import opened JsValues

  const DefaultMaxLength := 50
  const Ellipsis := "..."

  /** `text.substring(0, end)`: a negative end counts as 0, one past the
      length as the length. */
  function Prefix(text: string, end: int): (r: string)
    ensures |r| == if end <= 0 then 0 else if end >= |text| then |text| else end
    ensures r <= text
  {
    if end <= 0 then "" else if end >= |text| then text else text[..end]
  }

  /** `truncateText(text, maxLength = 50)`. */
  function TruncateText(text: string, maxLength: int := DefaultMaxLength): (r: string)
    ensures |text| <= maxLength ==> r == text
    ensures |text| > maxLength >= 0 ==> r == text[..maxLength] + Ellipsis && |r| == maxLength + 3
    ensures |text| > maxLength && maxLength < 0 ==> r == Ellipsis
  {
    if |text| <= maxLength then text else Prefix(text, maxLength) + Ellipsis
  }

  /** Truncating an already truncated text with the same limit changes nothing. */
  lemma TruncateIdempotent(text: string, maxLength: int)
    ensures TruncateText(TruncateText(text, maxLength), maxLength) == TruncateText(text, maxLength)
  {
    if |text| > maxLength >= 0 {
      var once := text[..maxLength] + Ellipsis;
      assert once[..maxLength] == text[..maxLength];
    }
  }

  /** Omitting the limit is the limit 50. */
  lemma TruncateDefaultIsFifty(text: string)
    ensures TruncateText(text) == TruncateText(text, 50)
    ensures |text| > 50 ==> |TruncateText(text)| == 53
  {
  }

  /** Decimal digits of a natural number. */
  function NatToDecimal(n: nat): (s: string)
    ensures |s| > 0
    ensures forall i :: 0 <= i < |s| ==> '0' <= s[i] <= '9'
    decreases n
  {
    var d := ['0' + (n % 10) as char];
    if n < 10 then d else NatToDecimal(n / 10) + d
  }

  /** A value inside a template literal: `${v}`. */
  function TemplateText(v: Value): (t: string)
    ensures v.Str? ==> t == v.s
    ensures !v.Str? ==> |t| > 0 && forall i :: 0 <= i < |t| ==> t[i] != ','
  {
    match v
    case Undefined => "undefined"
    case Null => "null"
    case Bool(b) => if b then "true" else "false"
    case Num(x) =>
      var n := x.Floor;
      if n >= 0 then NatToDecimal(n) else "-" + NatToDecimal(-n)
    case Str(s) => s
    case Rec(_) => "[object Object]"
  }

  /** `${street}, ${city} ${postal_code}, ${country}`. */
  function FormatAddress(address: Record): (r: string)
    ensures Get(address, "street").Str? && Get(address, "city").Str? && Get(address, "postal_code").Str? && Get(address, "country").Str? ==>
              r == Get(address, "street").s + ", " + Get(address, "city").s + " " + Get(address, "postal_code").s + ", " + Get(address, "country").s
  {
    TemplateText(Get(address, "street")) + ", " + TemplateText(Get(address, "city")) + " "
      + TemplateText(Get(address, "postal_code")) + ", " + TemplateText(Get(address, "country"))
  }

  /** The text in front of the first occurrence of c (all of t if none). */
  function Before(t: string, c: char): (r: string)
    ensures r <= t
  {
    if t == [] || t[0] == c then [] else [t[0]] + Before(t[1..], c)
  }

  /** A text that starts with s followed by c, s free of c, has s in
      front of its first c. */
  lemma {:induction false} BeforePrefix(t: string, s: string, c: char)
    requires |s| < |t| && t[|s|] == c
    requires forall i :: 0 <= i < |s| ==> t[i] == s[i] && s[i] != c
    ensures Before(t, c) == s
  {
    if s != [] {
      BeforePrefix(t[1..], s[1..], c);
      assert [s[0]] + s[1..] == s;
    }
  }

  /** A street without a comma can be read back from the formatted address:
      it is everything before the first comma. */
  lemma FormatAddressStartsWithStreet(address: Record, street: string)
    requires Get(address, "street") == Str(street)
    requires forall i :: 0 <= i < |street| ==> street[i] != ','
    ensures Before(FormatAddress(address), ',') == street
  {
    var t := FormatAddress(address);
    assert t == street + ", " + TemplateText(Get(address, "city")) + " " + TemplateText(Get(address, "postal_code"))
      + ", " + TemplateText(Get(address, "country"));
    BeforePrefix(t, street, ',');
  }
}
