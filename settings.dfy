/**
 * The setting types of lib/settings.js: the normalisers applied to raw form input, the validators
 * that then accept or refuse it, and the definitions of the simple settings that use them.
 */
module Settings {
  import opened Common
  import opened Strings

  // ---------------------------------------------------------------------------------------------
  // String.prototype.trim

  /** The characters ECMAScript's `trim` removes: white space and line terminators. */
  predicate IsSpace(c: char) {
    || c == '\t' || c == '\n' || c == '\U{000B}' || c == '\U{000C}' || c == '\r' || c == ' '
    || c == '\U{00A0}' || c == '\U{1680}' || ('\U{2000}' <= c <= '\U{200A}')
    || c == '\U{2028}' || c == '\U{2029}' || c == '\U{202F}' || c == '\U{205F}'
    || c == '\U{3000}' || c == '\U{FEFF}'
  }

  predicate AllSpace(s: string) {
    forall k :: 0 <= k < |s| ==> IsSpace(s[k])
  }

  /** Neither the first nor the last character is white space. */
  predicate NoEdgeSpace(s: string) {
    s == [] || (!IsSpace(s[0]) && !IsSpace(s[|s| - 1]))
  }

  /** How many white space characters `s` starts with. */
  function LeadingSpace(s: string): (n: nat)
    ensures n <= |s|
    ensures forall k :: 0 <= k < n ==> IsSpace(s[k])
    ensures n < |s| ==> !IsSpace(s[n])
  {
    if |s| > 0 && IsSpace(s[0]) then 1 + LeadingSpace(s[1..]) else 0
  }

  /** How many white space characters `s` ends with. */
  function TrailingSpace(s: string): (n: nat)
    ensures n <= |s|
    ensures forall k :: |s| - n <= k < |s| ==> IsSpace(s[k])
    ensures n < |s| ==> !IsSpace(s[|s| - 1 - n])
  {
    if |s| > 0 && IsSpace(s[|s| - 1]) then 1 + TrailingSpace(s[..|s| - 1]) else 0
  }

  /** `v.trim()`: what lies between the leading and the trailing white space. */
  function Trim(s: string): (r: string)
    ensures NoEdgeSpace(r)
  {
    var a := LeadingSpace(s);
    if a == |s| then [] else s[a..|s| - TrailingSpace(s)]
  }

  /** The leading white space ends at the first character that is not white space. */
  lemma LeadingSpaceIs(s: string, n: nat)
    requires n <= |s| && (forall k :: 0 <= k < n ==> IsSpace(s[k])) && (n < |s| ==> !IsSpace(s[n]))
    ensures LeadingSpace(s) == n
  {
  }

  /** The trailing white space starts after the last character that is not white space. */
  lemma TrailingSpaceIs(s: string, n: nat)
    requires n <= |s| && (forall k :: |s| - n <= k < |s| ==> IsSpace(s[k])) && (n < |s| ==> !IsSpace(s[|s| - 1 - n]))
    ensures TrailingSpace(s) == n
  {
  }

  /** What `trim` keeps is a slice of the input with only white space on either side. */
  lemma TrimIsSlice(s: string) returns (a: nat, b: nat)
    ensures a <= b <= |s| && Trim(s) == s[a..b] && AllSpace(s[..a]) && AllSpace(s[b..])
  {
    a := LeadingSpace(s);
    b := if a == |s| then a else |s| - TrailingSpace(s);
  }

  lemma AllSpaceConcat(x: string, y: string)
    requires AllSpace(x) && AllSpace(y)
    ensures AllSpace(x + y)
  {
    assert forall k :: 0 <= k < |x + y| ==> (x + y)[k] == if k < |x| then x[k] else y[k - |x|];
  }

  /** A string already free of edge white space, once surrounded by white space, trims back to
      itself. */
  lemma TrimSurrounded(p: string, t: string, q: string)
    requires AllSpace(p) && AllSpace(q) && NoEdgeSpace(t)
    ensures Trim(p + t + q) == t
  {
    var s := p + t + q;
    assert forall k :: 0 <= k < |p| ==> s[k] == p[k];
    assert forall k :: |p| + |t| <= k < |s| ==> s[k] == q[k - |p| - |t|];
    if t == [] {
      LeadingSpaceIs(s, |s|);
    } else {
      assert s[|p|] == t[0] && s[|s| - 1 - |q|] == t[|t| - 1];
      LeadingSpaceIs(s, |p|);
      TrailingSpaceIs(s, |q|);
      assert s[|p|..|s| - |q|] == t;
    }
  }

  /** A string without edge white space is its own trim. */
  lemma TrimKeepsTrimmed(t: string)
    requires NoEdgeSpace(t)
    ensures Trim(t) == t
  {
    TrimSurrounded([], t, []);
    assert [] + t + [] == t;
  }

  /** Trimming twice trims nothing more. */
  lemma TrimIdempotent(s: string)
    ensures Trim(Trim(s)) == Trim(s)
  {
    TrimKeepsTrimmed(Trim(s));
  }

  /** White space added around the input changes nothing once it is trimmed. */
  lemma TrimIgnoresSurroundingSpace(p: string, s: string, q: string)
    requires AllSpace(p) && AllSpace(q)
    ensures Trim(p + s + q) == Trim(s)
  {
    var a, b := TrimIsSlice(s);
    var t := Trim(s);
    var before, after := p + s[..a], s[b..] + q;
    AllSpaceConcat(p, s[..a]);
    AllSpaceConcat(s[b..], q);
    calc {
      p + s + q;
      { assert s == s[..a] + s[a..b] + s[b..]; }
      p + (s[..a] + t + s[b..]) + q;
      before + t + after;
    }
    TrimSurrounded(before, t, after);
  }

  // ---------------------------------------------------------------------------------------------
  // normalisers

  /** Upper case for the letters a to z; every other character is kept. */
  function UpperChar(c: char): (u: char)
    ensures 'a' <= c <= 'z' ==> 'A' <= u <= 'Z' && u as int == c as int - 32
    ensures !('a' <= c <= 'z') ==> u == c
  {
    if 'a' <= c <= 'z' then (c as int - 32) as char else c
  }

  /** Upper-casing neither makes nor unmakes white space. */
  lemma UpperKeepsSpace(c: char)
    ensures IsSpace(UpperChar(c)) <==> IsSpace(c)
  {
  }

  /** `toUpperCase()`, for the letters a to z. */
  function Upper(s: string): (r: string)
    ensures |r| == |s| && forall k :: 0 <= k < |s| ==> r[k] == UpperChar(s[k])
  {
    if s == [] then [] else [UpperChar(s[0])] + Upper(s[1..])
  }

  lemma UpperKeepsEdges(t: string)
    ensures NoEdgeSpace(t) ==> NoEdgeSpace(Upper(t))
  {
    if t != [] {
      UpperKeepsSpace(t[0]);
      UpperKeepsSpace(t[|t| - 1]);
    }
  }

  /** `normalise.trim`: the input without its surrounding white space, which a second trim
      leaves as it is. */
  function NormaliseTrim(v: string): (r: string)
    ensures NoEdgeSpace(r) && |r| <= |v|
    ensures Trim(r) == r
  {
    TrimIdempotent(v);
    Trim(v)
  }

  /** `normalise.currency`: the trimmed input in upper case. */
  function NormaliseCurrency(v: string): (r: string)
    ensures NoEdgeSpace(r) && |r| == |Trim(v)|
    ensures forall k :: 0 <= k < |r| ==> r[k] == UpperChar(Trim(v)[k])
  {
    var t := Trim(v);
    UpperKeepsEdges(t);
    Upper(t)
  }

  lemma UpperIdempotent(s: string)
    ensures Upper(Upper(s)) == Upper(s)
  {
    assert forall k :: 0 <= k < |s| ==> UpperChar(UpperChar(s[k])) == UpperChar(s[k]);
  }

  /** Normalising a currency a second time changes nothing. */
  lemma NormaliseCurrencyIdempotent(v: string)
    ensures NormaliseCurrency(NormaliseCurrency(v)) == NormaliseCurrency(v)
  {
    var n := NormaliseCurrency(v);
    TrimKeepsTrimmed(n);
    UpperIdempotent(Trim(v));
  }

  // ---------------------------------------------------------------------------------------------
  // validators

  /** `validify.string` accepts everything. */
  function ValidString(v: string): (r: bool)
    ensures r
  {
    true
  }

  /** `/^[+-]?\d+$/` on the trimmed input. */
  function ValidInteger(v: string): (r: bool)
    ensures r <==> var t := Trim(v);
      || (|t| >= 1 && AllDigits(t))
      || (|t| >= 2 && (t[0] == '+' || t[0] == '-') && AllDigits(t[1..]))
  {
    var t := Trim(v);
    if |t| > 0 && (t[0] == '+' || t[0] == '-') then |t| > 1 && AllDigits(t[1..])
    else |t| > 0 && AllDigits(t)
  }

  /** An optional sign and one or more digits, with white space around them, trim to the sign
      and the digits. */
  lemma SignedDigitsTrim(p: string, sign: string, d: string, q: string)
    requires AllSpace(p) && AllSpace(q) && (sign == "" || sign == "+" || sign == "-")
    requires |d| >= 1 && AllDigits(d)
    ensures Trim(p + (sign + d) + q) == sign + d
  {
    SignedDigitsHaveNoEdgeSpace(sign, d);
    TrimSurrounded(p, sign + d, q);
  }

  lemma SignedDigitsHaveNoEdgeSpace(sign: string, d: string)
    requires (sign == "" || sign == "+" || sign == "-") && |d| >= 1 && AllDigits(d)
    ensures NoEdgeSpace(sign + d)
  {
    var t := sign + d;
    assert IsDigit(d[0]) && IsDigit(d[|d| - 1]);
    assert t[|t| - 1] == d[|d| - 1];
    assert t[0] == '+' || t[0] == '-' || t[0] == d[0];
  }

  /** Every numeral JavaScript writes for an integer, signed or not, and with any white space
      around it, is accepted, and trims to the signed numeral. */
  lemma ValidIntegerIsNumeral(p: string, sign: string, n: nat, q: string)
    requires AllSpace(p) && AllSpace(q) && (sign == "" || sign == "+" || sign == "-")
    ensures Trim(p + (sign + Decimal(n)) + q) == sign + Decimal(n)
    ensures ValidInteger(p + (sign + Decimal(n)) + q)
  {
    var d := Decimal(n);
    SignedDigitsTrim(p, sign, d, q);
    var t := sign + d;
    if sign != "" {
      assert t[1..] == d;
    } else {
      assert t == d;
    }
  }

  /** An accepted input, trimmed, is an optional sign followed by one or more digits. */
  lemma ValidIntegerIsSignedDigits(v: string)
    requires ValidInteger(v)
    ensures exists sign, digits ::
      (sign == "" || sign == "+" || sign == "-") && |digits| >= 1 && AllDigits(digits) && Trim(v) == sign + digits
  {
    var t := Trim(v);
    if t[0] == '+' || t[0] == '-' {
      assert t == t[..1] + t[1..];
    } else {
      assert t == "" + t;
    }
  }

  /** `validify.currency`: exactly three characters A to Z, with no trimming. */
  function ValidCurrency(v: string): (r: bool)
    ensures r <==> |v| == 3 && forall k :: 0 <= k < 3 ==> 'A' <= v[k] <= 'Z'
  {
    |v| == 3 && 'A' <= v[0] <= 'Z' && 'A' <= v[1] <= 'Z' && 'A' <= v[2] <= 'Z'
  }

  /** A valid currency code is already normal. */
  lemma ValidCurrencyIsNormal(v: string)
    requires ValidCurrency(v)
    ensures NormaliseCurrency(v) == v
  {
    TrimKeepsTrimmed(v);
  }

  /** Any three lower-case letters, with any white space around them, normalise to a valid code:
      the same letters in upper case. */
  lemma LowerCaseCodeNormalisesToValid(p: string, a: char, b: char, c: char, q: string)
    requires AllSpace(p) && AllSpace(q)
    requires 'a' <= a <= 'z' && 'a' <= b <= 'z' && 'a' <= c <= 'z'
    ensures NormaliseCurrency(p + [a, b, c] + q) == [UpperChar(a), UpperChar(b), UpperChar(c)]
    ensures ValidCurrency(NormaliseCurrency(p + [a, b, c] + q))
  {
    TrimSurrounded(p, [a, b, c], q);
  }

  // ---------------------------------------------------------------------------------------------
  // the simple settings

  datatype Normaliser = TrimInput | CurrencyCode
  datatype Validator = AnyString | IntegerText | Url | SecureUrl | CurrencyText

  /** One entry of `settings.simple`. */
  datatype Definition = Definition(title: string, kind: string, default: string,
                                   normalise: Normaliser, validify: Validator, required: bool)

  /** Runs the normaliser a setting names; either one leaves no white space at the edges. */
  function Normalise(n: Normaliser, v: string): (r: string)
    ensures NoEdgeSpace(r)
  {
    match n
    case TrimInput => NormaliseTrim(v)
    case CurrencyCode => NormaliseCurrency(v)
  }

  /** The verdict of a validator; the two URL validators belong to the `validate.js` library and
      have none here. */
  function Validify(k: Validator, v: string): (r: Option<bool>)
    ensures r.None? <==> k == Url || k == SecureUrl
  {
    match k
    case AnyString => Some(ValidString(v))
    case IntegerText => Some(ValidInteger(v))
    case CurrencyText => Some(ValidCurrency(v))
    case Url => None
    case SecureUrl => None
  }

  const SplashImage := Definition("Splash Image", "url", "https://s3.postimg.org/qa57kzblf/pexels-photo-117403.jpg",
                                  TrimInput, SecureUrl, false)
  const Currency := Definition("Currency", "string", "usd", CurrencyCode, CurrencyText, true)

  /** `settings.simple`, in declaration order. */
  const Simple: seq<(string, Definition)> := [("splashImage", SplashImage), ("currency", Currency)]

  /** Normalising a value twice gives what normalising it once gave, whichever the normaliser. */
  lemma NormaliseIdempotent(n: Normaliser, v: string)
    ensures Normalise(n, Normalise(n, v)) == Normalise(n, v)
  {
    match n
    case TrimInput => TrimIdempotent(v);
    case CurrencyCode => NormaliseCurrencyIdempotent(v);
  }

  /** `settings.simple` lists the splash image and then the currency; the splash image is an
      optional secure URL that is trimmed, the currency a required, upper-cased three-letter code
      defaulting to `usd`. */
  lemma SimpleSettings()
    ensures |Simple| == 2 && Simple[0].0 == "splashImage" && Simple[1].0 == "currency"
    ensures Simple[0].1.kind == "url" && Simple[0].1.normalise == TrimInput
    ensures Simple[0].1.validify == SecureUrl && !Simple[0].1.required
    ensures Simple[1].1.title == "Currency" && Simple[1].1.default == "usd"
    ensures Simple[1].1.normalise == CurrencyCode && Simple[1].1.validify == CurrencyText && Simple[1].1.required
  {
  }

  /** Where a simple setting's validator gives a verdict, its normalised default passes it. */
  lemma SimpleDefaultsNormaliseToValid()
    ensures forall i :: 0 <= i < |Simple| ==>
      var d := Simple[i].1;
      Validify(d.validify, Normalise(d.normalise, d.default)) != Some(false)
  {
    CurrencyDefaultNeedsNormalising();
  }

  /** The currency's default is refused by its own validator as stored, and accepted once
      normalised (as `USD`). */
  lemma CurrencyDefaultNeedsNormalising()
    ensures Validify(Currency.validify, Currency.default) == Some(false)
    ensures Normalise(Currency.normalise, Currency.default) == "USD"
    ensures Validify(Currency.validify, Normalise(Currency.normalise, Currency.default)) == Some(true)
  {
    LowerCaseCodeNormalisesToValid([], 'u', 's', 'd', []);
    assert [] + ['u', 's', 'd'] + [] == Currency.default;
  }
}
