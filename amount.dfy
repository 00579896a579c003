/** Decimal amount scaling (packages/apps/src/utils/amount.ts).

    The source works on arbitrary-precision BigNumber values. They are
    modelled here as Dafny `real`s (exact rationals) and `int`s; a BigNumber
    that is NaN or infinite is the `NonFinite` case of `Big`. */
module Amount {
  import opened Common

  /** The SDK's id of the chain's native asset. */
  const SYSTEM_ASSET_ID: string := "0"

  /** 10^d; asset decimals are never negative. */
  function Pow10(d: nat): (r: nat)
    ensures r >= 1
  {
    if d == 0 then 1 else 10 * Pow10(d - 1)
  }

  /** The SDK's `scale(x, d)`: x shifted left by d decimal places. */
  function Scale(x: real, d: nat): real
  {
    x * Pow10(d) as real
  }

  /** BigNumber's `decimalPlaces(0, ROUND_DOWN)`: drop the fraction, rounding toward zero. */
  function RoundDown(x: real): (r: int)
    ensures 0.0 <= x ==> r as real <= x < r as real + 1.0
    ensures x < 0.0 ==> r as real - 1.0 < x <= r as real
  {
    if x >= 0.0 then x.Floor else -((-x).Floor)
  }

  /** `toBn(amount, decimals)`: the amount in the asset's smallest units. */
  function ToBn(x: real, d: nat): int
  {
    RoundDown(Scale(x, d))
  }

  /** `formatAmount(amount, decimals)`: smallest units back to a human amount. */
  function FormatAmount(a: real, d: nat): real
  {
    a / Pow10(d) as real
  }

  /** An integer is its own truncation. */
  lemma RoundDownInteger(k: int)
    ensures RoundDown(k as real) == k
  {
    var r := RoundDown(k as real);
    if k >= 0 {
      assert r as real <= k as real < r as real + 1.0;
    } else {
      assert r as real - 1.0 < k as real <= r as real;
    }
  }

  /** toBn never moves away from zero by a whole unit: for a non-negative
      amount, toBn(x, d) <= x*10^d < toBn(x, d) + 1, and symmetrically below zero. */
  lemma ToBnBounds(x: real, d: nat)
    ensures 0.0 <= x ==> ToBn(x, d) as real <= x * Pow10(d) as real < ToBn(x, d) as real + 1.0
    ensures x < 0.0 ==> ToBn(x, d) as real - 1.0 < x * Pow10(d) as real <= ToBn(x, d) as real
  {
    var p := Pow10(d) as real;
    if 0.0 <= x {
      assert 0.0 <= x * p;
    } else {
      assert x * p < 0.0;
    }
  }

  /** Scaling undoes formatting exactly. */
  lemma ScaleFormat(a: real, d: nat)
    ensures Scale(FormatAmount(a, d), d) == a
  {
    var p := Pow10(d) as real;
    assert p != 0.0;
    calc {
      Scale(FormatAmount(a, d), d);
      (a / p) * p;
      a;
    }
  }

  /** Smallest units survive a trip through formatAmount and toBn unchanged. */
  lemma ToBnAfterFormat(a: int, d: nat)
    ensures ToBn(FormatAmount(a as real, d), d) == a
  {
    ScaleFormat(a as real, d);
    RoundDownInteger(a);
  }

  /** An amount with at most d fractional digits (k / 10^d for an integer k)
      comes back unchanged from formatAmount(toBn(x, d), d). */
  lemma FormatAfterToBn(k: int, d: nat)
    ensures FormatAmount(ToBn(FormatAmount(k as real, d), d) as real, d) == FormatAmount(k as real, d)
  {
    ToBnAfterFormat(k, d);
  }

  // ----- BigNumber's reading of a decimal string -----

  predicate IsDigit(c: char)
  {
    '0' <= c <= '9'
  }

  predicate AllDigits(s: string)
  {
    forall i | 0 <= i < |s| :: IsDigit(s[i])
  }

  /** The natural number a string of decimal digits spells. */
  function DigitsValue(s: string): nat
    requires AllDigits(s)
  {
    if s == [] then 0 else 10 * DigitsValue(s[..|s| - 1]) + (s[|s| - 1] as int - '0' as int)
  }

  /** k decimal digits spell a number below 10^k. */
  lemma {:induction false} DigitsValueBound(s: string)
    requires AllDigits(s)
    ensures DigitsValue(s) < Pow10(|s|)
  {
    if s != [] {
      DigitsValueBound(s[..|s| - 1]);
    }
  }

  /** Position of the first '.', or |s| when there is none. */
  function DotIndex(s: string): (r: nat)
    ensures r <= |s|
    ensures r < |s| ==> s[r] == '.'
    ensures forall j | 0 <= j < r :: s[j] != '.'
  {
    if s == [] || s[0] == '.' then 0 else 1 + DotIndex(s[1..])
  }

  /** whole + frac / 10^|frac|. */
  function DecimalValue(whole: string, frac: string): real
    requires AllDigits(whole) && AllDigits(frac)
  {
    DigitsValue(whole) as real + DigitsValue(frac) as real / Pow10(|frac|) as real
  }

  /** The value of `digits[.digits]`, with at least one digit; None is NaN. */
  function ParseUnsigned(s: string): Option<real>
  {
    var i := DotIndex(s);
    if i == |s| then
      if s != [] && AllDigits(s) then Some(DigitsValue(s) as real) else None
    else
      var whole, frac := s[..i], s[i + 1..];
      if AllDigits(whole) && AllDigits(frac) && |whole| + |frac| > 0 then
        Some(DecimalValue(whole, frac))
      else None
  }

  /** A BigNumber as `bnum` produces it: NaN, an infinity, or a finite value. */
  datatype Num = NaN | Infinite(negative: bool) | Number(value: real)

  /** BigNumber's `isNumeric` test without the exponent part: an optional
      '-', then `digits[.digits]` or `.digits`; None when it fails. */
  function PlainValue(s: string): Option<real>
  {
    if s != [] && s[0] == '-' then
      match ParseUnsigned(s[1..])
      case Some(v) => Some(-v)
      case None => None
    else ParseUnsigned(s)
  }

  /** JavaScript's `\s`. */
  predicate IsSpace(c: char)
  {
    c == ' ' || c == '\t' || c == '\n' || c == '\U{B}' || c == '\U{C}' || c == '\r' || c == '\U{A0}'
    || c == '\U{1680}' || ('\U{2000}' <= c <= '\U{200A}') || c == '\U{2028}' || c == '\U{2029}'
    || c == '\U{202F}' || c == '\U{205F}' || c == '\U{3000}' || c == '\U{FEFF}'
  }

  /** JavaScript's `[\w.]`. */
  predicate IsWordOrDot(c: char)
  {
    'a' <= c <= 'z' || 'A' <= c <= 'Z' || IsDigit(c) || c == '_' || c == '.'
  }

  /** The length of the leading run of whitespace. */
  function LeadingSpaces(s: string): (n: nat)
    ensures n <= |s|
    ensures n < |s| ==> !IsSpace(s[n])
  {
    if s != [] && IsSpace(s[0]) then 1 + LeadingSpaces(s[1..]) else 0
  }

  /** The length of the trailing run of whitespace. */
  function TrailingSpaces(s: string): (n: nat)
    ensures n <= |s|
    ensures n < |s| ==> !IsSpace(s[|s| - 1 - n])
  {
    if s != [] && IsSpace(s[|s| - 1]) then 1 + TrailingSpaces(s[..|s| - 1]) else 0
  }

  /** BigNumber's `replace(/^\s*\+(?=[\w.])|^\s+|\s+$/g, '')`: leading
      whitespace goes, together with a '+' after it when a word character or
      '.' follows; trailing whitespace goes. The result is a slice of the
      input, shorter whenever it differs. */
  function StripSpaceOrPlus(s: string): (t: string)
    ensures |t| <= |s|
    ensures t != s ==> |t| < |s|
  {
    var w := LeadingSpaces(s);
    var a := if w + 1 < |s| && s[w] == '+' && IsWordOrDot(s[w + 1]) then w + 1 else w;
    var b := if |s| - TrailingSpaces(s) < a then a else |s| - TrailingSpaces(s);
    s[a..b]
  }

  /** `bnum(s)`: a string that passes `isNumeric` is read as written.
      Otherwise (`parseNumeric`) whitespace and a leading '+' are stripped;
      "Infinity" and "-Infinity" are infinities; a string that the strip
      changed is read once more, and anything else is NaN. The second read
      strips nothing (StripIdempotent), so it ends in the plain value of the
      stripped string or in NaN. */
  function ParseDecimal(s: string): (r: Num)
    ensures r.Number? ==> s != []
  {
    match PlainValue(s)
    case Some(v) => Number(v)
    case None =>
      var t := StripSpaceOrPlus(s);
      if t == "Infinity" then Infinite(false)
      else if t == "-Infinity" then Infinite(true)
      else if t != s && PlainValue(t).Some? then Number(PlainValue(t).value)
      else NaN
  }

  /** `scale(x, d).gt(b)`: NaN is never greater, +Infinity always is,
      -Infinity never is. */
  predicate ScaledExceeds(x: Num, d: nat, b: real)
  {
    match x
    case NaN => false
    case Infinite(negative) => !negative
    case Number(v) => Scale(v, d) > b
  }

  /** The first '.' of "whole.frac" follows the whole part. */
  lemma {:induction false} DotIndexAfterDigits(whole: string, rest: string)
    requires AllDigits(whole) && rest != [] && rest[0] == '.'
    ensures DotIndex(whole + rest) == |whole|
  {
    if whole != [] {
      assert (whole + rest)[1..] == whole[1..] + rest;
      DotIndexAfterDigits(whole[1..], rest);
    } else {
      assert whole + rest == rest;
    }
  }

  /** Truncating a whole number plus a proper fraction leaves the whole number. */
  lemma ToBnWholePlusFraction(w: nat, f: real)
    requires 0.0 <= f < 1.0
    ensures ToBn(w as real + f, 0) == w
  {
    var x := w as real + f;
    assert Scale(x, 0) == x;
    var r := RoundDown(x);
    assert r as real <= x < r as real + 1.0;
    assert r < w + 1;
    assert w < r + 1;
  }

  /** A string whose first '.' splits it into digit runs reads as whole + frac / 10^|frac|. */
  lemma ParseUnsignedAtDot(s: string, i: nat)
    requires i < |s| && DotIndex(s) == i
    requires AllDigits(s[..i]) && AllDigits(s[i + 1..]) && i > 0
    ensures ParseUnsigned(s)
         == Some(DecimalValue(s[..i], s[i + 1..]))
  {
  }

  /** A fraction with a smaller non-negative numerator lies in [0, 1). */
  lemma ProperFraction(a: nat, b: nat)
    requires a < b
    ensures 0.0 <= a as real / b as real < 1.0
  {
    assert a as real < b as real;
  }

  /** "whole.frac" without a sign reads as whole + frac / 10^|frac|. */
  lemma UnsignedWithDot(whole: string, frac: string)
    requires whole != [] && AllDigits(whole) && AllDigits(frac)
    ensures ParseUnsigned(whole + "." + frac) == Some(DecimalValue(whole, frac))
  {
    SplitAtDot(whole, frac);
  }

  /** "whole.frac" splits at its first '.' back into whole and frac. */
  lemma SplitAtDot(whole: string, frac: string)
    requires AllDigits(whole)
    ensures var s := whole + ['.'] + frac; DotIndex(s) == |whole| && s[..|whole|] == whole && s[|whole| + 1..] == frac
  {
    var s := whole + ['.'] + frac;
    assert s == whole + (['.'] + frac);
    DotIndexAfterDigits(whole, ['.'] + frac);
    assert s[..|whole|] == whole;
    assert s[|whole| + 1..] == frac;
  }

  /** A plain unsigned string reads as its value, and after a '-' as its
      value negated. */
  lemma SignedReads(t: string)
    requires ParseUnsigned(t).Some? && t[0] != '-'
    ensures ParseDecimal(t) == Number(ParseUnsigned(t).value)
    ensures ParseDecimal("-" + t) == Number(-ParseUnsigned(t).value)
  {
    var s := "-" + t;
    assert s[0] == '-' && s[1..] == t;
    PlainReads(t);
    PlainReads(s);
  }

  /** The value of a plain decimal string: an optional '-', the whole digits,
      and optionally a '.' and fraction digits read as a fraction of
      10^|frac|. */
  lemma PlainDecimalValue(whole: string, frac: string)
    requires whole != [] && AllDigits(whole) && AllDigits(frac)
    ensures ParseDecimal(whole + "." + frac) == Number(DecimalValue(whole, frac))
    ensures ParseDecimal("-" + whole + "." + frac) == Number(-DecimalValue(whole, frac))
    ensures ParseDecimal(whole) == Number(DigitsValue(whole) as real)
    ensures ParseDecimal("-" + whole) == Number(-(DigitsValue(whole) as real))
  {
    var t := whole + "." + frac;
    UnsignedWithDot(whole, frac);
    assert t[0] == whole[0];
    SignedReads(t);
    assert "-" + whole + "." + frac == "-" + t;
    assert DotIndex(whole) == |whole|;
    SignedReads(whole);
  }

  /** A string that starts with neither a digit nor '.' is not plain unsigned. */
  lemma NotUnsigned(s: string)
    requires s != [] && !IsDigit(s[0]) && s[0] != '.'
    ensures ParseUnsigned(s).None?
  {
    var i := DotIndex(s);
    if 0 < i < |s| {
      assert s[..i][0] == s[0];
    }
  }

  /** A string that starts with neither a digit, '.' nor '-' is not plain. */
  lemma NotPlain(s: string)
    requires s != [] && !IsDigit(s[0]) && s[0] != '.' && s[0] != '-'
    ensures PlainValue(s).None?
  {
    NotUnsigned(s);
  }

  /** A plain string reads as its plain value. */
  lemma PlainReads(s: string)
    requires PlainValue(s).Some?
    ensures ParseDecimal(s) == Number(PlainValue(s).value)
  {
  }

  /** The strip leaves a string alone that has no whitespace at either end
      and does not start with '+'. */
  lemma StripUnchanged(s: string)
    requires s != [] && !IsSpace(s[0]) && !IsSpace(s[|s| - 1]) && s[0] != '+'
    ensures StripSpaceOrPlus(s) == s
  {
    assert LeadingSpaces(s) == 0;
    assert TrailingSpaces(s) == 0;
  }

  /** The strip removes one space on either side of a string that has no
      whitespace at either end and does not start with '+'. */
  lemma StripPadded(s: string)
    requires s != [] && !IsSpace(s[0]) && !IsSpace(s[|s| - 1]) && s[0] != '+'
    ensures StripSpaceOrPlus(" " + s + " ") == s
  {
    var x := " " + s + " ";
    assert x[1..] == s + " " && (s + " ")[0] == s[0];
    assert LeadingSpaces(x[1..]) == 0;
    assert LeadingSpaces(x) == 1;
    assert x[..|x| - 1] == " " + s;
    assert TrailingSpaces(" " + s) == 0;
    assert TrailingSpaces(x) == 1;
    assert x[1..|x| - 1] == s;
  }

  /** The strip removes a leading '+' before a word character or '.' from a
      string with no whitespace at either end. */
  lemma StripPlus(s: string)
    requires s != [] && IsWordOrDot(s[0]) && !IsSpace(s[|s| - 1])
    ensures StripSpaceOrPlus("+" + s) == s
  {
    var y := "+" + s;
    assert LeadingSpaces(y) == 0;
    assert TrailingSpaces(y) == 0;
    assert y[1..] == s;
  }

  /** One space on either side does not change what a string with no
      whitespace at either end and no leading '+' reads as. */
  lemma SpacesIgnored(s: string)
    requires s != [] && !IsSpace(s[0]) && !IsSpace(s[|s| - 1]) && s[0] != '+'
    ensures ParseDecimal(" " + s + " ") == ParseDecimal(s)
  {
    var x := " " + s + " ";
    assert x[0] == ' ';
    NotPlain(x);
    StripPadded(s);
    if s == "Infinity" {
      InfinityReads();
    } else if s == "-Infinity" {
      MinusInfinityReads();
    }
  }

  /** Stripping twice is stripping once: what is left neither starts nor
      ends with whitespace, and starts with '+' only when no word character
      or '.' follows it. */
  lemma StripIdempotent(s: string)
    ensures StripSpaceOrPlus(StripSpaceOrPlus(s)) == StripSpaceOrPlus(s)
  {
    var t := StripSpaceOrPlus(s);
    var w := LeadingSpaces(s);
    var a := if w + 1 < |s| && s[w] == '+' && IsWordOrDot(s[w + 1]) then w + 1 else w;
    var b := if |s| - TrailingSpaces(s) < a then a else |s| - TrailingSpaces(s);
    assert t == s[a..b];
    if t != [] {
      assert t[0] == s[a] && t[|t| - 1] == s[b - 1];
      assert !IsSpace(t[0]);
      assert !IsSpace(t[|t| - 1]);
      assert LeadingSpaces(t) == 0;
      assert TrailingSpaces(t) == 0;
      if a == w && 1 < |t| && t[0] == '+' {
        assert t[1] == s[w + 1];
      }
    }
  }

  /** A string that is neither plain nor an infinity and that the strip
      changes reads as `bnum` of the stripped string, which is what the
      source's second `new BigNumber(s)` computes. */
  lemma RereadAfterStrip(s: string)
    requires PlainValue(s).None?
    requires var t := StripSpaceOrPlus(s); t != s && t != "Infinity" && t != "-Infinity"
    ensures ParseDecimal(s) == ParseDecimal(StripSpaceOrPlus(s))
  {
    StripIdempotent(s);
  }

  /** A string that is not plain and strips to "Infinity" or "-Infinity"
      reads as that infinity. */
  lemma StripsToInfinity(s: string)
    requires PlainValue(s).None?
    ensures StripSpaceOrPlus(s) == "Infinity" ==> ParseDecimal(s) == Infinite(false)
    ensures StripSpaceOrPlus(s) == "-Infinity" ==> ParseDecimal(s) == Infinite(true)
  {
  }

  /** "Infinity" is positive infinity, not NaN. */
  lemma InfinityReads()
    ensures ParseDecimal("Infinity") == Infinite(false)
  {
    NotPlain("Infinity");
    StripUnchanged("Infinity");
    StripsToInfinity("Infinity");
  }

  /** A leading '+' before a word character or '.' does not change what a
      string with no trailing whitespace reads as. */
  lemma PlusIgnored(t: string)
    requires t != [] && IsWordOrDot(t[0]) && !IsSpace(t[|t| - 1])
    ensures ParseDecimal("+" + t) == ParseDecimal(t)
  {
    var s := "+" + t;
    assert s[0] == '+';
    NotPlain(s);
    StripPlus(t);
    if t == "Infinity" {
      InfinityReads();
    }
  }

  /** "-Infinity" is negative infinity. */
  lemma MinusInfinityReads()
    ensures ParseDecimal("-Infinity") == Infinite(true)
  {
    assert "-Infinity"[1..] == "Infinity";
    NotUnsigned("Infinity");
    StripUnchanged("-Infinity");
    StripsToInfinity("-Infinity");
  }

  /** Truncating whole + frac / 10^|frac| leaves the whole part. */
  lemma ToBnOfDecimal(whole: string, frac: string)
    requires AllDigits(whole) && AllDigits(frac)
    ensures ToBn(DecimalValue(whole, frac), 0) == DigitsValue(whole)
  {
    DigitsValueBound(frac);
    ProperFraction(DigitsValue(frac), Pow10(|frac|));
    ToBnWholePlusFraction(DigitsValue(whole), DigitsValue(frac) as real / Pow10(|frac|) as real);
  }

  /** toBn(s, 0) of a string "whole.frac" is the number its whole part spells:
      the fraction digits are cut off. */
  lemma TruncateDecimalString(whole: string, frac: string)
    requires whole != [] && AllDigits(whole) && AllDigits(frac)
    ensures ParseDecimal(whole + "." + frac).Number?
    ensures ToBn(ParseDecimal(whole + "." + frac).value, 0) == DigitsValue(whole)
  {
    var t := whole + "." + frac;
    UnsignedWithDot(whole, frac);
    assert t[0] == whole[0];
    SignedReads(t);
    ToBnOfDecimal(whole, frac);
  }

  // ----- exchange rates -----

  /** An SDK `Amount`: a value in smallest units and its decimals. */
  datatype Rate = Rate(amount: real, decimals: nat)

  /** The asset fields that exchangeNative reads. */
  datatype AssetRef = AssetRef(id: string, decimals: nat)

  /** A BigNumber result: a finite integer, or NaN/Infinity. */
  datatype Big = Finite(value: int) | NonFinite

  /** `exchange(rates, asset, amount)`: the amount priced by the asset's rate;
      None (the source's null) when the asset has no rate. */
  function Exchange(rates: map<string, Rate>, assetId: Option<string>, amount: real): (r: Option<real>)
    ensures r.None? <==> assetId.None? || assetId.value !in rates
  {
    if assetId.None? || assetId.value !in rates then None
    else
      var rate := rates[assetId.value];
      Some(FormatAmount(rate.amount * amount, rate.decimals))
  }

  /** exchange is linear in the amount: pricing x + y is pricing x plus pricing y. */
  lemma ExchangeAdditive(rates: map<string, Rate>, assetId: Option<string>, x: real, y: real)
    requires assetId.Some? && assetId.value in rates
    ensures Exchange(rates, assetId, x + y).value
         == Exchange(rates, assetId, x).value + Exchange(rates, assetId, y).value
  {
    var rate := rates[assetId.value];
    var a := rate.amount;
    assert a * (x + y) == a * x + a * y;
    FormatAdditive(a * x, a * y, rate.decimals);
  }

  /** formatAmount distributes over a sum. */
  lemma FormatAdditive(u: real, v: real, d: nat)
    ensures FormatAmount(u + v, d) == FormatAmount(u, d) + FormatAmount(v, d)
  {
    DivAdd(u, v, Pow10(d) as real);
  }

  /** Division distributes over a sum. */
  lemma DivAdd(u: real, v: real, p: real)
    requires p != 0.0
    ensures (u + v) / p == u / p + v / p
  {
  }

  /** `exchangeNative(rate, asset, amountNative)`: a native amount converted to
      the asset's smallest units, truncated toward zero. The native asset is
      only truncated; a zero rate makes the division non-finite. */
  function ExchangeNative(rate: Rate, asset: AssetRef, amountNative: real): (r: Big)
    ensures r.NonFinite? <==> asset.id != SYSTEM_ASSET_ID && rate.amount == 0.0
  {
    if asset.id == SYSTEM_ASSET_ID then Finite(ToBn(amountNative, 0))
    else if rate.amount == 0.0 then NonFinite
    else Finite(ToBn(amountNative / rate.amount, asset.decimals))
  }

  /** For the native asset the result is the truncated amount; otherwise it is
      amountNative / rate * 10^decimals truncated toward zero. */
  lemma ExchangeNativeBounds(rate: Rate, asset: AssetRef, amountNative: real)
    requires 0.0 <= amountNative
    requires asset.id == SYSTEM_ASSET_ID || 0.0 < rate.amount
    ensures ExchangeNative(rate, asset, amountNative).Finite?
    ensures var v := ExchangeNative(rate, asset, amountNative).value as real;
      if asset.id == SYSTEM_ASSET_ID then v <= amountNative < v + 1.0
      else v <= amountNative / rate.amount * Pow10(asset.decimals) as real < v + 1.0
  {
    if asset.id == SYSTEM_ASSET_ID {
      ToBnBounds(amountNative, 0);
    } else {
      assert 0.0 <= amountNative / rate.amount;
      ToBnBounds(amountNative / rate.amount, asset.decimals);
    }
  }
}
