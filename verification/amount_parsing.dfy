/**
 * `parseAmount`: reading an amount of game money out of a customer's message.
 * The word "max" anywhere means the maximum order; otherwise only the first
 * number written as `digits[.digits][k|m]` counts, commas being ignored.
 */
module AmountParsing {

  import opened Options
  import opened Numerals
  import opened Text
  import opened Pricing

  datatype Suffix = NoSuffix | Thousand | Million

  /** One match of the pattern `(\d+(\.\d+)?)(k|m)?`: whole digits, fraction digits, suffix. */
  datatype Token = Token(whole: string, fraction: string, suffix: Suffix)
  {
    predicate Wellformed() {
      |whole| > 0 && AllDigits(whole) && AllDigits(fraction)
    }
  }

  predicate HasDigit(s: string) {
    exists i :: 0 <= i < |s| && IsDigit(s[i])
  }

  /** `s.replace(/,/g, "")`: `s` with every comma removed. */
  function StripCommas(s: string): (r: string)
    ensures |r| <= |s|
    ensures forall c :: c in r <==> c in s && c != ','
  {
    if s == [] then []
    else if s[0] == ',' then StripCommas(s[1..])
    else [s[0]] + StripCommas(s[1..])
  }

  /** The position of the first digit of `s`, or |s| when it has none. */
  function FirstDigitIndex(s: string): (i: nat)
    ensures i <= |s|
    ensures i < |s| ==> IsDigit(s[i])
    ensures forall j :: 0 <= j < i ==> !IsDigit(s[j])
  {
    if s == [] || IsDigit(s[0]) then 0 else 1 + FirstDigitIndex(s[1..])
  }

  /** The length of the run of digits `s` starts with (the greedy `\d+`). */
  function DigitRunLength(s: string): (n: nat)
    ensures n <= |s|
    ensures AllDigits(s[..n])
    ensures n < |s| ==> !IsDigit(s[n])
  {
    if s == [] || !IsDigit(s[0]) then 0 else 1 + DigitRunLength(s[1..])
  }

  /** The suffix `(k|m)?` read at position `k` of `s`. */
  function SuffixAt(s: string, k: nat): Suffix {
    if k < |s| && s[k] == 'k' then Thousand
    else if k < |s| && s[k] == 'm' then Million
    else NoSuffix
  }

  /** `s` holds, from position `i`, exactly the digits `d` and then no further digit. */
  ghost predicate MaximalDigitsAt(s: string, i: nat, d: string) {
    && |d| > 0 && AllDigits(d)
    && i + |d| <= |s| && s[i..i + |d|] == d
    && (i + |d| < |s| ==> !IsDigit(s[i + |d|]))
  }

  /** The pattern matches at position `i` of `s` and captures `t` (every part taken greedily). */
  ghost predicate TokenAt(s: string, i: nat, t: Token) {
    && MaximalDigitsAt(s, i, t.whole)
    && var j := i + |t.whole|;
    && (if t.fraction == [] then !(j + 1 < |s| && s[j] == '.' && IsDigit(s[j + 1]))
        else j < |s| && s[j] == '.' && MaximalDigitsAt(s, j + 1, t.fraction))
    && var k := if t.fraction == [] then j else j + 1 + |t.fraction|;
    && SuffixAt(s, k) == t.suffix
  }

  /** The greedy `\d+` at position `i`, which holds a digit. */
  function WholeAt(s: string, i: nat): (d: string)
    requires i < |s| && IsDigit(s[i])
    ensures MaximalDigitsAt(s, i, d)
  {
    var n := DigitRunLength(s[i..]);
    assert s[i..][..n] == s[i..i + n];
    s[i..i + n]
  }

  /** The optional `(\.\d+)?` at position `j`, taken whenever a point and a digit follow. */
  function FractionAt(s: string, j: nat): (f: string)
    ensures f == [] ==> !(j + 1 < |s| && s[j] == '.' && IsDigit(s[j + 1]))
    ensures f != [] ==> j < |s| && s[j] == '.' && MaximalDigitsAt(s, j + 1, f)
  {
    if j + 1 < |s| && s[j] == '.' && IsDigit(s[j + 1]) then WholeAt(s, j + 1) else []
  }

  /** `s.match(/(\d+(\.\d+)?)(k|m)?/)`: the leftmost match, or none when `s` has no digit. */
  function FirstToken(s: string): (r: Option<Token>)
    ensures r.None? <==> !HasDigit(s)
    ensures r.Some? ==> r.value.Wellformed() && TokenAt(s, FirstDigitIndex(s), r.value)
  {
    var i := FirstDigitIndex(s);
    if i == |s| then None
    else
      var whole := WholeAt(s, i);
      var fraction := FractionAt(s, i + |whole|);
      var k := if fraction == [] then i + |whole| else i + |whole| + 1 + |fraction|;
      Some(Token(whole, fraction, SuffixAt(s, k)))
  }

  /** A prefix of `t` made of `n` digits and followed by no digit is exactly the greedy run. */
  lemma {:induction false} DigitRunLengthOf(t: string, n: nat)
    requires n <= |t| && AllDigits(t[..n]) && (n < |t| ==> !IsDigit(t[n]))
    ensures DigitRunLength(t) == n
  {
    if n > 0 {
      assert IsDigit(t[..n][0]);
      assert t[1..][..n - 1] == t[..n][1..];
      DigitRunLengthOf(t[1..], n - 1);
    }
  }

  /** A run of digits starting at a given position has only one maximal extent. */
  lemma MaximalDigitsUnique(s: string, i: nat, d1: string, d2: string)
    requires MaximalDigitsAt(s, i, d1) && MaximalDigitsAt(s, i, d2)
    ensures d1 == d2
  {
    assert s[i..][..|d1|] == d1 && s[i..][..|d2|] == d2;
    DigitRunLengthOf(s[i..], |d1|);
    DigitRunLengthOf(s[i..], |d2|);
  }

  /** The pattern captures only one token at a given position: `FirstToken` is THE leftmost match. */
  lemma TokenAtUnique(s: string, i: nat, t1: Token, t2: Token)
    requires TokenAt(s, i, t1) && TokenAt(s, i, t2)
    ensures t1 == t2
  {
    MaximalDigitsUnique(s, i, t1.whole, t2.whole);
    var j := i + |t1.whole|;
    if t1.fraction != [] && t2.fraction != [] {
      MaximalDigitsUnique(s, j + 1, t1.fraction, t2.fraction);
    }
  }

  function Multiplier(suffix: Suffix): (m: nat)
    ensures m > 0
  {
    match suffix
    case NoSuffix => 1
    case Thousand => 1000
    case Million => 1000000
  }

  /** `Number(m[1])` with the suffix applied, as an exact rational. */
  function TokenValue(t: Token): (v: real)
    requires t.Wellformed()
    ensures v >= 0.0
    ensures var m := Multiplier(t.suffix) as real;
      DigitsValue(t.whole) as real * m <= v < (DigitsValue(t.whole) + 1) as real * m
  {
    var wholePart := DigitsValue(t.whole) as real;
    var fractionPart := DigitsValue(t.fraction) as real / Pow10(|t.fraction|) as real;
    DigitsValueBelow(t.fraction);
    ProperFraction(DigitsValue(t.fraction), Pow10(|t.fraction|));
    ScaledBetween(wholePart, fractionPart, Multiplier(t.suffix) as real);
    (wholePart + fractionPart) * Multiplier(t.suffix) as real
  }

  /** `a / b` lies in [0, 1) when `a < b`. */
  lemma ProperFraction(a: nat, b: nat)
    requires a < b
    ensures 0.0 <= a as real / b as real < 1.0
  {
  }

  /** A value between `w` and `w + 1`, scaled by a positive `m`, lies between `w * m` and `(w + 1) * m`. */
  lemma ScaledBetween(w: real, f: real, m: real)
    requires 0.0 <= f < 1.0 && m > 0.0
    ensures w * m <= (w + f) * m < (w + 1.0) * m
  {
  }

  /** The text `parseAmount` examines: lower-cased, then stripped of commas. */
  function Normalised(text: string): string {
    StripCommas(ToLower(text))
  }

  /**
   * `parseAmount(text)`: the maximum order when the text mentions "max";
   * otherwise the first number rounded half-up, or none when there is no digit.
   */
  function ParseAmount(text: string): (r: Option<nat>)
    ensures Contains(ToLower(text), "max") ==> r == Some(MaxMoney)
    ensures !Contains(ToLower(text), "max") ==> (r.None? <==> !HasDigit(text))
    ensures !Contains(ToLower(text), "max") && r.Some? ==>
      && FirstToken(Normalised(text)).Some?
      && var v := TokenValue(FirstToken(Normalised(text)).value);
      && r.value as real - 0.5 <= v < r.value as real + 0.5
  {
    var s := ToLower(text);
    if Contains(s, "max") then Some(MaxMoney)
    else
      HasDigitNormalised(text);
      match FirstToken(StripCommas(s))
      case None => None
      case Some(t) => Some(Round(TokenValue(t)))
  }

  /** Lower-casing and comma stripping neither add nor remove digits. */
  lemma HasDigitNormalised(text: string)
    ensures HasDigit(Normalised(text)) <==> HasDigit(text)
  {
    var s := ToLower(text);
    if HasDigit(text) {
      var i :| 0 <= i < |text| && IsDigit(text[i]);
      assert s[i] in Normalised(text);
    }
    if HasDigit(Normalised(text)) {
      var n := Normalised(text);
      var i :| 0 <= i < |n| && IsDigit(n[i]);
      assert n[i] in s;
    }
  }

  /**
   * Declarative reading of `ParseAmount`: when the text does not mention "max"
   * and the pattern matches at the first digit `i` of the normalised text with
   * capture `t`, the amount is `t`'s value rounded half-up.
   */
  lemma ParseAmountIsLeftmostToken(text: string, i: nat, t: Token)
    requires !Contains(ToLower(text), "max")
    requires i <= |Normalised(text)|
    requires forall j :: 0 <= j < i ==> !IsDigit(Normalised(text)[j])
    requires t.Wellformed() && TokenAt(Normalised(text), i, t)
    ensures ParseAmount(text) == Some(Round(TokenValue(t)))
  {
    var n := Normalised(text);
    assert IsDigit(n[i]);
    assert HasDigit(n);
    assert FirstDigitIndex(n) == i;
    TokenAtUnique(n, i, FirstToken(n).value, t);
  }

  /** A word is not contained in a text that lacks one of its characters. */
  lemma NotContainedWithout(s: string, w: string, c: char)
    requires c in w && c !in s
    ensures !Contains(s, w)
  {
    ContainsAt(s, w);
  }

  lemma {:induction false} StripCommasNoComma(s: string)
    requires ',' !in s
    ensures StripCommas(s) == s
  {
    if s != [] {
      StripCommasNoComma(s[1..]);
    }
  }

  lemma ToLowerUnchanged(s: string)
    requires forall i :: 0 <= i < |s| ==> !('A' <= s[i] <= 'Z') && s[i] != '\U{212A}'
    ensures ToLower(s) == s
  {
  }

  /** A character lower-casing and comma removal leave alone, and not an `x`. */
  predicate PlainChar(c: char) {
    !('A' <= c <= 'Z') && c != '\U{212A}' && c != ',' && c != 'x'
  }

  /**
   * Text of plain characters that starts with a token: the amount is that
   * token's value, rounded.
   */
  lemma ParsesLeadingToken(text: string, t: Token)
    requires forall i :: 0 <= i < |text| ==> PlainChar(text[i])
    requires t.Wellformed() && TokenAt(text, 0, t)
    ensures ParseAmount(text) == Some(Round(TokenValue(t)))
  {
    ToLowerUnchanged(text);
    NotContainedWithout(text, "max", 'x');
    StripCommasNoComma(text);
    ParseAmountIsLeftmostToken(text, 0, t);
  }

  /** `parseAmount` reads its text only through the lower-cased text. */
  lemma ParseAmountOfLowered(text: string)
    ensures ParseAmount(text) == ParseAmount(ToLower(text))
  {
    ToLowerIdempotent(text);
  }

  lemma LowerOf700K()
    ensures ToLower("700K") == "700k"
  {
  }

  lemma ParsesSuffixedAmount()
    ensures ParseAmount("700K") == Some(700000)
  {
    var t := Token("700", "", Thousand);
    assert TokenAt("700k", 0, t) by {
      assert "700k"[0..3] == "700";
    }
    assert TokenValue(t) == 700000.0 by {
      assert "700"[..2] == "70" && "70"[..1] == "7" && "7"[..0] == "";
    }
    ParsesLeadingToken("700k", t);
    ParseAmountOfLowered("700K");
    LowerOf700K();
  }

  lemma ParsesOnlyFirstNumber()
    ensures ParseAmount("1m 750k") == Some(1000000)
  {
    var t := Token("1", "", Million);
    assert TokenAt("1m 750k", 0, t) by {
      assert "1m 750k"[0..1] == "1";
    }
    assert TokenValue(t) == 1000000.0 by {
      assert "1"[..0] == "";
    }
    ParsesLeadingToken("1m 750k", t);
  }

  lemma ParsesMax()
    ensures ParseAmount("max money") == Some(MaxMoney)
  {
    ToLowerUnchanged("max money");
    assert StartsWith("max money", "max");
  }

  lemma ParsesFraction()
    ensures ParseAmount("2.5k") == Some(2500)
  {
    var t := Token("2", "5", Thousand);
    assert TokenAt("2.5k", 0, t) by {
      assert "2.5k"[0..1] == "2" && "2.5k"[2..3] == "5";
    }
    assert TokenValue(t) == 2500.0 by {
      assert "2"[..0] == "" && "5"[..0] == "";
    }
    ParsesLeadingToken("2.5k", t);
  }

  lemma ParsesSmallFractionToZero()
    ensures ParseAmount("0.4") == Some(0)
  {
    var t := Token("0", "4", NoSuffix);
    assert TokenAt("0.4", 0, t) by {
      assert "0.4"[0..1] == "0" && "0.4"[2..3] == "4";
    }
    assert TokenValue(t) == 0.4 by {
      assert "0"[..0] == "" && "4"[..0] == "";
    }
    ParsesLeadingToken("0.4", t);
  }

  lemma NoDigitNoAmount()
    ensures ParseAmount("hello") == None
  {
    ToLowerUnchanged("hello");
    NotContainedWithout("hello", "max", 'x');
    assert !HasDigit("hello");
  }
}
