/**
 Decimal strings and raw integer strings. The functions slice and pad text; what they
 mean is said with the numbers the digits stand for.
*/
module DecimalUnits {
  import opened Text
  import opened Wrappers

  const MAX_DECIMALS := 36

  predicate IsDigit(c: char) {
    '0' <= c <= '9'
  }

  predicate Digits(s: string) {
    forall i :: 0 <= i < |s| ==> IsDigit(s[i])
  }

  function Zeros(n: nat): (r: string)
    ensures |r| == n && forall i :: 0 <= i < n ==> r[i] == '0'
  {
    if n == 0 then "" else Zeros(n - 1) + "0"
  }

  function PadEnd(s: string, n: nat): string {
    if |s| >= n then s else s + Zeros(n - |s|)
  }

  function PadStart(s: string, n: nat): string {
    if |s| >= n then s else Zeros(n - |s|) + s
  }

  /** Drops leading zeros that another digit follows. */
  function StripLeading(s: string): string {
    if |s| > 1 && s[0] == '0' then StripLeading(s[1..]) else s
  }

  function StripTrailing(s: string): string {
    if s != "" && s[|s| - 1] == '0' then StripTrailing(s[..|s| - 1]) else s
  }

  function DotAt(s: string): (i: nat)
    ensures i <= |s| && '.' !in s[..i] && (i < |s| ==> s[i] == '.')
  {
    if s == "" || s[0] == '.' then 0
    else
      var i := 1 + DotAt(s[1..]);
      assert s[..i] == [s[0]] + s[1..][..i - 1];
      i
  }

  function Whole(s: string): string {
    s[..DotAt(s)]
  }

  function Fraction(s: string): string {
    if DotAt(s) < |s| then s[DotAt(s) + 1..] else ""
  }

  /** Digits, perhaps a dot and more digits. */
  predicate WellFormed(s: string) {
    && Whole(s) != "" && Digits(Whole(s)) && Digits(Fraction(s))
    && (DotAt(s) < |s| ==> Fraction(s) != "")
  }

  datatype Error = InvalidDecimals | InvalidAmount | PrecisionExceeded | InvalidRaw

  predicate ValidDecimals(decimals: int) {
    0 <= decimals <= MAX_DECIMALS
  }

  predicate SomeNonZero(s: string) {
    exists i :: 0 <= i < |s| && s[i] != '0'
  }

  function Min(a: int, b: int): int {
    if a < b then a else b
  }

  function Max(a: int, b: int): int {
    if a < b then b else a
  }

  function DecimalToRaw(value: string, decimals: int): Result<string, Error> {
    if !ValidDecimals(decimals) then Failure(InvalidDecimals)
    else
      var text := Trim(value);
      if !WellFormed(text) then Failure(InvalidAmount)
      else
        var fraction := Fraction(text);
        if |fraction| > decimals && SomeNonZero(fraction[decimals..]) then Failure(PrecisionExceeded)
        else Success(StripLeading(Whole(text) + PadEnd(fraction[..Min(decimals, |fraction|)], decimals)))
  }

  function Joined(whole: string, fraction: string): string {
    if fraction == "" then whole else whole + "." + fraction
  }

  function RawToDecimal(value: string, decimals: int, maxFraction: int): Result<string, Error> {
    if !ValidDecimals(decimals) then Failure(InvalidDecimals)
    else
      var raw := Trim(value);
      if raw == "" || !Digits(raw) then Failure(InvalidRaw)
      else if decimals == 0 then Success(StripLeading(raw))
      else
        var padded := PadStart(raw, decimals + 1);
        var cut := |padded| - decimals;
        var fraction := padded[cut..][..Min(decimals, Max(0, maxFraction))];
        Success(Joined(StripLeading(padded[..cut]), StripTrailing(fraction)))
  }

  // ----- the numbers behind the digits -----

  function Digit(c: char): nat
    requires IsDigit(c)
  {
    (c - '0') as nat
  }

  function Val(s: string): nat
    requires Digits(s)
  {
    if s == "" then 0 else 10 * Val(s[..|s| - 1]) + Digit(s[|s| - 1])
  }

  function Pow10(n: nat): (r: nat)
    ensures r >= 1
  {
    if n == 0 then 1 else 10 * Pow10(n - 1)
  }

  lemma {:induction false} PowAdds(a: nat, b: nat)
    ensures Pow10(a + b) == Pow10(a) * Pow10(b)
  {
    if b > 0 {
      PowAdds(a, b - 1);
      assert Pow10(a) * (10 * Pow10(b - 1)) == 10 * (Pow10(a) * Pow10(b - 1));
    }
  }

  lemma MulShift(x: nat, p: nat)
    ensures 10 * (x * p) == x * (10 * p)
  {
  }

  lemma {:induction false} ValAppends(a: string, b: string)
    requires Digits(a) && Digits(b)
    ensures Digits(a + b) && Val(a + b) == Val(a) * Pow10(|b|) + Val(b)
    decreases |b|
  {
    if b == "" {
      assert a + b == a;
    } else {
      var front := b[..|b| - 1];
      ValAppends(a, front);
      assert (a + b)[..|a + b| - 1] == a + front;
      assert (a + b)[|a + b| - 1] == b[|b| - 1];
      MulShift(Val(a), Pow10(|front|));
    }
  }

  lemma {:induction false} ValIsSmall(s: string)
    requires Digits(s)
    ensures Val(s) < Pow10(|s|)
  {
    if s != "" { ValIsSmall(s[..|s| - 1]); }
  }

  lemma {:induction false} ValOfZeros(s: string)
    requires Digits(s)
    ensures Val(s) == 0 <==> !SomeNonZero(s)
  {
    if s != "" {
      var front := s[..|s| - 1];
      ValOfZeros(front);
      if SomeNonZero(front) {
        var i :| 0 <= i < |front| && front[i] != '0';
        assert s[i] != '0';
      }
    }
  }

  lemma {:induction false} StripLeadingKeeps(s: string)
    requires Digits(s)
    ensures Digits(StripLeading(s)) && Val(StripLeading(s)) == Val(s)
    ensures s != "" ==> Canonical(StripLeading(s))
  {
    if |s| > 1 && s[0] == '0' {
      StripLeadingKeeps(s[1..]);
      ValAppends(s[..1], s[1..]);
      assert s == s[..1] + s[1..];
      assert Val(s[..1]) == 0;
    }
  }

  /** A raw amount as the program writes it: digits without a redundant leading zero. */
  predicate Canonical(s: string) {
    s != "" && Digits(s) && (|s| > 1 ==> s[0] != '0')
  }

  lemma {:induction false} SameLengthSameDigits(a: string, b: string)
    requires Digits(a) && Digits(b) && |a| == |b| && Val(a) == Val(b)
    ensures a == b
  {
    if a != "" {
      var n := |a| - 1;
      SameLengthSameDigits(a[..n], b[..n]);
      assert a == a[..n] + [a[n]] && b == b[..n] + [b[n]];
    }
  }

  lemma CanonicalIsLarge(s: string)
    requires Canonical(s) && |s| > 1
    ensures Val(s) >= Pow10(|s| - 1)
  {
    var first, rest := s[..1], s[1..];
    ValAppends(first, rest);
    assert s == first + rest;
    assert first[..0] == "" && Val(first) == Digit(s[0]) >= 1;
    AtLeastOnce(Val(first), Pow10(|s| - 1));
  }

  lemma AtLeastOnce(x: nat, p: nat)
    requires x >= 1
    ensures x * p >= p
  {
  }

  lemma {:induction false} PowGrows(a: nat, b: nat)
    requires a <= b
    ensures Pow10(a) <= Pow10(b)
  {
    if a < b { PowGrows(a, b - 1); }
  }

  lemma LongerIsLarger(a: string, b: string)
    requires Canonical(a) && Canonical(b) && |a| < |b|
    ensures Val(a) < Val(b)
  {
    ValIsSmall(a);
    CanonicalIsLarge(b);
    PowGrows(|a|, |b| - 1);
  }

  /** One number has one canonical form. */
  lemma CanonicalIsUnique(a: string, b: string)
    requires Canonical(a) && Canonical(b) && Val(a) == Val(b)
    ensures a == b
  {
    if |a| < |b| {
      LongerIsLarger(a, b);
    } else if |b| < |a| {
      LongerIsLarger(b, a);
    } else {
      SameLengthSameDigits(a, b);
    }
  }

  // ----- from decimals to raw units -----

  /** So many raw units are worth exactly this decimal text, at `p` decimals. */
  predicate Worth(units: nat, text: string, p: nat)
    requires WellFormed(text)
  {
    Val(Whole(text) + Fraction(text)) * Pow10(p) == units * Pow10(|Fraction(text)|)
  }

  lemma ZerosAreDigits(n: nat)
    ensures Digits(Zeros(n)) && Val(Zeros(n)) == 0
  {
    ValOfZeros(Zeros(n));
  }

  lemma PaddedValue(whole: string, fraction: string, p: nat)
    requires Digits(whole) && Digits(fraction) && |fraction| <= p
    ensures Digits(whole + PadEnd(fraction, p))
    ensures Val(whole + PadEnd(fraction, p)) == Val(whole + fraction) * Pow10(p - |fraction|)
  {
    var zeros := Zeros(p - |fraction|);
    ZerosAreDigits(p - |fraction|);
    ValAppends(whole + fraction, zeros);
    assert PadEnd(fraction, p) == fraction + zeros;
    assert whole + PadEnd(fraction, p) == whole + fraction + zeros;
  }

  lemma MulAssoc(a: nat, b: nat, c: nat)
    ensures a * b * c == a * (b * c)
  {
  }

  /** Padding a short fraction is multiplying by the power of ten. */
  lemma ShortFractionWorth(text: string, p: nat)
    requires WellFormed(text) && |Fraction(text)| <= p
    ensures Digits(Whole(text) + PadEnd(Fraction(text), p))
    ensures Worth(Val(Whole(text) + PadEnd(Fraction(text), p)), text, p)
  {
    var w, f := Whole(text), Fraction(text);
    PaddedValue(w, f, p);
    PowAdds(p - |f|, |f|);
    MulAssoc(Val(w + f), Pow10(p - |f|), Pow10(|f|));
  }

  lemma CancelRight(a: nat, b: nat, c: nat)
    requires c > 0
    ensures a * c == b * c <==> a == b
  {
  }

  lemma StepAbove(a: nat, b: nat, step: nat)
    requires a > b
    ensures a * step >= b * step + step
  {
    var d := a - b - 1;
    assert a * step == (b + 1 + d) * step == b * step + step + d * step;
    assert d * step >= 0;
  }

  /** Whole steps and a rest below one step are determined by their sum. */
  lemma SameParts(a: nat, x: nat, b: nat, y: nat, step: nat)
    requires a * step + x == b * step + y && x < step && y < step
    ensures a == b && x == y
  {
    if a > b {
      StepAbove(a, b, step);
    } else if b > a {
      StepAbove(b, a, step);
    }
  }

  /** A long fraction is worth whole units exactly when its excess digits are zeros. */
  lemma LongFractionWorth(text: string, p: nat, units: nat)
    requires WellFormed(text) && |Fraction(text)| > p
    ensures var f := Fraction(text);
            && Digits(Whole(text) + f[..p])
            && (Worth(units, text, p) <==> !SomeNonZero(f[p..]) && units == Val(Whole(text) + f[..p]))
  {
    var w, f := Whole(text), Fraction(text);
    var g, h := f[..p], f[p..];
    assert w + f == (w + g) + h;
    ValAppends(w + g, h);
    ValIsSmall(h);
    ValOfZeros(h);
    PowAdds(|h|, p);
    MulAssoc(units, Pow10(|h|), Pow10(p));
    CancelRight(Val(w + f), units * Pow10(|h|), Pow10(p));
    if units * Pow10(|h|) == Val(w + f) { SameParts(units, 0, Val(w + g), Val(h), Pow10(|h|)); }
  }

  /**
   A well-formed amount is accepted exactly when it is worth a whole number of raw units;
   the answer is that number, in canonical form, and a refusal blames the precision.
  */
  lemma DecimalToRawIsExact(value: string, p: nat)
    requires ValidDecimals(p) && WellFormed(Trim(value))
    ensures var r := DecimalToRaw(value, p);
            && (r.Success? ==> Canonical(r.value) && Worth(Val(r.value), Trim(value), p))
            && (r.Failure? ==> r.error == PrecisionExceeded && forall units: nat :: !Worth(units, Trim(value), p))
  {
    var text := Trim(value);
    var w, f := Whole(text), Fraction(text);
    if |f| <= p {
      ShortFractionWorth(text, p);
      assert f[..|f|] == f;
      StripLeadingKeeps(w + PadEnd(f, p));
    } else if SomeNonZero(f[p..]) {
      forall units: nat ensures !Worth(units, text, p) { LongFractionWorth(text, p, units); }
    } else {
      LongFractionWorth(text, p, Val(w + f[..p]));
      assert PadEnd(f[..p], p) == f[..p];
      StripLeadingKeeps(w + f[..p]);
    }
  }

  /** Digits, or digits on both sides of one dot. */
  predicate IsDecimalText(t: string) {
    || (t != "" && Digits(t))
    || exists i :: 0 < i < |t| - 1 && t[i] == '.' && Digits(t[..i]) && Digits(t[i + 1..])
  }

  lemma {:induction false} FirstDot(t: string, i: nat)
    requires i <= |t| && Digits(t[..i]) && (i < |t| ==> t[i] == '.')
    ensures DotAt(t) == i
  {
    if i > 0 {
      assert t[..i][0] == t[0] && t[1..][..i - 1] == t[..i][1..];
      FirstDot(t[1..], i - 1);
    }
  }

  lemma WellFormedExactly(t: string)
    ensures WellFormed(t) <==> IsDecimalText(t)
  {
    var d := DotAt(t);
    if t != "" && Digits(t) {
      assert t[..|t|] == t;
      FirstDot(t, |t|);
    }
    if i :| 0 < i < |t| - 1 && t[i] == '.' && Digits(t[..i]) && Digits(t[i + 1..]) { FirstDot(t, i); }
    if WellFormed(t) && d == |t| { assert t[..|t|] == t; }
  }

  /** Which inputs the two conversions refuse, and as what. */
  lemma RefusedExactly(value: string, decimals: int, maxFraction: int)
    ensures DecimalToRaw(value, decimals) == Failure(InvalidDecimals) <==> !(0 <= decimals <= 36)
    ensures DecimalToRaw(value, decimals) == Failure(InvalidAmount) <==> 0 <= decimals <= 36 && !IsDecimalText(Trim(value))
    ensures RawToDecimal(value, decimals, maxFraction) == Failure(InvalidDecimals) <==> !(0 <= decimals <= 36)
    ensures RawToDecimal(value, decimals, maxFraction) == Failure(InvalidRaw)
            <==> 0 <= decimals <= 36 && (Trim(value) == "" || exists i :: 0 <= i < |Trim(value)| && !IsDigit(Trim(value)[i]))
  {
    WellFormedExactly(Trim(value));
    hide WellFormed, IsDecimalText, Trim, StripLeading, StripTrailing, PadEnd, PadStart, SomeNonZero;
  }

  // ----- from raw units to decimals -----

  /** The raw units of a decimal with a fraction no longer than the precision. */
  function Units(whole: string, fraction: string, p: nat): nat
    requires Digits(whole) && Digits(fraction) && |fraction| <= p
  {
    Val(whole + fraction) * Pow10(p - |fraction|)
  }

  predicate NoTrailingZero(s: string) {
    s == "" || s[|s| - 1] != '0'
  }

  lemma {:induction false} StripTrailingKeeps(s: string)
    requires Digits(s)
    ensures Digits(StripTrailing(s)) && |StripTrailing(s)| <= |s| && NoTrailingZero(StripTrailing(s))
    ensures Val(s) == Val(StripTrailing(s)) * Pow10(|s| - |StripTrailing(s)|)
  {
    if s != "" && s[|s| - 1] == '0' {
      var front := s[..|s| - 1];
      StripTrailingKeeps(front);
      MulShift(Val(StripTrailing(front)), Pow10(|front| - |StripTrailing(front)|));
    }
  }

  lemma {:induction false} StripLeadingEnds(s: string)
    requires Digits(s)
    ensures s != "" ==> StripLeading(s) != ""
    ensures '.' !in StripLeading(s)
  {
    if |s| > 1 && s[0] == '0' { StripLeadingEnds(s[1..]); }
  }

  lemma DotIsFirst(s: string, at: nat)
    requires at < |s| && s[at] == '.' && forall i :: 0 <= i < at ==> s[i] != '.'
    ensures DotAt(s) == at
  {
    forall i | 0 <= i < DotAt(s) ensures s[i] != '.' { assert s[..DotAt(s)][i] == s[i]; }
  }

  /** Joining is undone by splitting at the dot. */
  lemma JoinedSplits(whole: string, fraction: string)
    requires Digits(whole) && Digits(fraction)
    ensures Whole(Joined(whole, fraction)) == whole && Fraction(Joined(whole, fraction)) == fraction
  {
    var text := Joined(whole, fraction);
    if fraction == "" {
      assert DotAt(text) == |text|;
    } else {
      forall i | 0 <= i < |whole| ensures text[i] != '.' { assert text[i] == whole[i]; }
      DotIsFirst(text, |whole|);
    }
  }

  /** Units split into those of the whole part and those of the fraction. */
  lemma UnitsSplit(whole: string, fraction: string, p: nat)
    requires Digits(whole) && Digits(fraction) && |fraction| <= p
    ensures Units(whole, fraction, p) == Val(whole) * Pow10(p) + Val(fraction) * Pow10(p - |fraction|)
  {
    var rest := p - |fraction|;
    ValAppends(whole, fraction);
    PowAdds(|fraction|, rest);
    MulAssoc(Val(whole), Pow10(|fraction|), Pow10(rest));
    Distributes(Val(whole) * Pow10(|fraction|), Val(fraction), Pow10(rest));
  }

  lemma Distributes(a: nat, b: nat, c: nat)
    ensures (a + b) * c == a * c + b * c
  {
  }

  /** The decimal text keeps the units up to the cut-off digits and is in canonical form. */
  ghost predicate Truncates(text: string, raw: nat, p: nat, k: nat)
    requires k <= p
  {
    && CanonicalDecimal(text) && |Fraction(text)| <= k
    && Units(Whole(text), Fraction(text), p) <= raw < Units(Whole(text), Fraction(text), p) + Pow10(p - k)
  }

  /** No redundant zero in front or behind. */
  predicate CanonicalDecimal(text: string) {
    WellFormed(text) && Canonical(Whole(text)) && NoTrailingZero(Fraction(text))
  }

  lemma JoinedIsCanonical(whole: string, fraction: string)
    requires Canonical(whole) && Digits(fraction) && NoTrailingZero(fraction)
    ensures CanonicalDecimal(Joined(whole, fraction))
    ensures Whole(Joined(whole, fraction)) == whole && Fraction(Joined(whole, fraction)) == fraction
  {
    JoinedSplits(whole, fraction);
  }

  /** Cutting the fraction at `k` digits loses less than one step of the last kept digit. */
  lemma CutLosesLittle(whole: string, fraction: string, k: nat)
    requires Digits(whole) && Digits(fraction) && k <= |fraction| && whole != ""
    ensures var kept := StripTrailing(fraction[..k]);
            && Digits(kept) && |kept| <= k && NoTrailingZero(kept)
            && Units(whole, kept, |fraction|) <= Val(whole + fraction)
            && Val(whole + fraction) < Units(whole, kept, |fraction|) + Pow10(|fraction| - k)
  {
    hide Val, Pow10, Units, StripTrailing, NoTrailingZero;
    var p := |fraction|;
    var front, rest := fraction[..k], fraction[k..];
    var kept := StripTrailing(front);
    StripTrailingKeeps(front);
    KeptUnits(Val(front), Val(kept), k - |kept|, p - k);
    ValAppends(whole, fraction);
    ValAppends(front, rest);
    assert fraction == front + rest;
    ValIsSmall(rest);
    UnitsSplit(whole, kept, p);
  }

  lemma KeptUnits(front: nat, kept: nat, zeros: nat, cut: nat)
    requires front == kept * Pow10(zeros)
    ensures front * Pow10(cut) == kept * Pow10(zeros + cut)
  {
    PowAdds(zeros, cut);
    MulAssoc(kept, Pow10(zeros), Pow10(cut));
  }

  lemma PadStartKeeps(raw: string, n: nat)
    requires Digits(raw)
    ensures Digits(PadStart(raw, n)) && |PadStart(raw, n)| >= n && Val(PadStart(raw, n)) == Val(raw)
  {
    if |raw| < n {
      ZerosAreDigits(n - |raw|);
      ValAppends(Zeros(n - |raw|), raw);
    }
  }

  lemma NothingCut(whole: string)
    requires Canonical(whole)
    ensures Joined(whole, "") == whole && Truncates(whole, Val(whole), 0, 0)
  {
    JoinedIsCanonical(whole, "");
    assert whole + "" == whole;
  }

  /** Truncation: at most `k` fraction digits, and an error below one unit of the last one. */
  lemma RawToDecimalTruncates(value: string, p: nat, maxFraction: int)
    requires ValidDecimals(p) && Trim(value) != "" && Digits(Trim(value))
    ensures RawToDecimal(value, p, maxFraction).Success?
    ensures Truncates(RawToDecimal(value, p, maxFraction).value, Val(Trim(value)), p, Min(p, Max(0, maxFraction)))
  {
    hide Val, Pow10, Units, StripTrailing, NoTrailingZero, StripLeading, Trim, PadStart, Canonical, CanonicalDecimal;
    var raw := Trim(value);
    var k := Min(p, Max(0, maxFraction));
    if p == 0 {
      StripLeadingKeeps(raw);
      NothingCut(StripLeading(raw));
    } else {
      PadStartKeeps(raw, p + 1);
      var padded := PadStart(raw, p + 1);
      var cut := |padded| - p;
      var whole, fraction := padded[..cut], padded[cut..];
      assert padded == whole + fraction;
      CutLosesLittle(whole, fraction, k);
      var kept := StripTrailing(fraction[..k]);
      StripLeadingKeeps(whole);
      UnitsSplit(whole, kept, p);
      UnitsSplit(StripLeading(whole), kept, p);
      JoinedIsCanonical(StripLeading(whole), kept);
    }
  }

  // ----- round trips -----

  lemma DigitsAreTrimmed(s: string)
    requires Digits(s)
    ensures Trim(s) == s
  {
    TrimIsTrimmed(s);
  }

  lemma JoinedIsWhole(text: string)
    requires WellFormed(text)
    ensures Joined(Whole(text), Fraction(text)) == text
  {
  }

  lemma WellFormedIsTrimmed(text: string)
    requires WellFormed(text)
    ensures Trim(text) == text
  {
    JoinedIsWhole(text);
    assert !IsSpace('.');
    assert text[0] == Whole(text)[0];
    if Fraction(text) != "" { assert text[|text| - 1] == Fraction(text)[|Fraction(text)| - 1]; }
    TrimIsTrimmed(text);
  }

  /** Worth and units agree for fractions within the precision. */
  lemma WorthIsUnits(text: string, p: nat, units: nat)
    requires WellFormed(text) && |Fraction(text)| <= p
    ensures Worth(units, text, p) <==> units == Units(Whole(text), Fraction(text), p)
  {
    var w, f := Whole(text), Fraction(text);
    PowAdds(p - |f|, |f|);
    MulAssoc(Val(w + f), Pow10(p - |f|), Pow10(|f|));
    CancelRight(units, Units(w, f, p), Pow10(|f|));
  }

  /** Raw to decimal and back is the identity on canonical raw amounts. */
  lemma RawRoundTrip(raw: string, p: nat)
    requires ValidDecimals(p) && Canonical(raw)
    ensures RawToDecimal(raw, p, p).Success?
    ensures DecimalToRaw(RawToDecimal(raw, p, p).value, p) == Success(raw)
  {
    DigitsAreTrimmed(raw);
    RawToDecimalTruncates(raw, p, p);
    var text := RawToDecimal(raw, p, p).value;
    WellFormedIsTrimmed(text);
    DecimalToRawIsExact(text, p);
    WorthIsUnits(text, p, Val(raw));
    var back := DecimalToRaw(text, p);
    assert Worth(Val(raw), text, p);
    WorthIsUnits(text, p, Val(back.value));
    CanonicalIsUnique(back.value, raw);
  }

  /** The same units have one canonical decimal text. */
  lemma CanonicalDecimalIsUnique(a: string, b: string, p: nat)
    requires CanonicalDecimal(a) && CanonicalDecimal(b) && |Fraction(a)| <= p && |Fraction(b)| <= p
    requires Units(Whole(a), Fraction(a), p) == Units(Whole(b), Fraction(b), p)
    ensures a == b
  {
    var fa, fb := PadEnd(Fraction(a), p), PadEnd(Fraction(b), p);
    PaddedUnits(a, p);
    PaddedUnits(b, p);
    ValIsSmall(fa);
    ValIsSmall(fb);
    SameParts(Val(Whole(a)), Val(fa), Val(Whole(b)), Val(fb), Pow10(p));
    CanonicalIsUnique(Whole(a), Whole(b));
    SameLengthSameDigits(fa, fb);
    PaddingHidesNothing(Fraction(a), Fraction(b), p);
    JoinedIsWhole(a);
    JoinedIsWhole(b);
  }

  lemma PaddedUnits(text: string, p: nat)
    requires WellFormed(text) && |Fraction(text)| <= p
    ensures var f := PadEnd(Fraction(text), p);
            && Digits(f) && |f| == p && Units(Whole(text), Fraction(text), p) == Val(Whole(text)) * Pow10(p) + Val(f)
  {
    hide Val, Pow10;
    PaddedValue(Whole(text), Fraction(text), p);
    var f := PadEnd(Fraction(text), p);
    ZerosAreDigits(p - |Fraction(text)|);
    ValAppends(Whole(text), f);
  }

  lemma PaddedAt(s: string, p: nat)
    requires |s| <= p
    ensures |PadEnd(s, p)| == p
    ensures forall i :: 0 <= i < p ==> PadEnd(s, p)[i] == if i < |s| then s[i] else '0'
  {
  }

  lemma PaddingHidesNothing(a: string, b: string, p: nat)
    requires NoTrailingZero(a) && NoTrailingZero(b) && |a| <= p && |b| <= p && PadEnd(a, p) == PadEnd(b, p)
    ensures a == b
  {
    PaddedAt(a, p);
    PaddedAt(b, p);
    assert |a| > 0 ==> PadEnd(a, p)[|a| - 1] == a[|a| - 1];
    assert |b| > 0 ==> PadEnd(b, p)[|b| - 1] == b[|b| - 1];
    assert a == PadEnd(a, p)[..|a|] && b == PadEnd(b, p)[..|b|];
  }

  /** Decimal to raw and back is the identity on canonical decimals within the precision. */
  lemma DecimalRoundTrip(text: string, p: nat)
    requires ValidDecimals(p) && CanonicalDecimal(text) && |Fraction(text)| <= p
    ensures DecimalToRaw(text, p).Success?
    ensures RawToDecimal(DecimalToRaw(text, p).value, p, p) == Success(text)
  {
    WellFormedIsTrimmed(text);
    DecimalToRawIsExact(text, p);
    WorthIsUnits(text, p, Units(Whole(text), Fraction(text), p));
    var raw := DecimalToRaw(text, p).value;
    WorthIsUnits(text, p, Val(raw));
    DigitsAreTrimmed(raw);
    RawToDecimalTruncates(raw, p, p);
    CanonicalDecimalIsUnique(RawToDecimal(raw, p, p).value, text, p);
  }
}
