/** Base units printed as decimal amounts, exactly and in one way only. */
module BaseUnits {

  // ---------------------------------------------------------------- decimal numerals

  function Pow10(n: nat): (p: nat)
    ensures p > 0
  {
    if n == 0 then 1 else 10 * Pow10(n - 1)
  }

  lemma {:induction false} Pow10Plus(m: nat, n: nat)
    ensures Pow10(m + n) == Pow10(m) * Pow10(n)
    decreases m
  {
    if m > 0 {
      Pow10Plus(m - 1, n);
      assert Pow10(m + n) == 10 * Pow10(m - 1 + n);
    }
  }

  predicate IsDigit(c: char) {
    '0' <= c <= '9'
  }

  function DigitOf(n: nat): char
    requires n < 10
  {
    "0123456789"[n]
  }

  function ValueOf(c: char): nat
    requires IsDigit(c)
  {
    c as int - '0' as int
  }

  predicate Numeral(s: string) {
    forall i | 0 <= i < |s| :: IsDigit(s[i])
  }

  function ParseNat(s: string): nat
    requires Numeral(s)
  {
    if s == [] then 0 else 10 * ParseNat(s[..|s| - 1]) + ValueOf(s[|s| - 1])
  }

  lemma {:induction false} ParseConcat(a: string, b: string)
    requires Numeral(a) && Numeral(b)
    ensures Numeral(a + b) && ParseNat(a + b) == ParseNat(a) * Pow10(|b|) + ParseNat(b)
    decreases |b|
  {
    if b == [] {
      assert a + b == a;
    } else {
      var b' := b[..|b| - 1];
      ParseConcat(a, b');
      assert (a + b)[..|a + b| - 1] == a + b';
      assert ParseNat(a) * Pow10(|b|) == 10 * (ParseNat(a) * Pow10(|b'|));
    }
  }

  /** A number as `str` prints it. */
  function Digits(n: nat): (s: string)
    ensures Numeral(s) && s != [] && ParseNat(s) == n
    ensures n > 0 ==> s[0] != '0'
    ensures n == 0 ==> s == "0"
  {
    if n < 10 then [DigitOf(n)]
    else
      var s := Digits(n / 10) + [DigitOf(n % 10)];
      assert s[..|s| - 1] == Digits(n / 10);
      s
  }

  /** A number padded with zeros to a width. */
  function Padded(n: nat, width: nat): (s: string)
    requires n < Pow10(width)
    ensures Numeral(s) && |s| == width && ParseNat(s) == n
    decreases width
  {
    if width == 0 then ""
    else
      var s := Padded(n / 10, width - 1) + [DigitOf(n % 10)];
      assert s[..|s| - 1] == Padded(n / 10, width - 1);
      s
  }

  function StripZeros(s: string): (r: string)
    ensures r <= s
    ensures r == [] || r[|r| - 1] != '0'
  {
    if s == [] || s[|s| - 1] != '0' then s else StripZeros(s[..|s| - 1])
  }

  lemma {:induction false} StripKeepsValue(s: string)
    requires Numeral(s)
    ensures Numeral(StripZeros(s)) && ParseNat(s) == ParseNat(StripZeros(s)) * Pow10(|s| - |StripZeros(s)|)
    decreases |s|
  {
    if s != [] && s[|s| - 1] == '0' {
      var s' := s[..|s| - 1];
      StripKeepsValue(s');
      var k := |s'| - |StripZeros(s')|;
      assert ParseNat(s) == 10 * ParseNat(s') && StripZeros(s) == StripZeros(s');
      Tenfold(ParseNat(StripZeros(s')), Pow10(k));
      assert Pow10(k + 1) == 10 * Pow10(k);
    }
  }

  lemma Tenfold(v: int, p: nat)
    ensures 10 * (v * p) == v * (10 * p) == (v * p) * 10
  {
  }

  lemma {:induction false} StripTail(prefix: string, tail: string)
    requires StripZeros(tail) != []
    ensures StripZeros(prefix + tail) == prefix + StripZeros(tail)
    decreases |tail|
  {
    if tail[|tail| - 1] == '0' {
      assert (prefix + tail)[..|prefix + tail| - 1] == prefix + tail[..|tail| - 1];
      StripTail(prefix, tail[..|tail| - 1]);
    }
  }

  /** A positive number's numeral has a digit that is not zero. */
  lemma {:induction false} PositiveSurvives(s: string)
    requires Numeral(s) && ParseNat(s) > 0
    ensures StripZeros(s) != []
  {
    StripKeepsValue(s);
  }

  // ---------------------------------------------------------------- base units

  function DivMod(n: nat, d: nat): (r: (nat, nat))
    requires d > 0
    ensures r.0 * d + r.1 == n && r.1 < d
  {
    (n / d, n % d)
  }

  /** Quotient and remainder are the only pair that fits. */
  lemma DivModUnique(n: nat, d: nat, q: nat, r: nat)
    requires d > 0 && r < d && n == q * d + r
    ensures DivMod(n, d) == (q, r)
  {
    var (q', r') := DivMod(n, d);
    QuotientAtMost(d, q, r, q', r');
    QuotientAtMost(d, q', r', q, r);
  }

  lemma QuotientAtMost(d: nat, q: nat, r: nat, q': nat, r': nat)
    requires r < d && r' < d && q * d + r == q' * d + r'
    ensures q <= q'
  {
    if q' < q {
      MultiplesOrdered(q' + 1, q, d);
      OneMoreMultiple(q', d);
      assert false;
    }
  }

  lemma OneMoreMultiple(q: nat, d: nat)
    ensures (q + 1) * d == q * d + d
  {
  }

  lemma {:induction false} MultiplesOrdered(p: nat, q: nat, d: nat)
    requires p <= q
    ensures p * d <= q * d
    decreases q - p
  {
    if p < q {
      OneMoreMultiple(p, d);
      MultiplesOrdered(p + 1, q, d);
    }
  }

  function Abs(n: int): nat {
    if n < 0 then -n else n
  }

  function Sign(amount: int): string {
    if amount < 0 then "-" else ""
  }

  /** An amount of base units as a decimal amount of the token. */
  function Units(amount: int, decimals: nat): string {
    var (whole, fraction) := DivMod(Abs(amount), Pow10(decimals));
    if fraction == 0 then Sign(amount) + Digits(whole)
    else StripZeros(Sign(amount) + Digits(whole) + "." + Padded(fraction, decimals))
  }

  /** A signed decimal: sign, whole digits, and digits after a point if there is one. */
  datatype Decimal = Decimal(negative: bool, whole: string, fraction: string)

  predicate WellFormed(d: Decimal) {
    Numeral(d.whole) && Numeral(d.fraction) && d.whole != []
  }

  function Text(d: Decimal): string {
    var sign := if d.negative then "-" else "";
    if d.fraction == [] then sign + d.whole else sign + d.whole + "." + d.fraction
  }

  /** No decimal is written twice: no trailing zero, no leading zero, no negative zero. */
  predicate Canonical(d: Decimal) {
    && WellFormed(d)
    && (d.fraction != [] ==> d.fraction[|d.fraction| - 1] != '0')
    && (|d.whole| > 1 ==> d.whole[0] != '0')
    && (d.negative ==> ParseNat(d.whole + d.fraction) > 0)
  }

  /** The integer a decimal denotes when scaled by its own number of fraction digits. */
  function Mantissa(d: Decimal): int
    requires WellFormed(d)
  {
    (if d.negative then -1 else 1) * ParseNat(d.whole + d.fraction)
  }

  /** `d` denotes amount / 10^decimals. */
  predicate Denotes(d: Decimal, amount: int, decimals: nat) {
    WellFormed(d) && |d.fraction| <= decimals && Mantissa(d) * Pow10(decimals - |d.fraction|) == amount
  }

  function Printed(amount: int, decimals: nat): Decimal {
    var (whole, fraction) := DivMod(Abs(amount), Pow10(decimals));
    Decimal(amount < 0, Digits(whole), if fraction == 0 then "" else StripZeros(Padded(fraction, decimals)))
  }

  lemma PrintedText(amount: int, decimals: nat)
    ensures Units(amount, decimals) == Text(Printed(amount, decimals))
  {
    var (whole, fraction) := DivMod(Abs(amount), Pow10(decimals));
    if fraction != 0 {
      var padded := Padded(fraction, decimals);
      PositiveSurvives(padded);
      StripTail(Sign(amount) + Digits(whole) + ".", padded);
    }
  }

  /** The digits before and after the point, read together, are the amount less its dropped zeros. */
  lemma PrintedDigits(whole: nat, fraction: nat, decimals: nat)
    requires fraction < Pow10(decimals)
    ensures var f := StripZeros(Padded(fraction, decimals));
            && Numeral(Digits(whole) + f)
            && ParseNat(Digits(whole) + f) * Pow10(decimals - |f|) == whole * Pow10(decimals) + fraction
  {
    var padded := Padded(fraction, decimals);
    var f := StripZeros(padded);
    StripKeepsValue(padded);
    ParseConcat(Digits(whole), f);
    Pow10Plus(|f|, decimals - |f|);
    Scaled(ParseNat(Digits(whole) + f), whole, Pow10(|f|), ParseNat(f), Pow10(decimals - |f|), Pow10(decimals),
           fraction);
  }

  lemma Scaled(digits: nat, whole: nat, scale: nat, kept: nat, dropped: nat, full: nat, fraction: nat)
    requires digits == whole * scale + kept && full == scale * dropped && fraction == kept * dropped
    ensures digits * dropped == whole * full + fraction
  {
    assert (whole * scale) * dropped == whole * (scale * dropped);
  }

  lemma ZeroStripsAway(decimals: nat)
    ensures StripZeros(Padded(0, decimals)) == ""
  {
  }

  lemma PrintedDenotes(amount: int, decimals: nat)
    ensures Denotes(Printed(amount, decimals), amount, decimals)
  {
    var d := Printed(amount, decimals);
    PrintedMagnitude(amount, decimals);
    Signed(amount, ParseNat(d.whole + d.fraction), Pow10(decimals - |d.fraction|));
  }

  lemma PrintedMagnitude(amount: int, decimals: nat)
    ensures var d := Printed(amount, decimals);
            && WellFormed(d) && |d.fraction| <= decimals && Numeral(d.whole + d.fraction)
            && ParseNat(d.whole + d.fraction) * Pow10(decimals - |d.fraction|) == Abs(amount)
  {
    var (whole, fraction) := DivMod(Abs(amount), Pow10(decimals));
    PrintedDigits(whole, fraction, decimals);
    if fraction == 0 {
      ZeroStripsAway(decimals);
    }
  }

  lemma Signed(amount: int, m: nat, p: nat)
    requires m * p == Abs(amount)
    ensures ((if amount < 0 then -1 else 1) * m) * p == amount
  {
  }

  lemma PrintedCanonical(amount: int, decimals: nat)
    ensures Canonical(Printed(amount, decimals))
  {
    PrintedDenotes(amount, decimals);
    var d := Printed(amount, decimals);
    if amount < 0 {
      NonZeroFactor(Mantissa(d), Pow10(decimals - |d.fraction|), amount);
    }
  }

  lemma NonZeroFactor(m: int, p: nat, product: int)
    requires m * p == product && product != 0
    ensures m != 0
  {
  }

  /** The printed text is a canonical decimal that denotes the amount exactly, for every sign,
      amount and number of decimals. */
  lemma UnitsExact(amount: int, decimals: nat)
    ensures var d := Printed(amount, decimals);
            Units(amount, decimals) == Text(d) && Canonical(d) && Denotes(d, amount, decimals)
  {
    PrintedText(amount, decimals);
    PrintedCanonical(amount, decimals);
    PrintedDenotes(amount, decimals);
  }

  /** One text per value: the same quantity in units of another number of decimals prints the same. */
  lemma {:induction false} UnitsCanonical(amount: int, scaled: int, decimals: nat, more: nat)
    requires scaled == amount * Pow10(more)
    ensures Units(scaled, decimals + more) == Units(amount, decimals)
    decreases more
  {
    if more == 0 {
      assert scaled == amount;
    } else {
      var smaller := OneLess(amount, scaled, more);
      UnitsCanonical(amount, smaller, decimals, more - 1);
      TenfoldPrintsAlike(smaller, scaled, decimals + (more - 1));
      assert decimals + (more - 1) + 1 == decimals + more;
    }
  }

  lemma OneLess(amount: int, scaled: int, more: nat) returns (smaller: int)
    requires scaled == amount * Pow10(more) && more > 0
    ensures smaller == amount * Pow10(more - 1) && scaled == smaller * 10
  {
    smaller := amount * Pow10(more - 1);
    Tenfold(amount, Pow10(more - 1));
  }

  lemma TenfoldPrintsAlike(amount: int, tenfold: int, decimals: nat)
    requires tenfold == amount * 10
    ensures Units(tenfold, decimals + 1) == Units(amount, decimals)
  {
    var (whole, fraction) := DivMod(Abs(amount), Pow10(decimals));
    assert Abs(tenfold) == 10 * Abs(amount) && Pow10(decimals + 1) == 10 * Pow10(decimals);
    TenfoldDivides(Abs(amount), Pow10(decimals));
    if fraction != 0 {
      ZeroAppended(fraction, decimals);
      AppendedZeroStrips(Sign(amount) + Digits(whole) + ".", Padded(fraction, decimals));
    }
  }

  lemma TenfoldDivides(n: nat, p: nat)
    requires p > 0
    ensures var (q, r) := DivMod(n, p); DivMod(10 * n, 10 * p) == (q, 10 * r)
  {
    var (q, r) := DivMod(n, p);
    assert 10 * n == q * (10 * p) + 10 * r;
    DivModUnique(10 * n, 10 * p, q, 10 * r);
  }

  lemma AppendedZeroStrips(prefix: string, tail: string)
    ensures StripZeros(prefix + (tail + "0")) == StripZeros(prefix + tail)
  {
    var s := prefix + tail;
    assert prefix + (tail + "0") == s + "0";
    assert (s + "0")[..|s + "0"| - 1] == s;
  }

  lemma ZeroAppended(fraction: nat, decimals: nat)
    requires fraction < Pow10(decimals)
    ensures 10 * fraction < Pow10(decimals + 1)
            && Padded(10 * fraction, decimals + 1) == Padded(fraction, decimals) + "0"
  {
    var ten := 10 * fraction;
    TensDigits(fraction, ten);
    assert Pow10(decimals + 1) == 10 * Pow10(decimals);
    assert Padded(ten, decimals + 1) == Padded(ten / 10, decimals) + [DigitOf(ten % 10)];
  }

  lemma TensDigits(n: nat, ten: nat)
    requires ten == 10 * n
    ensures ten / 10 == n && ten % 10 == 0
  {
  }

  /** The text is a canonical decimal that denotes amount / 10^decimals. */
  ghost predicate Prints(text: string, amount: int, decimals: nat) {
    exists d :: text == Text(d) && Canonical(d) && Denotes(d, amount, decimals)
  }

  lemma UnitsPrints(amount: int, decimals: nat)
    ensures Prints(Units(amount, decimals), amount, decimals)
  {
    UnitsExact(amount, decimals);
  }
}
