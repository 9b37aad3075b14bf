/**
 * Exact decimal numbers as the two converters read them: `Decimal(token)` for
 * currency and `float(token)` for share quantities, and the `%.2f` rendering
 * of currency.  Currency is kept in integer cents.
 */
module Numbers {
  import opened Wrappers
  import opened Text

  /** The value (-1)^negative * mantissa / 10^scale, exactly as the token spelled it. */
  datatype Decimal = Decimal(negative: bool, mantissa: nat, scale: nat)

  /** Signed mantissa: the value times 10^scale. */
  function Scaled(d: Decimal): int {
    if d.negative then -(d.mantissa as int) else d.mantissa as int
  }

  /** Index of the first occurrence of `c`, or |s| when there is none. */
  function IndexOf(s: string, c: char): (i: nat)
    ensures i <= |s|
    ensures i < |s| ==> s[i] == c
    ensures forall k :: 0 <= k < i ==> s[k] != c
  {
    if |s| == 0 then 0 else if s[0] == c then 0 else 1 + IndexOf(s[1..], c)
  }

  /** An unsigned decimal: digits, or digits '.' digits with at least one digit in all. */
  function ParseUnsigned(s: string): (r: Option<(nat, nat)>)
    ensures r.Some? ==> |s| > 0
  {
    var i := IndexOf(s, '.');
    if i == |s| then
      if Digits(s) then Some((DigitsValue(s), 0)) else None
    else
      var whole, frac := s[..i], s[i + 1..];
      if AllDigits(whole) && AllDigits(frac) && |whole| + |frac| > 0 then
        AllDigitsAppend(whole, frac);
        Some((DigitsValue(whole + frac), |frac|))
      else None
  }

  /**
   * A signed decimal numeral, `[+-]? (digits ('.' digits?)? | '.' digits)`:
   * the plain numerals that both `Decimal()` and `float()` accept.
   */
  function ParseDecimal(t: string): Option<Decimal> {
    if |t| > 0 && (t[0] == '+' || t[0] == '-') then
      match ParseUnsigned(t[1..])
      case None => None
      case Some((m, s)) => Some(Decimal(t[0] == '-', m, s))
    else
      match ParseUnsigned(t)
      case None => None
      case Some((m, s)) => Some(Decimal(false, m, s))
  }

  /**
   * The decimal as a whole number of cents, or None when its value is not a
   * whole number of cents: fraction digits beyond the second must be zeros.
   */
  function CentsOf(d: Decimal): Option<int>
    decreases d.scale
  {
    if d.scale <= 2 then
      var mag := if d.scale == 0 then d.mantissa * 100 else if d.scale == 1 then d.mantissa * 10 else d.mantissa;
      Some(if d.negative then -mag else mag)
    else if d.mantissa % 10 == 0 then CentsOf(Decimal(d.negative, d.mantissa / 10, d.scale - 1))
    else None
  }

  /** A cents value, when there is one, times 10^scale is the decimal's mantissa times 100. */
  lemma {:induction false} CentsOfSound(d: Decimal)
    ensures CentsOf(d).Some? ==> CentsOf(d).value * Pow10(d.scale) == Scaled(d) * 100
    decreases d.scale
  {
    var s := d.scale;
    if s <= 2 {
      assert Pow10(1) == 10 && Pow10(2) == 100;
    } else if d.mantissa % 10 == 0 {
      var d' := Decimal(d.negative, d.mantissa / 10, s - 1);
      CentsOfSound(d');
      if CentsOf(d).Some? {
        var c, p := CentsOf(d).value, Pow10(s - 1);
        assert Pow10(s) == 10 * p;
        assert c * (10 * p) == 10 * (c * p);
        assert Scaled(d) == 10 * Scaled(d');
      }
    }
  }

  /** Every whole number of cents equal to the decimal's value is found. */
  lemma {:induction false} CentsOfComplete(d: Decimal, c: int)
    requires c * Pow10(d.scale) == Scaled(d) * 100
    ensures CentsOf(d) == Some(c)
    decreases d.scale
  {
    var s := d.scale;
    if s <= 2 {
      assert Pow10(1) == 10 && Pow10(2) == 100;
    } else {
      var p := Pow10(s - 3);
      assert Pow10(s) == 1000 * p && Pow10(s - 1) == 100 * p;
      DropTen(c, p, Scaled(d));
      var d' := Decimal(d.negative, d.mantissa / 10, s - 1);
      CentsOfComplete(d', c);
    }
  }

  /** A value with three more decimal places than cents, less one. */
  lemma DropTen(c: int, p: int, v: int)
    requires c * (1000 * p) == v * 100
    ensures v == 10 * (c * p) && c * (100 * p) == (c * p) * 100
  {
    assert c * (1000 * p) == 1000 * (c * p);
  }

  /**
   * `Decimal(token)` as a whole number of cents. A numeral whose value is not
   * a whole number of cents is refused.
   */
  function ParseCents(t: string): Option<int> {
    match ParseDecimal(t)
    case None => None
    case Some(d) => CentsOf(d)
  }

  /**
   * The digits of `m`, zero-padded to more than `s` digits, with a decimal
   * point inserted `s` digits from the right: m / 10^s in fixed point.
   */
  function PointText(m: nat, s: nat): string {
    var t := ZeroPad(NatToString(m), s + 1);
    t[..|t| - s] + "." + t[|t| - s..]
  }

  /**
   * Python's `"%.2f" % amount` for an amount held in cents, written exactly;
   * Python goes through a double, which agrees below about 2^46 in magnitude.
   */
  function FormatCents(c: int): string {
    (if c < 0 then "-" else "") + PointText(if c < 0 then -c else c, 2)
  }

  lemma IndexOfFirst(s: string, c: char, j: nat)
    requires j < |s| && s[j] == c
    requires forall k :: 0 <= k < j ==> s[k] != c
    ensures IndexOf(s, c) == j
  {
  }

  /** Digits, a point and digits read back as the digits' value at the fraction's scale. */
  lemma PointedParses(whole: string, frac: string)
    requires AllDigits(whole) && AllDigits(frac) && |whole| + |frac| > 0
    ensures ParseUnsigned(whole + "." + frac) == Some((DigitsValue(whole + frac), |frac|))
  {
    var text := whole + "." + frac;
    assert forall k :: 0 <= k < |whole| ==> text[k] == whole[k];
    IndexOfFirst(text, '.', |whole|);
    assert text[..|whole|] == whole && text[|whole| + 1..] == frac;
    DigitsValueAppend(whole, frac);
  }

  /** Fixed-point text reads back as the same mantissa and scale. */
  lemma PointTextParses(m: nat, s: nat)
    ensures ParseUnsigned(PointText(m, s)) == Some((m, s))
    ensures IsDigit(PointText(m, s)[0])
  {
    var t := ZeroPad(NatToString(m), s + 1);
    var whole, frac := t[..|t| - s], t[|t| - s..];
    assert whole + frac == t;
    PointedParses(whole, frac);
  }

  /** Rendering cents with `%.2f` and reading them back with `Decimal` gives the same amount. */
  lemma CentsRoundTrip(c: int)
    ensures ParseCents(FormatCents(c)) == Some(c)
  {
    var mag := if c < 0 then -c else c;
    var body := PointText(mag, 2);
    PointTextParses(mag, 2);
    if c < 0 {
      assert FormatCents(c) == "-" + body;
      assert ("-" + body)[1..] == body;
    } else {
      assert FormatCents(c) == body;
    }
    assert Pow10(0) == 1;
  }

  /** A positive share quantity mantissa / 10^scale. */
  datatype Quantity = Quantity(mantissa: nat, scale: nat)

  /**
   * `float(token)` followed by the `> 0` test: refused when the token is not a
   * numeral or its value is not positive.
   */
  function ParseQuantity(t: string): (r: Option<Quantity>)
    ensures r.Some? <==> ParseDecimal(t).Some? && !ParseDecimal(t).value.negative
                         && ParseDecimal(t).value.mantissa > 0
    ensures r.Some? ==> r.value.mantissa == ParseDecimal(t).value.mantissa
                        && r.value.scale == ParseDecimal(t).value.scale
  {
    match ParseDecimal(t)
    case Some(d) => if !d.negative && d.mantissa > 0 then Some(Quantity(d.mantissa, d.scale)) else None
    case None => None
  }

  /** Drops trailing zero digits of the fraction, keeping the value. */
  function Normalize(m: nat, s: nat): (r: (nat, nat))
    ensures r.1 <= s
  {
    if s > 0 && m % 10 == 0 then Normalize(m / 10, s - 1) else (m, s)
  }

  lemma {:induction false} NormalizeValue(m: nat, s: nat)
    ensures Normalize(m, s).0 * Pow10(s) == m * Pow10(Normalize(m, s).1)
  {
    if s > 0 && m % 10 == 0 {
      var r := Normalize(m / 10, s - 1);
      NormalizeValue(m / 10, s - 1);
      ShiftTen(r.0, Pow10(s - 1), m / 10, Pow10(r.1));
    }
  }

  /** Scaling both sides of `x * p == y * q` by ten, once on each side's other factor. */
  lemma ShiftTen(x: int, p: int, y: int, q: int)
    requires x * p == y * q
    ensures x * (10 * p) == (10 * y) * q
  {
    calc {
      x * (10 * p);
      10 * (x * p);
      10 * (y * q);
      (10 * y) * q;
    }
  }

  /**
   * Python's `str(float(q))` for a quantity of moderate size: the shortest
   * fixed-point spelling of the value, with ".0" when it is a whole number.
   */
  function RenderQuantity(q: Quantity): string {
    var r := Normalize(q.mantissa, q.scale);
    if r.1 == 0 then NatToString(r.0) + ".0" else PointText(r.0, r.1)
  }

  /** The rendered quantity reads back as a numeral of the same value. */
  lemma QuantityRoundTrip(q: Quantity)
    ensures ParseDecimal(RenderQuantity(q)).Some?
    ensures var d := ParseDecimal(RenderQuantity(q)).value;
            !d.negative && d.mantissa * Pow10(q.scale) == q.mantissa * Pow10(d.scale)
  {
    var r := Normalize(q.mantissa, q.scale);
    NormalizeValue(q.mantissa, q.scale);
    if r.1 == 0 {
      WholeQuantityParses(r.0);
      TimesTen(r.0, Pow10(q.scale), q.mantissa);
    } else {
      PointTextParses(r.0, r.1);
      UnsignedIsDecimal(PointText(r.0, r.1));
    }
  }

  lemma UnsignedIsDecimal(t: string)
    requires |t| > 0 && IsDigit(t[0]) && ParseUnsigned(t).Some?
    ensures ParseDecimal(t) == Some(Decimal(false, ParseUnsigned(t).value.0, ParseUnsigned(t).value.1))
  {
  }

  /** A whole quantity renders as its digits and ".0", which reads back as ten tenths per unit. */
  lemma WholeQuantityParses(m: nat)
    ensures ParseDecimal(NatToString(m) + ".0") == Some(Decimal(false, m * 10, 1))
  {
    var w := NatToString(m);
    assert w + ".0" == w + "." + "0";
    PointedParses(w, "0");
    DigitsValueAppend(w, "0");
    UnsignedIsDecimal(w + ".0");
  }

  lemma TimesTen(a: nat, p: nat, m: nat)
    requires a * p == m * 1
    ensures (a * 10) * p == m * Pow10(1)
  {
  }
}
