/**
 * Calendar dates as `datetime.strptime(token, "%m/%d/%Y")` reads them and
 * `strftime("%m/%d/%Y")` writes them.
 */
module Dates {
  import opened Wrappers
  import opened Text

  datatype Date = Date(year: nat, month: nat, day: nat)

  predicate IsLeap(y: nat) {
    y % 4 == 0 && (y % 100 != 0 || y % 400 == 0)
  }

  function DaysInMonth(month: nat, year: nat): nat {
    if month == 2 then (if IsLeap(year) then 29 else 28)
    else if month == 4 || month == 6 || month == 9 || month == 11 then 30
    else 31
  }

  /** The dates `datetime` can represent. */
  predicate Valid(d: Date) {
    1 <= d.year <= 9999 && 1 <= d.month <= 12 && 1 <= d.day <= DaysInMonth(d.month, d.year)
  }

  /** `%m`: one or two digits naming a month 1 to 12. */
  function ParseMonth(t: string): (r: Option<nat>)
    ensures r.Some? ==> 1 <= r.value <= 12
  {
    if 1 <= |t| <= 2 && Digits(t) && 1 <= DigitsValue(t) <= 12 then Some(DigitsValue(t)) else None
  }

  /** `%d`: one or two digits naming a day 1 to 31, or a space and one digit. */
  function ParseDay(t: string): (r: Option<nat>)
    ensures r.Some? ==> 1 <= r.value <= 31
  {
    if 1 <= |t| <= 2 && Digits(t) && 1 <= DigitsValue(t) <= 31 then Some(DigitsValue(t))
    else if |t| == 2 && t[0] == ' ' && IsDigit(t[1]) && DigitValue(t[1]) >= 1 then Some(DigitValue(t[1]))
    else None
  }

  /**
   * `strptime(t, "%m/%d/%Y")`: month, day and a four-digit year separated by
   * slashes and nothing else, naming a day of the calendar; None where Python
   * raises ValueError.
   */
  function ParseDate(t: string): (r: Option<Date>)
    ensures r.Some? ==> Valid(r.value)
  {
    var parts := SplitOn(t, '/');
    if |parts| != 3 || |parts[2]| != 4 || !Digits(parts[2]) then None
    else
      match (ParseMonth(parts[0]), ParseDay(parts[1]))
      case (Some(m), Some(d)) =>
        var date := Date(DigitsValue(parts[2]), m, d);
        if Valid(date) then Some(date) else None
      case _ => None
  }

  /** `strftime("%m/%d/%Y")`: zero-padded month, day and year. */
  function RenderDate(d: Date): string {
    ZeroPad(NatToString(d.month), 2) + "/" + ZeroPad(NatToString(d.day), 2) + "/"
    + ZeroPad(NatToString(d.year), 4)
  }

  lemma PaddedField(n: nat, width: nat)
    requires width >= 1 && n < Pow10(width)
    ensures |ZeroPad(NatToString(n), width)| == width
    ensures Digits(ZeroPad(NatToString(n), width))
    ensures DigitsValue(ZeroPad(NatToString(n), width)) == n
  {
    NatToStringLength(n, width);
  }

  lemma RenderedParts(d: Date)
    requires Valid(d)
    ensures SplitOn(RenderDate(d), '/')
            == [ZeroPad(NatToString(d.month), 2), ZeroPad(NatToString(d.day), 2), ZeroPad(NatToString(d.year), 4)]
  {
    var m, dd, y := ZeroPad(NatToString(d.month), 2), ZeroPad(NatToString(d.day), 2), ZeroPad(NatToString(d.year), 4);
    assert Pow10(2) == 100 && Pow10(4) == 10000;
    PaddedField(d.month, 2);
    PaddedField(d.day, 2);
    PaddedField(d.year, 4);
    assert forall k :: 0 <= k < |m| ==> IsDigit(m[k]);
    assert '/' !in m && '/' !in dd && '/' !in y;
    JoinThree(m, dd, y, '/');
    SplitJoin([m, dd, y], '/');
  }

  /** Writing a date and reading it back gives the same date. */
  lemma DateRoundTrip(d: Date)
    requires Valid(d)
    ensures ParseDate(RenderDate(d)) == Some(d)
  {
    RenderedParts(d);
    assert Pow10(2) == 100 && Pow10(4) == 10000;
    PaddedField(d.month, 2);
    PaddedField(d.day, 2);
    PaddedField(d.year, 4);
  }

  /** A date already written with zero padding is written back unchanged. */
  lemma PaddedDateRewrites(t: string)
    requires |t| == 10 && ParseDate(t).Some?
    requires forall k :: 0 <= k < 10 && k != 2 && k != 5 ==> IsDigit(t[k])
    ensures RenderDate(ParseDate(t).value) == t
  {
    var d := ParseDate(t).value;
    var parts := SplitOn(t, '/');
    assert t[2] == '/' && t[5] == '/' by {
      assert forall k :: 0 <= k < 10 && k != 2 && k != 5 ==> t[k] != '/';
      JoinSplit(t, '/');
      assert parts == [parts[0], parts[1], parts[2]];
      JoinThree(parts[0], parts[1], parts[2], '/');
      assert |parts[2]| == 4;
      assert t == parts[0] + "/" + parts[1] + "/" + parts[2];
      assert |parts[0]| >= 1 && |parts[1]| >= 1;
    }
    assert t == t[..2] + "/" + t[3..5] + "/" + t[6..];
    assert '/' !in t[..2] && '/' !in t[3..5] && '/' !in t[6..];
    SplitJoin([t[..2], t[3..5], t[6..]], '/');
    JoinThree(t[..2], t[3..5], t[6..], '/');
    assert parts == [t[..2], t[3..5], t[6..]];
    DateRoundTrip(d);
    RenderedParts(d);
    assert Pow10(2) == 100 && Pow10(4) == 10000;
    PaddedField(d.month, 2);
    PaddedField(d.day, 2);
    PaddedField(d.year, 4);
    DigitsValueInjective(t[..2], ZeroPad(NatToString(d.month), 2));
    DigitsValueInjective(t[3..5], ZeroPad(NatToString(d.day), 2));
    DigitsValueInjective(t[6..], ZeroPad(NatToString(d.year), 4));
  }

  /** Python's ordering of dates: by year, then month, then day. */
  predicate NotAfter(a: Date, b: Date) {
    a.year < b.year
    || (a.year == b.year && (a.month < b.month || (a.month == b.month && a.day <= b.day)))
  }

  lemma NotAfterTotal(a: Date, b: Date)
    ensures NotAfter(a, b) || NotAfter(b, a)
    ensures NotAfter(a, b) && NotAfter(b, a) ==> a == b
  {
  }
}
