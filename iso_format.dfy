/** The ISO 8601 rendering of an instant produced by `Date.prototype.toISOString`
    (`YYYY-MM-DDTHH:mm:ss.sssZ`, with a signed six-digit year outside 0..9999),
    and the calendar-date part `YYYY-MM-DD` that `split('T')[0]` cuts from it. */
module IsoFormat {
  import opened Wrappers
  import opened Calendar

  function Pow10(w: nat): (p: nat)
    ensures p >= 1
  {
    if w == 0 then 1 else 10 * Pow10(w - 1)
  }

  predicate IsDigit(c: char) {
    '0' <= c <= '9'
  }

  predicate AllDigits(s: string) {
    forall i :: 0 <= i < |s| ==> IsDigit(s[i])
  }

  function DigitChar(k: int): (c: char)
    requires 0 <= k < 10
    ensures IsDigit(c)
  {
    (48 + k) as char
  }

  /** The last `w` decimal digits of `n`, padded on the left with zeros. */
  function Digits(n: nat, w: nat): (s: string)
    ensures |s| == w && AllDigits(s)
  {
    if w == 0 then [] else Digits(n / 10, w - 1) + [DigitChar(n % 10)]
  }

  /** The number a string of decimal digits denotes. */
  function DigitsValue(s: string): (n: nat)
    requires AllDigits(s)
  {
    if s == [] then 0 else DigitsValue(s[..|s| - 1]) * 10 + (s[|s| - 1] as int - 48)
  }

  lemma {:induction false} DigitsRoundTrip(n: nat, w: nat)
    requires n < Pow10(w)
    ensures DigitsValue(Digits(n, w)) == n
  {
    if w > 0 {
      assert n / 10 < Pow10(w - 1);
      DigitsRoundTrip(n / 10, w - 1);
      var s := Digits(n, w);
      assert s[..|s| - 1] == Digits(n / 10, w - 1);
    }
  }

  /** The year field: four digits for years 0 to 9999, otherwise a sign and six digits. */
  function IsoYear(y: int): (s: string)
    requires -1000000 < y < 1000000
    ensures 0 <= y <= 9999 ==> |s| == 4 && AllDigits(s)
    ensures !(0 <= y <= 9999) ==> |s| == 7 && s[0] == (if y < 0 then '-' else '+') && AllDigits(s[1..])
  {
    if 0 <= y <= 9999 then Digits(y, 4)
    else (if y < 0 then "-" else "+") + Digits(if y < 0 then -y else y, 6)
  }

  /** The characters a calendar-date rendering is made of. */
  predicate DateChars(s: string) {
    forall i :: 0 <= i < |s| ==> IsDigit(s[i]) || s[i] == '-' || s[i] == '+'
  }

  /** `YYYY-MM-DD`: the calendar date in the form `toISOString` writes it. */
  function IsoDate(d: Date): (s: string)
    requires Valid(d) && InTimeRange(d)
    ensures DateChars(s) && 'T' !in s
    ensures 0 <= d.year <= 9999 ==> |s| == 10
  {
    var s := IsoYear(d.year) + "-" + Digits(d.month, 2) + "-" + Digits(d.day, 2);
    assert forall i :: 0 <= i < |s| ==> s[i] != 'T' by {
      forall i | 0 <= i < |s| ensures IsDigit(s[i]) || s[i] == '-' || s[i] == '+' {
        var y := IsoYear(d.year);
        if i >= |y| {
        } else if !(0 <= d.year <= 9999) && i > 0 {
          assert s[i] == y[1..][i - 1];
        }
      }
    }
    s
  }

  function ParseYear(s: string): (r: Option<int>)
  {
    if |s| == 4 && AllDigits(s) then Some(DigitsValue(s))
    else if |s| == 7 && (s[0] == '+' || s[0] == '-') && AllDigits(s[1..]) then
      Some(if s[0] == '-' then -(DigitsValue(s[1..]) as int) else DigitsValue(s[1..]))
    else None
  }

  /** Reads back a `YYYY-MM-DD` (or `±YYYYYY-MM-DD`) calendar date. */
  function ParseIsoDate(s: string): (r: Option<Date>)
    ensures r.Some? ==> Valid(r.value)
  {
    if |s| < 10 then None
    else
      var rest := s[|s| - 6..];
      if rest[0] == '-' && rest[3] == '-' && AllDigits(rest[1..3]) && AllDigits(rest[4..6]) then
        match ParseYear(s[..|s| - 6])
        case None => None
        case Some(y) =>
          var d := Date(y, DigitsValue(rest[1..3]), DigitsValue(rest[4..6]));
          if Valid(d) then Some(d) else None
      else None
  }

  /** Every date a `Date` object can hold is rendered without loss. */
  lemma IsoDateRoundTrip(d: Date)
    requires Valid(d) && InTimeRange(d)
    ensures ParseIsoDate(IsoDate(d)) == Some(d)
  {
    var y := IsoYear(d.year);
    var m := Digits(d.month, 2);
    var dd := Digits(d.day, 2);
    var s := IsoDate(d);
    assert s == y + "-" + m + "-" + dd;
    assert s[..|s| - 6] == y;
    var rest := s[|s| - 6..];
    assert rest == "-" + m + "-" + dd;
    assert rest[1..3] == m && rest[4..6] == dd;
    assert Pow10(2) == 100;
    DigitsRoundTrip(d.month, 2);
    DigitsRoundTrip(d.day, 2);
    if 0 <= d.year <= 9999 {
      assert Pow10(4) == 10000;
      DigitsRoundTrip(d.year, 4);
    } else {
      assert Pow10(6) == 1000000 by {
        assert Pow10(4) == 10000;
      }
      DigitsRoundTrip(if d.year < 0 then -d.year else d.year, 6);
      assert y[1..] == Digits(if d.year < 0 then -d.year else d.year, 6);
    }
  }

  datatype DateError = InvalidDate

  /** `toISOString()`: throws a RangeError for an instant outside the range a
      `Date` can hold. */
  function IsoString(i: Instant): (r: Result<string, DateError>)
    requires ValidInstant(i)
    ensures r.Failure? <==> !InstantInRange(i)
    ensures r.Success? ==> |r.value| == |IsoDate(i.date)| + 14
    ensures r.Success? ==> r.value[..|IsoDate(i.date)|] == IsoDate(i.date)
    ensures r.Success? ==> r.value[|IsoDate(i.date)|] == 'T'
  {
    if !InstantInRange(i) then Failure(InvalidDate)
    else
      var t := i.time;
      Success(IsoDate(i.date) + "T" + Digits(t.hour, 2) + ":" + Digits(t.minute, 2) + ":"
              + Digits(t.second, 2) + "." + Digits(t.millisecond, 3) + "Z")
  }

  /** `s.split('T')[0]`: the longest prefix of `s` without a 'T'. */
  function BeforeT(s: string): (r: string)
    ensures |r| <= |s| && r == s[..|r|]
    ensures 'T' !in r
    ensures |r| < |s| ==> s[|r|] == 'T'
  {
    if s == [] then []
    else if s[0] == 'T' then []
    else [s[0]] + BeforeT(s[1..])
  }

  lemma {:induction false} BeforeTOfJoin(a: string, b: string)
    requires 'T' !in a
    ensures BeforeT(a + "T" + b) == a
  {
    if a == [] {
      assert (a + "T" + b)[0] == 'T';
    } else {
      assert (a + "T" + b)[1..] == a[1..] + "T" + b;
      BeforeTOfJoin(a[1..], b);
    }
  }

  /** The `fromDate`/`toDate` query value: the calendar date of the instant as
      `YYYY-MM-DD`, or the RangeError `toISOString` throws. */
  function QueryDate(i: Instant): (r: Result<string, DateError>)
    requires ValidInstant(i)
    ensures r.Failure? <==> !InstantInRange(i)
    ensures r.Success? ==> r.value == IsoDate(i.date) && ParseIsoDate(r.value) == Some(i.date)
  {
    match IsoString(i)
    case Failure(e) => Failure(e)
    case Success(s) =>
      var date := IsoDate(i.date);
      assert s == date + "T" + s[|date| + 1..];
      BeforeTOfJoin(date, s[|date| + 1..]);
      IsoDateRoundTrip(i.date);
      Success(BeforeT(s))
  }
}
