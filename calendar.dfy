/** Proleptic Gregorian dates as Python's `datetime.date` handles them:
    validity, the ordinal day number (`date.toordinal()`), stepping back one
    day (`d - timedelta(days=1)`), the zero-padded `strftime` forms and the
    `strptime(s, '%Y-%m-%d')` parser. */
module Calendar {
  import opened Text
  import opened PyValues

  datatype Date = Date(year: int, month: int, day: int)

  const MaxYear := 9999

  predicate IsLeap(y: int) {
    y % 4 == 0 && (y % 100 != 0 || y % 400 == 0)
  }

  function DaysInMonth(y: int, m: int): int
    requires 1 <= m <= 12
  {
    if m == 2 then (if IsLeap(y) then 29 else 28)
    else if m == 4 || m == 6 || m == 9 || m == 11 then 30
    else 31
  }

  /** The dates `datetime.date` accepts: years 1 to 9999. */
  predicate Valid(d: Date) {
    1 <= d.year <= MaxYear && 1 <= d.month <= 12 && 1 <= d.day <= DaysInMonth(d.year, d.month)
  }

  function DaysInYear(y: int): int {
    if IsLeap(y) then 366 else 365
  }

  /** Days in the years before `y`, by the closed formula Python's `datetime` uses. */
  function DaysBeforeYear(y: int): int
    requires y >= 1
  {
    var p := y - 1;
    p * 365 + p / 4 - p / 100 + p / 400
  }

  /** Days in the year before the first of month `m`. */
  function DaysBeforeMonth(y: int, m: int): int
    requires 1 <= m <= 12
  {
    [0, 31, 59, 90, 120, 151, 181, 212, 243, 273, 304, 334][m - 1]
      + (if m > 2 && IsLeap(y) then 1 else 0)
  }

  /** `date.toordinal()`: 0001-01-01 is day 1. */
  function Ordinal(d: Date): int
    requires Valid(d)
  {
    DaysBeforeYear(d.year) + DaysBeforeMonth(d.year, d.month) + d.day
  }

  lemma YearStep(y: int)
    requires y >= 2
    ensures DaysBeforeYear(y) == DaysBeforeYear(y - 1) + DaysInYear(y - 1)
  {
    var p := y - 1;
    DivStep(p, 4);
    DivStep(p, 100);
    DivStep(p, 400);
    LeapDivisors(p);
  }

  /** Going from `p - 1` to `p` adds one to `p / k` exactly when `k` divides `p`. */
  lemma DivStep(p: int, k: int)
    requires p >= 1 && k >= 1
    ensures p / k - (p - 1) / k == (if p % k == 0 then 1 else 0)
  {
    var q, r := p / k, p % k;
    if r == 0 {
      DivUnique(p - 1, k, q - 1, k - 1);
    } else {
      DivUnique(p - 1, k, q, r - 1);
    }
  }

  /** Euclidean division has one quotient. */
  lemma DivUnique(n: int, k: int, q: int, r: int)
    requires k >= 1 && n == k * q + r && 0 <= r < k
    ensures n / k == q && n % k == r
  {
    var q' := n / k;
    if q' < q {
      MulAtLeast(k, q - q');
      assert false;
    } else if q < q' {
      MulAtLeast(k, q' - q);
      assert false;
    }
  }

  lemma MulAtLeast(k: int, d: int)
    requires k >= 1 && d >= 1
    ensures k * d >= k
  {
    assert k * d == k * (d - 1) + k;
  }

  /** A year divisible by 400 is divisible by 100, and one divisible by 100
      is divisible by 4. */
  lemma LeapDivisors(p: int)
    ensures p % 400 == 0 ==> p % 100 == 0
    ensures p % 100 == 0 ==> p % 4 == 0
  {
    if p % 400 == 0 {
      DivUnique(p, 100, 4 * (p / 400), 0);
    }
    if p % 100 == 0 {
      DivUnique(p, 4, 25 * (p / 100), 0);
    }
  }

  lemma OrdinalAtLeastOne(d: Date)
    requires Valid(d)
    ensures Ordinal(d) >= 1
    ensures Ordinal(d) == 1 <==> d == Date(1, 1, 1)
  {
    var p := d.year - 1;
    assert p / 4 >= p / 100 && p / 400 >= 0;
    if d.year > 1 {
      assert p * 365 + p / 4 - p / 100 >= 365;
    }
  }

  /** `d - timedelta(days=1)`: the previous day, or nothing (Python raises
      OverflowError) before 0001-01-01. The ordinal drops by exactly one. */
  function PrevDay(d: Date): (r: Option<Date>)
    requires Valid(d)
    ensures r.Some? <==> Ordinal(d) > 1
    ensures r.Some? ==> Valid(r.value) && Ordinal(r.value) == Ordinal(d) - 1
  {
    OrdinalAtLeastOne(d);
    if d.day > 1 then Some(Date(d.year, d.month, d.day - 1))
    else if d.month > 1 then Some(Date(d.year, d.month - 1, DaysInMonth(d.year, d.month - 1)))
    else if d.year > 1 then (YearStep(d.year); Some(Date(d.year - 1, 12, 31)))
    else None
  }

  /** `today - timedelta(days=k)`: defined exactly when the resulting ordinal
      is at least 1, and then it is `k` days before `today`. */
  function DaysBefore(today: Date, k: nat): (r: Option<Date>)
    requires Valid(today)
    ensures r.Some? <==> Ordinal(today) - k >= 1
    ensures r.Some? ==> Valid(r.value) && Ordinal(r.value) == Ordinal(today) - k
  {
    if k == 0 then (OrdinalAtLeastOne(today); Some(today))
    else match DaysBefore(today, k - 1)
      case None => None
      case Some(d) => PrevDay(d)
  }

  /** Two valid dates with the same ordinal are the same date. */
  lemma {:induction false} OrdinalInjective(a: Date, b: Date)
    requires Valid(a) && Valid(b) && Ordinal(a) == Ordinal(b)
    ensures a == b
    decreases Ordinal(a)
  {
    var pa, pb := PrevDay(a), PrevDay(b);
    OrdinalAtLeastOne(a);
    OrdinalAtLeastOne(b);
    if pa.Some? {
      OrdinalInjective(pa.value, pb.value);
      assert a == Date(a.year, a.month, a.day);
      SuccUnique(pa.value, a, b);
    }
  }

  /** Stepping back one day is injective: a date is determined by its predecessor. */
  lemma SuccUnique(p: Date, a: Date, b: Date)
    requires Valid(a) && Valid(b) && PrevDay(a) == Some(p) && PrevDay(b) == Some(p)
    ensures a == b
  {
  }

  // ---------------------------------------------------------------------
  // Zero-padded fields

  /** A two-digit zero-padded field (`%m`, `%d` in `strftime`). */
  function Pad2(n: int): (s: string)
    requires 0 <= n < 100
    ensures |s| == 2 && IsDigit(s[0]) && IsDigit(s[1])
    ensures 10 * DigitValue(s[0]) + DigitValue(s[1]) == n
  {
    [DigitChar(n / 10), DigitChar(n % 10)]
  }

  /** A four-digit zero-padded year (`%Y` in `strftime`). */
  function Pad4(n: int): (s: string)
    requires 0 <= n < 10000
    ensures |s| == 4 && IsDigit(s[0]) && IsDigit(s[1]) && IsDigit(s[2]) && IsDigit(s[3])
    ensures 1000 * DigitValue(s[0]) + 100 * DigitValue(s[1]) + 10 * DigitValue(s[2]) + DigitValue(s[3]) == n
  {
    var r1 := n % 1000;
    var r2 := r1 % 100;
    assert n == 1000 * (n / 1000) + r1 && r1 == 100 * (r1 / 100) + r2 && r2 == 10 * (r2 / 10) + r2 % 10;
    [DigitChar(n / 1000), DigitChar(r1 / 100), DigitChar(r2 / 10), DigitChar(r2 % 10)]
  }

  /** `d.strftime('%Y-%m-%d')`, the form the provider uses before the `T`. */
  function IsoFormat(d: Date): string
    requires Valid(d)
  {
    Pad4(d.year) + "-" + Pad2(d.month) + "-" + Pad2(d.day)
  }

  /** `d.strftime('%Y%m%d')`. */
  function CompactFormat(d: Date): string
    requires Valid(d)
  {
    Pad4(d.year) + Pad2(d.month) + Pad2(d.day)
  }

  // ---------------------------------------------------------------------
  // strptime(s, '%Y-%m-%d')

  /** A field matched by one of the alternatives of a `strptime` directive:
      its numeric value and how many characters it took. */
  datatype Field = Field(value: int, width: nat)

  /** The `%m` directive, regular expression `1[0-2]|0[1-9]|[1-9]`, tried in order. */
  function MonthField(s: string): (r: Option<Field>)
    ensures r.Some? ==> 1 <= r.value.value <= 12 && 1 <= r.value.width <= 2 && r.value.width <= |s|
  {
    if |s| >= 2 && s[0] == '1' && '0' <= s[1] <= '2' then Some(Field(10 + DigitValue(s[1]), 2))
    else if |s| >= 2 && s[0] == '0' && '1' <= s[1] <= '9' then Some(Field(DigitValue(s[1]), 2))
    else if |s| >= 1 && '1' <= s[0] <= '9' then Some(Field(DigitValue(s[0]), 1))
    else None
  }

  /** The `%d` directive, regular expression `3[01]|[12]\d|0[1-9]|[1-9]| [1-9]`, tried in order. */
  function DayField(s: string): (r: Option<Field>)
    ensures r.Some? ==> 1 <= r.value.value <= 31 && 1 <= r.value.width <= 2 && r.value.width <= |s|
  {
    if |s| >= 2 && s[0] == '3' && '0' <= s[1] <= '1' then Some(Field(30 + DigitValue(s[1]), 2))
    else if |s| >= 2 && '1' <= s[0] <= '2' && IsDigit(s[1]) then Some(Field(10 * DigitValue(s[0]) + DigitValue(s[1]), 2))
    else if |s| >= 2 && s[0] == '0' && '1' <= s[1] <= '9' then Some(Field(DigitValue(s[1]), 2))
    else if |s| >= 1 && '1' <= s[0] <= '9' then Some(Field(DigitValue(s[0]), 1))
    else if |s| >= 2 && s[0] == ' ' && '1' <= s[1] <= '9' then Some(Field(DigitValue(s[1]), 2))
    else None
  }

  /** `datetime.strptime(s, '%Y-%m-%d').date()`: four digits, a dash, a month
      field, a dash, a day field, nothing after it, and a real calendar date;
      `None` wherever Python raises ValueError. */
  function Strptime(s: string): (r: Option<Date>)
    ensures r.Some? ==> Valid(r.value)
  {
    if |s| < 5 || !(IsDigit(s[0]) && IsDigit(s[1]) && IsDigit(s[2]) && IsDigit(s[3])) || s[4] != '-' then None
    else
      var y := 1000 * DigitValue(s[0]) + 100 * DigitValue(s[1]) + 10 * DigitValue(s[2]) + DigitValue(s[3]);
      match MonthField(s[5..])
      case None => None
      case Some(m) =>
        var p := 5 + m.width;
        if p >= |s| || s[p] != '-' then None
        else match DayField(s[p + 1..])
          case None => None
          case Some(d) =>
            if p + 1 + d.width != |s| then None
            else if 1 <= y && d.value <= DaysInMonth(y, m.value) then Some(Date(y, m.value, d.value))
            else None
  }

  /** Parsing the zero-padded form of a valid date gives that date back. */
  lemma StrptimeIsoFormat(d: Date)
    requires Valid(d)
    ensures Strptime(IsoFormat(d)) == Some(d)
  {
    var s := IsoFormat(d);
    var ys, ms, ds := Pad4(d.year), Pad2(d.month), Pad2(d.day);
    assert s == ys + "-" + ms + "-" + ds;
    assert s[5..] == ms + "-" + ds;
    assert MonthField(s[5..]) == Some(Field(d.month, 2));
    assert s[8..] == ds;
    assert DayField(ds) == Some(Field(d.day, 2));
  }

  /** The parser also takes fields without zero padding, as CPython's does. */
  lemma StrptimeUnpadded()
    ensures Strptime("2024-3-1") == Some(Date(2024, 3, 1))
    ensures Strptime("2024-02-30") == None
    ensures Strptime("2024-03-01 ") == None
  {
    assert "2024-3-1"[5..] == "3-1";
    assert "2024-3-1"[7..] == "1";
    assert "2024-02-30"[5..] == "02-30";
    assert "2024-02-30"[8..] == "30";
    assert "2024-03-01 "[5..] == "03-01 ";
    assert "2024-03-01 "[8..] == "01 ";
  }

  /** Distinct valid dates have distinct `%Y%m%d` forms. */
  lemma CompactFormatInjective(a: Date, b: Date)
    requires Valid(a) && Valid(b) && CompactFormat(a) == CompactFormat(b)
    ensures a == b
  {
    var sa, sb := CompactFormat(a), CompactFormat(b);
    assert sa[..4] == Pad4(a.year) && sb[..4] == Pad4(b.year);
    assert sa[4..6] == Pad2(a.month) && sb[4..6] == Pad2(b.month);
    assert sa[6..] == Pad2(a.day) && sb[6..] == Pad2(b.day);
  }
}
