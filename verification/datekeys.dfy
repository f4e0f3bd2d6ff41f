/**
 * Date keys of the journal: `${year}-${pad2(month)}-${pad2(day)}`, the format
 * built from a JavaScript Date in App.tsx and components/Tracker.tsx.
 */
module DateKeys {
  import opened Types

  predicate IsDigit(c: char) {
    '0' <= c <= '9'
  }

  predicate AllDigits(s: string) {
    forall i :: 0 <= i < |s| ==> IsDigit(s[i])
  }

  function Digit(d: int): (c: char)
    requires 0 <= d < 10
    ensures IsDigit(c) && c as int - '0' as int == d
  {
    ('0' as int + d) as char
  }

  /** `String(n)` for a non-negative whole number: decimal digits, no leading zeros. */
  function NatToString(n: nat): (s: string)
    ensures 1 <= |s| && AllDigits(s)
    ensures n < 10 <==> |s| == 1
    ensures |s| == 2 <==> 10 <= n < 100
    ensures |s| > 1 ==> s[0] != '0'
    decreases n
  {
    if n < 10 then [Digit(n)] else NatToString(n / 10) + [Digit(n % 10)]
  }

  /** `String(i)` for a whole number: a minus sign before the digits of a negative one. */
  function IntToString(i: int): (s: string)
    ensures |s| >= 1
    ensures i >= 0 ==> AllDigits(s)
    ensures i < 0 ==> s[0] == '-'
  {
    if i < 0 then "-" + NatToString(-i) else NatToString(i)
  }

  /** `s.padStart(2, '0')`: zeros are put in front until the string is two characters long. */
  function Pad2(s: string): (r: string)
    ensures |r| == if |s| >= 2 then |s| else 2
    ensures r[|r| - |s|..] == s
    ensures forall i :: 0 <= i < |r| - |s| ==> r[i] == '0'
  {
    if |s| >= 2 then s else if |s| == 1 then "0" + s else "00"
  }

  /**
   * The date key of a year, a 1-based month and a day. For a non-negative year
   * and a month and day below 100 the key has the canonical shape and reads
   * back as the three numbers it was built from.
   */
  function DateKey(year: int, month: int, day: int): (k: string)
    ensures year >= 0 && 0 <= month < 100 && 0 <= day < 100 ==>
      IsDateKey(k) && ParseDateKey(k) == (year, month, day)
  {
    JoinedKeyRoundTrip(year, month, day);
    IntToString(year) + "-" + Pad2(IntToString(month)) + "-" + Pad2(IntToString(day))
  }

  /** The joined year, padded month and padded day are a canonical key that reads back as the three numbers. */
  lemma JoinedKeyRoundTrip(year: int, month: int, day: int)
    ensures year >= 0 && 0 <= month < 100 && 0 <= day < 100 ==>
      var k := IntToString(year) + "-" + Pad2(IntToString(month)) + "-" + Pad2(IntToString(day));
      IsDateKey(k) && ParseDateKey(k) == (year, month, day)
  {
    if year >= 0 && 0 <= month < 100 && 0 <= day < 100 {
      FieldsRoundTrip(year, month, day);
    }
  }

  lemma FieldsRoundTrip(year: int, month: int, day: int)
    requires year >= 0 && 0 <= month < 100 && 0 <= day < 100
    ensures var k := IntToString(year) + "-" + Pad2(IntToString(month)) + "-" + Pad2(IntToString(day));
      IsDateKey(k) && ParseDateKey(k) == (year, month, day)
  {
    Pad2RoundTrip(month);
    Pad2RoundTrip(day);
    NatToStringRoundTrip(year);
    SplitKey(IntToString(year), Pad2(IntToString(month)), Pad2(IntToString(day)));
  }

  /**
   * The key of "today", from a JavaScript Date's year, 0-based month and day:
   * a canonical key of that month which reads back as the year, the 1-based
   * month and the day.
   */
  function TodayKey(today: CalendarDate): (k: string)
    ensures MonthPrefix(today.year, today.monthIndex) <= k
    ensures today.year >= 0 && 0 <= today.monthIndex < 12 && 1 <= today.day <= 31 ==>
      IsDateKey(k) && ParseDateKey(k) == (today.year, today.monthIndex + 1, today.day)
  {
    DateKeyHasMonthPrefix(today.year, today.monthIndex, today.day);
    DateKey(today.year, today.monthIndex + 1, today.day)
  }

  /** The prefix every key of a month starts with: year, a dash and the zero-padded 1-based month. */
  function MonthPrefix(year: int, monthIndex: int): string {
    IntToString(year) + "-" + Pad2(IntToString(monthIndex + 1))
  }

  /** The value of a string of decimal digits. */
  function DigitsValue(s: string): nat
    requires AllDigits(s)
    decreases |s|
  {
    if |s| == 0 then 0 else DigitsValue(s[..|s| - 1]) * 10 + (s[|s| - 1] as int - '0' as int)
  }

  /** Reading back the digits String(n) writes gives n. */
  lemma {:induction false} NatToStringRoundTrip(n: nat)
    ensures DigitsValue(NatToString(n)) == n
    decreases n
  {
    if n >= 10 {
      var s := NatToString(n);
      NatToStringRoundTrip(n / 10);
      assert s[..|s| - 1] == NatToString(n / 10);
    }
  }

  /** A canonical journal key: year digits, a dash, two month digits, a dash, two day digits. */
  predicate IsDateKey(s: string) {
    && |s| >= 7
    && s[|s| - 3] == '-' && s[|s| - 6] == '-'
    && AllDigits(s[..|s| - 6]) && AllDigits(s[|s| - 5..|s| - 3]) && AllDigits(s[|s| - 2..])
  }

  /** Split a canonical key into year, month and day. */
  function ParseDateKey(s: string): (int, int, int)
    requires IsDateKey(s)
  {
    (DigitsValue(s[..|s| - 6]), DigitsValue(s[|s| - 5..|s| - 3]), DigitsValue(s[|s| - 2..]))
  }

  /** Padding a one- or two-digit number gives two digits that read back as the number. */
  lemma Pad2RoundTrip(n: int)
    requires 0 <= n < 100
    ensures |Pad2(IntToString(n))| == 2
    ensures AllDigits(Pad2(IntToString(n)))
    ensures DigitsValue(Pad2(IntToString(n))) == n
  {
    NatToStringRoundTrip(n);
    var s := NatToString(n);
    if n < 10 {
      var p := Pad2(s);
      assert p == ['0', s[0]];
      assert p[..1] == ['0'];
    }
  }

  /** The three fields of a key joined from a year string and two two-character strings. */
  lemma SplitKey(y: string, m: string, d: string)
    requires |m| == 2 && |d| == 2
    ensures var k := y + "-" + m + "-" + d;
      |k| == |y| + 6 && k[..|k| - 6] == y && k[|k| - 6] == '-' && k[|k| - 5..|k| - 3] == m
      && k[|k| - 3] == '-' && k[|k| - 2..] == d
  {
    var k := y + "-" + m + "-" + d;
    assert k[..|y|] == y;
    assert k[|y| + 1..|y| + 3] == m;
    assert k[|y| + 4..] == d;
  }

  /** Distinct dates (in the canonical range) have distinct keys. */
  lemma DateKeyInjective(y1: int, m1: int, d1: int, y2: int, m2: int, d2: int)
    requires y1 >= 0 && 0 <= m1 < 100 && 0 <= d1 < 100
    requires y2 >= 0 && 0 <= m2 < 100 && 0 <= d2 < 100
    requires DateKey(y1, m1, d1) == DateKey(y2, m2, d2)
    ensures y1 == y2 && m1 == m2 && d1 == d2
  {
  }

  /** Every key of a month begins with that month's prefix. */
  lemma DateKeyHasMonthPrefix(year: int, monthIndex: int, day: int)
    ensures MonthPrefix(year, monthIndex) <= DateKey(year, monthIndex + 1, day)
  {
    var p := MonthPrefix(year, monthIndex);
    assert DateKey(year, monthIndex + 1, day) == p + ("-" + Pad2(IntToString(day)));
  }
}
