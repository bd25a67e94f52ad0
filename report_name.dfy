/**
 * The report file name: "UserReport-" + domain + "-" + the UTC time written with the
 * .NET custom format "yyyy-MM-dd-hh-mm" + ".xlsx". In that format "hh" is the hour on a
 * 12-hour clock (01..12) and nothing marks AM or PM.
 */
module ReportNames {

  /** A UTC moment as DateTime fields; seconds are carried only to show they are dropped. */
  datatype Timestamp = Timestamp(year: int, month: int, day: int, hour: int, minute: int, second: int)

  predicate IsLeapYear(y: int)
  {
    y % 4 == 0 && (y % 100 != 0 || y % 400 == 0)
  }

  function DaysInMonth(y: int, m: int): int
  {
    if m == 2 then (if IsLeapYear(y) then 29 else 28)
    else if m == 4 || m == 6 || m == 9 || m == 11 then 30
    else 31
  }

  /** The moments a DateTime can hold. */
  predicate ValidTimestamp(t: Timestamp)
  {
    && 1 <= t.year <= 9999
    && 1 <= t.month <= 12
    && 1 <= t.day <= DaysInMonth(t.year, t.month)
    && 0 <= t.hour < 24
    && 0 <= t.minute < 60
    && 0 <= t.second < 60
  }

  /** The "h" hour: 12 for midnight and noon, otherwise the hour modulo 12. */
  function Hour12(h: int): (r: int)
    requires 0 <= h < 24
    ensures 1 <= r <= 12
    ensures r % 12 == h % 12
  {
    if h % 12 == 0 then 12 else h % 12
  }

  function Pow10(w: nat): (p: nat)
    ensures p >= 1
  {
    if w == 0 then 1 else 10 * Pow10(w - 1)
  }

  predicate IsDigit(c: char)
  {
    '0' <= c <= '9'
  }

  function DigitChar(d: int): (c: char)
    requires 0 <= d < 10
    ensures IsDigit(c)
  {
    "0123456789"[d]
  }

  function DigitValue(c: char): int
    requires IsDigit(c)
  {
    c as int - '0' as int
  }

  /** The last w decimal digits of n, zero-padded on the left. */
  function PadDigits(n: nat, w: nat): (s: string)
    ensures |s| == w
    ensures forall k :: 0 <= k < w ==> IsDigit(s[k])
  {
    if w == 0 then "" else PadDigits(n / 10, w - 1) + [DigitChar(n % 10)]
  }

  /** The number a string of decimal digits spells. */
  function ParseDigits(s: string): nat
    requires forall k :: 0 <= k < |s| ==> IsDigit(s[k])
  {
    if s == [] then 0 else 10 * ParseDigits(s[..|s| - 1]) + DigitValue(s[|s| - 1])
  }

  /** A number that fits the width is read back from its padded digits. */
  lemma {:induction false} ParsePadDigits(n: nat, w: nat)
    requires n < Pow10(w)
    ensures ParseDigits(PadDigits(n, w)) == n
  {
    if w > 0 {
      var s := PadDigits(n, w);
      assert s[..w - 1] == PadDigits(n / 10, w - 1);
      ParsePadDigits(n / 10, w - 1);
      assert DigitValue(DigitChar(n % 10)) == n % 10 by {
        assert "0123456789"[n % 10] as int == '0' as int + n % 10;
      }
    }
  }

  /** The timestamp as "yyyy-MM-dd-hh-mm". */
  function FormatStamp(t: Timestamp): (s: string)
    requires ValidTimestamp(t)
    ensures |s| == 16
    ensures s[4] == '-' && s[7] == '-' && s[10] == '-' && s[13] == '-'
    ensures forall k :: 0 <= k < 16 && k !in {4, 7, 10, 13} ==> IsDigit(s[k])
  {
    PadDigits(t.year, 4) + "-" + PadDigits(t.month, 2) + "-" + PadDigits(t.day, 2) + "-"
      + PadDigits(Hour12(t.hour), 2) + "-" + PadDigits(t.minute, 2)
  }

  const Prefix: string := "UserReport-"
  const Extension: string := ".xlsx"

  /** The name the report for domainName is saved under at UTC time t. */
  function ReportFileName(domainName: string, t: Timestamp): (name: string)
    requires ValidTimestamp(t)
    ensures |name| == |domainName| + 33
    ensures name[..11] == Prefix && name[|name| - 5..] == Extension
    ensures name[11..|name| - 22] == domainName
    ensures name[|domainName| + 11] == '-' && name[|domainName| + 12..|name| - 5] == FormatStamp(t)
  {
    Prefix + domainName + "-" + FormatStamp(t) + Extension
  }

  /** Two moments give the same stamp when they agree on the date, the minute and the
   *  hour modulo 12; the second and AM/PM are not part of it. */
  predicate SameStampMinute(t1: Timestamp, t2: Timestamp)
  {
    && t1.year == t2.year && t1.month == t2.month && t1.day == t2.day
    && t1.hour % 12 == t2.hour % 12 && t1.minute == t2.minute
  }

  /** The fields of a stamp are read back from its digit groups. */
  lemma StampFields(t: Timestamp)
    requires ValidTimestamp(t)
    ensures ParseDigits(FormatStamp(t)[0..4]) == t.year
    ensures ParseDigits(FormatStamp(t)[5..7]) == t.month
    ensures ParseDigits(FormatStamp(t)[8..10]) == t.day
    ensures ParseDigits(FormatStamp(t)[11..13]) == Hour12(t.hour)
    ensures ParseDigits(FormatStamp(t)[14..16]) == t.minute
  {
    var s := FormatStamp(t);
    assert s[0..4] == PadDigits(t.year, 4);
    assert s[5..7] == PadDigits(t.month, 2);
    assert s[8..10] == PadDigits(t.day, 2);
    assert s[11..13] == PadDigits(Hour12(t.hour), 2);
    assert s[14..16] == PadDigits(t.minute, 2);
    ParsePadDigits(t.year, 4);
    ParsePadDigits(t.month, 2);
    ParsePadDigits(t.day, 2);
    ParsePadDigits(Hour12(t.hour), 2);
    ParsePadDigits(t.minute, 2);
  }

  /** Two reports get the same file name exactly when they are for the same domain and
   *  were started in the same UTC minute on the 12-hour clock. */
  lemma ReportFileNameCollision(d1: string, t1: Timestamp, d2: string, t2: Timestamp)
    requires ValidTimestamp(t1) && ValidTimestamp(t2)
    ensures ReportFileName(d1, t1) == ReportFileName(d2, t2) <==> d1 == d2 && SameStampMinute(t1, t2)
  {
    var n1, n2 := ReportFileName(d1, t1), ReportFileName(d2, t2);
    if n1 == n2 {
      assert |d1| == |d2|;
      assert n1[|n1| - 21..|n1| - 5] == FormatStamp(t1);
      assert n2[|n2| - 21..|n2| - 5] == FormatStamp(t2);
      StampFields(t1);
      StampFields(t2);
    }
    if d1 == d2 && SameStampMinute(t1, t2) {
      assert Hour12(t1.hour) == Hour12(t2.hour);
    }
  }

  /** With the 12-hour "hh", an export at hour h and one at hour h + 12 of the same day and
   *  minute are saved under the same name. */
  lemma HalfDayCollision(domainName: string, t: Timestamp)
    requires ValidTimestamp(t) && t.hour < 12
    ensures ValidTimestamp(t.(hour := t.hour + 12))
    ensures ReportFileName(domainName, t) == ReportFileName(domainName, t.(hour := t.hour + 12))
  {
    var later := t.(hour := t.hour + 12);
    assert Hour12(later.hour) == Hour12(t.hour);
    assert FormatStamp(later) == FormatStamp(t);
  }
}
