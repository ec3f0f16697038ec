/** The year-month key `${year}-${String(month).padStart(2, '0')}` that scopes payment status
    (03-frontend/src/pages/Dashboard.jsx:49, 03-frontend/src/store/useStore.js:102 and :147). */
module MonthKey {

  import opened Wrappers

  predicate IsDigit(c: char)
  {
    '0' <= c <= '9'
  }

  function DigitChar(d: nat): (c: char)
    requires d < 10
    ensures IsDigit(c) && DigitValue(c) == d
  {
    (('0' as int) + d) as char
  }

  function DigitValue(c: char): nat
    requires IsDigit(c)
  {
    (c as int) - ('0' as int)
  }

  /** `String(n)` for a non-negative integer: its decimal digits, no leading zero. */
  function NatToString(n: nat): (s: string)
    ensures |s| >= 1 && forall i :: 0 <= i < |s| ==> IsDigit(s[i])
    ensures (|s| == 1) == (n < 10)
    ensures s[0] == '0' <==> n == 0
  {
    if n < 10 then [DigitChar(n)] else NatToString(n / 10) + [DigitChar(n % 10)]
  }

  /** `String(n)` for any integer: a '-' exactly for a negative number, then decimal digits. */
  function IntToString(n: int): (s: string)
    ensures |s| >= 1
    ensures s[0] == '-' <==> n < 0
    ensures forall i :: (if n < 0 then 1 else 0) <= i < |s| ==> IsDigit(s[i])
    ensures n < 0 ==> |s| >= 2
    ensures s[if n < 0 then 1 else 0] == '0' <==> n == 0
  {
    if n < 0 then "-" + NatToString(-n) else NatToString(n)
  }

  /** `s.padStart(2, '0')`: s, with '0's in front up to two characters. */
  function PadStart2(s: string): (r: string)
    ensures |r| == if |s| >= 2 then |s| else 2
    ensures r[|r| - |s|..] == s
    ensures forall i :: 0 <= i < |r| - |s| ==> r[i] == '0'
  {
    if |s| >= 2 then s else seq(2 - |s|, _ => '0') + s
  }

  /** The key of a calendar month: for a month in 1..12, as long as the printed year plus three, ending
      in '-' and the month's tens and units digits (KeyStartsWithYear places the year in front). */
  function YearMonthKey(year: int, month: int): (key: string)
    ensures 1 <= month <= 12 ==>
              && |key| == |IntToString(year)| + 3
              && key[|key| - 3] == '-'
              && key[|key| - 2] == DigitChar(month / 10)
              && key[|key| - 1] == DigitChar(month % 10)
  {
    var digits := PadStart2(IntToString(month));
    PaddedMonthDigits(month);
    JoinedParts(IntToString(year), digits);
    IntToString(year) + "-" + digits
  }

  /** Every key starts with the printed year and a '-'. */
  lemma KeyStartsWithYear(year: int, month: int)
    ensures var key, ys := YearMonthKey(year, month), IntToString(year);
            |ys| < |key| && key[..|ys|] == ys && key[|ys|] == '-'
  {
    var ys, ms := IntToString(year), PadStart2(IntToString(month));
    assert YearMonthKey(year, month) == ys + "-" + ms;
    assert (ys + "-" + ms)[..|ys|] == ys;
  }

  /** Where the parts of a year, '-' and a two-character month sit in the joined key. */
  lemma JoinedParts(ys: string, ms: string)
    ensures var key := ys + "-" + ms;
            |ms| == 2 ==>
              && |key| == |ys| + 3
              && key[|key| - 3] == '-'
              && key[|key| - 2] == ms[0]
              && key[|key| - 1] == ms[1]
  {
  }

  /** Reads a non-empty string of decimal digits. */
  function ParseNat(s: string): Option<nat>
  {
    if s == [] || !IsDigit(s[|s| - 1]) then None
    else if |s| == 1 then Some(DigitValue(s[0]))
    else
      match ParseNat(s[..|s| - 1])
      case None => None
      case Some(v) => Some(10 * v + DigitValue(s[|s| - 1]))
  }

  /** Reads an optionally negative decimal integer. */
  function ParseInt(s: string): Option<int>
  {
    if |s| > 0 && s[0] == '-' then
      match ParseNat(s[1..])
      case None => None
      case Some(v) => Some(-(v as int))
    else
      match ParseNat(s)
      case None => None
      case Some(v) => Some(v)
  }

  /** Splits a key into the year before its last '-' and the two-digit month after it. */
  function ParseYearMonth(key: string): Option<(int, int)>
  {
    if |key| < 4 || key[|key| - 3] != '-' then None
    else
      match (ParseInt(key[..|key| - 3]), ParseNat(key[|key| - 2..]))
      case (Some(y), Some(m)) => Some((y, m))
      case _ => None
  }

  lemma {:induction false} NatToStringRoundTrip(n: nat)
    ensures ParseNat(NatToString(n)) == Some(n)
  {
    if n >= 10 {
      var p, c := NatToString(n / 10), DigitChar(n % 10);
      assert NatToString(n) == p + [c];
      assert (p + [c])[..|p + [c]| - 1] == p;
      NatToStringRoundTrip(n / 10);
    }
  }

  lemma IntToStringRoundTrip(n: int)
    ensures ParseInt(IntToString(n)) == Some(n)
  {
    if n < 0 {
      var digits := NatToString(-n);
      var s := "-" + digits;
      assert s[0] == '-' && s[1..] == digits;
      NatToStringRoundTrip(-n);
      assert ParseInt(s) == Some(-(-n));
    } else {
      var digits := NatToString(n);
      assert IsDigit(digits[0]);
      NatToStringRoundTrip(n);
      assert ParseInt(digits) == Some(n);
    }
  }

  /** A month in 1..12, printed and padded to two characters, is its tens digit then its units digit. */
  lemma PaddedMonthDigits(month: int)
    ensures 1 <= month <= 12 ==> PadStart2(IntToString(month)) == [DigitChar(month / 10), DigitChar(month % 10)]
  {
    if 1 <= month < 10 {
      assert NatToString(month) == [DigitChar(month)];
    } else if 10 <= month <= 12 {
      assert NatToString(month) == NatToString(month / 10) + [DigitChar(month % 10)];
      assert NatToString(month / 10) == [DigitChar(month / 10)];
    }
  }

  /** The key of a month in 1..12 can be read back: year and month are recovered. */
  lemma KeyRoundTrip(year: int, month: int)
    ensures 1 <= month <= 12 ==> ParseYearMonth(YearMonthKey(year, month)) == Some((year, month))
  {
    if 1 <= month <= 12 {
      assert YearMonthKey(year, month) == IntToString(year) + "-" + PadStart2(IntToString(month));
      PaddedMonthDigits(month);
      TwoDigitsRoundTrip(month);
      IntToStringRoundTrip(year);
      SplitKey(IntToString(year), PadStart2(IntToString(month)), year, month);
    }
  }

  /** A year part, '-', and a two-character month part are read back separately. */
  lemma SplitKey(ys: string, ms: string, year: int, month: int)
    requires |ms| == 2 && ParseInt(ys) == Some(year) && ParseNat(ms) == Some(month)
    ensures ParseYearMonth(ys + "-" + ms) == Some((year, month))
  {
    var key := ys + "-" + ms;
    assert key[..|key| - 3] == ys;
    assert key[|key| - 2..] == ms;
  }

  lemma TwoDigitsRoundTrip(month: int)
    requires 1 <= month <= 12
    ensures ParseNat([DigitChar(month / 10), DigitChar(month % 10)]) == Some(month)
  {
    var ms := [DigitChar(month / 10), DigitChar(month % 10)];
    assert ms[..1] == [DigitChar(month / 10)];
    assert ParseNat(ms[..1]) == Some(month / 10);
  }

  /** Two months in 1..12 share a key only if they are the same month of the same year. */
  lemma KeyInjective(y1: int, m1: int, y2: int, m2: int)
    requires 1 <= m1 <= 12 && 1 <= m2 <= 12
    requires YearMonthKey(y1, m1) == YearMonthKey(y2, m2)
    ensures y1 == y2 && m1 == m2
  {
    KeyRoundTrip(y1, m1);
    KeyRoundTrip(y2, m2);
  }
}
