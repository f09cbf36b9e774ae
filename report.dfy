/**
 * The title of the scan summary (scanner.py:410): "NO SIGNALS", or the count
 * with "SIGNAL" pluralised unless the count is one.
 */
module Report {

  predicate IsDigit(c: char)
  {
    '0' <= c <= '9'
  }

  /** Python's `str` of a non-negative integer: its decimal digits, no leading zeros. */
  function Decimal(n: nat): (s: string)
    ensures |s| >= 1
    ensures forall k :: 0 <= k < |s| ==> IsDigit(s[k])
    ensures n >= 10 ==> s[0] != '0'
  {
    var last := ['0' + (n % 10) as char];
    if n < 10 then last else Decimal(n / 10) + last
  }

  /** Reads a run of decimal digits back as a number. */
  function ParseDecimal(s: string): nat
    requires forall k :: 0 <= k < |s| ==> IsDigit(s[k])
  {
    if |s| == 0 then 0
    else
      var last := s[|s| - 1];
      assert IsDigit(last);
      ParseDecimal(s[..|s| - 1]) * 10 + (last as int - '0' as int)
  }

  /** Writing a count in decimal and reading it back gives the count. */
  lemma {:induction false} DecimalRoundTrip(n: nat)
    ensures ParseDecimal(Decimal(n)) == n
  {
    var s := Decimal(n);
    if n >= 10 {
      assert s[..|s| - 1] == Decimal(n / 10);
      DecimalRoundTrip(n / 10);
    }
  }

  /** The longest prefix of `s` made of digits. */
  function LeadingDigits(s: string): (d: string)
    ensures |d| <= |s| && d == s[..|d|]
    ensures forall k :: 0 <= k < |d| ==> IsDigit(d[k])
  {
    if |s| == 0 || !IsDigit(s[0]) then [] else [s[0]] + LeadingDigits(s[1..])
  }

  lemma {:induction false} LeadingDigitsStopAtSpace(d: string, rest: string)
    requires forall k :: 0 <= k < |d| ==> IsDigit(d[k])
    requires |rest| > 0 && rest[0] == ' '
    ensures LeadingDigits(d + rest) == d
  {
    if |d| > 0 {
      assert (d + rest)[1..] == d[1..] + rest;
      LeadingDigitsStopAtSpace(d[1..], rest);
    }
  }

  const CheckMark := "\U{2705} "
  const NoSignals := "\U{26A0}\U{FE0F} NO SIGNALS"

  function SummaryTitle(count: nat): (title: string)
    ensures title == NoSignals <==> count == 0
    ensures count != 0 ==> |title| > |CheckMark| && title[..|CheckMark|] == CheckMark
  {
    if count != 0 then CheckMark + Decimal(count) + " SIGNAL" + (if count != 1 then "S" else "") + " FOUND"
    else NoSignals
  }

  /** The three shapes of the title: none, singular, plural. */
  lemma SummaryTitleShapes(count: nat)
    ensures count == 0 ==> SummaryTitle(count) == "\U{26A0}\U{FE0F} NO SIGNALS"
    ensures count == 1 ==> SummaryTitle(count) == "\U{2705} 1 SIGNAL FOUND"
    ensures count >= 2 ==> SummaryTitle(count) == "\U{2705} " + Decimal(count) + " SIGNALS FOUND"
  {
    if count == 1 {
      assert Decimal(1) == "1";
      assert SummaryTitle(1) == CheckMark + "1" + " SIGNAL" + "" + " FOUND";
    } else if count >= 2 {
      assert SummaryTitle(count) == CheckMark + Decimal(count) + " SIGNAL" + "S" + " FOUND";
      assert " SIGNAL" + "S" + " FOUND" == " SIGNALS FOUND";
      assert CheckMark + Decimal(count) + " SIGNAL" + "S" + " FOUND" == CheckMark + Decimal(count) + (" SIGNAL" + "S" + " FOUND");
    }
  }

  /** Reads the count back out of a summary title. */
  function CountFromTitle(title: string): nat
  {
    if |title| >= |CheckMark| && title[..|CheckMark|] == CheckMark
    then ParseDecimal(LeadingDigits(title[|CheckMark|..]))
    else 0
  }

  /** The title carries the exact count: reading it back recovers the number of signals. */
  lemma {:induction false} SummaryTitleRoundTrip(count: nat)
    ensures CountFromTitle(SummaryTitle(count)) == count
  {
    var title := SummaryTitle(count);
    if count != 0 {
      var rest := " SIGNAL" + (if count != 1 then "S" else "") + " FOUND";
      assert title == CheckMark + (Decimal(count) + rest);
      assert title[..|CheckMark|] == CheckMark;
      assert title[|CheckMark|..] == Decimal(count) + rest;
      LeadingDigitsStopAtSpace(Decimal(count), rest);
      DecimalRoundTrip(count);
    } else {
      assert title[..|CheckMark|] != CheckMark by {
        assert title[0] != CheckMark[0];
      }
    }
  }
}
