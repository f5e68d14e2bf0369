/** Properties of the phone normalisation and of the booking window of
    src/utils/utils.py. */
module UtilsProperties {
  import opened Python
  import opened Utils

  // ---------- the digit filter ----------

  /** Filtering a concatenation filters each part. */
  lemma {:induction false} DigitsConcat(a: string, b: string)
    ensures Digits(a + b) == Digits(a) + Digits(b)
    decreases |b|
  {
    if b == [] {
      assert a + b == a;
    } else {
      var init := b[..|b| - 1];
      assert (a + b)[..|a + b| - 1] == a + init;
      assert (a + b)[|a + b| - 1] == b[|b| - 1];
      DigitsConcat(a, init);
    }
  }

  /** A string is its own digit filter exactly when it holds only digits. */
  lemma {:induction false} DigitsFixedPoint(s: string)
    ensures Digits(s) == s <==> AllDigits(s)
  {
    if s != [] {
      var init := s[..|s| - 1];
      DigitsFixedPoint(init);
      if AllDigits(s) {
        assert AllDigits(init);
        assert init + [s[|s| - 1]] == s;
      }
    }
  }

  /** The filter keeps every digit as often as it occurs and drops every
      other character. */
  lemma {:induction false} DigitsCounts(s: string, c: char)
    ensures IsDigit(c) ==> multiset(Digits(s))[c] == multiset(s)[c]
    ensures !IsDigit(c) ==> c !in Digits(s)
  {
    if s != [] {
      var init := s[..|s| - 1];
      DigitsCounts(init, c);
      assert s == init + [s[|s| - 1]];
      assert multiset(s) == multiset(init) + multiset{s[|s| - 1]};
    }
  }

  // ---------- normalize_phone ----------

  /** None and the empty string normalise to the empty string. */
  lemma NormalizeNothing()
    ensures NormalizePhone(None) == ""
    ensures NormalizePhone(Some("")) == ""
  {
  }

  /** Twelve digits starting with "91" lose that prefix. */
  lemma NormalizeIndianPrefix(raw: string)
    requires |Digits(raw)| == 12 && Digits(raw)[..2] == "91"
    ensures NormalizePhone(Some(raw)) == Digits(raw)[2..]
    ensures |NormalizePhone(Some(raw))| == 10
  {
  }

  /** Any other number is only stripped of its non-digits. */
  lemma NormalizeOtherwise(raw: string)
    requires !(|Digits(raw)| == 12 && Digits(raw)[..2] == "91")
    ensures NormalizePhone(Some(raw)) == Digits(raw)
  {
  }

  /** The result is the input's digits, possibly without their first two. */
  lemma NormalizeIsSuffixOfDigits(raw: Option<string>)
    ensures var d := Digits(raw.GetOr(""));
            var r := NormalizePhone(raw);
            r == d || (|d| == 12 && r == d[2..])
  {
  }

  /** Normalising twice is normalising once. */
  lemma NormalizeIdempotent(raw: Option<string>)
    ensures NormalizePhone(Some(NormalizePhone(raw))) == NormalizePhone(raw)
  {
    var r := NormalizePhone(raw);
    DigitsFixedPoint(r);
    assert Digits(r) == r;
  }

  /** The digits of the country-code prefix "+91 ". */
  lemma CountryCodeDigits()
    ensures Digits("+91 ") == "91"
  {
    assert "+91 "[..3] == "+91";
    assert "+91"[..2] == "+9";
    assert "+9"[..1] == "+";
    assert "+"[..0] == "";
  }

  /** A ten-digit mobile number written "+91 " followed by the number
      reduces to the number. */
  lemma NormalizeWithCountryCode(number: string)
    requires |number| == 10 && AllDigits(number)
    ensures NormalizePhone(Some("+91 " + number)) == number
  {
    DigitsConcat("+91 ", number);
    CountryCodeDigits();
    DigitsFixedPoint(number);
    assert ("91" + number)[..2] == "91";
    assert ("91" + number)[2..] == number;
  }

  // ---------- get_booking_window_end_ist_date ----------

  /** The inclusive end is the day before the exclusive end. */
  lemma InclusiveIsDayBeforeExclusive(today: int, windowDays: int)
    requires IsOrdinal(today)
    requires BookingWindowEnd(today, windowDays, true).Some?
    requires BookingWindowEnd(today, windowDays, false).Some?
    ensures BookingWindowEnd(today, windowDays, true).value
            == BookingWindowEnd(today, windowDays, false).value - 1
  {
  }

  /** A 15-day window including today ends 14 days after today, and the
      default 14-day window 13 days after. */
  lemma FifteenDayWindow(today: int)
    requires IsOrdinal(today) && today + 14 <= MaxOrdinal
    ensures BookingWindowEnd(today, 15, true) == Some(today + 14)
    ensures BookingWindowEnd(today, 14, true) == Some(today + 13)
  {
  }

  /** A window that ends after 9999-12-31 raises instead of returning. */
  lemma WindowPastLastDate(today: int, windowDays: int, inclusive: bool)
    requires IsOrdinal(today) && today + WindowOffset(windowDays, inclusive) > MaxOrdinal
    ensures BookingWindowEnd(today, windowDays, inclusive).None?
  {
  }

  /** A longer window never ends earlier. */
  lemma WindowMonotone(today: int, w1: int, w2: int, inclusive: bool)
    requires IsOrdinal(today) && w1 <= w2
    requires BookingWindowEnd(today, w1, inclusive).Some? && BookingWindowEnd(today, w2, inclusive).Some?
    ensures BookingWindowEnd(today, w1, inclusive).value <= BookingWindowEnd(today, w2, inclusive).value
  {
  }
}
