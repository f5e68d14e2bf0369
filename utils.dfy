/** The two pure helpers of src/utils/utils.py: phone-number normalisation
    and the end of the booking window.  Dates are day numbers in the
    proleptic Gregorian calendar (`date.toordinal()`), and "today" is a
    parameter instead of a reading of the clock. */
module Utils {
  import opened Python

  // ---------- normalize_phone ----------

  /** `re.sub(r"\D", "", s)`: the digits of `s`, in their order. */
  function Digits(s: string): (r: string)
    ensures AllDigits(r)
    ensures |r| <= |s|
  {
    if s == [] then []
    else Digits(s[..|s| - 1]) + (if IsDigit(s[|s| - 1]) then [s[|s| - 1]] else [])
  }

  /** `normalize_phone(raw)`: the digits of `raw or ""`, without a leading
      "91" when there are exactly twelve of them. */
  function NormalizePhone(raw: Option<string>): (r: string)
    ensures AllDigits(r)
    ensures |r| <= |raw.GetOr("")|
  {
    var d := Digits(raw.GetOr(""));
    if |d| == 12 && d[..2] == "91" then d[2..] else d
  }

  // ---------- get_booking_window_end_ist_date ----------

  /** `date.min.toordinal()` and `date.max.toordinal()`. */
  const MinOrdinal := 1
  const MaxOrdinal := 3652059
  /** The largest number of days a `timedelta` holds. */
  const MaxDeltaDays := 999999999

  predicate IsOrdinal(n: int) {
    MinOrdinal <= n <= MaxOrdinal
  }

  /** `delta_days`: one day less than the window when the end is inclusive. */
  function WindowOffset(windowDays: int, inclusive: bool): int {
    if inclusive then windowDays - 1 else windowDays
  }

  /** `today + timedelta(days=delta_days)` for the ordinal of today;
      `None` where `timedelta` or the addition raises OverflowError. */
  function BookingWindowEnd(today: int, windowDays: int, inclusive: bool): (r: Option<int>)
    requires IsOrdinal(today)
    ensures r.Some? ==> IsOrdinal(r.value) && r.value - today == WindowOffset(windowDays, inclusive)
    ensures r.None? <==> -MaxDeltaDays > WindowOffset(windowDays, inclusive)
                         || WindowOffset(windowDays, inclusive) > MaxDeltaDays
                         || !IsOrdinal(today + WindowOffset(windowDays, inclusive))
  {
    var delta := WindowOffset(windowDays, inclusive);
    if delta < -MaxDeltaDays || delta > MaxDeltaDays then None
    else if !IsOrdinal(today + delta) then None
    else Some(today + delta)
  }
}
