/**
 * The `format_timedelta` template filter: a duration shown as minutes and
 * seconds, "MM:SS".
 */
module CustomFilters {
  import opened Decimal

  /**
   * A `datetime.timedelta` as Python keeps it: whole days (of any sign), then
   * seconds and microseconds normalised into one day and one second.
   */
  datatype Timedelta = Timedelta(days: int, seconds: int, microseconds: int) {
    predicate Normalized() {
      0 <= seconds < 86400 && 0 <= microseconds < 1000000
    }
  }

  /**
   * `divmod(td.seconds, 60)` and `f"{minutes:02}:{seconds:02}"`: the minutes
   * zero-filled to at least two digits, a colon, the seconds to exactly two. The
   * days and microseconds are not shown.
   */
  function FormatTimedelta(td: Timedelta): (s: string)
    requires td.Normalized()
    ensures var minutes, seconds := td.seconds / 60, td.seconds % 60;
      && 60 * minutes + seconds == td.seconds && 0 <= seconds < 60 && 0 <= minutes <= 1439
      && s == ZeroFill(minutes, 2) + ":" + ZeroFill(seconds, 2)
    ensures 5 <= |s| <= 7 && s[|s| - 3] == ':'
  {
    var minutes, seconds := td.seconds / 60, td.seconds % 60;
    TwoDigitsOrFour(minutes);
    TwoDigitsOrFour(seconds);
    ZeroFill(minutes, 2) + ":" + ZeroFill(seconds, 2)
  }

  /** A number below 10000 is written with at most four digits, so zero-filled to two it takes 2 to 4 characters. */
  lemma TwoDigitsOrFour(n: nat)
    requires n < 10000
    ensures 2 <= |ZeroFill(n, 2)| <= 4
    ensures n < 60 ==> |ZeroFill(n, 2)| == 2
  {
    if n >= 10 {
      assert |Show(n)| == |Show(n / 10)| + 1;
      if n >= 100 {
        assert |Show(n / 10)| == |Show(n / 100)| + 1;
        if n >= 1000 {
          assert |Show(n / 100)| == |Show(n / 1000)| + 1;
        }
      }
    }
  }

  /** The days part and the microseconds never change what is shown. */
  lemma FormatIgnoresDays(td: Timedelta, days: int, microseconds: int)
    requires td.Normalized() && 0 <= microseconds < 1000000
    ensures FormatTimedelta(Timedelta(days, td.seconds, microseconds)) == FormatTimedelta(td)
  {
  }
}
