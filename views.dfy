/**
 * Two helpers of the web views: the greeting for the hour of the day, and the
 * reading of an "M:S" pace string sent with a completed run. The hour is a
 * parameter in place of `datetime.now()`.
 */
module Views {
  import opened Wrappers
  import opened Decimal
  import opened CustomFilters

  /** `calc_greeting`: the part of the day an hour 0..23 falls in. */
  function CalcGreeting(hour: int): (greeting: string)
    requires 0 <= hour < 24
    ensures greeting == "morning" <==> 4 <= hour < 12
    ensures greeting == "afternoon" <==> 12 <= hour < 17
    ensures greeting == "evening" <==> 17 <= hour < 23
    ensures greeting == "night" <==> hour == 23 || hour < 4
  {
    if hour >= 4 && hour < 12 then "morning"
    else if hour >= 12 && hour < 17 then "afternoon"
    else if hour >= 17 && hour < 23 then "evening"
    else "night"
  }

  /** Every hour gets exactly one of the four greetings. */
  lemma GreetingIsOneOfFour(hour: int)
    requires 0 <= hour < 24
    ensures CalcGreeting(hour) in ["morning", "afternoon", "evening", "night"]
  {
  }

  // ------------------------------------------------------------ str.split

  /** `s.split(sep)` for a one-character separator: the pieces between separators, empty ones included. */
  function Split(s: string, sep: char): (parts: seq<string>)
    ensures |parts| >= 1
    decreases |s|
  {
    if |s| == 0 then [""]
    else
      var rest := Split(s[1..], sep);
      if s[0] == sep then [""] + rest
      else [[s[0]] + rest[0]] + rest[1..]
  }

  /** `sep.join(parts)`. */
  function Join(parts: seq<string>, sep: char): string
    requires |parts| >= 1
  {
    if |parts| == 1 then parts[0] else parts[0] + [sep] + Join(parts[1..], sep)
  }

  /** Joining the pieces with the separator gives the string back, and no piece holds the separator. */
  lemma {:induction false} SplitJoin(s: string, sep: char)
    ensures Join(Split(s, sep), sep) == s
    ensures forall i :: 0 <= i < |Split(s, sep)| ==> sep !in Split(s, sep)[i]
    decreases |s|
  {
    if |s| > 0 {
      var rest := Split(s[1..], sep);
      SplitJoin(s[1..], sep);
      if s[0] == sep {
        assert Split(s, sep)[1..] == rest;
      } else {
        var parts := Split(s, sep);
        assert parts[1..] == rest[1..];
        if |rest| > 1 {
          assert Join(rest, sep) == rest[0] + [sep] + Join(rest[1..], sep);
        }
        assert s == [s[0]] + s[1..];
      }
    }
  }

  /** A string without the separator is one piece. */
  lemma {:induction false} SplitWithoutSeparator(s: string, sep: char)
    requires sep !in s
    ensures Split(s, sep) == [s]
    decreases |s|
  {
    if |s| > 0 {
      SplitWithoutSeparator(s[1..], sep);
      assert [s[0]] + s[1..] == s;
    }
  }

  /** a, the separator, then b, with neither holding the separator, splits into a and b. */
  lemma {:induction false} SplitAroundSeparator(a: string, b: string, sep: char)
    requires sep !in a && sep !in b
    ensures Split(a + [sep] + b, sep) == [a, b]
    decreases |a|
  {
    var s := a + [sep] + b;
    if |a| == 0 {
      assert s == [sep] + b;
      assert s[1..] == b;
      SplitWithoutSeparator(b, sep);
    } else {
      assert s[1..] == a[1..] + [sep] + b;
      SplitAroundSeparator(a[1..], b, sep);
      assert [a[0]] + a[1..] == a;
    }
  }

  // ------------------------------------------------------------ pace parse

  /** What the parse raises: too few pieces, or a piece `int()` does not read. */
  datatype ParseError = IndexError | ValueError

  /** `int(s)` on the strings modelled here: a run of ASCII digits, anything else raises. */
  function ParseInt(s: string): (r: Result<nat, ParseError>)
    ensures r.Ok? <==> IsNumeral(s)
    ensures r.Ok? ==> r.value == Value(s)
  {
    if IsNumeral(s) then Ok(Value(s)) else Err(ValueError)
  }

  /**
   * The pace parse in `update_completed_run`: `pace.split(":")`, then
   * `timedelta(minutes=int(parts[0]), seconds=int(parts[1]))`, as a number of
   * seconds. The minutes are read first, then the second piece is looked up, then
   * read; pieces after the second are ignored.
   */
  function ParsePace(pace: string): (r: Result<int, ParseError>)
    ensures var parts := Split(pace, ':');
      && (r.Ok? <==> IsNumeral(parts[0]) && |parts| >= 2 && IsNumeral(parts[1]))
      && (r.Ok? ==> r.value == 60 * Value(parts[0]) + Value(parts[1]))
      && (r == Err(IndexError) <==> IsNumeral(parts[0]) && |parts| < 2)
  {
    var parts := Split(pace, ':');
    match ParseInt(parts[0])
    case Err(e) => Err(e)
    case Ok(minutes) =>
      if |parts| < 2 then Err(IndexError)
      else
        match ParseInt(parts[1])
        case Err(e) => Err(e)
        case Ok(seconds) => Ok(60 * minutes + seconds)
  }

  lemma NumeralHasNoColon(s: string)
    requires IsNumeral(s)
    ensures ':' !in s
  {
    assert forall i :: 0 <= i < |s| ==> s[i] != ':' by {
      forall i | 0 <= i < |s|
        ensures s[i] != ':'
      {
        assert IsDigit(s[i]);
      }
    }
  }

  /** Reading back what `format_timedelta` shows gives the seconds within the day. */
  lemma ParseFormattedPace(td: Timedelta)
    requires td.Normalized()
    ensures ParsePace(FormatTimedelta(td)) == Ok(td.seconds)
  {
    var minutes, seconds := td.seconds / 60, td.seconds % 60;
    var mm, ss := ZeroFill(minutes, 2), ZeroFill(seconds, 2);
    NumeralHasNoColon(mm);
    NumeralHasNoColon(ss);
    SplitAroundSeparator(mm, ss, ':');
    assert FormatTimedelta(td) == mm + [':'] + ss;
  }
}
