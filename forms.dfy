/**
 * The sign-up form's field validators: the race date must fall in the window the
 * plan generator accepts, and the date of birth must give an adult of at most
 * 120 years. `date.today()` is a parameter.
 */
module Forms {
  import opened Wrappers
  import opened Dates
  import opened Catalog
  import opened PlanFormulas
  import Decimal

  /** A `ValidationError` and its message, or the exception `date - timedelta` raises below year 1. */
  datatype FieldError = ValidationError(message: string) | OverflowError

  const MARATHON_IN_PAST := "The date of the marathon must be in the future."
  const MARATHON_TOO_SOON := "The date of the marathon must be at least " + Decimal.Show(MIN_DAYS) + " days from today."
  const MARATHON_TOO_LATE := "The date of the marathon must be less than " + Decimal.Show(MAX_DAYS) + " days from today."

  /** The f-strings with the window's bounds filled in. */
  lemma MarathonMessages()
    ensures MARATHON_TOO_SOON == "The date of the marathon must be at least 90 days from today."
    ensures MARATHON_TOO_LATE == "The date of the marathon must be less than 365 days from today."
  {
    assert Decimal.Show(90) == "90" by {
      assert Decimal.Show(9) == "9";
    }
    assert Decimal.Show(365) == "365" by {
      assert Decimal.Show(36) == "36" by {
        assert Decimal.Show(3) == "3";
      }
    }
  }

  /**
   * `clean_date_of_marathon`: an absent date passes through; a present one is
   * returned unchanged exactly when it lies in the window the plan generator
   * accepts, and is otherwise rejected with the message of the first check it
   * fails: not after today, then too soon, then too late.
   */
  function CleanDateOfMarathon(dateOfMarathon: Option<Date>, today: Date): (r: Result<Option<Date>, FieldError>)
    ensures dateOfMarathon.None? ==> r == Ok(None)
    ensures dateOfMarathon.Some? ==> (r.Ok? <==> MarathonDateAllowed(today, dateOfMarathon.value))
    ensures r.Ok? ==> r.value == dateOfMarathon
    ensures r.Err? ==> r.error in {ValidationError(MARATHON_IN_PAST), ValidationError(MARATHON_TOO_SOON), ValidationError(MARATHON_TOO_LATE)}
  {
    match dateOfMarathon
    case None => Ok(None)
    case Some(d) =>
      if d <= today then Err(ValidationError(MARATHON_IN_PAST))
      else if d < today + MIN_DAYS then Err(ValidationError(MARATHON_TOO_SOON))
      else if d > today + MAX_DAYS then Err(ValidationError(MARATHON_TOO_LATE))
      else Ok(dateOfMarathon)
  }

  /** Which message a rejected race date gets: the past check comes first, then the lower bound, then the upper. */
  lemma MarathonRejections(d: Date, today: Date)
    ensures d <= today ==> CleanDateOfMarathon(Some(d), today) == Err(ValidationError(MARATHON_IN_PAST))
    ensures today < d < today + MIN_DAYS ==> CleanDateOfMarathon(Some(d), today) == Err(ValidationError(MARATHON_TOO_SOON))
    ensures d > today + MAX_DAYS ==> CleanDateOfMarathon(Some(d), today) == Err(ValidationError(MARATHON_TOO_LATE))
  {
  }

  const DOB_REQUIRED := "Date of birth required"
  const TOO_YOUNG := "You must be at least 18 years old to register."
  const DOB_IN_FUTURE := "Your date of birth cannot be in the future"
  const DOB_TOO_OLD := "Please enter a valid date of birth"

  /** `timedelta(days=365*120)`: the oldest date of birth accepted is this many days before today. */
  const MAX_AGE_DAYS := 365 * 120

  /** `today.year - dob.year - ((today.month, today.day) < (dob.month, dob.day))`. */
  function Age(today: CivilDate, dob: CivilDate): int {
    var beforeBirthday := today.month < dob.month || (today.month == dob.month && today.day < dob.day);
    today.year - dob.year - (if beforeBirthday then 1 else 0)
  }

  /**
   * `clean_dob`: a missing date is rejected first. Then `today - 120 years` is
   * computed, which raises when it would fall before 0001-01-01. Then an age under
   * 18, a date of birth on or after today, and one before the 120-year limit are
   * rejected in turn; otherwise the date is returned unchanged.
   */
  function CleanDob(dob: Option<CivilDate>, today: CivilDate): (r: Result<CivilDate, FieldError>)
    requires ValidCivil(today) && (dob.Some? ==> ValidCivil(dob.value))
    ensures dob.None? <==> r == Err(ValidationError(DOB_REQUIRED))
    ensures r == Err(OverflowError) <==> dob.Some? && ToOrdinal(today) - MAX_AGE_DAYS < 1
    ensures r.Ok? <==>
      && dob.Some? && ToOrdinal(today) - MAX_AGE_DAYS >= 1
      && Age(today, dob.value) >= 18
      && ToOrdinal(today) - MAX_AGE_DAYS <= ToOrdinal(dob.value) < ToOrdinal(today)
    ensures r.Ok? ==> dob == Some(r.value)
  {
    match dob
    case None => Err(ValidationError(DOB_REQUIRED))
    case Some(birth) =>
      var todayOrdinal := ToOrdinal(today);
      if todayOrdinal - MAX_AGE_DAYS < 1 then Err(OverflowError)
      else
        var dateLimit := todayOrdinal - MAX_AGE_DAYS;
        if Age(today, birth) < 18 then Err(ValidationError(TOO_YOUNG))
        else if ToOrdinal(birth) >= todayOrdinal then Err(ValidationError(DOB_IN_FUTURE))
        else if ToOrdinal(birth) < dateLimit then Err(ValidationError(DOB_TOO_OLD))
        else Ok(birth)
  }

  /**
   * Which message each rejection of `clean_dob` raises once the date limit is
   * computed: an age under 18 is "too young"; an adult born before the 120-year
   * limit is "not a valid date of birth".
   */
  lemma CleanDobRejections(dob: CivilDate, today: CivilDate)
    requires ValidCivil(today) && ValidCivil(dob)
    ensures ToOrdinal(today) - MAX_AGE_DAYS >= 1 && Age(today, dob) < 18 ==>
      CleanDob(Some(dob), today) == Err(ValidationError(TOO_YOUNG))
    ensures ToOrdinal(today) - MAX_AGE_DAYS >= 1 && Age(today, dob) >= 18 && ToOrdinal(dob) < ToOrdinal(today) - MAX_AGE_DAYS ==>
      CleanDob(Some(dob), today) == Err(ValidationError(DOB_TOO_OLD))
  {
    if Age(today, dob) >= 18 {
      AdultBornEarlier(today, dob);
    }
  }

  /** Someone at least a year old was born on an earlier date. */
  lemma AdultBornEarlier(today: CivilDate, dob: CivilDate)
    requires ValidCivil(today) && ValidCivil(dob) && Age(today, dob) >= 1
    ensures ToOrdinal(dob) < ToOrdinal(today)
  {
    EarlierYearEarlierDate(dob, today);
  }

  /**
   * The future-date check of `clean_dob` never fires: it comes after the age check,
   * and an age of 18 or more already puts the date of birth before today.
   */
  lemma DobFutureCheckUnreachable(dob: Option<CivilDate>, today: CivilDate)
    requires ValidCivil(today) && (dob.Some? ==> ValidCivil(dob.value))
    ensures CleanDob(dob, today) != Err(ValidationError(DOB_IN_FUTURE))
  {
    if dob.Some? && Age(today, dob.value) >= 18 {
      AdultBornEarlier(today, dob.value);
    }
  }

  /** The date limit raises only for a today within the first 120 * 365 days of year 1. */
  lemma DobOverflowOnlyInYearsBefore121(dob: CivilDate, today: CivilDate)
    requires ValidCivil(today) && ValidCivil(dob) && today.year >= 121
    ensures CleanDob(Some(dob), today) != Err(OverflowError)
  {
    DaysBeforeYearMonotone(121, today.year);
  }
}
