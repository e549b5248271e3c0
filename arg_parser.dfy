/**
 * The command-line settings of the dataset builder: their defaults, the three
 * ordered checks `validate_arguments` makes, and the settings handed back.
 */
module ArgParser {
  import opened Wrappers
  import opened Text

  /** The parsed `--county`, `--state`, `--months` and `--years` options. */
  datatype Arguments = Arguments(county: Option<string>, state: Option<string>, months: int, years: int)

  /** Why `validate_arguments` ends the program (it exits with status 1). */
  datatype ArgumentError =
    | CountyWithoutState
    | MonthsOutOfRange(months: int)
    | YearsOutOfRange(years: int)

  predicate CountyHasState(a: Arguments) { !(Truthy(a.county) && !Truthy(a.state)) }
  predicate MonthsInRange(a: Arguments) { 1 <= a.months <= 12 }
  predicate YearsInRange(a: Arguments) { 1 <= a.years <= 3 }

  /**
   * The first failing check, in the order county, months, years; `None` when the
   * arguments are accepted.
   */
  function ValidateArguments(a: Arguments): (err: Option<ArgumentError>)
    ensures err == None <==> CountyHasState(a) && MonthsInRange(a) && YearsInRange(a)
    ensures err == Some(CountyWithoutState) <==> !CountyHasState(a)
    ensures err == Some(MonthsOutOfRange(a.months)) <==> CountyHasState(a) && !MonthsInRange(a)
    ensures err == Some(YearsOutOfRange(a.years))
            <==> CountyHasState(a) && MonthsInRange(a) && !YearsInRange(a)
  {
    if Truthy(a.county) && !Truthy(a.state) then Some(CountyWithoutState)
    else if a.months < 1 || a.months > 12 then Some(MonthsOutOfRange(a.months))
    else if a.years < 1 || a.years > 3 then Some(YearsOutOfRange(a.years))
    else None
  }

  /** The argparse defaults: no county, no state, 12 months, 3 years. */
  function DefaultArguments(): (a: Arguments)
    ensures a.county == None && a.state == None && a.months == 12 && a.years == 3
    ensures ValidateArguments(a) == None
  {
    Arguments(None, None, 12, 3)
  }

  /**
   * `parse_arguments` after argparse has produced `a`: the validated settings,
   * unchanged, or the error that stops the program.
   */
  function ParseArguments(a: Arguments): (r: Result<Arguments, ArgumentError>)
    ensures r.Success? <==> ValidateArguments(a) == None
    ensures r.Success? ==> r.value == a
    ensures r.Failure? ==> Some(r.error) == ValidateArguments(a)
  {
    match ValidateArguments(a)
    case None => Success(a)
    case Some(e) => Failure(e)
  }
}
