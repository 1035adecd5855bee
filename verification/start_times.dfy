/** The start delay of a job (`job.model.StartTime`): an amount and a time
    unit, fixed at construction. */
module StartTimes {
  import opened Base

  /** The constants of `java.util.concurrent.TimeUnit`, as plain data. */
  datatype TimeUnit =
    Nanoseconds | Microseconds | Milliseconds | Seconds | Minutes | Hours | Days

  /** The fields `getValue` and `getTimeUnit` return; no method changes them. */
  datatype StartTime = StartTime(value: int32, timeUnit: TimeUnit)

  const NegativeValueMessage: string := "Value Must not be negative"

  /** The constructor: a negative amount is refused, anything else is kept
      together with the unit exactly as given. */
  function NewStartTime(value: int32, timeUnit: TimeUnit): (r: Result<StartTime>)
    ensures r.Ok? <==> value >= 0
    ensures r.Ok? ==> r.value.value == value && r.value.timeUnit == timeUnit
    ensures r.Err? ==> r.error == IllegalArgument(NegativeValueMessage)
  {
    if value < 0 then Err(IllegalArgument(NegativeValueMessage))
    else Ok(StartTime(value, timeUnit))
  }

  /** The invariant every constructed start time keeps. */
  predicate Valid(t: StartTime)
  {
    t.value >= 0
  }

  /** A start time exists only if it is valid, and a valid one is rebuilt
      from its own accessors. */
  lemma ConstructedIsValid(value: int32, timeUnit: TimeUnit)
    ensures NewStartTime(value, timeUnit).Ok? ==> Valid(NewStartTime(value, timeUnit).value)
    ensures forall t: StartTime :: Valid(t) ==> NewStartTime(t.value, t.timeUnit) == Ok(t)
  {
  }

  /** A zero delay is accepted; the default start time of a job is built
      from it. */
  lemma ZeroAccepted(timeUnit: TimeUnit)
    ensures NewStartTime(0, timeUnit) == Ok(StartTime(0, timeUnit))
  {
  }
}
