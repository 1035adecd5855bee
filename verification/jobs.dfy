/** The abstract job (`job.Job`): validated priority and description, a
    start delay, the lifecycle state the scheduler writes, and the
    descending-priority natural order. */
module Jobs {
  import opened Base
  import opened States
  import opened StartTimes

  /** A job. `state` is `None` until the job is submitted (the Java field
      starts out `null`). `execute` and `rollback` are the subclass's
      business: `executeFails` says whether `execute` throws a
      `JobException`, and `rollbacks` counts the calls of `rollback`. */
  datatype Job = Job(
    priority: int32,
    description: string,
    startTime: StartTime,
    state: Option<State>,
    executeFails: bool,
    rollbacks: nat)

  const NonPositivePriorityMessage: string := "The priority must not be zero or negative"

  /** The start time a job gets when none is given: zero seconds. */
  const DefaultStartTime: StartTime := StartTime(0, Seconds)

  /** The two-argument constructor: refuses a priority of zero or less,
      otherwise keeps priority and description and starts with no delay. */
  function NewJob(priority: int32, description: string, executeFails: bool): (r: Result<Job>)
    ensures r.Ok? <==> priority > 0
    ensures r.Ok? ==>
      && r.value.priority == priority
      && r.value.description == description
      && NewStartTime(0, Seconds) == Ok(r.value.startTime)
      && r.value.state == None
      && r.value.executeFails == executeFails
      && r.value.rollbacks == 0
    ensures r.Err? ==> r.error == IllegalArgument(NonPositivePriorityMessage)
  {
    if priority <= 0 then Err(IllegalArgument(NonPositivePriorityMessage))
    else Ok(Job(priority, description, DefaultStartTime, None, executeFails, 0))
  }

  /** The three-argument constructor: validates exactly as the
      two-argument one and then replaces only the start time. */
  function NewJobAt(priority: int32, description: string, startTime: StartTime,
                    executeFails: bool): (r: Result<Job>)
    ensures r.Ok? <==> NewJob(priority, description, executeFails).Ok?
    ensures r.Ok? ==>
      && r.value.startTime == startTime
      && r.value.(startTime := DefaultStartTime) == NewJob(priority, description, executeFails).value
    ensures r.Err? ==> r == NewJob(priority, description, executeFails)
  {
    match NewJob(priority, description, executeFails)
    case Err(e) => Err(e)
    case Ok(j) => Ok(j.(startTime := startTime))
  }

  /** `setState`: afterwards `getState` returns `s`, and no other field moves. */
  function SetState(j: Job, s: State): (r: Job)
    ensures r.state == Some(s)
    ensures r.(state := j.state) == j
  {
    j.(state := Some(s))
  }

  /** The job's compensating action ran once more. */
  function Rollback(j: Job): (r: Job)
    ensures r.rollbacks == j.rollbacks + 1
    ensures r.(rollbacks := j.rollbacks) == j
  {
    j.(rollbacks := j.rollbacks + 1)
  }

  /** `Integer.compare`: negative, zero or positive as `x` is below,
      equal to or above `y`. */
  function IntegerCompare(x: int32, y: int32): (r: int32)
    ensures r < 0 <==> x < y
    ensures r == 0 <==> x == y
    ensures r > 0 <==> x > y
  {
    if x < y then -1 else if x == y then 0 else 1
  }

  function Sign(x: int): int
  {
    if x < 0 then -1 else if x == 0 then 0 else 1
  }

  /** `compareTo`: the argument order is swapped, so the natural order is
      by DESCENDING priority and the least job is one of highest priority. */
  function CompareTo(a: Job, b: Job): (r: int32)
    ensures r < 0 <==> a.priority > b.priority
    ensures r == 0 <==> a.priority == b.priority
    ensures r > 0 <==> a.priority < b.priority
  {
    IntegerCompare(b.priority, a.priority)
  }

  /** The order is antisymmetric. */
  lemma CompareToAntisymmetric(a: Job, b: Job)
    ensures Sign(CompareTo(a, b) as int) == -Sign(CompareTo(b, a) as int)
  {
  }

  /** The order is transitive, both strictly and non-strictly. */
  lemma CompareToTransitive(a: Job, b: Job, c: Job)
    ensures CompareTo(a, b) <= 0 && CompareTo(b, c) <= 0 ==> CompareTo(a, c) <= 0
    ensures CompareTo(a, b) < 0 && CompareTo(b, c) < 0 ==> CompareTo(a, c) < 0
  {
  }
}
