/** The job lifecycle enum (`job.model.State`) and its fixed messages. */
module States {
  import opened Base

  /** The four lifecycle states; there are no others. */
  datatype State = Queued | Running | Success | Failed

  /** The message each constant carries (`getMessage`). */
  function Message(s: State): string
  {
    match s
    case Queued => "The job is the queue"
    case Running => "The job is running"
    case Success => "The job completed successfully"
    case Failed => "The job failed"
  }

  predicate IsTerminal(s: State)
  {
    s.Success? || s.Failed?
  }

  /** The transitions the scheduler performs: it queues a job, runs it,
      and then marks it succeeded or failed. */
  predicate CanStep(from: State, to: State)
  {
    (from == Queued && to == Running) || (from == Running && IsTerminal(to))
  }

  /** A sequence of states, each reached from its predecessor by one step. */
  predicate IsPath(trace: seq<State>)
  {
    forall i :: 0 < i < |trace| ==> CanStep(trace[i - 1], trace[i])
  }

  /** How far along the lifecycle a state is. */
  function Stage(s: State): nat
  {
    match s
    case Queued => 0
    case Running => 1
    case Success => 2
    case Failed => 2
  }

  /** Recovers the state a message belongs to, if any. */
  function FromMessage(m: string): (r: Option<State>)
    ensures r.Some? ==> Message(r.value) == m
    ensures r.None? ==> forall s: State :: Message(s) != m
  {
    if m == Message(Queued) then Some(Queued)
    else if m == Message(Running) then Some(Running)
    else if m == Message(Success) then Some(Success)
    else if m == Message(Failed) then Some(Failed)
    else None
  }

  /** Every state is one of the four constants. */
  lemma ExactlyFourStates(s: State)
    ensures s == Queued || s == Running || s == Success || s == Failed
  {
  }

  /** A message names exactly one state: reading it back gives that state. */
  lemma MessageRoundTrip(s: State)
    ensures FromMessage(Message(s)) == Some(s)
  {
  }

  /** The four messages are pairwise distinct. */
  lemma MessagesDistinct(s: State, t: State)
    ensures Message(s) == Message(t) <==> s == t
  {
    MessageRoundTrip(s);
    MessageRoundTrip(t);
  }

  /** Nothing follows a terminal state. */
  lemma TerminalIsFinal(s: State, t: State)
    requires IsTerminal(s)
    ensures !CanStep(s, t)
  {
  }

  /** Each step moves strictly forward, so along a path the stage strictly
      increases and no state is ever revisited. */
  lemma {:induction false} PathAdvances(trace: seq<State>, i: nat, j: nat)
    requires IsPath(trace)
    requires i < j < |trace|
    ensures Stage(trace[i]) < Stage(trace[j])
    ensures trace[i] != trace[j]
    decreases j - i
  {
    assert CanStep(trace[j - 1], trace[j]);
    if i < j - 1 {
      PathAdvances(trace, i, j - 1);
    }
  }

  /** A lifecycle path visits at most three stages. */
  lemma PathIsShort(trace: seq<State>)
    requires IsPath(trace)
    ensures |trace| <= 3
  {
    if |trace| > 3 {
      PathAdvances(trace, 0, 1);
      PathAdvances(trace, 1, 2);
      PathAdvances(trace, 2, 3);
      assert false;
    }
  }
}
