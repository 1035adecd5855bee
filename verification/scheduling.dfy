/** The scheduler (`job.scheduler.Scheduler`): submission, the tier-draining
    loop, the per-job state machine and the sorted outcome log.

    Threads are not modelled. Each tier (every queued job of the current
    highest priority) is polled and run as one sequential batch, in the
    order `poll` hands the jobs out; since that order is arbitrary among
    equal priorities, every order in which the tier's jobs could finish is
    covered, and the barrier (a blocking `Future.get` or the
    `CountDownLatch`) becomes "the batch ends before the loop goes on". */
module Scheduling {
  import opened Base
  import opened States
  import opened Jobs
  import opened JobQueues
  import opened LexOrder
  import opened SeqFacts

  /** The pending jobs and the outcome log. */
  datatype Scheduler = Scheduler(queue: seq<Job>, log: seq<string>)

  /** What `performJob` leaves behind: the job in its final state, the
      entry it appended to the log, and the states it set, in order. */
  datatype Outcome = Outcome(job: Job, entry: string, trace: seq<State>)

  /** One pass of the drain loop: the tier's priority, the jobs polled in
      polling order, and what running each of them produced. */
  datatype Tier = Tier(priority: int32, polled: seq<Job>, outcomes: seq<Outcome>)

  /** `newScheduler`: the queue is a `PriorityQueue` with the given initial
      capacity, which must be at least one. */
  function NewScheduler(initialSize: int32): (r: Result<Scheduler>)
    ensures r.Ok? <==> initialSize >= 1
    ensures r.Ok? ==> r.value.queue == [] && r.value.log == []
  {
    if initialSize < 1 then Err(IllegalArgument("")) else Ok(Scheduler([], []))
  }

  /** Every job waiting in the queue is marked queued. */
  predicate AllQueued(q: seq<Job>)
  {
    forall j :: j in q ==> j.state == Some(Queued)
  }

  /** Splitting a queue of queued jobs into the polled ones and the rest
      leaves both marked queued. */
  lemma {:induction false} QueuedSplit(q: seq<Job>, rest: seq<Job>, polled: seq<Job>)
    requires AllQueued(q)
    requires multiset(q) == multiset(rest) + multiset(polled)
    ensures AllQueued(rest) && AllQueued(polled)
  {
    forall x | x in rest ensures x.state == Some(Queued) {
      assert x in multiset(q);
    }
    forall x | x in polled ensures x.state == Some(Queued) {
      assert x in multiset(q);
    }
  }

  /** `submit`: the job enters the queue marked queued; nothing else changes. */
  function Submit(s: Scheduler, j: Job): (r: Scheduler)
    ensures multiset(r.queue) == multiset(s.queue) + multiset{SetState(j, Queued)}
    ensures |r.queue| == |s.queue| + 1
    ensures r.log == s.log
  {
    Scheduler(s.queue + [SetState(j, Queued)], s.log)
  }

  /** Submitting keeps every queued job marked queued. */
  lemma {:induction false} SubmitKeepsQueued(s: Scheduler, j: Job)
    requires AllQueued(s.queue)
    ensures AllQueued(Submit(s, j).queue)
  {
    var r := Submit(s, j);
    forall x | x in r.queue ensures x.state == Some(Queued) {
      assert x in multiset(r.queue);
    }
  }

  /** The log line for a job with this description that ended in `s`. */
  function Entry(description: string, s: State): string
  {
    description + " -> " + Message(s)
  }

  /** Reads the state back out of a log line written for `description`. */
  function EntryState(description: string, entry: string): (r: Option<State>)
    ensures r.Some? ==> entry == Entry(description, r.value)
  {
    var prefix := description + " -> ";
    if prefix <= entry then
      var rest := entry[|prefix|..];
      match FromMessage(rest)
      case Some(s) =>
        assert entry == prefix + rest;
        Some(s)
      case None => None
    else None
  }

  /** A log line determines the state it reports. */
  lemma EntryRoundTrip(description: string, s: State)
    ensures EntryState(description, Entry(description, s)) == Some(s)
  {
    var e := Entry(description, s);
    var prefix := description + " -> ";
    assert e == prefix + Message(s);
    assert e[|prefix|..] == Message(s);
    MessageRoundTrip(s);
  }

  /** The state a job ends in when run, decided by its `execute` oracle. */
  function FinalState(j: Job): State
  {
    if j.executeFails then Failed else Success
  }

  /** The log line a job produces when run. */
  function ExpectedEntry(j: Job): string
  {
    Entry(j.description, FinalState(j))
  }

  /** The log lines a sequence of jobs produces, one per job, in order. */
  function ExpectedLog(q: seq<Job>): (r: seq<string>)
    ensures |r| == |q|
  {
    if q == [] then [] else ExpectedLog(q[..|q| - 1]) + [ExpectedEntry(q[|q| - 1])]
  }

  /** `performJob`: mark the job running, run `execute`; on success mark it
      succeeded, on a `JobException` mark it failed and roll it back once;
      in both cases append "<description> -> <message>" to the log. */
  function PerformJob(j: Job): (r: Outcome)
    ensures r.job.priority == j.priority && r.job.description == j.description
    ensures r.job.startTime == j.startTime && r.job.executeFails == j.executeFails
    ensures r.job.state == Some(Success) <==> !j.executeFails
    ensures r.job.state == Some(Failed) <==> j.executeFails
    ensures r.job.state == Some(Success) ==> r.job.rollbacks == j.rollbacks
    ensures r.job.state == Some(Failed) ==> r.job.rollbacks == j.rollbacks + 1
    ensures |r.trace| == 2 && r.trace[0] == Running && r.job.state == Some(r.trace[1])
    ensures j.state == Some(Queued) ==> IsPath([j.state.value] + r.trace)
    ensures r.entry == Entry(j.description, r.trace[1])
    ensures r.entry == ExpectedEntry(j)
  {
    var running := SetState(j, Running);
    if !running.executeFails then
      var done := SetState(running, Success);
      Outcome(done, done.description + " -> " + Message(done.state.value),
              [running.state.value, done.state.value])
    else
      var failed := SetState(running, Failed);
      var rolledBack := Rollback(failed);
      Outcome(rolledBack, failed.description + " -> " + Message(failed.state.value),
              [running.state.value, failed.state.value])
  }

  /** Runs the jobs one after another. */
  function RunAll(js: seq<Job>): (r: seq<Outcome>)
    ensures |r| == |js|
  {
    if js == [] then [] else RunAll(js[..|js| - 1]) + [PerformJob(js[|js| - 1])]
  }

  /** The outcomes are what running the polled jobs produced, one each. */
  ghost predicate WellRun(t: Tier)
  {
    t.outcomes == RunAll(t.polled)
  }

  /** `t` is exactly the top tier of `before`, leaving `after`: every
      polled job has the tier's priority, no job was higher, and every job
      left is lower. */
  ghost predicate TopTier(before: multiset<Job>, t: Tier, after: multiset<Job>)
  {
    && |t.polled| > 0
    && before == after + multiset(t.polled)
    && (forall j :: j in t.polled ==> j.priority == t.priority)
    && (forall j :: j in before ==> j.priority <= t.priority)
    && (forall j :: j in after ==> j.priority < t.priority)
  }

  /** Taking the tiers in order, each the top tier of what was still
      pending, turns `pending` into `rest`. */
  ghost predicate DrainsTo(pending: multiset<Job>, tiers: seq<Tier>, rest: multiset<Job>)
    decreases |tiers|
  {
    if tiers == [] then rest == pending
    else
      var t := tiers[|tiers| - 1];
      var before := rest + multiset(t.polled);
      TopTier(before, t, rest) && DrainsTo(pending, tiers[..|tiers| - 1], before)
  }

  /** The log lines of a batch of outcomes, in order. */
  function Entries(os: seq<Outcome>): (r: seq<string>)
    ensures |r| == |os|
  {
    if os == [] then [] else Entries(os[..|os| - 1]) + [os[|os| - 1].entry]
  }

  /** The log lines of all tiers, tier after tier. */
  function LogOf(tiers: seq<Tier>): seq<string>
  {
    if tiers == [] then [] else LogOf(tiers[..|tiers| - 1]) + Entries(tiers[|tiers| - 1].outcomes)
  }

  /** All jobs polled, tier after tier. */
  function Polled(tiers: seq<Tier>): seq<Job>
  {
    if tiers == [] then [] else Polled(tiers[..|tiers| - 1]) + tiers[|tiers| - 1].polled
  }

  /** `getNumberOfJobsWithSamePriority`: the number of queued jobs sharing
      the head's priority, which is the maximal one; never zero. */
  method TierSize(q: seq<Job>) returns (k: nat)
    requires |q| > 0
    ensures k == Count(q, MaxPriority(q))
    ensures 1 <= k <= |q|
  {
    var head := Peek(q);
    k := 0;
    var i := 0;
    while i < |q|
      invariant 0 <= i <= |q|
      invariant k == Count(q[..i], head.priority)
    {
      assert q[..i + 1][..i] == q[..i];
      if q[i].priority == head.priority {
        k := k + 1;
      }
      i := i + 1;
    }
    assert q[..|q|] == q;
  }

  /** `poll` while every queued job is at most `p` and some job has
      priority `p`: the polled job has priority `p`. */
  method PollTop(q: seq<Job>, p: int32) returns (job: Job, rest: seq<Job>)
    requires Count(q, p) > 0
    requires forall j :: j in q ==> j.priority <= p
    ensures |rest| == |q| - 1
    ensures job.priority == p
    ensures multiset(q) == multiset(rest) + multiset{job}
    ensures Count(rest, p) == Count(q, p) - 1
    ensures forall j :: j in rest ==> j.priority <= p
  {
    job, rest := Poll(q);
    assert job.priority == p by {
      var i :| 0 <= i < |q| && q[i].priority == p;
      assert CompareTo(job, q[i]) <= 0;
    }
    forall j | j in rest ensures j.priority <= p {
      assert j in multiset(rest);
      assert j in multiset(q);
    }
  }

  /** Once no job of priority `p` is left and none is higher, the jobs
      polled form the top tier of what was queued before. */
  lemma {:induction false} TopTierDrained(q: seq<Job>, rest: seq<Job>, t: Tier)
    requires |t.polled| > 0
    requires multiset(q) == multiset(rest) + multiset(t.polled)
    requires forall j :: j in t.polled ==> j.priority == t.priority
    requires forall j :: j in q ==> j.priority <= t.priority
    requires Count(rest, t.priority) == 0
    ensures TopTier(multiset(q), t, multiset(rest))
  {
    forall j | j in multiset(rest) ensures j.priority < t.priority {
      assert j in multiset(q);
      var i :| 0 <= i < |rest| && rest[i] == j;
    }
  }

  /** One pass of the `startScheduler` loop: count the top tier, poll
      exactly that many jobs and run each before returning. A tier of one
      job takes the single-job branch, a larger tier the latch branch;
      both poll the whole tier and run every job of it. */
  method RunTier(q: seq<Job>, log: seq<string>) returns (q': seq<Job>, log': seq<string>, t: Tier)
    requires |q| > 0
    ensures |q'| < |q|
    ensures TopTier(multiset(q), t, multiset(q'))
    ensures WellRun(t)
    ensures log' == log + Entries(t.outcomes)
  {
    var p := MaxPriority(q);
    assert forall j :: j in q ==> j.priority <= p;
    var k := TierSize(q);
    if k == 1 {
      q', log', t := RunSingle(q, log, p);
    } else {
      q', log', t := RunBatch(q, log, p, k);
    }
    TopTierDrained(q, q', t);
  }

  /** The single-job branch: poll the one job of the top tier and wait for
      it to finish. */
  method RunSingle(q: seq<Job>, log: seq<string>, p: int32) returns (q': seq<Job>, log': seq<string>, t: Tier)
    requires Count(q, p) == 1
    requires forall j :: j in q ==> j.priority <= p
    ensures |q'| < |q|
    ensures t.priority == p && |t.polled| == 1
    ensures forall j :: j in t.polled ==> j.priority == p
    ensures Count(q', p) == 0
    ensures multiset(q) == multiset(q') + multiset(t.polled)
    ensures WellRun(t)
    ensures log' == log + Entries(t.outcomes)
  {
    var job, rest := PollTop(q, p);
    var outcome := PerformJob(job);
    q', log' := rest, log + [outcome.entry];
    t := Tier(p, [job], [outcome]);
    EntriesSnoc([], outcome);
    RunAllSnoc([], job);
  }

  lemma RunAllSnoc(js: seq<Job>, j: Job)
    ensures RunAll(js + [j]) == RunAll(js) + [PerformJob(j)]
  {
    assert (js + [j])[..|js|] == js;
  }

  lemma EntriesSnoc(os: seq<Outcome>, o: Outcome)
    ensures Entries(os + [o]) == Entries(os) + [o.entry]
  {
    assert (os + [o])[..|os|] == os;
  }

  /** The polling half of the latch branch: poll exactly `k` jobs, every
      one of the top priority `p`, leaving none of that priority behind. */
  method PollTier(q: seq<Job>, p: int32, k: nat) returns (polled: seq<Job>, rest: seq<Job>)
    requires 0 < k == Count(q, p)
    requires forall j :: j in q ==> j.priority <= p
    ensures |polled| == k
    ensures forall j :: j in polled ==> j.priority == p
    ensures Count(rest, p) == 0
    ensures multiset(q) == multiset(rest) + multiset(polled)
  {
    var remaining := k;
    polled, rest := [], q;
    while remaining > 0
      invariant |polled| + remaining == k
      invariant Count(rest, p) == remaining
      invariant forall j :: j in rest ==> j.priority <= p
      invariant multiset(q) == multiset(rest) + multiset(polled)
      invariant forall j :: j in polled ==> j.priority == p
    {
      remaining := remaining - 1;
      var job, rest' := PollTop(rest, p);
      polled, rest := polled + [job], rest';
    }
  }

  /** The latch branch: poll exactly `k` jobs of the top tier, run each,
      and return only when all of them have finished. */
  method RunBatch(q: seq<Job>, log: seq<string>, p: int32, k: nat) returns (q': seq<Job>, log': seq<string>, t: Tier)
    requires 0 < k == Count(q, p)
    requires forall j :: j in q ==> j.priority <= p
    ensures |q'| < |q|
    ensures t.priority == p && |t.polled| == k
    ensures forall j :: j in t.polled ==> j.priority == p
    ensures Count(q', p) == 0
    ensures multiset(q) == multiset(q') + multiset(t.polled)
    ensures WellRun(t)
    ensures log' == log + Entries(t.outcomes)
  {
    var polled;
    polled, q' := PollTier(q, p, k);
    t := Tier(p, polled, RunAll(polled));
    log' := log + Entries(t.outcomes);
    assert |multiset(q)| == |multiset(q')| + |multiset(polled)|;
  }

  /** Every tier ran each of its polled jobs once. */
  ghost predicate AllWellRun(tiers: seq<Tier>)
  {
    forall i :: 0 <= i < |tiers| ==> WellRun(tiers[i])
  }

  /** Appending the top tier of what is pending extends a drain. */
  lemma {:induction false} DrainSnoc(pending: multiset<Job>, tiers: seq<Tier>, t: Tier, before: multiset<Job>, rest: multiset<Job>)
    requires DrainsTo(pending, tiers, before)
    requires TopTier(before, t, rest)
    requires AllWellRun(tiers) && WellRun(t)
    ensures DrainsTo(pending, tiers + [t], rest)
    ensures AllWellRun(tiers + [t])
    ensures LogOf(tiers + [t]) == LogOf(tiers) + Entries(t.outcomes)
  {
    var ts := tiers + [t];
    assert ts[..|tiers|] == tiers;
    assert ts[|tiers|] == t;
    forall i | 0 <= i < |ts| ensures WellRun(ts[i]) {
      if i < |tiers| {
        assert ts[i] == tiers[i];
      }
    }
  }

  /** What the drain loop keeps: the tiers run so far drained the
      submitted jobs down to the queue, each ran its jobs, the log grew by
      exactly their lines, and the jobs still queued are marked queued. */
  ghost predicate Drained(s: Scheduler, tiers: seq<Tier>, q: seq<Job>, log: seq<string>)
  {
    && DrainsTo(multiset(s.queue), tiers, multiset(q))
    && AllWellRun(tiers)
    && log == s.log + LogOf(tiers)
    && AllQueued(q)
  }

  /** One iteration of the drain loop. */
  method DrainStep(s: Scheduler, tiers: seq<Tier>, q: seq<Job>, log: seq<string>)
    returns (tiers': seq<Tier>, q': seq<Job>, log': seq<string>)
    requires |q| > 0
    requires Drained(s, tiers, q, log)
    ensures |q'| < |q|
    ensures Drained(s, tiers', q', log')
  {
    var t;
    q', log', t := RunTier(q, log);
    DrainSnoc(multiset(s.queue), tiers, t, multiset(q), multiset(q'));
    QueuedSplit(q, q', t.polled);
    AppendAssoc(s.log, LogOf(tiers), Entries(t.outcomes));
    tiers' := tiers + [t];
  }

  /** `startScheduler`: while the queue is non-empty, run its top tier.
      Returns the drained scheduler and, for the record, the tiers in the
      order they ran. The queue ends empty; each tier was exactly the top
      tier of what was still queued, so tiers ran in strictly decreasing
      priority; every submitted job was polled once and left succeeded or
      failed; the log grew by one line per job; and the sorted log is
      determined by the submitted jobs alone. */
  method StartScheduler(s: Scheduler) returns (r: Scheduler, tiers: seq<Tier>)
    requires AllQueued(s.queue)
    ensures r.queue == []
    ensures Drained(s, tiers, r.queue, r.log)
    ensures RanInOrder(s, tiers)
    ensures |r.log| == |s.log| + |s.queue|
    ensures GetList(r) == Sort(s.log + ExpectedLog(s.queue))
  {
    var q := s.queue;
    var log := s.log;
    tiers := [];
    while |q| > 0
      invariant Drained(s, tiers, q, log)
      decreases |q|
    {
      tiers, q, log := DrainStep(s, tiers, q, log);
    }
    r := Scheduler(q, log);
    DrainGuarantees(s, r, tiers);
  }

  /** `getList`: a sorted copy of the log; the scheduler is left as it was. */
  function GetList(s: Scheduler): (r: seq<string>)
    ensures Sorted(r)
    ensures multiset(r) == multiset(s.log)
  {
    Sort(s.log)
  }

  /** Draining accounts for every job: what was pending is what the tiers
      polled plus what is left. */
  lemma {:induction false} DrainsToCovers(pending: multiset<Job>, tiers: seq<Tier>, rest: multiset<Job>)
    requires DrainsTo(pending, tiers, rest)
    ensures pending == multiset(Polled(tiers)) + rest
    decreases |tiers|
  {
    if tiers != [] {
      var t := tiers[|tiers| - 1];
      DrainsToCovers(pending, tiers[..|tiers| - 1], rest + multiset(t.polled));
    }
  }

  /** Whatever is still pending lies below every tier already run. */
  lemma {:induction false} RestBelowTiers(pending: multiset<Job>, tiers: seq<Tier>, rest: multiset<Job>)
    requires DrainsTo(pending, tiers, rest)
    ensures forall i, x :: 0 <= i < |tiers| && x in rest ==> x.priority < tiers[i].priority
    decreases |tiers|
  {
    if tiers != [] {
      var n := |tiers| - 1;
      var init := tiers[..n];
      var before := rest + multiset(tiers[n].polled);
      RestBelowTiers(pending, init, before);
      forall i, x | 0 <= i < |tiers| && x in rest ensures x.priority < tiers[i].priority {
        if i < n {
          assert x in before;
          assert tiers[i] == init[i];
        }
      }
    }
  }

  /** Tiers run in strictly decreasing priority. */
  lemma {:induction false} TiersDecrease(pending: multiset<Job>, tiers: seq<Tier>, rest: multiset<Job>)
    requires DrainsTo(pending, tiers, rest)
    ensures forall i, j :: 0 <= i < j < |tiers| ==> tiers[i].priority > tiers[j].priority
    decreases |tiers|
  {
    if tiers != [] {
      var n := |tiers| - 1;
      var t := tiers[n];
      var before := rest + multiset(t.polled);
      TiersDecrease(pending, tiers[..n], before);
      RestBelowTiers(pending, tiers[..n], before);
      assert t.polled[0] in before;
      forall i, j | 0 <= i < j < |tiers| ensures tiers[i].priority > tiers[j].priority {
        assert tiers[i] == tiers[..n][i];
        if j < n {
          assert tiers[j] == tiers[..n][j];
        }
      }
    }
  }

  /** The predicted log of two job sequences, one after the other, is
      their predicted logs one after the other. */
  lemma {:induction false} ExpectedLogConcat(a: seq<Job>, b: seq<Job>)
    ensures ExpectedLog(a + b) == ExpectedLog(a) + ExpectedLog(b)
    decreases |b|
  {
    if b == [] {
      assert a + b == a;
    } else {
      assert (a + b)[..|a + b| - 1] == a + b[..|b| - 1];
      ExpectedLogConcat(a, b[..|b| - 1]);
    }
  }

  /** Running jobs writes exactly the log lines their oracles predict. */
  lemma {:induction false} RunAllLogsExpected(js: seq<Job>)
    ensures Entries(RunAll(js)) == ExpectedLog(js)
    decreases |js|
  {
    if js != [] {
      var init := js[..|js| - 1];
      RunAllLogsExpected(init);
      EntriesSnoc(RunAll(init), PerformJob(js[|js| - 1]));
    }
  }

  /** The whole log is the predicted lines of all polled jobs, in polling
      order. */
  lemma {:induction false} LogOfIsExpected(tiers: seq<Tier>)
    requires AllWellRun(tiers)
    ensures LogOf(tiers) == ExpectedLog(Polled(tiers))
    decreases |tiers|
  {
    if tiers != [] {
      var n := |tiers| - 1;
      assert forall i :: 0 <= i < n ==> tiers[..n][i] == tiers[i];
      LogOfIsExpected(tiers[..n]);
      RunAllLogsExpected(tiers[n].polled);
      ExpectedLogConcat(Polled(tiers[..n]), tiers[n].polled);
    }
  }

  /** Taking a job out of the middle of a sequence takes exactly its
      predicted line out of the predicted log. */
  lemma ExpectedLogSplice(left: seq<Job>, x: Job, right: seq<Job>)
    ensures multiset(ExpectedLog(left + [x] + right))
         == multiset(ExpectedLog(left + right)) + multiset{ExpectedEntry(x)}
  {
    ExpectedLogConcat(left, [x]);
    ExpectedLogConcat(left + [x], right);
    ExpectedLogConcat(left, right);
    assert ExpectedLog([x]) == [ExpectedEntry(x)];
    MultisetSplice(ExpectedLog(left), ExpectedEntry(x), ExpectedLog(right));
  }

  /** Reordering the jobs only reorders their predicted log lines. */
  lemma {:induction false} ExpectedLogPermutation(a: seq<Job>, b: seq<Job>)
    requires multiset(a) == multiset(b)
    ensures multiset(ExpectedLog(a)) == multiset(ExpectedLog(b))
    decreases |a|
  {
    if a == [] {
      assert |multiset(b)| == 0;
    } else {
      var x := a[|a| - 1];
      assert x in multiset(b);
      var i :| 0 <= i < |b| && b[i] == x;
      PeelMatching(a, b, i);
      ExpectedLogPermutation(a[..|a| - 1], b[..i] + b[i + 1..]);
      ExpectedLogSplice(b[..i], x, b[i + 1..]);
    }
  }

  /** Every polled job of the tier ended succeeded or failed, having been
      marked running first (a lifecycle path when it came in queued), and
      its rollback ran once if it failed and never if it succeeded. */
  ghost predicate TierFinished(t: Tier)
  {
    && |t.outcomes| == |t.polled|
    && forall k :: 0 <= k < |t.polled| ==>
      var before := t.polled[k];
      var after := t.outcomes[k].job;
      && after.state.Some? && IsTerminal(after.state.value)
      && t.outcomes[k].trace == [Running, after.state.value]
      && (before.state == Some(Queued) ==> IsPath([Queued] + t.outcomes[k].trace))
      && (after.state == Some(Failed) <==> after.rollbacks == before.rollbacks + 1)
      && (after.state == Some(Success) <==> after.rollbacks == before.rollbacks)
  }

  /** A tier that ran its jobs leaves every one of them finished. */
  lemma RunTierFinishes(t: Tier)
    requires WellRun(t)
    ensures TierFinished(t)
  {
    forall k | 0 <= k < |t.polled| ensures t.outcomes[k] == PerformJob(t.polled[k]) {
      RunAllPointwise(t.polled, k);
    }
  }

  lemma AllTiersFinish(tiers: seq<Tier>)
    requires AllWellRun(tiers)
    ensures forall i :: 0 <= i < |tiers| ==> TierFinished(tiers[i])
  {
    forall i | 0 <= i < |tiers| ensures TierFinished(tiers[i]) {
      RunTierFinishes(tiers[i]);
    }
  }

  /** How a complete drain ran the submitted jobs: tiers in strictly
      decreasing priority, every submitted job polled exactly once and
      marked queued when polled, and every polled job left finished. */
  ghost predicate RanInOrder(s: Scheduler, tiers: seq<Tier>)
  {
    && (forall i, j :: 0 <= i < j < |tiers| ==> tiers[i].priority > tiers[j].priority)
    && multiset(Polled(tiers)) == multiset(s.queue)
    && AllQueued(Polled(tiers))
    && (forall i :: 0 <= i < |tiers| ==> TierFinished(tiers[i]))
  }

  /** What a full run of the scheduler guarantees: tiers in strictly
      decreasing priority, every submitted job polled exactly once and left
      finished, one log line per job, and a sorted log that depends only on
      the submitted jobs and not on the order the tiers' members ran in. */
  lemma {:induction false} DrainGuarantees(s: Scheduler, r: Scheduler, tiers: seq<Tier>)
    requires DrainsTo(multiset(s.queue), tiers, multiset{})
    requires AllWellRun(tiers)
    requires r.log == s.log + LogOf(tiers)
    requires AllQueued(s.queue)
    ensures RanInOrder(s, tiers)
    ensures |r.log| == |s.log| + |s.queue|
    ensures multiset(r.log) == multiset(s.log) + multiset(ExpectedLog(s.queue))
    ensures GetList(r) == Sort(s.log + ExpectedLog(s.queue))
  {
    TiersDecrease(multiset(s.queue), tiers, multiset{});
    DrainsToCovers(multiset(s.queue), tiers, multiset{});
    LogOfIsExpected(tiers);
    ExpectedLogPermutation(Polled(tiers), s.queue);
    AllTiersFinish(tiers);
    QueuedSplit(s.queue, [], Polled(tiers));
    assert |multiset(Polled(tiers))| == |s.queue|;
    SortDeterminedByContents(r.log, s.log + ExpectedLog(s.queue));
  }

  lemma {:induction false} RunAllPointwise(js: seq<Job>, k: nat)
    requires k < |js|
    ensures RunAll(js)[k] == PerformJob(js[k])
    decreases |js|
  {
    if k < |js| - 1 {
      RunAllPointwise(js[..|js| - 1], k);
    }
  }
}
