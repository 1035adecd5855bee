/** The end-to-end runs of the repository's test class: build jobs, submit
    them to a new scheduler, drain it, and read the sorted log. */
module Scenarios {
  import opened Base
  import opened States
  import opened StartTimes
  import opened Jobs
  import opened LexOrder
  import opened Scheduling
  import opened SeqFacts

  /** `newScheduler(3)`, `submit` each job, `startScheduler`, `getList`:
      the list is the sorted log lines the jobs' oracles predict, whatever
      order each tier ran in. */
  method SubmitAndRun(jobs: seq<Job>) returns (list: seq<string>)
    ensures list == Sort(ExpectedLog(jobs))
  {
    var s := NewScheduler(3).value;
    var i := 0;
    while i < |jobs|
      invariant 0 <= i <= |jobs|
      invariant s.log == []
      invariant AllQueued(s.queue)
      invariant multiset(ExpectedLog(s.queue)) == multiset(ExpectedLog(jobs[..i]))
    {
      SubmitAddsExpected(s, jobs[i]);
      ExpectedLogPrefix(jobs, i);
      SubmitKeepsQueued(s, jobs[i]);
      s := Submit(s, jobs[i]);
      i := i + 1;
    }
    assert jobs[..i] == jobs;
    var r, tiers := StartScheduler(s);
    list := GetList(r);
    EmptyLogSort(ExpectedLog(s.queue));
    SortDeterminedByContents(ExpectedLog(s.queue), ExpectedLog(jobs));
  }

  /** Submitting `j` adds exactly its predicted log line: the queued copy
      differs from `j` only in its state, which the prediction ignores. */
  lemma SubmitAddsExpected(s: Scheduler, j: Job)
    ensures multiset(ExpectedLog(Submit(s, j).queue)) == multiset(ExpectedLog(s.queue)) + multiset{ExpectedEntry(j)}
  {
    var q := Submit(s, j).queue;
    assert q[..|q| - 1] == s.queue;
  }

  lemma ExpectedLogPrefix(jobs: seq<Job>, i: nat)
    requires i < |jobs|
    ensures multiset(ExpectedLog(jobs[..i + 1])) == multiset(ExpectedLog(jobs[..i])) + multiset{ExpectedEntry(jobs[i])}
  {
    assert jobs[..i + 1][..i] == jobs[..i];
  }

  lemma EmptyLogSort(log: seq<string>)
    ensures Sort([] + log) == Sort(log)
  {
    assert [] + log == log;
  }

  const Frameworks: string := "Write frameworks to file"
  const Brokers: string := "Write brokers to file"
  const TemplateEngines: string := "Write template engines to file"

  /** The log lines of the three test jobs when all end in `s`, in the
      order `getList` returns them: "Write brokers to file -> " followed by
      the state's message, then frameworks, then template engines. */
  function Lines(s: State): seq<string>
  {
    [Entry(Brokers, s), Entry(Frameworks, s), Entry(TemplateEngines, s)]
  }

  /** Two descriptions "Write x" and "Write y" whose first differing
      letter is the first of `x` and `y` give log lines in that order. */
  lemma EntriesOrdered(x: string, y: string, s: State)
    requires |x| > 0 && |y| > 0 && x[0] < y[0]
    ensures LexLeq(Entry("Write " + x, s), Entry("Write " + y, s))
  {
    var tail := " -> " + Message(s);
    AppendAssoc("Write " + x, " -> ", Message(s));
    AppendAssoc("Write " + y, " -> ", Message(s));
    AppendAssoc("Write ", x, tail);
    AppendAssoc("Write ", y, tail);
    assert (x + tail)[0] == x[0] && (y + tail)[0] == y[0];
    LexLeqCommonPrefix("Write ", x + tail, y + tail);
  }

  lemma BrokersSplit()
    ensures Brokers == "Write " + "brokers to file"
  {
  }

  lemma FrameworksSplit()
    ensures Frameworks == "Write " + "frameworks to file"
  {
  }

  lemma TemplateEnginesSplit()
    ensures TemplateEngines == "Write " + "template engines to file"
  {
  }

  /** The three lines sort brokers, frameworks, template engines. */
  lemma LinesSorted(s: State)
    ensures Sorted(Lines(s))
  {
    BrokersSplit();
    FrameworksSplit();
    TemplateEnginesSplit();
    EntriesOrdered("brokers to file", "frameworks to file", s);
    EntriesOrdered("frameworks to file", "template engines to file", s);
    EntriesOrdered("brokers to file", "template engines to file", s);
  }

  lemma ExpectedLogThree(a: Job, b: Job, c: Job)
    ensures ExpectedLog([a, b, c]) == [ExpectedEntry(a), ExpectedEntry(b), ExpectedEntry(c)]
  {
    assert ExpectedLog([a]) == [ExpectedEntry(a)] by {
      assert [a][..0] == [];
    }
    assert ExpectedLog([a, b]) == [ExpectedEntry(a)] + [ExpectedEntry(b)] by {
      assert [a, b][..1] == [a];
    }
    assert ExpectedLog([a, b, c]) == [ExpectedEntry(a), ExpectedEntry(b)] + [ExpectedEntry(c)] by {
      assert [a, b, c][..2] == [a, b];
    }
  }

  /** Jobs described frameworks, brokers, template engines, in that
      submission order, that all end in `s` predict `Lines(s)` once
      sorted. */
  lemma ThreeJobsLines(j1: Job, j2: Job, j3: Job, s: State)
    requires j1.description == Frameworks && FinalState(j1) == s
    requires j2.description == Brokers && FinalState(j2) == s
    requires j3.description == TemplateEngines && FinalState(j3) == s
    ensures Sort(ExpectedLog([j1, j2, j3])) == Lines(s)
  {
    ExpectedLogThree(j1, j2, j3);
    SwapFirstTwo(Entry(Frameworks, s), Entry(Brokers, s), Entry(TemplateEngines, s));
    SortDeterminedByContents(ExpectedLog([j1, j2, j3]), Lines(s));
    LinesSorted(s);
    SortKeepsSorted(Lines(s));
  }

  /** Priorities 1, 4, 3: three single-job tiers, all succeed. */
  method DifferentPrioritiesSucceed() returns (list: seq<string>)
    ensures list == Lines(Success)
  {
    var j1 := NewJob(1, Frameworks, false).value;
    var j2 := NewJob(4, Brokers, false).value;
    var j3 := NewJob(3, TemplateEngines, false).value;
    list := SubmitAndRun([j1, j2, j3]);
    ThreeJobsLines(j1, j2, j3, Success);
  }

  /** Priorities 3, 3, 3: one latch tier, all succeed. */
  method SamePrioritiesSucceed() returns (list: seq<string>)
    ensures list == Lines(Success)
  {
    var j1 := NewJob(3, Frameworks, false).value;
    var j2 := NewJob(3, Brokers, false).value;
    var j3 := NewJob(3, TemplateEngines, false).value;
    list := SubmitAndRun([j1, j2, j3]);
    ThreeJobsLines(j1, j2, j3, Success);
  }

  /** Priorities 4, 4, 2: a latch tier, then a single job, all succeed. */
  method LatchThenSingleSucceed() returns (list: seq<string>)
    ensures list == Lines(Success)
  {
    var j1 := NewJob(4, Frameworks, false).value;
    var j2 := NewJob(4, Brokers, false).value;
    var j3 := NewJob(2, TemplateEngines, false).value;
    list := SubmitAndRun([j1, j2, j3]);
    ThreeJobsLines(j1, j2, j3, Success);
  }

  /** Priorities 2, 4, 5, every `execute` throws. */
  method DifferentPrioritiesFail() returns (list: seq<string>)
    ensures list == Lines(Failed)
  {
    var j1 := NewJob(2, Frameworks, true).value;
    var j2 := NewJob(4, Brokers, true).value;
    var j3 := NewJob(5, TemplateEngines, true).value;
    list := SubmitAndRun([j1, j2, j3]);
    ThreeJobsLines(j1, j2, j3, Failed);
  }

  /** Priorities 3, 3, 3, every `execute` throws. */
  method SamePrioritiesFail() returns (list: seq<string>)
    ensures list == Lines(Failed)
  {
    var j1 := NewJob(3, Frameworks, true).value;
    var j2 := NewJob(3, Brokers, true).value;
    var j3 := NewJob(3, TemplateEngines, true).value;
    list := SubmitAndRun([j1, j2, j3]);
    ThreeJobsLines(j1, j2, j3, Failed);
  }

  /** Priorities 3, 3, 3 with a five-second start time, all succeed. */
  method DelayedSamePrioritiesSucceed() returns (list: seq<string>)
    ensures list == Lines(Success)
  {
    var delay := NewStartTime(5, Seconds).value;
    var j1 := NewJobAt(3, Frameworks, delay, false).value;
    var j2 := NewJobAt(3, Brokers, delay, false).value;
    var j3 := NewJobAt(3, TemplateEngines, delay, false).value;
    list := SubmitAndRun([j1, j2, j3]);
    ThreeJobsLines(j1, j2, j3, Success);
  }
}
