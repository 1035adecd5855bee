/** The scheduler's `PriorityQueue<Job>` ordered by `Job.compareTo`. Its
    contents are a sequence whose order carries no meaning; `peek` and
    `poll` may return ANY job that is least under `compareTo`, so ties
    between jobs of equal priority are broken arbitrarily. */
module JobQueues {
  import opened Base
  import opened Jobs

  /** How many jobs in `q` have priority `p`. */
  function Count(q: seq<Job>, p: int32): (n: nat)
    ensures n <= |q|
    ensures n == 0 <==> forall i :: 0 <= i < |q| ==> q[i].priority != p
  {
    if q == [] then 0
    else Count(q[..|q| - 1], p) + (if q[|q| - 1].priority == p then 1 else 0)
  }

  lemma {:induction false} CountConcat(a: seq<Job>, b: seq<Job>, p: int32)
    ensures Count(a + b, p) == Count(a, p) + Count(b, p)
    decreases |b|
  {
    if b == [] {
      assert a + b == a;
    } else {
      assert (a + b)[..|a + b| - 1] == a + b[..|b| - 1];
      CountConcat(a, b[..|b| - 1], p);
    }
  }

  /** The highest priority in a non-empty queue. */
  function MaxPriority(q: seq<Job>): (p: int32)
    requires |q| > 0
    ensures forall i :: 0 <= i < |q| ==> q[i].priority <= p
    ensures exists i :: 0 <= i < |q| && q[i].priority == p
  {
    if |q| == 1 then q[0].priority
    else
      var m := MaxPriority(q[..|q| - 1]);
      if q[|q| - 1].priority > m then q[|q| - 1].priority else m
  }

  /** `peek`: a job no other job precedes under `compareTo`, hence one of
      maximal priority. */
  method Peek(q: seq<Job>) returns (head: Job)
    requires |q| > 0
    ensures head in q
    ensures forall i :: 0 <= i < |q| ==> CompareTo(head, q[i]) <= 0
    ensures head.priority == MaxPriority(q)
  {
    var p := MaxPriority(q);
    var h :| 0 <= h < |q| && q[h].priority == p;
    head := q[h];
  }

  /** `poll`: removes and returns a job no other job precedes under
      `compareTo`. Exactly one entry leaves the queue. */
  method Poll(q: seq<Job>) returns (head: Job, rest: seq<Job>)
    requires |q| > 0
    ensures head in q
    ensures forall i :: 0 <= i < |q| ==> CompareTo(head, q[i]) <= 0
    ensures multiset(q) == multiset(rest) + multiset{head}
    ensures |rest| == |q| - 1
    ensures forall p :: Count(rest, p) == Count(q, p) - (if head.priority == p then 1 else 0)
  {
    var p := MaxPriority(q);
    var h :| 0 <= h < |q| && q[h].priority == p;
    head := q[h];
    rest := q[..h] + q[h + 1..];
    assert q == q[..h] + [head] + q[h + 1..];
    forall p' ensures Count(rest, p') == Count(q, p') - (if head.priority == p' then 1 else 0) {
      CountConcat(q[..h], q[h + 1..], p');
      CountConcat(q[..h], [head], p');
      CountConcat(q[..h] + [head], q[h + 1..], p');
      assert Count([head], p') == Count([], p') + (if head.priority == p' then 1 else 0);
    }
  }
}
