/** Tasks pushed to any number of workers and results pulled back in any order. */
module ScatterGather {
  import opened Logs

  const SIZE_T := 0x1_0000_0000_0000_0000

  /** TaskWorker::work on one task. */
  function Work(data: nat): nat {
    data / 2
  }

  function Itself(): nat -> int {
    (n: nat) => n
  }

  function Halved(): nat -> int {
    (n: nat) => Work(n)
  }

  /** The halves of the tasks from `next` up to but not including `count`. */
  function Unsent(next: nat, count: nat): nat
    requires next <= count
    decreases count - next
  {
    if next == count then 0 else Work(next) + Unsent(next + 1, count)
  }

  /** `taken` is history: the results collected so far, in order. */
  datatype State = State(count: nat, next: nat, tasks: seq<nat>, results: seq<nat>, taken: seq<nat>, sum: nat)

  datatype Action = Distribute | DoTask(n: nat) | Collect(n: nat)

  /** Any worker may get any waiting task next, and any waiting result may be pulled next. */
  predicate Enabled(s: State, a: Action) {
    match a
    case Distribute => s.next < s.count
    case DoTask(n) => n < |s.tasks|
    case Collect(n) => n < |s.results| && |s.taken| < s.count
  }

  function Apply(s: State, a: Action): State
    requires Enabled(s, a)
  {
    match a
    case Distribute => s.(tasks := s.tasks + [s.next], next := s.next + 1)
    case DoTask(n) => s.(tasks := Without(s.tasks, n), results := s.results + [Work(s.tasks[n])])
    case Collect(n) =>
      s.(results := Without(s.results, n), taken := s.taken + [s.results[n]], sum := (s.sum + s.results[n]) % SIZE_T)
  }

  /** Collected, in results, in tasks and still unsent: the halves of all tasks, wherever they are. */
  function Mass(s: State): int
    requires s.next <= s.count
  {
    Sum(s.taken, Itself()) + Sum(s.results, Itself()) + Sum(s.tasks, Halved()) + Unsent(s.next, s.count)
  }

  predicate Inv(s: State) {
    && s.next <= s.count
    && Mass(s) == Unsent(0, s.count)
    && |s.taken| + |s.results| + |s.tasks| == s.next
    && s.sum == Sum(s.taken, Itself()) % SIZE_T
  }

  lemma AddModulo(a: int, b: int)
    ensures (a % SIZE_T + b) % SIZE_T == (a + b) % SIZE_T
  {
    assert a == SIZE_T * (a / SIZE_T) + a % SIZE_T;
    var c := a % SIZE_T + b;
    assert a + b == SIZE_T * (a / SIZE_T) + c;
    assert (SIZE_T * (a / SIZE_T) + c) % SIZE_T == c % SIZE_T;
  }

  lemma StepKeepsInv(s: State, a: Action)
    requires Inv(s) && Enabled(s, a)
    ensures Inv(Apply(s, a))
  {
    match a
    case Distribute =>
      SumAppend(s.tasks, s.next, Halved());
    case DoTask(n) =>
      SumWithout(s.tasks, n, Halved());
      SumAppend(s.results, Work(s.tasks[n]), Itself());
    case Collect(n) =>
      SumWithout(s.results, n, Itself());
      SumAppend(s.taken, s.results[n], Itself());
      AddModulo(Sum(s.taken, Itself()), s.results[n]);
  }

  function InitialState(count: nat): State {
    State(count, 0, [], [], [], 0)
  }

  ghost predicate Runs(s: State, run: seq<Action>)
    decreases |run|
  {
    run == [] || (Enabled(s, run[0]) && Runs(Apply(s, run[0]), run[1..]))
  }

  ghost function After(s: State, run: seq<Action>): State
    requires Runs(s, run)
    decreases |run|
  {
    if run == [] then s else After(Apply(s, run[0]), run[1..])
  }

  lemma {:induction false} RunKeepsInv(s: State, run: seq<Action>)
    requires Inv(s) && Runs(s, run)
    ensures Inv(After(s, run)) && After(s, run).count == s.count
    decreases |run|
  {
    hide Inv;
    if run != [] {
      StepKeepsInv(s, run[0]);
      RunKeepsInv(Apply(s, run[0]), run[1..]);
    }
  }

  lemma {:induction false} UnsentSplit(next: nat, count: nat)
    requires next <= count
    ensures Unsent(next, count + 1) == Unsent(next, count) + Work(count)
    decreases count - next
  {
    if next < count {
      UnsentSplit(next + 1, count);
    }
  }

  lemma QuarterOfSquare(m: nat)
    ensures (2 * m) * (2 * m) / 4 == m * m
    ensures (2 * m + 1) * (2 * m + 1) / 4 == m * m + m
  {
    assert (2 * m) * (2 * m) == 4 * (m * m);
    assert (2 * m + 1) * (2 * m + 1) == 4 * (m * m + m) + 1;
  }

  /** The halves of the tasks below an even and below an odd number. */
  lemma {:induction false} TotalsByParity(m: nat)
    ensures Unsent(0, 2 * m + 1) == m * m && Unsent(0, 2 * m + 2) == m * m + m
  {
    if m > 0 {
      TotalsByParity(m - 1);
      UnsentSplit(0, 2 * m);
      assert (m - 1) * (m - 1) + (m - 1) + m == m * m;
    }
    UnsentSplit(0, 2 * m + 1);
  }

  /** The total of all halves is the quarter of a square, rounded down. */
  lemma TotalOfHalves(count: nat)
    requires count >= 1
    ensures Unsent(0, count) == (count - 1) * (count - 1) / 4
  {
    var m := (count - 1) / 2;
    TotalsByParity(m);
    QuarterOfSquare(m);
    assert count == 2 * m + 1 || count == 2 * m + 2;
  }

  lemma {:induction false} MassConserved(s: State, run: seq<Action>)
    requires s.next <= s.count && Runs(s, run)
    ensures After(s, run).next <= After(s, run).count && Mass(After(s, run)) == Mass(s)
    decreases |run|
  {
    hide Mass;
    if run != [] {
      StepConserves(s, run[0]);
      MassConserved(Apply(s, run[0]), run[1..]);
    }
  }

  lemma StepConserves(s: State, a: Action)
    requires s.next <= s.count && Enabled(s, a)
    ensures Apply(s, a).next <= Apply(s, a).count && Mass(Apply(s, a)) == Mass(s)
  {
    match a
    case Distribute =>
      SumAppend(s.tasks, s.next, Halved());
    case DoTask(n) =>
      SumWithout(s.tasks, n, Halved());
      SumAppend(s.results, Work(s.tasks[n]), Itself());
    case Collect(n) =>
      SumWithout(s.results, n, Itself());
      SumAppend(s.taken, s.results[n], Itself());
  }

  /** The steps that are still to be taken: three for each task unsent, two for one sent, one for a result. */
  function StepsLeft(s: State): int {
    3 * (s.count - s.next) + 2 * |s.tasks| + |s.results|
  }

  /** No run is longer than the steps left at its start, and each of its steps counts. */
  lemma {:induction false} RunTakesSteps(s: State, run: seq<Action>)
    requires Runs(s, run)
    ensures |run| + StepsLeft(After(s, run)) == StepsLeft(s)
    decreases |run|
  {
    if run != [] {
      RunTakesSteps(Apply(s, run[0]), run[1..]);
    }
  }

  /**
   * When the sink has taken as many results as there are tasks, its sum is the quarter of
   * (count - 1) squared, rounded down, in size_t arithmetic, whatever the distribution and the order;
   * that is so after exactly three steps for each task, and until then some step can be taken.
   */
  lemma SinkTotal(count: nat, run: seq<Action>)
    requires count >= 1 && Runs(InitialState(count), run)
    ensures var s := After(InitialState(count), run);
            if |s.taken| == count then s.sum == ((count - 1) * (count - 1) / 4) % SIZE_T
            else exists a :: Enabled(s, a)
    ensures |run| <= 3 * count
    ensures |After(InitialState(count), run).taken| == count <==> |run| == 3 * count
  {
    RunTakesSteps(InitialState(count), run);
    RunKeepsInv(InitialState(count), run);
    TotalOfHalves(count);
    var s := After(InitialState(count), run);
    if |s.taken| == count {
      assert s.results == [] && s.tasks == [];
    } else if s.next < count {
      assert Enabled(s, Distribute);
    } else if s.tasks != [] {
      assert Enabled(s, DoTask(0));
    } else {
      assert Enabled(s, Collect(0));
    }
  }

  /** The loop of distributeTasks, with what it pushes. */
  method DistributeTasks(count: nat) returns (pushed: seq<nat>)
    ensures |pushed| == count && forall i :: 0 <= i < count ==> pushed[i] == i
  {
    pushed := [];
    for i := 0 to count
      invariant |pushed| == i && forall j :: 0 <= j < i ==> pushed[j] == j
    {
      pushed := pushed + [i];
    }
  }

  /** The loop of collectResults, on the results in the order it pulls them. */
  method CollectResults(pulled: seq<nat>) returns (sum: nat)
    ensures sum == Sum(pulled, Itself()) % SIZE_T
  {
    sum := 0;
    for i := 0 to |pulled|
      invariant sum == Sum(pulled[..i], Itself()) % SIZE_T
    {
      assert pulled[..i + 1] == pulled[..i] + [pulled[i]];
      SumAppend(pulled[..i], pulled[i], Itself());
      AddModulo(Sum(pulled[..i], Itself()), pulled[i]);
      sum := (sum + pulled[i]) % SIZE_T;
    }
    assert pulled[..|pulled|] == pulled;
  }
}
