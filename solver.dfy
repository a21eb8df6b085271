/** The root finder and the worker loop of src/solver.h. */
module Solver {
  import opened Pipe
  import opened Equation

  /** `near_0`: magnitude below the comparison precision. */
  predicate NearZero(v: real): (b: bool)
    ensures b <==> -Eps < v < Eps
  {
    Abs(v) < Eps
  }

  /** The template parameter `issues_count` is a C++ `int`. */
  newtype int32 = x: int | -0x8000_0000 <= x < 0x8000_0000

  /** `issues_count` as the `std::size_t` argument of `pop`: a negative count
      wraps around to a huge request. */
  function RequestCount(n: int32): (r: nat)
    ensures r == 0 <==> n == 0
    ensures 0 <= n ==> r == n as int
    ensures n < 0 ==> r >= 0x8000_0000_0000_0000
  {
    if n >= 0 then n as int else n as int + 0x1_0000_0000_0000_0000
  }

  /** The "regular square equation" branch, shared by both versions of the
      solver: one root when the discriminant is near zero, none when it is
      negative, otherwise the plus-root followed by the minus-root. */
  function DiscriminantRoots(e: Issue, sqrt: real -> real): (r: seq<real>)
    requires e.a != 0.0
    ensures |r| <= 2
  {
    var d := Discriminant(e);
    if NearZero(d) then [-e.b / (2.0 * e.a)]
    else if d < 0.0 then []
    else [(-e.b + sqrt(d)) / (2.0 * e.a), (-e.b - sqrt(d)) / (2.0 * e.a)]
  }

  /** `getRoots`: classify by which coefficients are near zero, in this order. */
  function GetRoots(e: Issue, sqrt: real -> real): (r: seq<real>)
    ensures |r| <= 2
  {
    if NearZero(e.a) then
      if NearZero(e.b) then [] else [-e.c / e.b]
    else if !NearZero(e.b) && NearZero(e.c) then [0.0, -e.b / e.a]
    else DiscriminantRoots(e, sqrt)
  }

  /** Neither a nor b counts: not an equation, no roots. */
  lemma DegenerateHasNoRoots(e: Issue, sqrt: real -> real)
    requires NearZero(e.a) && NearZero(e.b)
    ensures GetRoots(e, sqrt) == []
  {
  }

  /** a does not count but b does: the single root solves b*x + c = 0. */
  lemma LinearRoot(e: Issue, sqrt: real -> real)
    requires NearZero(e.a) && !NearZero(e.b)
    ensures GetRoots(e, sqrt) == [-e.c / e.b]
    ensures e.b * (-e.c / e.b) + e.c == 0.0
  {
  }

  /** a and b count, c does not: the roots 0 and -b/a, in that order, are the
      two distinct solutions of a*x^2 + b*x = 0. */
  lemma {:induction false} FactoredRoots(e: Issue, sqrt: real -> real)
    requires !NearZero(e.a) && !NearZero(e.b) && NearZero(e.c)
    ensures GetRoots(e, sqrt) == [0.0, -e.b / e.a]
    ensures forall x :: x in GetRoots(e, sqrt) ==> Value(e, x) == e.c
    ensures 0.0 != -e.b / e.a
  {
    var x := -e.b / e.a;
    assert e.a * x == -e.b;
    assert Value(e, x) == (e.a * x) * x + e.b * x + e.c;
  }

  /** Every other case, notably a counting and b, c both near zero, goes to
      the discriminant branch. */
  lemma DiscriminantCase(e: Issue, sqrt: real -> real)
    requires !NearZero(e.a) && (NearZero(e.b) || !NearZero(e.c))
    ensures e.a != 0.0 && GetRoots(e, sqrt) == DiscriminantRoots(e, sqrt)
  {
  }

  /** A discriminant near zero gives the vertex -b/(2a): the point where
      2a*x + b vanishes, at which the left-hand side is -D/(4a). */
  lemma {:induction false} DoubleRoot(e: Issue, sqrt: real -> real)
    requires e.a != 0.0 && NearZero(Discriminant(e))
    ensures DiscriminantRoots(e, sqrt) == [-e.b / (2.0 * e.a)]
    ensures 2.0 * e.a * (-e.b / (2.0 * e.a)) + e.b == 0.0
    ensures Value(e, -e.b / (2.0 * e.a)) == -Discriminant(e) / (4.0 * e.a)
  {
    var x := -e.b / (2.0 * e.a);
    assert 2.0 * e.a * x == -e.b;
    calc {
      4.0 * e.a * Value(e, x);
      (2.0 * e.a * x) * (2.0 * e.a * x) + 2.0 * e.b * (2.0 * e.a * x) + 4.0 * e.a * e.c;
      e.b * e.b - 2.0 * e.b * e.b + 4.0 * e.a * e.c;
      -Discriminant(e);
    }
  }

  /** 4a * (a*x^2 + b*x + c) == (2a*x + b)^2 - D. */
  lemma {:induction false} CompletedSquare(e: Issue, x: real)
    ensures 4.0 * e.a * Value(e, x) == (2.0 * e.a * x + e.b) * (2.0 * e.a * x + e.b) - Discriminant(e)
  {
  }

  /** A clearly negative discriminant gives no roots, and indeed the equation
      has no real solution. */
  lemma {:induction false} NoRootsWhenNegative(e: Issue, sqrt: real -> real)
    requires e.a != 0.0 && Discriminant(e) < 0.0 && !NearZero(Discriminant(e))
    ensures DiscriminantRoots(e, sqrt) == []
    ensures forall x :: Value(e, x) != 0.0
  {
    forall x ensures Value(e, x) != 0.0 {
      CompletedSquare(e, x);
      var y := 2.0 * e.a * x + e.b;
      assert y * y >= 0.0;
    }
  }

  /** (-b + t)/(2a) solves the equation whenever t*t is the discriminant. */
  lemma {:induction false} RootFromSquare(e: Issue, t: real)
    requires e.a != 0.0 && t * t == Discriminant(e)
    ensures Value(e, (-e.b + t) / (2.0 * e.a)) == 0.0
  {
    var x := (-e.b + t) / (2.0 * e.a);
    assert 2.0 * e.a * x + e.b == t;
    CompletedSquare(e, x);
    assert 4.0 * e.a * Value(e, x) == 0.0;
  }

  /** A solution x has 2a*x + b equal to s or -s, for s a root of the
      discriminant. */
  lemma {:induction false} SolutionFromSquare(e: Issue, s: real, x: real)
    requires e.a != 0.0 && s * s == Discriminant(e) && Value(e, x) == 0.0
    ensures x == (-e.b + s) / (2.0 * e.a) || x == (-e.b - s) / (2.0 * e.a)
  {
    CompletedSquare(e, x);
    var y := 2.0 * e.a * x + e.b;
    assert y * y == s * s;
    assert (y - s) * (y + s) == 0.0;
    ProductIsZero(y - s, y + s);
    if y == s {
      assert x == (-e.b + s) / (2.0 * e.a);
    } else {
      assert y == -s;
      assert x == (-e.b - s) / (2.0 * e.a);
    }
  }

  lemma ProductIsZero(p: real, q: real)
    requires p * q == 0.0
    ensures p == 0.0 || q == 0.0
  {
  }

  /** A clearly positive discriminant gives two distinct exact roots, the
      plus-root first (the larger one when a > 0), and no other real number
      solves the equation. */
  lemma {:induction false} TwoRootsExact(e: Issue, sqrt: real -> real)
    requires IsSqrt(sqrt)
    requires e.a != 0.0 && Discriminant(e) > 0.0 && !NearZero(Discriminant(e))
    ensures var s := sqrt(Discriminant(e));
      DiscriminantRoots(e, sqrt) == [(-e.b + s) / (2.0 * e.a), (-e.b - s) / (2.0 * e.a)]
    ensures var r := DiscriminantRoots(e, sqrt);
      |r| == 2 && Value(e, r[0]) == 0.0 && Value(e, r[1]) == 0.0 && (r[0] - r[1]) * e.a > 0.0
    ensures var r := DiscriminantRoots(e, sqrt);
      forall x :: Value(e, x) == 0.0 ==> x == r[0] || x == r[1]
  {
    var d := Discriminant(e);
    var s := sqrt(d);
    assert s >= 0.0 && s * s == d;
    RootFromSquare(e, s);
    assert (-s) * (-s) == d;
    RootFromSquare(e, -s);
    var r := DiscriminantRoots(e, sqrt);
    assert r == [(-e.b + s) / (2.0 * e.a), (-e.b + -s) / (2.0 * e.a)];
    assert s > 0.0;
    assert 2.0 * e.a * (r[0] - r[1]) == 2.0 * s;
    forall x | Value(e, x) == 0.0 ensures x == r[0] || x == r[1] {
      SolutionFromSquare(e, s, x);
    }
  }

  /** An exact square root of a perfect square is its non-negative root. */
  lemma {:induction false} SqrtOfSquare(sqrt: real -> real, y: real)
    requires IsSqrt(sqrt) && y >= 0.0
    ensures sqrt(y * y) == y
  {
    var s := sqrt(y * y);
    assert s >= 0.0 && s * s == y * y;
    assert (s - y) * (s + y) == 0.0;
    ProductIsZero(s - y, s + y);
  }

  /** The expected roots of the parameterised solver test. */
  lemma {:induction false} SolverTestCases(sqrt: real -> real)
    requires IsSqrt(sqrt)
    ensures GetRoots(Issue(1.0, -2.0, -3.0), sqrt) == [3.0, -1.0]
    ensures GetRoots(Issue(0.0, 4.0, -4.0), sqrt) == [1.0]
    ensures GetRoots(Issue(1.0, 2.0, 3.0), sqrt) == []
    ensures GetRoots(Issue(0.0, 0.0, 0.0), sqrt) == []
    ensures GetRoots(Issue(0.0, 1.0, 0.0), sqrt) == [0.0]
    ensures GetRoots(Issue(0.0, 1.0, 2.0), sqrt) == [-2.0]
    ensures GetRoots(Issue(0.0, 0.0, 1.0), sqrt) == []
    ensures GetRoots(Issue(1.0, 0.0, 0.0), sqrt) == [0.0]
    ensures GetRoots(Issue(1.0, 0.0, -4.0), sqrt) == [2.0, -2.0]
  {
    SqrtOfSquare(sqrt, 4.0);
    assert Discriminant(Issue(1.0, -2.0, -3.0)) == 4.0 * 4.0;
    assert Discriminant(Issue(1.0, 0.0, -4.0)) == 4.0 * 4.0;
  }

  /** One solution per issue, in order. */
  function SolveAll(issues: seq<Issue>, sqrt: real -> real): (r: seq<Solution>)
    ensures |r| == |issues|
    ensures forall i :: 0 <= i < |r| ==> r[i].issue == issues[i] && |r[i].roots| <= 2
  {
    seq(|issues|, i requires 0 <= i < |issues| => Solution(issues[i], GetRoots(issues[i], sqrt)))
  }

  lemma SolveAllAppend(xs: seq<Issue>, ys: seq<Issue>, sqrt: real -> real)
    ensures SolveAll(xs + ys, sqrt) == SolveAll(xs, sqrt) + SolveAll(ys, sqrt)
  {
  }

  /** The inner loop of the worker: solve each issue of one popped batch. */
  method SolveBatch(task: seq<Issue>, sqrt: real -> real) returns (result: seq<Solution>)
    ensures |result| == |task|
    ensures forall i :: 0 <= i < |task| ==>
      result[i].issue == task[i] && result[i].roots == GetRoots(task[i], sqrt)
    ensures result == SolveAll(task, sqrt)
  {
    result := [];
    for i := 0 to |task|
      invariant |result| == i
      invariant forall j :: 0 <= j < i ==>
        result[j].issue == task[j] && result[j].roots == GetRoots(task[j], sqrt)
    {
      result := result + [Solution(task[i], GetRoots(task[i], sqrt))];
    }
  }

  /** A worker: it consumes issues from one pipe and produces solutions into
      the other, under a producer id of its own on the solution pipe. */
  class Solver {
    const issuesCount: int32
    const issuePipe: IssuePipe
    const solutionPipe: SolutionPipe
    const producerId: int

    /** Registers the worker as one more producer of solutions. */
    constructor (issuesCount: int32, issuePipe: IssuePipe, solutionPipe: SolutionPipe)
      modifies solutionPipe
      ensures this.issuesCount == issuesCount
      ensures this.issuePipe == issuePipe && this.solutionPipe == solutionPipe
      ensures producerId == |old(solutionPipe.done)|
      ensures solutionPipe.done == old(solutionPipe.done) + [false]
      ensures solutionPipe.backlog == old(solutionPipe.backlog)
      ensures issuePipe.backlog == old(issuePipe.backlog) && issuePipe.done == old(issuePipe.done)
    {
      this.issuesCount := issuesCount;
      this.issuePipe := issuePipe;
      this.solutionPipe := solutionPipe;
      var id := solutionPipe.RegisterAsProducer();
      this.producerId := id;
    }

    /** The thread body: run rounds until a pop returns nothing with every
        issue producer done, then mark this producer done. Started once every
        issue producer is done, it drains the issue pipe into the solution
        pipe, one solution per issue, in FIFO order. A request count of 0
        pops nothing and stops at once. */
    method Run(sqrt: real -> real)
      requires issuePipe.AllProducersDone()
      requires 0 <= producerId < |solutionPipe.done|
      modifies issuePipe, solutionPipe
      ensures issuePipe.done == old(issuePipe.done)
      ensures solutionPipe.done == old(solutionPipe.done)[producerId := true]
      ensures issuesCount != 0 ==>
        issuePipe.backlog == [] &&
        solutionPipe.backlog == old(solutionPipe.backlog) + SolveAll(old(issuePipe.backlog), sqrt)
      ensures issuesCount == 0 ==>
        issuePipe.backlog == old(issuePipe.backlog) && solutionPipe.backlog == old(solutionPipe.backlog)
    {
      var n := RequestCount(issuesCount);
      assert n == 0 <==> issuesCount == 0;
      ghost var issues := issuePipe.backlog;
      ghost var solutions := solutionPipe.backlog;
      ghost var taken := 0;
      while true
        invariant issuePipe.done == old(issuePipe.done)
        invariant solutionPipe.done == old(solutionPipe.done)
        invariant 0 <= taken <= |issues| && issuePipe.backlog == issues[taken..]
        invariant solutionPipe.backlog == solutions + SolveAll(issues[..taken], sqrt)
        invariant n == 0 ==> taken == 0
        decreases |issuePipe.backlog|
      {
        var task, stop := Round(n, sqrt);
        if stop {
          break;
        }
        assert issues[..taken + |task|] == issues[..taken] + task;
        SolveAllAppend(issues[..taken], task, sqrt);
        taken := taken + |task|;
      }
      assert issues[..taken] == issues || n == 0;
      solutionPipe.SetNoMoreProducing(producerId);
    }

    /** One round of the loop: pop up to n issues and, if there were any,
        push one batch with their solutions. The round ends the loop when it
        popped nothing while every issue producer was done. */
    method Round(n: nat, sqrt: real -> real) returns (task: seq<Issue>, stop: bool)
      modifies issuePipe, solutionPipe
      ensures issuePipe.done == old(issuePipe.done) && solutionPipe.done == old(solutionPipe.done)
      ensures task == old(issuePipe.backlog)[..Min(n, |old(issuePipe.backlog)|)]
      ensures issuePipe.backlog == old(issuePipe.backlog)[Min(n, |old(issuePipe.backlog)|)..]
      ensures solutionPipe.backlog == old(solutionPipe.backlog) + SolveAll(task, sqrt)
      ensures |task| <= n
      ensures stop <==> task == [] && AllOf(issuePipe.done)
    {
      var noMoreIssues;
      task, noMoreIssues := issuePipe.Pop(n);
      if task != [] {
        var result := SolveBatch(task, sqrt);
        solutionPipe.Push(result);
      }
      stop := task == [] && noMoreIssues;
    }
  }
}
