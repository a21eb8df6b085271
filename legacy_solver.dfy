/** The older root finder and worker loop of solver.h (repository root). It
    differs from src/solver.h only in its classification chain, which tests
    `|b| > eps` and `|a| > eps` strictly. */
module LegacySolver {
  import opened Wrappers
  import opened Pipe
  import opened Equation
  import Current = Solver

  /** `getRoots` of the older version. `None` stands for the one input class
      on which it divides by zero: a == 0 with |b| exactly eps reaches the
      discriminant branch, whose discriminant b*b is then near zero, and the
      one-root formula -b/(2a) divides by 2a == 0 (IEEE arithmetic yields an
      infinite root there, which a real cannot hold). */
  function GetRoots(e: Issue, sqrt: real -> real): (r: Option<seq<real>>)
    ensures r.Some? ==> |r.value| <= 2
  {
    if Abs(e.a) < Eps && Abs(e.b) < Eps then Some([])
    else if Abs(e.a) < Eps && Abs(e.b) > Eps then Some([-e.c / e.b])
    else if Abs(e.a) > Eps && Abs(e.b) > Eps && Abs(e.c) < Eps then Some([0.0, -e.b / e.a])
    else if e.a == 0.0 then None
    else Some(Current.DiscriminantRoots(e, sqrt))
  }

  lemma DegenerateHasNoRoots(e: Issue, sqrt: real -> real)
    requires Abs(e.a) < Eps && Abs(e.b) < Eps
    ensures GetRoots(e, sqrt) == Some([])
  {
  }

  /** The linear case needs |b| strictly above eps. */
  lemma LinearRoot(e: Issue, sqrt: real -> real)
    requires Abs(e.a) < Eps && Abs(e.b) > Eps
    ensures GetRoots(e, sqrt) == Some([-e.c / e.b])
  {
  }

  /** The factored case needs |a| and |b| strictly above eps. */
  lemma FactoredRoots(e: Issue, sqrt: real -> real)
    requires Abs(e.a) > Eps && Abs(e.b) > Eps && Abs(e.c) < Eps
    ensures GetRoots(e, sqrt) == Some([0.0, -e.b / e.a])
  {
  }

  /** Every issue that fails the three strict tests reaches the
      discriminant branch, which is undefined only for a == 0. */
  lemma OtherwiseDiscriminant(e: Issue, sqrt: real -> real)
    requires !(Abs(e.a) < Eps && Abs(e.b) < Eps)
    requires !(Abs(e.a) < Eps && Abs(e.b) > Eps)
    requires !(Abs(e.a) > Eps && Abs(e.b) > Eps && Abs(e.c) < Eps)
    ensures GetRoots(e, sqrt) == if e.a == 0.0 then None else Some(Current.DiscriminantRoots(e, sqrt))
  {
  }

  /** The three boundary classes, |a| < eps with |b| == eps, |a| == eps, and
      |a| > eps with |b| == eps, all fall through to the discriminant branch. */
  lemma BoundaryGoesToDiscriminant(e: Issue, sqrt: real -> real)
    requires (Abs(e.a) < Eps && Abs(e.b) == Eps) || Abs(e.a) == Eps || (Abs(e.a) > Eps && Abs(e.b) == Eps)
    ensures GetRoots(e, sqrt) == if e.a == 0.0 then None else Some(Current.DiscriminantRoots(e, sqrt))
  {
    OtherwiseDiscriminant(e, sqrt);
  }

  /** The division by zero happens exactly for a == 0 and |b| == eps, and it
      is the one-root formula that is reached there. */
  lemma {:induction false} UndefinedExactly(e: Issue, sqrt: real -> real)
    ensures GetRoots(e, sqrt).None? <==> e.a == 0.0 && Abs(e.b) == Eps
    ensures GetRoots(e, sqrt).None? ==> Current.NearZero(Discriminant(e))
  {
    if e.a == 0.0 && Abs(e.b) == Eps {
      assert e.b * e.b == Eps * Eps;
      assert Discriminant(e) == Eps * Eps;
    }
  }

  /** Away from the two boundaries |a| == eps and |b| == eps, the older and
      the current solver give the same roots. */
  lemma AgreesOffBoundary(e: Issue, sqrt: real -> real)
    requires Abs(e.a) != Eps && Abs(e.b) != Eps
    ensures GetRoots(e, sqrt) == Some(Current.GetRoots(e, sqrt))
  {
  }

  /** On the boundary they can differ: for (eps, eps, 0) and for (1, eps, 0)
      the current solver takes the factored case, the older one the
      discriminant branch. */
  lemma {:induction false} BoundaryDisagreement(sqrt: real -> real)
    ensures Current.GetRoots(Issue(Eps, Eps, 0.0), sqrt) == [0.0, -1.0]
    ensures GetRoots(Issue(Eps, Eps, 0.0), sqrt) == Some([-0.5])
    ensures Current.GetRoots(Issue(1.0, Eps, 0.0), sqrt) == [0.0, -Eps]
    ensures GetRoots(Issue(1.0, Eps, 0.0), sqrt) == Some([-Eps / 2.0])
  {
    assert Discriminant(Issue(Eps, Eps, 0.0)) == Eps * Eps;
    assert Discriminant(Issue(1.0, Eps, 0.0)) == Eps * Eps;
  }

  /** The input (0, 1e-5, 0): the older solver divides by zero, the current
      one returns the root 0 of the linear equation 1e-5 * x = 0. */
  lemma {:induction false} DivisionByZeroWitness(sqrt: real -> real)
    ensures GetRoots(Issue(0.0, Eps, 0.0), sqrt).None?
    ensures Current.NearZero(Discriminant(Issue(0.0, Eps, 0.0)))
    ensures Current.GetRoots(Issue(0.0, Eps, 0.0), sqrt) == [0.0]
  {
    UndefinedExactly(Issue(0.0, Eps, 0.0), sqrt);
  }

  /** The expected roots of the older parameterised solver test. */
  lemma {:induction false} LegacyTestCases(sqrt: real -> real)
    requires IsSqrt(sqrt)
    ensures GetRoots(Issue(1.0, -2.0, -3.0), sqrt) == Some([3.0, -1.0])
    ensures GetRoots(Issue(0.0, 4.0, -4.0), sqrt) == Some([1.0])
    ensures GetRoots(Issue(1.0, 2.0, 3.0), sqrt) == Some([])
    ensures GetRoots(Issue(0.0, 0.0, 0.0), sqrt) == Some([])
    ensures GetRoots(Issue(0.0, 1.0, 0.0), sqrt) == Some([0.0])
    ensures GetRoots(Issue(0.0, 1.0, 2.0), sqrt) == Some([-2.0])
    ensures GetRoots(Issue(0.0, 0.0, 1.0), sqrt) == Some([])
    ensures GetRoots(Issue(1.0, 0.0, 0.0), sqrt) == Some([0.0])
    ensures GetRoots(Issue(1.0, 0.0, -4.0), sqrt) == Some([2.0, -2.0])
  {
    Current.SolverTestCases(sqrt);
    AgreesOffBoundary(Issue(1.0, -2.0, -3.0), sqrt);
    AgreesOffBoundary(Issue(0.0, 4.0, -4.0), sqrt);
    AgreesOffBoundary(Issue(1.0, 2.0, 3.0), sqrt);
    AgreesOffBoundary(Issue(0.0, 0.0, 0.0), sqrt);
    AgreesOffBoundary(Issue(0.0, 1.0, 0.0), sqrt);
    AgreesOffBoundary(Issue(0.0, 1.0, 2.0), sqrt);
    AgreesOffBoundary(Issue(0.0, 0.0, 1.0), sqrt);
    AgreesOffBoundary(Issue(1.0, 0.0, 0.0), sqrt);
    AgreesOffBoundary(Issue(1.0, 0.0, -4.0), sqrt);
  }

  /** Every issue of `issues` avoids the division by zero. */
  ghost predicate AllDefined(issues: seq<Issue>, sqrt: real -> real)
  {
    forall i :: 0 <= i < |issues| ==> GetRoots(issues[i], sqrt).Some?
  }

  /** One solution per issue, in order. */
  function SolveAll(issues: seq<Issue>, sqrt: real -> real): (r: seq<Solution>)
    requires AllDefined(issues, sqrt)
    ensures |r| == |issues|
    ensures forall i :: 0 <= i < |r| ==> r[i].issue == issues[i] && |r[i].roots| <= 2
  {
    seq(|issues|, i requires 0 <= i < |issues| => Solution(issues[i], GetRoots(issues[i], sqrt).value))
  }

  lemma SolveAllAppend(xs: seq<Issue>, ys: seq<Issue>, sqrt: real -> real)
    requires AllDefined(xs, sqrt) && AllDefined(ys, sqrt)
    ensures AllDefined(xs + ys, sqrt)
    ensures SolveAll(xs + ys, sqrt) == SolveAll(xs, sqrt) + SolveAll(ys, sqrt)
  {
  }

  /** The inner loop of the worker: solve each issue of one popped batch. */
  method SolveBatch(task: seq<Issue>, sqrt: real -> real) returns (result: seq<Solution>)
    requires AllDefined(task, sqrt)
    ensures |result| == |task|
    ensures forall i :: 0 <= i < |task| ==>
      result[i].issue == task[i] && Some(result[i].roots) == GetRoots(task[i], sqrt)
    ensures result == SolveAll(task, sqrt)
  {
    result := [];
    for i := 0 to |task|
      invariant |result| == i
      invariant forall j :: 0 <= j < i ==>
        result[j].issue == task[j] && Some(result[j].roots) == GetRoots(task[j], sqrt)
    {
      result := result + [Solution(task[i], GetRoots(task[i], sqrt).value)];
    }
  }

  /** The older worker: the same wiring and loop as src/solver.h. */
  class Solver {
    const issuesCount: Current.int32
    const issuePipe: IssuePipe
    const solutionPipe: SolutionPipe
    const producerId: int

    constructor (issuesCount: Current.int32, issuePipe: IssuePipe, solutionPipe: SolutionPipe)
      modifies solutionPipe
      ensures this.issuesCount == issuesCount
      ensures this.issuePipe == issuePipe && this.solutionPipe == solutionPipe
      ensures producerId == |old(solutionPipe.done)|
      ensures solutionPipe.done == old(solutionPipe.done) + [false]
      ensures solutionPipe.backlog == old(solutionPipe.backlog)
      ensures issuePipe.backlog == old(issuePipe.backlog) && issuePipe.done == old(issuePipe.done)
    {
      this.issuesCount := issuesCount;
      this.issuePipe := issuePipe;
      this.solutionPipe := solutionPipe;
      var id := solutionPipe.RegisterAsProducer();
      this.producerId := id;
    }

    /** The thread body, as in src/solver.h, over the older root finder; the
        queued issues must avoid its division by zero. */
    method Run(sqrt: real -> real)
      requires issuePipe.AllProducersDone()
      requires AllDefined(issuePipe.backlog, sqrt)
      requires 0 <= producerId < |solutionPipe.done|
      modifies issuePipe, solutionPipe
      ensures issuePipe.done == old(issuePipe.done)
      ensures solutionPipe.done == old(solutionPipe.done)[producerId := true]
      ensures issuesCount != 0 ==>
        issuePipe.backlog == [] &&
        solutionPipe.backlog == old(solutionPipe.backlog) + SolveAll(old(issuePipe.backlog), sqrt)
      ensures issuesCount == 0 ==>
        issuePipe.backlog == old(issuePipe.backlog) && solutionPipe.backlog == old(solutionPipe.backlog)
    {
      var n := Current.RequestCount(issuesCount);
      assert n == 0 <==> issuesCount == 0;
      ghost var issues := issuePipe.backlog;
      ghost var solutions := solutionPipe.backlog;
      ghost var taken := 0;
      while true
        invariant issuePipe.done == old(issuePipe.done)
        invariant solutionPipe.done == old(solutionPipe.done)
        invariant 0 <= taken <= |issues| && issuePipe.backlog == issues[taken..]
        invariant AllDefined(issues[..taken], sqrt) && AllDefined(issuePipe.backlog, sqrt)
        invariant solutionPipe.backlog == solutions + SolveAll(issues[..taken], sqrt)
        invariant n == 0 ==> taken == 0
        decreases |issuePipe.backlog|
      {
        var task, stop := Round(n, sqrt);
        if stop {
          break;
        }
        assert issues[..taken + |task|] == issues[..taken] + task;
        SolveAllAppend(issues[..taken], task, sqrt);
        taken := taken + |task|;
      }
      assert issues[..taken] == issues || n == 0;
      solutionPipe.SetNoMoreProducing(producerId);
    }

    /** One round of the loop, as in src/solver.h. */
    method Round(n: nat, sqrt: real -> real) returns (task: seq<Issue>, stop: bool)
      requires AllDefined(issuePipe.backlog, sqrt)
      modifies issuePipe, solutionPipe
      ensures issuePipe.done == old(issuePipe.done) && solutionPipe.done == old(solutionPipe.done)
      ensures task == old(issuePipe.backlog)[..Min(n, |old(issuePipe.backlog)|)]
      ensures issuePipe.backlog == old(issuePipe.backlog)[Min(n, |old(issuePipe.backlog)|)..]
      ensures AllDefined(task, sqrt) && AllDefined(issuePipe.backlog, sqrt)
      ensures solutionPipe.backlog == old(solutionPipe.backlog) + SolveAll(task, sqrt)
      ensures |task| <= n
      ensures stop <==> task == [] && AllOf(issuePipe.done)
    {
      var noMoreIssues;
      task, noMoreIssues := issuePipe.Pop(n);
      if task != [] {
        var result := SolveBatch(task, sqrt);
        solutionPipe.Push(result);
      }
      stop := task == [] && noMoreIssues;
    }
  }
}
