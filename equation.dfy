/** The two records that travel through the pipes (src/equation_issue.h and
    src/equation_solution.h), and the arithmetic the solvers share. Doubles
    are modelled as exact reals. */
module Equation {
  import Pipe

  /** The problem a*x^2 + b*x + c = 0. */
  datatype Issue = Issue(a: real, b: real, c: real)

  /** An issue together with the roots found for it. */
  datatype Solution = Solution(issue: Issue, roots: seq<real>)

  type IssuePipe = Pipe.ProducerConsumerPipe<Issue>
  type SolutionPipe = Pipe.ProducerConsumerPipe<Solution>

  /** The solvers' `comparison_precision`, 1e-5. */
  const Eps: real := 0.00001

  /** std::fabs */
  function Abs(x: real): real
  {
    if x < 0.0 then -x else x
  }

  /** The left-hand side a*x^2 + b*x + c at `x`. */
  function Value(e: Issue, x: real): real
  {
    e.a * x * x + e.b * x + e.c
  }

  /** The discriminant b^2 - 4ac, computed as the solvers compute it. */
  function Discriminant(e: Issue): real
  {
    e.b * e.b - 4.0 * e.a * e.c
  }

  /** `sqrt` is an exact square root on the non-negative reals. */
  ghost predicate IsSqrt(sqrt: real -> real)
  {
    forall x: real :: x >= 0.0 ==> sqrt(x) >= 0.0 && sqrt(x) * sqrt(x) == x
  }
}
