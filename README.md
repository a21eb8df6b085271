# SquareEquationSolver in Dafny

This project models the core of SquareEquationSolver, a small C++ program that solves quadratic equations
`a*x^2 + b*x + c = 0` given as triples of command-line arguments. Three kinds of worker are joined by
producer/consumer pipes:

- an argument parser turns `argv` into equation *issues* and pushes them, in batches, into the issue pipe;
- solver workers pop issues, compute their roots and push *solutions* into the solution pipe;
- a printer consumes the solutions. The printer is not part of this model.

Modules, one per source file:

- `Pipe` (`pipe.dfy`) models `ProducerConsumerPipe<T>`. It is a class whose fields are the queued items
  (`backlog`) and one "no more data" flag per registered producer (`done`). `push` and `pop` are loops.
  The pipe is unbounded and FIFO.
- `Equation` (`equation.dfy`) holds the issue and solution records and the comparison precision
  `Eps = 1e-5`. It also defines the left-hand side `Value`, the discriminant, and `IsSqrt`, the property of
  an exact square root.
- `Solver` (`solver.dfy`) models `src/solver.h`:
  - `GetRoots` is the root classifier over which coefficients are near zero;
  - `DiscriminantRoots` is its discriminant branch, which `LegacySolver` shares;
  - `Solver` is a class with the constructor and the worker loop `Run`. `Run` drains the issue pipe in
    rounds of `issues_count`.
- `LegacySolver` (`legacy_solver.dfy`) models the older `solver.h` at the repository root. Its classifier
  tests `abs(a)` and `abs(b)` against eps with strict `>`. See "Findings".
- `ArgumentParser` (`argument_parser.dfy`) models `src/argument_parser.h`:
  - pure functions give the meaning of one round: `Triples` is the triples loop, `Batch` adds the trailing
    tokens, and `Batches` covers every round;
  - `Stream` is an unbatched reference reading of the whole argument list;
  - the class `ArgumentParser` holds the imperative loop over the field `currentArg`.
- `Fixtures` (`fixtures.dfy`) restates the parameterised test fixtures of `test/solver_test.cpp` as sequential
  client code. It also states their expected values as lemmas.

The main results:

- **Roots are correct.** `GetRoots` returns at most two roots, in a fixed order. Each branch is tied to the
  algebra:
  - the linear root solves `b*x + c = 0`;
  - 0 and `-b/a` are the two distinct solutions of `a*x^2 + b*x = 0`;
  - with a near-zero discriminant, the returned root is the vertex `-b/(2a)`;
  - a clearly negative discriminant leaves no real solution at all;
  - a clearly positive discriminant, with an exact square root, gives exactly the two solutions, the
    plus-root first.
- **The workers drain the issue pipe.** A solver worker with a non-zero `issues_count`, started after every
  issue producer is done, empties the issue pipe. It appends one `{issue, roots}` solution per issue to the solution pipe, in FIFO order,
  and then marks itself done.
- **Batching does not change the parse.** The issues the parser pushes over all rounds are the same for
  every per-round triple limit `N >= 1`. They are the unbatched stream: each whole convertible triple in
  order, with a triple that fails to convert dropped, and the trailing 1–2 tokens padded with 0.

Rounding and parsing are parameters:

- Doubles are modelled as mathematical reals. `std::sqrt` is the parameter `sqrt: real -> real`; the
  exactness lemmas require `IsSqrt(sqrt)`.
- `std::stod` is the parameter `parse: string -> Option<real>`. `None` stands for the exception it throws.

## Model

| member | source | states |
|---|---|---|
| Pipe.AllOf | producer_consumer_pipe.h:59-61 | `all_of` over the flags: true exactly when every flag is set, so true when no producer is registered |
| Pipe.ProducerConsumerPipe.constructor | producer_consumer_pipe.h:74-77 | a new pipe has no items and no producers |
| Pipe.ProducerConsumerPipe.Size | producer_consumer_pipe.h:15-18 | the size is the number of queued items |
| Pipe.ProducerConsumerPipe.RegisterAsProducer | producer_consumer_pipe.h:24-28 | the id returned is the number of producers registered before the call (ids 0, 1, 2, …); a false flag is added; the items and the other flags are unchanged |
| Pipe.ProducerConsumerPipe.SetNoMoreProducing | producer_consumer_pipe.h:33-37 | for a registered id, only that producer's flag becomes true; the items are unchanged |
| Pipe.SetNoMoreProducingTwice | producer_consumer_pipe.h:33-37 | marking a producer done twice leaves the same state as marking it once |
| Pipe.ProducerConsumerPipe.Push | producer_consumer_pipe.h:42-49 | the new backlog is the old backlog followed by the data, in order; the size grows by the data's length; the flags are unchanged |
| Pipe.ProducerConsumerPipe.Pop | producer_consumer_pipe.h:55-72 | with a request count that defaults to 1, returns the first min(n, size) items in FIFO order; returned items followed by the new backlog equal the old backlog; at most n items; the flag result says whether all producers were done; the flags never change; `pop(0)` and a pop of an empty pipe change nothing; an empty result with "all done" means the backlog was empty and every flag was set |
| Solver.NearZero | src/solver.h:66 | `near_0`: a value counts as zero exactly when it lies strictly between -eps and eps |
| Solver.RequestCount | src/solver.h:13-33 | `issues_count` converted to the `size_t` argument of `pop`: 0 exactly when the count is 0; a non-negative count is kept; a negative one wraps to a request of at least 2^63 |
| Solver.GetRoots | src/solver.h:63-111 | at most two roots for every issue |
| Solver.DiscriminantRoots | src/solver.h:91-106 | the discriminant branch yields at most two roots |
| Solver.DegenerateHasNoRoots | src/solver.h:68-73 | with a and b both near zero there are no roots |
| Solver.LinearRoot | src/solver.h:68-78 | with a near zero and b not, the roots are exactly `[-c/b]`, and that root solves `b*x + c = 0` |
| Solver.FactoredRoots | src/solver.h:82-87 | with a and b not near zero and c near zero, the roots are `[0, -b/a]` in that order; both give the left-hand side c; they are distinct |
| Solver.DiscriminantCase | src/solver.h:88-107 | every other issue with a not near zero takes the discriminant branch, and its divisor `2a` is non-zero |
| Solver.DoubleRoot | src/solver.h:92-96 | a near-zero discriminant gives the one root `-b/(2a)`; there `2a*x + b` vanishes and the left-hand side is `-D/(4a)` |
| Solver.NoRootsWhenNegative | src/solver.h:97-100 | a discriminant at or below -eps gives no roots; no real x solves the equation |
| Solver.CompletedSquare | src/solver.h:91 | `4a * (a*x^2 + b*x + c) == (2a*x + b)^2 - D` for every x |
| Solver.TwoRootsExact | src/solver.h:101-106 | a discriminant at or above eps gives `[(-b+√D)/(2a), (-b-√D)/(2a)]`; with an exact root both solve the equation, they are distinct with the plus-root first (larger when a > 0), and no other real solves it |
| Solver.SqrtOfSquare | src/solver.h:104-105 | an exact square root of `y*y` for `y >= 0` is y |
| Solver.SolverTestCases | test/solver_test.cpp:41-51 | the nine expected root lists of the parameterised solver test |
| Solver.SolveAll | src/solver.h:36-40 | the solutions of a task: one per issue, each carrying its issue, in order, with at most two roots |
| Solver.SolveBatch | src/solver.h:36-40 | one solution `{issue, GetRoots(issue)}` per issue of the task, in order |
| Solver.Solver.constructor | src/solver.h:22-25 | registers exactly one new producer on the solution pipe; the issue pipe is unchanged |
| Solver.Solver.Round | src/solver.h:33-47 | one loop round: pops at most `issues_count` issues from the head; appends their solutions to the solution pipe in order, pushing nothing when the task is empty; stops exactly when the pop is empty and all issue producers are done; flags unchanged |
| Solver.Solver.Run | src/solver.h:28-53 | started with all issue producers done: the issue pipe ends empty; the solution pipe gains one solution per drained issue, in FIFO order; only the worker's own flag is set. A count of 0 pops nothing, stops in the first round, and leaves both backlogs unchanged |
| LegacySolver.GetRoots | solver.h:63-105 | the strict if-chain: at most two roots wherever it is defined |
| LegacySolver.DegenerateHasNoRoots | solver.h:67-70 | with a and b both below eps there are no roots |
| LegacySolver.LinearRoot | solver.h:71-75 | with a below eps and b strictly above eps, the roots are `[-c/b]` |
| LegacySolver.FactoredRoots | solver.h:76-81 | with a and b strictly above eps and c below eps, the roots are `[0, -b/a]` |
| LegacySolver.OtherwiseDiscriminant | solver.h:82-101 | every issue that fails the three strict tests reaches the discriminant branch, which is undefined exactly for a == 0 |
| LegacySolver.BoundaryGoesToDiscriminant | solver.h:67-90 | the three boundary classes `abs(a) < eps, abs(b) == eps`, `abs(a) == eps`, and `abs(a) > eps, abs(b) == eps` fall into the discriminant branch |
| LegacySolver.UndefinedExactly | solver.h:82-90 | the division by zero happens exactly when a == 0 and abs(b) == eps, and there the one-root formula is taken |
| LegacySolver.AgreesOffBoundary | solver.h:63-105 | away from abs(a) == eps and abs(b) == eps the older solver gives the current solver's roots |
| LegacySolver.BoundaryDisagreement | solver.h:76-81 | the two versions give different roots for (eps, eps, 0), `[0, -1]` against `[-0.5]`, and for (1, eps, 0), `[0, -eps]` against `[-eps/2]` |
| LegacySolver.DivisionByZeroWitness | solver.h:87-90 | at (0, 1e-5, 0) the older solver divides by zero; the current one returns 0 |
| LegacySolver.LegacyTestCases | solver_test.cpp:39-49 | the nine expected root lists of the older solver test |
| LegacySolver.SolveAll | solver.h:36-40 | for issues that avoid the division by zero: one solution per issue, each carrying its issue, in order, with at most two roots |
| LegacySolver.SolveBatch | solver.h:36-40 | one solution per issue of the task, in order |
| LegacySolver.Solver.constructor | solver.h:22-25 | registers exactly one new producer on the solution pipe |
| LegacySolver.Solver.Round | solver.h:33-47 | the same round as the current worker, with the older roots |
| LegacySolver.Solver.Run | solver.h:28-53 | the same drain, push and mark-done outcome as the current worker, for backlogs that avoid the division by zero |
| ArgumentParser.ParseTriple | src/argument_parser.h:41-51 | a triple yields an issue exactly when all three tokens convert, and then it is `{a, b, c}` |
| ArgumentParser.ParseTail | src/argument_parser.h:56-72 | the trailing issue is `{0, 0, 0}` when the first token fails to convert, and then one token is consumed; otherwise it is `{a, b, 0}`, where b is 0 when the second token is missing or fails to convert, and two positions are consumed |
| ArgumentParser.Triples | src/argument_parser.h:38-54 | the triples loop of one round as a tail-recursive function over position, count and kept issues; it never moves the position backwards |
| ArgumentParser.TriplesBounds | src/argument_parser.h:38-54 | every triple taken consumes three positions and counts toward the limit, converting or not; at most one issue per triple; the limit is never passed; it stops below the limit only when fewer than three tokens remain |
| ArgumentParser.Batch | src/argument_parser.h:33-73 | one outer round: the triples, then the trailing issue when the limit was not reached and tokens remain; it never moves the position backwards |
| ArgumentParser.BatchBounds | src/argument_parser.h:32-73 | a round never moves backwards, pushes at most `parse_triple_cnt` issues, and with a limit of at least 1 always advances while arguments remain |
| ArgumentParser.NoProgressWithoutLimit | src/argument_parser.h:38-56 | with a limit of 0 or less a round takes nothing and stays put, so the loop would not end |
| ArgumentParser.DroppedTriple | src/argument_parser.h:47-51 | a triple with a token that does not convert produces nothing, and parsing continues three positions on |
| ArgumentParser.WholeTriples | src/argument_parser.h:38-54 | when every token converts and whole triples remain, issue j is made of tokens i+3j, i+3j+1, i+3j+2, in order |
| ArgumentParser.Batches | src/argument_parser.h:31-75 | the batches of the outer `while`: one per round, none exactly when no argument remains, and no more rounds than remaining arguments |
| ArgumentParser.Stream | src/argument_parser.h:29-78 | the unbatched reference reading of the arguments, against which the batched loop is proved: nothing when no argument remains, and at most one issue per remaining argument |
| ArgumentParser.TriplesThenStream | src/argument_parser.h:38-54 | the issues of a round's triples, followed by the stream from where they stop, are the stream from where they start |
| ArgumentParser.BatchThenStream | src/argument_parser.h:34-73 | a round's batch followed by the stream from where it stops is the stream from where it starts |
| ArgumentParser.BatchingKeepsStream | src/argument_parser.h:29-78 | for any limit of at least 1, the concatenated batches of all rounds are the unbatched stream |
| ArgumentParser.BatchesBounded | src/argument_parser.h:34-73 | every batch pushed has at most `parse_triple_cnt` issues |
| ArgumentParser.ArgumentParser.constructor | src/argument_parser.h:22-26 | registers exactly one producer on the issue pipe; parsing starts at argv[1], after the program name |
| ArgumentParser.ArgumentParser.ConvertTriple | src/argument_parser.h:41-51 | the three conversions of the try block give the triple's issue, or nothing at the first failure |
| ArgumentParser.ArgumentParser.ParseTriples | src/argument_parser.h:38-54 | the triples loop leaves the position, the count and the kept issues that `Triples` defines |
| ArgumentParser.ArgumentParser.ParseTrailing | src/argument_parser.h:56-72 | the trailing block gives the issue and the position that `ParseTail` defines |
| ArgumentParser.ArgumentParser.ParseRound | src/argument_parser.h:33-72 | one round's batch and new position are those that `Batch` defines |
| ArgumentParser.ArgumentParser.Run | src/argument_parser.h:29-78 | with a limit of at least 1 the loop ends with `current_arg_ >= argc`; the issue pipe gains the unbatched stream of the arguments in order; only the parser's own flag is set |
| Fixtures.SolverFixture | test/solver_test.cpp:18-26 | the solver fixture's first popped solution carries `GetRoots` of the pushed issue |
| Fixtures.ParserFixture | test/solver_test.cpp:67-75 | the parser fixture's pop of three yields the first three issues of the stream |
| Fixtures.ParserShortCases | test/solver_test.cpp:105-109 | expected issues for argc 1 to 4, including a trailing token that fails to convert |
| Fixtures.ParserTwoTripleCases | test/solver_test.cpp:110-112 | expected issues for two triples, including dropped triples |
| Fixtures.ParserThreeTripleCase | test/solver_test.cpp:113 | expected issues for three triples; with two triples per round they are pushed as two batches, the first two triples and then the third |

## Left out

- Mutexes, threads, `std::this_thread::yield` and the thread wiring of `src/main.cpp`. Each pipe operation is
  one atomic, sequential step.
- Solver.Solver.Run: requires every issue producer to be done before the worker starts. With a producer still
  running, the original loop busy-waits, which depends on another thread.
- LegacySolver.Solver.Run: also requires that no queued issue reaches the division by zero. The model cannot
  hold the infinite root IEEE arithmetic gives there (see "Findings").
- IEEE-754 rounding, NaN and infinities. Doubles are reals, and `std::sqrt` is a parameter.
- `std::stod` is a parameter. Its prefix parsing and locale rules are outside the model.
- Output rendering: the `operator<<` overloads and the printer of `solution_printer.h` are iostream
  formatting and console I/O.
- ArgumentParser.ArgumentParser.Run: requires a limit of at least 1. With a limit of 0 and at least one argument
  after the program name, the original loop never ends; `NoProgressWithoutLimit` shows why. With no such
  argument the loop does not start and a limit of 0 would be harmless, but the model does not cover it. The `int` width of `current_arg_` and `argc` is not modelled,
  because argument counts are far below 2^31.
- ArgumentParser.ArgumentParser.Run: states the flat contents pushed, not the individual calls to `push`. The
  batch of each round is stated by `ParseRound` and bounded by `BatchBounds`.
- Pipe.ProducerConsumerPipe.Pop: the `int` loop counter compared with a `size_t` request is treated as
  unbounded. It could only matter for backlogs of more than 2^31 items.
- The root `equation_issue.h` and `equation_solution.h` use stale type names. Both solver versions share one
  `Issue`/`Solution` datatype.

## Findings

| source | as written | input that shows it | evidently intended | confidence | as-written member | corrected member |
|---|---|---|---|---|---|---|
| solver.h:71 | the linear case tests `abs(b) > eps`; with `abs(a) < eps` and `abs(b) == eps` the issue falls into the discriminant branch, and for a == 0 the near-zero discriminant `b*b` leads to `-b / (2.0 * a)`, a division by zero | issue (0, 1e-5, 0) | `abs(b) >= eps` counts as linear, as in src/solver.h, giving the root `-c/b` | not executed | LegacySolver.DivisionByZeroWitness | Solver.LinearRoot |
