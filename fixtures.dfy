/** The test fixtures of test/solver_test.cpp as sequential client code: each
    builds the pipes and one worker, runs the worker to completion and pops
    the result, with the expected values of the parameterised cases. */
module Fixtures {
  import opened Wrappers
  import opened Pipe
  import opened Equation
  import Solver
  import ArgumentParser

  /** The solver fixture: a single issue is pushed by a producer that is
      then marked done, a worker with request count 1 drains it, and one pop
      of the solution pipe yields the issue's solution. */
  method SolverFixture(issue: Issue, sqrt: real -> real) returns (roots: seq<real>)
    ensures roots == Solver.GetRoots(issue, sqrt)
  {
    var issuePipe := new ProducerConsumerPipe<Issue>();
    var solutionPipe := new ProducerConsumerPipe<Solution>();
    var solver := new Solver.Solver(1, issuePipe, solutionPipe);
    var producerId := issuePipe.RegisterAsProducer();
    issuePipe.Push([issue]);
    issuePipe.SetNoMoreProducing(producerId);
    assert issuePipe.done == [true];
    solver.Run(sqrt);
    var solutions, noMoreSolutions := solutionPipe.Pop();
    roots := solutions[0].roots;
  }

  /** The parser fixture: a parser taking two triples per round runs over
      argv, then one pop of three issues yields the head of what it parsed. */
  method ParserFixture(argv: seq<string>, parse: string -> Option<real>) returns (issues: seq<Issue>)
    ensures var all := ArgumentParser.Stream(argv, 1, parse);
      issues == all[..Min(3, |all|)]
  {
    var issuePipe := new ProducerConsumerPipe<Issue>();
    var parser := new ArgumentParser.ArgumentParser(2, argv, issuePipe);
    parser.Run(parse);
    var noMoreIssues;
    issues, noMoreIssues := issuePipe.Pop(3);
  }

  /** The conversion the parser test relies on: "11" .. "99" read as
      numbers, "bb" and "cc" rejected. */
  ghost predicate TestConversion(parse: string -> Option<real>)
  {
    && parse("11") == Some(11.0) && parse("22") == Some(22.0) && parse("33") == Some(33.0)
    && parse("44") == Some(44.0) && parse("55") == Some(55.0) && parse("66") == Some(66.0)
    && parse("77") == Some(77.0) && parse("88") == Some(88.0) && parse("99") == Some(99.0)
    && parse("bb") == None && parse("cc") == None
  }

  /** The expected issues of the parser test for at most one triple: the
      program name alone gives nothing, trailing tokens fill a and b. */
  lemma ParserShortCases(parse: string -> Option<real>)
    requires TestConversion(parse)
    ensures ArgumentParser.Stream(["exec"], 1, parse) == []
    ensures ArgumentParser.Stream(["exec", "11"], 1, parse) == [Issue(11.0, 0.0, 0.0)]
    ensures ArgumentParser.Stream(["exec", "bb"], 1, parse) == [Issue(0.0, 0.0, 0.0)]
    ensures ArgumentParser.Stream(["exec", "11", "22"], 1, parse) == [Issue(11.0, 22.0, 0.0)]
    ensures ArgumentParser.Stream(["exec", "11", "22", "33"], 1, parse) == [Issue(11.0, 22.0, 33.0)]
  {
  }

  /** The expected issues of the parser test for two triples: a triple with
      a token that does not convert is dropped. */
  lemma ParserTwoTripleCases(parse: string -> Option<real>)
    requires TestConversion(parse)
    ensures ArgumentParser.Stream(["exec", "11", "22", "33", "44", "55", "66"], 1, parse)
         == [Issue(11.0, 22.0, 33.0), Issue(44.0, 55.0, 66.0)]
    ensures ArgumentParser.Stream(["exec", "11", "bb", "33", "44", "55", "66"], 1, parse)
         == [Issue(44.0, 55.0, 66.0)]
    ensures ArgumentParser.Stream(["exec", "11", "bb", "33", "44", "55", "cc"], 1, parse) == []
  {
    var valid := ["exec", "11", "22", "33", "44", "55", "66"];
    assert ArgumentParser.Stream(valid, 4, parse) == [Issue(44.0, 55.0, 66.0)];
    var invalid := ["exec", "11", "bb", "33", "44", "55", "66"];
    assert ArgumentParser.Stream(invalid, 4, parse) == [Issue(44.0, 55.0, 66.0)];
    var invalid2 := ["exec", "11", "bb", "33", "44", "55", "cc"];
    assert ArgumentParser.Stream(invalid2, 4, parse) == [];
  }

  /** The expected issues of the parser test for three triples, which a
      parser taking two per round pushes in two rounds: two triples, then
      the third. */
  lemma ParserThreeTripleCase(parse: string -> Option<real>)
    requires TestConversion(parse)
    ensures ArgumentParser.Stream(["exec", "11", "22", "33", "44", "55", "66", "77", "88", "99"], 1, parse)
         == [Issue(11.0, 22.0, 33.0), Issue(44.0, 55.0, 66.0), Issue(77.0, 88.0, 99.0)]
    ensures ArgumentParser.Batches(["exec", "11", "22", "33", "44", "55", "66", "77", "88", "99"], 1, 2, parse)
         == [[Issue(11.0, 22.0, 33.0), Issue(44.0, 55.0, 66.0)], [Issue(77.0, 88.0, 99.0)]]
  {
    var argv := ["exec", "11", "22", "33", "44", "55", "66", "77", "88", "99"];
    assert ArgumentParser.Stream(argv, 7, parse) == [Issue(77.0, 88.0, 99.0)];
    assert ArgumentParser.Stream(argv, 4, parse) == [Issue(44.0, 55.0, 66.0), Issue(77.0, 88.0, 99.0)];
    var i1 := Issue(11.0, 22.0, 33.0);
    var i2 := Issue(44.0, 55.0, 66.0);
    var i3 := Issue(77.0, 88.0, 99.0);
    assert argv[1] == "11" && argv[2] == "22" && argv[3] == "33";
    assert argv[4] == "44" && argv[5] == "55" && argv[6] == "66";
    assert argv[7] == "77" && argv[8] == "88" && argv[9] == "99";
    assert ArgumentParser.OptionToSeq(ArgumentParser.ParseTriple(argv, 1, parse)) == [i1];
    assert ArgumentParser.OptionToSeq(ArgumentParser.ParseTriple(argv, 4, parse)) == [i2];
    assert ArgumentParser.OptionToSeq(ArgumentParser.ParseTriple(argv, 7, parse)) == [i3];
    assert [] + [i1] + [i2] == [i1, i2];
    assert ArgumentParser.Triples(argv, 1, 0, 2, [], parse) == ([i1, i2], 7, 2);
    assert ArgumentParser.Batch(argv, 1, 2, parse) == ([i1, i2], 7);
    assert [] + [i3] == [i3];
    assert ArgumentParser.Triples(argv, 7, 0, 2, [], parse) == ([i3], 10, 1);
    assert ArgumentParser.Batch(argv, 7, 2, parse) == ([Issue(77.0, 88.0, 99.0)], 10);
    assert ArgumentParser.Batches(argv, 10, 2, parse) == [];
    assert ArgumentParser.Batches(argv, 7, 2, parse) == [[Issue(77.0, 88.0, 99.0)]];
  }
}
