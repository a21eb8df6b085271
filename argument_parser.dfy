/** The command-line parser of src/argument_parser.h: it walks argv[1..argc)
    in triples, turning each into one issue, and pushes one batch per round
    into the issue pipe. `std::stod` is the parameter `parse`: the number a
    token denotes, or `None` where the conversion throws. */
module ArgumentParser {
  import opened Wrappers
  import opened Pipe
  import opened Equation

  /** The issue of the three tokens at i, i+1, i+2, if all three convert. */
  function ParseTriple(argv: seq<string>, i: nat, parse: string -> Option<real>): (r: Option<Issue>)
    requires i + 2 < |argv|
    ensures r.Some? <==> parse(argv[i]).Some? && parse(argv[i + 1]).Some? && parse(argv[i + 2]).Some?
    ensures r.Some? ==>
      r.value == Issue(parse(argv[i]).value, parse(argv[i + 1]).value, parse(argv[i + 2]).value)
  {
    match parse(argv[i])
    case None => None
    case Some(a) =>
      match parse(argv[i + 1])
      case None => None
      case Some(b) =>
        match parse(argv[i + 2])
        case None => None
        case Some(c) => Some(Issue(a, b, c))
  }

  /** The issue of a trailing one or two tokens at i, and the position after
      them. Missing coefficients stay 0; a first token that does not convert
      gives (0, 0, 0) and consumes only itself; otherwise two positions are
      consumed, and a second token that does not convert leaves b at 0. */
  function ParseTail(argv: seq<string>, i: nat, parse: string -> Option<real>): (r: (Issue, nat))
    requires i < |argv|
    ensures r.0 == Issue(parse(argv[i]).GetOr(0.0),
                         if parse(argv[i]).Some? && i + 1 < |argv| then parse(argv[i + 1]).GetOr(0.0) else 0.0,
                         0.0)
    ensures r.1 == if parse(argv[i]).None? then i + 1 else i + 2
  {
    match parse(argv[i])
    case None => (Issue(0.0, 0.0, 0.0), i + 1)
    case Some(a) =>
      var b := if i + 1 < |argv| then parse(argv[i + 1]).GetOr(0.0) else 0.0;
      (Issue(a, b, 0.0), i + 2)
  }

  function OptionToSeq<T>(o: Option<T>): seq<T>
  {
    match o
    case None => []
    case Some(v) => [v]
  }

  /** The triples loop of one round, from position i with `count` triples
      taken and `kept` issues kept so far: the issues kept when it stops,
      the position where it stops and the number of triples then taken.
      Every triple it consumes counts toward the limit, whether or not it
      converts. */
  function Triples(argv: seq<string>, i: nat, count: int, limit: int, kept: seq<Issue>,
                   parse: string -> Option<real>): (r: (seq<Issue>, nat, int))
    decreases |argv| - i
    ensures i <= r.1
  {
    if i + 2 < |argv| && count < limit then
      Triples(argv, i + 3, count + 1, limit, kept + OptionToSeq(ParseTriple(argv, i, parse)), parse)
    else
      (kept, i, count)
  }

  /** The triples loop takes three positions per triple counted, keeps at
      most one issue per triple, never passes the limit, and stops short of
      it only when fewer than three tokens remain. */
  lemma {:induction false} TriplesBounds(argv: seq<string>, i: nat, count: int, limit: int, kept: seq<Issue>,
                                         parse: string -> Option<real>)
    ensures var r := Triples(argv, i, count, limit, kept, parse);
      && count <= r.2 && r.1 == i + 3 * (r.2 - count)
      && |r.0| <= |kept| + r.2 - count
      && (count <= limit ==> r.2 <= limit)
      && (r.2 < limit ==> |argv| <= r.1 + 2)
    decreases |argv| - i
  {
    if i + 2 < |argv| && count < limit {
      TriplesBounds(argv, i + 3, count + 1, limit, kept + OptionToSeq(ParseTriple(argv, i, parse)), parse);
    }
  }

  /** One round of the outer loop from position i: the batch it pushes and
      the position it leaves. */
  function Batch(argv: seq<string>, i: nat, limit: int, parse: string -> Option<real>): (r: (seq<Issue>, nat))
    ensures i <= r.1
  {
    var t := Triples(argv, i, 0, limit, [], parse);
    if t.2 < limit && t.1 > 0 && t.1 < |argv| then
      var tail := ParseTail(argv, t.1, parse);
      (t.0 + [tail.0], tail.1)
    else
      (t.0, t.1)
  }

  /** A round never moves backwards, pushes at most `limit` issues, and with
      a positive limit always moves forward while arguments remain. */
  lemma BatchBounds(argv: seq<string>, i: nat, limit: int, parse: string -> Option<real>)
    ensures var r := Batch(argv, i, limit, parse);
      && i <= r.1
      && (limit >= 0 ==> |r.0| <= limit)
      && (limit >= 1 && 0 < i < |argv| ==> i < r.1)
  {
    TriplesBounds(argv, i, 0, limit, [], parse);
  }

  /** The items of a sequence of pushed batches, in the order they reach the
      pipe. */
  function Flatten<T>(batches: seq<seq<T>>): seq<T>
  {
    if batches == [] then [] else batches[0] + Flatten(batches[1..])
  }

  /** The batches pushed by the rounds from position i until argc. */
  function Batches(argv: seq<string>, i: nat, limit: int, parse: string -> Option<real>): (r: seq<seq<Issue>>)
    requires limit >= 1 && i >= 1
    decreases |argv| - i
    ensures r == [] <==> |argv| <= i
    ensures r == [] || i + |r| <= |argv|
  {
    if i < |argv| then
      var b := Batch(argv, i, limit, parse);
      BatchBounds(argv, i, limit, parse);
      [b.0] + Batches(argv, b.1, limit, parse)
    else
      []
  }

  /** The issues of the arguments from position i, with no batching: a
      triple at a time while three tokens remain, then the trailing tokens. */
  function Stream(argv: seq<string>, i: nat, parse: string -> Option<real>): (r: seq<Issue>)
    requires i >= 1
    decreases |argv| - i
    ensures |argv| <= i ==> r == []
    ensures r == [] || i + |r| <= |argv|
  {
    if i + 2 < |argv| then
      OptionToSeq(ParseTriple(argv, i, parse)) + Stream(argv, i + 3, parse)
    else if i < |argv| then
      var tail := ParseTail(argv, i, parse);
      [tail.0] + Stream(argv, tail.1, parse)
    else
      []
  }

  lemma {:induction false} TriplesThenStream(argv: seq<string>, i: nat, count: int, limit: int,
                                             kept: seq<Issue>, parse: string -> Option<real>)
    requires i >= 1
    ensures var t := Triples(argv, i, count, limit, kept, parse);
      t.0 + Stream(argv, t.1, parse) == kept + Stream(argv, i, parse)
    decreases |argv| - i
  {
    if i + 2 < |argv| && count < limit {
      var now := OptionToSeq(ParseTriple(argv, i, parse));
      TriplesThenStream(argv, i + 3, count + 1, limit, kept + now, parse);
      assert Stream(argv, i, parse) == now + Stream(argv, i + 3, parse);
      assert (kept + now) + Stream(argv, i + 3, parse) == kept + (now + Stream(argv, i + 3, parse));
    }
  }

  /** A round's batch followed by the stream from where it stops is the
      stream from where it starts. */
  lemma {:induction false} BatchThenStream(argv: seq<string>, i: nat, limit: int, parse: string -> Option<real>)
    requires i >= 1
    ensures var b := Batch(argv, i, limit, parse);
      b.0 + Stream(argv, b.1, parse) == Stream(argv, i, parse)
  {
    var t := Triples(argv, i, 0, limit, [], parse);
    TriplesThenStream(argv, i, 0, limit, [], parse);
    TriplesBounds(argv, i, 0, limit, [], parse);
    if t.2 < limit && t.1 > 0 && t.1 < |argv| {
      assert t.0 + [ParseTail(argv, t.1, parse).0] + Stream(argv, ParseTail(argv, t.1, parse).1, parse)
          == t.0 + Stream(argv, t.1, parse);
    }
  }

  /** However many triples a round may take, the issues pushed over all
      rounds are the same: the unbatched stream, in argument order. */
  lemma {:induction false} BatchingKeepsStream(argv: seq<string>, i: nat, limit: int,
                                               parse: string -> Option<real>)
    requires limit >= 1 && i >= 1
    ensures Flatten(Batches(argv, i, limit, parse)) == Stream(argv, i, parse)
    decreases |argv| - i
  {
    if i < |argv| {
      var b := Batch(argv, i, limit, parse);
      BatchBounds(argv, i, limit, parse);
      BatchingKeepsStream(argv, b.1, limit, parse);
      BatchThenStream(argv, i, limit, parse);
      assert Batches(argv, i, limit, parse) == [b.0] + Batches(argv, b.1, limit, parse);
      assert ([b.0] + Batches(argv, b.1, limit, parse))[1..] == Batches(argv, b.1, limit, parse);
    }
  }

  /** Every batch holds at most `limit` issues. */
  lemma {:induction false} BatchesBounded(argv: seq<string>, i: nat, limit: int,
                                          parse: string -> Option<real>)
    requires limit >= 1 && i >= 1
    ensures forall k :: 0 <= k < |Batches(argv, i, limit, parse)| ==>
      |Batches(argv, i, limit, parse)[k]| <= limit
    decreases |argv| - i
  {
    if i < |argv| {
      var b := Batch(argv, i, limit, parse);
      BatchBounds(argv, i, limit, parse);
      BatchesBounded(argv, b.1, limit, parse);
    }
  }

  /** A limit below 1 makes a round take nothing and stay where it is, so the
      loop would never end. */
  lemma NoProgressWithoutLimit(argv: seq<string>, i: nat, limit: int, parse: string -> Option<real>)
    requires limit <= 0
    ensures Batch(argv, i, limit, parse) == ([], i)
  {
  }

  /** A triple with a token that does not convert is dropped whole. */
  lemma DroppedTriple(argv: seq<string>, i: nat, parse: string -> Option<real>)
    requires i >= 1 && i + 2 < |argv| && ParseTriple(argv, i, parse).None?
    ensures Stream(argv, i, parse) == Stream(argv, i + 3, parse)
  {
  }

  /** All remaining tokens convert and come in whole triples: issue j is made
      of tokens i+3j, i+3j+1, i+3j+2. */
  lemma {:induction false} WholeTriples(argv: seq<string>, i: nat, parse: string -> Option<real>)
    requires i >= 1 && i <= |argv| && (|argv| - i) % 3 == 0
    requires forall k :: i <= k < |argv| ==> parse(argv[k]).Some?
    ensures |Stream(argv, i, parse)| == (|argv| - i) / 3
    ensures forall j :: 0 <= j < (|argv| - i) / 3 ==>
      Stream(argv, i, parse)[j] ==
        Issue(parse(argv[i + 3 * j]).value, parse(argv[i + 3 * j + 1]).value, parse(argv[i + 3 * j + 2]).value)
    decreases |argv| - i
  {
    if i < |argv| {
      WholeTriples(argv, i + 3, parse);
      var rest := Stream(argv, i + 3, parse);
      assert Stream(argv, i, parse) == [ParseTriple(argv, i, parse).value] + rest;
      forall j | 1 <= j < (|argv| - i) / 3
        ensures Stream(argv, i, parse)[j] ==
          Issue(parse(argv[i + 3 * j]).value, parse(argv[i + 3 * j + 1]).value, parse(argv[i + 3 * j + 2]).value)
      {
        assert Stream(argv, i, parse)[j] == rest[j - 1];
        assert i + 3 + 3 * (j - 1) == i + 3 * j;
      }
    }
  }

  /** The parser thread: it registers as a producer of issues, then parses
      argv from position 1. */
  class ArgumentParser {
    const tripleLimit: int
    const argv: seq<string>
    const issuePipe: IssuePipe
    const producerId: int
    var currentArg: nat

    /** Registers one producer on the issue pipe; parsing starts at argv[1],
        after the program name. */
    constructor (tripleLimit: int, argv: seq<string>, issuePipe: IssuePipe)
      modifies issuePipe
      ensures this.tripleLimit == tripleLimit && this.argv == argv && this.issuePipe == issuePipe
      ensures currentArg == 1
      ensures producerId == |old(issuePipe.done)|
      ensures issuePipe.done == old(issuePipe.done) + [false]
      ensures issuePipe.backlog == old(issuePipe.backlog)
    {
      this.tripleLimit := tripleLimit;
      this.argv := argv;
      this.issuePipe := issuePipe;
      this.currentArg := 1;
      var id := issuePipe.RegisterAsProducer();
      this.producerId := id;
    }

    /** The thread body: one batch per round until argc, then mark this
        producer done. Over all rounds the pipe receives the issues of the
        arguments from the starting position, in order; BatchingKeepsStream
        shows that this is the concatenation of the rounds' batches. */
    method Run(parse: string -> Option<real>)
      requires tripleLimit >= 1 && currentArg >= 1
      requires 0 <= producerId < |issuePipe.done|
      modifies this, issuePipe
      ensures issuePipe.backlog == old(issuePipe.backlog) + Stream(argv, old(currentArg), parse)
      ensures issuePipe.done == old(issuePipe.done)[producerId := true]
      ensures currentArg >= |argv|
    {
      ghost var pushed := issuePipe.backlog + Stream(argv, currentArg, parse);
      while currentArg < |argv|
        invariant currentArg >= 1
        invariant issuePipe.backlog + Stream(argv, currentArg, parse) == pushed
        invariant issuePipe.done == old(issuePipe.done)
        decreases |argv| - currentArg
      {
        ghost var before := currentArg;
        ghost var backlog := issuePipe.backlog;
        var issues := ParseRound(parse);
        BatchBounds(argv, before, tripleLimit, parse);
        BatchThenStream(argv, before, tripleLimit, parse);
        issuePipe.Push(issues);
        assert issuePipe.backlog + Stream(argv, currentArg, parse)
            == backlog + (issues + Stream(argv, currentArg, parse));
      }
      issuePipe.SetNoMoreProducing(producerId);
    }

    /** One round of the outer loop: up to `tripleLimit` triples, then, if the
        limit was not reached, the trailing one or two tokens. */
    method ParseRound(parse: string -> Option<real>) returns (issues: seq<Issue>)
      modifies this
      ensures (issues, currentArg) == Batch(argv, old(currentArg), tripleLimit, parse)
    {
      var tripleCount;
      issues, tripleCount := ParseTriples(parse);
      if tripleCount < tripleLimit && currentArg > 0 && currentArg < |argv| {
        var issue := ParseTrailing(parse);
        issues := issues + [issue];
      }
    }

    /** The triples loop of a round. */
    method ParseTriples(parse: string -> Option<real>) returns (issues: seq<Issue>, tripleCount: int)
      modifies this
      ensures (issues, currentArg, tripleCount) == Triples(argv, old(currentArg), 0, tripleLimit, [], parse)
    {
      var arg := currentArg;
      issues := [];
      tripleCount := 0;
      while arg + 2 < |argv| && tripleCount < tripleLimit
        invariant Triples(argv, arg, tripleCount, tripleLimit, issues, parse)
               == Triples(argv, old(currentArg), 0, tripleLimit, [], parse)
        decreases |argv| - arg
      {
        ghost var before := issues;
        var issue := ConvertTriple(arg, parse);
        if issue.Some? {
          issues := issues + [issue.value];
        }
        assert issues == before + OptionToSeq(issue);
        arg := arg + 3;
        tripleCount := tripleCount + 1;
      }
      currentArg := arg;
    }

    /** The try block of one triple: the three conversions in order; the
        first that throws abandons the triple. */
    method ConvertTriple(arg: nat, parse: string -> Option<real>) returns (issue: Option<Issue>)
      requires arg + 2 < |argv|
      ensures issue == ParseTriple(argv, arg, parse)
    {
      issue := None;
      var a := parse(argv[arg]);
      if a.Some? {
        var b := parse(argv[arg + 1]);
        if b.Some? {
          var c := parse(argv[arg + 2]);
          if c.Some? {
            issue := Some(Issue(a.value, b.value, c.value));
          }
        }
      }
    }

    /** The block for the trailing one or two tokens; a conversion failure
        ends the block early, as the exception does. */
    method ParseTrailing(parse: string -> Option<real>) returns (issue: Issue)
      requires currentArg < |argv|
      modifies this
      ensures (issue, currentArg) == ParseTail(argv, old(currentArg), parse)
    {
      var arg := currentArg;
      issue := Issue(0.0, 0.0, 0.0);
      var a := parse(argv[arg]);
      if a.None? {
        arg := arg + 1;
      } else {
        issue := issue.(a := a.value);
        arg := arg + 1;
        if arg < |argv| {
          var b := parse(argv[arg]);
          if b.None? {
            arg := arg + 1;
          } else {
            issue := issue.(b := b.value);
            arg := arg + 1;
          }
        } else {
          arg := arg + 1;
        }
      }
      currentArg := arg;
    }
  }
}
