/** The unbounded producer/consumer FIFO of producer_consumer_pipe.h. */
module Pipe {

  /** std::all_of over the producer flags: true exactly when every flag is set,
      and therefore true for an empty flag list. */
  function AllOf(flags: seq<bool>): (r: bool)
    ensures r <==> forall i :: 0 <= i < |flags| ==> flags[i]
  {
    if flags == [] then true else flags[0] && AllOf(flags[1..])
  }

  function Min(x: nat, y: nat): nat
  {
    if x <= y then x else y
  }

  /** An unbounded FIFO shared by producers and consumers. Each producer owns
      one flag saying that it will push no more; `pop` reports, together with
      the items it removes, whether every flag is set. The mutex of the
      original is left out: every method is one atomic step. */
  class ProducerConsumerPipe<T> {
    /** The queued items, head first (the original's `data_`). */
    var backlog: seq<T>
    /** One "no more data" flag per registered producer, indexed by id
        (the original's `no_more_data_produced_`). */
    var done: seq<bool>

    constructor ()
      ensures backlog == [] && done == []
    {
      backlog := [];
      done := [];
    }

    /** The number of queued items. */
    function Size(): (n: nat)
      reads this
      ensures n == |backlog|
    {
      |backlog|
    }

    /** True when every registered producer has said it is done. */
    predicate AllProducersDone()
      reads this
    {
      AllOf(done)
    }

    /** Adds a producer still producing; its id is the number of producers
        registered before, so ids are handed out as 0, 1, 2, ... */
    method RegisterAsProducer() returns (id: int)
      modifies this
      ensures id == |old(done)|
      ensures done == old(done) + [false]
      ensures backlog == old(backlog)
    {
      done := done + [false];
      id := |done| - 1;
    }

    /** Marks producer `id` as done; nothing else changes. */
    method SetNoMoreProducing(id: int)
      requires 0 <= id < |done|
      modifies this
      ensures done == old(done)[id := true]
      ensures backlog == old(backlog)
    {
      done := done[id := true];
    }

    /** Appends `data` at the tail, one element at a time, in order. */
    method Push(data: seq<T>)
      modifies this
      ensures backlog == old(backlog) + data
      ensures Size() == old(Size()) + |data|
      ensures done == old(done)
    {
      for i := 0 to |data|
        invariant backlog == old(backlog) + data[..i]
        invariant done == old(done)
      {
        backlog := backlog + [data[i]];
      }
      assert data[..|data|] == data;
    }

    /** Removes up to `requestCount` items from the head, in FIFO order, and
        reports whether every producer was done at the time of the call. */
    method Pop(requestCount: nat := 1) returns (items: seq<T>, noMoreProducing: bool)
      modifies this
      ensures items == old(backlog)[..Min(requestCount, |old(backlog)|)]
      ensures backlog == old(backlog)[Min(requestCount, |old(backlog)|)..]
      ensures items + backlog == old(backlog) && |items| <= requestCount
      ensures noMoreProducing == AllOf(old(done)) && done == old(done)
      ensures requestCount == 0 || old(backlog) == [] ==> items == [] && backlog == old(backlog)
      ensures requestCount > 0 && items == [] && noMoreProducing ==>
        old(backlog) == [] && forall i :: 0 <= i < |old(done)| ==> old(done)[i]
    {
      items := [];
      noMoreProducing := AllOf(done);
      var idx := 0;
      while idx < requestCount
        invariant 0 <= idx <= requestCount && |items| == idx
        invariant items + backlog == old(backlog)
        invariant done == old(done)
      {
        if backlog == [] {
          break;
        }
        items := items + [backlog[0]];
        backlog := backlog[1..];
        idx := idx + 1;
      }
      assert old(backlog)[..|items|] == items;
    }
  }

  /** Marking the same producer done twice leaves the pipe as marking it once. */
  method SetNoMoreProducingTwice<T>(p: ProducerConsumerPipe<T>, id: int)
    requires 0 <= id < |p.done|
    modifies p
    ensures p.done == old(p.done)[id := true]
    ensures p.backlog == old(p.backlog)
  {
    p.SetNoMoreProducing(id);
    p.SetNoMoreProducing(id);
  }
}
