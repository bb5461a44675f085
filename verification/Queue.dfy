/** The blocking queue between client threads and the worker (Queue.h). */
module BlockingQueue {
  import opened Common

  class Queue<T> {
    var items: seq<T>
    ghost var pushed: seq<T>
    ghost var popped: seq<T>

    /** What was pushed comes out in the same order, and nothing is lost or made up. */
    ghost predicate Valid()
      reads this
    {
      pushed == popped + items
    }

    constructor ()
      ensures Valid() && items == [] && pushed == []
    {
      items := [];
      pushed := [];
      popped := [];
    }

    method Push(data: T)
      requires Valid()
      modifies this
      ensures Valid() && pushed == old(pushed) + [data] && popped == old(popped)
      ensures items == old(items) + [data]
    {
      items := items + [data];
      pushed := pushed + [data];
    }

    /** None when the queue is empty: the caller goes on waiting, and nothing changes. */
    method Pop() returns (r: Option<T>)
      requires Valid()
      modifies this
      ensures Valid() && pushed == old(pushed)
      ensures r.None? <==> old(items) == []
      ensures r.None? ==> items == old(items) && popped == old(popped)
      ensures r.Some? ==> popped == old(popped) + [r.value] && [r.value] + items == old(items)
    {
      if items == [] {
        r := None;
      } else {
        r := Some(items[0]);
        popped := popped + [items[0]];
        items := items[1..];
      }
    }
  }
}
