/** The single-producer/single-consumer ring buffer (`ringbuf::HeapRb`) that
    carries events between threads. Calls are sequential here; `try_push`
    drops the item when the buffer is full. */
module Ring {
  import opened Common

  /** The contents after `try_push(x)` on a buffer holding `q`. */
  function Pushed<T>(q: seq<T>, capacity: nat, x: T): (r: seq<T>)
    ensures |q| < capacity ==> r == q + [x]
    ensures |q| >= capacity ==> r == q
  {
    if |q| < capacity then q + [x] else q
  }

  class BoundedQueue<T> {
    var items: seq<T>
    const capacity: nat

    ghost predicate Valid()
      reads this
    {
      |items| <= capacity
    }

    constructor (capacity: nat)
      ensures Valid() && this.capacity == capacity && items == []
    {
      this.capacity := capacity;
      items := [];
    }

    method TryPush(x: T) returns (ok: bool)
      requires Valid()
      modifies this
      ensures Valid()
      ensures ok <==> |old(items)| < capacity
      ensures items == Pushed(old(items), capacity, x)
    {
      ok := |items| < capacity;
      if ok {
        items := items + [x];
      }
    }

    method TryPop() returns (r: Option<T>)
      requires Valid()
      modifies this
      ensures Valid()
      ensures old(items) == [] ==> r == None && items == []
      ensures old(items) != [] ==> r == Some(old(items)[0]) && items == old(items)[1..]
    {
      if items == [] {
        r := None;
      } else {
        r := Some(items[0]);
        items := items[1..];
      }
    }
  }
}
