/** A fixed-size ring indexed by ever-growing head and tail counters, as the completion queue, the arrival ring,
    the worker queue and the pending rings all use. Storing and publishing an element are separate steps. */
module Rings {

  class Ring<T(0)> {
    const cap: nat
    const data: array<T>
    var head: nat
    var tail: nat

    function Cell(k: nat): (c: nat)
      requires 0 < cap == data.Length
      ensures c < data.Length
    {
      k % cap
    }

    ghost predicate Valid()
      reads this
    {
      0 < cap == data.Length && tail <= head <= tail + cap
    }

    ghost function Contents(): (s: seq<T>)
      requires Valid()
      reads this, data
      ensures |s| == head - tail
    {
      seq(head - tail, k requires 0 <= k < head - tail reads this, data => data[Cell(tail + k)])
    }

    constructor (cap: nat)
      requires cap > 0
      ensures Valid() && this.cap == cap && fresh(data) && Contents() == []
    {
      this.cap := cap;
      data := new T[cap];
      head, tail := 0, 0;
    }

    /** Different counters in a window no wider than the ring use different cells. */
    lemma Apart(a: nat, b: nat)
      requires 0 < cap == data.Length && a < b < a + cap
      ensures Cell(a) != Cell(b)
    {
      Remainder(a, b, cap);
    }

    static lemma NoMultiple(d: int, n: nat)
      ensures d * n <= 0 || d * n >= n
    {
      if d >= 1 {
        assert d * n == (d - 1) * n + n && (d - 1) * n >= 0;
      }
    }

    static lemma Remainder(a: nat, b: nat, n: nat)
      requires 0 < n && a < b < a + n
      ensures a % n != b % n
    {
      NoMultiple(b / n - a / n, n);
      assert a == (a / n) * n + a % n && b == (b / n) * n + b % n;
      assert (b / n - a / n) * n == (b / n) * n - (a / n) * n;
    }

    /** Write the next cell; nothing is visible yet. */
    method Store(x: T)
      requires Valid() && head - tail < cap
      modifies data
      ensures Valid() && Contents() == old(Contents()) && data[Cell(head)] == x
    {
      forall c: nat | tail <= c < head ensures Cell(c) != Cell(head) {
        Apart(c, head);
      }
      hide Cell;
      data[Cell(head)] := x;
    }

    /** Make the stored cell visible. */
    method Publish()
      requires Valid() && head - tail < cap
      modifies this`head
      ensures Valid() && head == old(head) + 1
      ensures Contents() == old(Contents()) + [old(data[Cell(head)])]
    {
      head := head + 1;
    }

    /** Both at once, under a lock. */
    method Push(x: T)
      requires Valid() && head - tail < cap
      modifies this`head, data
      ensures Valid() && Contents() == old(Contents()) + [x]
    {
      Store(x);
      Publish();
    }

    method Pop() returns (x: T)
      requires Valid() && tail < head
      modifies this`tail
      ensures Valid() && x == old(Contents())[0] && Contents() == old(Contents())[1..]
      ensures tail == old(tail) + 1
    {
      x := data[Cell(tail)];
      tail := tail + 1;
    }
  }
}
