/** The fixed ring buffer every queue of the firmware uses: the next free slot is
    `(head + count) % capacity`, and the oldest element is at `head`. */
module Rings {
  /** For an index below two laps the remainder only takes one lap off. */
  lemma OneLap(x: nat, capacity: nat)
    requires 0 < capacity && x < 2 * capacity
    ensures x % capacity == if x < capacity then x else x - capacity
  {
    if x >= capacity {
      assert x == capacity * 1 + (x - capacity);
    }
  }

  function Slot(head: nat, i: nat, capacity: nat): (k: nat)
    requires head < capacity && i <= capacity
    ensures k < capacity
  {
    if head + i < capacity then head + i else head + i - capacity
  }

  class Ring<T(0)> {
    const data: array<T>
    var head: nat
    var count: nat

    ghost predicate Valid()
      reads this
    {
      0 < data.Length && head < data.Length && count <= data.Length
    }

    ghost function Contents(): (s: seq<T>)
      requires Valid()
      reads this, data
      ensures |s| == count
    {
      seq(count, i requires 0 <= i < count && Valid() reads this, data => data[Slot(head, i, data.Length)])
    }

    constructor (capacity: nat)
      requires 0 < capacity
      ensures Valid() && Contents() == [] && data.Length == capacity && fresh(data)
    {
      data := new T[capacity];
      head, count := 0, 0;
    }

    method Front() returns (x: T)
      requires Valid() && Contents() != []
      ensures x == Contents()[0]
    {
      x := data[head];
    }

    method Push(x: T)
      requires Valid() && |Contents()| < data.Length
      modifies this`count, data
      ensures Valid() && Contents() == old(Contents()) + [x]
    {
      OneLap(head + count, data.Length);
      data[(head + count) % data.Length] := x;
      count := count + 1;
    }

    method Pop() returns (x: T)
      requires Valid() && Contents() != []
      modifies this`head, this`count
      ensures Valid() && x == old(Contents())[0] && Contents() == old(Contents())[1..]
    {
      x := data[head];
      OneLap(head + 1, data.Length);
      head := (head + 1) % data.Length;
      count := count - 1;
    }

    method Clear()
      requires Valid()
      modifies this`head, this`count
      ensures Valid() && Contents() == []
    {
      head, count := 0, 0;
    }
  }
}
