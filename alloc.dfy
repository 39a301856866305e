/** The bump allocator, the buffer iterator and the element-destroying loop of
  * urph-fin-core.hxx. */
module Alloc {

  /** The address of the first cell of a buffer that an allocator handed out: `Null` is
    * nullptr, `Buf(cells)` a buffer whose cells hold `cells`. */
  datatype Ptr<T> = Null | Buf(cells: seq<T>)

  /** `head .. head + num` is a range the iterator may walk: a null head only with
    * `num == 0`, otherwise `num` cells inside the buffer. */
  predicate Spans<T>(head: Ptr<T>, num: int)
  {
    match head
    case Null => num == 0
    case Buf(cells) => 0 <= num <= |cells|
  }

  /** The cells between `head` and `head + num`, in storage order. */
  function Range<T>(head: Ptr<T>, num: int): (r: seq<T>)
    requires Spans(head, num)
    ensures |r| == num
  {
    match head
    case Null => []
    case Buf(cells) => cells[..num]
  }

  /** `for (auto it = begin(); it != end(); ++it)` over a container whose `begin()` is
    * `Iterator(head)` and whose `end()` is `Iterator(head + num)`: the cells visited. */
  method Walk<T>(head: Ptr<T>, num: int) returns (visited: seq<T>)
    requires Spans(head, num)
    ensures |visited| == num
    ensures forall i :: 0 <= i < num ==> visited[i] == head.cells[i]
  {
    visited := [];
    var p := 0;
    while p != num
      invariant 0 <= p <= num
      invariant visited == Range(head, num)[..p]
      decreases num - p
    {
      visited := visited + [head.cells[p]];
      p := p + 1;
    }
  }

  /** `free_placement_allocated_structs(data)`: nothing when `data->head()` is null,
    * otherwise the destructor runs on `size()` consecutive cells from the head. The
    * result is the sequence of cells destroyed, in order. */
  method FreePlacementAllocated<T>(head: Ptr<T>, size: int) returns (destroyed: seq<T>)
    requires head.Buf? ==> size <= |head.cells|
    ensures head.Null? ==> destroyed == []
    ensures head.Buf? && size <= 0 ==> destroyed == []
    ensures head.Buf? && size > 0 ==> destroyed == head.cells[..size]
  {
    destroyed := [];
    if head.Null? {
      return;
    }
    var i := 0;
    while i < size
      invariant 0 <= i <= (if size > 0 then size else 0)
      invariant destroyed == head.cells[..i]
    {
      destroyed := destroyed + [head.cells[i]];
      i := i + 1;
    }
  }

  /** The abstract value of a `PlacementNew<T>`: the cells placed so far (`head` up to
    * `current`), the buffer size `max_num` (which is also `max_counter`) and the
    * completion counter, which moves independently of the placed cells. */
  datatype AllocState<T> = AllocState(items: seq<T>, capacity: nat, counter: int)
  {
    predicate Valid() { |items| <= capacity }

    /** `allocated_num()`: `current - head`. */
    function AllocatedNum(): nat { |items| }

    /** `has_enough_counter()`. */
    predicate HasEnoughCounter() { counter >= capacity }

    /** `inc_counter()`. */
    function IncCounter(): AllocState<T> { this.(counter := counter + 1) }

    /** `next()` followed by construction in the returned cell. Its definition is not
      * part of the header; this is the behaviour its callers rely on. */
    function Next(x: T): AllocState<T>
      requires |items| < capacity
    {
      this.(items := items + [x])
    }

    /** Whether the next `Next` stays inside the buffer. */
    predicate HasRoom() { |items| < capacity }
  }

  /** `PlacementNew(max_num)`. */
  function NewAlloc<T>(maxNum: nat): (a: AllocState<T>)
    ensures a.Valid() && a.AllocatedNum() == 0 && a.counter == 0 && a.capacity == maxNum
    ensures !a.HasEnoughCounter() <==> maxNum > 0
  {
    AllocState([], maxNum, 0)
  }

  /** One call on an allocator: `next()` with the value built in the cell, or `inc_counter()`. */
  datatype AllocOp<T> = Place(x: T) | Count

  function Placed<T>(ops: seq<AllocOp<T>>): (xs: seq<T>)
    ensures |xs| <= |ops|
  {
    if ops == [] then []
    else if ops[0].Place? then [ops[0].x] + Placed(ops[1..])
    else Placed(ops[1..])
  }

  function Counts<T>(ops: seq<AllocOp<T>>): (n: nat)
    ensures n <= |ops|
  {
    if ops == [] then 0 else (if ops[0].Count? then 1 else 0) + Counts(ops[1..])
  }

  /** The calls of `ops`, in order, on `a`, as long as every placement has room. */
  function Apply<T>(a: AllocState<T>, ops: seq<AllocOp<T>>): AllocState<T>
    requires |a.items| + |Placed(ops)| <= a.capacity
    decreases |ops|
  {
    if ops == [] then a
    else
      match ops[0]
      case Place(x) => Apply(a.Next(x), ops[1..])
      case Count => Apply(a.IncCounter(), ops[1..])
  }

  /** After any sequence of calls the placed cells are exactly the placed values, in
    * order, and the counter has moved by exactly the number of `inc_counter()` calls:
    * allocation and completion counting never interfere. */
  lemma {:induction false} ApplyEffect<T>(a: AllocState<T>, ops: seq<AllocOp<T>>)
    requires |a.items| + |Placed(ops)| <= a.capacity
    ensures Apply(a, ops).items == a.items + Placed(ops)
    ensures Apply(a, ops).counter == a.counter + Counts(ops)
    ensures Apply(a, ops).capacity == a.capacity
    ensures Apply(a, ops).Valid()
    decreases |ops|
  {
    if ops != [] {
      match ops[0]
      case Place(x) =>
        ApplyEffect(a.Next(x), ops[1..]);
        assert a.items + Placed(ops) == a.items + [x] + Placed(ops[1..]);
      case Count =>
        ApplyEffect(a.IncCounter(), ops[1..]);
    }
  }

  /** Starting from `PlacementNew(n)`, `has_enough_counter()` holds exactly once
    * `inc_counter()` has been called at least `n` times, however many cells were placed. */
  lemma EnoughExactlyAfterCapacityCounts<T>(n: nat, ops: seq<AllocOp<T>>)
    requires |Placed(ops)| <= n
    ensures Apply(NewAlloc<T>(n), ops).HasEnoughCounter() <==> Counts(ops) >= n
    ensures Apply(NewAlloc<T>(n), ops).AllocatedNum() == |Placed(ops)|
  {
    ApplyEffect(NewAlloc<T>(n), ops);
  }

  /** `PlacementNew<T>` over the buffer `head = new T[max_num]`: `current` is the index of
    * the next free cell. `new T[max_num]` default-constructs every cell. */
  class PlacementNew<T(0)> {
    const head: array<T>
    var current: nat
    var counter: int
    var maxCounter: int

    ghost predicate Valid()
      reads this
    {
      current <= head.Length && maxCounter == head.Length
    }

    function State(): AllocState<T>
      reads this, head
      requires Valid()
    {
      AllocState(head[..current], head.Length, counter)
    }

    constructor (maxNum: nat)
      ensures Valid() && fresh(head)
      ensures State() == NewAlloc(maxNum)
      ensures maxCounter == maxNum && counter == 0 && AllocatedNum() == 0
    {
      maxCounter := maxNum;
      counter := 0;
      head := new T[maxNum];
      current := 0;
    }

    /** `allocated_num()`: the number of cells placed so far. */
    function AllocatedNum(): (n: nat)
      reads this, head
      requires Valid()
      ensures n == |State().items| && n <= maxCounter
    {
      current
    }

    /** `end()`: the index just past the placed cells. */
    function End(): (p: nat)
      reads this, head
      requires Valid()
      ensures p <= head.Length && head[..p] == State().items
    {
      current
    }

    /** `has_enough_counter()`. */
    function HasEnoughCounter(): (b: bool)
      reads this, head
      requires Valid()
      ensures b <==> State().HasEnoughCounter()
    {
      counter >= maxCounter
    }

    /** `inc_counter()`: bumps the counter and returns its new value; nothing else moves. */
    method IncCounter() returns (c: int)
      requires Valid()
      modifies this`counter
      ensures Valid() && State() == old(State()).IncCounter()
      ensures c == counter == old(counter) + 1
    {
      counter := counter + 1;
      c := counter;
    }

    /** `next()` and construction of `x` in the returned cell; `slot` is that cell's index. */
    method Next(x: T) returns (slot: nat)
      requires Valid() && current < head.Length
      modifies this`current, head
      ensures Valid() && State() == old(State()).Next(x)
      ensures slot == old(current) && head[slot] == x
    {
      slot := current;
      head[current] := x;
      current := current + 1;
    }
  }
}
