/** The fixed-capacity circular buffer that holds orders between Enqueue and Drain. */
module RingBuffers {
  import opened Messages

  /** A physical slot number for a logical position less than twice the capacity. */
  function Wrap(position: nat, capacity: nat): nat
  {
    if position < capacity then position else position - capacity
  }

  lemma WrapIsModulo(position: nat, capacity: nat)
    requires 0 < capacity && position < 2 * capacity
    ensures Wrap(position, capacity) == position % capacity
  {
    if capacity <= position {
      assert position == capacity * 1 + (position - capacity);
    }
  }

  class RingBuffer<T(0)> {
    ghost var Contents: seq<T>  // oldest element first

    const storage: array<T>
    var head: nat
    var tail: nat
    var size: nat

    ghost predicate Valid()
      reads this, storage
    {
      && head < storage.Length
      && size <= storage.Length
      && tail == (head + size) % storage.Length
      && |Contents| == size
      && forall i :: 0 <= i < size ==> Contents[i] == storage[Wrap(head + i, storage.Length)]
    }

    constructor (capacity: nat)
      requires capacity > 0
      ensures Valid() && fresh(storage)
      ensures Contents == [] && storage.Length == capacity
    {
      storage := new T[capacity];
      head, tail, size := 0, 0, 0;
      Contents := [];
    }

    predicate Empty()
      reads this
    {
      size == 0
    }

    predicate Full()
      reads this
    {
      size == storage.Length
    }

    function NextIndex(index: nat): (r: nat)
      requires index < storage.Length
      ensures r == Wrap(index + 1, storage.Length)
    {
      WrapIsModulo(index + 1, storage.Length);
      (index + 1) % storage.Length
    }

    method Push(value: T) returns (ok: bool)
      requires Valid()
      modifies this, storage
      ensures Valid()
      ensures ok <==> |old(Contents)| < storage.Length
      ensures Contents == if ok then old(Contents) + [value] else old(Contents)
      ensures !ok ==> storage[..] == old(storage[..]) && head == old(head) && tail == old(tail)
    {
      if Full() {
        return false;
      }
      WrapIsModulo(head + size, storage.Length);
      storage[tail] := value;
      tail := NextIndex(tail);
      size := size + 1;
      Contents := Contents + [value];
      WrapIsModulo(head + size, storage.Length);
      ok := true;
    }

    method Pop() returns (value: Option<T>)
      requires Valid()
      modifies this
      ensures Valid()
      ensures value.None? <==> old(Contents) == []
      ensures value.None? ==> Contents == old(Contents)
      ensures value.Some? ==> old(Contents) == [value.value] + Contents
    {
      if Empty() {
        return None;
      }
      WrapIsModulo(head + size, storage.Length);
      var front := storage[head];
      head := NextIndex(head);
      size := size - 1;
      Contents := Contents[1..];
      WrapIsModulo(head + size, storage.Length);
      value := Some(front);
    }
  }

  // ---------- arbitrary sequences of operations ----------

  datatype BufferCall<T> = PushCall(value: T) | PopCall

  /** The bounded FIFO the buffer refines: pushed elements that fit, and popped elements, in order. */
  datatype Fifo<T> = Fifo(waiting: seq<T>, pushed: seq<T>, popped: seq<T>)

  function FifoStep<T>(capacity: nat, f: Fifo<T>, call: BufferCall<T>): Fifo<T>
  {
    match call
    case PushCall(v) =>
      if |f.waiting| < capacity then f.(waiting := f.waiting + [v], pushed := f.pushed + [v]) else f
    case PopCall =>
      if f.waiting == [] then f else f.(waiting := f.waiting[1..], popped := f.popped + [f.waiting[0]])
  }

  function FifoRun<T>(capacity: nat, calls: seq<BufferCall<T>>): Fifo<T>
  {
    if calls == [] then Fifo([], [], [])
    else FifoStep(capacity, FifoRun(capacity, calls[..|calls| - 1]), calls[|calls| - 1])
  }

  /** Elements leave in the order in which they were admitted, and none is lost or duplicated. */
  lemma {:induction false} FifoKeepsOrder<T>(capacity: nat, calls: seq<BufferCall<T>>)
    ensures var f := FifoRun(capacity, calls);
            f.pushed == f.popped + f.waiting && |f.waiting| <= capacity
  {
    if calls != [] {
      FifoKeepsOrder(capacity, calls[..|calls| - 1]);
    }
  }

  /** Drives a real buffer through a whole call sequence. */
  method RunCalls<T(0)>(capacity: nat, calls: seq<BufferCall<T>>) returns (buffer: RingBuffer<T>, popped: seq<T>)
    requires capacity > 0
    ensures buffer.Valid() && fresh(buffer) && buffer.storage.Length == capacity
    ensures buffer.Contents == FifoRun(capacity, calls).waiting
    ensures popped == FifoRun(capacity, calls).popped
  {
    buffer := new RingBuffer<T>(capacity);
    popped := [];
    for i := 0 to |calls|
      invariant buffer.Valid() && fresh(buffer) && fresh(buffer.storage)
      invariant buffer.storage.Length == capacity
      invariant buffer.Contents == FifoRun(capacity, calls[..i]).waiting
      invariant popped == FifoRun(capacity, calls[..i]).popped
    {
      assert calls[..i + 1][..i] == calls[..i];
      match calls[i]
      case PushCall(v) =>
        var _ := buffer.Push(v);
      case PopCall =>
        var value := buffer.Pop();
        if value.Some? {
          popped := popped + [value.value];
        }
    }
    assert calls[..|calls|] == calls;
  }
}
