/** `struct fifo8` (lib/fifo8.h) and its operations (lib/fifo8.c): a circular
    byte queue over a fixed buffer with a read cursor `head` and a count `num`,
    all three `uint8_t`. */
module Fifo {
  import opened Common

  /** `CONFIFO_SIZE` (ble/ble.h): capacity of each console FIFO. */
  const CONFIFO_SIZE: nat := 96

  /** `i % n` for an index that has gone at most once around the ring. */
  function Wrap(i: nat, n: nat): (r: nat)
    requires 0 < n && i < 2 * n
    ensures r < n && r == i % n
  {
    if i < n then i else i - n
  }

  class Fifo8 {
    const size: nat
    const buf: array<byte>
    var head: nat
    var num: nat

    /** The queued bytes, oldest first. */
    ghost var Contents: seq<byte>

    /** The fields fit their `uint8_t` types, `size` is the buffer's length and
        is not zero (the source divides by it), and the `num` cells from `head`
        on, wrapping at `size`, hold `Contents`. */
    ghost predicate Valid()
      reads this, buf
    {
      && buf.Length == size
      && 0 < size < 0x100
      && head < size
      && num <= size
      && |Contents| == num
      && forall k :: 0 <= k < num ==> Contents[k] == buf[Wrap(head + k, size)]
    }

    /** The storage the initialisation loop of `Peripheral_Init` wires up: a
        zeroed buffer of `capacity` bytes, with `head` and `num` zeroed by the
        `memset` of the slot table. */
    constructor (capacity: nat)
      requires 0 < capacity < 0x100
      ensures Valid() && fresh(buf)
      ensures size == capacity && head == 0 && Contents == []
    {
      size := capacity;
      buf := new byte[capacity](_ => 0);
      head, num := 0, 0;
      Contents := [];
    }

    /** `fifo8_reset`: empties the queue; the buffer is left as it is. */
    method Reset()
      requires buf.Length == size && 0 < size < 0x100
      modifies this
      ensures Valid() && head == 0 && num == 0 && Contents == []
      ensures Used() == 0 && Free() == size
    {
      head := 0;
      num := 0;
      Contents := [];
    }

    /** `fifo8_used`: the number of queued bytes. */
    function Used(): (n: nat)
      reads this, buf
      requires Valid()
      ensures n == |Contents| && n <= size
    {
      num
    }

    /** `fifo8_free`: the room left. */
    function Free(): (n: nat)
      reads this, buf
      requires Valid()
      ensures n + |Contents| == size
      ensures n == 0 <==> |Contents| == size
    {
      size - num
    }

    /** `fifo8_push`: the caller must know the queue is not full; the byte
        goes into the cell just past the last queued one and nothing else in
        the buffer changes. */
    method Push(x: byte)
      requires Valid() && num < size
      modifies this, buf
      ensures Valid()
      ensures Contents == old(Contents) + [x]
      ensures head == old(head) && num == old(num) + 1
      ensures buf[(old(head) + old(num)) % size] == x
      ensures forall j :: 0 <= j < size && j != (old(head) + old(num)) % size ==> buf[j] == old(buf[j])
    {
      assert (head + num) % size == Wrap(head + num, size);
      buf[(head + num) % size] := x;
      num := num + 1;
      Contents := Contents + [x];
    }

    /** `fifo8_pop`: the caller must know the queue is not empty; returns the
        oldest byte and moves `head` on. `head + 1` never exceeds 255, so the
        `uint8_t` increment does not wrap before the `% size`. */
    method Pop() returns (x: byte)
      requires Valid() && num > 0
      modifies this
      ensures Valid()
      ensures x == old(Contents)[0] && Contents == old(Contents)[1..]
      ensures x == buf[old(head)]
      ensures head == (old(head) + 1) % size && num == old(num) - 1
    {
      x := buf[head];
      head := head + 1;
      assert head % size == Wrap(head, size);
      head := head % size;
      num := num - 1;
      Contents := Contents[1..];
    }
  }

  /** The round trip of a FIFO: push `data` while it fits, then pop
      everything; what comes out is what was queued before, followed by
      `data` in its original order. On an empty FIFO that is `data` itself. */
  method PushThenDrain(f: Fifo8, data: seq<byte>) returns (out: seq<byte>)
    requires f.Valid() && |data| <= f.Free()
    modifies f, f.buf
    ensures f.Valid() && f.Contents == []
    ensures out == old(f.Contents) + data
  {
    ghost var before := f.Contents;
    var i := 0;
    while i < |data|
      invariant f.Valid() && 0 <= i <= |data|
      invariant f.Contents == before + data[..i]
      invariant f.num + (|data| - i) <= f.size
    {
      f.Push(data[i]);
      assert data[..i + 1] == data[..i] + [data[i]];
      i := i + 1;
    }
    assert data[..i] == data;
    out := [];
    while f.Used() > 0
      invariant f.Valid()
      invariant out + f.Contents == before + data
      decreases f.num
    {
      var x := f.Pop();
      out := out + [x];
    }
  }
}
