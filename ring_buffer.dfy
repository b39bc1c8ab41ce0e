/** The bounded single-producer/single-consumer byte FIFO every stage is built
    on (`esphome::RingBuffer`). Its implementation is not part of this model;
    the class states the contract the stages rely on: a write stores as much of
    its data as fits, a read takes bytes from the front, and `reset` empties it. */
module RingBuffers {
  import opened Common

  /** The contents of a FIFO holding `c`, with room for `cap` bytes, after a
      non-blocking write of `data`. */
  function Stored(c: seq<byte>, cap: nat, data: seq<byte>): (r: seq<byte>)
    requires |c| <= cap
    ensures |c| <= |r| <= cap && |r| - |c| <= |data|
    ensures r == c + data[..|r| - |c|]
    ensures |r| < cap ==> r == c + data
  {
    c + data[..Min(|data|, cap - |c|)]
  }

  /** The bytes a read of at most `max` bytes takes from a FIFO holding `c`. */
  function Taken(c: seq<byte>, max: nat): (r: seq<byte>)
    ensures |r| <= max && r <= c
    ensures |r| < max ==> r == c
  {
    c[..Min(max, |c|)]
  }

  /** The contents after writing `chunks` one after the other. */
  function StoredAll(c: seq<byte>, cap: nat, chunks: seq<seq<byte>>): (r: seq<byte>)
    requires |c| <= cap
    ensures |c| <= |r| <= cap
    decreases |chunks|
  {
    if chunks == [] then c else StoredAll(Stored(c, cap, chunks[0]), cap, chunks[1..])
  }

  function Concat(chunks: seq<seq<byte>>): (r: seq<byte>)
    decreases |chunks|
  {
    if chunks == [] then [] else chunks[0] + Concat(chunks[1..])
  }

  /** Round trip: writes that fit in the free space are all kept, in order, and
      a read of everything buffered returns exactly those bytes. */
  lemma {:induction false} WritesThatFitAreReadBack(c: seq<byte>, cap: nat, chunks: seq<seq<byte>>)
    requires |c| + |Concat(chunks)| <= cap
    ensures StoredAll(c, cap, chunks) == c + Concat(chunks)
    ensures Taken(StoredAll(c, cap, chunks), |c| + |Concat(chunks)|) == c + Concat(chunks)
    decreases |chunks|
  {
    if chunks != [] {
      assert |Concat(chunks)| == |chunks[0]| + |Concat(chunks[1..])|;
      var c' := Stored(c, cap, chunks[0]);
      assert Min(|chunks[0]|, cap - |c|) == |chunks[0]|;
      assert c' == c + chunks[0];
      WritesThatFitAreReadBack(c', cap, chunks[1..]);
      assert c' + Concat(chunks[1..]) == c + Concat(chunks);
    }
    var all := c + Concat(chunks);
    assert Min(|all|, |all|) == |all|;
    assert all[..|all|] == all;
  }

  class RingBuffer {
    const capacity: nat
    var contents: seq<byte>

    ghost predicate Valid()
      reads this
    {
      |contents| <= capacity
    }

    /** `available()`: bytes buffered. */
    function Available(): (r: nat)
      reads this
    {
      |contents|
    }

    /** `free()`: room left. */
    function Free(): (r: nat)
      reads this
      requires Valid()
    {
      capacity - |contents|
    }

    constructor (capacity: nat)
      ensures Valid() && this.capacity == capacity && contents == []
    {
      this.capacity := capacity;
      contents := [];
    }

    /** `write(data, len)`: never blocks; stores `min(len, free())` bytes and
        returns that count. */
    method Write(data: seq<byte>) returns (n: nat)
      requires Valid()
      modifies this
      ensures Valid()
      ensures contents == Stored(old(contents), capacity, data)
      ensures n == |contents| - |old(contents)| && n == Min(|data|, old(Free()))
    {
      n := Min(|data|, capacity - |contents|);
      contents := contents + data[..n];
    }

    /** `read(buffer, max, timeout)`: returns at most `max` bytes from the
        front (with timeout 0 it never waits). */
    method Read(max: nat) returns (data: seq<byte>)
      requires Valid()
      modifies this
      ensures Valid()
      ensures data == Taken(old(contents), max) && |data| == Min(max, old(Available()))
      ensures old(contents) == data + contents
    {
      data := contents[..Min(max, |contents|)];
      contents := contents[|data|..];
    }

    /** `reset()`: abandons everything buffered. */
    method Reset()
      modifies this
      ensures Valid() && contents == []
    {
      contents := [];
    }
  }
}
