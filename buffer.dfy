/** The output-history ring buffer of the stream layer: a byte vector that
    keeps only the last `capacity` bytes of everything pushed into it. */
module StreamBuffer {
  import opened Base

  /** The window a buffer of the given capacity keeps of the byte stream `s`:
      the longest suffix of `s` that fits in `capacity` bytes. */
  function Retained(capacity: nat, s: seq<byte>): (r: seq<byte>)
    ensures |r| <= capacity && |r| <= |s|
    ensures r == s[|s| - |r|..]
    ensures |r| == capacity || r == s
  {
    if |s| <= capacity then s else s[|s| - capacity..]
  }

  /** One iteration of `push`'s loop as a value: when the vector is full its
      first byte is removed, then `b` is appended. Removing index 0 of an
      empty vector panics in Rust, which is `None` here. */
  function PushByte(capacity: nat, data: seq<byte>, b: byte): (r: Option<seq<byte>>)
    ensures r.None? <==> capacity == 0 && data == []
    ensures r.Some? ==> |r.value| > 0 && r.value[|r.value| - 1] == b && IsSuffix(r.value, data + [b])
    ensures r.Some? && |data| < capacity ==> r.value == data + [b]
    ensures r.Some? && |data| >= capacity ==> |r.value| == |data|
  {
    if |data| >= capacity then
      if data == [] then None else Some(data[1..] + [b])
    else
      Some(data + [b])
  }

  /** The whole loop of `push` over `bytes`, one byte at a time, stopping at
      the first panic. */
  function PushLoop(capacity: nat, data: seq<byte>, bytes: seq<byte>): (r: Option<seq<byte>>)
    ensures r.None? ==> bytes != [] && capacity == 0
    ensures r.Some? ==> IsSuffix(r.value, data + bytes)
    decreases |bytes|
  {
    if bytes == [] then
      assert data + bytes == data;
      Some(data)
    else
      match PushByte(capacity, data, bytes[0])
      case None => None
      case Some(next) =>
        var r := PushLoop(capacity, next, bytes[1..]);
        SuffixStep(r, next, data, bytes);
        r
  }

  /** `t` ends `s`. */
  predicate IsSuffix(t: seq<byte>, s: seq<byte>)
  {
    |t| <= |s| && t == s[|s| - |t|..]
  }

  /** One step of the loop keeps the window a suffix of everything pushed. */
  lemma SuffixStep(r: Option<seq<byte>>, next: seq<byte>, data: seq<byte>, bytes: seq<byte>)
    requires bytes != []
    requires IsSuffix(next, data + [bytes[0]])
    requires r.Some? ==> IsSuffix(r.value, next + bytes[1..])
    ensures r.Some? ==> IsSuffix(r.value, data + bytes)
  {
    if r.Some? {
      assert data + bytes == data + [bytes[0]] + bytes[1..];
      SuffixAppend(next, data + [bytes[0]], bytes[1..]);
      SuffixTrans(r.value, next + bytes[1..], data + bytes);
    }
  }

  /** A suffix stays a suffix when the same bytes are appended to both. */
  lemma SuffixAppend(t: seq<byte>, s: seq<byte>, u: seq<byte>)
    requires IsSuffix(t, s)
    ensures IsSuffix(t + u, s + u)
  {
    assert (s + u)[|s + u| - |t + u|..] == s[|s| - |t|..] + u;
  }

  /** Being a suffix is transitive. */
  lemma SuffixTrans(a: seq<byte>, b: seq<byte>, c: seq<byte>)
    requires IsSuffix(a, b) && IsSuffix(b, c)
    ensures IsSuffix(a, c)
  {
    assert c[|c| - |b|..][|b| - |a|..] == c[|c| - |a|..];
  }

  /** One byte pushed onto a full-or-not window yields the window of the
      stream extended by that byte. */
  lemma RetainedSnoc(capacity: nat, s: seq<byte>, b: byte)
    requires capacity > 0
    ensures PushByte(capacity, Retained(capacity, s), b) == Some(Retained(capacity, s + [b]))
  {
    var w := Retained(capacity, s);
    if |s| < capacity {
      assert w == s;
    } else {
      assert w == s[|s| - capacity..];
      assert w[1..] + [b] == (s + [b])[|s| + 1 - capacity..];
    }
  }

  /** The byte-by-byte loop keeps exactly the last `capacity` bytes, and it
      panics exactly when the capacity is 0 and there is something to push. */
  lemma {:induction false} PushLoopRetains(capacity: nat, data: seq<byte>, bytes: seq<byte>)
    requires |data| <= capacity
    ensures PushLoop(capacity, data, bytes).None? <==> capacity == 0 && bytes != []
    ensures capacity > 0 || bytes == [] ==> PushLoop(capacity, data, bytes) == Some(Retained(capacity, data + bytes))
    decreases |bytes|
  {
    if bytes == [] {
      assert data + bytes == data;
    } else if capacity == 0 {
      assert data == [];
    } else {
      var b, rest := bytes[0], bytes[1..];
      assert data + [b] + rest == data + bytes;
      assert Retained(capacity, data) == data;
      RetainedSnoc(capacity, data, b);
      var next := Retained(capacity, data + [b]);
      assert PushByte(capacity, data, b) == Some(next);
      assert PushLoop(capacity, data, bytes) == PushLoop(capacity, next, rest);
      PushLoopRetains(capacity, next, rest);
      PushConcat(capacity, data, [b], rest);
    }
  }

  /** Dropping bytes the window would drop anyway does not change it. */
  lemma RetainedOfSuffix(capacity: nat, t: seq<byte>, m: nat)
    requires m + capacity <= |t|
    ensures Retained(capacity, t[m..]) == Retained(capacity, t)
  {
    assert t[m..][|t| - m - capacity..] == t[|t| - capacity..];
  }

  /** Pushing `a` and then `b` leaves the same window as pushing `a ++ b`. */
  lemma PushConcat(capacity: nat, data: seq<byte>, a: seq<byte>, b: seq<byte>)
    ensures Retained(capacity, Retained(capacity, data + a) + b) == Retained(capacity, data + a + b)
  {
    var s := data + a;
    var t := s + b;
    if |s| > capacity {
      var m := |s| - capacity;
      assert Retained(capacity, s) + b == t[m..];
      RetainedOfSuffix(capacity, t, m);
    } else {
      assert Retained(capacity, s) + b == t;
    }
  }

  /** Pushing nothing leaves any window a buffer can hold unchanged. */
  lemma PushEmptyUnchanged(capacity: nat, data: seq<byte>)
    requires |data| <= capacity
    ensures Retained(capacity, data + []) == data
  {
    assert data + [] == data;
  }

  /** `RingBuffer`: the retained bytes live in `data`, oldest first. */
  class RingBuffer {
    const capacity: nat
    var data: seq<byte>

    /** The buffer never holds more than its capacity. */
    ghost predicate Valid()
      reads this
    {
      |data| <= capacity
    }

    /** `RingBuffer::new`: an empty buffer of the given capacity. */
    constructor (capacity: nat)
      ensures Valid()
      ensures this.capacity == capacity && data == []
    {
      this.capacity := capacity;
      data := [];
    }

    /** `RingBuffer::push`: appends `bytes` one at a time, dropping the oldest
        byte whenever the buffer is full. With capacity 0 the Rust code removes
        index 0 of an empty vector and panics, hence the precondition. */
    method Push(bytes: seq<byte>)
      requires Valid()
      requires capacity > 0 || |bytes| == 0
      modifies this
      ensures Valid()
      ensures data == Retained(capacity, old(data) + bytes)
    {
      ghost var before := data;
      for i := 0 to |bytes|
        invariant data == Retained(capacity, before + bytes[..i])
      {
        ghost var seen := before + bytes[..i];
        assert seen + [bytes[i]] == before + bytes[..i + 1];
        RetainedSnoc(capacity, seen, bytes[i]);
        if |data| >= capacity {
          data := data[1..];
        }
        data := data + [bytes[i]];
      }
      assert bytes[..|bytes|] == bytes;
    }

    /** `RingBuffer::as_slice`: the retained bytes, oldest first. */
    method AsSlice() returns (s: seq<byte>)
      ensures s == data
    {
      s := data;
    }

    /** `RingBuffer::clear`: forgets every retained byte; the capacity stays. */
    method Clear()
      modifies this
      ensures Valid()
      ensures data == []
    {
      data := [];
    }
  }
}
