/** Trit-buffer cursors: `TritSliceMut` (an output window over a mutable
    buffer) and `TritSlice` (an input window over read-only trits).  Both
    move forward with `advance`; the caller must not advance past the end. */
module Cursor {
  import opened Trits

  /** `s` with the window starting at `at` overwritten by `w`. */
  function Splice(s: seq<Trit>, at: nat, w: seq<Trit>): (r: seq<Trit>)
    requires at + |w| <= |s|
    ensures |r| == |s|
    ensures r[at..at + |w|] == w
    ensures forall i :: 0 <= i < |s| && !(at <= i < at + |w|) ==> r[i] == s[i]
  {
    s[..at] + w + s[at + |w|..]
  }

  /** Writing two windows one after the other is writing their concatenation. */
  lemma SpliceTwice(s: seq<Trit>, at: nat, w1: seq<Trit>, w2: seq<Trit>)
    requires at + |w1| + |w2| <= |s|
    ensures Splice(Splice(s, at, w1), at + |w1|, w2) == Splice(s, at, w1 + w2)
  {
    var l, r := Splice(Splice(s, at, w1), at + |w1|, w2), Splice(s, at, w1 + w2);
    forall i | 0 <= i < |s| ensures l[i] == r[i] {
      if at <= i < at + |w1| {
        assert l[i] == w1[i - at] == (w1 + w2)[i - at];
      } else if at + |w1| <= i < at + |w1| + |w2| {
        assert l[i] == w2[i - at - |w1|] == (w1 + w2)[i - at];
      }
    }
  }

  /** Regrouping a concatenation of three windows. */
  lemma ConcatAssoc(a: seq<Trit>, b: seq<Trit>, c: seq<Trit>)
    ensures a + b + c == a + (b + c)
  {
  }

  /** Skipping the first window of a concatenation leaves the second. */
  lemma DropConcat(a: seq<Trit>, b: seq<Trit>)
    ensures (a + b)[|a|..] == b
  {
  }

  /** `TritSlice::copy` into a target buffer of the same size. */
  method CopyInto(w: seq<Trit>, t: array<Trit>)
    requires |w| == t.Length
    modifies t
    ensures t[..] == w
  {
    var i := 0;
    while i < t.Length
      invariant 0 <= i <= t.Length
      invariant t[..i] == w[..i]
    {
      t[i] := w[i];
      i := i + 1;
    }
  }

  /** Output cursor: the buffer and the offset of the next trit to write. */
  class OutCursor {
    const buf: array<Trit>
    var pos: nat

    ghost predicate Valid()
      reads this
    {
      pos <= buf.Length
    }

    /** Number of trits left to write. */
    function Size(): nat
      reads this
      requires Valid()
    {
      buf.Length - pos
    }

    constructor (buf: array<Trit>)
      ensures this.buf == buf && pos == 0 && Valid()
    {
      this.buf := buf;
      pos := 0;
    }

    /** `advance(|w|)` followed by a copy of `w` into the window advanced over. */
    method Write(w: seq<Trit>)
      requires Valid() && |w| <= Size()
      modifies this, buf
      ensures Valid() && pos == old(pos) + |w|
      ensures buf[..] == Splice(old(buf[..]), old(pos), w)
    {
      var i := 0;
      while i < |w|
        invariant pos == old(pos) && 0 <= i <= |w|
        invariant forall j :: 0 <= j < buf.Length && !(pos <= j < pos + i) ==> buf[j] == old(buf[j])
        invariant forall j :: pos <= j < pos + i ==> buf[j] == w[j - pos]
      {
        buf[pos + i] := w[i];
        i := i + 1;
      }
      assert buf[..] == Splice(old(buf[..]), pos, w);
      pos := pos + |w|;
    }
  }

  /** Input cursor: read-only trits and the offset of the next trit to read. */
  class InCursor {
    const data: seq<Trit>
    var pos: nat

    ghost predicate Valid()
      reads this
    {
      pos <= |data|
    }

    /** Number of trits left to read. */
    function Size(): nat
      reads this
      requires Valid()
    {
      |data| - pos
    }

    /** The trits not yet read. */
    function Rest(): (r: seq<Trit>)
      reads this
      requires Valid()
      ensures |r| == Size()
    {
      data[pos..]
    }

    constructor (data: seq<Trit>)
      ensures this.data == data && pos == 0 && Valid()
    {
      this.data := data;
      pos := 0;
    }

    /** `advance(n)`: the next `n` trits; the cursor moves past them. */
    method Read(n: nat) returns (w: seq<Trit>)
      requires Valid() && n <= Size()
      modifies this
      ensures Valid() && pos == old(pos) + n
      ensures w == old(Rest())[..n]
      ensures Rest() == old(Rest())[n..]
    {
      w := data[pos..pos + n];
      pos := pos + n;
    }
  }
}
