/** The PB3 composite encodings built from `absorb`/`mask` steps (their
    source is not part of this model): `size_t`, a length-prefixed `trytes`
    payload, and the wire sizes of `size_t`, `trytes` and `ntrytes`.
    A `size_t` value `n` is written as one tryte holding the number of
    trytes `d`, then `n` in `3 * d` balanced trits. */
module Pb3Trytes {
  import opened Trits
  import opened Results
  import opened Cursor
  import opened Sponge
  import opened Commands

  /** `pb3::Trytes`: a payload whose length the schema handles in trytes. */
  datatype Trytes = Trytes(t: seq<Trit>)

  /** The number of trytes that `size_t` uses for `n`. */
  function SizeTTrytes(n: nat): nat
    decreases n
  {
    if n == 0 then 0 else 1 + SizeTTrytes((n + 13) / 27)
  }

  lemma MaxIntStep3(j: nat)
    ensures MaxInt(j + 3) == 27 * MaxInt(j) + 13
  {
    assert MaxInt(j + 1) == 3 * MaxInt(j) + 1;
    assert MaxInt(j + 2) == 3 * MaxInt(j + 1) + 1;
  }

  /** `n` fits in the balanced range of `SizeTTrytes(n)` trytes. */
  lemma {:induction false} SizeTFits(n: nat)
    ensures n <= MaxInt(3 * SizeTTrytes(n))
    decreases n
  {
    if n > 0 {
      var m := (n + 13) / 27;
      SizeTFits(m);
      MaxIntStep3(3 * SizeTTrytes(m));
      assert 3 * SizeTTrytes(n) == 3 * SizeTTrytes(m) + 3;
    }
  }

  /** The tryte count of `n` fits in the one-tryte prefix of `size_t`. */
  predicate SizeTEncodable(n: nat)
  {
    SizeTTrytes(n) <= 13
  }

  /** `sizeof_size_t`. */
  function SizeofSizeT(n: nat): nat
  {
    3 + 3 * SizeTTrytes(n)
  }

  /** `sizeof_trytes(n)`: the prefix and `n` trytes. */
  function SizeofTrytes(n: nat): nat
  {
    SizeofSizeT(n) + 3 * n
  }

  /** `sizeof_ntrytes(n)`: `n` trytes with no prefix. */
  function SizeofNtrytes(n: nat): nat
  {
    3 * n
  }

  function EncSizeT(cmd: Cmd, log: seq<Event>, n: nat): (e: Enc)
    requires SizeTEncodable(n)
    ensures |e.wire| == SizeofSizeT(n)
  {
    var d := SizeTTrytes(n);
    SizeTFits(n);
    var e1 := Chunk(cmd, log, Put3(d));
    var e2 := Chunk(cmd, e1.log, IntToTrits(n, 3 * d));
    Enc(e1.wire + e2.wire, e2.log)
  }

  /** Unwrapping a `size_t`: `Malformed` for a negative tryte count or value. */
  function ReadSizeT(cmd: Cmd, log: seq<Event>, inp: seq<Trit>): (r: Result<Dec<nat>>)
    ensures |inp| < 3 ==> r == Error(Eof)
    ensures r.Ok? ==> 3 <= r.value.used <= |inp| && |r.value.log| == |log| + 2
  {
    match ReadTryte(cmd, log, inp)
    case Error(e) => Error(e)
    case Ok(t) =>
      if t.value < 0 then Error(Malformed)
      else
        match ReadChunk(cmd, t.log, inp[3..], 3 * t.value)
        case Error(e) => Error(e)
        case Ok(c) =>
          var n := TritsToInt(c.value);
          if n < 0 then Error(Malformed) else Ok(Dec(n, 3 + 3 * t.value, c.log))
  }

  /* Each round trip goes one step at a time over a wire `w1 + w2 + rest`,
     where `w1` and `w2` are what the two steps wrote. */

  lemma ReadSizeTConcat(cmd: Cmd, log: seq<Event>, w1: seq<Trit>, w2: seq<Trit>, rest: seq<Trit>, d: Trint3, l1: seq<Event>, v: seq<Trit>, l2: seq<Event>)
    requires d >= 0 && ReadTryte(cmd, log, w1 + w2 + rest) == Ok(Dec(d, |w1|, l1))
    requires ReadChunk(cmd, l1, w2 + rest, 3 * d) == Ok(Dec(v, |w2|, l2))
    requires TritsToInt(v) >= 0
    ensures ReadSizeT(cmd, log, w1 + w2 + rest) == Ok(Dec(TritsToInt(v), |w1 + w2|, l2))
  {
    ConcatAssoc(w1, w2, rest);
    DropConcat(w1, w2 + rest);
    var r := ReadSizeT(cmd, log, w1 + w2 + rest);
    assert r.Ok? && r.value == Dec(TritsToInt(v), |w1 + w2|, l2);
  }

  lemma SizeTRoundTrip(cmd: Cmd, log: seq<Event>, n: nat, rest: seq<Trit>)
    requires SizeTEncodable(n)
    ensures var e := EncSizeT(cmd, log, n);
      ReadSizeT(cmd, log, e.wire + rest) == Ok(Dec(n, |e.wire|, e.log))
  {
    var d := SizeTTrytes(n);
    SizeTFits(n);
    var v := IntToTrits(n, 3 * d);
    var e1 := Chunk(cmd, log, Put3(d));
    var e2 := Chunk(cmd, e1.log, v);
    ConcatAssoc(e1.wire, e2.wire, rest);
    ReadTryteOfChunk(cmd, log, d, e2.wire + rest);
    ReadChunkOfChunk(cmd, e1.log, v, rest);
    TritsOfInt(n, 3 * d);
    ReadSizeTConcat(cmd, log, e1.wire, e2.wire, rest, d, e1.log, v, e2.log);
  }

  predicate TrytesEncodable(x: Trytes)
  {
    |x.t| % 3 == 0 && SizeTEncodable(|x.t| / 3)
  }

  function EncTrytes(cmd: Cmd, log: seq<Event>, x: Trytes): (e: Enc)
    requires TrytesEncodable(x)
    ensures |e.wire| == SizeofTrytes(|x.t| / 3)
  {
    var e1 := EncSizeT(cmd, log, |x.t| / 3);
    var e2 := Chunk(cmd, e1.log, x.t);
    Enc(e1.wire + e2.wire, e2.log)
  }

  /** Unwrapping a `trytes` payload: its `size_t` length, then that many trytes. */
  function ReadTrytes(cmd: Cmd, log: seq<Event>, inp: seq<Trit>): (r: Result<Dec<Trytes>>)
    ensures |inp| < 3 ==> r == Error(Eof)
    ensures r.Ok? ==> r.value.used <= |inp| && |r.value.value.t| % 3 == 0
  {
    match ReadSizeT(cmd, log, inp)
    case Error(e) => Error(e)
    case Ok(n) =>
      match ReadChunk(cmd, n.log, inp[n.used..], 3 * n.value)
      case Error(e) => Error(e)
      case Ok(c) => Ok(Dec(Trytes(c.value), n.used + 3 * n.value, c.log))
  }

  lemma ReadTrytesConcat(cmd: Cmd, log: seq<Event>, w1: seq<Trit>, w2: seq<Trit>, rest: seq<Trit>, k: nat, l1: seq<Event>, v: seq<Trit>, l2: seq<Event>)
    requires ReadSizeT(cmd, log, w1 + w2 + rest) == Ok(Dec(k, |w1|, l1))
    requires ReadChunk(cmd, l1, w2 + rest, 3 * k) == Ok(Dec(v, |w2|, l2))
    ensures ReadTrytes(cmd, log, w1 + w2 + rest) == Ok(Dec(Trytes(v), |w1 + w2|, l2))
  {
    ConcatAssoc(w1, w2, rest);
    DropConcat(w1, w2 + rest);
    var r := ReadTrytes(cmd, log, w1 + w2 + rest);
    assert r.Ok? && r.value == Dec(Trytes(v), |w1 + w2|, l2);
  }

  lemma TrytesRoundTrip(cmd: Cmd, log: seq<Event>, x: Trytes, rest: seq<Trit>)
    requires TrytesEncodable(x)
    ensures var e := EncTrytes(cmd, log, x);
      ReadTrytes(cmd, log, e.wire + rest) == Ok(Dec(x, |e.wire|, e.log))
  {
    var k := |x.t| / 3;
    var e1 := EncSizeT(cmd, log, k);
    var e2 := Chunk(cmd, e1.log, x.t);
    ConcatAssoc(e1.wire, e2.wire, rest);
    SizeTRoundTrip(cmd, log, k, e2.wire + rest);
    ReadChunkOfChunk(cmd, e1.log, x.t, rest);
    assert 3 * k == |x.t|;
    ReadTrytesConcat(cmd, log, e1.wire, e2.wire, rest, k, e1.log, x.t, e2.log);
  }

  method WrapSizeT(cmd: Cmd, s: Spongos, b: OutCursor, n: nat)
    requires SizeTEncodable(n)
    requires b.Valid() && SizeofSizeT(n) <= b.Size()
    modifies s, b, b.buf
    ensures b.Valid()
    ensures var e := EncSizeT(cmd, old(s.log), n);
      b.buf[..] == Splice(old(b.buf[..]), old(b.pos), e.wire) && b.pos == old(b.pos) + |e.wire| && s.log == e.log
  {
    var d := SizeTTrytes(n);
    SizeTFits(n);
    Wrap3(cmd, s, b, d);
    WrapN(cmd, s, b, IntToTrits(n, 3 * d));
    SpliceTwice(old(b.buf[..]), old(b.pos), Chunk(cmd, old(s.log), Put3(d)).wire,
      Chunk(cmd, Chunk(cmd, old(s.log), Put3(d)).log, IntToTrits(n, 3 * d)).wire);
  }

  method UnwrapSizeT(cmd: Cmd, s: Spongos, b: InCursor) returns (r: Result<nat>)
    requires b.Valid()
    modifies s, b
    ensures b.Valid()
    ensures Follows(r, ReadSizeT(cmd, old(s.log), old(b.Rest())), old(b.pos), b.pos, s.log)
  {
    var rd := Unwrap3(cmd, s, b);
    if rd.Error? {
      return Error(rd.err);
    }
    var d := rd.value;
    if d < 0 {
      return Error(Malformed);
    }
    assert b.Rest() == old(b.Rest())[3..];
    var t := new Trit[3 * d];
    var rc := UnwrapN(cmd, s, b, t);
    if rc.Error? {
      return Error(rc.err);
    }
    var n := TritsToInt(t[..]);
    if n < 0 {
      return Error(Malformed);
    }
    r := Ok(n);
  }

  /** `Trytes::wrap_absorb` (`AbsorbCmd`) and `Trytes::wrap_mask` (`MaskCmd`). */
  method WrapTrytes(cmd: Cmd, s: Spongos, b: OutCursor, x: Trytes)
    requires TrytesEncodable(x)
    requires b.Valid() && SizeofTrytes(|x.t| / 3) <= b.Size()
    modifies s, b, b.buf
    ensures b.Valid()
    ensures var e := EncTrytes(cmd, old(s.log), x);
      b.buf[..] == Splice(old(b.buf[..]), old(b.pos), e.wire) && b.pos == old(b.pos) + |e.wire| && s.log == e.log
  {
    WrapSizeT(cmd, s, b, |x.t| / 3);
    ghost var e1 := EncSizeT(cmd, old(s.log), |x.t| / 3);
    WrapN(cmd, s, b, x.t);
    SpliceTwice(old(b.buf[..]), old(b.pos), e1.wire, Chunk(cmd, e1.log, x.t).wire);
  }

  /** `Trytes::unwrap_absorb_sized` (`AbsorbCmd`) and `Trytes::unwrap_mask_sized` (`MaskCmd`). */
  method UnwrapTrytes(cmd: Cmd, s: Spongos, b: InCursor) returns (r: Result<Trytes>)
    requires b.Valid()
    modifies s, b
    ensures b.Valid()
    ensures Follows(r, ReadTrytes(cmd, old(s.log), old(b.Rest())), old(b.pos), b.pos, s.log)
  {
    var rn := UnwrapSizeT(cmd, s, b);
    if rn.Error? {
      return Error(rn.err);
    }
    var n := rn.value;
    assert b.Rest() == old(b.Rest())[b.pos - old(b.pos)..];
    var t := new Trit[3 * n];
    var rc := UnwrapN(cmd, s, b, t);
    if rc.Error? {
      return Error(rc.err);
    }
    r := Ok(Trytes(t[..]));
  }
}
