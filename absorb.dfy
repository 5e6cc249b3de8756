/** The PB3 `absorb` and `absorb external` commands.  Wrapping writes trits
    to the output cursor and absorbs them into the sponge; unwrapping reads
    them from the input cursor, after a bounds check, and absorbs them.
    `WrapAbsorb` in the source only holds the sponge, so here the sponge is
    passed to each method. */
module Absorb {
  import opened Trits
  import opened Results
  import opened Cursor
  import opened Sponge

  /** `wrap3`: write the codeword of tryte `d` into the next 3 output trits
      and absorb exactly those trits. */
  method Wrap3(s: Spongos, b: OutCursor, d: Trint3)
    requires b.Valid() && 3 <= b.Size()
    modifies s, b, b.buf
    ensures b.Valid() && b.pos == old(b.pos) + 3
    ensures b.buf[..] == Splice(old(b.buf[..]), old(b.pos), Put3(d))
    ensures s.log == old(s.log) + [Absorbed(Put3(d))]
  {
    var b0 := Put3(d);
    b.Write(b0);
    s.Absorb(b0);
  }

  /** `wrapn`: absorb `t` and copy it verbatim into the next `|t|` output trits. */
  method WrapN(s: Spongos, b: OutCursor, t: seq<Trit>)
    requires b.Valid() && |t| <= b.Size()
    modifies s, b, b.buf
    ensures b.Valid() && b.pos == old(b.pos) + |t|
    ensures b.buf[..] == Splice(old(b.buf[..]), old(b.pos), t)
    ensures s.log == old(s.log) + [Absorbed(t)]
  {
    s.Absorb(t);
    b.Write(t);
  }

  /** `unwrap3`: read a 3-trit codeword, absorb it and decode it.  When fewer
      than 3 trits remain nothing is read or absorbed. */
  method Unwrap3(s: Spongos, b: InCursor) returns (r: Result<Trint3>)
    requires b.Valid()
    modifies s, b
    ensures b.Valid()
    ensures old(b.Size()) < 3 ==>
      r == Error(Eof) && b.pos == old(b.pos) && s.log == old(s.log)
    ensures 3 <= old(b.Size()) ==>
      var b0 := old(b.Rest())[..3];
      r == Ok(Get3(b0)) && b.pos == old(b.pos) + 3 && s.log == old(s.log) + [Absorbed(b0)]
  {
    if b.Size() < 3 {
      return Error(Eof);
    }
    var b0 := b.Read(3);
    s.Absorb(b0);
    r := Ok(Get3(b0));
  }

  /** `unwrapn`: copy the next `t.Length` input trits into `t` and absorb
      them.  When fewer remain, the cursor, `t` and the sponge are unchanged. */
  method UnwrapN(s: Spongos, b: InCursor, t: array<Trit>) returns (r: Result<()>)
    requires b.Valid()
    modifies s, b, t
    ensures b.Valid()
    ensures old(b.Size()) < t.Length ==>
      r == Error(Eof) && b.pos == old(b.pos) && t[..] == old(t[..]) && s.log == old(s.log)
    ensures t.Length <= old(b.Size()) ==>
      r == Ok(()) && t[..] == old(b.Rest())[..t.Length] && b.pos == old(b.pos) + t.Length
      && s.log == old(s.log) + [Absorbed(t[..])]
  {
    if b.Size() < t.Length {
      return Error(Eof);
    }
    var w := b.Read(t.Length);
    CopyInto(w, t);
    s.Absorb(t[..]);
    r := Ok(());
  }

  /** `wrapn` into a fresh buffer of exactly `|t|` trits, then `unwrapn` from
      its start, recovers `t` and fills the buffer, and the two sponges see
      the same single absorb: the round trip of `wrapn` and `unwrapn`. */
  method RoundTripN(t: seq<Trit>) returns (u: seq<Trit>, wrapLog: seq<Event>, unwrapLog: seq<Event>, left: nat)
    ensures u == t && left == 0
    ensures wrapLog == unwrapLog == [Absorbed(t)]
  {
    var buf := new Trit[|t|](_ => 0);
    var s := new Spongos.Init();
    var b := new OutCursor(buf);
    WrapN(s, b, t);
    assert buf[..] == t;
    var s2 := new Spongos.Init();
    var b2 := new InCursor(buf[..]);
    var dst := new Trit[|t|];
    var r := UnwrapN(s2, b2, dst);
    u, wrapLog, unwrapLog, left := dst[..], s.log, s2.log, b2.Size();
  }

  /** `wrap3` then `unwrap3` on a 3-trit buffer returns the tryte written,
      and both sponges absorb the same codeword. */
  method RoundTrip3(d: Trint3) returns (e: Result<Trint3>, wrapLog: seq<Event>, unwrapLog: seq<Event>)
    ensures e == Ok(d)
    ensures wrapLog == unwrapLog == [Absorbed(Put3(d))]
  {
    var buf := new Trit[3](_ => 0);
    var s := new Spongos.Init();
    var b := new OutCursor(buf);
    Wrap3(s, b, d);
    assert buf[..] == Put3(d);
    var s2 := new Spongos.Init();
    var b2 := new InCursor(buf[..]);
    e := Unwrap3(s2, b2);
    Get3Put3(d);
    wrapLog, unwrapLog := s.log, s2.log;
  }

  /** `wrap_absorb_external`: absorb an external value; no buffer is touched. */
  method WrapAbsorbExternal(s: Spongos, x: seq<Trit>)
    modifies s
    ensures s.log == old(s.log) + [Absorbed(x)]
  {
    s.Absorb(x);
  }

  /** `unwrap_absorb_external`: the same effect as `WrapAbsorbExternal`. */
  method UnwrapAbsorbExternal(s: Spongos, x: seq<Trit>)
    modifies s
    ensures s.log == old(s.log) + [Absorbed(x)]
  {
    s.Absorb(x);
  }
}
