/** The PB3 `mask` command (its source, mask.rs, is not part of this model):
    the same four operations as `absorb`, except that the wire carries the
    sponge's encryption of the plaintext and the sponge absorbs the plaintext. */
module Mask {
  import opened Trits
  import opened Results
  import opened Cursor
  import opened Sponge

  method Wrap3(s: Spongos, b: OutCursor, d: Trint3)
    requires b.Valid() && 3 <= b.Size()
    modifies s, b, b.buf
    ensures b.Valid() && b.pos == old(b.pos) + 3
    ensures b.buf[..] == Splice(old(b.buf[..]), old(b.pos), AddSeq(Put3(d), StateOutput(old(s.log), 3)))
    ensures s.log == old(s.log) + [Masked(Put3(d))]
  {
    var c := s.Mask(Put3(d));
    b.Write(c);
  }

  method WrapN(s: Spongos, b: OutCursor, t: seq<Trit>)
    requires b.Valid() && |t| <= b.Size()
    modifies s, b, b.buf
    ensures b.Valid() && b.pos == old(b.pos) + |t|
    ensures b.buf[..] == Splice(old(b.buf[..]), old(b.pos), AddSeq(t, StateOutput(old(s.log), |t|)))
    ensures s.log == old(s.log) + [Masked(t)]
  {
    var c := s.Mask(t);
    b.Write(c);
  }

  method Unwrap3(s: Spongos, b: InCursor) returns (r: Result<Trint3>)
    requires b.Valid()
    modifies s, b
    ensures b.Valid()
    ensures old(b.Size()) < 3 ==>
      r == Error(Eof) && b.pos == old(b.pos) && s.log == old(s.log)
    ensures 3 <= old(b.Size()) ==>
      var p := SubSeq(old(b.Rest())[..3], StateOutput(old(s.log), 3));
      r == Ok(Get3(p)) && b.pos == old(b.pos) + 3 && s.log == old(s.log) + [Masked(p)]
  {
    if b.Size() < 3 {
      return Error(Eof);
    }
    var c := b.Read(3);
    var p := s.Unmask(c);
    r := Ok(Get3(p));
  }

  method UnwrapN(s: Spongos, b: InCursor, t: array<Trit>) returns (r: Result<()>)
    requires b.Valid()
    modifies s, b, t
    ensures b.Valid()
    ensures old(b.Size()) < t.Length ==>
      r == Error(Eof) && b.pos == old(b.pos) && t[..] == old(t[..]) && s.log == old(s.log)
    ensures t.Length <= old(b.Size()) ==>
      r == Ok(()) && t[..] == SubSeq(old(b.Rest())[..t.Length], StateOutput(old(s.log), t.Length))
      && b.pos == old(b.pos) + t.Length && s.log == old(s.log) + [Masked(t[..])]
  {
    if b.Size() < t.Length {
      return Error(Eof);
    }
    var c := b.Read(t.Length);
    var p := s.Unmask(c);
    CopyInto(p, t);
    r := Ok(());
  }
}
