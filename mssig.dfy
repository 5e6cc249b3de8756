/** The PB3 `commit; squeeze external hash; mssig(hash)` sequence (its
    source, mssig.rs, is not part of this model).  Both sides commit the
    sponge and squeeze the digest; wrapping writes the signature over it,
    unwrapping reads a signature, whose length its `skn` header fixes, and
    recovers or verifies the signer's public key.  The signature itself is
    not absorbed. */
module Mssig {
  import opened Trits
  import opened Results
  import opened Cursor
  import opened Sponge
  import opened Commands
  import opened Mss

  /** The sponge log after `commit; squeeze external hash`, and the digest. */
  function HashLog(log: seq<Event>): seq<Event>
  {
    log + [Committed, Squeezed(HASH_SIZE)]
  }

  function Digest(log: seq<Event>): (h: seq<Trit>)
    ensures |h| == HASH_SIZE
  {
    StateOutput(log + [Committed], HASH_SIZE)
  }

  function EncMssig(sk: PrivateKey, log: seq<Event>): (e: Enc)
    requires ValidKey(sk)
    ensures |e.wire| == SizeofMssig(sk)
  {
    Enc(Sign(sk, Digest(log)), HashLog(log))
  }

  /** Unwrapping a signature and recovering the public key it leads to:
      `Eof` when the header or the body is cut short, `Malformed` when the
      header's height is out of range. */
  function ReadMssigRecover(log: seq<Event>, inp: seq<Trit>): (r: Result<Dec<seq<Trit>>>)
    ensures |inp| < SKN_SIZE ==> r == Error(Eof)
    ensures r.Ok? ==> r.value.used <= |inp| && |r.value.value| == PK_SIZE && r.value.log == HashLog(log)
  {
    if |inp| < SKN_SIZE then Error(Eof)
    else
      var d := SigHeight(inp[..SKN_SIZE]);
      if d < 0 || d > MAX_D then Error(Malformed)
      else if |inp| < SigSize(d) then Error(Eof)
      else Ok(Dec(Recover(Digest(log), inp[..SigSize(d)]), SigSize(d), HashLog(log)))
  }

  /** Unwrapping a signature and checking it against the known public key. */
  function ReadMssigVerify(pk: seq<Trit>, log: seq<Event>, inp: seq<Trit>): (r: Result<Dec<()>>)
    ensures r.Ok? <==> ReadMssigRecover(log, inp).Ok? && ReadMssigRecover(log, inp).value.value == pk
  {
    match ReadMssigRecover(log, inp)
    case Error(e) => Error(e)
    case Ok(d) => if d.value == pk then Ok(Dec((), d.used, d.log)) else Error(SignatureInvalid)
  }

  lemma MssigRoundTrip(sk: PrivateKey, log: seq<Event>, rest: seq<Trit>)
    requires ValidKey(sk)
    ensures var e := EncMssig(sk, log);
      ReadMssigRecover(log, e.wire + rest) == Ok(Dec(sk.pk, |e.wire|, e.log))
  {
    var sig := Sign(sk, Digest(log));
    var inp := sig + rest;
    assert inp[..SKN_SIZE][..SKN_HEIGHT_SIZE] == sig[..SKN_HEIGHT_SIZE];
    assert inp[..|sig|] == sig;
    RecoverSign(sk, Digest(log));
  }

  /** `squeeze_wrap_mssig`. */
  method SqueezeWrapMssig(sk: PrivateKey, s: Spongos, b: OutCursor)
    requires ValidKey(sk)
    requires b.Valid() && SizeofMssig(sk) <= b.Size()
    modifies s, b, b.buf
    ensures b.Valid()
    ensures var e := EncMssig(sk, old(s.log));
      b.buf[..] == Splice(old(b.buf[..]), old(b.pos), e.wire) && b.pos == old(b.pos) + |e.wire| && s.log == e.log
  {
    s.Commit();
    var hash := s.Squeeze(HASH_SIZE);
    b.Write(Sign(sk, hash));
  }

  /** `squeeze_unwrap_mssig_recover`. */
  method SqueezeUnwrapMssigRecover(s: Spongos, b: InCursor) returns (r: Result<seq<Trit>>)
    requires b.Valid()
    modifies s, b
    ensures b.Valid()
    ensures Follows(r, ReadMssigRecover(old(s.log), old(b.Rest())), old(b.pos), b.pos, s.log)
  {
    s.Commit();
    var hash := s.Squeeze(HASH_SIZE);
    if b.Size() < SKN_SIZE {
      return Error(Eof);
    }
    var skn := b.Read(SKN_SIZE);
    var d := SigHeight(skn);
    if d < 0 || d > MAX_D {
      return Error(Malformed);
    }
    if b.Size() < SigSize(d) - SKN_SIZE {
      return Error(Eof);
    }
    var tail := b.Read(SigSize(d) - SKN_SIZE);
    assert skn + tail == old(b.Rest())[..SigSize(d)];
    r := Ok(Recover(hash, skn + tail));
  }

  /** `squeeze_unwrap_mssig_verify`: `SignatureInvalid` unless the recovered key is `pk`. */
  method SqueezeUnwrapMssigVerify(pk: seq<Trit>, s: Spongos, b: InCursor) returns (r: Result<()>)
    requires b.Valid()
    modifies s, b
    ensures b.Valid()
    ensures Follows(r, ReadMssigVerify(pk, old(s.log), old(b.Rest())), old(b.pos), b.pos, s.log)
  {
    var rk := SqueezeUnwrapMssigRecover(s, b);
    if rk.Error? {
      return Error(rk.err);
    }
    if rk.value != pk {
      return Error(SignatureInvalid);
    }
    r := Ok(());
  }
}
