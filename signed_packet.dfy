/** The `SignedPacket` message content: a link to a base message, a public
    and a masked payload, and the channel owner's signature over the sponge
    state they leave behind.  Wrapping and both unwraps run the same steps
    in the same order: the link is joined, the public payload absorbed and
    the masked one masked; the sponge is then committed, a 78-tryte digest
    squeezed from it, and the digest signed with MSS.
*/
module SignedPacket {
  import opened Trits
  import opened Results
  import opened Cursor
  import opened Sponge
  import opened Commands
  import opened AppCore
  import opened Pb3Trytes
  import opened Join
  import opened Mss
  import opened Mssig

  /** The tag naming this kind of message content. */
  const TYPE: string := "MAM9SIGNEDPACKET"

  /** `sizeof`: the content size for payloads of the given numbers of trytes. */
  function Sizeof(publicTrytes: nat, maskedTrytes: nat, sk: PrivateKey): nat
  {
    SizeofNtrytes(MSGID_SIZE / 3) + SizeofTrytes(publicTrytes) + SizeofTrytes(maskedTrytes) + SizeofMssig(sk)
  }

  /** What the wrap admits: the payloads are whole trytes with encodable sizes. */
  predicate Wrappable(id: seq<Trit>, pub: Trytes, masked: Trytes, sk: PrivateKey)
  {
    |id| == MSGID_SIZE && TrytesEncodable(pub) && TrytesEncodable(masked) && ValidKey(sk)
  }

  /** The two payload steps: `absorb trytes` then `mask trytes`. */
  function EncPayloads(log: seq<Event>, pub: Trytes, masked: Trytes): (e: Enc)
    requires TrytesEncodable(pub) && TrytesEncodable(masked)
    ensures |e.wire| == SizeofTrytes(|pub.t| / 3) + SizeofTrytes(|masked.t| / 3)
  {
    var e1 := EncTrytes(AbsorbCmd, log, pub);
    var e2 := EncTrytes(MaskCmd, e1.log, masked);
    Enc(e1.wire + e2.wire, e2.log)
  }

  /** The link and payload steps, which both unwraps read before the signature. */
  function EncBody(log: seq<Event>, id: seq<Trit>, link: seq<Event>, pub: Trytes, masked: Trytes): (e: Enc)
    requires |id| == MSGID_SIZE && TrytesEncodable(pub) && TrytesEncodable(masked)
    ensures |e.wire| == MSGID_SIZE + SizeofTrytes(|pub.t| / 3) + SizeofTrytes(|masked.t| / 3)
  {
    var e1 := EncJoin(log, id, link);
    var e2 := EncPayloads(e1.log, pub, masked);
    Enc(e1.wire + e2.wire, e2.log)
  }

  /** The encoding steps of the schema, starting from the sponge log `log`
      and joining the sponge whose log is `link`. */
  function EncodePacket(log: seq<Event>, id: seq<Trit>, link: seq<Event>, pub: Trytes, masked: Trytes, sk: PrivateKey): (e: Enc)
    requires Wrappable(id, pub, masked, sk)
  {
    var e1 := EncBody(log, id, link, pub, masked);
    var e2 := EncMssig(sk, e1.log);
    Enc(e1.wire + e2.wire, e2.log)
  }

  /** The wrap writes exactly `sizeof` trits. */
  lemma SizeofExact(log: seq<Event>, id: seq<Trit>, link: seq<Event>, pub: Trytes, masked: Trytes, sk: PrivateKey)
    requires Wrappable(id, pub, masked, sk)
    ensures |EncodePacket(log, id, link, pub, masked, sk).wire| == Sizeof(|pub.t| / 3, |masked.t| / 3, sk)
  {
    assert SizeofNtrytes(MSGID_SIZE / 3) == MSGID_SIZE;
  }

  /** Unwrapping both payloads. */
  function ReadPayloads(log: seq<Event>, inp: seq<Trit>): (r: Result<Dec<(Trytes, Trytes)>>)
    ensures r.Ok? ==> r.value.used <= |inp|
  {
    match ReadTrytes(AbsorbCmd, log, inp)
    case Error(e) => Error(e)
    case Ok(p) =>
      match ReadTrytes(MaskCmd, p.log, inp[p.used..])
      case Error(e) => Error(e)
      case Ok(m) => Ok(Dec((p.value, m.value), p.used + m.used, m.log))
  }

  /** Unwrapping the link and both payloads, as both unwraps begin. */
  function ReadBody(lookup: Lookup, log: seq<Event>, inp: seq<Trit>): (r: Result<Dec<(Trytes, Trytes)>>)
    ensures r.Ok? ==> r.value.used <= |inp|
  {
    match ReadJoin(lookup, log, inp)
    case Error(e) => Error(e)
    case Ok(j) =>
      match ReadPayloads(j.log, inp[j.used..])
      case Error(e) => Error(e)
      case Ok(d) => Ok(Dec(d.value, j.used + d.used, d.log))
  }

  /** `unwrap_recover` as a decoder: the signer's public key and both payloads. */
  function ReadRecover(lookup: Lookup, log: seq<Event>, inp: seq<Trit>): (r: Result<Dec<(seq<Trit>, Trytes, Trytes)>>)
    ensures r.Ok? ==> r.value.used <= |inp| && |r.value.value.0| == PK_SIZE
  {
    match ReadBody(lookup, log, inp)
    case Error(e) => Error(e)
    case Ok(d) =>
      match ReadMssigRecover(d.log, inp[d.used..])
      case Error(e) => Error(e)
      case Ok(k) => Ok(Dec((k.value, d.value.0, d.value.1), d.used + k.used, k.log))
  }

  /** `unwrap_verify` as a decoder: both payloads, provided the signature is `pk`'s. */
  function ReadVerify(lookup: Lookup, pk: seq<Trit>, log: seq<Event>, inp: seq<Trit>): (r: Result<Dec<(Trytes, Trytes)>>)
    ensures r.Ok? ==> r.value.used <= |inp|
  {
    match ReadBody(lookup, log, inp)
    case Error(e) => Error(e)
    case Ok(d) =>
      match ReadMssigVerify(pk, d.log, inp[d.used..])
      case Error(e) => Error(e)
      case Ok(k) => Ok(Dec(d.value, d.used + k.used, k.log))
  }

  /** Verifying against `pk` succeeds exactly when recovery yields `pk`, with
      the same payloads, length and log; a recovered key other than `pk` is
      `SignatureInvalid`, and every other error is recovery's own. */
  lemma VerifyIffRecover(lookup: Lookup, pk: seq<Trit>, log: seq<Event>, inp: seq<Trit>)
    ensures var v := ReadVerify(lookup, pk, log, inp);
      var r := ReadRecover(lookup, log, inp);
      && (v.Ok? <==> r.Ok? && r.value.value.0 == pk)
      && (v.Ok? ==> v.value.value == (r.value.value.1, r.value.value.2) && v.value.used == r.value.used && v.value.log == r.value.log)
      && (r.Error? ==> v.Error? && v.err == r.err)
      && (r.Ok? && r.value.value.0 != pk ==> v.Error? && v.err == SignatureInvalid)
  {
  }

  /* The round trips below go one schema step at a time: each step lemma
     takes the wire as `w1 + w2 + rest`, where `w1` is what the earlier steps
     wrote and `w2` what this step wrote. */

  lemma ReadPayloadsConcat(log: seq<Event>, w1: seq<Trit>, w2: seq<Trit>, rest: seq<Trit>, pub: Trytes, l1: seq<Event>, masked: Trytes, l2: seq<Event>)
    requires ReadTrytes(AbsorbCmd, log, w1 + w2 + rest) == Ok(Dec(pub, |w1|, l1))
    requires ReadTrytes(MaskCmd, l1, w2 + rest) == Ok(Dec(masked, |w2|, l2))
    ensures ReadPayloads(log, w1 + w2 + rest) == Ok(Dec((pub, masked), |w1 + w2|, l2))
  {
    ConcatAssoc(w1, w2, rest);
    DropConcat(w1, w2 + rest);
    var r := ReadPayloads(log, w1 + w2 + rest);
    assert r.Ok? && r.value == Dec((pub, masked), |w1 + w2|, l2);
  }

  lemma ReadBodyConcat(lookup: Lookup, log: seq<Event>, w1: seq<Trit>, w2: seq<Trit>, rest: seq<Trit>, l1: seq<Event>, pub: Trytes, masked: Trytes, l2: seq<Event>)
    requires ReadJoin(lookup, log, w1 + w2 + rest) == Ok(Dec((), |w1|, l1))
    requires ReadPayloads(l1, w2 + rest) == Ok(Dec((pub, masked), |w2|, l2))
    ensures ReadBody(lookup, log, w1 + w2 + rest) == Ok(Dec((pub, masked), |w1 + w2|, l2))
  {
    ConcatAssoc(w1, w2, rest);
    DropConcat(w1, w2 + rest);
    var r := ReadBody(lookup, log, w1 + w2 + rest);
    assert r.Ok? && r.value == Dec((pub, masked), |w1 + w2|, l2);
  }

  lemma ReadRecoverConcat(lookup: Lookup, log: seq<Event>, w1: seq<Trit>, w2: seq<Trit>, rest: seq<Trit>, pub: Trytes, masked: Trytes, l1: seq<Event>, pk: seq<Trit>, l2: seq<Event>)
    requires ReadBody(lookup, log, w1 + w2 + rest) == Ok(Dec((pub, masked), |w1|, l1))
    requires ReadMssigRecover(l1, w2 + rest) == Ok(Dec(pk, |w2|, l2))
    ensures ReadRecover(lookup, log, w1 + w2 + rest) == Ok(Dec((pk, pub, masked), |w1 + w2|, l2))
  {
    ConcatAssoc(w1, w2, rest);
    DropConcat(w1, w2 + rest);
    var r := ReadRecover(lookup, log, w1 + w2 + rest);
    assert r.Ok? && r.value == Dec((pk, pub, masked), |w1 + w2|, l2);
  }

  /** Unwrapping honestly wrapped payloads returns them, whatever follows. */
  lemma PayloadsRoundTrip(log: seq<Event>, pub: Trytes, masked: Trytes, rest: seq<Trit>)
    requires TrytesEncodable(pub) && TrytesEncodable(masked)
    ensures var e := EncPayloads(log, pub, masked);
      ReadPayloads(log, e.wire + rest) == Ok(Dec((pub, masked), |e.wire|, e.log))
  {
    var e1 := EncTrytes(AbsorbCmd, log, pub);
    var e2 := EncTrytes(MaskCmd, e1.log, masked);
    ConcatAssoc(e1.wire, e2.wire, rest);
    TrytesRoundTrip(AbsorbCmd, log, pub, e2.wire + rest);
    TrytesRoundTrip(MaskCmd, e1.log, masked, rest);
    ReadPayloadsConcat(log, e1.wire, e2.wire, rest, pub, e1.log, masked, e2.log);
  }

  /** Unwrapping the link and payloads of an honest packet returns the
      payloads, wherever the signature that follows them begins. */
  lemma BodyRoundTrip(lookup: Lookup, log: seq<Event>, id: seq<Trit>, link: seq<Event>, pub: Trytes, masked: Trytes, rest: seq<Trit>)
    requires |id| == MSGID_SIZE && TrytesEncodable(pub) && TrytesEncodable(masked)
    requires lookup(id) == Some(link)
    ensures var e := EncBody(log, id, link, pub, masked);
      ReadBody(lookup, log, e.wire + rest) == Ok(Dec((pub, masked), |e.wire|, e.log))
  {
    var e1 := EncJoin(log, id, link);
    var e2 := EncPayloads(e1.log, pub, masked);
    ConcatAssoc(e1.wire, e2.wire, rest);
    JoinRoundTrip(lookup, log, id, link, e2.wire + rest);
    assert |e1.wire| == MSGID_SIZE;
    PayloadsRoundTrip(e1.log, pub, masked, rest);
    ReadBodyConcat(lookup, log, e1.wire, e2.wire, rest, e1.log, pub, masked, e2.log);
  }

  /** `unwrap_recover` of an honest packet, whose link the lookup resolves
      to the sponge wrapping joined, returns the signer's public key and
      both payloads, consumes the packet and reproduces wrapping's log. */
  lemma RecoverRoundTrip(lookup: Lookup, log: seq<Event>, id: seq<Trit>, link: seq<Event>, pub: Trytes, masked: Trytes, sk: PrivateKey, rest: seq<Trit>)
    requires Wrappable(id, pub, masked, sk) && lookup(id) == Some(link)
    ensures var e := EncodePacket(log, id, link, pub, masked, sk);
      ReadRecover(lookup, log, e.wire + rest) == Ok(Dec((sk.pk, pub, masked), |e.wire|, e.log))
  {
    var e1 := EncBody(log, id, link, pub, masked);
    var e2 := EncMssig(sk, e1.log);
    ConcatAssoc(e1.wire, e2.wire, rest);
    BodyRoundTrip(lookup, log, id, link, pub, masked, e2.wire + rest);
    MssigRoundTrip(sk, e1.log, rest);
    ReadRecoverConcat(lookup, log, e1.wire, e2.wire, rest, pub, masked, e1.log, sk.pk, e2.log);
  }

  /** `unwrap_verify` of an honest packet against the signer's public key
      returns both payloads, consumes the packet and reproduces wrapping's log. */
  lemma VerifyRoundTrip(lookup: Lookup, log: seq<Event>, id: seq<Trit>, link: seq<Event>, pub: Trytes, masked: Trytes, sk: PrivateKey, rest: seq<Trit>)
    requires Wrappable(id, pub, masked, sk) && lookup(id) == Some(link)
    ensures var e := EncodePacket(log, id, link, pub, masked, sk);
      ReadVerify(lookup, sk.pk, log, e.wire + rest) == Ok(Dec((pub, masked), |e.wire|, e.log))
  {
    RecoverRoundTrip(lookup, log, id, link, pub, masked, sk, rest);
    VerifyIffRecover(lookup, sk.pk, log, EncodePacket(log, id, link, pub, masked, sk).wire + rest);
  }

  /** A signature checked against any key but the signer's is rejected. */
  lemma VerifyOtherKey(lookup: Lookup, log: seq<Event>, id: seq<Trit>, link: seq<Event>, pub: Trytes, masked: Trytes, sk: PrivateKey, pk: seq<Trit>, rest: seq<Trit>)
    requires Wrappable(id, pub, masked, sk) && lookup(id) == Some(link) && pk != sk.pk
    ensures var e := EncodePacket(log, id, link, pub, masked, sk);
      ReadVerify(lookup, pk, log, e.wire + rest) == Error(SignatureInvalid)
  {
    RecoverRoundTrip(lookup, log, id, link, pub, masked, sk, rest);
    VerifyIffRecover(lookup, pk, log, EncodePacket(log, id, link, pub, masked, sk).wire + rest);
  }

  /** A packet whose link the lookup cannot resolve is refused by both
      unwraps with `UnresolvedLink`, and one too short for a link with `Eof`. */
  lemma LinkErrors(lookup: Lookup, pk: seq<Trit>, log: seq<Event>, inp: seq<Trit>)
    ensures |inp| < MSGID_SIZE ==>
      ReadRecover(lookup, log, inp) == Error(Eof) && ReadVerify(lookup, pk, log, inp) == Error(Eof)
    ensures MSGID_SIZE <= |inp| && lookup(inp[..MSGID_SIZE]).None? ==>
      ReadRecover(lookup, log, inp) == Error(UnresolvedLink) && ReadVerify(lookup, pk, log, inp) == Error(UnresolvedLink)
  {
  }

  /** `wrap`. */
  method Wrap(msgid: MsgId, slink: Spongos, pub: Trytes, masked: Trytes, sk: PrivateKey, s: Spongos, b: OutCursor)
    requires Wrappable(msgid.id, pub, masked, sk)
    requires s != slink
    requires b.Valid() && Sizeof(|pub.t| / 3, |masked.t| / 3, sk) <= b.Size()
    modifies s, b, b.buf
    ensures b.Valid()
    ensures var e := EncodePacket(old(s.log), msgid.id, slink.log, pub, masked, sk);
      b.buf[..] == Splice(old(b.buf[..]), old(b.pos), e.wire) && b.pos == old(b.pos) + |e.wire| && s.log == e.log
  {
    SizeofExact(old(s.log), msgid.id, slink.log, pub, masked, sk);
    WrapBody(msgid.id, slink, pub, masked, s, b);
    ghost var l2 := s.log;
    SqueezeWrapMssig(sk, s, b);
    SpliceTwice(old(b.buf[..]), old(b.pos), EncBody(old(s.log), msgid.id, slink.log, pub, masked).wire, EncMssig(sk, l2).wire);
  }

  /** `join link msgid; absorb trytes public_payload; mask trytes masked_payload`. */
  method WrapBody(id: seq<Trit>, slink: Spongos, pub: Trytes, masked: Trytes, s: Spongos, b: OutCursor)
    requires |id| == MSGID_SIZE && TrytesEncodable(pub) && TrytesEncodable(masked)
    requires s != slink
    requires b.Valid() && |id| + SizeofTrytes(|pub.t| / 3) + SizeofTrytes(|masked.t| / 3) <= b.Size()
    modifies s, b, b.buf
    ensures b.Valid()
    ensures var e := EncBody(old(s.log), id, slink.log, pub, masked);
      b.buf[..] == Splice(old(b.buf[..]), old(b.pos), e.wire) && b.pos == old(b.pos) + |e.wire| && s.log == e.log
  {
    ghost var e1 := EncJoin(s.log, id, slink.log);
    WrapJoin(id, slink, s, b);
    WrapPayloads(pub, masked, s, b);
    SpliceTwice(old(b.buf[..]), old(b.pos), e1.wire, EncPayloads(e1.log, pub, masked).wire);
  }

  /** `absorb trytes public_payload; mask trytes masked_payload`. */
  method WrapPayloads(pub: Trytes, masked: Trytes, s: Spongos, b: OutCursor)
    requires TrytesEncodable(pub) && TrytesEncodable(masked)
    requires b.Valid() && SizeofTrytes(|pub.t| / 3) + SizeofTrytes(|masked.t| / 3) <= b.Size()
    modifies s, b, b.buf
    ensures b.Valid()
    ensures var e := EncPayloads(old(s.log), pub, masked);
      b.buf[..] == Splice(old(b.buf[..]), old(b.pos), e.wire) && b.pos == old(b.pos) + |e.wire| && s.log == e.log
  {
    ghost var e1 := EncTrytes(AbsorbCmd, s.log, pub);
    WrapTrytes(AbsorbCmd, s, b, pub);
    WrapTrytes(MaskCmd, s, b, masked);
    SpliceTwice(old(b.buf[..]), old(b.pos), e1.wire, EncTrytes(MaskCmd, e1.log, masked).wire);
  }

  /** Unwrapping both payloads. */
  method UnwrapPayloads(s: Spongos, b: InCursor) returns (r: Result<(Trytes, Trytes)>)
    requires b.Valid()
    modifies s, b
    ensures b.Valid()
    ensures Follows(r, ReadPayloads(old(s.log), old(b.Rest())), old(b.pos), b.pos, s.log)
  {
    var rp := UnwrapTrytes(AbsorbCmd, s, b);
    if rp.Error? {
      return Error(rp.err);
    }
    assert b.Rest() == old(b.Rest())[b.pos - old(b.pos)..];
    var rm := UnwrapTrytes(MaskCmd, s, b);
    if rm.Error? {
      return Error(rm.err);
    }
    r := Ok((rp.value, rm.value));
  }

  /** The link and both payloads, as both unwraps begin. */
  method UnwrapBody(lookup: Lookup, s: Spongos, b: InCursor) returns (r: Result<(Trytes, Trytes)>)
    requires b.Valid()
    modifies s, b
    ensures b.Valid()
    ensures Follows(r, ReadBody(lookup, old(s.log), old(b.Rest())), old(b.pos), b.pos, s.log)
  {
    var rj := UnwrapJoin(lookup, s, b);
    if rj.Error? {
      return Error(rj.err);
    }
    assert b.Rest() == old(b.Rest())[b.pos - old(b.pos)..];
    r := UnwrapPayloads(s, b);
  }

  /** `unwrap_recover`. */
  method UnwrapRecover(lookup: Lookup, s: Spongos, b: InCursor) returns (r: Result<(seq<Trit>, Trytes, Trytes)>)
    requires b.Valid()
    modifies s, b
    ensures b.Valid()
    ensures Follows(r, ReadRecover(lookup, old(s.log), old(b.Rest())), old(b.pos), b.pos, s.log)
  {
    var rb := UnwrapBody(lookup, s, b);
    if rb.Error? {
      return Error(rb.err);
    }
    assert b.Rest() == old(b.Rest())[b.pos - old(b.pos)..];
    var rk := SqueezeUnwrapMssigRecover(s, b);
    if rk.Error? {
      return Error(rk.err);
    }
    r := Ok((rk.value, rb.value.0, rb.value.1));
  }

  /** `unwrap_verify`. */
  method UnwrapVerify(lookup: Lookup, pk: seq<Trit>, s: Spongos, b: InCursor) returns (r: Result<(Trytes, Trytes)>)
    requires b.Valid()
    modifies s, b
    ensures b.Valid()
    ensures Follows(r, ReadVerify(lookup, pk, old(s.log), old(b.Rest())), old(b.pos), b.pos, s.log)
  {
    var rb := UnwrapBody(lookup, s, b);
    if rb.Error? {
      return Error(rb.err);
    }
    assert b.Rest() == old(b.Rest())[b.pos - old(b.pos)..];
    var rk := SqueezeUnwrapMssigVerify(pk, s, b);
    if rk.Error? {
      return Error(rk.err);
    }
    r := Ok(rb.value);
  }

  /** The round trip of the module's own scenario: a packet wrapped into a
      buffer of exactly `sizeof` trits on fresh sponges fills it, and
      unwrapping it on fresh sponges against the signer's public key, with a
      lookup that knows only `msgid`, consumes it and returns both payloads. */
  method WrapUnwrap(msgid: MsgId, pub: Trytes, masked: Trytes, sk: PrivateKey)
    returns (wrapLeft: nat, unwrapLeft: nat, r: Result<(Trytes, Trytes)>)
    requires Wrappable(msgid.id, pub, masked, sk)
    ensures wrapLeft == 0 && unwrapLeft == 0 && r == Ok((pub, masked))
  {
    var n := Sizeof(|pub.t| / 3, |masked.t| / 3, sk);
    var buf := new Trit[n](_ => 0);

    var s := new Spongos.Init();
    var b := new OutCursor(buf);
    var slink := new Spongos.Init();
    Wrap(msgid, slink, pub, masked, sk, s, b);
    wrapLeft := b.Size();
    ghost var e := EncodePacket([], msgid.id, [], pub, masked, sk);
    SizeofExact([], msgid.id, [], pub, masked, sk);
    assert buf[..] == e.wire + [];

    var s2 := new Spongos.Init();
    var b2 := new InCursor(buf[..]);
    var linkLog := [];
    var lookup: Lookup := m => if m == msgid.id then Some(linkLog) else None;
    VerifyRoundTrip(lookup, [], msgid.id, [], pub, masked, sk, []);
    r := UnwrapVerify(lookup, sk.pk, s2, b2);
    unwrapLeft := b2.Size();
  }
}
