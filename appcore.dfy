/** Channel and message identifiers: fixed-width trit strings.  A `MsgId`
    is absorbed in clear (never masked) and is compared and hashed by its
    trits only. */
module AppCore {
  import opened Trits
  import opened Results
  import opened Cursor
  import opened Sponge
  import opened Commands
  import Absorb

  /** Width of a channel identifier, in trits. */
  const APPINST_SIZE: nat := 243

  /** Width of a message identifier, in trits. */
  const MSGID_SIZE: nat := 81

  datatype AppInst = AppInst(id: seq<Trit>)

  datatype MsgId = MsgId(id: seq<Trit>)

  /** The trits `Hash for MsgId` feeds to the hasher. */
  function Hash(m: MsgId): seq<Trit>
  {
    m.id
  }

  /** The derived equality of `MsgId` is equality of `id`. */
  lemma EqualityIsIdEquality(a: MsgId, b: MsgId)
    ensures a == b <==> a.id == b.id
  {
  }

  /** Equal identifiers hash equally, and the hash input determines the identifier. */
  lemma HashAgreesWithEquality(a: MsgId, b: MsgId)
    ensures a == b <==> Hash(a) == Hash(b)
  {
  }

  /** Unwrapping a `MsgId` with `absorb` from `inp`. */
  function ReadMsgId(log: seq<Event>, inp: seq<Trit>): (r: Result<Dec<MsgId>>)
    ensures r.Error? <==> |inp| < MSGID_SIZE
    ensures r.Error? ==> r.err == Eof
    ensures r.Ok? ==> |r.value.value.id| == MSGID_SIZE && r.value.used == MSGID_SIZE
  {
    match ReadChunk(AbsorbCmd, log, inp, MSGID_SIZE)
    case Error(e) => Error(e)
    case Ok(c) => Ok(Dec(MsgId(c.value), c.used, c.log))
  }

  /** Wrapping a well-formed `MsgId` and unwrapping the result gives it back. */
  lemma MsgIdRoundTrip(log: seq<Event>, m: MsgId, rest: seq<Trit>)
    requires |m.id| == MSGID_SIZE
    ensures var e := Chunk(AbsorbCmd, log, m.id);
      ReadMsgId(log, e.wire + rest) == Ok(Dec(m, MSGID_SIZE, e.log))
  {
    ReadChunkOfChunk(AbsorbCmd, log, m.id, rest);
  }

  /** `MsgId::wrap_absorb`: the identifier must be exactly `MSGID_SIZE` trits. */
  method WrapAbsorb(m: MsgId, s: Spongos, b: OutCursor)
    requires |m.id| == MSGID_SIZE
    requires b.Valid() && MSGID_SIZE <= b.Size()
    modifies s, b, b.buf
    ensures b.Valid()
    ensures var e := Chunk(AbsorbCmd, old(s.log), m.id);
      b.buf[..] == Splice(old(b.buf[..]), old(b.pos), e.wire) && b.pos == old(b.pos) + MSGID_SIZE && s.log == e.log
  {
    Absorb.WrapN(s, b, m.id);
  }

  /** `MsgId::unwrap_absorb_sized`: fill a zeroed `MSGID_SIZE`-trit buffer
      from the input; an error from the inner unwrap is passed on. */
  method UnwrapAbsorbSized(s: Spongos, b: InCursor) returns (r: Result<MsgId>)
    requires b.Valid()
    modifies s, b
    ensures b.Valid()
    ensures Follows(r, ReadMsgId(old(s.log), old(b.Rest())), old(b.pos), b.pos, s.log)
    ensures r.Error? ==> b.pos == old(b.pos) && s.log == old(s.log)
  {
    var id := new Trit[MSGID_SIZE];
    var ru := Absorb.UnwrapN(s, b, id);
    if ru.Error? {
      return Error(ru.err);
    }
    r := Ok(MsgId(id[..]));
  }

  /** The trait's default `unwrap_absorb` for `MsgId`: the old value is
      replaced by the decoded one only when decoding succeeds. */
  method UnwrapAbsorb(self: MsgId, s: Spongos, b: InCursor) returns (r: Result<()>, updated: MsgId)
    requires b.Valid()
    modifies s, b
    ensures b.Valid()
    ensures match ReadMsgId(old(s.log), old(b.Rest()))
      case Error(e) => r == Error(e) && updated == self && b.pos == old(b.pos) && s.log == old(s.log)
      case Ok(d) => r == Ok(()) && updated == d.value && b.pos == old(b.pos) + d.used && s.log == d.log
  {
    var v := UnwrapAbsorbSized(s, b);
    if v.Error? {
      return Error(v.err), self;
    }
    r, updated := Ok(()), v.value;
  }
}
