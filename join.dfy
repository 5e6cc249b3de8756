/** The PB3 `join` command (its source, join.rs, is not part of this
    model).  Wrapping writes the link identifier with `absorb` and binds the
    current sponge to the linked message's sponge; unwrapping reads the
    identifier, resolves it with the caller's lookup and binds likewise. */
module Join {
  import opened Trits
  import opened Results
  import opened Cursor
  import opened Sponge
  import opened Commands
  import opened AppCore
  import Absorb

  /** The caller's link resolver: the log of the sponge registered for an identifier. */
  type Lookup = seq<Trit> -> Option<seq<Event>>

  function EncJoin(log: seq<Event>, id: seq<Trit>, link: seq<Event>): (e: Enc)
    ensures |e.wire| == |id|
  {
    var c := Chunk(AbsorbCmd, log, id);
    Enc(c.wire, c.log + [Joined(link)])
  }

  /** Unwrapping `join`: `Eof` when the identifier is cut short,
      `UnresolvedLink` when the lookup knows no sponge for it. */
  function ReadJoin(lookup: Lookup, log: seq<Event>, inp: seq<Trit>): (r: Result<Dec<()>>)
    ensures |inp| < MSGID_SIZE <==> r == Error(Eof)
    ensures r.Ok? ==> r.value.used == MSGID_SIZE && lookup(inp[..MSGID_SIZE]).Some?
  {
    match ReadChunk(AbsorbCmd, log, inp, MSGID_SIZE)
    case Error(e) => Error(e)
    case Ok(c) =>
      match lookup(c.value)
      case None => Error(UnresolvedLink)
      case Some(link) => Ok(Dec((), MSGID_SIZE, c.log + [Joined(link)]))
  }

  /** When the lookup resolves the written identifier to the sponge that
      wrapping joined, unwrapping reproduces wrapping's log. */
  lemma JoinRoundTrip(lookup: Lookup, log: seq<Event>, id: seq<Trit>, link: seq<Event>, rest: seq<Trit>)
    requires |id| == MSGID_SIZE && lookup(id) == Some(link)
    ensures var e := EncJoin(log, id, link);
      ReadJoin(lookup, log, e.wire + rest) == Ok(Dec((), MSGID_SIZE, e.log))
  {
    ReadChunkOfChunk(AbsorbCmd, log, id, rest);
  }

  /** `wrap_join`. */
  method WrapJoin(id: seq<Trit>, slink: Spongos, s: Spongos, b: OutCursor)
    requires s != slink
    requires b.Valid() && |id| <= b.Size()
    modifies s, b, b.buf
    ensures b.Valid()
    ensures var e := EncJoin(old(s.log), id, slink.log);
      b.buf[..] == Splice(old(b.buf[..]), old(b.pos), e.wire) && b.pos == old(b.pos) + |id| && s.log == e.log
  {
    Absorb.WrapN(s, b, id);
    s.Join(slink.log);
  }

  /** `unwrap_join`. */
  method UnwrapJoin(lookup: Lookup, s: Spongos, b: InCursor) returns (r: Result<()>)
    requires b.Valid()
    modifies s, b
    ensures b.Valid()
    ensures Follows(r, ReadJoin(lookup, old(s.log), old(b.Rest())), old(b.pos), b.pos, s.log)
  {
    var id := new Trit[MSGID_SIZE];
    var ru := Absorb.UnwrapN(s, b, id);
    if ru.Error? {
      return Error(ru.err);
    }
    match lookup(id[..])
    case None =>
      r := Error(UnresolvedLink);
    case Some(link) =>
      s.Join(link);
      r := Ok(());
  }
}
