/** The PB3 command vocabulary shared by every message schema: the two
    data-carrying commands (`absorb`, `mask`) as a tag, their effect on the
    wire and on the sponge log as pure functions, and wrap/unwrap entry points
    that dispatch on the tag. */
module Commands {
  import opened Trits
  import opened Results
  import opened Cursor
  import opened Sponge
  import Absorb
  import Mask

  datatype Cmd = AbsorbCmd | MaskCmd

  /** What an encoding step wrote and the sponge log after it. */
  datatype Enc = Enc(wire: seq<Trit>, log: seq<Event>)

  /** What a decoding step produced, how many trits it read, and the sponge log after it. */
  datatype Dec<T> = Dec(value: T, used: nat, log: seq<Event>)

  function ChunkEvent(cmd: Cmd, p: seq<Trit>): Event
  {
    match cmd
    case AbsorbCmd => Absorbed(p)
    case MaskCmd => Masked(p)
  }

  /** The wire trits of the plaintext chunk `p` wrapped with `cmd` on a
      sponge whose log is `log`. */
  function Wire(cmd: Cmd, log: seq<Event>, p: seq<Trit>): (c: seq<Trit>)
    ensures |c| == |p|
  {
    match cmd
    case AbsorbCmd => p
    case MaskCmd => AddSeq(p, StateOutput(log, |p|))
  }

  /** Wrapping the plaintext chunk `p` with `cmd` on a sponge whose log is `log`. */
  function Chunk(cmd: Cmd, log: seq<Event>, p: seq<Trit>): (e: Enc)
    ensures |e.wire| == |p|
  {
    Enc(Wire(cmd, log, p), log + [ChunkEvent(cmd, p)])
  }

  /** The plaintext an unwrap with `cmd` recovers from the wire trits `c`. */
  function Plain(cmd: Cmd, log: seq<Event>, c: seq<Trit>): (p: seq<Trit>)
    ensures |p| == |c|
  {
    match cmd
    case AbsorbCmd => c
    case MaskCmd => SubSeq(c, StateOutput(log, |c|))
  }

  lemma PlainOfChunk(cmd: Cmd, log: seq<Event>, p: seq<Trit>)
    ensures Plain(cmd, log, Chunk(cmd, log, p).wire) == p
  {
    if cmd == MaskCmd {
      SubAdd(p, StateOutput(log, |p|));
    }
  }

  /** Unwrapping a chunk of `k` trits from `inp`: `Eof` when fewer remain. */
  function ReadChunk(cmd: Cmd, log: seq<Event>, inp: seq<Trit>, k: nat): (r: Result<Dec<seq<Trit>>>)
    ensures r.Error? <==> |inp| < k
    ensures r.Error? ==> r.err == Eof
    ensures r.Ok? ==> r.value.used == k && |r.value.value| == k
    ensures r.Ok? ==> r.value.log == log + [ChunkEvent(cmd, r.value.value)]
  {
    if |inp| < k then Error(Eof)
    else
      var p := Plain(cmd, log, inp[..k]);
      Ok(Dec(p, k, log + [ChunkEvent(cmd, p)]))
  }

  /** Unwrapping one tryte from `inp`. */
  function ReadTryte(cmd: Cmd, log: seq<Event>, inp: seq<Trit>): (r: Result<Dec<Trint3>>)
    ensures r.Error? <==> |inp| < 3
    ensures r.Error? ==> r.err == Eof
    ensures r.Ok? ==> r.value.used == 3 && |r.value.log| == |log| + 1
  {
    match ReadChunk(cmd, log, inp, 3)
    case Error(e) => Error(e)
    case Ok(c) => Ok(Dec(Get3(c.value), 3, c.log))
  }

  /** Unwrapping a chunk recovers what wrapping it wrote, whatever follows it. */
  lemma ReadChunkOfChunk(cmd: Cmd, log: seq<Event>, p: seq<Trit>, rest: seq<Trit>)
    ensures ReadChunk(cmd, log, Chunk(cmd, log, p).wire + rest, |p|) == Ok(Dec(p, |p|, Chunk(cmd, log, p).log))
  {
    var w := Chunk(cmd, log, p).wire;
    assert (w + rest)[..|p|] == w;
    PlainOfChunk(cmd, log, p);
  }

  lemma ReadTryteOfChunk(cmd: Cmd, log: seq<Event>, d: Trint3, rest: seq<Trit>)
    ensures ReadTryte(cmd, log, Chunk(cmd, log, Put3(d)).wire + rest) == Ok(Dec(d, 3, Chunk(cmd, log, Put3(d)).log))
  {
    ReadChunkOfChunk(cmd, log, Put3(d), rest);
    Get3Put3(d);
  }

  /** An unwrap method's outcome `r`, new offset `pos` and new log `log`
      agree with the decoder's result `d` from offset `pos0`. */
  ghost predicate Follows<T>(r: Result<T>, d: Result<Dec<T>>, pos0: nat, pos: nat, log: seq<Event>)
  {
    match d
    case Error(e) => r == Error(e)
    case Ok(v) => r == Ok(v.value) && pos == pos0 + v.used && log == v.log
  }

  method Wrap3(cmd: Cmd, s: Spongos, b: OutCursor, d: Trint3)
    requires b.Valid() && 3 <= b.Size()
    modifies s, b, b.buf
    ensures b.Valid()
    ensures var e := Chunk(cmd, old(s.log), Put3(d));
      b.buf[..] == Splice(old(b.buf[..]), old(b.pos), e.wire) && b.pos == old(b.pos) + 3 && s.log == e.log
  {
    match cmd
    case AbsorbCmd => Absorb.Wrap3(s, b, d);
    case MaskCmd => Mask.Wrap3(s, b, d);
  }

  method WrapN(cmd: Cmd, s: Spongos, b: OutCursor, t: seq<Trit>)
    requires b.Valid() && |t| <= b.Size()
    modifies s, b, b.buf
    ensures b.Valid()
    ensures var e := Chunk(cmd, old(s.log), t);
      b.buf[..] == Splice(old(b.buf[..]), old(b.pos), e.wire) && b.pos == old(b.pos) + |t| && s.log == e.log
  {
    match cmd
    case AbsorbCmd => Absorb.WrapN(s, b, t);
    case MaskCmd => Mask.WrapN(s, b, t);
  }

  method Unwrap3(cmd: Cmd, s: Spongos, b: InCursor) returns (r: Result<Trint3>)
    requires b.Valid()
    modifies s, b
    ensures b.Valid()
    ensures Follows(r, ReadTryte(cmd, old(s.log), old(b.Rest())), old(b.pos), b.pos, s.log)
  {
    match cmd
    case AbsorbCmd => r := Absorb.Unwrap3(s, b);
    case MaskCmd => r := Mask.Unwrap3(s, b);
  }

  method UnwrapN(cmd: Cmd, s: Spongos, b: InCursor, t: array<Trit>) returns (r: Result<()>)
    requires b.Valid()
    modifies s, b, t
    ensures b.Valid()
    ensures match ReadChunk(cmd, old(s.log), old(b.Rest()), t.Length)
      case Error(e) => r == Error(e)
      case Ok(c) => r == Ok(()) && t[..] == c.value && b.pos == old(b.pos) + c.used && s.log == c.log
  {
    match cmd
    case AbsorbCmd => r := Absorb.UnwrapN(s, b, t);
    case MaskCmd => r := Mask.UnwrapN(s, b, t);
  }
}
