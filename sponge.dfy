/** The sponge (`Spongos`) seen from the encoding layer: its state is the log
    of operations applied to it since initialisation.  Two sponges that have
    seen the same log are in the same state, and every output the sponge
    produces (mask key stream, squeezed digest) is a function of that log. */
module Sponge {
  import opened Trits

  /** One operation applied to a sponge. */
  datatype Event =
    | Absorbed(trits: seq<Trit>)    // `absorb`: data mixed in, authenticated in clear
    | Masked(plain: seq<Trit>)      // `mask`/`unmask`: plaintext mixed in, hidden on the wire
    | Committed                     // `commit`
    | Squeezed(n: nat)              // `squeeze` of `n` trits
    | Joined(link: seq<Event>)      // `join` with a sponge whose own log was `link`

  /** The `n` output trits of a sponge whose log is `log`.  Stand-in for the
      permutation that looks at the length of the log only; nothing but its
      being a function of the log is relied upon. */
  function StateOutput(log: seq<Event>, n: nat): (z: seq<Trit>)
    ensures |z| == n
  {
    Stream(|log|, n)
  }

  class Spongos {
    var log: seq<Event>

    /** `Spongos::init`. */
    constructor Init()
      ensures log == []
    {
      log := [];
    }

    method Absorb(x: seq<Trit>)
      modifies this
      ensures log == old(log) + [Absorbed(x)]
    {
      log := log + [Absorbed(x)];
    }

    /** Encrypt `p` with the current key stream, then absorb `p`. */
    method Mask(p: seq<Trit>) returns (c: seq<Trit>)
      modifies this
      ensures c == AddSeq(p, StateOutput(old(log), |p|))
      ensures log == old(log) + [Masked(p)]
    {
      c := AddSeq(p, StateOutput(log, |p|));
      log := log + [Masked(p)];
    }

    /** Decrypt `c` with the current key stream, then absorb the plaintext. */
    method Unmask(c: seq<Trit>) returns (p: seq<Trit>)
      modifies this
      ensures p == SubSeq(c, StateOutput(old(log), |c|))
      ensures log == old(log) + [Masked(p)]
    {
      p := SubSeq(c, StateOutput(log, |c|));
      log := log + [Masked(p)];
    }

    method Commit()
      modifies this
      ensures log == old(log) + [Committed]
    {
      log := log + [Committed];
    }

    method Squeeze(n: nat) returns (z: seq<Trit>)
      modifies this
      ensures z == StateOutput(old(log), n)
      ensures log == old(log) + [Squeezed(n)]
    {
      z := StateOutput(log, n);
      log := log + [Squeezed(n)];
    }

    /** Bind this sponge to the state of a linked message's sponge. */
    method Join(link: seq<Event>)
      modifies this
      ensures log == old(log) + [Joined(link)]
    {
      log := log + [Joined(link)];
    }
  }
}
