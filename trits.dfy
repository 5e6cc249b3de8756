/** Balanced-ternary values: trits, trytes and the fixed-width integer codec
    that the PB3 `tryte` and `size_t` encodings are built on. */
module Trits {

  /** One balanced-ternary digit. */
  type Trit = t: int | -1 <= t <= 1

  /** The value range of one tryte (three balanced trits). */
  type Trint3 = d: int | -13 <= d <= 13

  /** The balanced residue of `x` modulo 3. */
  function Mods3(x: int): (t: Trit)
    ensures (x - t) % 3 == 0
  {
    ((x + 1) % 3) - 1
  }

  /** The largest value that `k` balanced trits can represent, (3^k - 1) / 2. */
  function MaxInt(k: nat): (m: int)
    ensures m >= 0
  {
    if k == 0 then 0 else 3 * MaxInt(k - 1) + 1
  }

  /** Little-endian balanced-ternary value of a trit sequence. */
  function TritsToInt(t: seq<Trit>): (n: int)
    ensures -MaxInt(|t|) <= n <= MaxInt(|t|)
  {
    if |t| == 0 then 0 else t[0] + 3 * TritsToInt(t[1..])
  }

  /** The `k`-trit little-endian balanced-ternary representation of `n`. */
  function IntToTrits(n: int, k: nat): (t: seq<Trit>)
    requires -MaxInt(k) <= n <= MaxInt(k)
    ensures |t| == k
    decreases k
  {
    if k == 0 then []
    else
      var t0 := Mods3(n);
      var q := (n - t0) / 3;
      assert 3 * q == n - t0;
      [t0] + IntToTrits(q, k - 1)
  }

  lemma {:induction false} TritsOfInt(n: int, k: nat)
    requires -MaxInt(k) <= n <= MaxInt(k)
    ensures TritsToInt(IntToTrits(n, k)) == n
    decreases k
  {
    if k > 0 {
      var t0 := Mods3(n);
      var q := (n - t0) / 3;
      assert 3 * q == n - t0;
      TritsOfInt(q, k - 1);
      assert IntToTrits(n, k)[1..] == IntToTrits(q, k - 1);
    }
  }

  lemma {:induction false} IntOfTrits(t: seq<Trit>)
    ensures IntToTrits(TritsToInt(t), |t|) == t
  {
    if |t| > 0 {
      var v := TritsToInt(t[1..]);
      var n := t[0] + 3 * v;
      assert Mods3(n) == t[0];
      assert (n - t[0]) / 3 == v;
      IntOfTrits(t[1..]);
      assert t == [t[0]] + t[1..];
    }
  }

  /** `put3`: the 3-trit codeword of a tryte value. */
  function Put3(d: Trint3): (t: seq<Trit>)
    ensures |t| == 3
  {
    assert MaxInt(3) == 13;
    IntToTrits(d, 3)
  }

  /** `get3`: the tryte value of a 3-trit codeword. */
  function Get3(t: seq<Trit>): (d: Trint3)
    requires |t| == 3
  {
    assert MaxInt(3) == 13;
    TritsToInt(t)
  }

  lemma Get3Put3(d: Trint3)
    ensures Get3(Put3(d)) == d
  {
    assert MaxInt(3) == 13;
    TritsOfInt(d, 3);
  }

  lemma Put3Get3(t: seq<Trit>)
    requires |t| == 3
    ensures Put3(Get3(t)) == t
  {
    IntOfTrits(t);
  }

  /** The `n` trits `seed`, `seed + 1`, ... reduced modulo 3. */
  function Stream(seed: int, n: nat): (z: seq<Trit>)
    ensures |z| == n
    decreases n
  {
    if n == 0 then [] else [Mods3(seed)] + Stream(seed + 1, n - 1)
  }

  /** Trit-wise balanced addition modulo 3 of `p` and a key stream `k`. */
  function AddSeq(p: seq<Trit>, k: seq<Trit>): (c: seq<Trit>)
    requires |p| == |k|
    ensures |c| == |p|
  {
    seq(|p|, i requires 0 <= i < |p| => Mods3(p[i] as int + k[i] as int))
  }

  /** Trit-wise balanced subtraction modulo 3 of a key stream `k` from `c`. */
  function SubSeq(c: seq<Trit>, k: seq<Trit>): (p: seq<Trit>)
    requires |c| == |k|
    ensures |p| == |c|
  {
    seq(|c|, i requires 0 <= i < |c| => Mods3(c[i] as int - k[i] as int))
  }

  lemma SubAddTrit(a: Trit, b: Trit)
    ensures Mods3(Mods3(a as int + b as int) as int - b as int) == a
  {
  }

  /** Subtracting the key stream undoes adding it. */
  lemma SubAdd(p: seq<Trit>, k: seq<Trit>)
    requires |p| == |k|
    ensures SubSeq(AddSeq(p, k), k) == p
  {
    forall i | 0 <= i < |p|
      ensures SubSeq(AddSeq(p, k), k)[i] == p[i]
    {
      SubAddTrit(p[i], k[i]);
    }
  }
}
