/** The Merkle-tree signature scheme as the encoding layer sees it (its
    source, mss.rs, is not part of this model).  Only the signature layout
    and the recover/verify contract are kept: a signature starts with an
    18-trit `skn` header (4 trits of tree height, 14 of leaf index), its
    length is fixed by the height, and recovering the public key from a
    digest and an honest signature over it yields the signer's key.  The
    signature body is a stand-in: the public key keyed by the digest,
    followed by filler where the WOTS signature and authentication path go. */
module Mss {
  import opened Trits

  const PK_SIZE: nat := 243
  const SKN_SIZE: nat := 18
  const SKN_HEIGHT_SIZE: nat := 4
  const SKN_INDEX_SIZE: nat := 14
  const WOTS_SIG_SIZE: nat := 13122
  const MT_HASH_SIZE: nat := 243
  const MAX_D: nat := 20

  /** Size of the digest that `mssig` signs (`tryte hash[78]`). */
  const HASH_SIZE: nat := 234

  /** A private key: tree height, index of the leaf to sign with, and the
      public key (the Merkle root) it belongs to. */
  datatype PrivateKey = PrivateKey(height: nat, skn: nat, pk: seq<Trit>)

  predicate ValidKey(sk: PrivateKey)
  {
    sk.height <= MAX_D && sk.skn <= MaxInt(SKN_INDEX_SIZE) && |sk.pk| == PK_SIZE
  }

  /** Signature length for tree height `d`. */
  function SigSize(d: nat): nat
  {
    SKN_SIZE + WOTS_SIG_SIZE + MT_HASH_SIZE * d
  }

  /** `sizeof_mssig(sk)`: depends on the key's height only. */
  function SizeofMssig(sk: PrivateKey): nat
  {
    SigSize(sk.height)
  }

  function Zeros(k: nat): (z: seq<Trit>)
    ensures |z| == k
  {
    if k == 0 then [] else [0] + Zeros(k - 1)
  }

  /** The digest-derived key of the stand-in signature body. */
  function HashKey(hash: seq<Trit>): (k: seq<Trit>)
    requires |hash| == HASH_SIZE
    ensures |k| == PK_SIZE
  {
    hash + hash[..PK_SIZE - HASH_SIZE]
  }

  /** The tree height a signature's `skn` header announces. */
  function SigHeight(sig: seq<Trit>): int
    requires SKN_HEIGHT_SIZE <= |sig|
  {
    TritsToInt(sig[..SKN_HEIGHT_SIZE])
  }

  function Sign(sk: PrivateKey, hash: seq<Trit>): (sig: seq<Trit>)
    requires ValidKey(sk) && |hash| == HASH_SIZE
    ensures |sig| == SizeofMssig(sk)
  {
    assert MaxInt(SKN_HEIGHT_SIZE) == 40;
    IntToTrits(sk.height, SKN_HEIGHT_SIZE) + IntToTrits(sk.skn, SKN_INDEX_SIZE)
    + AddSeq(sk.pk, HashKey(hash)) + Zeros(SigSize(sk.height) - SKN_SIZE - PK_SIZE)
  }

  /** The candidate public key that `sig` and the digest `hash` lead to. */
  function Recover(hash: seq<Trit>, sig: seq<Trit>): (pk: seq<Trit>)
    requires |hash| == HASH_SIZE && SKN_SIZE + PK_SIZE <= |sig|
    ensures |pk| == PK_SIZE
  {
    SubSeq(sig[SKN_SIZE..SKN_SIZE + PK_SIZE], HashKey(hash))
  }

  /** An honest signature announces its key's height and recovers its key. */
  lemma RecoverSign(sk: PrivateKey, hash: seq<Trit>)
    requires ValidKey(sk) && |hash| == HASH_SIZE
    ensures SigHeight(Sign(sk, hash)) == sk.height
    ensures Recover(hash, Sign(sk, hash)) == sk.pk
  {
    assert MaxInt(SKN_HEIGHT_SIZE) == 40;
    var h := IntToTrits(sk.height, SKN_HEIGHT_SIZE);
    var j := IntToTrits(sk.skn, SKN_INDEX_SIZE);
    var body := AddSeq(sk.pk, HashKey(hash));
    var sig := Sign(sk, hash);
    assert sig[..SKN_HEIGHT_SIZE] == h;
    TritsOfInt(sk.height, SKN_HEIGHT_SIZE);
    assert sig[SKN_SIZE..SKN_SIZE + PK_SIZE] == body;
    SubAdd(sk.pk, HashKey(hash));
  }
}
