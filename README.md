# SignedPacket over the PB3 absorb command — a Dafny model

This project models the wire-encoding layer of a Masked Authenticated
Messaging (MAM) channel. Encoding a message drives a sponge (`Spongos`) as
a side effect: each PB3 command writes trits to an output cursor and feeds
the sponge, and each decoding command reads the same trits back from an
input cursor and feeds the receiving sponge in the same way.

Three parts are modelled:

- The PB3 `absorb` and `absorb external` commands. `wrap3` and `wrapn`
  write a tryte codeword or a trit string and absorb it. `unwrap3` and
  `unwrapn` bounds-check the input, read the trits and absorb them. The
  trait's default `unwrap_absorb` replaces the old value only on success.
- The application identifiers: the widths `APPINST_SIZE = 243` and
  `MSGID_SIZE = 81`, and `MsgId` with its absorb encoding, equality and
  hash. `AppInst` carries the first width and is otherwise unused, and
  `SignedPacket.TYPE` holds the message type tag `MAM9SIGNEDPACKET`.
- The `SignedPacket` message, whose schema is: join the link, absorb the
  public payload, mask the masked payload, commit, squeeze a 78-tryte
  digest, sign it. The model covers `sizeof`, `wrap`, `unwrap_recover`,
  `unwrap_verify` and the module's `wrap_unwrap` scenario.

How the model is built:

- The sponge is a class whose only field is the log of operations applied
  to it. "Wrap and unwrap are symmetric" then means that both sides end
  with the same log.
- Output cursors are arrays with a write offset. Input cursors are trit
  sequences with a read offset.
- Every wrap method is specified by a pure encoder, which returns the wire
  trits and the new log. Every unwrap method is specified by a pure
  decoder, which returns a `Result` carrying the value, the trits consumed
  and the new log (`Commands.Follows`).
- The general round trips are lemmas, `Commands.ReadChunkOfChunk` and
  `Commands.ReadTryteOfChunk` at the bottom and one per schema step above
  them. Each says that a decoder applied to an encoder's output, starting
  from any sponge log and followed by any further trits, returns the
  encoded value, consumes exactly the encoding and reproduces the encoder's
  log.
- `Absorb.RoundTripN`, `Absorb.RoundTrip3` and `SignedPacket.WrapUnwrap`
  are methods instead. Each runs the wrap and the unwrap on a new buffer of
  exactly the encoded length, with sponges that start from empty logs.

The commands the core calls but whose code is not part of this model are
`join`, `mask`, the `size_t`/`trytes` encodings, `mssig`, the
`put3`/`get3` codeword and the `Absorb` implementation of `Trits` that
`MsgId` calls. Each gets the smallest concrete definition that has
the behaviour the core relies on, so that nothing is assumed:

- `put3`/`get3` are 3-trit balanced ternary.
- The mask key stream and squeezed digests are a fixed function of the
  sponge log. The stand-in reads only the log's length, not its events.
  No proof depends on its body, only on its being a function of the log.
- `Trits` is absorbed as one `wrapn` (and read back as one `unwrapn`) over
  its whole buffer.
- An MSS signature is an `skn` header followed by the public key masked
  with a digest-derived key, padded to the signature length that the key's
  tree height fixes.

The schema comment in `signed_packet.rs` declares the digest as
`tryte hash[78]`, which is 234 trits. The model squeezes 234 trits.

## Model

| member | source | states |
|---|---|---|
| Absorb.Wrap3 | src/pb3/cmd/absorb.rs:31-35 | the cursor advances by exactly 3; the codeword `put3(d)` is written in that window and nowhere else; exactly that codeword is absorbed |
| Absorb.WrapN | src/pb3/cmd/absorb.rs:38-41 | `t` is absorbed, copied verbatim into the next output trits of that length (nothing else in the buffer changes), and the cursor advances by its length |
| Absorb.Unwrap3 | src/pb3/cmd/absorb.rs:46-51 | with fewer than 3 trits left: `Eof`, cursor and sponge unchanged; otherwise the next 3 trits are read, absorbed and decoded with `get3`, and the cursor advances by 3 |
| Absorb.UnwrapN | src/pb3/cmd/absorb.rs:54-59 | when `t` is longer than the input left: `Eof`, with cursor, `t` and sponge unchanged; otherwise `t` receives exactly as many of the next input trits as it holds, which are absorbed, and the cursor advances by that many |
| Absorb.RoundTripN | src/pb3/cmd/absorb.rs:38-59 | `wrapn` into a buffer of exactly the length of `t`, then `unwrapn` from it, recovers `t` and leaves nothing unread; both sponges end with the same single absorb of `t` |
| Absorb.RoundTrip3 | src/pb3/cmd/absorb.rs:31-51 | `wrap3(d)` then `unwrap3` returns `Ok(d)`, and both sponges absorb the same codeword |
| Trits.Get3Put3 | src/pb3/cmd/absorb.rs:50 | decoding the codeword of a tryte returns that tryte |
| Trits.Put3Get3 | src/pb3/cmd/absorb.rs:33 | every 3-trit codeword is the codeword of the tryte it decodes to |
| Absorb.WrapAbsorbExternal | src/pb3/cmd/absorb.rs:66-68 | the value's trits are absorbed and no buffer is touched |
| Absorb.UnwrapAbsorbExternal | src/pb3/cmd/absorb.rs:70-72 | the same effect on the sponge as `WrapAbsorbExternal`, and no buffer is touched |
| Commands.ReadChunkOfChunk | src/pb3/cmd/absorb.rs:38-59 | decoding as many trits as `p` holds from what wrapping `p` wrote, whatever follows it, yields `p`, consumes that many trits and reproduces the wrapping side's log |
| Commands.ReadChunk | src/pb3/cmd/absorb.rs:54-59 | the decoder fails exactly when fewer than `k` trits remain, and then with `Eof`; on success it consumes `k` trits, returns `k` trits and appends one event to the log |
| AppCore.UnwrapAbsorb | src/pb3/cmd/absorb.rs:15-19 | for `MsgId`: on an error the old value is kept, the error is returned, and cursor and sponge are unchanged; on success the value becomes the decoded one and the cursor and sponge advance as the decoder says |
| AppCore.MsgIdRoundTrip | src/app/core/mod.rs:22-31 | wrapping an 81-trit `MsgId`, then unwrapping it, returns an equal `MsgId`, consumes 81 trits and reproduces the wrapping side's log |
| AppCore.ReadMsgId | src/app/core/mod.rs:27-31 | the decoder fails exactly when fewer than 81 trits remain, and then with `Eof`; on success the `id` has exactly 81 trits and 81 trits are consumed |
| AppCore.WrapAbsorb | src/app/core/mod.rs:22-25 | requires an 81-trit `id`; writes and absorbs it and advances the cursor by 81 |
| AppCore.UnwrapAbsorbSized | src/app/core/mod.rs:27-31 | follows `ReadMsgId`; an inner error is passed on, with cursor and sponge unchanged |
| AppCore.EqualityIsIdEquality | src/app/core/mod.rs:16 | two `MsgId`s are equal exactly when their `id`s are |
| AppCore.HashAgreesWithEquality | src/app/core/mod.rs:34-38 | two `MsgId`s are equal exactly when the trits they feed to the hasher are, so equal identifiers hash equally |
| SignedPacket.SizeofExact | src/app/channel/msg/signed_packet.rs:48-58 | the packet `wrap` writes has exactly `sizeof` trits; `commit` and `squeeze` add nothing to the wire |
| SignedPacket.Wrap | src/app/channel/msg/signed_packet.rs:77-92 | requires payloads of whole trytes; writes exactly the encoding of join, absorb, mask and mssig, in that order, at the cursor, advances by its length and leaves the sponge with that encoding's log |
| SignedPacket.WrapBody | src/app/channel/msg/signed_packet.rs:88-90 | the join and payload steps write their encodings one after the other |
| SignedPacket.WrapPayloads | src/app/channel/msg/signed_packet.rs:89-90 | the absorbed public payload is followed by the masked payload |
| SignedPacket.ReadRecover | src/app/channel/msg/signed_packet.rs:108-118 | the decoder of `unwrap_recover`: on success it consumes no more than the input and returns a 243-trit public key |
| SignedPacket.UnwrapPayloads | src/app/channel/msg/signed_packet.rs:114-115 | follows the payload decoder: the first failing step's error is returned; otherwise both payloads are returned in order |
| SignedPacket.UnwrapBody | src/app/channel/msg/signed_packet.rs:113-115 | follows the decoder of join and both payloads, with early return on the first error |
| SignedPacket.UnwrapRecover | src/app/channel/msg/signed_packet.rs:108-118 | follows `ReadRecover`: join, absorb, mask and recover in that order, with the first error returned; on success `(pk, public, masked)`, with cursor and log as the decoder says |
| SignedPacket.UnwrapVerify | src/app/channel/msg/signed_packet.rs:136-147 | follows `ReadVerify`: the same steps and the same early returns, ending with the signature check |
| SignedPacket.PayloadsRoundTrip | src/app/channel/msg/signed_packet.rs:114-115 | unwrapping wrapped payloads returns them, consumes their encoding and reproduces the log |
| SignedPacket.BodyRoundTrip | src/app/channel/msg/signed_packet.rs:113-115 | when the lookup resolves the link, unwrapping the join and both payloads returns the payloads, consumes their encoding and reproduces the log |
| SignedPacket.RecoverRoundTrip | src/app/channel/msg/signed_packet.rs:108-118 | `unwrap_recover` of `wrap`'s output, with a lookup that resolves the link to the joined sponge, returns the signer's public key and both payloads, consumes the packet and leaves both sponges with the same log |
| SignedPacket.VerifyRoundTrip | src/app/channel/msg/signed_packet.rs:136-147 | `unwrap_verify` of `wrap`'s output against the signer's public key returns both payloads, consumes the packet and reproduces the log |
| SignedPacket.VerifyIffRecover | src/app/channel/msg/signed_packet.rs:142-146 | `unwrap_verify` succeeds exactly when `unwrap_recover` succeeds with the expected key, and then agrees with it on payloads, length and log; errors before the signature are the same, and a different recovered key gives `SignatureInvalid` |
| SignedPacket.VerifyOtherKey | src/app/channel/msg/signed_packet.rs:145 | an honest packet checked against any key but the signer's gives `SignatureInvalid` |
| SignedPacket.LinkErrors | src/app/channel/msg/signed_packet.rs:113 | both unwraps return `Eof` when the input is shorter than a message identifier, and `UnresolvedLink` when the lookup does not know it |
| SignedPacket.WrapUnwrap | src/app/channel/msg/signed_packet.rs:156-217 | wrapping into a buffer of `sizeof` trits fills it exactly; unwrapping on fresh sponges against the signer's key, with a lookup that knows only `msgid`, consumes the whole buffer and returns `Ok((public, masked))` |
| Join.JoinRoundTrip | src/app/channel/msg/signed_packet.rs:88 | stand-in for `join`: when the lookup resolves the written identifier to the linked sponge, unwrapping consumes 81 trits and reproduces the wrapping side's log |
| Join.ReadJoin | src/app/channel/msg/signed_packet.rs:113 | stand-in for `unwrap_join`: `Eof` exactly when fewer than 81 trits remain; success consumes 81 trits and needs a resolved link |
| Pb3Trytes.SizeTRoundTrip | src/app/channel/msg/signed_packet.rs:53 | stand-in for the `size_t` length prefix: decoding what encoding wrote returns the same length and reproduces the log |
| Pb3Trytes.TrytesRoundTrip | src/app/channel/msg/signed_packet.rs:89-90 | stand-in for `trytes` under `absorb` or `mask`: decoding what encoding wrote returns the same payload, consumes `sizeof_trytes` trits and reproduces the log |
| Mssig.MssigRoundTrip | src/app/channel/msg/signed_packet.rs:91 | stand-in for `mssig`: recovering from an honest signature over the squeezed digest returns the signer's public key and consumes `sizeof_mssig` trits |
| Mssig.ReadMssigVerify | src/app/channel/msg/signed_packet.rs:145 | succeeds exactly when recovery succeeds and yields the expected key |
| Mss.RecoverSign | src/app/channel/msg/signed_packet.rs:91 | stand-in for MSS: an honest signature announces its key's height and recovers its key |

## Left out

- Sponge internals (the permutation, absorb mixing, the mask key stream, squeeze). The sponge is modelled as its log of operations. Its outputs are a fixed function of that log, so only "same log, same output" is relied on.
- MSS key generation, WOTS signing and Merkle authentication paths: mss.rs is not part of this model. The signature is a stand-in with the real layout and sizes (an 18-trit `skn` header, 13122 WOTS trits, 243 trits per tree level). Forgery resistance is not modelled.
- join.rs, mask.rs, the `size_t`/`trytes` encodings and `put3`/`get3` are not part of this model. Each has a concrete stand-in with the behaviour the core relies on: lengths, inverse and log effect.
- `WrapAbsorb` only holds a mutable borrow of the sponge. The `absorb` methods take the sponge as a parameter.
- Join: the linked sponge `slink` is read but not changed, since what `wrap_join` does to it is not part of this model.
- The lookup returns the log of the linked sponge rather than a clone of the sponge.
- src/pb3/typ/oneof.rs: a type alias whose size forwards to `sizeof_tryte`; it has no behaviour of its own.
- The standard library's `Hasher`: modelled as the trits that `Hash for MsgId` feeds to it.
- The test's PRNG and fixture strings (`prng::dbg_init_str`, `Trits::cycle_str`, the concrete key height 2). `WrapUnwrap` takes the identifier, payloads and key as parameters instead.
- `AppInst`: only its width constant and its shape.
- `AppCore.UnwrapAbsorb`: the trait's default `unwrap_absorb` is generic over the absorbed type, but it is modelled only for `MsgId`.
- The `Absorb` implementation of `Trits` is not part of this model. `AppCore.WrapAbsorb` and `AppCore.UnwrapAbsorbSized` take it to be one `wrapn`/`unwrapn` over the whole 81-trit buffer.
- The sponge outputs: the stand-in key stream and digest depend on the length of the log only. Two different logs of equal length give the same output, which a real sponge would not.
- Machine integer widths: sizes are unbounded naturals. Overflow of `usize` in `sizeof` is not modelled.
