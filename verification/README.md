# DaNTe: a verified model

DaNTe is a peer-to-peer messenger: sessions opened with X3DH, a Double Ratchet per
session, a Merkle log, signed server policies and invite links, chunked file
transfer, a proof-of-work puzzle and an encrypted local store. This project models
that core in Dafny and proves what it keeps over every input, every run and every
interleaving. `dafny verify dfyconfig.toml` checks all of it.

## How it is modelled

- **Keys are terms.** `Crypto` has a free term algebra: a derived key is the term of
  its derivation, Diffie-Hellman is commutative on secrets, a sealed message opens
  only under the key, header and associated data it was sealed with, and a secret
  drawn at random is a fresh name. "A key cannot be derived" is then a statement about
  terms: in `Secrecy` whoever seizes a state may know any secrets, computes an agreement
  from either of its two secrets, a handshake key from all its agreements, and every
  further key by the key-derivation functions. A peer's public key that is not of a known secret is
  `Foreign`, and agreement with a low-order one fails as in the code.
- **Hashes and signatures.** In `Merkle` a hash is the tree it stands for. In `X3dh` a
  signature is a term over its challenge. In `FileTransfer` all primitives are
  parameters, and a theorem either names the law it needs or ends in an explicit
  hash collision.
- **Bytes are bytes.** The wire formats work on byte sequences with big-endian
  integers, `u32` lengths and counts, count guards and UTF-8 checks. A codec is a value
  (an encoder, a decoder that consumes a prefix, and the values meant for it); its
  laws compose, and each format is proved from its parts. So that a codec cannot be wrong
  in its writer and its reader alike, `Layouts`, `ContentLayouts`, `PolicyLayouts` and
  `StoreLayouts` write every format out as a byte string in the terms of `Flat`, field by
  field and without codecs, and say exactly which bytes are read as which value.
  `Unicode` does the same for UTF-8, `Links` for hex links. `Wire.ReadMany`,
  `Wire.WriteMany`, `Wire.ReadList` and `Wire.WriteList` are the loops that every
  list in every format runs.
- **State changes are methods.** `Ratchet.Ratchet` and `X3dh.PreKeySecrets` are classes
  whose methods update fields in place and are proved equal to functions
  (`RatchetSpec`, `X3dh.Take`, `X3dh.TopUp`); the safety theorems are about runs of those
  functions. The Merkle verifier, hex, file, policy, store and proof-of-work code are
  methods with the source's loops.
- **Concurrency is interleaving.** `PowParallel` steps one thread at a time, splits each
  worker's loop at every shared access, and lets a relaxed load of the flag be stale.

| file | about |
|---|---|
| `Crypto`, `RatchetSpec`, `Ratchet` | keys, the Double Ratchet as a function, and as the class in the source |
| `Authentication` | between any two ratchets: what is accepted is accepted as it was sent |
| `RatchetSafety` | one endpoint against any inputs: key use, replay, bounds |
| `RatchetPair` | two endpoints and a network: what is delivered, and which keys are retained |
| `Secrecy` | what a seized state gives away: forward secrecy and post-compromise security |
| `Tampering`, `Estrangement` | what any packet, made up or replayed, costs: messages in flight to a side, and messages the side sends later |
| `X3dh`, `Session` | prekey bundles and pools, opening and accepting sessions, one-time prekeys |
| `Merkle`, `MerkleConsistency` | roots, inclusion proofs, consistency proofs and their verifier |
| `MerkleLevels` | the same tree and proofs built from the leaves up, level by level |
| `Wire`, `Packets`, `Content`, `Invite` | the codec, and the formats that are exact both ways |
| `Flat`, `Layouts`, `ContentLayouts` | those formats byte by byte |
| `Unicode`, `Links` | what the string checks and the link parser accept, in code points and digits |
| `Snapshot` | sessions and prekeys that are saved and reloaded |
| `Policy`, `PolicyLayouts`, `Permissions` | the signed server policy with its optional tails, its bytes, and permission masks |
| `Sections`, `StoreRecords`, `Store`, `StoreLayouts` | the local store with its trailing sections, and its bytes |
| `FileTransfer`, `Pow`, `PowParallel` | files in chunks, and the puzzle on one thread and on many |

Where code and documentation disagree the code is followed. The doc comment of
`verify_consistency` says that it implements section 2.1.4.2 of RFC 6962-bis
(published as RFC 9162), which ends by requiring the new tree's node number to be
zero; the code requires the old tree's node number to be zero. So a proof that stops
early can be accepted for a wrong old root. From an old size of 0 the code compares
neither root, so any two roots are accepted with an empty proof.
`MerkleConsistency.ShortProofIsAccepted` and
`MerkleConsistency.WrongEmptyHeadIsAccepted` give inputs, and
`MerkleConsistency.ConsistencyIsExact` covers all sizes: an accepted proof vouches
for the true old root exactly when it has the honest length and, at size 0, the old
root is the empty one.

## Model

| member | source | states |
|---|---|---|
| `Ratchet.Ratchet.Restore` | crates/dante-dm/src/ratchet.rs:223-238 | a ratchet object takes over every field of a given state |
| `Ratchet.Ratchet.Encrypt` | crates/dante-dm/src/ratchet.rs:100-114 | the in-place update, the header and the ciphertext are those of the specification, with an error and no change without a sending chain |
| `Ratchet.Ratchet.SkipMessageKeys` | crates/dante-dm/src/ratchet.rs:134-150 | the loop stores exactly the keys up to the target, or refuses a gap above 1000 and changes nothing |
| `Ratchet.Ratchet.DhRatchet` | crates/dante-dm/src/ratchet.rs:152-169 | both chains turn over as specified; a failed agreement leaves the counters already reset |
| `Ratchet.Ratchet.Decrypt` | crates/dante-dm/src/ratchet.rs:117-132 | result and new state equal the specification on every path, including the partial changes a failing call leaves behind |
| `RatchetSpec.SkipManyKeys` | crates/dante-dm/src/ratchet.rs:134-150 | after skipping, the table holds the message key of every position passed over and otherwise what it held |
| `Authentication.AcceptedAsSent` | crates/dante-dm/src/ratchet.rs:100-132 | from any state to any state: a message that is accepted came with the very header and associated data it was sealed under, and gives the text that was sealed |
| `Authentication.OtherDataIsRefused` | crates/dante-dm/src/ratchet.rs:323-333 | under any other associated data an acceptable message is `DecryptFailed` |
| `Authentication.OnlyTheResultDepends` | crates/dante-dm/src/ratchet.rs:117-132 | the state left and the key spent do not depend on ciphertext or associated data |
| `RatchetSafety.EncryptIsSafe` | crates/dante-dm/src/ratchet.rs:100-114 | sealing uses one key, drops it, and keeps the held keys underivable from one another |
| `RatchetSafety.DecryptIsSafe` | crates/dante-dm/src/ratchet.rs:117-169 | the same for decrypting, whatever the header and ciphertext, also when it fails |
| `RatchetSafety.RunInvariant` | crates/dante-dm/src/ratchet.rs:66-169 | after any run, held keys are an antichain and every key used so far is gone for good |
| `RatchetSafety.KeysAreUsedOnce` | crates/dante-dm/src/ratchet.rs:100-169 | in every run no message key is used twice, across sends, receives, skips and chain changes |
| `RatchetSafety.NoReplay` | crates/dante-dm/src/ratchet.rs:117-132 | no ciphertext is accepted twice in a run, even under another header or associated data |
| `RatchetSafety.NoReflection` | crates/dante-dm/src/ratchet.rs:100-132 | an endpoint never accepts a ciphertext that it sealed itself |
| `Secrecy.UsedKeysCannotBeRecovered` | crates/dante-dm/src/ratchet.rs:100-169 | forward secrecy: no key that a run used can be computed from its final state and any known secrets, if the shared secret is a seed or one of its agreements is between two unknown secrets |
| `Secrecy.HandshakeIsHidden` | crates/dante-dm/src/x3dh.rs:282-330 | for a session with a published bundle that condition holds exactly when the ephemeral secret and one of the responder's secrets used, or the initiator's identity secret and the signed prekey, are unknown |
| `Secrecy.RecoveryIsExact` | crates/dante-dm/src/ratchet.rs:100-169 | a used key can be computed from the final state exactly when the shared secret is exposed and so is every agreement that went into the key |
| `Secrecy.ExposedHandshakeIsComputed` | crates/dante-dm/src/x3dh.rs:282-292 | a shared secret all of whose agreements are exposed can be computed from any state |
| `Secrecy.LaterChainsHeal` | crates/dante-dm/src/ratchet.rs:152-169 | post-compromise security: from the whole state of a side at epoch e, at any point of any run, no message key of chain e + 2 or later can be computed without the next two key pairs |
| `Secrecy.NextChainIsExposed` | crates/dante-dm/src/ratchet.rs:152-169 | the bound is exact: a key of chain e + 1 can be computed |
| `RatchetSafety.RunRetainsBoundedly` | crates/dante-dm/src/ratchet.rs:134-150 | each receive adds at most twice 1000 retained keys, and the state stays valid |
| `RatchetPair.RunIsOk` | crates/dante-dm/src/ratchet.rs:66-169 | two endpoints over a network that reorders and drops stay in step: keys, counters, epochs, tables and envelopes |
| `RatchetPair.DeliveryIsFaithful` | crates/dante-dm/src/ratchet.rs:117-169 | at any point of any run, delivering an undelivered envelope gives its text exactly when the gap is within 1000, and `TooManySkipped` otherwise |
| `RatchetPair.ShortChainsAlwaysDeliver` | crates/dante-dm/src/ratchet.rs:117-169 | if no chain is longer than 1000, every envelope can be delivered at any time in any order |
| `RatchetPair.RetainedKeysAreTheTable` | crates/dante-dm/src/ratchet.rs:134-150 | the retained keys are exactly the passed-over, undelivered positions, each with its own key, and the two epochs never drift apart |
| `Tampering.OtherMessagesStillOpen` | crates/dante-dm/src/ratchet.rs:117-150 | any packet, forged or not, that changes no key pair spends one position at most; the message there is lost, and every other one in flight opens exactly if its gap is within bounds afterwards |
| `Tampering.PacketIsExact` | crates/dante-dm/src/ratchet.rs:117-169 | after any packet whatever, a message in flight opens exactly if a condition on the state and the two headers holds before: spent position and new reach, refusal, keys retained or overwritten, an older, the next or another key pair, a refused agreement |
| `Tampering.NothingIsLostExactly` | crates/dante-dm/src/ratchet.rs:117-169 | at any point of any run, any packet leaves every message in flight opening or not as before exactly when each is spared, as told before the packet; without a change of key pair the very results stay |
| `Tampering.FirstRefusedIsExact` | crates/dante-dm/src/ratchet.rs:152-169 | after a packet refused at the first agreement, retained messages open, and those of the peer's next chain within the gaps from zero |
| `Tampering.SameKeyIsExact` | crates/dante-dm/src/ratchet.rs:117-169 | after a packet that names the message's own key pair: an older message opens unless its key is overwritten, one of the next chain unless its position is spent or out of reach |
| `Tampering.OnePacketLosesAMessage` | crates/dante-dm/src/ratchet.rs:117-132 | one made-up packet delivered first, and the opening message is refused |
| `Tampering.ReplayLosesTheCurrentChain` | crates/dante-dm/src/ratchet.rs:117-169 | a second copy of a message decrypted two or more chains ago costs every message of the current chain that was to come and that it does not pass over |
| `Estrangement.TurnedSideIsNotHeard` | crates/dante-dm/src/ratchet.rs:100-169 | after a turn onto any key pair but the peer's next, no later message of the side opens at the peer, wherever that stands |
| `Estrangement.HalfTurnedSideIsNotHeard` | crates/dante-dm/src/ratchet.rs:100-169 | the same after a packet refused at the second agreement |
| `Estrangement.RestartedNumbersAreExact` | crates/dante-dm/src/ratchet.rs:100-169 | after a packet refused at the first agreement the numbers of the sending chain restart; exactly when the peer opens a message sent then |
| `Tampering.DoneIsRefused` | crates/dante-dm/src/ratchet.rs:117-132 | a second copy of a decrypted message is refused |
| `Merkle.ComputeSplit` | crates/dante-proto/src/merkle.rs:33-40 | the loop finds the split point |
| `Merkle.SplitIsUnique` | crates/dante-proto/src/merkle.rs:33-40 | it is the one power of two below the size that is at least half of it |
| `Merkle.InclusionProofExists` | crates/dante-proto/src/merkle.rs:56-76 | every index in range has a proof |
| `Merkle.InclusionIsExact` | crates/dante-proto/src/merkle.rs:43-107 | the verifier accepts exactly the true leaf at an index in range with the proof that the prover gives |
| `MerkleLevels.HeadsAreBuiltUp` | crates/dante-proto/src/merkle.rs:43-53 | the head is the one built by pairing neighbours level by level, an odd last node carried over |
| `MerkleLevels.PathsAreSiblings` | crates/dante-proto/src/merkle.rs:56-76 | the audit path lists the siblings from the leaf up, and there is one exactly for indices in range |
| `MerkleLevels.ProofsAreGrowth` | crates/dante-proto/src/merkle.rs:109-143 | the consistency proof is the last whole subtree of the old tree, unless it is all of it, and the siblings on its way up; there is one exactly for old sizes from 1 to the size |
| `MerkleConsistency.VerifyConsistency` | crates/dante-proto/src/merkle.rs:145-209 | the verifier with its loops computes its specification, also for equal, empty and shrinking sizes |
| `MerkleConsistency.SubproofIsTrail` | crates/dante-proto/src/merkle.rs:109-128 | the recursive top-down prover produces the hashes of the bottom-up walk |
| `MerkleConsistency.WalkIsForced` | crates/dante-proto/src/merkle.rs:173-208 | if the walk ends in the true new root, each hash that it took was the true one |
| `MerkleConsistency.ConsistencyIsComplete` | crates/dante-proto/src/merkle.rs:109-209 | the proof for any proper prefix is accepted for the two true roots, and has the stated length |
| `MerkleConsistency.ConsistencyIsExact` | crates/dante-proto/src/merkle.rs:145-209 | for every old size: an accepted proof is for the true old root exactly if it has the honest length and, at size 0, the old root is empty; and acceptance with that check is exactly the true old root with the honest proof |
| `MerkleConsistency.ShortProofIsAccepted` | crates/dante-proto/src/merkle.rs:208-208 | an empty proof from size 1 to 2 is accepted with the new root as the old one |
| `MerkleConsistency.EmptyLogIsNotCompared` | crates/dante-proto/src/merkle.rs:158-160 | from size 0 acceptance is exactly an empty proof, whatever the roots |
| `MerkleConsistency.WrongEmptyHeadIsAccepted` | crates/dante-proto/src/merkle.rs:158-160 | from size 0 a wrong old root is accepted, and a wrong new root |
| `X3dh.VerifyBundle` | crates/dante-dm/src/x3dh.rs:69-78 | the loop accepts exactly the bundles whose signatures all check |
| `X3dh.PublishedVerify` | crates/dante-dm/src/x3dh.rs:146-165 | every published bundle verifies |
| `X3dh.SlicesVerify` | crates/dante-dm/src/x3dh.rs:50-78 | so does a bundle cut down to some of its one-time prekeys |
| `X3dh.AcceptanceIsExact` | crates/dante-dm/src/x3dh.rs:57-78 | a bundle made of signatures that `bundle` made verifies exactly when its signed prekey and every one-time prekey, each with its signature, occur in published bundles with that same signed prekey |
| `X3dh.SplicesAreExact` | crates/dante-dm/src/x3dh.rs:57-78 | entries of several published bundles put under one head verify exactly if all come from bundles with its signed prekey |
| `X3dh.PreKeySecrets.Generate` | crates/dante-dm/src/x3dh.rs:131-138 | a pool of at most 100 one-time prekeys, all drawn apart |
| `X3dh.PreKeySecrets.TakeOtp` | crates/dante-dm/src/x3dh.rs:168-174 | the in-place removal is that of `Take` |
| `X3dh.TakeRemovesOne` | crates/dante-dm/src/x3dh.rs:168-174 | the prekey with the given public key is cut out and returned, all others and the signed prekey stay as they were, or nothing changes and none has that key |
| `X3dh.TopUpReaches` | crates/dante-dm/src/x3dh.rs:184-192 | a top-up keeps what is held and reaches the target, at most 100 |
| `X3dh.PublishListsAll` | crates/dante-dm/src/x3dh.rs:146-165 | a bundle lists every one-time prekey held, in order, under the owner's keys |
| `X3dh.PreKeySecrets.Replenish` | crates/dante-dm/src/x3dh.rs:184-192 | the loop tops up to the capped target and reports how many were added |
| `Session.Accept` | crates/dante-dm/src/session.rs:169-185 | accepting takes the prekey from the pool even if opening then fails |
| `Session.InitiateSends` | crates/dante-dm/src/session.rs:144-165 | what an initiator derives, binds and sends for a published bundle |
| `Session.InitiationIsExact` | crates/dante-dm/src/session.rs:144-165 | for any bundle: opening succeeds exactly if every signature checks and no agreement is refused, and a bundle that does not verify is `BadPrekeySignature` |
| `Session.InitiatedKeysWerePublished` | crates/dante-dm/src/x3dh.rs:302-330 | under the owner's key and short of forgery, the signed prekey and the one-time prekey an initiator uses were published together |
| `Session.AcceptRefuses` | crates/dante-dm/src/x3dh.rs:334-365 | for any opening message: which refusals come before a one-time prekey is spent, and what an unknown one is answered with |
| `Session.AcceptDerives` | crates/dante-dm/src/session.rs:169-185 | what a responder derives from an opening message, and its errors |
| `Session.OpeningIsExact` | crates/dante-dm/src/session.rs:141-185 | an opening is accepted exactly by the identity it was made for, with the same signed prekey and the one-time prekey still held; then text and associated data agree |
| `Session.OpeningStartsARun` | crates/dante-dm/src/session.rs:141-185 | after opening and accepting, the two ratchets are a state of a two-party run, so every result about runs holds of real sessions |
| `Session.PoolRunIsOk` | crates/dante-dm/src/x3dh.rs:131-192 | over any sequence of accepts, takes, top-ups and reloads, the pool stays bounded and in order, keeps its signed prekey, and shares no one-time prekey with the ones taken |
| `Session.PrekeysAreConserved` | crates/dante-dm/src/x3dh.rs:131-192 | over any such sequence every one-time prekey ever drawn is either still held or was taken, and nothing else is |
| `Session.BundlesOfOneRunMix` | crates/dante-dm/src/x3dh.rs:146-192 | entries of bundles published at any points of such a run, before and after top-ups and reloads, verify together |
| `Session.OneTimePrekeyAcceptedOnce` | crates/dante-dm/src/session.rs:169-185 | of two openings that name one one-time prekey, at most one is accepted, however many calls and reloads lie between |
| `Snapshot.ImportOfExport` | crates/dante-dm/src/ratchet.rs:202-238 | importing an export gives the same state, in whatever order the retained keys were listed |
| `Snapshot.ReloadIsIdentity` | crates/dante-dm/src/session.rs:198-240 | so does encoding and decoding it as a session snapshot, associated data included |
| `Snapshot.ReloadsChangeNothing` | crates/dante-dm/src/session.rs:198-240 | a run with reloads at any states that can be saved ends in the same ratchet and associated data as the run without them |
| `Snapshot.ReloadedRunsAreValid` | crates/dante-dm/src/ratchet.rs:140-142 | after such a run a receiving chain has a peer key, and retained keys are bounded |
| `Snapshot.PoolReloadIsIdentity` | crates/dante-dm/src/x3dh.rs:194-251 | a saved and reloaded prekey pool is the same pool |
| `Wire.UIntLaws` | crates/dante-proto/src/enc.rs:68-171 | big-endian integers decode back, re-encode to the bytes read, and depend on nothing after them |
| `Wire.BytesLaws` | crates/dante-proto/src/enc.rs:104-193 | the same for length-prefixed bytes with their length guard |
| `Wire.StrLaws` | crates/dante-proto/src/enc.rs:111-201 | the same for strings, which are checked as UTF-8 (section 4 of RFC 3629) |
| `Unicode.Utf8IsExact` | crates/dante-proto/src/enc.rs:196-201 | a string is accepted exactly if it is the concatenated encodings of some Unicode scalar values (section 3 of RFC 3629) |
| `Wire.ExactInverse` | crates/dante-proto/src/enc.rs:204-210 | a lawful, canonical codec with `finish` accepts exactly the encodings and inverts them |
| `Wire.PrefixFails` | crates/dante-proto/src/enc.rs:143-150 | no proper prefix of an encoding decodes |
| `Wire.ListLawful` | crates/dante-core/src/roles.rs:507-513 | counted lists decode back; the count guard never refuses an honest list |
| `Wire.ListCanonical` | crates/dante-core/src/roles.rs:507-513 | a list that decodes re-encodes to the bytes read |
| `Wire.ReadMany` | crates/dante-core/src/roles.rs:393-396 | the element loop with its moving cursor computes the decoder of a list, and stops at the first error |
| `Wire.WriteMany` | crates/dante-core/src/roles.rs:277-279 | the loop appends the encoding of each element in order |
| `Packets.PacketsAreExact` | crates/dante-dm/src/session.rs:22-133 | packets: accepted bytes and encodable packets correspond one to one |
| `Layouts.PacketsByteForByte` | crates/dante-dm/src/session.rs:22-133 | which bytes these are, field by field, and which packets have them |
| `Layouts.BundlesByteForByte` | crates/dante-dm/src/x3dh.rs:80-120 | the bytes of a bundle |
| `Layouts.SnapshotsByteForByte` | crates/dante-dm/src/session.rs:224-240 | the bytes of session and prekey snapshots |
| `Packets.BundlesAreExact` | crates/dante-dm/src/x3dh.rs:80-120 | the same for prekey bundles |
| `Packets.RatchetLaws` | crates/dante-dm/src/ratchet.rs:240-321 | the same laws for the ratchet snapshot |
| `Packets.SessionLaws` | crates/dante-dm/src/session.rs:224-240 | and for the session snapshot |
| `Packets.PreKeyLaws` | crates/dante-dm/src/x3dh.rs:222-251 | and for the prekey snapshot |
| `Content.ManifestLaws` | crates/dante-dm/src/file.rs:171-212 | and for the file manifest |
| `Content.ContentsAreExact` | crates/dante-dm/src/content.rs:170-333 | all 23 content variants: accepted bytes and encodable values correspond one to one |
| `ContentLayouts.ContentsByteForByte` | crates/dante-dm/src/content.rs:170-333 | which bytes these are: discriminant and fields of each variant, and which values have them |
| `Layouts.TokensByteForByte` | crates/dante-core/src/invite.rs:72-129 | the bytes of an invite token and what its fields may be |
| `Links.LinksAreSpelled` | crates/dante-core/src/invite.rs:131-182 | a string parses to a token exactly if it is blanks, perhaps the prefix and blanks, two hex digits in either case for each byte of the token, and blanks |
| `Invite.TokensAreExact` | crates/dante-core/src/invite.rs:72-129 | invite tokens: the same, with the version byte and the framed body |
| `Invite.UnHexIsExact` | crates/dante-core/src/invite.rs:131-182 | reading hex inverts writing it, for either case of the digits |
| `Invite.WriteHex` | crates/dante-core/src/invite.rs:135-139 | the loop that renders the digits |
| `Invite.ReadHex` | crates/dante-core/src/invite.rs:150-156 | the loop that reads them, and its refusals |
| `Invite.RenderLink` | crates/dante-core/src/invite.rs:132-140 | the whole link |
| `Invite.ParseLink` | crates/dante-core/src/invite.rs:144-158 | trimming, the optional prefix, odd or empty input, and decoding |
| `Invite.LinksAreExact` | crates/dante-core/src/invite.rs:131-182 | a string parses to a token exactly when its payload spells that token's encoding |
| `Invite.LinkRoundTrip` | crates/dante-core/src/invite.rs:131-182 | a rendered link parses back, with the prefix and without |
| `Policy.WriteBody` | crates/dante-core/src/roles.rs:262-322 | the writer, with a tail written only if it or a later one has entries, computes the body |
| `Policy.ReadBody` | crates/dante-core/src/roles.rs:378-489 | the reader, with its guards, icon check and tails read while bytes remain, computes the decoder, errors included |
| `Policy.TailsRoundTrip` | crates/dante-core/src/roles.rs:293-320 | every combination of empty and filled tails reads back |
| `Policy.CountLeavesTheFlagFree` | crates/dante-core/src/roles.rs:102-110 | a body that its own length field can measure never has enough roles to touch the icon flag |
| `Policy.BodyRoundTrips` | crates/dante-core/src/roles.rs:262-490 | every well-formed policy comes back from its body, so no guard refuses it |
| `Policy.PoliciesNormalise` | crates/dante-core/src/roles.rs:364-490 | decoding yields only well-formed policies, whose own encoding decodes to them and is no longer than the input |
| `Policy.BodyIsInjective` | crates/dante-core/src/roles.rs:262-322 | two well-formed policies with one signed body differ at most in the signature |
| `Policy.OlderLayoutsAreKept` | crates/dante-core/src/roles.rs:102-110 | without icons and beyond the last filled tail, the bytes are those from before the features existed |
| `PolicyLayouts.PoliciesByteForByte` | crates/dante-core/src/roles.rs:374-490 | every input read as a given policy: its fields in order, signed and framed, with the icon flag set or, without icons, clear, and any empty last lists written or left out; nothing else |
| `PolicyLayouts.ShortestIsWritten` | crates/dante-core/src/roles.rs:262-371 | the encoding is the one of these that sets the flag only for an icon and stops after the last list with entries |
| `Unicode.NicknamesAreExact` | crates/dante-core/src/roles.rs:60-67 | a nickname is valid exactly if it takes 1 to 32 bytes and no code point of it is a control character |
| `Permissions.FindIds` | crates/dante-core/src/roles.rs:339-339 | the ids of the first assignment whose name is the member, or none if no assignment has that name |
| `Permissions.FindRole` | crates/dante-core/src/roles.rs:341-341 | the first role with the id, or none |
| `Permissions.EffectivePerms` | crates/dante-core/src/roles.rs:334-348 | each bit of the mask is set exactly if the member is the owner, or it is granted by (or is in the default of) the roles at the member's first assignment and none of those denies it |
| `Sections.ThenIsGood` | crates/dante-core/src/store.rs:379-380 | putting a section in front of well-behaved sections keeps them so |
| `Sections.PrefixesThatLoad` | crates/dante-core/src/store.rs:597-817 | a prefix loads exactly when it ends at a section boundary after the mandatory part |
| `StoreRecords.InfoIsFirm` | crates/dante-core/src/channel.rs:43-78 | a framed channel record decodes back, and one without its later flag can be written again with it if there is room |
| `Store.EncodeState` | crates/dante-core/src/store.rs:321-502 | the writer with its loops computes the payload |
| `Store.RestoreIds` | crates/dante-core/src/store.rs:812-815 | message ids are written in place onto the entries they align with, and no others change |
| `Store.RestoreMeta` | crates/dante-core/src/store.rs:791-810 | the same for channel metadata; what has no entry is dropped |
| `Store.DecodeState` | crates/dante-core/src/store.rs:504-845 | the reader with its loops and in-place patches computes the decoder |
| `Store.SavedStatesLoad` | crates/dante-core/src/store.rs:321-845 | a saved state loads as itself with the ids its id section gives, hence as itself exactly when the section is aligned with the history |
| `Store.LoadedStatesAreAligned` | crates/dante-core/src/store.rs:812-815 | whatever loads is aligned |
| `Store.LoadedStatesReload` | crates/dante-core/src/store.rs:321-845 | whatever loads can be saved again exactly if every channel record has room for its flag, which holds of any payload below 4 GiB, and then loads as itself |
| `Store.PrefixLoadsAtBoundariesOnly` | crates/dante-core/src/store.rs:504-845 | a prefix of a saved state loads exactly when it ends after the mandatory part and some number of the 18 sections |
| `Store.BoundaryLoadsTruncated` | crates/dante-core/src/store.rs:504-845 | and then as the state with every later section at its default, both aligned sections included |
| `Store.NothingFollows` | crates/dante-core/src/store.rs:817-817 | a saved state with anything after it is refused, with the number of bytes left |
| `StoreLayouts.SavedByteForByte` | crates/dante-core/src/store.rs:321-502 | the bytes of every state: the mandatory part and the 18 sections in order, record by record and field by field; where it may be cut off; and which states can be saved |
| `StoreLayouts.InfosAreExact` | crates/dante-core/src/channel.rs:43-78 | a channel record is read exactly from its bytes and, with a clear flag, from those without the flag |
| `StoreLayouts.RepliesAreExact` | crates/dante-core/src/store.rs:797-801 | the number written where there is no reply is passed over, whatever it is |
| `FileTransfer.FillNonce` | crates/dante-dm/src/file.rs:71-76 | the array is filled with domain, zeros and big-endian index |
| `FileTransfer.NoncesAreDistinct` | crates/dante-dm/src/file.rs:69-76 | two chunks share a nonce exactly when their indices agree modulo 2^32; below that, never |
| `FileTransfer.SignatureBindsFields` | crates/dante-dm/src/file.rs:47-67 | manifests with one signed challenge have the same key, filename, sizes and chunk hashes, or the hash collides |
| `FileTransfer.ChunksAreCut` | crates/dante-dm/src/file.rs:82-88 | the chunks are the consecutive pieces of the plaintext, all full but the last |
| `FileTransfer.SealAll` | crates/dante-dm/src/file.rs:82-88 | the loop seals and hashes every chunk in order |
| `FileTransfer.Build` | crates/dante-dm/src/file.rs:80-111 | the manifest describes the plaintext and its signature checks |
| `FileTransfer.Join` | crates/dante-dm/src/file.rs:155-163 | the loop that checks, opens and joins |
| `FileTransfer.Reassemble` | crates/dante-dm/src/file.rs:137-168 | the method computes its specification, with every refusal |
| `FileTransfer.HonestFilesReassemble` | crates/dante-dm/src/file.rs:78-168 | the chunks of any plaintext reassemble to it, so the size guard refuses no honest file |
| `FileTransfer.AcceptedChunksAreHonest` | crates/dante-dm/src/file.rs:137-168 | for an honest manifest the honest chunks are accepted, and any other accepted list holds a hash collision with them |
| `FileTransfer.ReassemblyIsExact` | crates/dante-dm/src/file.rs:137-168 | for any manifest and chunks, a file is accepted, and as what, exactly if the signature checks over the signed bytes, every chunk has its hash and opens under its nonce, and the joined parts have the signed size, which what was fetched can hold |
| `FileTransfer.AcceptedFilesMatchManifest` | crates/dante-dm/src/file.rs:137-168 | for any manifest, an accepted file has the signed size and every chunk the signed hash |
| `Pow.LeadingZeroBits` | crates/dante-crypto/src/pow.rs:97-108 | the loop counts the leading zero bits |
| `Pow.ZerosAreABound` | crates/dante-crypto/src/pow.rs:97-108 | at least k leading zero bits is exactly a value below 2^(8n - k), for any digest length n and k up to 8n |
| `Pow.TryOneMeets` | crates/dante-crypto/src/pow.rs:112-122 | an attempt wins exactly when the digest is below the target, and the proof carries the puzzle's parameters |
| `Pow.SolveWithProgress` | crates/dante-crypto/src/pow.rs:139-151 | on an endless nonce source in which some nonce wins, the search returns the first that does, and the counter grows by one per hash |
| `Pow.SolvedProofsVerify` | crates/dante-crypto/src/pow.rs:242-265 | a solved proof verifies exactly when no floor exceeds its parameters and its costs are within the ceilings |
| `Pow.VerifiedProofs` | crates/dante-crypto/src/pow.rs:242-265 | what the verifier accepts, as a bound on the digest |
| `PowParallel.RunKeepsInv` | crates/dante-crypto/src/pow.rs:189-231 | every step of every interleaving keeps the invariant on proofs, flag, channel, counter and threads |
| `PowParallel.ReceiveNeverFails` | crates/dante-crypto/src/pow.rs:228-229 | the channel is never empty with all senders gone, so the receive cannot panic |
| `PowParallel.ReturnIsExact` | crates/dante-crypto/src/pow.rs:189-231 | the returned proof meets the difficulty, and by then the counter has grown by exactly the hashes of all workers |
| `PowParallel.NoDeadlock` | crates/dante-crypto/src/pow.rs:189-231 | until it returns, the caller or a worker can always step |
| `PowParallel.FlagStopsTheSearch` | crates/dante-crypto/src/pow.rs:205-224 | once the flag is up, at most five steps per worker, three more, and five for every load that still misses the flag are left |

## Left out

- The ratchet counters and message numbers are unbounded: 32-bit overflow after 2^32 messages in one chain is not modelled.
- `RatchetPair` delivers each envelope at most once. A second copy is refused (`Tampering.DoneIsRefused`), and what it costs other messages is `Tampering.PacketIsExact`; runs that go on after it are not followed.
- The probability of two random draws being equal: secrets are fresh names, and `RatchetPair` states it as a hypothesis on the draws.
- The internals of X25519, Ed25519, HKDF, XChaCha20-Poly1305, SHA-256 and Argon2id.
- `Reader` and `Writer` as objects with a cursor and a buffer: formats are codecs on values, and the loops over elements are shared methods, so an aliased cursor is not captured.
- The text inside a wire error (type and field names), and which of several errors is reported where a codec checks a field only after reading it.
- Store.EncodeState: the store's sections are written and read in three methods of six each rather than in one body; and channel metadata is patched onto its lines after the whole section is read.
- Pow.SolveWithProgress: a source in which no nonce ever wins is excluded, because the code does not return on it.
- Snapshot.ReloadIsIdentity: states with a counter of 2^32 or more, or a snapshot of 4 GiB or more, cannot be saved in the format and are excluded.
- The byte total in `reassemble` is unbounded, so its 64-bit overflow is not modelled.
- The store file itself: its header, encryption, permissions and atomic rename.
- `ChannelControl` and the channel record inlined in a welcome message; only the record the store uses is modelled.
- Zeroizing of memory, and `Drop`.
- MLS groups, the engine, the relay and ledger services, NAT traversal, voice, the command line and the user interface, which are input and output around this core.
