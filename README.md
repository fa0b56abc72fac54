# apec-cert in Dafny

A model of the apec-cert Solana program, with proofs about it. The program is an Anchor program with five instructions:

- An education **provider** registers under a numeric id (`init_provider`).
- The provider's authority adds **courses** (`create_course`).
- Any user mints a one-unit **enrollment token** for a course (`enroll_course`).
- Anyone publishes a **commitment**: the root of a sorted-pair Keccak Merkle tree over the course's allow-list of certificate holders (`create_cert_proof`).
- Anyone mints a one-unit, non-mintable **credential** to a listed **claimer** by presenting the sibling path of the claimer's leaf (`claim_cert`). The claimer does not sign.

The model has two parts.

- **Membership check.** `merkle_verify` is a method whose loop is proved equal to a recursive fold. Lemmas prove its properties: the step hashes the ordered pair and is commutative; an empty proof requires `leaf == root`; appending an element costs one step. They also prove the round trip with the off-chain tree: every entry's sibling path verifies against the root of the tree built over the hashed entries.
- **Ledger.** The ledger is a class of account maps. There are providers, courses, commitments and Token-2022 mints, plus token balances keyed by (mint, owner).
  - Each instruction has a pure effect `Apply`, returning either the new ledger or the error.
  - An `Execute` method performs the instruction's steps on the class. These are Anchor's account validation, the `init` account creations and the token program calls. Any failure is reverted.
  - `Execute` is proved to commit exactly `Apply`.
  - Over any sequence of this program's instructions, lemmas prove that:
    - the ledger invariant holds;
    - accounts are append-only, so a published root is never rewritten and an issued token never changes;
    - each (commitment, claimer) and (course, user) gets at most one token.

What the model takes as given:

- **Keccak-256** is an arbitrary function parameter `keccak: seq<byte> -> Hash`, so every fact holds for every hash function.
- **Account keys** as bytes come from a parameter `keyBytes`.
- **The canonical bump** that `find_program_address` finds comes from a parameter `bumpOf`.
- **Program-derived addresses** are a datatype, `Pda(seeds)`, so address derivation is injective by construction. The u64 little-endian seed encoding is proved injective.

Anchor's account validation is modelled in this order:

1. Every non-`init` account must hold its record, else `AccountNotInitialized`. In `claim_cert` the `claimer: SystemAccount` field comes before them: a provider, course, commitment or mint at the claimer's address gives `AccountNotSystemOwned`.
2. Every `init` account (record, mint, associated token account) is created in field order; one whose address is taken gives `AccountAlreadyInUse`.
3. The `seeds` and then the `has_one` constraints of the non-`init` accounts are checked, giving `ConstraintSeeds` and `ConstraintHasOne`.
4. The handler runs.
5. The record is written back. A provider's `short_name` longer than 10 bytes of UTF-8, or a course's longer than 20, does not fit the `8 + INIT_SPACE` bytes allocated for it (`#[max_len(10)]`, `#[max_len(20)]`), and the write-back fails with `AccountDidNotSerialize`.

In `claim_cert`, the program signs with the provider's seeds (`PROVIDER_SEED`, `provider.id`, `provider.bump`). When the passed provider account does not sit at that address, the runtime refuses the signed call before the token program runs: the seeds are invalid, or they derive another address and `provider` cannot be promoted to a signer. The model's name for that failure is `MissingRequiredSignature`. On a ledger satisfying the invariant this never happens.

Points of the code the model makes explicit:

- **Credential address.** `claim_cert.rs:41` derives it from the account keys `cert_proof.provider` and `cert_proof.course`, not from numeric ids.
- **`claim_cert` and the course account.** It never checks that the passed course is the commitment's course. Both accounts are only `has_one = provider`. `ClaimCert.CourseAccountImmaterial` proves that any course of the provider gives the same result.
- **Who claims.** The only signer of `claim_cert` is `payer` (`claim_cert.rs:19-20`); `claimer` is an unsigned `SystemAccount` (`claim_cert.rs:21-22`). Anyone can pay for the credential of any listed claimer, and it always goes to the claimer. `ClaimCert.Apply` takes no signer.
- **`claimed`.** It is set to 0 and never written. `Valid` keeps it 0.
- **`total`.** It is stored and never checked.

## Model

| member | source | states |
|---|---|---|
| Merkle.MerkleVerify | programs/apec-cert/src/utils.rs:37-47 | The loop returns exactly whether folding the proof in order from the leaf gives the root. It takes only proof, root and leaf, changes nothing and returns a plain bool. |
| Merkle.HashPairIsSorted | programs/apec-cert/src/utils.rs:40-44 | Each step hashes the concatenation of the smaller and the larger of running hash and sibling. The two are ordered under Rust's `<=` and are the same pair as the inputs. |
| Merkle.HashPairCommutative | programs/apec-cert/src/utils.rs:40-44 | The step gives the same hash whichever of the two is the running hash. |
| Merkle.EmptyProof | programs/apec-cert/src/utils.rs:38-46 | With an empty proof, verification succeeds if and only if leaf equals root. |
| Merkle.FoldSnoc | programs/apec-cert/src/utils.rs:38-46 | Folding `proof + [s]` is one more step applied to the fold of `proof`. |
| Merkle.LexMin | programs/apec-cert/src/utils.rs:40 | The result is one of the two hashes and is `<=` both. |
| Merkle.LexMax | programs/apec-cert/src/utils.rs:40 | The result is one of the two hashes and is `>=` both. |
| Merkle.HashPair | programs/apec-cert/src/utils.rs:40-44 | Defines one step: `keccak` of the running hash then the sibling when the running hash is `<=` the sibling, of the sibling then the running hash otherwise. Its properties are the `HashPairIsSorted` and `HashPairCommutative` rows. |
| Merkle.Fold | programs/apec-cert/src/utils.rs:38-46 | Defines the running hash after the proof elements in order, starting from the leaf. |
| Merkle.Verifies | programs/apec-cert/src/utils.rs:38-46 | Defines acceptance: the fold of the proof from the leaf equals the root. |
| Merkle.Root | tests/apec-cert.ts:67-75 | Defines the root of the off-chain tree: a leaf's hash, or the sorted-pair hash of its two children. |
| Merkle.ProofFor | tests/apec-cert.ts:77-85 | Defines the sibling path of leaf `i`, bottom-up, skipping a level where a node was carried up alone. Its property is the `ProofForVerifies` row. |
| Merkle.Leaves | tests/apec-cert.ts:67-71 | A tree has at least one leaf. |
| Merkle.ProofForVerifies | tests/apec-cert.ts:77-85 | In any sorted-pair tree, the sibling path of leaf `i` folds from that leaf to the tree's root. |
| Merkle.LeavesOf | tests/apec-cert.ts:67-71 | The leaves of a layer of subtrees, left to right. |
| Merkle.LeafLayer | tests/apec-cert.ts:67-71 | The bottom layer over the hashed entries has one leaf per entry, and its leaves are exactly the entries in order. |
| Merkle.BuildFromLayer | tests/apec-cert.ts:67-71 | Pairing layers up to a single node gives a tree whose leaves are the layer's leaves, in order. |
| Merkle.NextLayer | tests/apec-cert.ts:67-71 | Pairing a layer of subtrees halves its length, rounding up (an odd last node is carried up). The leaves stay the same and in the same order. |
| Merkle.BuildTree | tests/apec-cert.ts:67-71 | The tree built over a non-empty list of leaf hashes has exactly those leaves, in order. |
| Merkle.AllowListRoundTrip | tests/apec-cert.ts:67-85 | For every entry of a non-empty allow-list, the sibling path of `keccak(entry)` verifies against the root of the tree over the hashed entries. |
| Bytes.LexLe | programs/apec-cert/src/utils.rs:40 | Defines Rust's `<=` on byte arrays: lexicographic, with a proper prefix below the longer array. |
| Bytes.LexLeReflexive | programs/apec-cert/src/utils.rs:40 | Rust's `<=` on byte arrays is reflexive. |
| Bytes.LexLeTotal | programs/apec-cert/src/utils.rs:40 | Any two byte strings are comparable. |
| Bytes.LexLeAntisymmetric | programs/apec-cert/src/utils.rs:40 | `a <= b` and `b <= a` imply `a == b`. |
| Bytes.LexLeTransitive | programs/apec-cert/src/utils.rs:40 | The order is transitive. |
| Bytes.BigEndianBound | programs/apec-cert/src/utils.rs:40 | An n-byte big-endian number is below 256^n. |
| Bytes.FirstByteDecides | programs/apec-cert/src/utils.rs:40 | For equal lengths, a smaller first byte gives a smaller big-endian number. |
| Bytes.LexLeIsBigEndianOrder | programs/apec-cert/src/utils.rs:40 | On equal-length arrays, lexicographic `<=` holds if and only if the big-endian unsigned value is `<=`. |
| Bytes.LittleEndian | programs/apec-cert/src/instructions/init_provider.rs:14 | The encoding of a number in n bytes has length n. |
| Bytes.ToLeBytes | programs/apec-cert/src/instructions/init_provider.rs:14 | `to_le_bytes` of a u64 has 8 bytes. |
| Bytes.LittleEndianRoundTrip | programs/apec-cert/src/instructions/init_provider.rs:14 | Decoding the n-byte little-endian encoding of `x < 256^n` gives back `x`. |
| Bytes.ToLeBytesRoundTrip | programs/apec-cert/src/instructions/init_provider.rs:14 | Decoding `to_le_bytes(x)` gives back `x`. |
| Bytes.ToLeBytesInjective | programs/apec-cert/src/instructions/create_course.rs:20 | Two u64 values have the same `to_le_bytes` if and only if they are equal. |
| Addresses.ProviderAddress | programs/apec-cert/src/instructions/init_provider.rs:14 | Defines the provider PDA from the seeds `PROVIDER_SEED` and `id.to_le_bytes()`. |
| Addresses.CourseAddress | programs/apec-cert/src/instructions/create_course.rs:20 | Defines the course PDA from `COURSE_SEED`, the provider key and `id.to_le_bytes()`. |
| Addresses.CertProofAddress | programs/apec-cert/src/instructions/create_cert_proof.rs:24 | Defines the commitment PDA from `CERT_PROOF_SEED`, the provider key and the course key. |
| Addresses.CertificateAddress | programs/apec-cert/src/instructions/claim_cert.rs:41 | Defines the credential mint PDA from `CERTIFICATE_SEED`, the commitment's provider key, its course key and the claimer key. |
| Addresses.EnrollmentAddress | programs/apec-cert/src/instructions/enroll_course.rs:31 | Defines the enrollment mint PDA from `ENROLLMENT_SEED`, the course key and the user key. |
| Addresses.CertificateAddressNotSeed | programs/apec-cert/src/instructions/claim_cert.rs:41 | A credential address is never the claimer, the provider or the course it is derived from. |
| Addresses.SeedTagsDistinct | programs/apec-cert/src/constants.rs:4-16 | The five seed tags are pairwise different. |
| Addresses.AddressKindsDisjoint | programs/apec-cert/src/constants.rs:4-16 | Provider, course, commitment, credential and enrollment addresses never coincide, whatever their components. |
| Addresses.ProviderAddressInjective | programs/apec-cert/src/instructions/init_provider.rs:14 | Two provider addresses are equal if and only if their ids are. |
| Addresses.CourseAddressInjective | programs/apec-cert/src/instructions/create_course.rs:20 | Two course addresses are equal if and only if provider key and id both are. |
| Addresses.CertProofAddressInjective | programs/apec-cert/src/instructions/create_cert_proof.rs:24 | Two commitment addresses are equal if and only if the (provider, course) pairs are. |
| Addresses.CertificateAddressInjective | programs/apec-cert/src/instructions/claim_cert.rs:41 | Two credential addresses are equal if and only if commitment provider, commitment course and claimer all are. |
| Addresses.EnrollmentAddressInjective | programs/apec-cert/src/instructions/enroll_course.rs:31 | Two enrollment addresses are equal if and only if (course, user) are. |
| Accounts.Utf8Width | programs/apec-cert/src/state/provider.rs:9-10 | The UTF-8 width of one character: 1 byte below U+0080, 2 below U+0800, 3 below U+10000, else 4; always between 1 and 4. |
| Accounts.Utf8Length | programs/apec-cert/src/state/provider.rs:9-10 | The number of bytes Borsh writes for a string's contents: between one and four per character. |
| Accounts.NameFits | programs/apec-cert/src/state/course.rs:9-10 | Defines the `#[max_len]` limit: the UTF-8 length of the name is at most the bound. |
| Accounts.LedgerState.InUse | programs/apec-cert/src/instructions/claim_cert.rs:21-22 | An address is taken when a provider, course, commitment or mint lives there. This is the failure condition of every `init` of a record or mint, and the claimer's `SystemAccount` refusal. |
| Accounts.Runtime.AtAddress | programs/apec-cert/src/instructions/create_cert_proof.rs:10-16 | The `seeds = [...], bump = x.bump` constraint: the account is the derived address and its stored bump is the canonical one. The same test decides whether signing with those seeds signs for the account (`claim_cert.rs:91-93`). |
| Accounts.CertificateMint | programs/apec-cert/src/instructions/claim_cert.rs:95-137 | The credential mint `claim_cert` leaves: supply 1, decimals 0, no mint authority, the provider as close, pointer and update authority, metadata at the mint itself with symbol `APECERT`. |
| Accounts.EnrollmentMint | programs/apec-cert/src/instructions/enroll_course.rs:75-117 | The enrollment mint `enroll_course` leaves: the same shape with the course as authority and the supplied symbol. |
| Accounts.Finished | programs/apec-cert/src/instructions/claim_cert.rs:95-137 | A mint that has issued its one unit: supply 1, decimals 0, no mint authority, its own address as metadata address, metadata present, one authority for close, pointer and update. |
| Accounts.Valid | programs/apec-cert/src/lib.rs:14-51 | Defines the ledger invariant as `RecordsValid`, `TokensValid` and `KindsDisjoint` together. Its preservation is the `PreservesValid` and `RunPreservesValid` rows. |
| Accounts.RecordsValid | programs/apec-cert/src/state/provider.rs:5-11 | Every provider, course and commitment sits at the address derived from its own fields with its canonical bump. Short names fit their `#[max_len]`. Courses and commitments point to existing providers and courses of that provider. `claimed` is 0. |
| Accounts.TokensValid | programs/apec-cert/src/instructions/enroll_course.rs:75-117 | Every mint is finished (supply 1, decimals 0, no mint authority, its own address as metadata address, metadata present, one authority for close, pointer and update). Every token account holds 1 unit of an existing mint. Every mint has a holder, and no two token accounts share a mint. |
| Accounts.KindsDisjoint | programs/apec-cert/src/constants.rs:4-16 | No address holds two kinds of account. |
| Accounts.IssueKeepsValid | programs/apec-cert/src/instructions/claim_cert.rs:95-137 | Adding a finished one-unit mint at a free address and one holder's balance of 1 keeps the invariant. |
| Accounts.AddProviderKeepsValid | programs/apec-cert/src/instructions/init_provider.rs:10-27 | A provider record at its own derived address with its canonical bump, at a free address, with a name that fits, keeps the invariant. |
| Accounts.AddCourseKeepsValid | programs/apec-cert/src/instructions/create_course.rs:16-34 | A course of an existing provider at its own derived, free address with a name that fits keeps the invariant. |
| Accounts.AddCertProofKeepsValid | programs/apec-cert/src/instructions/create_cert_proof.rs:20-40 | An unclaimed commitment for a course of its provider, at its own derived, free address, keeps the invariant. |
| Accounts.OneHolder | programs/apec-cert/src/instructions/enroll_course.rs:36-42 | On a valid ledger every mint has exactly one holder, with a balance of 1. |
| Accounts.Commits | programs/apec-cert/src/lib.rs:14-51 | A transaction is all or nothing: on success the ledger is the effect's new ledger and the outcome is `Success`; on failure the ledger is as before and the outcome carries the effect's error. |
| Accounts.EmptyLedgerValid | programs/apec-cert/src/lib.rs:14-51 | The empty ledger satisfies the invariant. |
| Ledger.Ledger.constructor | programs/apec-cert/src/lib.rs:14-51 | A new ledger holds no accounts. |
| Ledger.Ledger.Revert | programs/apec-cert/src/lib.rs:14-51 | Restores the saved account maps exactly, as the runtime does for a failed transaction. |
| Ledger.Ledger.CreateProvider | programs/apec-cert/src/instructions/init_provider.rs:10-16 | `init` of a provider record fails with `AccountAlreadyInUse` if the address is taken, leaving the ledger unchanged. Otherwise it adds exactly the given record at that address. |
| Ledger.Ledger.CreateCourse | programs/apec-cert/src/instructions/create_course.rs:16-22 | `init` of a course record: `AccountAlreadyInUse` on a taken address with nothing changed. Otherwise exactly the given record is added. |
| Ledger.Ledger.CreateCertProof | programs/apec-cert/src/instructions/create_cert_proof.rs:20-26 | `init` of a commitment record: `AccountAlreadyInUse` on a taken address with nothing changed. Otherwise exactly the given record is added. |
| Ledger.Ledger.CreateMint | programs/apec-cert/src/instructions/claim_cert.rs:32-44 | `init` of a mint fails if the address is taken and changes nothing. Otherwise it adds exactly a supply-0 mint with the given decimals, mint authority, close authority, pointer authority and metadata address, and no metadata. |
| Ledger.Ledger.CreateTokenAccount | programs/apec-cert/src/instructions/claim_cert.rs:45-52 | `init` of the associated token account fails if it exists. Otherwise it adds exactly a zero balance. |
| Ledger.Ledger.InitializeMetadata | programs/apec-cert/src/instructions/claim_cert.rs:95-110 | Requires the signer to be the mint authority. Sets exactly the mint's metadata to (update authority, name, symbol, uri). |
| Ledger.Ledger.MintTo | programs/apec-cert/src/instructions/claim_cert.rs:112-123 | Requires the signer to be the mint authority. Supply and the holder's balance grow by the amount; nothing else changes. |
| Ledger.Ledger.RevokeMintAuthority | programs/apec-cert/src/instructions/claim_cert.rs:125-137 | Requires the signer to be the mint authority. Sets exactly the mint authority to none. |
| Ledger.Ledger.IssueUnit | programs/apec-cert/src/instructions/enroll_course.rs:75-117 | After the three signed calls, the mint has its metadata, one more unit of supply and no mint authority, and the holder one more unit. Nothing else changes. |
| InitProvider.Apply | programs/apec-cert/src/instructions/init_provider.rs:5-29 | Succeeds if and only if the id-derived address is free and the short name fits in 10 bytes of UTF-8; any signer may register. A taken address gives `AccountAlreadyInUse`, and a name too long `AccountDidNotSerialize`. The new record is (id, signer, canonical bump, short name). Nothing else is added or changed. |
| InitProvider.Execute | programs/apec-cert/src/instructions/init_provider.rs:5-29 | Creates the record through `CreateProvider`, then checks the name's size. Running the instruction on the ledger commits exactly `Apply`'s new ledger on success, and leaves the ledger untouched with `Apply`'s error on failure. |
| InitProvider.PreservesValid | programs/apec-cert/src/instructions/init_provider.rs:10-27 | A successful `init_provider` keeps the ledger invariant. |
| InitProvider.SecondInitFails | programs/apec-cert/src/instructions/init_provider.rs:10-16 | After a successful registration, a second one with the same id fails with `AccountAlreadyInUse`, whoever signs. |
| CreateCourse.Apply | programs/apec-cert/src/instructions/create_course.rs:5-36 | Succeeds if and only if: the provider exists, the course address (provider key, id) is free, the provider sits at its canonical address, the signer is its authority, and the short name fits in 20 bytes of UTF-8. A duplicate id gives `AccountAlreadyInUse`. A wrong signer is rejected by a constraint. A name too long, with every other check passed, gives `AccountDidNotSerialize`. The new course is (id, provider key, bump, short name). The provider record and everything else are unchanged. |
| CreateCourse.Execute | programs/apec-cert/src/instructions/create_course.rs:5-36 | Creates the record through `CreateCourse`, then checks seeds, `has_one` and the name's size. Commits exactly `Apply`'s effect, or nothing with its error. |
| CreateCourse.PreservesValid | programs/apec-cert/src/instructions/create_course.rs:10-34 | A successful `create_course` keeps the ledger invariant. |
| CreateCourse.WrongAuthorityRejected | programs/apec-cert/src/instructions/create_course.rs:10-11 | On a valid ledger, a signer other than the provider's authority gets `ConstraintHasOne`. |
| CreateCourse.SameIdOtherProvider | programs/apec-cert/src/instructions/create_course.rs:20 | The same id under two different providers gives two courses; the second succeeds after the first. |
| CreateCourse.DuplicateIdFails | programs/apec-cert/src/instructions/create_course.rs:16-22 | The same id twice under one provider fails the second time with `AccountAlreadyInUse`. |
| CreateCertProof.Apply | programs/apec-cert/src/instructions/create_cert_proof.rs:5-42 | Succeeds if and only if: provider and course exist, the pair's address is free, both sit at their canonical addresses, and the course belongs to the provider. A signer is never checked. Re-publishing gives `AccountAlreadyInUse`. The stored record is (provider key, course key, root, total, claimed 0, bump). Nothing else changes. |
| CreateCertProof.Execute | programs/apec-cert/src/instructions/create_cert_proof.rs:5-42 | Creates the record through `CreateCertProof`, then checks both seeds constraints and `has_one`. Commits exactly `Apply`'s effect, or nothing with its error. |
| CreateCertProof.PreservesValid | programs/apec-cert/src/instructions/create_cert_proof.rs:9-40 | A successful publication keeps the ledger invariant, including `claimed == 0`. |
| CreateCertProof.RepublishFails | programs/apec-cert/src/instructions/create_cert_proof.rs:20-27 | A published commitment cannot be replaced: a second publication for the pair fails with `AccountAlreadyInUse`, whatever its root and total. |
| CreateCertProof.ForeignCourseRejected | programs/apec-cert/src/instructions/create_cert_proof.rs:14-19 | On a valid ledger, a course of another provider gets `ConstraintHasOne`. |
| EnrollCourse.Apply | programs/apec-cert/src/instructions/enroll_course.rs:13-119 | Succeeds if and only if: the course exists, the (course, user) mint and the user's token account are free, and the course sits at its canonical address. No proof is asked for. A second enrollment gives `AccountAlreadyInUse`. On success the new mint has supply 1, decimals 0 and no mint authority. The course is its close, pointer and update authority, and the metadata holds name, symbol and uri exactly as supplied. The user holds 1. Nothing else changes. |
| EnrollCourse.Execute | programs/apec-cert/src/instructions/enroll_course.rs:13-119 | Runs the mint and token-account creation, the seeds check and the three calls signed by the course. Commits exactly `Apply`'s effect, or nothing with its error. |
| EnrollCourse.PreservesValid | programs/apec-cert/src/instructions/enroll_course.rs:22-117 | A successful enrollment keeps the ledger invariant: one holder per mint, supply 1, no mint authority. |
| EnrollCourse.SecondEnrollmentFails | programs/apec-cert/src/instructions/enroll_course.rs:22-33 | Enrolling twice in the same course fails with `AccountAlreadyInUse`, whatever the metadata. |
| ClaimCert.Apply | programs/apec-cert/src/instructions/claim_cert.rs:17-140 | Succeeds if and only if: no provider, course, commitment or mint sits at the claimer's address (else `AccountNotSystemOwned`, first); provider, course and commitment exist; the credential address (from the commitment's provider and course keys and the claimer) and the token account are free; course and commitment belong to the provider; the claimer's leaf verifies against the root; and the provider can sign. A repeat claim gives `AccountAlreadyInUse` before the proof is examined. A bad proof that passes the earlier checks gives `InvalidProof`. On success: supply 1, decimals 0, no mint authority, provider as close, pointer and update authority, symbol `APECERT`, the claimer holds 1. Providers, courses and commitments (with `claimed`) are unchanged. |
| ClaimCert.Execute | programs/apec-cert/src/instructions/claim_cert.rs:17-140 | Runs the account creation, the `has_one` checks, the proof check, the signer check and the three calls signed by the provider. Commits exactly `Apply`'s effect. Otherwise it leaves no mint, token account or metadata and reports `Apply`'s error. |
| ClaimCert.ClaimerLeaf | programs/apec-cert/src/instructions/claim_cert.rs:72 | Defines the claimer's leaf as `keccak` of the claimer key's 32 bytes. |
| ClaimCert.CredentialAddress | programs/apec-cert/src/instructions/claim_cert.rs:41 | The credential mint's address for a claimer under a commitment: seeds from the commitment's own provider and course keys and the claimer key. |
| ClaimCert.PreservesValid | programs/apec-cert/src/instructions/claim_cert.rs:32-137 | A successful claim keeps the ledger invariant. |
| ClaimCert.SecondClaimFails | programs/apec-cert/src/instructions/claim_cert.rs:32-44 | After a successful claim, claiming again under the same commitment fails with `AccountAlreadyInUse`, whatever course, proof and metadata are passed. |
| ClaimCert.CourseAccountImmaterial | programs/apec-cert/src/instructions/claim_cert.rs:24-31 | Any two courses of the provider give the same result: the passed course is never compared with the commitment's course. |
| ClaimCert.ListedClaimerEligible | programs/apec-cert/src/instructions/claim_cert.rs:72-77 | When the commitment's root is the root of the tree over the hashed allow-list, no listed claimer presenting their sibling path is refused with `InvalidProof`. |
| Program.Step | programs/apec-cert/src/lib.rs:14-51 | Defines one transaction's effect as its instruction's `Apply`. |
| Program.Run | programs/apec-cert/src/lib.rs:14-51 | Defines the ledger after a sequence of transactions: each successful one applies its effect, a failed one leaves no trace. |
| Program.Process | programs/apec-cert/src/lib.rs:14-51 | Dispatching a transaction commits exactly its instruction's effect, or nothing. |
| Program.StepPreservesValid | programs/apec-cert/src/lib.rs:14-51 | Every successful instruction keeps the ledger invariant. |
| Program.RunPreservesValid | programs/apec-cert/src/lib.rs:14-51 | From a valid ledger, any sequence of this program's instructions leads to a valid ledger. |
| Program.ReachableValid | programs/apec-cert/src/lib.rs:14-51 | Every ledger reachable from the empty one is valid. |
| Program.StepGrows | programs/apec-cert/src/lib.rs:14-51 | A successful instruction keeps every existing account exactly as it was. |
| Program.RunGrows | programs/apec-cert/src/lib.rs:14-51 | Over any sequence of this program's instructions, no account is edited or removed. |
| Program.CommitmentImmutable | programs/apec-cert/src/instructions/create_cert_proof.rs:20-40 | A published commitment keeps its root, total and every other field after any sequence of this program's instructions. |
| Program.ClaimAtMostOnce | programs/apec-cert/src/instructions/claim_cert.rs:32-44 | After a successful claim, and any of this program's instructions in between, the same claimer cannot claim again under the same commitment. |
| Program.EnrollAtMostOnce | programs/apec-cert/src/instructions/enroll_course.rs:22-33 | After a successful enrollment, and any of this program's instructions in between, the same user cannot enroll again in the same course. |
| Scenarios.SetUp | tests/apec-cert.ts:89-148 | On a fresh ledger, `init_provider`, `create_course`, `enroll_course` and `create_cert_proof` all succeed, and the ledger then holds exactly their four records and the enrollment token. |
| Scenarios.PayerClaimAccepted | tests/apec-cert.ts:150-167 | On that ledger, the payer's claim with its sibling path in the five-member tree succeeds and mints their credential. |
| Scenarios.Walkthrough | tests/apec-cert.ts:89-167 | The whole flow succeeds for every hash function and bump search. The payer holds exactly one credential unit, and a repeat claim fails with `AccountAlreadyInUse`. |
| Scenarios.StrangerAddsCourse | programs/apec-cert/src/instructions/create_course.rs:10-11 | A signer other than the provider's authority gets `ConstraintHasOne`, and no course is created. |

## Left out

- Rent and lamports: the model does not represent them. `update_account_minimum_lamports` and `prepare_token_metadata_ext` (programs/apec-cert/src/utils.rs:10-35, 49-72) only move lamports for the metadata's space, so a payer too poor to fund an account is not a failure here.
- The System program and account space: not modelled. A payer is modelled only where it has another role: in `init_provider` it is the signer stored as the provider's authority (`init_provider.rs:9-12`, 24); in `create_course` it is the provider's authority (`create_course.rs:9`, 18); in `enroll_course` it is the user who receives the token (`enroll_course.rs:24`, 40). In `create_cert_proof` and `claim_cert` the payer only pays and is not a parameter.
- Keccak-256: it is a parameter with no collision resistance. The model therefore does not prove that a claimer off the list, or a proof for another leaf, is rejected. It proves only the exact condition under which a proof is accepted.
- Bump search: it is the parameter `bumpOf`. Signing with seeds and a non-canonical bump is treated as not signing for the account.
- Client-chosen `init` addresses: every `init` account is assumed to be passed at its own derived address. A mismatch, which Anchor rejects with a seeds error, is not modelled.
- Token-2022 and Associated Token program internals: the extension layout, TLV encoding and their own checks are not modelled. Each call is the map update it makes. Authorities are not re-checked after the creation the program does itself.
- Anchor deserialisation, owner and discriminator checks: an `Account<...>` of the wrong type counts as missing (`AccountNotInitialized`). `SystemAccount` is modelled as "no provider, course, commitment or mint at that address". Associated token accounts have no address in the model, so a claimer that is one is not refused; a wallet holding lamports is not told apart from an empty address. Anchor's numeric error codes are replaced by names.
- `short_name` size: only the string's bytes are counted against the limit; the fixed part of the account is always large enough. The 4-byte Borsh length prefix is part of `INIT_SPACE` and is not modelled.
- `lib.rs` is modelled by `Program.Process` only. The program id and the unused `CustomError` are left out.
- Token operations a holder makes directly with Token-2022: transfers, burns and closing a token account are outside this ledger, since the mints are not non-transferable. The one-holder and balance-1 clauses of `Valid` hold only over this program's instructions. On the real ledger, the rest still holds: no mint is ever closed, because its close authority is a PDA of this program that never signs a close; the mint authority stays `None`; and the metadata stays as written, because its update authority is also such a PDA. Since the mint stays, a repeated claim or enrollment still finds its address in use, as `ClaimAtMostOnce` and `EnrollAtMostOnce` state.
- Concurrency: transactions run one at a time, and at-most-once issuance follows from the `init`-once semantics.
- The TypeScript test's `merkletreejs` tree is modelled by `BuildTree`: pairs are sorted at every level, and an odd last node is carried up unhashed. Only the round trip is proved, not byte-level agreement with that library.
- `ClaimCert.Execute`: `Execute` methods accept any ledger, so a provider not at its derived address ends in `MissingRequiredSignature`. That case cannot happen on a ledger satisfying the invariant. The runtime refuses the signed call itself, before the token program runs; the model gives that refusal one name.
