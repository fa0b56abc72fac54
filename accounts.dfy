/**
 * The accounts the program reads and creates, the ledger that stores them,
 * and what the runtime supplies (the hash syscall and bump search).
 */
module Accounts {
  import opened Bytes
  import opened Addresses

  datatype Option<T> = None | Some(value: T)

  /**
   * Why an instruction is rejected. `InvalidProof` is the program's own
   * error code; the others are raised by the framework's account validation
   * or by the runtime.
   */
  datatype Error =
    | AccountNotInitialized     // a non-init account is missing (or has another type)
    | AccountAlreadyInUse       // an `init` account's address is taken
    | AccountNotSystemOwned     // a `SystemAccount` is owned by some program
    | AccountDidNotSerialize    // a written record does not fit the space allocated for it
    | ConstraintSeeds           // an account is not at the address its seeds give
    | ConstraintHasOne          // a `has_one` field does not match
    | MissingRequiredSignature  // the PDA the program signs as is not the mint authority
    | InvalidProof              // the Merkle proof does not reconstruct the root

  /** What the handler of one instruction reports. */
  datatype Outcome = Success | Failure(error: Error)

  /** The effect of one instruction on the ledger: a new ledger, or a rejection. */
  datatype Result<T> = Ok(value: T) | Err(error: Error)

  datatype Provider = Provider(id: u64, authority: Addr, bump: byte, shortName: string)

  datatype Course = Course(id: u64, provider: Addr, bump: byte, shortName: string)

  datatype CertProof = CertProof(provider: Addr, course: Addr, root: Hash, total: u64, claimed: u64, bump: byte)

  /** The Token-2022 metadata extension of a mint. */
  datatype Metadata = Metadata(updateAuthority: Addr, name: string, symbol: string, uri: string)

  /** A Token-2022 mint with the close-authority and metadata-pointer extensions. */
  datatype Mint = Mint(
    supply: nat,
    decimals: nat,
    mintAuthority: Option<Addr>,
    closeAuthority: Addr,
    metadataPointerAuthority: Addr,
    metadataAddress: Addr,
    metadata: Option<Metadata>)

  const CERTIFICATE_SYMBOL: string := "APECERT"

  /** `#[max_len]` of `Provider.short_name` and `Course.short_name`, in bytes. */
  const PROVIDER_NAME_MAX: nat := 10
  const COURSE_NAME_MAX: nat := 20

  /** The number of bytes of a character in UTF-8. */
  function Utf8Width(c: char): (r: nat)
    ensures 1 <= r <= 4
  {
    if c as int < 0x80 then 1
    else if c as int < 0x800 then 2
    else if c as int < 0x1_0000 then 3
    else 4
  }

  /** The length of a string's UTF-8 encoding, which Borsh writes after a 4-byte length. */
  function Utf8Length(s: string): (r: nat)
    ensures |s| <= r <= 4 * |s|
  {
    if s == [] then 0 else Utf8Width(s[0]) + Utf8Length(s[1..])
  }

  /**
   * Whether a record whose `short_name` is `name` fits the account space
   * `8 + INIT_SPACE` allocated for it, with `max` bytes for the name.
   */
  predicate NameFits(name: string, max: nat) {
    Utf8Length(name) <= max
  }

  /**
   * The accounts on the ledger, by address; token accounts (associated
   * token accounts) are keyed by (mint, owner) and hold their balance.
   */
  datatype LedgerState = LedgerState(
    providers: map<Addr, Provider>,
    courses: map<Addr, Course>,
    certProofs: map<Addr, CertProof>,
    mints: map<Addr, Mint>,
    tokenAccounts: map<(Addr, Addr), nat>)
  {
    /** Whether some account already lives at `a`, so that `init` at `a` fails. */
    predicate InUse(a: Addr) {
      a in providers || a in courses || a in certProofs || a in mints
    }
  }

  const EmptyLedger := LedgerState(map[], map[], map[], map[], map[])

  /**
   * What the runtime provides: the Keccak-256 syscall over byte strings, the
   * 32-byte encoding of an account key, and the canonical bump that
   * `find_program_address` finds for a PDA.
   */
  datatype Runtime = Runtime(keccak: seq<byte> -> Hash, keyBytes: Addr -> Hash, bumpOf: Addr -> byte)
  {
    /**
     * The `seeds = [...], bump = stored` check, and equally whether signing
     * with those seeds and that bump signs for `a`.
     */
    predicate AtAddress(a: Addr, derived: Addr, bump: byte) {
      a == derived && bump == bumpOf(derived)
    }
  }

  /** `m'` keeps every entry of `m` as it was. */
  ghost predicate Extends<K, V>(m: map<K, V>, m': map<K, V>) {
    forall k | k in m :: k in m' && m'[k] == m[k]
  }

  /** The credential mint `claim_cert` leaves behind. */
  function CertificateMint(provider: Addr, mint: Addr, name: string, uri: string): Mint {
    Mint(1, 0, None, provider, provider, mint, Some(Metadata(provider, name, CERTIFICATE_SYMBOL, uri)))
  }

  /** The enrollment mint `enroll_course` leaves behind. */
  function EnrollmentMint(course: Addr, mint: Addr, name: string, symbol: string, uri: string): Mint {
    Mint(1, 0, None, course, course, mint, Some(Metadata(course, name, symbol, uri)))
  }

  /**
   * The invariant each of this program's five instructions preserves:
   * accounts sit at the addresses derived from their own fields, names fit
   * their accounts, references point to existing accounts, no address
   * holds two accounts, `claimed` stays 0, and every mint issued one
   * indivisible unit to one holder and can mint no more. Transfers, burns
   * and closes a holder makes directly with the token program are outside
   * this ledger, so the one-holder part speaks only of this program's
   * instructions.
   */
  ghost predicate Valid(rt: Runtime, s: LedgerState) {
    RecordsValid(rt, s) && TokensValid(s) && KindsDisjoint(s)
  }

  /** Providers, courses and commitments: derived addresses, names, references, `claimed`. */
  ghost predicate RecordsValid(rt: Runtime, s: LedgerState) {
    && (forall a | a in s.providers ::
          && rt.AtAddress(a, ProviderAddress(s.providers[a].id), s.providers[a].bump)
          && NameFits(s.providers[a].shortName, PROVIDER_NAME_MAX))
    && (forall a | a in s.courses ::
          && rt.AtAddress(a, CourseAddress(s.courses[a].provider, s.courses[a].id), s.courses[a].bump)
          && NameFits(s.courses[a].shortName, COURSE_NAME_MAX)
          && s.courses[a].provider in s.providers)
    && (forall a | a in s.certProofs ::
          && rt.AtAddress(a, CertProofAddress(s.certProofs[a].provider, s.certProofs[a].course), s.certProofs[a].bump)
          && s.certProofs[a].claimed == 0
          && s.certProofs[a].course in s.courses
          && s.courses[s.certProofs[a].course].provider == s.certProofs[a].provider)
  }

  /** A mint that has issued its one unit and can mint no more. */
  predicate Finished(m: Addr, mint: Mint) {
    && mint.supply == 1 && mint.decimals == 0 && mint.mintAuthority == None
    && mint.metadataAddress == m && mint.metadata.Some?
    && mint.closeAuthority == mint.metadataPointerAuthority == mint.metadata.value.updateAuthority
  }

  /** Mints and token accounts: one finished unit per mint, held by exactly one holder. */
  ghost predicate TokensValid(s: LedgerState) {
    && (forall m | m in s.mints :: Finished(m, s.mints[m]))
    && (forall m | m in s.mints :: exists o :: (m, o) in s.tokenAccounts)
    && (forall k | k in s.tokenAccounts :: k.0 in s.mints && s.tokenAccounts[k] == 1)
    && (forall k, k' | k in s.tokenAccounts && k' in s.tokenAccounts && k.0 == k'.0 :: k == k')
  }

  /** No address holds two accounts. */
  ghost predicate KindsDisjoint(s: LedgerState) {
    && s.providers.Keys !! s.courses.Keys
    && s.providers.Keys !! s.certProofs.Keys
    && s.providers.Keys !! s.mints.Keys
    && s.courses.Keys !! s.certProofs.Keys
    && s.courses.Keys !! s.mints.Keys
    && s.certProofs.Keys !! s.mints.Keys
  }

  /**
   * Issuing a finished mint at a free address to one holder keeps the
   * invariant: every minting instruction ends this way.
   */
  lemma IssueKeepsValid(rt: Runtime, s: LedgerState, m: Addr, holder: Addr, mint: Mint)
    requires Valid(rt, s)
    requires !s.InUse(m) && Finished(m, mint)
    ensures Valid(rt, s.(mints := s.mints[m := mint], tokenAccounts := s.tokenAccounts[(m, holder) := 1]))
  {
    var s' := s.(mints := s.mints[m := mint], tokenAccounts := s.tokenAccounts[(m, holder) := 1]);
    assert RecordsValid(rt, s') by {
      assert s'.providers == s.providers && s'.courses == s.courses && s'.certProofs == s.certProofs;
    }
    IssueKeepsTokens(s, m, holder, mint);
    assert KindsDisjoint(s');
  }

  /** The tokens part of `IssueKeepsValid`: the new mint has the only holder. */
  lemma IssueKeepsTokens(s: LedgerState, m: Addr, holder: Addr, mint: Mint)
    requires TokensValid(s)
    requires m !in s.mints && Finished(m, mint)
    ensures TokensValid(s.(mints := s.mints[m := mint], tokenAccounts := s.tokenAccounts[(m, holder) := 1]))
  {
    var s' := s.(mints := s.mints[m := mint], tokenAccounts := s.tokenAccounts[(m, holder) := 1]);
    forall k, k' | k in s'.tokenAccounts && k' in s'.tokenAccounts && k.0 == k'.0
      ensures k == k'
    {
      if k != (m, holder) && k' != (m, holder) {
        assert k in s.tokenAccounts && k' in s.tokenAccounts;
      }
    }
    forall m' | m' in s'.mints
      ensures exists o :: (m', o) in s'.tokenAccounts
    {
      if m' == m {
        assert (m, holder) in s'.tokenAccounts;
      } else {
        var o :| (m', o) in s.tokenAccounts;
        assert (m', o) in s'.tokenAccounts;
      }
    }
  }

  /** `TokensValid` reads only the mints and the token accounts. */
  lemma TokensFrame(s: LedgerState, s': LedgerState)
    requires TokensValid(s)
    requires s'.mints == s.mints && s'.tokenAccounts == s.tokenAccounts
    ensures TokensValid(s')
  {
  }

  /** Registering a provider at its own derived, free address keeps the invariant. */
  lemma AddProviderKeepsValid(rt: Runtime, s: LedgerState, a: Addr, record: Provider)
    requires Valid(rt, s)
    requires !s.InUse(a) && rt.AtAddress(a, ProviderAddress(record.id), record.bump)
    requires NameFits(record.shortName, PROVIDER_NAME_MAX)
    ensures Valid(rt, s.(providers := s.providers[a := record]))
  {
    var s' := s.(providers := s.providers[a := record]);
    TokensFrame(s, s');
    AddProviderKeepsRecords(rt, s, a, record);
    assert KindsDisjoint(s');
  }

  /** The records part of `AddProviderKeepsValid`. */
  lemma AddProviderKeepsRecords(rt: Runtime, s: LedgerState, a: Addr, record: Provider)
    requires RecordsValid(rt, s)
    requires rt.AtAddress(a, ProviderAddress(record.id), record.bump)
    requires NameFits(record.shortName, PROVIDER_NAME_MAX)
    ensures RecordsValid(rt, s.(providers := s.providers[a := record]))
  {
  }

  /** Adding a course of an existing provider at its own derived, free address keeps the invariant. */
  lemma AddCourseKeepsValid(rt: Runtime, s: LedgerState, a: Addr, record: Course)
    requires Valid(rt, s)
    requires !s.InUse(a) && rt.AtAddress(a, CourseAddress(record.provider, record.id), record.bump)
    requires NameFits(record.shortName, COURSE_NAME_MAX) && record.provider in s.providers
    ensures Valid(rt, s.(courses := s.courses[a := record]))
  {
    var s' := s.(courses := s.courses[a := record]);
    TokensFrame(s, s');
    AddCourseKeepsRecords(rt, s, a, record);
    assert KindsDisjoint(s');
  }

  /** The records part of `AddCourseKeepsValid`: commitments still see their courses. */
  lemma AddCourseKeepsRecords(rt: Runtime, s: LedgerState, a: Addr, record: Course)
    requires RecordsValid(rt, s) && a !in s.courses
    requires rt.AtAddress(a, CourseAddress(record.provider, record.id), record.bump)
    requires NameFits(record.shortName, COURSE_NAME_MAX) && record.provider in s.providers
    ensures RecordsValid(rt, s.(courses := s.courses[a := record]))
  {
    var s' := s.(courses := s.courses[a := record]);
    forall x | x in s'.certProofs
      ensures s'.certProofs[x].course in s'.courses
      ensures s'.courses[s'.certProofs[x].course] == s.courses[s.certProofs[x].course]
    {
      assert s.certProofs[x].course in s.courses;
    }
  }

  /**
   * Publishing an unclaimed commitment for a course of its provider, at its
   * own derived, free address, keeps the invariant.
   */
  lemma AddCertProofKeepsValid(rt: Runtime, s: LedgerState, a: Addr, record: CertProof)
    requires Valid(rt, s)
    requires !s.InUse(a) && rt.AtAddress(a, CertProofAddress(record.provider, record.course), record.bump)
    requires record.claimed == 0 && record.course in s.courses && s.courses[record.course].provider == record.provider
    ensures Valid(rt, s.(certProofs := s.certProofs[a := record]))
  {
    var s' := s.(certProofs := s.certProofs[a := record]);
    TokensFrame(s, s');
    AddCertProofKeepsRecords(rt, s, a, record);
    assert KindsDisjoint(s');
  }

  /** The records part of `AddCertProofKeepsValid`. */
  lemma AddCertProofKeepsRecords(rt: Runtime, s: LedgerState, a: Addr, record: CertProof)
    requires RecordsValid(rt, s)
    requires rt.AtAddress(a, CertProofAddress(record.provider, record.course), record.bump)
    requires record.claimed == 0 && record.course in s.courses && s.courses[record.course].provider == record.provider
    ensures RecordsValid(rt, s.(certProofs := s.certProofs[a := record]))
  {
  }

  /** On a valid ledger every mint has exactly one holder, and that holder has its one unit. */
  lemma OneHolder(rt: Runtime, s: LedgerState, m: Addr) returns (holder: Addr)
    requires Valid(rt, s) && m in s.mints
    ensures (m, holder) in s.tokenAccounts && s.tokenAccounts[(m, holder)] == 1
    ensures forall o | (m, o) in s.tokenAccounts :: o == holder
  {
    holder :| (m, holder) in s.tokenAccounts;
    forall o | (m, o) in s.tokenAccounts
      ensures o == holder
    {
      assert (m, o).0 == (m, holder).0;
    }
  }

  lemma EmptyLedgerValid(rt: Runtime)
    ensures Valid(rt, EmptyLedger)
  {
  }

  /**
   * An instruction's run left the ledger as its effect says: the new ledger
   * on success, the old one untouched on failure.
   */
  predicate Commits(effect: Result<LedgerState>, r: Outcome, before: LedgerState, after: LedgerState) {
    match effect
    case Ok(s') => r == Success && after == s'
    case Err(e) => r == Failure(e) && after == before
  }
}
