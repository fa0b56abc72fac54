/**
 * `claim_cert(proof, name, uri)`: a claimer on a course's published
 * allow-list mints their one-unit credential, signed for by the provider's
 * PDA, into a mint bound to (cert_proof.provider, cert_proof.course,
 * claimer).
 *
 * The passed course account is only checked to belong to the provider
 * (`has_one = provider`); nothing ties it to `cert_proof.course`, and the
 * credential's address and eligibility come from the commitment alone.
 */
module ClaimCert {
  import opened Bytes
  import opened Addresses
  import opened Accounts
  import opened Ledger
  import opened Merkle

  /** `keccak::hashv(&[claimer.key().as_array()])` */
  function ClaimerLeaf(rt: Runtime, claimer: Addr): Hash
  {
    rt.keccak(rt.keyBytes(claimer))
  }

  /** The credential mint of `claimer` under the commitment `cp`. */
  function CredentialAddress(cp: CertProof, claimer: Addr): Addr
  {
    CertificateAddress(cp.provider, cp.course, claimer)
  }

  /**
   * The effect of `claim_cert` for the provider at `p`, the course at `c`
   * and the commitment at `cp`. Account validation: the claimer is a
   * system-owned account (no provider, course, commitment or mint lives
   * there), the three accounts exist, the credential mint and the
   * claimer's token account are created, then `has_one = provider` on the
   * course and on the commitment; the
   * handler then verifies the proof and signs as the provider's PDA.
   */
  function Apply(rt: Runtime, s: LedgerState, claimer: Addr, p: Addr, c: Addr, cp: Addr,
                 proof: seq<Hash>, name: string, uri: string): (r: Result<LedgerState>)
    ensures r.Ok? <==>
      && !s.InUse(claimer)
      && p in s.providers && c in s.courses && cp in s.certProofs
      && (var m := CredentialAddress(s.certProofs[cp], claimer);
          !s.InUse(m) && (m, claimer) !in s.tokenAccounts)
      && s.courses[c].provider == p
      && s.certProofs[cp].provider == p
      // eligibility: the claimer's leaf is in the committed tree
      && Verifies(rt.keccak, proof, s.certProofs[cp].root, ClaimerLeaf(rt, claimer))
      && rt.AtAddress(p, ProviderAddress(s.providers[p].id), s.providers[p].bump)
    // a program-owned claimer account is refused first
    ensures s.InUse(claimer) ==> r == Err(AccountNotSystemOwned)
    // a repeated claim fails as a duplicate, before the proof is even looked at
    ensures !s.InUse(claimer) && p in s.providers && c in s.courses && cp in s.certProofs
            && s.InUse(CredentialAddress(s.certProofs[cp], claimer))
            ==> r == Err(AccountAlreadyInUse)
    // a proof that does not reconstruct the root is rejected as such
    ensures !s.InUse(claimer) && p in s.providers && c in s.courses && cp in s.certProofs
            && !s.InUse(CredentialAddress(s.certProofs[cp], claimer))
            && (CredentialAddress(s.certProofs[cp], claimer), claimer) !in s.tokenAccounts
            && s.courses[c].provider == p && s.certProofs[cp].provider == p
            && !Verifies(rt.keccak, proof, s.certProofs[cp].root, ClaimerLeaf(rt, claimer))
            ==> r == Err(InvalidProof)
    ensures r.Ok? ==>
      var m := CredentialAddress(s.certProofs[cp], claimer);
      && r.value.mints.Keys == s.mints.Keys + {m}
      && Extends(s.mints, r.value.mints)
      && (var mint := r.value.mints[m];
          // one indivisible unit, after which nobody can mint
          && mint.supply == 1 && mint.decimals == 0 && mint.mintAuthority == None
          // the provider keeps close, metadata-pointer and metadata-update authority
          && mint.closeAuthority == p && mint.metadataPointerAuthority == p && mint.metadataAddress == m
          // the fixed symbol, and the name and uri as supplied
          && mint.metadata == Some(Metadata(p, name, CERTIFICATE_SYMBOL, uri)))
      // the claimer holds the unit
      && r.value.tokenAccounts.Keys == s.tokenAccounts.Keys + {(m, claimer)}
      && r.value.tokenAccounts[(m, claimer)] == 1
      && Extends(s.tokenAccounts, r.value.tokenAccounts)
      // provider, course and commitment records (with `claimed`) untouched
      && r.value.(mints := s.mints, tokenAccounts := s.tokenAccounts) == s
  {
    if s.InUse(claimer) then Err(AccountNotSystemOwned)
    else if p !in s.providers || c !in s.courses || cp !in s.certProofs then Err(AccountNotInitialized)
    else
      var provider := s.providers[p];
      var certProof := s.certProofs[cp];
      var m := CredentialAddress(certProof, claimer);
      if s.InUse(m) || (m, claimer) in s.tokenAccounts then Err(AccountAlreadyInUse)
      else if s.courses[c].provider != p || certProof.provider != p then Err(ConstraintHasOne)
      else if !Verifies(rt.keccak, proof, certProof.root, ClaimerLeaf(rt, claimer)) then Err(InvalidProof)
      else if !rt.AtAddress(p, ProviderAddress(provider.id), provider.bump) then Err(MissingRequiredSignature)
      else Ok(s.(mints := s.mints[m := CertificateMint(p, m, name, uri)],
                 tokenAccounts := s.tokenAccounts[(m, claimer) := 1]))
  }

  /**
   * Runs the instruction step by step: create the mint (authority, close
   * authority and metadata pointer all the provider) and the claimer's
   * token account, check `has_one`, verify the proof, then write metadata,
   * mint one unit and revoke the mint authority, each signed with the
   * provider's seeds. Any failure reverts every write.
   */
  method Execute(l: Ledger, rt: Runtime, claimer: Addr, p: Addr, c: Addr, cp: Addr,
                 proof: seq<Hash>, name: string, uri: string) returns (r: Outcome)
    modifies l
    ensures Commits(Apply(rt, old(l.State()), claimer, p, c, cp, proof, name, uri), r, old(l.State()), l.State())
  {
    var saved := l.State();
    ghost var effect := Apply(rt, saved, claimer, p, c, cp, proof, name, uri);
    // `claimer: SystemAccount` must not be owned by a program
    if l.InUse(claimer) {
      return Failure(AccountNotSystemOwned);
    }
    if p !in l.providers || c !in l.courses || cp !in l.certProofs {
      return Failure(AccountNotInitialized);
    }
    var provider := l.providers[p];
    var course := l.courses[c];
    var certProof := l.certProofs[cp];
    var m := CertificateAddress(certProof.provider, certProof.course, claimer);
    r := l.CreateMint(m, 0, p, p, p, m);
    if r.Failure? {
      return;
    }
    r := l.CreateTokenAccount(m, claimer);
    if r.Failure? {
      l.Revert(saved);
      return;
    }
    if course.provider != p || certProof.provider != p {
      l.Revert(saved);
      return Failure(ConstraintHasOne);
    }
    var leaf := rt.keccak(rt.keyBytes(claimer));
    var eligible := MerkleVerify(rt.keccak, proof, certProof.root, leaf);
    if !eligible {
      l.Revert(saved);
      return Failure(InvalidProof);
    }
    // the handler signs with seeds [PROVIDER_SEED, provider.id, provider.bump]
    if !rt.AtAddress(p, ProviderAddress(provider.id), provider.bump) {
      l.Revert(saved);
      return Failure(MissingRequiredSignature);
    }
    assert effect == Ok(saved.(mints := saved.mints[m := CertificateMint(p, m, name, uri)],
                               tokenAccounts := saved.tokenAccounts[(m, claimer) := 1]));
    var signer := ProviderAddress(provider.id);
    l.IssueUnit(m, claimer, signer, p, name, CERTIFICATE_SYMBOL, uri);
    assert l.mints == saved.mints[m := CertificateMint(p, m, name, uri)];
    assert l.tokenAccounts == saved.tokenAccounts[(m, claimer) := 1];
    r := Success;
  }

  lemma PreservesValid(rt: Runtime, s: LedgerState, claimer: Addr, p: Addr, c: Addr, cp: Addr,
                       proof: seq<Hash>, name: string, uri: string)
    requires Valid(rt, s)
    ensures Apply(rt, s, claimer, p, c, cp, proof, name, uri).Ok?
            ==> Valid(rt, Apply(rt, s, claimer, p, c, cp, proof, name, uri).value)
  {
    var r := Apply(rt, s, claimer, p, c, cp, proof, name, uri);
    if r.Ok? {
      var m := CredentialAddress(s.certProofs[cp], claimer);
      IssueKeepsValid(rt, s, m, claimer, CertificateMint(p, m, name, uri));
      assert r.value == s.(mints := s.mints[m := CertificateMint(p, m, name, uri)],
                           tokenAccounts := s.tokenAccounts[(m, claimer) := 1]);
    }
  }

  /**
   * At most one credential per (provider, course, claimer): once a claim
   * succeeded, claiming again under the same commitment fails as a
   * duplicate, whatever course account, proof and metadata are passed.
   */
  lemma SecondClaimFails(rt: Runtime, s: LedgerState, claimer: Addr, p: Addr, c: Addr, cp: Addr,
                         proof: seq<Hash>, name: string, uri: string,
                         c': Addr, proof': seq<Hash>, name': string, uri': string)
    requires Apply(rt, s, claimer, p, c, cp, proof, name, uri).Ok?
    requires c' in s.courses
    ensures Apply(rt, Apply(rt, s, claimer, p, c, cp, proof, name, uri).value, claimer, p, c', cp, proof', name', uri')
            == Err(AccountAlreadyInUse)
  {
    CertificateAddressNotSeed(s.certProofs[cp].provider, s.certProofs[cp].course, claimer);
  }

  /**
   * The course account passed to `claim_cert` only has to belong to the
   * provider: any two such courses give the same result, so a commitment is
   * claimed under its own course even when another course is passed.
   */
  lemma CourseAccountImmaterial(rt: Runtime, s: LedgerState, claimer: Addr, p: Addr, c: Addr, c': Addr, cp: Addr,
                                proof: seq<Hash>, name: string, uri: string)
    requires c in s.courses && c' in s.courses
    requires s.courses[c].provider == p && s.courses[c'].provider == p
    ensures Apply(rt, s, claimer, p, c, cp, proof, name, uri) == Apply(rt, s, claimer, p, c', cp, proof, name, uri)
  {
  }

  /**
   * Round trip with the off-chain tree: when the commitment's root is the
   * root of the tree over the hashed allow-list, every listed claimer's
   * sibling path is accepted, so the claim can fail only for an existing
   * credential, a foreign course or a missing signature.
   */
  lemma ListedClaimerEligible(rt: Runtime, s: LedgerState, list: seq<Addr>, i: nat, p: Addr, c: Addr, cp: Addr,
                              name: string, uri: string)
    requires i < |list|
    requires cp in s.certProofs
    requires var hashes := seq(|list|, k requires 0 <= k < |list| => ClaimerLeaf(rt, list[k]));
             s.certProofs[cp].root == Root(rt.keccak, BuildTree(hashes))
    ensures var hashes := seq(|list|, k requires 0 <= k < |list| => ClaimerLeaf(rt, list[k]));
            Apply(rt, s, list[i], p, c, cp, ProofFor(rt.keccak, BuildTree(hashes), i), name, uri) != Err(InvalidProof)
  {
    var entries := seq(|list|, k requires 0 <= k < |list| => rt.keyBytes(list[k]));
    var hashes := seq(|list|, k requires 0 <= k < |list| => ClaimerLeaf(rt, list[k]));
    assert hashes == seq(|entries|, k requires 0 <= k < |entries| => rt.keccak(entries[k]));
    AllowListRoundTrip(rt.keccak, entries, i);
  }
}
