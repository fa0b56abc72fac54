/**
 * `create_cert_proof(root, total)`: publishes the Merkle root of a course's
 * allow-list, once per (provider, course) pair. No authority is checked:
 * the signer only pays for the account, so it is not a parameter here.
 */
module CreateCertProof {
  import opened Bytes
  import opened Addresses
  import opened Accounts
  import opened Ledger

  /**
   * The effect of `create_cert_proof` for the provider at `p` and the course
   * at `c`. Account validation: both accounts exist, the commitment is
   * created at its derived address, then the provider's `seeds`, the
   * course's `seeds` and the course's `has_one = provider` are checked.
   */
  function Apply(rt: Runtime, s: LedgerState, p: Addr, c: Addr, root: Hash, total: u64): (r: Result<LedgerState>)
    ensures r.Ok? <==>
      && p in s.providers && c in s.courses
      && !s.InUse(CertProofAddress(p, c))
      && rt.AtAddress(p, ProviderAddress(s.providers[p].id), s.providers[p].bump)
      && rt.AtAddress(c, CourseAddress(s.courses[c].provider, s.courses[c].id), s.courses[c].bump)
      && s.courses[c].provider == p
    // re-publishing for the same pair
    ensures p in s.providers && c in s.courses && s.InUse(CertProofAddress(p, c)) ==> r == Err(AccountAlreadyInUse)
    // the stored commitment: both keys, the root and total as given, nothing claimed
    ensures r.Ok? ==>
      var a := CertProofAddress(p, c);
      && r.value.certProofs.Keys == s.certProofs.Keys + {a}
      && r.value.certProofs[a] == CertProof(p, c, root, total, 0, rt.bumpOf(a))
      && Extends(s.certProofs, r.value.certProofs)
      && r.value.(certProofs := s.certProofs) == s
  {
    if p !in s.providers || c !in s.courses then Err(AccountNotInitialized)
    else
      var provider := s.providers[p];
      var course := s.courses[c];
      var a := CertProofAddress(p, c);
      if s.InUse(a) then Err(AccountAlreadyInUse)
      else if !rt.AtAddress(p, ProviderAddress(provider.id), provider.bump) then Err(ConstraintSeeds)
      else if !rt.AtAddress(c, CourseAddress(course.provider, course.id), course.bump) then Err(ConstraintSeeds)
      else if course.provider != p then Err(ConstraintHasOne)
      else Ok(s.(certProofs := s.certProofs[a := CertProof(p, c, root, total, 0, rt.bumpOf(a))]))
  }

  /**
   * Account validation loads provider and course and creates the
   * commitment (written here with the handler's record), then checks the
   * constraints; any failure reverts the creation.
   */
  method Execute(l: Ledger, rt: Runtime, p: Addr, c: Addr, root: Hash, total: u64) returns (r: Outcome)
    modifies l
    ensures Commits(Apply(rt, old(l.State()), p, c, root, total), r, old(l.State()), l.State())
  {
    var saved := l.State();
    if p !in l.providers || c !in l.courses {
      return Failure(AccountNotInitialized);
    }
    var provider := l.providers[p];
    var course := l.courses[c];
    var a := CertProofAddress(p, c);
    r := l.CreateCertProof(a, CertProof(p, c, root, total, 0, rt.bumpOf(a)));
    if r.Failure? {
      return;
    }
    if !rt.AtAddress(p, ProviderAddress(provider.id), provider.bump) {
      l.Revert(saved);
      return Failure(ConstraintSeeds);
    }
    if !rt.AtAddress(c, CourseAddress(course.provider, course.id), course.bump) {
      l.Revert(saved);
      return Failure(ConstraintSeeds);
    }
    if course.provider != p {
      l.Revert(saved);
      return Failure(ConstraintHasOne);
    }
  }

  lemma PreservesValid(rt: Runtime, s: LedgerState, p: Addr, c: Addr, root: Hash, total: u64)
    requires Valid(rt, s)
    ensures Apply(rt, s, p, c, root, total).Ok? ==> Valid(rt, Apply(rt, s, p, c, root, total).value)
  {
    if Apply(rt, s, p, c, root, total).Ok? {
      var a := CertProofAddress(p, c);
      AddCertProofKeepsValid(rt, s, a, CertProof(p, c, root, total, 0, rt.bumpOf(a)));
    }
  }


  /** A published commitment cannot be replaced: a second publication for the pair fails, whatever its root. */
  lemma RepublishFails(rt: Runtime, s: LedgerState, p: Addr, c: Addr, root: Hash, total: u64, root': Hash, total': u64)
    requires Apply(rt, s, p, c, root, total).Ok?
    ensures Apply(rt, Apply(rt, s, p, c, root, total).value, p, c, root', total') == Err(AccountAlreadyInUse)
  {
  }

  /** On a valid ledger, a course of another provider is rejected by `has_one = provider`. */
  lemma ForeignCourseRejected(rt: Runtime, s: LedgerState, p: Addr, c: Addr, root: Hash, total: u64)
    requires Valid(rt, s)
    requires p in s.providers && c in s.courses && !s.InUse(CertProofAddress(p, c))
    requires s.courses[c].provider != p
    ensures Apply(rt, s, p, c, root, total) == Err(ConstraintHasOne)
  {
  }
}
