/**
 * `enroll_course(name, symbol, uri)`: any user mints a one-unit enrollment
 * token for a course, into a mint whose address is bound to (course, user).
 */
module EnrollCourse {
  import opened Bytes
  import opened Addresses
  import opened Accounts
  import opened Ledger

  /**
   * The effect of `enroll_course` signed by `user` for the course at `c`.
   * Account validation: the course exists, the mint and the user's token
   * account are created, then the course's `seeds` constraint is checked.
   */
  function Apply(rt: Runtime, s: LedgerState, user: Addr, c: Addr, name: string, symbol: string, uri: string)
    : (r: Result<LedgerState>)
    ensures
      var m := EnrollmentAddress(c, user);
      r.Ok? <==>
        && c in s.courses
        && !s.InUse(m) && (m, user) !in s.tokenAccounts
        && rt.AtAddress(c, CourseAddress(s.courses[c].provider, s.courses[c].id), s.courses[c].bump)
    // a second enrollment of the same user in the same course
    ensures c in s.courses && s.InUse(EnrollmentAddress(c, user)) ==> r == Err(AccountAlreadyInUse)
    ensures r.Ok? ==>
      var m := EnrollmentAddress(c, user);
      && r.value.mints.Keys == s.mints.Keys + {m}
      && Extends(s.mints, r.value.mints)
      && (var mint := r.value.mints[m];
          // one indivisible unit, after which nobody can mint
          && mint.supply == 1 && mint.decimals == 0 && mint.mintAuthority == None
          // the course keeps close, metadata-pointer and metadata-update authority
          && mint.closeAuthority == c && mint.metadataPointerAuthority == c && mint.metadataAddress == m
          // name, symbol and uri exactly as supplied
          && mint.metadata == Some(Metadata(c, name, symbol, uri)))
      // the user holds the unit
      && r.value.tokenAccounts.Keys == s.tokenAccounts.Keys + {(m, user)}
      && r.value.tokenAccounts[(m, user)] == 1
      && Extends(s.tokenAccounts, r.value.tokenAccounts)
      // registry records untouched
      && r.value.(mints := s.mints, tokenAccounts := s.tokenAccounts) == s
  {
    if c !in s.courses then Err(AccountNotInitialized)
    else
      var course := s.courses[c];
      var m := EnrollmentAddress(c, user);
      if s.InUse(m) || (m, user) in s.tokenAccounts then Err(AccountAlreadyInUse)
      else if !rt.AtAddress(c, CourseAddress(course.provider, course.id), course.bump) then Err(ConstraintSeeds)
      else Ok(s.(mints := s.mints[m := EnrollmentMint(c, m, name, symbol, uri)],
                 tokenAccounts := s.tokenAccounts[(m, user) := 1]))
  }

  /**
   * Runs the instruction step by step: create the mint and the token
   * account, check the course's address, then the handler's calls (write
   * metadata, mint one unit, revoke the mint authority), each signed by the
   * course's PDA. Any failure reverts every write.
   */
  method Execute(l: Ledger, rt: Runtime, user: Addr, c: Addr, name: string, symbol: string, uri: string)
    returns (r: Outcome)
    modifies l
    ensures Commits(Apply(rt, old(l.State()), user, c, name, symbol, uri), r, old(l.State()), l.State())
  {
    var saved := l.State();
    if c !in l.courses {
      return Failure(AccountNotInitialized);
    }
    var course := l.courses[c];
    var m := EnrollmentAddress(c, user);
    r := l.CreateMint(m, 0, c, c, c, m);
    if r.Failure? {
      return;
    }
    r := l.CreateTokenAccount(m, user);
    if r.Failure? {
      l.Revert(saved);
      return;
    }
    if !rt.AtAddress(c, CourseAddress(course.provider, course.id), course.bump) {
      l.Revert(saved);
      return Failure(ConstraintSeeds);
    }
    // the handler signs with seeds [COURSE_SEED, course.provider, course.id, course.bump]
    var signer := CourseAddress(course.provider, course.id);
    l.IssueUnit(m, user, signer, c, name, symbol, uri);
    assert l.mints == saved.mints[m := EnrollmentMint(c, m, name, symbol, uri)];
    assert l.tokenAccounts == saved.tokenAccounts[(m, user) := 1];
    r := Success;
  }

  lemma PreservesValid(rt: Runtime, s: LedgerState, user: Addr, c: Addr, name: string, symbol: string, uri: string)
    requires Valid(rt, s)
    ensures Apply(rt, s, user, c, name, symbol, uri).Ok? ==> Valid(rt, Apply(rt, s, user, c, name, symbol, uri).value)
  {
    var r := Apply(rt, s, user, c, name, symbol, uri);
    if r.Ok? {
      var m := EnrollmentAddress(c, user);
      IssueKeepsValid(rt, s, m, user, EnrollmentMint(c, m, name, symbol, uri));
      assert r.value == s.(mints := s.mints[m := EnrollmentMint(c, m, name, symbol, uri)],
                           tokenAccounts := s.tokenAccounts[(m, user) := 1]);
    }
  }


  /** Enrolling twice in the same course fails, whatever the metadata. */
  lemma SecondEnrollmentFails(rt: Runtime, s: LedgerState, user: Addr, c: Addr, name: string, symbol: string, uri: string,
                              name': string, symbol': string, uri': string)
    requires Apply(rt, s, user, c, name, symbol, uri).Ok?
    ensures Apply(rt, Apply(rt, s, user, c, name, symbol, uri).value, user, c, name', symbol', uri') == Err(AccountAlreadyInUse)
  {
  }
}
