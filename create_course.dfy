/**
 * `create_course(id, short_name)`: the provider's recorded authority adds a
 * course whose address is scoped by the provider's key and the course id.
 */
module CreateCourse {
  import opened Bytes
  import opened Addresses
  import opened Accounts
  import opened Ledger

  /**
   * The effect of `create_course` signed by `authority` for the provider
   * account at `p`. Account validation: `p` holds a provider, the course is
   * created at its derived address, then the provider's `seeds` and
   * `has_one = authority` constraints are checked.
   */
  function Apply(rt: Runtime, s: LedgerState, authority: Addr, p: Addr, id: u64, shortName: string): (r: Result<LedgerState>)
    ensures r.Ok? <==>
      && p in s.providers
      && !s.InUse(CourseAddress(p, id))
      && rt.AtAddress(p, ProviderAddress(s.providers[p].id), s.providers[p].bump)
      && s.providers[p].authority == authority
      && NameFits(shortName, COURSE_NAME_MAX)
    // duplicate id under the same provider
    ensures p in s.providers && s.InUse(CourseAddress(p, id)) ==> r == Err(AccountAlreadyInUse)
    // only the provider's authority may add courses
    ensures p in s.providers && !s.InUse(CourseAddress(p, id)) && s.providers[p].authority != authority
            ==> r.Err? && r.error in {ConstraintSeeds, ConstraintHasOne}
    // a name over 20 bytes does not fit the course account
    ensures p in s.providers && !s.InUse(CourseAddress(p, id))
            && rt.AtAddress(p, ProviderAddress(s.providers[p].id), s.providers[p].bump)
            && s.providers[p].authority == authority && !NameFits(shortName, COURSE_NAME_MAX)
            ==> r == Err(AccountDidNotSerialize)
    ensures r.Ok? ==>
      var a := CourseAddress(p, id);
      && r.value.courses.Keys == s.courses.Keys + {a}
      && r.value.courses[a] == Course(id, p, rt.bumpOf(a), shortName)
      && Extends(s.courses, r.value.courses)
      && r.value.(courses := s.courses) == s
  {
    if p !in s.providers then Err(AccountNotInitialized)
    else
      var provider := s.providers[p];
      var a := CourseAddress(p, id);
      if s.InUse(a) then Err(AccountAlreadyInUse)
      else if !rt.AtAddress(p, ProviderAddress(provider.id), provider.bump) then Err(ConstraintSeeds)
      else if provider.authority != authority then Err(ConstraintHasOne)
      else if !NameFits(shortName, COURSE_NAME_MAX) then Err(AccountDidNotSerialize)
      else Ok(s.(courses := s.courses[a := Course(id, p, rt.bumpOf(a), shortName)]))
  }

  /**
   * Account validation loads the provider and creates the course account,
   * then checks the provider's `seeds` and `has_one`; the handler writes the
   * record and the write-back on exit fails when the name overflows.
   */
  method Execute(l: Ledger, rt: Runtime, authority: Addr, p: Addr, id: u64, shortName: string) returns (r: Outcome)
    modifies l
    ensures Commits(Apply(rt, old(l.State()), authority, p, id, shortName), r, old(l.State()), l.State())
  {
    var saved := l.State();
    if p !in l.providers {
      return Failure(AccountNotInitialized);
    }
    var provider := l.providers[p];
    var a := CourseAddress(p, id);
    r := l.CreateCourse(a, Course(id, p, rt.bumpOf(a), shortName));
    if r.Failure? {
      return;
    }
    if !rt.AtAddress(p, ProviderAddress(provider.id), provider.bump) {
      l.Revert(saved);
      return Failure(ConstraintSeeds);
    }
    if provider.authority != authority {
      l.Revert(saved);
      return Failure(ConstraintHasOne);
    }
    if !NameFits(shortName, COURSE_NAME_MAX) {
      l.Revert(saved);
      return Failure(AccountDidNotSerialize);
    }
  }

  lemma PreservesValid(rt: Runtime, s: LedgerState, authority: Addr, p: Addr, id: u64, shortName: string)
    requires Valid(rt, s)
    ensures Apply(rt, s, authority, p, id, shortName).Ok? ==> Valid(rt, Apply(rt, s, authority, p, id, shortName).value)
  {
    if Apply(rt, s, authority, p, id, shortName).Ok? {
      var a := CourseAddress(p, id);
      AddCourseKeepsValid(rt, s, a, Course(id, p, rt.bumpOf(a), shortName));
    }
  }


  /** On a valid ledger the provider is always at its address, so a wrong signer is an authorization error. */
  lemma WrongAuthorityRejected(rt: Runtime, s: LedgerState, authority: Addr, p: Addr, id: u64, shortName: string)
    requires Valid(rt, s)
    requires p in s.providers && !s.InUse(CourseAddress(p, id)) && s.providers[p].authority != authority
    ensures Apply(rt, s, authority, p, id, shortName) == Err(ConstraintHasOne)
  {
  }

  /** The same course id under two providers gives two courses; each succeeds independently. */
  lemma SameIdOtherProvider(rt: Runtime, s: LedgerState, authority: Addr, p: Addr, id: u64, shortName: string,
                            authority': Addr, q: Addr, shortName': string)
    requires p != q
    requires Apply(rt, s, authority, p, id, shortName).Ok?
    requires Apply(rt, s, authority', q, id, shortName').Ok?
    ensures Apply(rt, Apply(rt, s, authority, p, id, shortName).value, authority', q, id, shortName').Ok?
  {
    CourseAddressInjective(p, id, q, id);
  }

  /** The same id twice under one provider fails the second time. */
  lemma DuplicateIdFails(rt: Runtime, s: LedgerState, authority: Addr, p: Addr, id: u64, shortName: string,
                         authority': Addr, shortName': string)
    requires Apply(rt, s, authority, p, id, shortName).Ok?
    ensures Apply(rt, Apply(rt, s, authority, p, id, shortName).value, authority', p, id, shortName') == Err(AccountAlreadyInUse)
  {
  }
}
