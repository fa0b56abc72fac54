/**
 * `init_provider(id, short_name)`: any signer registers a provider under an
 * unused id and becomes its authority.
 */
module InitProvider {
  import opened Bytes
  import opened Addresses
  import opened Accounts
  import opened Ledger

  /**
   * The effect of `init_provider` signed by `authority`: `init` at the
   * id-derived address, then the record is written and, on exit, serialized
   * into the `8 + INIT_SPACE` bytes allocated for it.
   */
  function Apply(rt: Runtime, s: LedgerState, authority: Addr, id: u64, shortName: string): (r: Result<LedgerState>)
    // any signer may register an unused id with a name of at most 10 bytes
    ensures r.Ok? <==> !s.InUse(ProviderAddress(id)) && NameFits(shortName, PROVIDER_NAME_MAX)
    ensures s.InUse(ProviderAddress(id)) ==> r == Err(AccountAlreadyInUse)
    ensures !s.InUse(ProviderAddress(id)) && !NameFits(shortName, PROVIDER_NAME_MAX) ==> r == Err(AccountDidNotSerialize)
    // the new record holds the id, the signer as authority, the bump and the name
    ensures r.Ok? ==>
      var a := ProviderAddress(id);
      && r.value.providers.Keys == s.providers.Keys + {a}
      && r.value.providers[a] == Provider(id, authority, rt.bumpOf(a), shortName)
      && Extends(s.providers, r.value.providers)
      && r.value.(providers := s.providers) == s
  {
    var a := ProviderAddress(id);
    if s.InUse(a) then Err(AccountAlreadyInUse)
    else if !NameFits(shortName, PROVIDER_NAME_MAX) then Err(AccountDidNotSerialize)
    else Ok(s.(providers := s.providers[a := Provider(id, authority, rt.bumpOf(a), shortName)]))
  }

  /**
   * Account validation creates the provider account, the handler writes it,
   * and the write-back on exit fails when the name overflows its space.
   */
  method Execute(l: Ledger, rt: Runtime, authority: Addr, id: u64, shortName: string) returns (r: Outcome)
    modifies l
    ensures Commits(Apply(rt, old(l.State()), authority, id, shortName), r, old(l.State()), l.State())
  {
    var saved := l.State();
    var a := ProviderAddress(id);
    r := l.CreateProvider(a, Provider(id, authority, rt.bumpOf(a), shortName));
    if r.Failure? {
      return;
    }
    if !NameFits(shortName, PROVIDER_NAME_MAX) {
      l.Revert(saved);
      return Failure(AccountDidNotSerialize);
    }
  }

  lemma PreservesValid(rt: Runtime, s: LedgerState, authority: Addr, id: u64, shortName: string)
    requires Valid(rt, s)
    ensures Apply(rt, s, authority, id, shortName).Ok? ==> Valid(rt, Apply(rt, s, authority, id, shortName).value)
  {
    if Apply(rt, s, authority, id, shortName).Ok? {
      var a := ProviderAddress(id);
      AddProviderKeepsValid(rt, s, a, Provider(id, authority, rt.bumpOf(a), shortName));
    }
  }


  /** A second `init_provider` with the same id fails, whoever signs it. */
  lemma SecondInitFails(rt: Runtime, s: LedgerState, authority: Addr, id: u64, shortName: string,
                        authority': Addr, shortName': string)
    requires Apply(rt, s, authority, id, shortName).Ok?
    ensures Apply(rt, Apply(rt, s, authority, id, shortName).value, authority', id, shortName') == Err(AccountAlreadyInUse)
  {
  }
}
