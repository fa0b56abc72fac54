/**
 * The ledger as a mutable object: the account maps that instructions
 * update in place, the revert the runtime performs when a transaction
 * fails, and the Token-2022 / Associated Token program calls the program
 * makes, each as the map update it performs.
 */
module Ledger {
  import opened Addresses
  import opened Accounts

  class Ledger {
    var providers: map<Addr, Provider>
    var courses: map<Addr, Course>
    var certProofs: map<Addr, CertProof>
    var mints: map<Addr, Mint>
    var tokenAccounts: map<(Addr, Addr), nat>

    constructor ()
      ensures State() == EmptyLedger
    {
      providers, courses, certProofs, mints, tokenAccounts := map[], map[], map[], map[], map[];
    }

    /** The accounts as a value. */
    function State(): LedgerState
      reads this
    {
      LedgerState(providers, courses, certProofs, mints, tokenAccounts)
    }

    predicate InUse(a: Addr)
      reads this
    {
      State().InUse(a)
    }

    /** The runtime discards every account write of a failed transaction. */
    method Revert(saved: LedgerState)
      modifies this
      ensures State() == saved
    {
      providers, courses, certProofs := saved.providers, saved.courses, saved.certProofs;
      mints, tokenAccounts := saved.mints, saved.tokenAccounts;
    }

    /**
     * An `init` provider account at `a` together with the handler's
     * `set_inner`: fails if an account is already there, else holds `record`.
     */
    method CreateProvider(a: Addr, record: Provider) returns (r: Outcome)
      modifies this
      ensures old(InUse(a)) ==> r == Failure(AccountAlreadyInUse) && State() == old(State())
      ensures !old(InUse(a)) ==> r == Success && State() == old(State()).(providers := old(providers)[a := record])
    {
      if InUse(a) {
        return Failure(AccountAlreadyInUse);
      }
      providers := providers[a := record];
      r := Success;
    }

    /** An `init` course account at `a` with its record written. */
    method CreateCourse(a: Addr, record: Course) returns (r: Outcome)
      modifies this
      ensures old(InUse(a)) ==> r == Failure(AccountAlreadyInUse) && State() == old(State())
      ensures !old(InUse(a)) ==> r == Success && State() == old(State()).(courses := old(courses)[a := record])
    {
      if InUse(a) {
        return Failure(AccountAlreadyInUse);
      }
      courses := courses[a := record];
      r := Success;
    }

    /** An `init` commitment account at `a` with its record written. */
    method CreateCertProof(a: Addr, record: CertProof) returns (r: Outcome)
      modifies this
      ensures old(InUse(a)) ==> r == Failure(AccountAlreadyInUse) && State() == old(State())
      ensures !old(InUse(a)) ==> r == Success && State() == old(State()).(certProofs := old(certProofs)[a := record])
    {
      if InUse(a) {
        return Failure(AccountAlreadyInUse);
      }
      certProofs := certProofs[a := record];
      r := Success;
    }

    /**
     * An `init` mint account: created at `a` unless an account is already
     * there, with supply 0 and the given authorities and metadata pointer.
     */
    method CreateMint(a: Addr, decimals: nat, mintAuthority: Addr, closeAuthority: Addr,
                      pointerAuthority: Addr, metadataAddress: Addr) returns (r: Outcome)
      modifies this
      ensures old(InUse(a)) ==> r == Failure(AccountAlreadyInUse) && State() == old(State())
      ensures !old(InUse(a)) ==>
        && r == Success
        && State() == old(State()).(mints := old(mints)[a := Mint(0, decimals, Some(mintAuthority), closeAuthority,
                                                              pointerAuthority, metadataAddress, None)])
    {
      if InUse(a) {
        return Failure(AccountAlreadyInUse);
      }
      mints := mints[a := Mint(0, decimals, Some(mintAuthority), closeAuthority, pointerAuthority, metadataAddress, None)];
      r := Success;
    }

    /** An `init` associated token account for (`mint`, `owner`), holding nothing. */
    method CreateTokenAccount(mint: Addr, owner: Addr) returns (r: Outcome)
      requires mint in mints
      modifies this
      ensures old((mint, owner) in tokenAccounts) ==> r == Failure(AccountAlreadyInUse) && State() == old(State())
      ensures old((mint, owner) !in tokenAccounts) ==>
        r == Success && State() == old(State()).(tokenAccounts := old(tokenAccounts)[(mint, owner) := 0])
    {
      if (mint, owner) in tokenAccounts {
        return Failure(AccountAlreadyInUse);
      }
      tokenAccounts := tokenAccounts[(mint, owner) := 0];
      r := Success;
    }

    /**
     * What both minting handlers do once the accounts are validated, each
     * call signed by the mint authority: write the metadata, mint one unit
     * to the holder and revoke the mint authority.
     */
    method IssueUnit(mint: Addr, owner: Addr, signer: Addr, updateAuthority: Addr,
                     name: string, symbol: string, uri: string)
      requires mint in mints && mints[mint].mintAuthority == Some(signer)
      requires (mint, owner) in tokenAccounts
      modifies this
      ensures State() == old(State()).(
        mints := old(mints)[mint := old(mints)[mint].(
          supply := old(mints)[mint].supply + 1,
          mintAuthority := None,
          metadata := Some(Metadata(updateAuthority, name, symbol, uri)))],
        tokenAccounts := old(tokenAccounts)[(mint, owner) := old(tokenAccounts)[(mint, owner)] + 1])
    {
      InitializeMetadata(mint, signer, updateAuthority, name, symbol, uri);
      MintTo(mint, owner, 1, signer);
      RevokeMintAuthority(mint, signer);
    }

    /** `token_metadata_initialize`, signed by the mint authority. */
    method InitializeMetadata(mint: Addr, signer: Addr, updateAuthority: Addr, name: string, symbol: string, uri: string)
      requires mint in mints && mints[mint].mintAuthority == Some(signer)
      modifies this
      ensures State() == old(State()).(mints := old(mints)[mint := old(mints)[mint].(metadata := Some(Metadata(updateAuthority, name, symbol, uri)))])
    {
      mints := mints[mint := mints[mint].(metadata := Some(Metadata(updateAuthority, name, symbol, uri)))];
    }

    /** `mint_to`, signed by the mint authority: supply and balance grow by `amount`. */
    method MintTo(mint: Addr, owner: Addr, amount: nat, signer: Addr)
      requires mint in mints && mints[mint].mintAuthority == Some(signer)
      requires (mint, owner) in tokenAccounts
      modifies this
      ensures State() == old(State()).(
        mints := old(mints)[mint := old(mints)[mint].(supply := old(mints)[mint].supply + amount)],
        tokenAccounts := old(tokenAccounts)[(mint, owner) := old(tokenAccounts)[(mint, owner)] + amount])
    {
      mints := mints[mint := mints[mint].(supply := mints[mint].supply + amount)];
      tokenAccounts := tokenAccounts[(mint, owner) := tokenAccounts[(mint, owner)] + amount];
    }

    /** `set_authority(MintTokens, None)`, signed by the mint authority. */
    method RevokeMintAuthority(mint: Addr, signer: Addr)
      requires mint in mints && mints[mint].mintAuthority == Some(signer)
      modifies this
      ensures State() == old(State()).(mints := old(mints)[mint := old(mints)[mint].(mintAuthority := None)])
    {
      mints := mints[mint := mints[mint].(mintAuthority := None)];
    }
  }
}
