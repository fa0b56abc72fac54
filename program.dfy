/**
 * The program's five entry points as one instruction type, their dispatch,
 * and what holds over any sequence of this program's instructions: the
 * ledger invariant, append-only accounts (a published root is never
 * rewritten, an issued token never changes) and at most one credential per
 * claimer and commitment. Token operations a holder makes directly with
 * the token program are not instructions of this program.
 */
module Program {
  import opened Bytes
  import opened Addresses
  import opened Accounts
  import opened Ledger
  import opened Merkle
  import IP = InitProvider
  import CC = CreateCourse
  import EC = EnrollCourse
  import CP = CreateCertProof
  import CL = ClaimCert

  /** One transaction: an instruction, its signer and its accounts and arguments. */
  datatype Instruction =
    | InitProvider(authority: Addr, id: u64, shortName: string)
    | CreateCourse(authority: Addr, provider: Addr, id: u64, shortName: string)
    | EnrollCourse(user: Addr, course: Addr, name: string, symbol: string, uri: string)
    | CreateCertProof(provider: Addr, course: Addr, root: Hash, total: u64)
    | ClaimCert(claimer: Addr, provider: Addr, course: Addr, certProof: Addr,
                proof: seq<Hash>, name: string, uri: string)

  /** The effect of one transaction. */
  function Step(rt: Runtime, s: LedgerState, ix: Instruction): Result<LedgerState>
  {
    match ix
    case InitProvider(authority, id, shortName) => IP.Apply(rt, s, authority, id, shortName)
    case CreateCourse(authority, p, id, shortName) => CC.Apply(rt, s, authority, p, id, shortName)
    case EnrollCourse(user, c, name, symbol, uri) => EC.Apply(rt, s, user, c, name, symbol, uri)
    case CreateCertProof(p, c, root, total) => CP.Apply(rt, s, p, c, root, total)
    case ClaimCert(claimer, p, c, cp, proof, name, uri) => CL.Apply(rt, s, claimer, p, c, cp, proof, name, uri)
  }

  /** The ledger after a sequence of transactions; a failed one leaves no trace. */
  function Run(rt: Runtime, s: LedgerState, txs: seq<Instruction>): LedgerState
    decreases |txs|
  {
    if txs == [] then s
    else
      var r := Step(rt, s, txs[0]);
      Run(rt, if r.Ok? then r.value else s, txs[1..])
  }

  /** The program entry point: dispatches a transaction to its instruction. */
  method Process(l: Ledger, rt: Runtime, ix: Instruction) returns (r: Outcome)
    modifies l
    ensures Commits(Step(rt, old(l.State()), ix), r, old(l.State()), l.State())
  {
    match ix
    case InitProvider(authority, id, shortName) =>
      r := IP.Execute(l, rt, authority, id, shortName);
    case CreateCourse(authority, p, id, shortName) =>
      r := CC.Execute(l, rt, authority, p, id, shortName);
    case EnrollCourse(user, c, name, symbol, uri) =>
      r := EC.Execute(l, rt, user, c, name, symbol, uri);
    case CreateCertProof(p, c, root, total) =>
      r := CP.Execute(l, rt, p, c, root, total);
    case ClaimCert(claimer, p, c, cp, proof, name, uri) =>
      r := CL.Execute(l, rt, claimer, p, c, cp, proof, name, uri);
  }

  lemma StepPreservesValid(rt: Runtime, s: LedgerState, ix: Instruction)
    requires Valid(rt, s)
    ensures Step(rt, s, ix).Ok? ==> Valid(rt, Step(rt, s, ix).value)
  {
    match ix
    case InitProvider(authority, id, shortName) => IP.PreservesValid(rt, s, authority, id, shortName);
    case CreateCourse(authority, p, id, shortName) => CC.PreservesValid(rt, s, authority, p, id, shortName);
    case EnrollCourse(user, c, name, symbol, uri) => EC.PreservesValid(rt, s, user, c, name, symbol, uri);
    case CreateCertProof(p, c, root, total) => CP.PreservesValid(rt, s, p, c, root, total);
    case ClaimCert(claimer, p, c, cp, proof, name, uri) => CL.PreservesValid(rt, s, claimer, p, c, cp, proof, name, uri);
  }

  /** Every ledger reachable from the empty one satisfies the invariant. */
  lemma {:induction false} RunPreservesValid(rt: Runtime, s: LedgerState, txs: seq<Instruction>)
    requires Valid(rt, s)
    ensures Valid(rt, Run(rt, s, txs))
    decreases |txs|
  {
    if txs != [] {
      var r := Step(rt, s, txs[0]);
      StepPreservesValid(rt, s, txs[0]);
      RunPreservesValid(rt, if r.Ok? then r.value else s, txs[1..]);
    }
  }

  lemma ReachableValid(rt: Runtime, txs: seq<Instruction>)
    ensures Valid(rt, Run(rt, EmptyLedger, txs))
  {
    EmptyLedgerValid(rt);
    RunPreservesValid(rt, EmptyLedger, txs);
  }

  /** `s'` keeps every account of `s` exactly as it was. */
  ghost predicate Grows(s: LedgerState, s': LedgerState) {
    && Extends(s.providers, s'.providers)
    && Extends(s.courses, s'.courses)
    && Extends(s.certProofs, s'.certProofs)
    && Extends(s.mints, s'.mints)
    && Extends(s.tokenAccounts, s'.tokenAccounts)
  }

  lemma StepGrows(rt: Runtime, s: LedgerState, ix: Instruction)
    ensures Step(rt, s, ix).Ok? ==> Grows(s, Step(rt, s, ix).value)
  {
  }

  lemma GrowsTransitive(s: LedgerState, s': LedgerState, s'': LedgerState)
    requires Grows(s, s') && Grows(s', s'')
    ensures Grows(s, s'')
  {
  }

  /**
   * No instruction edits or removes an account: providers, courses and
   * published commitments (root and total) keep their fields, and issued
   * tokens their supply, authorities, metadata and holder.
   */
  lemma {:induction false} RunGrows(rt: Runtime, s: LedgerState, txs: seq<Instruction>)
    ensures Grows(s, Run(rt, s, txs))
    decreases |txs|
  {
    if txs != [] {
      var r := Step(rt, s, txs[0]);
      var next := if r.Ok? then r.value else s;
      StepGrows(rt, s, txs[0]);
      RunGrows(rt, next, txs[1..]);
      GrowsTransitive(s, next, Run(rt, next, txs[1..]));
    }
  }

  /** `RunGrows` specialised to one published commitment. */
  lemma CommitmentImmutable(rt: Runtime, s: LedgerState, txs: seq<Instruction>, cp: Addr)
    requires cp in s.certProofs
    ensures cp in Run(rt, s, txs).certProofs
    ensures Run(rt, s, txs).certProofs[cp] == s.certProofs[cp]
  {
    RunGrows(rt, s, txs);
  }

  /**
   * At most one credential per (commitment, claimer): after a successful
   * claim, no later transaction history lets the same claimer claim under
   * the same commitment again, whatever provider, course, proof and
   * metadata are passed.
   */
  lemma ClaimAtMostOnce(rt: Runtime, s: LedgerState, claimer: Addr, p: Addr, c: Addr, cp: Addr,
                        proof: seq<Hash>, name: string, uri: string,
                        txs: seq<Instruction>, p': Addr, c': Addr, proof': seq<Hash>, name': string, uri': string)
    requires CL.Apply(rt, s, claimer, p, c, cp, proof, name, uri).Ok?
    ensures
      var later := Run(rt, CL.Apply(rt, s, claimer, p, c, cp, proof, name, uri).value, txs);
      CL.Apply(rt, later, claimer, p', c', cp, proof', name', uri').Err?
  {
    var s1 := CL.Apply(rt, s, claimer, p, c, cp, proof, name, uri).value;
    RunGrows(rt, s1, txs);
    var later := Run(rt, s1, txs);
    assert CL.CredentialAddress(s.certProofs[cp], claimer) in s1.mints;
    assert later.certProofs[cp] == s1.certProofs[cp] == s.certProofs[cp];
  }

  /** At most one enrollment token per (course, user), whatever happens in between. */
  lemma EnrollAtMostOnce(rt: Runtime, s: LedgerState, user: Addr, c: Addr, name: string, symbol: string, uri: string,
                         txs: seq<Instruction>, name': string, symbol': string, uri': string)
    requires EC.Apply(rt, s, user, c, name, symbol, uri).Ok?
    ensures
      var later := Run(rt, EC.Apply(rt, s, user, c, name, symbol, uri).value, txs);
      EC.Apply(rt, later, user, c, name', symbol', uri').Err?
  {
    var s1 := EC.Apply(rt, s, user, c, name, symbol, uri).value;
    RunGrows(rt, s1, txs);
    assert EnrollmentAddress(c, user) in s1.mints;
  }
}
