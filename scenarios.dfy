/**
 * The repository's end-to-end flow on a fresh ledger, for every hash
 * function and bump search: register provider 1 "APEC", add course 1
 * "Blockchain 101", enroll the payer, publish the root of the five-member
 * allow-list (payer and four students), and claim the payer's credential
 * with its sibling path; then the cases the flow implies must fail.
 */
module Scenarios {
  import opened Bytes
  import opened Addresses
  import opened Accounts
  import opened Ledger
  import opened Merkle
  import IP = InitProvider
  import CC = CreateCourse
  import EC = EnrollCourse
  import CP = CreateCertProof
  import CL = ClaimCert

  const PAYER: Addr := Wallet(0)
  const ALLOW_LIST: seq<Addr> := [PAYER, Wallet(1), Wallet(2), Wallet(3), Wallet(4)]
  const PROVIDER: Addr := ProviderAddress(1)
  const COURSE: Addr := CourseAddress(PROVIDER, 1)
  const CERT_PROOF: Addr := CertProofAddress(PROVIDER, COURSE)
  const ENROLLMENT: Addr := EnrollmentAddress(COURSE, PAYER)
  const CREDENTIAL: Addr := CertificateAddress(PROVIDER, COURSE, PAYER)
  const CERT_NAME: string := "Blockchain 101 Certificate"
  const CERT_URI: string := "https://example.com/certificates/blokchain101.json"

  /** The off-chain tree over the hashed keys of the allow-list, pairs sorted at every level. */
  function AllowTree(rt: Runtime): Tree {
    BuildTree(seq(|ALLOW_LIST|, k requires 0 <= k < |ALLOW_LIST| => CL.ClaimerLeaf(rt, ALLOW_LIST[k])))
  }

  function ProviderRecord(rt: Runtime): Provider {
    Provider(1, PAYER, rt.bumpOf(PROVIDER), "APEC")
  }

  function CourseRecord(rt: Runtime): Course {
    Course(1, PROVIDER, rt.bumpOf(COURSE), "Blockchain 101")
  }

  function CommitmentRecord(rt: Runtime): CertProof {
    CertProof(PROVIDER, COURSE, Root(rt.keccak, AllowTree(rt)), 5, 0, rt.bumpOf(CERT_PROOF))
  }

  function AfterInitProvider(rt: Runtime): LedgerState {
    EmptyLedger.(providers := map[PROVIDER := ProviderRecord(rt)])
  }

  function AfterCreateCourse(rt: Runtime): LedgerState {
    AfterInitProvider(rt).(courses := map[COURSE := CourseRecord(rt)])
  }

  function AfterEnroll(rt: Runtime): LedgerState {
    AfterCreateCourse(rt).(
      mints := map[ENROLLMENT := EnrollmentMint(COURSE, ENROLLMENT, CERT_NAME, "BLK101", CERT_URI)],
      tokenAccounts := map[(ENROLLMENT, PAYER) := 1])
  }

  /** The ledger once the course's allow-list is published. */
  function Published(rt: Runtime): LedgerState {
    AfterEnroll(rt).(certProofs := map[CERT_PROOF := CommitmentRecord(rt)])
  }

  lemma InitProviderStep(rt: Runtime)
    ensures IP.Apply(rt, EmptyLedger, PAYER, 1, "APEC") == Ok(AfterInitProvider(rt))
  {
  }

  lemma CreateCourseStep(rt: Runtime)
    ensures CC.Apply(rt, AfterInitProvider(rt), PAYER, PROVIDER, 1, "Blockchain 101") == Ok(AfterCreateCourse(rt))
  {
    AddressKindsDisjoint(1, PROVIDER, 1, PROVIDER, COURSE, PROVIDER, COURSE, PAYER, COURSE, PAYER);
  }

  lemma EnrollStep(rt: Runtime)
    ensures EC.Apply(rt, AfterCreateCourse(rt), PAYER, COURSE, CERT_NAME, "BLK101", CERT_URI) == Ok(AfterEnroll(rt))
  {
    AddressKindsDisjoint(1, PROVIDER, 1, PROVIDER, COURSE, PROVIDER, COURSE, PAYER, COURSE, PAYER);
  }

  lemma PublishStep(rt: Runtime)
    ensures CP.Apply(rt, AfterEnroll(rt), PROVIDER, COURSE, Root(rt.keccak, AllowTree(rt)), 5) == Ok(Published(rt))
  {
    AddressKindsDisjoint(1, PROVIDER, 1, PROVIDER, COURSE, PROVIDER, COURSE, PAYER, COURSE, PAYER);
  }

  /** The first four steps of the flow, each succeeding. */
  method SetUp(rt: Runtime) returns (l: Ledger, outcomes: seq<Outcome>)
    ensures fresh(l)
    ensures l.State() == Published(rt)
    ensures outcomes == [Success, Success, Success, Success]
  {
    l := new Ledger();
    InitProviderStep(rt);
    var initProvider := IP.Execute(l, rt, PAYER, 1, "APEC");
    CreateCourseStep(rt);
    var createCourse := CC.Execute(l, rt, PAYER, PROVIDER, 1, "Blockchain 101");
    EnrollStep(rt);
    var enroll := EC.Execute(l, rt, PAYER, COURSE, CERT_NAME, "BLK101", CERT_URI);
    PublishStep(rt);
    var root := Root(rt.keccak, AllowTree(rt));
    var publish := CP.Execute(l, rt, PROVIDER, COURSE, root, |ALLOW_LIST| as u64);
    outcomes := [initProvider, createCourse, enroll, publish];
  }

  /** On the published ledger, the payer's claim with its sibling path mints the credential. */
  lemma PayerClaimAccepted(rt: Runtime)
    ensures CL.Apply(rt, Published(rt), PAYER, PROVIDER, COURSE, CERT_PROOF, ProofFor(rt.keccak, AllowTree(rt), 0),
                     CERT_NAME, CERT_URI)
         == Ok(Published(rt).(mints := Published(rt).mints[CREDENTIAL := CertificateMint(PROVIDER, CREDENTIAL, CERT_NAME, CERT_URI)],
                              tokenAccounts := Published(rt).tokenAccounts[(CREDENTIAL, PAYER) := 1]))
  {
    AddressKindsDisjoint(1, PROVIDER, 1, PROVIDER, COURSE, PROVIDER, COURSE, PAYER, COURSE, PAYER);
    CL.ListedClaimerEligible(rt, Published(rt), ALLOW_LIST, 0, PROVIDER, COURSE, CERT_PROOF, CERT_NAME, CERT_URI);
  }

  /**
   * Every step of the flow succeeds, the payer ends up holding exactly one
   * credential unit, and claiming a second time is refused as a duplicate.
   */
  method Walkthrough(rt: Runtime) returns (outcomes: seq<Outcome>, holding: nat, retry: Outcome)
    ensures outcomes == [Success, Success, Success, Success, Success]
    ensures holding == 1
    ensures retry == Failure(AccountAlreadyInUse)
  {
    var l, setUp := SetUp(rt);
    var proof := ProofFor(rt.keccak, AllowTree(rt), 0);
    PayerClaimAccepted(rt);
    var claim := CL.Execute(l, rt, PAYER, PROVIDER, COURSE, CERT_PROOF, proof, CERT_NAME, CERT_URI);
    holding := l.tokenAccounts[(CREDENTIAL, PAYER)];
    outcomes := setUp + [claim];
    retry := CL.Execute(l, rt, PAYER, PROVIDER, COURSE, CERT_PROOF, proof, CERT_NAME, CERT_URI);
  }

  /**
   * Only the provider's authority may add a course: another signer is
   * refused by `has_one = authority`, and the ledger is left as it was.
   */
  method StrangerAddsCourse(rt: Runtime) returns (r: Outcome, courses: nat)
    ensures r == Failure(ConstraintHasOne)
    ensures courses == 0
  {
    var l := new Ledger();
    var _ := IP.Execute(l, rt, PAYER, 1, "APEC");
    AddressKindsDisjoint(1, PROVIDER, 1, PROVIDER, PROVIDER, PROVIDER, PROVIDER, PROVIDER, PROVIDER, PROVIDER);
    r := CC.Execute(l, rt, Wallet(7), PROVIDER, 1, "Blockchain 101");
    courses := |l.courses|;
  }
}
