/**
 * Account addresses and the program-derived addresses (PDAs) of the five
 * account kinds the program creates.
 *
 * A PDA is a deterministic function of its seed list; here it is the
 * datatype constructor `Pda` itself, so derivation is injective by
 * construction (two addresses are equal exactly when their seed lists are)
 * and never coincides with a `Wallet`, an ordinary keypair address. The bump
 * byte the runtime searches for is not part of the address; it is given by
 * `Runtime.bumpOf` in the Accounts module.
 */
module Addresses {
  import opened Bytes

  datatype Addr = Wallet(id: nat) | Pda(seeds: seq<Seed>)

  /** One seed slice: literal bytes, or the 32 bytes of an account key. */
  datatype Seed = Raw(bytes: seq<byte>) | KeyOf(key: Addr)

  /** The bytes of an ASCII string literal, as `b"..."` gives them. */
  function Ascii(s: string): (r: seq<byte>)
    requires forall i | 0 <= i < |s| :: s[i] as int < 128
    ensures |r| == |s|
    ensures forall i | 0 <= i < |s| :: r[i] == s[i] as int
  {
    seq(|s|, i requires 0 <= i < |s| => s[i] as int)
  }

  const PROVIDER_SEED: seq<byte> := Ascii("provider")
  const COURSE_SEED: seq<byte> := Ascii("course")
  const CERTIFICATE_SEED: seq<byte> := Ascii("certificate")
  const ENROLLMENT_SEED: seq<byte> := Ascii("enrollment")
  const CERT_PROOF_SEED: seq<byte> := Ascii("cert_proof")

  /** seeds = [PROVIDER_SEED, id.to_le_bytes()] */
  function ProviderAddress(id: u64): Addr
  {
    Pda([Raw(PROVIDER_SEED), Raw(ToLeBytes(id))])
  }

  /** seeds = [COURSE_SEED, provider key, id.to_le_bytes()] */
  function CourseAddress(provider: Addr, id: u64): Addr
  {
    Pda([Raw(COURSE_SEED), KeyOf(provider), Raw(ToLeBytes(id))])
  }

  /** seeds = [CERT_PROOF_SEED, provider key, course key] */
  function CertProofAddress(provider: Addr, course: Addr): Addr
  {
    Pda([Raw(CERT_PROOF_SEED), KeyOf(provider), KeyOf(course)])
  }

  /** seeds = [CERTIFICATE_SEED, cert_proof.provider, cert_proof.course, claimer key] */
  function CertificateAddress(provider: Addr, course: Addr, claimer: Addr): Addr
  {
    Pda([Raw(CERTIFICATE_SEED), KeyOf(provider), KeyOf(course), KeyOf(claimer)])
  }

  /** seeds = [ENROLLMENT_SEED, course key, user key] */
  function EnrollmentAddress(course: Addr, user: Addr): Addr
  {
    Pda([Raw(ENROLLMENT_SEED), KeyOf(course), KeyOf(user)])
  }

  /** The five seed tags are pairwise distinct. */
  lemma SeedTagsDistinct()
    ensures PROVIDER_SEED != COURSE_SEED && PROVIDER_SEED != CERTIFICATE_SEED
    ensures PROVIDER_SEED != ENROLLMENT_SEED && PROVIDER_SEED != CERT_PROOF_SEED
    ensures COURSE_SEED != CERTIFICATE_SEED && COURSE_SEED != ENROLLMENT_SEED
    ensures COURSE_SEED != CERT_PROOF_SEED && CERTIFICATE_SEED != ENROLLMENT_SEED
    ensures CERTIFICATE_SEED != CERT_PROOF_SEED && ENROLLMENT_SEED != CERT_PROOF_SEED
  {
    assert |PROVIDER_SEED| == 8 && |COURSE_SEED| == 6 && |CERTIFICATE_SEED| == 11;
    assert |ENROLLMENT_SEED| == 10 && |CERT_PROOF_SEED| == 10;
    assert ENROLLMENT_SEED[0] != CERT_PROOF_SEED[0];
  }

  /** Addresses of different account kinds never collide. */
  lemma AddressKindsDisjoint(i: u64, p: Addr, j: u64, q: Addr, c: Addr, r: Addr, d: Addr, u: Addr, e: Addr, v: Addr)
    ensures ProviderAddress(i) != CourseAddress(p, j)
    ensures ProviderAddress(i) != CertProofAddress(q, c)
    ensures ProviderAddress(i) != CertificateAddress(r, d, u)
    ensures ProviderAddress(i) != EnrollmentAddress(e, v)
    ensures CourseAddress(p, j) != CertProofAddress(q, c)
    ensures CourseAddress(p, j) != CertificateAddress(r, d, u)
    ensures CourseAddress(p, j) != EnrollmentAddress(e, v)
    ensures CertProofAddress(q, c) != CertificateAddress(r, d, u)
    ensures CertProofAddress(q, c) != EnrollmentAddress(e, v)
    ensures CertificateAddress(r, d, u) != EnrollmentAddress(e, v)
  {
    SeedTagsDistinct();
  }

  /** One provider per id: a second `init_provider` with the same id targets the same address. */
  lemma ProviderAddressInjective(i: u64, j: u64)
    ensures ProviderAddress(i) == ProviderAddress(j) <==> i == j
  {
    ToLeBytesInjective(i, j);
    if ProviderAddress(i) == ProviderAddress(j) {
      assert ProviderAddress(i).seeds[1] == ProviderAddress(j).seeds[1];
    }
  }

  /**
   * Course ids are scoped by their provider: the same id under two providers
   * gives two addresses, and one provider cannot reuse an id.
   */
  lemma CourseAddressInjective(p: Addr, i: u64, q: Addr, j: u64)
    ensures CourseAddress(p, i) == CourseAddress(q, j) <==> p == q && i == j
  {
    ToLeBytesInjective(i, j);
    if CourseAddress(p, i) == CourseAddress(q, j) {
      assert CourseAddress(p, i).seeds[1] == CourseAddress(q, j).seeds[1];
      assert CourseAddress(p, i).seeds[2] == CourseAddress(q, j).seeds[2];
    }
  }

  /** One commitment per (provider, course) pair. */
  lemma CertProofAddressInjective(p: Addr, c: Addr, q: Addr, d: Addr)
    ensures CertProofAddress(p, c) == CertProofAddress(q, d) <==> p == q && c == d
  {
    if CertProofAddress(p, c) == CertProofAddress(q, d) {
      assert CertProofAddress(p, c).seeds[1] == CertProofAddress(q, d).seeds[1];
      assert CertProofAddress(p, c).seeds[2] == CertProofAddress(q, d).seeds[2];
    }
  }

  /** A credential address is never one of the keys it is derived from. */
  lemma CertificateAddressNotSeed(p: Addr, c: Addr, u: Addr)
    ensures CertificateAddress(p, c, u) != u
    ensures CertificateAddress(p, c, u) != p && CertificateAddress(p, c, u) != c
  {
    assert KeyOf(p) in CertificateAddress(p, c, u).seeds;
    assert KeyOf(c) in CertificateAddress(p, c, u).seeds;
    assert KeyOf(u) in CertificateAddress(p, c, u).seeds;
  }

  /** One credential mint per (provider, course, claimer) triple. */
  lemma CertificateAddressInjective(p: Addr, c: Addr, u: Addr, q: Addr, d: Addr, v: Addr)
    ensures CertificateAddress(p, c, u) == CertificateAddress(q, d, v) <==> p == q && c == d && u == v
  {
    if CertificateAddress(p, c, u) == CertificateAddress(q, d, v) {
      assert CertificateAddress(p, c, u).seeds[1] == CertificateAddress(q, d, v).seeds[1];
      assert CertificateAddress(p, c, u).seeds[2] == CertificateAddress(q, d, v).seeds[2];
      assert CertificateAddress(p, c, u).seeds[3] == CertificateAddress(q, d, v).seeds[3];
    }
  }

  /** One enrollment mint per (course, user) pair. */
  lemma EnrollmentAddressInjective(c: Addr, u: Addr, d: Addr, v: Addr)
    ensures EnrollmentAddress(c, u) == EnrollmentAddress(d, v) <==> c == d && u == v
  {
    if EnrollmentAddress(c, u) == EnrollmentAddress(d, v) {
      assert EnrollmentAddress(c, u).seeds[1] == EnrollmentAddress(d, v).seeds[1];
      assert EnrollmentAddress(c, u).seeds[2] == EnrollmentAddress(d, v).seeds[2];
    }
  }
}
