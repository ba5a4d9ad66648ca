/** The know-your-customer data-access layer (app/dao/kyc_dao.py). */
module KycDao {
  import opened Records
  import opened Store

  /** create_kyc_verification: stores one new case for the user under a fresh
      id, pending and without document or biometric reference, and returns it.
      It never fails and does not check that the user exists; earlier cases
      of the same user stay stored. */
  method CreateKycVerification(db: Database, userId: nat) returns (k: KycVerification)
    requires db.Valid()
    modifies db`kycVerifications, db`nextKycId
    ensures db.Valid()
    ensures k.id == old(db.nextKycId) && k.id !in old(db.kycVerifications)
    ensures db.kycVerifications == old(db.kycVerifications)[k.id := k]
    ensures k == KycVerification(k.id, userId, PendingStatus, None, None)
  {
    k := KycVerification(db.nextKycId, userId, PendingStatus, None, None);
    db.kycVerifications := db.kycVerifications[k.id := k];
    db.nextKycId := db.nextKycId + 1;
  }
}
