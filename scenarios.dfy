/** End-to-end runs of the service layer on a fresh store, as the test suites
    drive it. Each one is proved from the contracts of the operations alone. */
module Scenarios {
  import opened Records
  import opened Store
  import UserDao
  import opened UserService

  /** Link an account, issue "5566", verify twice (the second, stale-code
      replay succeeds as well), then issue "7788": the old code is refused. */
  method VerificationReplay() returns (first: Response, replay: Response, afterReissue: Response)
    ensures first == Ok(Message("Bank account verified"))
    ensures replay == first
    ensures afterReissue == Fail("Invalid verification code", 400)
  {
    var db := new Database();
    var registered := RegisterUser(db, "1234567895", "password");
    var userId := registered.body.userId;
    var accountId := db.nextBankAccountId;
    var linked := LinkBankAccount(db, userId, "999", "4321");
    var issued := SetVerificationCode(db, accountId, Some("5566"));
    first := VerifyBankAccount(db, accountId, Some("5566"));
    replay := VerifyBankAccount(db, accountId, Some("5566"));
    issued := SetVerificationCode(db, accountId, Some("7788"));
    afterReissue := VerifyBankAccount(db, accountId, Some("5566"));
  }

  /** A freshly linked account has no code, so a verify request without a
      code field verifies it; an unknown account is refused with 400. */
  method VerifyWithoutCode() returns (unset: Response, unknown: Response)
    ensures unset == Ok(Message("Bank account verified"))
    ensures unknown == Fail("Invalid verification code", 400)
  {
    var db := new Database();
    var registered := RegisterUser(db, "1234567899", "password");
    var accountId := db.nextBankAccountId;
    var linked := LinkBankAccount(db, registered.body.userId, "123456789", "1234");
    assert accountId in db.bankAccounts && db.bankAccounts[accountId].verificationCode.None?;
    unset := VerifyBankAccount(db, accountId, None);
    assert accountId + 1 !in db.bankAccounts;
    unknown := VerifyBankAccount(db, accountId + 1, Some("123456"));
  }

  /** Two KYC initiations for one user give two distinct pending cases, and
      both stay stored. */
  method KycTwice() returns (userId: nat, first: Response, second: Response, cases: map<nat, KycVerification>)
    ensures first.Ok? && second.Ok? && first.body.WithVerificationId? && second.body.WithVerificationId?
    ensures first.body.verificationId != second.body.verificationId
    ensures first.body.verificationId in cases && second.body.verificationId in cases
    ensures cases[first.body.verificationId].verificationStatus == PendingStatus
    ensures cases[second.body.verificationId].verificationStatus == PendingStatus
    ensures cases[first.body.verificationId].userId == userId
    ensures cases[second.body.verificationId].userId == userId
  {
    var db := new Database();
    var registered := RegisterUser(db, "1234567897", "password");
    userId := registered.body.userId;
    first := InitiateKycVerification(db, userId);
    second := InitiateKycVerification(db, userId);
    cases := db.kycVerifications;
  }

  /** Two ledger accounts of 100 and 200 give a total of 300 for their owner
      and 0 for another user. */
  method TotalOfTwoAccounts() returns (owner: Response, other: Response)
    ensures owner == Ok(TotalBalance(300))
    ensures other == Ok(TotalBalance(0))
  {
    var db := new Database();
    var registered := RegisterUser(db, "1234567894", "password");
    var userId := registered.body.userId;
    var accounts0 := db.accounts;
    var a1 := db.AddLedgerAccount(userId, 100);
    var accounts1 := db.accounts;
    var a2 := db.AddLedgerAccount(userId, 200);
    UserDao.TotalAfterInsert(accounts0, a1, userId);
    UserDao.TotalAfterInsert(accounts1, a2, userId);
    UserDao.TotalAfterInsert(accounts0, a1, userId + 1);
    UserDao.TotalAfterInsert(accounts1, a2, userId + 1);
    assert UserDao.Owned(accounts0, userId) == map[] == UserDao.Owned(accounts0, userId + 1);
    owner := GetTotalAccountBalance(db, userId);
    other := GetTotalAccountBalance(db, userId + 1);
  }

  /** A user "testuser2" with civil ID "12" signs in with suffix "12" but not
      with "34"; a registered user without a civil ID makes civil-ID
      authentication raise, and an unknown user is refused with 401. The
      sign-in carries the id of the fixture user. */
  method CivilIdChecks() returns (userId: nat, signedIn: Response, wrongSuffix: Response, noCivilId: Response,
                                  unknown: Response)
    ensures signedIn == Ok(WithUserId("Sign in successful", userId))
    ensures wrongSuffix == Fail("Invalid credentials", 401)
    ensures noCivilId.Raised?
    ensures unknown == Fail(AuthenticationFailed, 401)
  {
    var db := new Database();
    var u := db.AddUserRow(Some("testuser2"), Some("12"), "12345678911230", "password");
    userId := u.id;
    assert db.users == map[userId := u];
    assert UserDao.EndsWith("12", "12");
    assert !UserDao.EndsWith("12", "34");
    signedIn := SignIn(db, Some("testuser2"), Some("12"));
    wrongSuffix := SignIn(db, Some("testuser2"), Some("34"));
    var registered := RegisterUser(db, "1234567896", "password");
    noCivilId := AuthenticateWithCivilId(db, registered.body.userId, Some("12"));
    unknown := AuthenticateWithCivilId(db, db.nextUserId, Some("12"));
  }
}
