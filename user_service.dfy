/** The service layer (app/services/user_service.py): every operation makes
    one data-access call and turns "no row" into a fixed message and status.
    Operations that only read are functions of the store; operations whose
    data-access call changes the store are methods. */
module UserService {
  import opened Records
  import opened Store
  import UserDao
  import KycDao

  /** The JSON body of a successful response (answered with status 200). */
  datatype Body =
    | Message(message: string)
    | WithUserId(message: string, userId: nat)
    | WithUsername(message: string, username: Option<string>)
    | WithVerificationId(message: string, verificationId: nat)
    | TotalBalance(totalBalance: int)

  /** What an operation hands back to the routing layer: a success body, an
      error message with its status, or an exception the operation raises. */
  datatype Response =
    | Ok(body: Body)
    | Fail(message: string, status: nat)
    | Raised(exception: string)

  const UserNotFound: string := "User not found"
  const AuthenticationFailed: string := "Authentication failed"

  /** sign_in: succeeds with the found user's id exactly when some user has
      that username and a civil ID ending with the suffix; otherwise 401. */
  function SignIn(db: Database, username: Option<string>, civilIdLastTwo: Option<string>): (r: Response)
    requires db.Valid()
    reads db
    ensures r.Ok? <==>
      exists k :: k in db.users && UserDao.Matches(db.users[k], UserDao.ByCredentials(username, civilIdLastTwo))
    ensures r.Ok? ==>
      && r.body.WithUserId? && r.body.message == "Sign in successful"
      && r.body.userId in db.users
      && UserDao.Matches(db.users[r.body.userId], UserDao.ByCredentials(username, civilIdLastTwo))
    ensures !r.Ok? ==> r == Fail("Invalid credentials", 401)
  {
    match UserDao.FindUserByUsernameAndCivilId(db, username, civilIdLastTwo)
    case Some(u) => Ok(WithUserId("Sign in successful", u.id))
    case None => Fail("Invalid credentials", 401)
  }

  /** register_user: always succeeds with the id of the user it creates. */
  method RegisterUser(db: Database, phoneNumber: string, password: string) returns (r: Response)
    requires db.Valid()
    requires forall k :: k in db.users ==> db.users[k].phoneNumber != phoneNumber
    modifies db`users, db`nextUserId
    ensures db.Valid()
    ensures r.Ok? && r.body.WithUserId? && r.body.message == "User registered successfully"
    ensures r.body.userId !in old(db.users)
    ensures db.users == old(db.users)[r.body.userId := User(r.body.userId, None, None, phoneNumber, password, false, None, None)]
    ensures UserDao.FindUserByPhone(db, Some(phoneNumber)) == Some(db.users[r.body.userId])
  {
    var u := UserDao.CreateUser(db, phoneNumber, password);
    r := Ok(WithUserId("User registered successfully", u.id));
  }

  /** accept_terms: 404 exactly when the user is unknown; otherwise the
      user's terms flag is set. */
  method AcceptTerms(db: Database, userId: nat) returns (r: Response)
    requires db.Valid()
    modifies db`users
    ensures db.Valid()
    ensures r == if userId in old(db.users) then Ok(Message("Terms and conditions accepted"))
                 else Fail(UserNotFound, 404)
    ensures userId !in old(db.users) ==> db.users == old(db.users)
    ensures userId in old(db.users) ==>
      db.users == old(db.users)[userId := old(db.users)[userId].(termsAccepted := true)]
  {
    var u := UserDao.UpdateTermsAccepted(db, userId, true);
    if u.Some? {
      r := Ok(Message("Terms and conditions accepted"));
    } else {
      r := Fail(UserNotFound, 404);
    }
  }

  /** link_bank_account: 404 exactly when the user is unknown; otherwise one
      unverified account without a code is linked to the user. */
  method LinkBankAccount(db: Database, userId: nat, accountNumber: string, debitCardLastFour: string)
    returns (r: Response)
    requires db.Valid()
    modifies db`bankAccounts, db`nextBankAccountId
    ensures db.Valid()
    ensures r == if userId in db.users then Ok(Message("Bank account linked successfully"))
                 else Fail(UserNotFound, 404)
    ensures userId !in db.users ==> db.bankAccounts == old(db.bankAccounts)
    ensures userId in db.users ==>
      var id := old(db.nextBankAccountId);
      && id !in old(db.bankAccounts)
      && db.bankAccounts == old(db.bankAccounts)[id := BankAccount(id, userId, accountNumber, debitCardLastFour, None, false)]
  {
    var b := UserDao.AddBankAccount(db, userId, accountNumber, debitCardLastFour);
    if b.Some? {
      r := Ok(Message("Bank account linked successfully"));
    } else {
      r := Fail(UserNotFound, 404);
    }
  }

  /** set_verification_code: 404 exactly when the bank account is unknown;
      otherwise its code is overwritten. */
  method SetVerificationCode(db: Database, bankAccountId: nat, code: Option<string>) returns (r: Response)
    requires db.Valid()
    modifies db`bankAccounts
    ensures db.Valid()
    ensures r == if bankAccountId in old(db.bankAccounts) then Ok(Message("Verification code set"))
                 else Fail("Bank account not found", 404)
    ensures db.bankAccounts == UserDao.WithVerificationCode(old(db.bankAccounts), bankAccountId, code)
  {
    var b := UserDao.SetVerificationCode(db, bankAccountId, code);
    if b.Some? {
      r := Ok(Message("Verification code set"));
    } else {
      r := Fail("Bank account not found", 404);
    }
  }

  /** verify_bank_account: succeeds exactly when the stored code matches;
      every other outcome, an unknown account included, is 400. */
  method VerifyBankAccount(db: Database, bankAccountId: nat, code: Option<string>) returns (r: Response)
    requires db.Valid()
    modifies db`bankAccounts
    ensures db.Valid()
    ensures r.Ok? <==> UserDao.AfterVerification(old(db.bankAccounts), bankAccountId, code).Some?
    ensures r.Ok? ==>
      && r == Ok(Message("Bank account verified"))
      && db.bankAccounts == UserDao.AfterVerification(old(db.bankAccounts), bankAccountId, code).value
    ensures !r.Ok? ==> r == Fail("Invalid verification code", 400) && db.bankAccounts == old(db.bankAccounts)
    ensures bankAccountId !in old(db.bankAccounts) ==> r == Fail("Invalid verification code", 400)
  {
    var b := UserDao.VerifyBankAccount(db, bankAccountId, code);
    if b.Some? {
      r := Ok(Message("Bank account verified"));
    } else {
      r := Fail("Invalid verification code", 400);
    }
  }

  /** authenticate_with_civil_id: succeeds exactly when the user exists and
      its civil ID ends with the suffix; an unknown user is 401. A known user
      without a civil ID raises (no `endswith` on None), and so does an absent
      suffix (`endswith` rejects None). */
  function AuthenticateWithCivilId(db: Database, userId: nat, civilIdLastTwo: Option<string>): (r: Response)
    requires db.Valid()
    reads db
    ensures userId !in db.users ==> r == Fail(AuthenticationFailed, 401)
    ensures r.Ok? <==>
      && userId in db.users
      && db.users[userId].civilId.Some? && civilIdLastTwo.Some?
      && UserDao.EndsWith(db.users[userId].civilId.value, civilIdLastTwo.value)
    ensures r.Raised? <==> userId in db.users && (db.users[userId].civilId.None? || civilIdLastTwo.None?)
    ensures r.Ok? ==> r == Ok(Message("Authentication successful"))
    ensures r.Fail? ==> r == Fail(AuthenticationFailed, 401)
  {
    match UserDao.FindUserById(db, userId)
    case None => Fail(AuthenticationFailed, 401)
    case Some(u) =>
      if u.civilId.None? then Raised("AttributeError")
      else if civilIdLastTwo.None? then Raised("TypeError")
      else if UserDao.EndsWith(u.civilId.value, civilIdLastTwo.value) then Ok(Message("Authentication successful"))
      else Fail(AuthenticationFailed, 401)
  }

  /** initiate_kyc_verification: always succeeds with the id of a new pending
      case for the user (known or not); the 404 branch of the source cannot
      be reached, since the data-access call always returns a row. */
  method InitiateKycVerification(db: Database, userId: nat) returns (r: Response)
    requires db.Valid()
    modifies db`kycVerifications, db`nextKycId
    ensures db.Valid()
    ensures r.Ok? && r.body.WithVerificationId? && r.body.message == "KYC verification initiated"
    ensures r.body.verificationId !in old(db.kycVerifications)
    ensures db.kycVerifications ==
      old(db.kycVerifications)[r.body.verificationId := KycVerification(r.body.verificationId, userId, PendingStatus, None, None)]
  {
    var k := KycDao.CreateKycVerification(db, userId);
    r := Ok(WithVerificationId("KYC verification initiated", k.id));
  }

  /** complete_profile: 404 exactly when the user is unknown; otherwise the
      user's name, address and phone number are overwritten. */
  method CompleteProfile(db: Database, userId: nat, name: Option<string>, address: Option<string>,
                         phoneNumber: string) returns (r: Response)
    requires db.Valid()
    requires userId in db.users ==>
      forall k :: k in db.users && k != userId ==> db.users[k].phoneNumber != phoneNumber
    modifies db`users
    ensures db.Valid()
    ensures r == if userId in old(db.users) then Ok(Message("Profile updated successfully"))
                 else Fail(UserNotFound, 404)
    ensures userId !in old(db.users) ==> db.users == old(db.users)
    ensures userId in old(db.users) ==>
      db.users == old(db.users)[userId := old(db.users)[userId].(name := name, address := address, phoneNumber := phoneNumber)]
  {
    var u := UserDao.UpdateUserProfile(db, userId, name, address, phoneNumber);
    if u.Some? {
      r := Ok(Message("Profile updated successfully"));
    } else {
      r := Fail(UserNotFound, 404);
    }
  }

  /** retrieve_account: the username (possibly absent) of the user with that
      phone number; 404 when there is none. */
  function RetrieveAccount(db: Database, phoneNumber: Option<string>): (r: Response)
    requires db.Valid()
    reads db
    ensures r.Ok? <==> exists k :: k in db.users && phoneNumber == Some(db.users[k].phoneNumber)
    ensures forall k :: k in db.users && phoneNumber == Some(db.users[k].phoneNumber) ==>
      r == Ok(WithUsername("Account retrieved", db.users[k].username))
    ensures !r.Ok? ==> r == Fail(UserNotFound, 404)
  {
    match UserDao.FindUserByPhone(db, phoneNumber)
    case Some(u) => Ok(WithUsername("Account retrieved", u.username))
    case None => Fail(UserNotFound, 404)
  }

  /** get_total_account_balance: always succeeds, carrying the sum of the
      balances of exactly the user's ledger accounts. */
  function GetTotalAccountBalance(db: Database, userId: nat): (r: Response)
    requires db.Valid()
    reads db
    ensures r == Ok(TotalBalance(UserDao.SumBalances(UserDao.Owned(db.accounts, userId))))
  {
    Ok(TotalBalance(UserDao.GetTotalBalance(db, userId)))
  }
}
