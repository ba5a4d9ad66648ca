/** Rows of the four tables of the account backend (the model classes under app/models), as values.
    A nullable column is an Option; a NOT NULL column is a plain value. Balances
    are integers (the source stores them as floating point). */
module Records {

  datatype Option<T> = None | Some(value: T)

  /** A row of `users`: only phone number and password are required; terms
      acceptance defaults to false. */
  datatype User = User(
    id: nat,
    username: Option<string>,
    civilId: Option<string>,
    phoneNumber: string,
    password: string,
    termsAccepted: bool,
    name: Option<string>,
    address: Option<string>)

  /** A row of `bank_accounts`: a linked bank account, owned by one user, with
      an optional one-time verification code and a verified flag. */
  datatype BankAccount = BankAccount(
    id: nat,
    userId: nat,
    accountNumber: string,
    debitCardLastFour: string,
    verificationCode: Option<string>,
    verified: bool)

  /** A row of `accounts`: a ledger sub-account holding a balance. */
  datatype Account = Account(id: nat, userId: nat, balance: int)

  /** A row of `kyc_verifications`: one know-your-customer case. */
  datatype KycVerification = KycVerification(
    id: nat,
    userId: nat,
    verificationStatus: string,
    documentUrl: Option<string>,
    biometricData: Option<string>)

  /** Default of `kyc_verifications.verification_status`. */
  const PendingStatus: string := "pending"
}
