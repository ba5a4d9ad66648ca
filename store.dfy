/** The relational store behind the DAOs: four tables keyed by server-assigned
    integer ids. Each table is a map from id to row; each has the counter from
    which the next id is drawn (ids start at 1 and are never reused, since no
    operation of the model deletes a row). */
module Store {
  import opened Records

  /** No two users share a phone number (`users.phone_number` is UNIQUE). */
  ghost predicate PhonesUnique(users: map<nat, User>)
  {
    forall a, b :: a in users && b in users && a != b ==> users[a].phoneNumber != users[b].phoneNumber
  }

  /** No two users share a username; any number of users may have none
      (`users.username` is UNIQUE and nullable). */
  ghost predicate UsernamesUnique(users: map<nat, User>)
  {
    forall a, b :: a in users && b in users && a != b && users[a].username.Some? ==>
      users[a].username != users[b].username
  }

  class Database {
    var users: map<nat, User>
    var bankAccounts: map<nat, BankAccount>
    var accounts: map<nat, Account>
    var kycVerifications: map<nat, KycVerification>
    var nextUserId: nat
    var nextBankAccountId: nat
    var nextAccountId: nat
    var nextKycId: nat

    /** Every row is stored under its own id, every id lies below its table's
        counter, the unique columns hold, and every bank account belongs to a
        stored user (the DAO checks the owner before linking). Ledger accounts
        and KYC cases are not tied to a stored user: the DAOs insert them
        without a check and the foreign key is not enforced. */
    ghost predicate Valid()
      reads this
    {
      && 0 < nextUserId && 0 < nextBankAccountId && 0 < nextAccountId && 0 < nextKycId
      && (forall k :: k in users ==> 0 < k < nextUserId && users[k].id == k)
      && (forall k :: k in bankAccounts ==>
            0 < k < nextBankAccountId && bankAccounts[k].id == k && bankAccounts[k].userId in users)
      && (forall k :: k in accounts ==> 0 < k < nextAccountId && accounts[k].id == k)
      && (forall k :: k in kycVerifications ==> 0 < k < nextKycId && kycVerifications[k].id == k)
      && PhonesUnique(users)
      && UsernamesUnique(users)
    }

    /** The freshly created schema: every table empty. */
    constructor ()
      ensures Valid()
      ensures users == map[] && bankAccounts == map[] && accounts == map[] && kycVerifications == map[]
    {
      users, bankAccounts, accounts, kycVerifications := map[], map[], map[], map[];
      nextUserId, nextBankAccountId, nextAccountId, nextKycId := 1, 1, 1, 1;
    }

    /** Inserts a user row with a username and a civil ID directly, as the
        test fixtures do; no operation of the backend sets either column. */
    method AddUserRow(username: Option<string>, civilId: Option<string>, phoneNumber: string, password: string)
      returns (u: User)
      requires Valid()
      requires forall k :: k in users ==> users[k].phoneNumber != phoneNumber
      requires username.Some? ==> forall k :: k in users ==> users[k].username != username
      modifies this`users, this`nextUserId
      ensures Valid()
      ensures u.id !in old(users) && users == old(users)[u.id := u]
      ensures u == User(u.id, username, civilId, phoneNumber, password, false, None, None)
    {
      u := User(nextUserId, username, civilId, phoneNumber, password, false, None, None);
      users := users[u.id := u];
      nextUserId := nextUserId + 1;
    }

    /** Inserts a ledger account row directly, as the test fixtures do; the
        backend itself has no operation that creates one. */
    method AddLedgerAccount(userId: nat, balance: int) returns (a: Account)
      requires Valid()
      modifies this`accounts, this`nextAccountId
      ensures Valid()
      ensures a.id !in old(accounts) && accounts == old(accounts)[a.id := a]
      ensures a.userId == userId && a.balance == balance
    {
      a := Account(nextAccountId, userId, balance);
      accounts := accounts[a.id := a];
      nextAccountId := nextAccountId + 1;
    }
  }
}
