/** The user data-access layer (app/dao/user_dao.py): finders over `users`,
    the read-modify-write operations on users and bank accounts, and the
    balance aggregate over ledger accounts. Finders and the aggregate only read
    the store and are functions; every mutator is a method that changes the
    fields of the store its `modifies` clause names and nothing else. */
module UserDao {
  import opened Records
  import opened Store

  // ----- Finders -----

  /** `s` ends with `suffix`; every string ends with the empty suffix. */
  predicate EndsWith(s: string, suffix: string)
  {
    |suffix| <= |s| && s[|s| - |suffix|..] == suffix
  }

  /** The filter of a user lookup. Arguments are optional because a missing
      request field arrives as None, and the generated SQL compares a column
      with None as IS NULL. */
  datatype UserQuery =
    | ByPhone(phoneNumber: Option<string>)
    | ByCredentials(username: Option<string>, civilIdLastTwo: Option<string>)

  /** Whether a row passes the filter. A NULL civil ID, or an absent suffix
      (the LIKE pattern is then NULL), never passes the civil-ID test. */
  predicate Matches(u: User, q: UserQuery)
  {
    match q
    case ByPhone(phone) => phone == Some(u.phoneNumber)
    case ByCredentials(username, suffix) =>
      && u.username == username
      && suffix.Some? && u.civilId.Some?
      && EndsWith(u.civilId.value, suffix.value)
  }

  /** The smallest id in [lo, hi) of a row that passes the filter: the row
      `.first()` yields, taking the table in id order. */
  function FirstMatch(users: map<nat, User>, q: UserQuery, lo: nat, hi: nat): (r: Option<nat>)
    decreases hi - lo
    ensures r.Some? ==> lo <= r.value < hi && r.value in users && Matches(users[r.value], q)
    ensures r.Some? ==> forall k :: lo <= k < r.value && k in users ==> !Matches(users[k], q)
    ensures r.None? ==> forall k :: lo <= k < hi && k in users ==> !Matches(users[k], q)
  {
    if hi <= lo then None
    else if lo in users && Matches(users[lo], q) then Some(lo)
    else FirstMatch(users, q, lo + 1, hi)
  }

  /** The first stored user passing the filter, or None when no user does. */
  function FindFirst(db: Database, q: UserQuery): (r: Option<User>)
    requires db.Valid()
    reads db
    ensures r.Some? ==> r.value.id in db.users && db.users[r.value.id] == r.value && Matches(r.value, q)
    ensures r.Some? ==> forall k :: k in db.users && k < r.value.id ==> !Matches(db.users[k], q)
    ensures r.None? <==> forall k :: k in db.users ==> !Matches(db.users[k], q)
  {
    match FirstMatch(db.users, q, 0, db.nextUserId)
    case None => None
    case Some(k) => Some(db.users[k])
  }

  /** find_user_by_username_and_civil_id: a stored user whose username equals
      the argument and whose civil ID ends with the given suffix; None exactly
      when there is none. A named user is unique, so it is then that user. */
  function FindUserByUsernameAndCivilId(db: Database, username: Option<string>, civilIdLastTwo: Option<string>)
    : (r: Option<User>)
    requires db.Valid()
    reads db
    ensures r.Some? ==> r.value.id in db.users && db.users[r.value.id] == r.value
    ensures r.Some? ==>
      && r.value.username == username
      && r.value.civilId.Some? && civilIdLastTwo.Some?
      && EndsWith(r.value.civilId.value, civilIdLastTwo.value)
    ensures r.None? <==>
      forall k :: k in db.users ==> !Matches(db.users[k], ByCredentials(username, civilIdLastTwo))
    ensures username.Some? ==>
      forall k :: k in db.users && Matches(db.users[k], ByCredentials(username, civilIdLastTwo)) ==>
        r == Some(db.users[k])
  {
    FindFirst(db, ByCredentials(username, civilIdLastTwo))
  }

  /** find_user_by_id: the user stored under the id, or None. */
  function FindUserById(db: Database, userId: nat): (r: Option<User>)
    requires db.Valid()
    reads db
    ensures r.Some? <==> userId in db.users
    ensures r.Some? ==> r.value == db.users[userId] && r.value.id == userId
  {
    if userId in db.users then Some(db.users[userId]) else None
  }

  /** find_user_by_phone: the user with that phone number, or None; an absent
      number matches nobody, since the column is NOT NULL. */
  function FindUserByPhone(db: Database, phoneNumber: Option<string>): (r: Option<User>)
    requires db.Valid()
    reads db
    ensures r.Some? ==> r.value.id in db.users && db.users[r.value.id] == r.value
    ensures r.Some? ==> phoneNumber == Some(r.value.phoneNumber)
    ensures r.None? <==> forall k :: k in db.users ==> phoneNumber != Some(db.users[k].phoneNumber)
    ensures forall k :: k in db.users && phoneNumber == Some(db.users[k].phoneNumber) ==> r == Some(db.users[k])
  {
    FindFirst(db, ByPhone(phoneNumber))
  }

  // ----- Users -----

  /** create_user: stores one new user under a fresh id with the given phone
      number and password, terms not accepted and every optional column
      absent. The phone number must not be in use (UNIQUE column). */
  method CreateUser(db: Database, phoneNumber: string, password: string) returns (u: User)
    requires db.Valid()
    requires forall k :: k in db.users ==> db.users[k].phoneNumber != phoneNumber
    modifies db`users, db`nextUserId
    ensures db.Valid()
    ensures u.id == old(db.nextUserId) && u.id !in old(db.users) && db.users == old(db.users)[u.id := u]
    ensures u == User(u.id, None, None, phoneNumber, password, false, None, None)
    ensures FindUserById(db, u.id) == Some(u)
    ensures FindUserByPhone(db, Some(phoneNumber)) == Some(u)
  {
    u := User(db.nextUserId, None, None, phoneNumber, password, false, None, None);
    db.users := db.users[u.id := u];
    db.nextUserId := db.nextUserId + 1;
  }

  /** update_terms_accepted: sets the terms flag of the one target user and
      returns the updated row; None and no change for an unknown id. */
  method UpdateTermsAccepted(db: Database, userId: nat, accepted: bool) returns (r: Option<User>)
    requires db.Valid()
    modifies db`users
    ensures db.Valid()
    ensures r.None? <==> userId !in old(db.users)
    ensures r.None? ==> db.users == old(db.users)
    ensures r.Some? ==>
      && r.value == old(db.users)[userId].(termsAccepted := accepted)
      && db.users == old(db.users)[userId := r.value]
  {
    if userId in db.users {
      var u := db.users[userId].(termsAccepted := accepted);
      db.users := db.users[userId := u];
      r := Some(u);
    } else {
      r := None;
    }
  }

  /** update_user_profile: overwrites name, address and phone number of the
      one target user unconditionally (absent values included) and returns the
      updated row; None and no change for an unknown id. The new phone number
      must not belong to another user (UNIQUE column). */
  method UpdateUserProfile(db: Database, userId: nat, name: Option<string>, address: Option<string>,
                           phoneNumber: string) returns (r: Option<User>)
    requires db.Valid()
    requires userId in db.users ==>
      forall k :: k in db.users && k != userId ==> db.users[k].phoneNumber != phoneNumber
    modifies db`users
    ensures db.Valid()
    ensures r.None? <==> userId !in old(db.users)
    ensures r.None? ==> db.users == old(db.users)
    ensures r.Some? ==>
      && r.value == old(db.users)[userId].(name := name, address := address, phoneNumber := phoneNumber)
      && db.users == old(db.users)[userId := r.value]
  {
    if userId in db.users {
      var u := db.users[userId].(name := name, address := address, phoneNumber := phoneNumber);
      db.users := db.users[userId := u];
      r := Some(u);
    } else {
      r := None;
    }
  }

  // ----- Bank-account verification -----

  /** No bank account disappears and none goes from verified back to
      unverified between the two tables. */
  ghost predicate VerifiedMonotone(before: map<nat, BankAccount>, after: map<nat, BankAccount>)
  {
    forall k :: k in before ==> k in after && (before[k].verified ==> after[k].verified)
  }

  lemma VerifiedMonotoneTransitive(t0: map<nat, BankAccount>, t1: map<nat, BankAccount>, t2: map<nat, BankAccount>)
    requires VerifiedMonotone(t0, t1) && VerifiedMonotone(t1, t2)
    ensures VerifiedMonotone(t0, t2)
  {
  }

  /** The table after issuing `code` to account `id`: the stored code is
      overwritten (absent included); nothing else changes. */
  function WithVerificationCode(t: map<nat, BankAccount>, id: nat, code: Option<string>)
    : (r: map<nat, BankAccount>)
    ensures r.Keys == t.Keys
    ensures forall k :: k in t && k != id ==> r[k] == t[k]
    ensures id in t ==> r[id] == t[id].(verificationCode := code)
    ensures VerifiedMonotone(t, r)
  {
    if id in t then t[id := t[id].(verificationCode := code)] else t
  }

  /** The table after presenting `code` for account `id`: None when no account
      has both that id and that stored code (optional values compared, so an
      absent code matches an unset one); otherwise the account is marked
      verified and its code is kept. */
  function AfterVerification(t: map<nat, BankAccount>, id: nat, code: Option<string>)
    : (r: Option<map<nat, BankAccount>>)
    ensures r.Some? <==> id in t && t[id].verificationCode == code
    ensures r.Some? ==> r.value.Keys == t.Keys
    ensures r.Some? ==> forall k :: k in t && k != id ==> r.value[k] == t[k]
    ensures r.Some? ==> r.value[id] == t[id].(verified := true) && r.value[id].verificationCode == code
    ensures r.Some? ==> VerifiedMonotone(t, r.value)
  {
    if id in t && t[id].verificationCode == code then Some(t[id := t[id].(verified := true)]) else None
  }

  /** A code just issued verifies the account and stays stored. */
  lemma IssuedCodeVerifies(t: map<nat, BankAccount>, id: nat, code: Option<string>)
    requires id in t
    ensures AfterVerification(WithVerificationCode(t, id, code), id, code).Some?
    ensures AfterVerification(WithVerificationCode(t, id, code), id, code).value[id].verified
  {
  }

  /** After a new code is issued, a different (stale) code is rejected. */
  lemma ReissuedCodeRejectsStale(t: map<nat, BankAccount>, id: nat, stale: Option<string>, issued: Option<string>)
    requires stale != issued
    ensures AfterVerification(WithVerificationCode(t, id, issued), id, stale).None?
  {
  }

  /** Verification never clears the code, so presenting the same code again
      succeeds again and leaves the table as the first success left it. */
  lemma VerificationReplays(t: map<nat, BankAccount>, id: nat, code: Option<string>)
    requires AfterVerification(t, id, code).Some?
    ensures AfterVerification(AfterVerification(t, id, code).value, id, code) == AfterVerification(t, id, code)
  {
    var once := AfterVerification(t, id, code).value;
    assert once[id := once[id].(verified := true)] == once;
  }

  /** An account whose code is unset (freshly linked, or reset to None) is
      verified by presenting no code at all. */
  lemma UnsetCodeVerifiesWithoutCode(t: map<nat, BankAccount>, id: nat)
    requires id in t && t[id].verificationCode.None?
    ensures AfterVerification(t, id, None).Some?
    ensures AfterVerification(t, id, None).value[id].verified
  {
  }

  /** add_bank_account: None and no change when the user is unknown;
      otherwise stores one new bank account of that user under a fresh id,
      unverified and without a code. */
  method AddBankAccount(db: Database, userId: nat, accountNumber: string, debitCardLastFour: string)
    returns (r: Option<BankAccount>)
    requires db.Valid()
    modifies db`bankAccounts, db`nextBankAccountId
    ensures db.Valid()
    ensures r.None? <==> userId !in db.users
    ensures r.None? ==> db.bankAccounts == old(db.bankAccounts)
    ensures r.Some? ==> r.value.id == old(db.nextBankAccountId) && r.value.id !in old(db.bankAccounts)
    ensures r.Some? ==> db.bankAccounts == old(db.bankAccounts)[r.value.id := r.value]
    ensures r.Some? ==> r.value == BankAccount(r.value.id, userId, accountNumber, debitCardLastFour, None, false)
    ensures VerifiedMonotone(old(db.bankAccounts), db.bankAccounts)
  {
    if userId in db.users {
      var b := BankAccount(db.nextBankAccountId, userId, accountNumber, debitCardLastFour, None, false);
      db.bankAccounts := db.bankAccounts[b.id := b];
      db.nextBankAccountId := db.nextBankAccountId + 1;
      r := Some(b);
    } else {
      r := None;
    }
  }

  /** set_verification_code: overwrites the stored code unconditionally and
      returns the updated row; None and no change for an unknown id. */
  method SetVerificationCode(db: Database, bankAccountId: nat, code: Option<string>) returns (r: Option<BankAccount>)
    requires db.Valid()
    modifies db`bankAccounts
    ensures db.Valid()
    ensures db.bankAccounts == WithVerificationCode(old(db.bankAccounts), bankAccountId, code)
    ensures r.None? <==> bankAccountId !in db.bankAccounts
    ensures r.Some? ==> r.value == db.bankAccounts[bankAccountId] && r.value.verificationCode == code
    ensures VerifiedMonotone(old(db.bankAccounts), db.bankAccounts)
  {
    if bankAccountId in db.bankAccounts {
      var b := db.bankAccounts[bankAccountId].(verificationCode := code);
      db.bankAccounts := db.bankAccounts[bankAccountId := b];
      r := Some(b);
    } else {
      r := None;
    }
  }

  /** verify_bank_account: looks up the account by id and stored code
      together; on a match sets verified and returns the row, otherwise
      returns None and changes nothing. */
  method VerifyBankAccount(db: Database, bankAccountId: nat, code: Option<string>) returns (r: Option<BankAccount>)
    requires db.Valid()
    modifies db`bankAccounts
    ensures db.Valid()
    ensures r.Some? <==> AfterVerification(old(db.bankAccounts), bankAccountId, code).Some?
    ensures r.None? ==> db.bankAccounts == old(db.bankAccounts)
    ensures r.Some? ==>
      && db.bankAccounts == AfterVerification(old(db.bankAccounts), bankAccountId, code).value
      && r.value == db.bankAccounts[bankAccountId] && r.value.verified
    ensures VerifiedMonotone(old(db.bankAccounts), db.bankAccounts)
  {
    if bankAccountId in db.bankAccounts && db.bankAccounts[bankAccountId].verificationCode == code {
      var b := db.bankAccounts[bankAccountId].(verified := true);
      db.bankAccounts := db.bankAccounts[bankAccountId := b];
      r := Some(b);
    } else {
      r := None;
    }
  }

  // ----- Balance aggregate -----

  /** The ledger accounts owned by `userId`. */
  function Owned(accounts: map<nat, Account>, userId: nat): (r: map<nat, Account>)
  {
    map k | k in accounts && accounts[k].userId == userId :: accounts[k]
  }

  /** Sum of the balances of the rows under `keys`, taken in any order. */
  ghost function SumOver(m: map<nat, Account>, keys: set<nat>): int
    requires keys <= m.Keys
    decreases keys
  {
    if keys == {} then 0
    else
      var k :| k in keys;
      m[k].balance + SumOver(m, keys - {k})
  }

  /** Sum of the balances of every row of the table. */
  ghost function SumBalances(m: map<nat, Account>): int
  {
    SumOver(m, m.Keys)
  }

  /** Any row can be taken out of the sum first. */
  lemma {:induction false} SumOverRemove(m: map<nat, Account>, keys: set<nat>, j: nat)
    requires keys <= m.Keys && j in keys
    ensures SumOver(m, keys) == m[j].balance + SumOver(m, keys - {j})
    decreases keys
  {
    var k :| k in keys && SumOver(m, keys) == m[k].balance + SumOver(m, keys - {k});
    if k != j {
      SumOverRemove(m, keys - {k}, j);
      SumOverRemove(m, keys - {j}, k);
      assert keys - {k} - {j} == keys - {j} - {k};
    }
  }

  /** The sum depends only on the rows under `keys`. */
  lemma {:induction false} SumOverFrame(m: map<nat, Account>, m': map<nat, Account>, keys: set<nat>)
    requires keys <= m.Keys && keys <= m'.Keys
    requires forall k :: k in keys ==> m[k] == m'[k]
    ensures SumOver(m, keys) == SumOver(m', keys)
    decreases keys
  {
    if keys != {} {
      var j :| j in keys;
      SumOverRemove(m, keys, j);
      SumOverRemove(m', keys, j);
      SumOverFrame(m, m', keys - {j});
    }
  }

  /** Sum of the balances of the rows owned by `userId` with id below `n`,
      accumulated id by id. */
  function BalanceBelow(accounts: map<nat, Account>, userId: nat, n: nat): int
  {
    if n == 0 then 0
    else
      var k := n - 1;
      BalanceBelow(accounts, userId, k) + (if k in accounts && accounts[k].userId == userId then accounts[k].balance else 0)
  }

  /** Accumulating id by id gives the sum over the owned rows with id below `n`. */
  lemma {:induction false} BalanceBelowIsSum(accounts: map<nat, Account>, userId: nat, n: nat)
    ensures var o := Owned(accounts, userId);
      BalanceBelow(accounts, userId, n) == SumOver(o, set k | k in o && k < n)
  {
    var o := Owned(accounts, userId);
    if n > 0 {
      var k := n - 1;
      BalanceBelowIsSum(accounts, userId, k);
      var below := set j | j in o && j < k;
      var upTo := set j | j in o && j < n;
      if k in o {
        SumOverRemove(o, upTo, k);
        assert upTo - {k} == below;
      } else {
        assert upTo == below;
      }
    }
  }

  /** get_total_balance: the sum of the balances of exactly the ledger
      accounts owned by the user; 0 when it owns none, known user or not. */
  function GetTotalBalance(db: Database, userId: nat): (r: int)
    requires db.Valid()
    reads db
    ensures r == SumBalances(Owned(db.accounts, userId))
    ensures Owned(db.accounts, userId) == map[] ==> r == 0
  {
    var o := Owned(db.accounts, userId);
    BalanceBelowIsSum(db.accounts, userId, db.nextAccountId);
    assert (set k | k in o && k < db.nextAccountId) == o.Keys;
    BalanceBelow(db.accounts, userId, db.nextAccountId)
  }

  /** Storing one more ledger account adds its balance to its owner's total
      and leaves every other user's total unchanged. */
  lemma TotalAfterInsert(accounts: map<nat, Account>, a: Account, userId: nat)
    requires a.id !in accounts
    ensures SumBalances(Owned(accounts[a.id := a], userId)) ==
      SumBalances(Owned(accounts, userId)) + (if a.userId == userId then a.balance else 0)
  {
    var o := Owned(accounts, userId);
    var o' := Owned(accounts[a.id := a], userId);
    if a.userId == userId {
      assert o' == o[a.id := a];
      SumOverRemove(o', o'.Keys, a.id);
      assert o'.Keys - {a.id} == o.Keys;
      SumOverFrame(o, o', o.Keys);
    } else {
      assert o' == o;
    }
  }
}
