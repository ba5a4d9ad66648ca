# Account-onboarding backend: verified model of the store and the user service

This project models the core of a small HTTP backend for personal financial
accounts: registering users, accepting terms, completing a profile, linking a
bank account and verifying it with a one-time code, opening know-your-customer
(KYC) cases, and adding up a user's ledger balances. It covers three parts of
the backend:

- the record store behind the data-access objects. It has four tables (users,
  bank accounts, ledger accounts, KYC cases), each keyed by a server-assigned
  integer id;
- the data-access layer (`UserDAO`, `KYCVerificationDAO`). Each operation is
  one lookup or one read-modify-write on a table;
- the service layer (`UserService`). It makes one data-access call and turns
  "no row" into a fixed message and HTTP status.

Files and modules:

- `records.dfy`, module `Records`: the row types. A nullable column is an
  `Option`. Balances are `int`.
- `store.dfy`, module `Store`: class `Database`. It holds one map per table
  and one next-id counter per table. `Valid()` is the store invariant: every
  row sits under its own id, ids stay below the counter, phone numbers and
  usernames are unique, and every bank account belongs to a stored user. Two
  fixture methods insert rows directly, as the tests do.
- `user_dao.dfy`, module `UserDao`: the finders and the balance aggregate
  are functions of the store. The mutators are methods whose `modifies`
  clauses name exactly the fields they change. The bank-account
  verification state machine is stated by two table functions,
  `WithVerificationCode` and `AfterVerification`, and lemmas relate them. The
  balance is computed id by id (`BalanceBelow`) and proved equal to an
  independent, order-free sum over exactly the user's accounts (`SumBalances`
  of `Owned`).
- `kyc_dao.dfy`, module `KycDao`: creating a KYC case.
- `user_service.dfy`, module `UserService`: a `Response` datatype. It holds a
  success body, an error message with its status, or an exception that the
  operation raises. Read-only operations are functions and the others are
  methods.
- `scenarios.dfy`, module `Scenarios`: end-to-end runs on a fresh store,
  proved from the operation contracts alone.

Semantics carried over from the code:

- A missing request field reaches the service as None, so the lookup
  arguments are `Option`s.
- Comparing a column with None becomes `IS NULL` in the generated SQL, so
  the stored verification code is compared with the presented one as
  optional values. As a result, a request without a code verifies any
  account whose code is unset, including a freshly linked one
  (`UnsetCodeVerifiesWithoutCode`, `Scenarios.VerifyWithoutCode`).
- An absent civil-ID suffix never matches in SQL: the LIKE pattern becomes
  NULL.
- In `authenticate_with_civil_id`, an absent suffix makes Python's
  `str.endswith` raise. So does a user whose civil ID is None.

Code behaviours a reader might not expect, all kept in the model:

- Verifying an unknown bank account gives 400 "Invalid verification code",
  the same answer as a wrong code.
- Civil-ID authentication of an unknown user gives 401.
- Registering a phone number that is already in use is not a handled
  conflict. The unique column makes the insert raise, so the model states it
  as a precondition.
- The 404 branch of `initiate_kyc_verification` cannot be reached.

## Model

| member | source | states |
|---|---|---|
| `Store.Database.constructor` | tests/test_user_dao.py:13-15 | the schema the test suites create (users, bank accounts, ledger accounts, KYC cases) starts with all four tables empty and satisfies the store invariant |
| `Store.Database.AddUserRow` | tests/test_user_dao.py:31-35 | a fixture insert of a user with a username and civil ID; it adds exactly that row under a fresh id and keeps phone and username unique |
| `Store.Database.AddLedgerAccount` | tests/test_user_dao.py:82-86 | a fixture insert of a ledger account; it adds exactly that row under a fresh id |
| `UserDao.FirstMatch` | app/dao/user_dao.py:24-27 | the query's `.first()`: returns the smallest id in the range whose row passes the filter; None exactly when no row in the range passes |
| `UserDao.FindFirst` | app/dao/user_dao.py:24-27 | returns the first stored user that passes the filter, which is a stored row; None iff no stored user passes |
| `UserDao.FindUserByUsernameAndCivilId` | app/dao/user_dao.py:15-29 | the result's username equals the argument and its civil ID is present and ends with the suffix; None iff no such user exists; a user without a civil ID, or an absent suffix, never matches; a named user is found whenever it matches |
| `UserDao.FindUserById` | app/dao/user_dao.py:49-59 | returns the row stored under the id, or None iff the id is unknown |
| `UserDao.FindUserByPhone` | app/dao/user_dao.py:162-172 | returns the unique user with that phone number, or None iff nobody has it; an absent number matches nobody |
| `UserDao.CreateUser` | app/dao/user_dao.py:32-46 | adds exactly one user under a fresh id with the given phone and password, terms not accepted, and username, civil ID, name and address absent; the new user is then found by id and by phone; the phone must be unused |
| `UserDao.UpdateTermsAccepted` | app/dao/user_dao.py:62-76 | for a known user, changes only that user's terms flag and returns the updated row; for an unknown id returns None and leaves users unchanged |
| `UserDao.UpdateUserProfile` | app/dao/user_dao.py:141-159 | for a known user, overwrites name, address and phone number unconditionally (absent values too) and touches no other field or user; for an unknown id returns None and changes nothing |
| `UserDao.VerifiedMonotoneTransitive` | app/dao/user_dao.py:104-138 | "never goes back to unverified" composes across successive store operations |
| `UserDao.WithVerificationCode` | app/dao/user_dao.py:112-118 | issuing a code overwrites the one stored code, absent included; it keeps the verified flag and every other account, so verified is monotone |
| `UserDao.AfterVerification` | app/dao/user_dao.py:129-138 | verification succeeds iff the account exists and its stored code equals the presented one, as optional values; on success only that account changes, to verified, and its code is kept |
| `UserDao.IssuedCodeVerifies` | app/dao/user_dao.py:112-138 | a code just issued to an existing account verifies it |
| `UserDao.ReissuedCodeRejectsStale` | app/dao/user_dao.py:112-138 | after a new code is issued, any different code is refused |
| `UserDao.VerificationReplays` | app/dao/user_dao.py:129-138 | the code is never cleared, so presenting the same code again succeeds again and changes nothing more |
| `UserDao.UnsetCodeVerifiesWithoutCode` | app/dao/user_dao.py:130-135 | an account whose code is unset is verified by presenting no code |
| `UserDao.AddBankAccount` | app/dao/user_dao.py:79-101 | returns None iff the user is unknown, and then adds nothing; otherwise adds exactly one account of that user under a fresh id, unverified and without a code |
| `UserDao.SetVerificationCode` | app/dao/user_dao.py:104-118 | the table becomes `WithVerificationCode` of the old one; returns None iff the id is unknown; verified is monotone |
| `UserDao.VerifyBankAccount` | app/dao/user_dao.py:121-138 | returns a row iff `AfterVerification` succeeds, and the table becomes its result; otherwise returns None with the table unchanged; verified is monotone |
| `UserDao.SumOverRemove` | app/dao/user_dao.py:183-184 | the reference sum of balances can take out any row first, so it does not depend on the order in which rows are summed |
| `UserDao.SumOverFrame` | app/dao/user_dao.py:183-184 | the reference sum depends only on the rows it sums |
| `UserDao.BalanceBelowIsSum` | app/dao/user_dao.py:182-186 | accumulating id by id equals the reference sum over the user's accounts below the bound |
| `UserDao.GetTotalBalance` | app/dao/user_dao.py:175-186 | equals the sum of the balances of exactly the accounts whose owner is the user; 0 when there are none, whether or not the user exists |
| `UserDao.TotalAfterInsert` | app/dao/user_dao.py:182-186 | storing one more account adds its balance to its owner's total and leaves every other user's total unchanged |
| `KycDao.CreateKycVerification` | app/dao/kyc_dao.py:7-14 | always adds exactly one new case for the given user id under a fresh id, pending, with no document or biometric reference, and returns it; the user's existence is not checked; earlier cases stay; the other tables are untouched |
| `UserService.SignIn` | app/services/user_service.py:16-28 | succeeds with the found user's id iff some user matches the username and civil-ID suffix; otherwise "Invalid credentials" with 401 |
| `UserService.RegisterUser` | app/services/user_service.py:31-41 | always succeeds with the fresh id of the user it creates, and that user is then found by phone |
| `UserService.AcceptTerms` | app/services/user_service.py:60-71 | 404 "User not found" exactly when the user is unknown; otherwise the terms flag is set and the fixed success message returned |
| `UserService.LinkBankAccount` | app/services/user_service.py:74-89 | 404 exactly when the user is unknown, with no account added; otherwise one unverified account without a code is added |
| `UserService.SetVerificationCode` | app/services/user_service.py:92-104 | 404 "Bank account not found" exactly when the account is unknown; the code is overwritten otherwise |
| `UserService.VerifyBankAccount` | app/services/user_service.py:107-119 | succeeds iff the stored code matches; otherwise 400 "Invalid verification code", including for an unknown account id, with nothing changed |
| `UserService.AuthenticateWithCivilId` | app/services/user_service.py:122-134 | succeeds iff the user exists and its civil ID ends with the suffix; an unknown user gives 401, not 404; a known user with no civil ID, or an absent suffix, raises |
| `UserService.InitiateKycVerification` | app/services/user_service.py:137-148 | always succeeds with the id of a new pending case; the 404 branch is unreachable |
| `UserService.CompleteProfile` | app/services/user_service.py:151-165 | 404 exactly when the user is unknown; otherwise name, address and phone number are overwritten |
| `UserService.RetrieveAccount` | app/services/user_service.py:168-179 | succeeds iff some user has that phone number, carrying that user's username, which may be absent; otherwise 404 |
| `UserService.GetTotalAccountBalance` | app/services/user_service.py:182-190 | always succeeds, carrying the sum of the balances of exactly the user's ledger accounts |
| `Scenarios.VerificationReplay` | tests/test_user_dao.py:62-67 | link, issue "5566", verify: success; the same code again: success again; after "7788" is issued, "5566" is refused with 400 |
| `Scenarios.VerifyWithoutCode` | tests/test_kyc_dao.py:52-58 | a freshly linked account is verified by a request with no code; an unknown account gets 400 |
| `Scenarios.KycTwice` | app/dao/kyc_dao.py:8-14 | two initiations for one user give two distinct case ids, both stored, both pending and both carrying the registered user's id |
| `Scenarios.TotalOfTwoAccounts` | tests/test_user_service.py:88-95 | accounts of 100 and 200 give their owner a total of 300 and another user 0 |
| `Scenarios.CivilIdChecks` | tests/test_user_dao.py:31-36 | a user with civil ID "12" signs in with suffix "12", and the sign-in carries that user's id; the suffix "34" is refused; a user without a civil ID makes authentication raise; an unknown user gets 401 |

## Left out

- `send_onboarding_notification` is not modelled: it calls an SMS gateway, and the integrations module it calls is not part of this model.
- `PaymentService` is not modelled: its operations are stubs that return constants.
- The routing layer and JSON rendering are not modelled. The one behaviour carried over is that a missing field arrives as None.
- Sessions, commits, refreshes and closes are not modelled: they are persistence plumbing. This includes the session that `add_bank_account` leaves open on success.
- Transactions, isolation and concurrent requests are not modelled. Each operation is one atomic step.
- Balances are integers, not floating-point numbers, so rounding in the SQL sum is not modelled.
- Rows are never deleted and ids are never reused. The tests delete rows, but no operation of the backend does.
- Store.Database.constructor: the store starts with the schema the test suites create, which has the ledger-account table. The application's own start-up (app/database/database.py:13-17) imports only the user, bank-account and KYC models before creating tables, so with that schema alone `get_total_balance` would query a missing table and raise; that failure is not modelled.
- Column length limits (`String(n)`) are not modelled. SQLite does not enforce them.
- UserDao.FindUserByUsernameAndCivilId: matches the suffix literally. The SQL `LIKE '%' || suffix` also treats `%` and `_` in the suffix as wildcards, and SQLite compares ASCII letters case-insensitively. That pattern semantics is not modelled.
- UserDao.FirstMatch: `.first()` without ORDER BY is taken to return the lowest id. This matters only when several users without a username match an absent username.
- UserDao.CreateUser: requires an unused phone number. The source raises an integrity error from the unique column instead; that exception path is not modelled.
- UserService.RegisterUser: requires an unused phone number, for the same reason as `UserDao.CreateUser`; the integrity error a duplicate number raises is not modelled.
- UserDao.UpdateUserProfile: requires that the new phone number is not another user's, and takes the phone number as a present string. The source raises on a duplicate number, or on an absent one (the column is NOT NULL); those exception paths are not modelled.
- UserService.CompleteProfile: requires that the new phone number is not another user's and takes it as a present string, for the same reason as `UserDao.UpdateUserProfile`; the errors a duplicate or absent number raise are not modelled.
- UserDao.AddBankAccount: takes the account number and card digits as present strings. An absent value would make the NOT NULL insert raise; that path is not modelled. The same applies to the password in `UserDao.CreateUser`.
