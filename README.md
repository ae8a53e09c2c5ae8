# Access-control layer of MFLIX, modelled in Dafny

This project models the access-control layer of the MFLIX movie service: the
account store (`AccountService`) and the two Express middlewares that guard the
routes, `authenticate()` (the credential resolver) and `auth(paths)` (the policy
gate).

- **Account store** (`accounts.dfy`, `account_service.dfy`). The accounts
  collection is the field `accounts: map<string, Account>` of the class
  `AccountService`, keyed by email. The two create methods fail with 409
  "Account already exists" when the email is taken and otherwise insert a new
  record. Every other mutating method (role, password, vote, block, delete)
  looks the record up, fails with 404 "Account not found" when it is absent,
  and otherwise makes one targeted change; its contract states the whole new
  collection in terms of the old one through the store transitions of module
  `Accounts` (`WithRole`, `WithPassword`, `WithVote`, `WithBlockToggled`,
  removal). `getAccountByEmail` and `login` only read: `login` writes the
  refreshed expiration on the fetched copy only, so the method has no
  `modifies` clause, and its result is `Accounts.LoginResult`.
- **bcrypt** (`bcrypt.dfy`) is a stand-in: `Hash(password, salt)` builds
  "$2b$10$" + salt + digest, and `Matches` plays `compareSync`. The digest is a
  placeholder. The lemmas rely on one fact about it: a hash matches the password
  it was made from, which is proved as `Hash`'s postcondition. Whether a hash
  also matches other passwords (bcrypt reads only the first 72 bytes) is left
  to `Matches`, which the methods consult as the code does.
- **Credential resolver** (`authenticate.dfy`). `Resolve` is the decision of
  `authenticate()` over the header; `Authenticate`, `JwtAuthentication` and
  `BasicAuthentication` carry it out on a `Request` object whose `user`, `role`
  and `authType` fields start unset (`None`). The decision is one of: leave the
  request alone, record a caller, or throw.
- **Policy gate** (`policy.dfy`). `Auth` is the decision of `auth(paths)` for one
  request: `Forward`, `Respond(status, error)` or `Throw`. The `authentication`
  and `authorization` callbacks of a policy entry are function values over the
  request.
- `pipeline.dfy` states two facts about the two middlewares run in sequence.

Parameters stand for everything outside the code: the bcrypt salt, the two clock
readings `login` makes (`Date.now()` at line 126 and `new Date().getTime()` at
line 132), the session window (`getExpirationIn()`), the token issuer
(`JwtUtils.getJwt`) and verifier (`JwtUtils.verifyJwt`, `None` when it throws),
base64 decoding, and the `ADMIN_EMAIL` / `ADMIN_PASSWORD` settings.

The model reproduces the code's quirks as written:

- `login` refreshes the expiration only on its local copy, so the 403 expiry
  branch is unreachable whenever `checkedAt <= now + window`, and the stored
  expiration never matters (`LoginExpiryUnreachable`,
  `LoginIgnoresStoredExpiration`).
- Basic authentication looks the account up by the secret segment and passes
  the account document to `login` as its email. An equality query with a
  document never matches a string email, so that `login` always fails with 404,
  and every basic credential other than the superuser pair ends in 401 "Invalid
  credentials" (`NonAdminBasicAlwaysRejected`). The success path at
  authenticate.js:53-55 is kept in `ResolveCredentials`; in the method
  `BasicAuthentication` the verifier proves that branch dead.
- `auth` never calls the predicate when `authentication(req)` is falsy
  (`PredicateOnlyWhenConsulted`).

Further facts about the code that the model keeps:

- A bearer token that fails verification throws 401 "Invalid token".
- The basic secret is the text between the first and second colon of the
  decoded credential; anything after a second colon is dropped.
- `updatePassword` signals an unchanged password with a plain `Error`, which
  carries no status.
- The create methods return the stored record, password hash included.
- A non-superuser basic request makes the resolver throw 401 "Invalid
  credentials" without calling `next()`, so it never reaches a role check.

## Model

| member | source | states |
|---|---|---|
| `Bcrypt.Hash` | src/service/AccountService.js:81 | the stored hash matches the password it was made from |
| `Accounts.PrepareAccountForInsertion` | src/service/AccountService.js:79-97 | a new record copies only email, username and role, is unblocked with no votes and zero requests, expires `window` after `now`, and its hash matches the plaintext |
| `Accounts.Lookup` | src/service/AccountService.js:59-65 | the record under the email when present, 404 "Account not found" exactly when absent |
| `Accounts.TransitionsKeepKeys` | src/service/AccountService.js:34-117 | role, password, vote and block updates keep the same emails with every record under its own email, and deletion keeps the rest keyed |
| `Accounts.ToggleTwiceRestores` | src/service/AccountService.js:100-109 | blocking then unblocking restores the collection |
| `Accounts.VoteAppends` | src/service/AccountService.js:67-77 | `$push` makes the vote list one longer, keeps earlier entries in order and ends with the movie |
| `Accounts.RepeatedVoteKept` | src/service/AccountService.js:72-76 | voting twice for one movie records it twice (no de-duplication) |
| `Accounts.LoginExpiryUnreachable` | src/service/AccountService.js:126-136 | when the check reading is at most `now + window`, login never fails with 403; a matching password returns the token of the refreshed copy |
| `Accounts.LoginIgnoresStoredExpiration` | src/service/AccountService.js:121-132 | the result of login does not depend on the stored expiration |
| `Accounts.LoginByRecordNotFound` | src/service/AccountService.js:121-124 | login with an account document in place of an email always fails with 404 |
| `Accounts.WithRole` | src/service/AccountService.js:39 | `$set: { role }`: the same emails, every other record unchanged, and that record differs only in its role, now the new one |
| `Accounts.WithPassword` | src/service/AccountService.js:53-56 | `$set: { password }`: the same emails, every other record unchanged, and that record differs only in its hash |
| `Accounts.WithVote` | src/service/AccountService.js:72-76 | `$push: { moviesVoted }`: the same emails, every other record unchanged, and that record differs only in a vote list one longer |
| `Accounts.WithBlockToggled` | src/service/AccountService.js:105-108 | `$set: { blocked: !blocked }`: the same emails, every other record unchanged, and that record differs only in a negated flag |
| `Accounts.FindOne` | src/service/AccountService.js:121 | `findOne({ email })` finds a record exactly for a string key that is stored, and never for a document key |
| `Accounts.LoginResult` | src/service/AccountService.js:119-138 | 404 exactly when nothing is found, 401 "passwords do not match" for a wrong password, and success only for a stored email whose hash matches, returning the token of the refreshed copy |
| `AccountServices.AccountService.constructor` | src/service/AccountService.js:9-12 | the service starts over the given collection |
| `AccountServices.AccountService.AddUserAccount` | src/service/AccountService.js:14-17 | creates the account with role "user" whatever role was supplied; 409 and no change when the email exists |
| `AccountServices.AccountService.AddAdminAccount` | src/service/AccountService.js:19-22 | creates the account with role "admin" whatever role was supplied; 409 and no change when the email exists |
| `AccountServices.AccountService.CreateAccount` | src/service/AccountService.js:24-32 | 409 "Account already exists" with the collection unchanged, or the prepared record inserted under its email and returned |
| `AccountServices.AccountService.SetRole` | src/service/AccountService.js:34-43 | 404 with no change, or only that record's role changes; the returned record is rebuilt, so it carries the email and the new role but reports unblocked with no votes whatever is stored |
| `AccountServices.AccountService.UpdatePassword` | src/service/AccountService.js:45-57 | 404, or a status-less "Password is the same" with no change when the new password matches, or only that record's hash changes and it matches the new password |
| `AccountServices.AccountService.GetAccountByEmail` | src/service/AccountService.js:59-65 | succeeds exactly when the email is stored, returning that record |
| `AccountServices.AccountService.UpdateMoviesVoted` | src/service/AccountService.js:67-77 | 404 with no change, or only that record's vote list gains the movie at its end |
| `AccountServices.AccountService.BlockUnblockAccount` | src/service/AccountService.js:100-109 | 404 with no change, or only that record's `blocked` flag is negated |
| `AccountServices.AccountService.DeleteAccount` | src/service/AccountService.js:111-117 | 404 with no change, or exactly that email's record is removed |
| `AccountServices.AccountService.Login` | src/service/AccountService.js:119-138 | changes nothing; 404 for an unknown email and always for a document key, 401 "passwords do not match" on a wrong password; success only for a stored email whose hash matches |
| `Text.Split` | src/security/authenticate.js:42 | at least one segment, none containing the separator |
| `Text.JoinSplit` | src/security/authenticate.js:42 | joining the segments with the separator gives back the decoded string |
| `Text.Segment` | src/security/authenticate.js:44-45 | `parts[i]` when it exists, `undefined` exactly past the end |
| `Text.FirstTwoSegments` | src/security/authenticate.js:42-45 | in "id:secret:tail" segment 0 is the id and segment 1 the secret |
| `Text.IdAndSecret` | src/security/authenticate.js:42-45 | "id:secret" splits into exactly the id and the secret |
| `Authenticate.Resolve` | src/security/authenticate.js:10-23 | no header records nothing; a recorded caller has scheme "jwt" (only from a bearer header) or "basic"; every failure is a 401 "Invalid token" or "Invalid credentials" |
| `Authenticate.ResolveJwt` | src/security/authenticate.js:25-35 | rejected exactly when the token after "Bearer " fails verification, then with 401 "Invalid token"; a verified token records exactly the payload's sub and role under "jwt" |
| `Authenticate.ResolveCredentials` | src/security/authenticate.js:42-59 | only the superuser is ever recorded, with role "" and "basic"; the request is refused, with 401 "Invalid credentials", exactly when segment 0 is not the superuser's identifier |
| `Authenticate.ResolveBasic` | src/security/authenticate.js:37-59 | the decoded credential after "Basic " decides as above: only the superuser is recorded, and every other identifier is refused with 401 "Invalid credentials" |
| `Authenticate.JwtAuthentication` | src/security/authenticate.js:25-35 | the request's fields and the flow follow the bearer decision, nothing else changes |
| `Authenticate.BasicAuthentication` | src/security/authenticate.js:37-60 | the request's fields and the flow follow the basic decision, reading the store without changing it |
| `Authenticate.Authenticate` | src/security/authenticate.js:10-23 | the request's fields and the flow follow `Resolve` for its header |
| `Authenticate.PrefixesExclusive` | src/security/authenticate.js:14-18 | no header starts with both "Bearer " and "Basic " |
| `Authenticate.NoCredentialLeavesRequestAlone` | src/security/authenticate.js:12-21 | without a header or with another scheme nothing is recorded and `next()` is called |
| `Authenticate.BearerResolution` | src/security/authenticate.js:25-35 | the token after the 7-character prefix is verified; success records sub, role and "jwt", failure is exactly 401 "Invalid token" |
| `Authenticate.AdminBypass` | src/security/authenticate.js:44-49 | the superuser pair records the superuser with role "" and "basic", whatever the store holds |
| `Authenticate.AdminWrongSecretIgnored` | src/security/authenticate.js:44-49 | the superuser identifier with a wrong secret records nothing and raises nothing |
| `Authenticate.SecretEndsAtSecondColon` | src/security/authenticate.js:42-45 | "id:secret:tail" resolves exactly like "id:secret" |
| `Authenticate.NonAdminBasicAlwaysRejected` | src/security/authenticate.js:50-59 | any non-superuser basic credential ends in 401 "Invalid credentials" |
| `Policy.ErrorStatus` | src/security/authenticate.js:80 | a thrown error's own non-zero status passes through; a missing or zero status becomes 500 |
| `Policy.Auth` | src/security/authenticate.js:62-85 | a request is forwarded only under a configured entry and, when a scheme is required, only with that scheme and the predicate's consent; an `authentication` callback that throws makes the gate throw without answering; every answer is 401, 403, 500 or a thrown error's status |
| `Policy.AuthenticationThrowIsUncaught` | src/security/authenticate.js:68-69 | a throwing `authentication` call, outside the `try`, makes the gate throw whatever the predicate is |
| `Policy.MissingEntryThrows` | src/security/authenticate.js:64 | a method without an entry throws and is never forwarded |
| `Policy.MissingPredicateIsServerFault` | src/security/authenticate.js:65-67 | an entry without a predicate gives 500 "security configuration not provided" before any authentication check |
| `Policy.SchemeMismatchIs401` | src/security/authenticate.js:68-71 | a required scheme the request lacks, including none at all, gives 401 "no required authentication" |
| `Policy.ConsultedOutcomes` | src/security/authenticate.js:73-81 | once consulted, true forwards (and only true), false gives 403 "not authorized", a throw gives its status or 500 with its message |
| `Policy.PredicateOnlyWhenConsulted` | src/security/authenticate.js:68-83 | replacing an unconsulted predicate changes nothing; a falsy `authentication` forwards |
| `Pipeline.UnauthenticatedCallerRejected` | src/security/authenticate.js:10-71 | a request without usable credentials goes on to the gate unrecorded and gets 401 on any route requiring a scheme |
| `Pipeline.NonAdminBasicNeverReachesGate` | src/security/authenticate.js:37-60 | a non-superuser basic request throws 401 "Invalid credentials" and records nothing |

## Left out

- `updateNumComments` (src/service/AccountService.js:140-145): it increments `imdb.num_mflix_comments` on accounts, a field no account record has.
- The module-level Mongo connection and singleton (src/service/AccountService.js:150-160): the service is constructed over a given collection and passed to the resolver.
- bcrypt's key derivation, JWT signing and verification, base64 decoding, `Date.now()`, `getExpirationIn()` and `dotenv`: parameters or stand-ins, as described above.
- `ADMIN_EMAIL` and `ADMIN_PASSWORD` are taken as set strings; an unset variable (`undefined`) is not modelled.
- `addUserAccount` and `addAdminAccount` also overwrite `role` on the caller's object; the model does not represent the caller's object.
- The `_id` that `insertOne` adds, and the second `findOne` by `_id`: the record inserted is the record returned.
- Arguments of other JavaScript types than the model's (the one exception, the document passed to `login`, is modelled), and an `authorization` entry that is truthy but not a function.
- `authentication(req)` is called twice (lines 68-69); it is modelled as one value, that is, a deterministic callback.
- Concurrency and the async interleaving of requests: each request runs to completion on its own; `console.log` calls.
- What Express does with a middleware promise that rejects: the model reports `Raised(error)` and stops there.
- Timestamps are JavaScript numbers; the model uses unbounded integers.
- Duplicate emails: the collection is a map, so it holds at most one record per email. The code acts on the first match of `findOne`, `updateOne` and `deleteOne`, and no unique index is shown; src/index.js:33 inserts a seed record on every start. With two records under one email, `deleteAccount` would leave one behind, which the model does not capture.
