/**
 * `AccountService`: the owner of the accounts collection. Each method looks the
 * record up by email, fails with 404 when it is absent, and otherwise makes one
 * targeted change. The collection is the field `accounts`; hashing salts, clock
 * readings and the token issuer are parameters.
 */
module AccountServices {
  import opened Errors
  import opened Bcrypt
  import opened Accounts

  class AccountService {
    var accounts: Store

    ghost predicate Valid()
      reads this
    {
      KeyedByEmail(accounts)
    }

    /** A service over a collection whose records sit under their own emails. */
    constructor (initial: Store)
      requires KeyedByEmail(initial)
      ensures Valid() && accounts == initial
    {
      accounts := initial;
    }

    /** `addUserAccount`: creates the account with role "user", whatever role it came with. */
    method AddUserAccount(candidate: Candidate, salt: Salt, now: int, window: int) returns (r: Result<Account>)
      requires Valid()
      modifies this
      ensures Valid()
      ensures candidate.email in old(accounts) ==> r == Err(AccountAlreadyExists) && accounts == old(accounts)
      ensures candidate.email !in old(accounts) ==>
        && r.Ok? && r.value.role == "user"
        && r.value == PrepareAccountForInsertion(candidate.(role := "user"), salt, now, window)
        && accounts == old(accounts)[candidate.email := r.value]
    {
      r := CreateAccount(candidate.(role := "user"), salt, now, window);
    }

    /** `addAdminAccount`: creates the account with role "admin", whatever role it came with. */
    method AddAdminAccount(candidate: Candidate, salt: Salt, now: int, window: int) returns (r: Result<Account>)
      requires Valid()
      modifies this
      ensures Valid()
      ensures candidate.email in old(accounts) ==> r == Err(AccountAlreadyExists) && accounts == old(accounts)
      ensures candidate.email !in old(accounts) ==>
        && r.Ok? && r.value.role == "admin"
        && r.value == PrepareAccountForInsertion(candidate.(role := "admin"), salt, now, window)
        && accounts == old(accounts)[candidate.email := r.value]
    {
      r := CreateAccount(candidate.(role := "admin"), salt, now, window);
    }

    /**
     * `#createAccount`: 409 if the email is taken, otherwise inserts the prepared
     * record and returns what was stored.
     */
    method CreateAccount(candidate: Candidate, salt: Salt, now: int, window: int) returns (r: Result<Account>)
      requires Valid()
      modifies this
      ensures Valid()
      ensures candidate.email in old(accounts) ==> r == Err(AccountAlreadyExists) && accounts == old(accounts)
      ensures candidate.email !in old(accounts) ==>
        && r == Ok(PrepareAccountForInsertion(candidate, salt, now, window))
        && accounts == old(accounts)[candidate.email := r.value]
    {
      if candidate.email in accounts {
        return Err(AccountAlreadyExists);
      }
      var account := PrepareAccountForInsertion(candidate, salt, now, window);
      accounts := accounts[candidate.email := account];
      r := Ok(accounts[candidate.email]);
    }

    /**
     * `setRole`: stores the new role. What it returns is rebuilt by
     * `#prepareAccountForInsertion` from the stored record, so it reports an
     * unblocked account with no votes, a fresh expiration and a hash of the stored hash.
     */
    method SetRole(email: string, role: string, salt: Salt, now: int, window: int) returns (r: Result<Account>)
      requires Valid()
      modifies this
      ensures Valid()
      ensures email !in old(accounts) ==> r == Err(AccountNotFound) && accounts == old(accounts)
      ensures email in old(accounts) ==>
        && accounts == WithRole(old(accounts), email, role)
        && r == Ok(PrepareAccountForInsertion(AsCandidate(old(accounts)[email], role), salt, now, window))
        && r.value.email == email && r.value.role == role && !r.value.blocked && r.value.moviesVoted == []
    {
      if email !in accounts {
        return Err(AccountNotFound);
      }
      var account := accounts[email];
      accounts := accounts[email := account.(role := role)];
      account := account.(role := role);
      r := Ok(PrepareAccountForInsertion(AsCandidate(account, account.role), salt, now, window));
    }

    /**
     * `updatePassword`: 404 if absent; a status-less "Password is the same" if the
     * new password matches the stored hash; otherwise stores a hash of it.
     */
    method UpdatePassword(email: string, newPassword: string, salt: Salt) returns (r: Result<()>)
      requires Valid()
      modifies this
      ensures Valid()
      ensures email !in old(accounts) ==> r == Err(AccountNotFound) && accounts == old(accounts)
      ensures email in old(accounts) && Matches(newPassword, old(accounts)[email].password) ==>
        r == Err(PasswordIsTheSame) && accounts == old(accounts)
      ensures email in old(accounts) && !Matches(newPassword, old(accounts)[email].password) ==>
        && r == Ok(())
        && accounts == WithPassword(old(accounts), email, Hash(newPassword, salt))
        && Matches(newPassword, accounts[email].password)
    {
      if email !in accounts {
        return Err(AccountNotFound);
      }
      if Matches(newPassword, accounts[email].password) {
        return Err(PasswordIsTheSame);
      }
      accounts := accounts[email := accounts[email].(password := Hash(newPassword, salt))];
      r := Ok(());
    }

    /** `getAccountByEmail`: the stored record, or 404. */
    method GetAccountByEmail(email: string) returns (r: Result<Account>)
      ensures r == Lookup(accounts, email)
      ensures r.Ok? <==> email in accounts
    {
      if email !in accounts {
        return Err(AccountNotFound);
      }
      r := Ok(accounts[email]);
    }

    /** `updateMoviesVoted`: appends the movie to the record's votes (`$push`). */
    method UpdateMoviesVoted(email: string, movieId: MovieId) returns (r: Result<()>)
      requires Valid()
      modifies this
      ensures Valid()
      ensures email !in old(accounts) ==> r == Err(AccountNotFound) && accounts == old(accounts)
      ensures email in old(accounts) ==> r == Ok(()) && accounts == WithVote(old(accounts), email, movieId)
    {
      if email !in accounts {
        return Err(AccountNotFound);
      }
      var account := accounts[email];
      accounts := accounts[email := account.(moviesVoted := account.moviesVoted + [movieId])];
      r := Ok(());
    }

    /** `blockUnblockAccount`: stores the negation of the fetched `blocked` flag. */
    method BlockUnblockAccount(email: string) returns (r: Result<()>)
      requires Valid()
      modifies this
      ensures Valid()
      ensures email !in old(accounts) ==> r == Err(AccountNotFound) && accounts == old(accounts)
      ensures email in old(accounts) ==> r == Ok(()) && accounts == WithBlockToggled(old(accounts), email)
    {
      if email !in accounts {
        return Err(AccountNotFound);
      }
      var account := accounts[email];
      accounts := accounts[email := account.(blocked := !account.blocked)];
      r := Ok(());
    }

    /** `deleteAccount`: removes exactly that email's record. */
    method DeleteAccount(email: string) returns (r: Result<()>)
      requires Valid()
      modifies this
      ensures Valid()
      ensures email !in old(accounts) ==> r == Err(AccountNotFound) && accounts == old(accounts)
      ensures email in old(accounts) ==> r == Ok(()) && accounts == old(accounts) - {email}
    {
      if email !in accounts {
        return Err(AccountNotFound);
      }
      accounts := accounts - {email};
      r := Ok(());
    }

    /**
     * `login`: refreshes the expiration of the fetched copy only, then checks the
     * password and the expiry, and issues a token for the copy. The store is not
     * touched (the method modifies nothing).
     */
    method Login(key: LoginKey, password: string, now: int, checkedAt: int, window: int,
                 getJwt: Account -> string) returns (r: Result<string>)
      ensures r == LoginResult(accounts, key, password, now, checkedAt, window, getJwt)
      ensures key.ByRecord? ==> r == Err(AccountNotFound)
      ensures key.ByEmail? && key.email !in accounts ==> r == Err(AccountNotFound)
      ensures key.ByEmail? && key.email in accounts && !Matches(password, accounts[key.email].password) ==>
        r == Err(PasswordsDoNotMatch)
      ensures r.Ok? ==> key.ByEmail? && key.email in accounts && Matches(password, accounts[key.email].password)
    {
      var found := FindOne(accounts, key);
      if found.None? {
        return Err(AccountNotFound);
      }
      var account := found.value;
      account := account.(expiration := now + window);
      if !Matches(password, account.password) {
        return Err(PasswordsDoNotMatch);
      }
      if checkedAt > account.expiration {
        return Err(SessionExpired);
      }
      r := Ok(getJwt(account));
    }
  }
}
