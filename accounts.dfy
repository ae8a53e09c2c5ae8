/**
 * The account record of the access-control layer and the pure meaning of every
 * account-store operation over the collection's contents, a map from email to
 * record. The class `AccountService` states its methods in these terms.
 */
module Accounts {
  import opened Errors
  import opened Bcrypt

  /** Movies are identified by their IMDb id. */
  type MovieId = int

  /** A stored account document. `password` holds a bcrypt hash. */
  datatype Account = Account(
    email: string,
    username: string,
    role: string,
    blocked: bool,
    password: string,
    expiration: int,
    moviesVoted: seq<MovieId>,
    numGetRequest: int)

  /** The fields of its argument that `#prepareAccountForInsertion` reads. */
  datatype Candidate = Candidate(email: string, username: string, role: string, password: string)

  /** The accounts collection: every record under its own email. */
  type Store = map<string, Account>

  ghost predicate KeyedByEmail(s: Store)
  {
    forall e :: e in s ==> s[e].email == e
  }

  /**
   * `#prepareAccountForInsertion`: a new record built from the candidate, with the
   * password hashed (under `salt`) and the session expiring `window` after `now`.
   */
  function PrepareAccountForInsertion(c: Candidate, salt: Salt, now: int, window: int): (a: Account)
    ensures a.email == c.email && a.username == c.username && a.role == c.role
    ensures !a.blocked && a.moviesVoted == [] && a.numGetRequest == 0
    ensures a.expiration == now + window
    ensures Matches(c.password, a.password)
  {
    Account(c.email, c.username, c.role, false, Hash(c.password, salt), now + window, [], 0)
  }

  /** The candidate `setRole` rebuilds its result from: the stored record with the new role. */
  function AsCandidate(a: Account, role: string): Candidate
  {
    Candidate(a.email, a.username, role, a.password)
  }

  // ---- store transitions: the one targeted change each operation makes ----

  function WithRole(s: Store, email: string, role: string): (t: Store)
    requires email in s
    ensures t.Keys == s.Keys && forall e :: e in s && e != email ==> t[e] == s[e]
    ensures t[email].role == role && t[email].(role := s[email].role) == s[email]
  {
    s[email := s[email].(role := role)]
  }

  function WithPassword(s: Store, email: string, hash: string): (t: Store)
    requires email in s
    ensures t.Keys == s.Keys && forall e :: e in s && e != email ==> t[e] == s[e]
    ensures t[email].password == hash && t[email].(password := s[email].password) == s[email]
  {
    s[email := s[email].(password := hash)]
  }

  function WithVote(s: Store, email: string, movieId: MovieId): (t: Store)
    requires email in s
    ensures t.Keys == s.Keys && forall e :: e in s && e != email ==> t[e] == s[e]
    ensures t[email].(moviesVoted := s[email].moviesVoted) == s[email]
    ensures |t[email].moviesVoted| == |s[email].moviesVoted| + 1
  {
    s[email := s[email].(moviesVoted := s[email].moviesVoted + [movieId])]
  }

  function WithBlockToggled(s: Store, email: string): (t: Store)
    requires email in s
    ensures t.Keys == s.Keys && forall e :: e in s && e != email ==> t[e] == s[e]
    ensures t[email].blocked != s[email].blocked && t[email].(blocked := s[email].blocked) == s[email]
  {
    s[email := s[email].(blocked := !s[email].blocked)]
  }

  // ---- reads ----

  /** `getAccountByEmail`: the record under `email`, or 404. */
  function Lookup(s: Store, email: string): (r: Result<Account>)
    ensures r.Ok? <==> email in s
    ensures r.Ok? ==> r.value == s[email]
    ensures r.Err? ==> r.error == AccountNotFound
  {
    if email in s then Ok(s[email]) else Err(AccountNotFound)
  }

  /**
   * What `login` receives as its `email` argument. The login route passes a
   * string; basic authentication passes the whole account document.
   */
  datatype LoginKey = ByEmail(email: string) | ByRecord(account: Account)

  /**
   * `findOne({ email: key })`. Every stored email is a string, and an equality
   * query with a document as its value never matches a string field.
   */
  function FindOne(s: Store, key: LoginKey): (r: Option<Account>)
    ensures r.Some? <==> key.ByEmail? && key.email in s
    ensures r.Some? ==> r.value == s[key.email]
  {
    match key
    case ByEmail(e) => if e in s then Some(s[e]) else None
    case ByRecord(_) => None
  }

  /**
   * `login(key, password)`. `now` is the reading of `Date.now()` that refreshes
   * the expiration of the fetched copy, `checkedAt` the later reading compared
   * against it, `window` the session window, and `getJwt` the token issuer.
   */
  function LoginResult(s: Store, key: LoginKey, password: string, now: int, checkedAt: int,
                       window: int, getJwt: Account -> string): (r: Result<string>)
    ensures r == Err(AccountNotFound) <==> FindOne(s, key).None?
    ensures FindOne(s, key).Some? && !Matches(password, FindOne(s, key).value.password) ==>
      r == Err(PasswordsDoNotMatch)
    ensures r.Ok? ==>
      && key.ByEmail? && key.email in s && Matches(password, s[key.email].password)
      && r.value == getJwt(s[key.email].(expiration := now + window))
  {
    match FindOne(s, key)
    case None => Err(AccountNotFound)
    case Some(stored) =>
      var account := stored.(expiration := now + window);
      if !Matches(password, account.password) then Err(PasswordsDoNotMatch)
      else if checkedAt > account.expiration then Err(SessionExpired)
      else Ok(getJwt(account))
  }

  // ---- properties ----

  /** Each transition changes the one record it targets and keeps the collection keyed by email. */
  lemma TransitionsKeepKeys(s: Store, email: string, role: string, hash: string, movieId: MovieId)
    requires KeyedByEmail(s) && email in s
    ensures KeyedByEmail(WithRole(s, email, role)) && WithRole(s, email, role).Keys == s.Keys
    ensures KeyedByEmail(WithPassword(s, email, hash)) && WithPassword(s, email, hash).Keys == s.Keys
    ensures KeyedByEmail(WithVote(s, email, movieId)) && WithVote(s, email, movieId).Keys == s.Keys
    ensures KeyedByEmail(WithBlockToggled(s, email)) && WithBlockToggled(s, email).Keys == s.Keys
    ensures KeyedByEmail(s - {email})
  {
  }

  /** Toggling the block flag twice restores the store. */
  lemma ToggleTwiceRestores(s: Store, email: string)
    requires email in s
    ensures WithBlockToggled(WithBlockToggled(s, email), email) == s
  {
  }

  /** A vote is appended: one more entry, earlier ones kept, duplicates allowed. */
  lemma VoteAppends(s: Store, email: string, movieId: MovieId)
    requires email in s
    ensures var votes := WithVote(s, email, movieId)[email].moviesVoted;
      && |votes| == |s[email].moviesVoted| + 1
      && votes[..|s[email].moviesVoted|] == s[email].moviesVoted
      && votes[|votes| - 1] == movieId
  {
  }

  /** Voting twice for the same movie records it twice. */
  lemma RepeatedVoteKept(s: Store, email: string, movieId: MovieId)
    requires email in s
    ensures var votes := WithVote(WithVote(s, email, movieId), email, movieId)[email].moviesVoted;
      votes == s[email].moviesVoted + [movieId, movieId]
  {
  }

  /** With a non-negative window, the expiry branch cannot be taken when both clock readings agree. */
  lemma LoginExpiryUnreachable(s: Store, key: LoginKey, password: string, now: int,
                               checkedAt: int, window: int, getJwt: Account -> string)
    requires checkedAt <= now + window
    ensures LoginResult(s, key, password, now, checkedAt, window, getJwt) != Err(SessionExpired)
    ensures FindOne(s, key).Some? && Matches(password, FindOne(s, key).value.password) ==>
      LoginResult(s, key, password, now, checkedAt, window, getJwt)
        == Ok(getJwt(FindOne(s, key).value.(expiration := now + window)))
  {
  }

  /** The expiration stored in the record never influences `login`: only the refreshed copy is checked. */
  lemma LoginIgnoresStoredExpiration(s: Store, email: string, stale: int, password: string, now: int,
                                       checkedAt: int, window: int, getJwt: Account -> string)
    requires email in s
    ensures var t := s[email := s[email].(expiration := stale)];
      LoginResult(t, ByEmail(email), password, now, checkedAt, window, getJwt)
        == LoginResult(s, ByEmail(email), password, now, checkedAt, window, getJwt)
  {
  }

  /** Logging in with the document in place of an email always fails with 404. */
  lemma LoginByRecordNotFound(s: Store, a: Account, password: string, now: int, checkedAt: int,
                              window: int, getJwt: Account -> string)
    ensures LoginResult(s, ByRecord(a), password, now, checkedAt, window, getJwt) == Err(AccountNotFound)
  {
  }
}
