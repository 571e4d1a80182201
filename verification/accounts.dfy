/**
 * The credential routes of `backend/server.js`: administrator login, client
 * login and client registration. Password hashing and comparison are foreign
 * code (the parameter `matches`), and the client-account lookup
 * `findClientByEmail` is not part of the order store, so it is the parameter
 * `findClient`. Registration returns the account it would hand to
 * `createClient` instead of creating it.
 */
module Accounts {
  import opened Common
  import opened Text
  import opened RateLimit
  import opened Auth

  /** Administrator credentials from the environment, defaults applied. */
  datatype AdminConfig = AdminConfig(email: string, password: string)

  const DefaultAdminEmail: string := "admin@luminett.fr"
  const DefaultAdminPassword: string := "Admin2024!"

  /** `process.env.X || default`: an unset or empty variable falls back to the default;
      a set one is used as it is. */
  function ConfigFromEnv(envEmail: string, envPassword: string): (r: AdminConfig)
    ensures r.email == (if envEmail == "" then DefaultAdminEmail else envEmail)
    ensures r.password == (if envPassword == "" then DefaultAdminPassword else envPassword)
    ensures r.email != "" && r.password != ""
  {
    AdminConfig(if envEmail == "" then DefaultAdminEmail else envEmail,
                if envPassword == "" then DefaultAdminPassword else envPassword)
  }

  /** A registered client account as the lookup returns it. */
  datatype Client = Client(id: int, name: string, email: string, passwordHash: string)

  /** The reply of a login route (the claims the token is signed with) and the limiter after it. */
  datatype LoginOutcome = LoginOutcome(reply: Result<Claims>, limiter: Limiter)

  /** The administrator check: e-mail compared case-insensitively, password exactly.
      An absent e-mail is `""`. */
  predicate AdminCredentialsMatch(cfg: AdminConfig, email: string, password: string)
  {
    ToLower(email) == ToLower(cfg.email) && password == cfg.password
  }

  /** `POST /api/auth/login`: a locked-out address is refused with 429 before anything
      else and its record is left as it is; wrong credentials count one failure;
      right ones clear the address and sign an administrator token. */
  function AdminLogin(lim: Limiter, ip: string, now: int, cfg: AdminConfig,
                      email: string, password: string): (r: LoginOutcome)
    ensures Check(lim, ip, now).Refused? ==>
      r == LoginOutcome(Err(TooManyRequests(Check(lim, ip, now).waitMinutes)), lim)
    ensures Check(lim, ip, now).Allowed? && !AdminCredentialsMatch(cfg, email, password) ==>
      r == LoginOutcome(Err(Unauthorized), RecordFail(lim, ip, now))
    ensures Check(lim, ip, now).Allowed? && AdminCredentialsMatch(cfg, email, password) ==>
      r == LoginOutcome(Ok(AdminClaims()), Clear(lim, ip))
  {
    match Check(lim, ip, now)
    case Refused(wait) => LoginOutcome(Err(TooManyRequests(wait)), lim)
    case Allowed =>
      if !AdminCredentialsMatch(cfg, email, password) then
        LoginOutcome(Err(Unauthorized), RecordFail(lim, ip, now))
      else
        LoginOutcome(Ok(AdminClaims()), Clear(lim, ip))
  }

  /** Without `ADMIN_EMAIL` and `ADMIN_PASSWORD`, the default credentials log in, with the
      e-mail in any letter case, as long as the address is not locked out. */
  lemma DefaultCredentialsLogIn(lim: Limiter, ip: string, now: int, email: string)
    requires Check(lim, ip, now).Allowed?
    requires SameIgnoringCase(email, DefaultAdminEmail)
    ensures AdminLogin(lim, ip, now, ConfigFromEnv("", ""), email, DefaultAdminPassword)
      == LoginOutcome(Ok(AdminClaims()), Clear(lim, ip))
  {
  }

  /** Where a client login stands when it reaches `await bcrypt.compare`: either it has
      already answered, or it waits on the comparison with the account it found. */
  datatype LoginStage = Answered(outcome: LoginOutcome) | Comparing(client: Client)

  /** The part of `POST /api/client/login` before the await: 429 while locked out; 400
      for a missing e-mail or password, which does not count as a failure; 401 and one
      more failure for an unknown e-mail. A known e-mail goes on to the comparison
      with the limiter untouched. */
  function ClientLoginStart(lim: Limiter, ip: string, now: int, email: string, password: string,
                            findClient: string -> Option<Client>): (r: LoginStage)
    ensures Check(lim, ip, now).Refused? ==>
      r == Answered(LoginOutcome(Err(TooManyRequests(Check(lim, ip, now).waitMinutes)), lim))
    ensures Check(lim, ip, now).Allowed? && (email == "" || password == "") ==>
      r == Answered(LoginOutcome(Err(BadRequest), lim))
    ensures Check(lim, ip, now).Allowed? && email != "" && password != "" && findClient(email).None? ==>
      r == Answered(LoginOutcome(Err(Unauthorized), RecordFail(lim, ip, now)))
    ensures r.Comparing? <==>
      (Check(lim, ip, now).Allowed? && email != "" && password != "" && findClient(email).Some?)
    ensures r.Comparing? ==> r.client == findClient(email).value
  {
    match Check(lim, ip, now)
    case Refused(wait) => Answered(LoginOutcome(Err(TooManyRequests(wait)), lim))
    case Allowed =>
      if email == "" || password == "" then Answered(LoginOutcome(Err(BadRequest), lim))
      else match findClient(email)
        case None => Answered(LoginOutcome(Err(Unauthorized), RecordFail(lim, ip, now)))
        case Some(c) => Comparing(c)
  }

  /** The part after the await, on the limiter as it is by then: a wrong password is 401
      and one more failure, a right one clears the address and signs a client token
      naming the account. The limiter is not consulted again. */
  function ClientLoginFinish(lim: Limiter, ip: string, now: int, c: Client, matched: bool)
    : (r: LoginOutcome)
    ensures r.reply.Ok? <==> matched
    ensures !matched ==> r == LoginOutcome(Err(Unauthorized), RecordFail(lim, ip, now))
    ensures matched ==> r == LoginOutcome(Ok(ClientClaims(c.id, c.email, c.name)), Clear(lim, ip))
  {
    if !matched then LoginOutcome(Err(Unauthorized), RecordFail(lim, ip, now))
    else LoginOutcome(Ok(ClientClaims(c.id, c.email, c.name)), Clear(lim, ip))
  }

  /** `POST /api/client/login` when no other request for the address runs in between:
      the two parts one after the other on the same limiter. */
  function ClientLogin(lim: Limiter, ip: string, now: int, email: string, password: string,
                       findClient: string -> Option<Client>,
                       matches: (string, string) -> bool): (r: LoginOutcome)
    ensures Check(lim, ip, now).Refused? ==>
      r == LoginOutcome(Err(TooManyRequests(Check(lim, ip, now).waitMinutes)), lim)
    ensures Check(lim, ip, now).Allowed? && (email == "" || password == "") ==>
      r == LoginOutcome(Err(BadRequest), lim)
    ensures (Check(lim, ip, now).Allowed? && email != "" && password != ""
      && (findClient(email).None? || !matches(password, findClient(email).value.passwordHash))) ==>
      r == LoginOutcome(Err(Unauthorized), RecordFail(lim, ip, now))
    ensures r.reply.Ok? <==> (Check(lim, ip, now).Allowed? && email != "" && password != ""
      && findClient(email).Some? && matches(password, findClient(email).value.passwordHash))
    ensures r.reply.Ok? ==> var c := findClient(email).value;
      r == LoginOutcome(Ok(ClientClaims(c.id, c.email, c.name)), Clear(lim, ip))
  {
    match ClientLoginStart(lim, ip, now, email, password, findClient)
    case Answered(o) => o
    case Comparing(c) => ClientLoginFinish(lim, ip, now, c, matches(password, c.passwordHash))
  }

  /** Wrong passwords for a known account sent together from one fresh address: every
      request passes the limiter before any comparison ends, so all of them are compared,
      however many there are, whereas one after the other the sixth would get 429. Their
      failures are recorded only afterwards; after six, the address is locked with one
      failure already counted towards the next lock-out. */
  lemma ConcurrentGuessesAllCompared(lim: Limiter, ip: string, now: int, email: string,
                                     guesses: seq<string>, findClient: string -> Option<Client>,
                                     finishTimes: seq<int>)
    requires Get(lim, ip) == Attempts(0, 0) && now >= 0
    requires email != "" && findClient(email).Some?
    requires forall g :: g in guesses ==> g != ""
    requires |finishTimes| == 6
    ensures forall g :: g in guesses ==>
      ClientLoginStart(lim, ip, now, email, g, findClient) == Comparing(findClient(email).value)
    ensures Get(FailAll(lim, ip, finishTimes), ip) == Attempts(1, finishTimes[4] + LockoutMs)
  {
    FiveFailuresLockOut(lim, ip, finishTimes[..5]);
    assert finishTimes[..6][..5] == finishTimes[..5];
    assert finishTimes[..6] == finishTimes;
  }

  /** Shortest accepted password. */
  const MinPasswordLength: nat := 6

  /** The account registration hands to `createClient` (the password is hashed on the way). */
  datatype NewAccount = NewAccount(name: string, email: string, phone: string, password: string)

  /** `POST /api/client/register`, checked in order: a missing name, e-mail or
      password is 400; a password under six characters is 400; an e-mail that
      already has an account is 409; only then is an account created. */
  function Register(name: string, email: string, phone: string, password: string,
                    findClient: string -> Option<Client>): (r: Result<NewAccount>)
    ensures (name == "" || email == "" || password == "") ==> r == Err(BadRequest)
    ensures name != "" && email != "" && password != "" && |password| < MinPasswordLength ==>
      r == Err(BadRequest)
    ensures (name != "" && email != "" && |password| >= MinPasswordLength
      && findClient(email).Some?) ==> r == Err(Conflict)
    ensures r.Ok? <==> (name != "" && email != "" && |password| >= MinPasswordLength
      && findClient(email).None?)
    ensures r.Ok? ==> r.value == NewAccount(name, email, phone, password)
  {
    if name == "" || email == "" || password == "" then Err(BadRequest)
    else if |password| < MinPasswordLength then Err(BadRequest)
    else if findClient(email).Some? then Err(Conflict)
    else Ok(NewAccount(name, email, phone, password))
  }

  /** Two registrations of one new e-mail that both look it up before either account is
      created (the lookup and `createClient` are separated by `await bcrypt.hash`) both
      succeed, so two accounts share the e-mail; had the second looked only after the
      first account was created, it would have got 409. */
  lemma ConcurrentRegistrationsBothCreate(email: string, name1: string, phone1: string,
                                          password1: string, name2: string, phone2: string,
                                          password2: string, findClient: string -> Option<Client>,
                                          first: Client)
    requires findClient(email).None?
    requires Register(name1, email, phone1, password1, findClient).Ok?
    requires name2 != "" && |password2| >= MinPasswordLength
    requires first.email == email
    ensures Register(name2, email, phone2, password2, findClient).Ok?
    ensures Register(name1, email, phone1, password1, findClient).value.email
      == Register(name2, email, phone2, password2, findClient).value.email
    ensures Register(name2, email, phone2, password2,
                     (e: string) => if e == email then Some(first) else findClient(e)) == Err(Conflict)
  {
  }

  /** A successful administrator login leaves the address with no failures and no
      lock-out, so the next attempt is let through. */
  lemma AdminLoginSuccessResets(lim: Limiter, ip: string, now: int, cfg: AdminConfig,
                                email: string, password: string, later: int)
    requires later >= 0
    requires AdminLogin(lim, ip, now, cfg, email, password).reply.Ok?
    ensures Get(AdminLogin(lim, ip, now, cfg, email, password).limiter, ip) == Attempts(0, 0)
    ensures Check(AdminLogin(lim, ip, now, cfg, email, password).limiter, ip, later) == Allowed
  {
  }

  /** The same for a successful client login. */
  lemma ClientLoginSuccessResets(lim: Limiter, ip: string, now: int, email: string, password: string,
                                 findClient: string -> Option<Client>,
                                 matches: (string, string) -> bool, later: int)
    requires later >= 0
    requires ClientLogin(lim, ip, now, email, password, findClient, matches).reply.Ok?
    ensures Get(ClientLogin(lim, ip, now, email, password, findClient, matches).limiter, ip)
      == Attempts(0, 0)
    ensures Check(ClientLogin(lim, ip, now, email, password, findClient, matches).limiter, ip, later)
      == Allowed
  {
  }

  /** Failed administrator logins from one address at the given times, in order. */
  function AdminAttempts(lim: Limiter, ip: string, times: seq<int>, cfg: AdminConfig,
                         email: string, password: string): Limiter
  {
    if |times| == 0 then lim
    else AdminLogin(AdminAttempts(lim, ip, times[..|times| - 1], cfg, email, password),
                    ip, times[|times| - 1], cfg, email, password).limiter
  }

  /** Up to four wrong attempts from a fresh address are each let through and counted. */
  lemma {:induction false} WrongAttemptsCount(lim: Limiter, ip: string, times: seq<int>,
                                              cfg: AdminConfig, email: string, password: string)
    requires Get(lim, ip) == Attempts(0, 0)
    requires |times| < MaxFailures
    requires forall i :: 0 <= i < |times| ==> times[i] >= 0
    requires !AdminCredentialsMatch(cfg, email, password)
    ensures Get(AdminAttempts(lim, ip, times, cfg, email, password), ip) == Attempts(|times|, 0)
  {
    if |times| > 0 {
      WrongAttemptsCount(lim, ip, times[..|times| - 1], cfg, email, password);
    }
  }

  /** Five wrong administrator logins from a fresh address lock it out: a sixth attempt
      within 15 minutes of the fifth is refused with 429, even with the right
      credentials, and leaves the record unchanged. */
  lemma FiveWrongLoginsLockOut(lim: Limiter, ip: string, times: seq<int>, cfg: AdminConfig,
                               email: string, password: string, sixth: int, anyEmail: string,
                               anyPassword: string)
    requires Get(lim, ip) == Attempts(0, 0)
    requires |times| == MaxFailures
    requires forall i :: 0 <= i < |times| ==> times[i] >= 0
    requires !AdminCredentialsMatch(cfg, email, password)
    requires times[4] <= sixth < times[4] + LockoutMs
    ensures var after := AdminAttempts(lim, ip, times, cfg, email, password);
      Get(after, ip) == Attempts(0, times[4] + LockoutMs)
      && AdminLogin(after, ip, sixth, cfg, anyEmail, anyPassword).reply.Err?
      && AdminLogin(after, ip, sixth, cfg, anyEmail, anyPassword).reply.error.TooManyRequests?
      && AdminLogin(after, ip, sixth, cfg, anyEmail, anyPassword).limiter == after
  {
    WrongAttemptsCount(lim, ip, times[..4], cfg, email, password);
  }
}
