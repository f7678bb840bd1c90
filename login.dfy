/** `POST /login` (backend/src/routes/login.rs): look the user up by email, check
    the password against the directory, and answer with a signed session token. */
module Login {

  import opened Wrappers
  import opened Models
  import opened Http
  import opened Auth

  datatype LoginRequest = LoginRequest(email: string, password: string)

  const UserNotFound := AppError(404, "user not found")
  const InvalidPassword := AppError(401, "invalid password")

  /** The login handler. The directory, the password bind, the clock and token
      signing are parameters; each error they report becomes a 500. */
  function Login(req: LoginRequest,
                 directory: string -> Result<seq<SearchEntry>, string>,
                 checkPassword: (LdapSearchResult, string) -> Result<bool, string>,
                 now: Timestamp,
                 sign: User -> Result<string, string>): (r: Outcome<Json>)
    ensures SearchUser(req.email, directory) == NoEntry <==> r == Failed(UserNotFound)
    ensures SearchUser(req.email, directory).SearchPanic? <==> r.Panicked?
    ensures r.Done? <==>
              && SearchUser(req.email, directory).Entry?
              && checkPassword(SearchUser(req.email, directory).result, req.password) == Success(true)
              && sign(ClaimsFor(SearchUser(req.email, directory).result, now)).Success?
    ensures r.Done? ==>
              r.value == JObject([("token", JString(sign(ClaimsFor(SearchUser(req.email, directory).result, now)).value))])
    ensures r == Failed(InvalidPassword) <==>
              && SearchUser(req.email, directory).Entry?
              && checkPassword(SearchUser(req.email, directory).result, req.password) == Success(false)
    ensures r.Failed? ==> r.error.status in {404, 401, 500}
  {
    match SearchUser(req.email, directory)
    case SearchError(m) => Failed(FromError(m))
    case SearchPanic => Panicked
    case NoEntry => Failed(UserNotFound)
    case Entry(found) =>
      match checkPassword(found, req.password)
      case Failure(m) => Failed(FromError(m))
      case Success(false) => Failed(InvalidPassword)
      case Success(true) =>
        match sign(ClaimsFor(found, now))
        case Failure(m) => Failed(FromError(m))
        case Success(token) => Done(JObject([("token", JString(token))]))
  }

  /** An unknown email is answered without consulting the password check, the
      clock or the signer: the result is the same whatever they are. */
  lemma UnknownUserSkipsPasswordCheck(req: LoginRequest,
                                      directory: string -> Result<seq<SearchEntry>, string>,
                                      check1: (LdapSearchResult, string) -> Result<bool, string>,
                                      check2: (LdapSearchResult, string) -> Result<bool, string>,
                                      now1: Timestamp, now2: Timestamp,
                                      sign1: User -> Result<string, string>,
                                      sign2: User -> Result<string, string>)
    requires !SearchUser(req.email, directory).Entry?
    ensures Login(req, directory, check1, now1, sign1) == Login(req, directory, check2, now2, sign2)
  {
  }

  /** Every error the handler reports renders as a response. */
  lemma LoginErrorsRender(req: LoginRequest,
                          directory: string -> Result<seq<SearchEntry>, string>,
                          checkPassword: (LdapSearchResult, string) -> Result<bool, string>,
                          now: Timestamp,
                          sign: User -> Result<string, string>)
    ensures var r := Login(req, directory, checkPassword, now, sign);
            r.Failed? ==> IntoResponse(r.error).Some? && IntoResponse(r.error).value.status == r.error.status
  {
  }

  /** The token is signed over the claims of the entry found: its subject is the
      entry's first cn, its email the one that logged in. */
  lemma TokenNamesTheUser(req: LoginRequest,
                          directory: string -> Result<seq<SearchEntry>, string>,
                          checkPassword: (LdapSearchResult, string) -> Result<bool, string>,
                          now: Timestamp,
                          sign: User -> Result<string, string>)
    requires Login(req, directory, checkPassword, now, sign).Done?
    ensures exists u: User :: && u.email == req.email
                              && sign(u).Success?
                              && Login(req, directory, checkPassword, now, sign).value
                                 == JObject([("token", JString(sign(u).value))])
  {
    var u := ClaimsFor(SearchUser(req.email, directory).result, now);
    assert u.email == req.email;
  }
}
