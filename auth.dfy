/** The authentication service (services/auth_service.py): registration,
    login and token checking over the user repository. Password hashing
    (bcrypt) and JWT encoding and decoding are opaque functions given to the
    service; the clock is a parameter of each operation. */
module Auth {
  import opened Common
  import opened UserModels
  import opened UserStore

  datatype AuthError =
    | Http(status: int, detail: string)
      /** An exception the service does not turn into an HTTP error. */
    | Unhandled(reason: string)

  const InvalidCredentials: string := "Invalid email or password"
  const CouldNotValidate: string := "Could not validate credentials"

  /** 15 minutes, the lifetime of a token created without an explicit one. */
  const DefaultTokenLifetime: int := 15 * MicrosPerMinute

  /** The `exp` instant of a token. `if expires_delta:` treats a zero
      `timedelta` like a missing one. */
  function TokenExpiry(now: Instant, expiresDelta: Option<int>): (exp: Instant)
    ensures expiresDelta.Some? && expiresDelta.value != 0 ==> exp == now + expiresDelta.value
    ensures expiresDelta.None? || expiresDelta.value == 0 ==> exp == now + DefaultTokenLifetime
  {
    if expiresDelta.Some? && expiresDelta.value != 0 then now + expiresDelta.value else now + DefaultTokenLifetime
  }

  /** A token created without a negative lifetime expires strictly after it is issued. */
  lemma TokenExpiresAfterIssue(now: Instant, expiresDelta: Option<int>)
    requires expiresDelta.None? || expiresDelta.value >= 0
    ensures TokenExpiry(now, expiresDelta) > now
  {
  }

  /** The claims `create_access_token` signs: the given ones, with `exp` set. */
  function TokenClaims(data: map<string, Value>, expiresDelta: Option<int>, now: Instant): (c: map<string, Value>)
    ensures c.Keys == data.Keys + {"exp"}
    ensures c["exp"] == VInt(TokenExpiry(now, expiresDelta))
    ensures forall k :: k in data && k != "exp" ==> c[k] == data[k]
  {
    data["exp" := VInt(TokenExpiry(now, expiresDelta))]
  }

  /** The reply record built from a stored user. */
  function ResponseOf(u: UserRecord): (r: UserResponse)
    ensures r.userId == u.userId && r.email == u.email && r.name == u.name
    ensures r.createdAt == u.createdAt && r.lastActive == u.lastActive && r.isActive == u.isActive
    ensures r.phoneNumber == u.phoneNumber
  {
    UserResponse(u.userId, u.email, u.name, u.phoneNumber, u.createdAt, u.lastActive, u.isActive)
  }

  class AuthService {
    const repo: UserRepository
    const accessTokenExpireMinutes: int
    const hashPassword: string -> string
    const verifyPassword: (string, string) -> bool
    /** `jwt.encode` with the service's key and algorithm. */
    const encodeToken: map<string, Value> -> string
    /** `jwt.decode`: `None` when it raises `JWTError`. */
    const decodeToken: string -> Option<map<string, Value>>

    constructor (repo: UserRepository, accessTokenExpireMinutes: int, hashPassword: string -> string,
                 verifyPassword: (string, string) -> bool, encodeToken: map<string, Value> -> string,
                 decodeToken: string -> Option<map<string, Value>>)
      ensures this.repo == repo && this.accessTokenExpireMinutes == accessTokenExpireMinutes
      ensures this.hashPassword == hashPassword && this.verifyPassword == verifyPassword
      ensures this.encodeToken == encodeToken && this.decodeToken == decodeToken
    {
      this.repo := repo;
      this.accessTokenExpireMinutes := accessTokenExpireMinutes;
      this.hashPassword := hashPassword;
      this.verifyPassword := verifyPassword;
      this.encodeToken := encodeToken;
      this.decodeToken := decodeToken;
    }

    function CreateAccessToken(data: map<string, Value>, expiresDelta: Option<int>, now: Instant): string
    {
      encodeToken(TokenClaims(data, expiresDelta, now))
    }

    /** Registration: a known e-mail address is refused with 400 and nothing
        is stored; otherwise the record is stored with the hashed password.
        `now` is the time the record is created; the reply takes its own two
        readings of the clock, `replyCreatedAt` and `replyLastActive`. */
    method CreateUser(user: UserCreate, newId: string, now: Instant, replyCreatedAt: Instant, replyLastActive: Instant)
      returns (r: Result<UserResponse, AuthError>)
      requires repo.Valid()
      modifies repo
      ensures repo.Valid()
      ensures old(repo.EmailTaken(user.email)) ==>
                r == Err(Http(400, "Email already registered")) && repo.users == old(repo.users)
      ensures !old(repo.EmailTaken(user.email)) && newId in old(repo.users) ==>
                r.Err? && r.error.Unhandled? && repo.users == old(repo.users)
      ensures !old(repo.EmailTaken(user.email)) && newId !in old(repo.users) ==>
                r == Ok(NewUserResponse(newId, user.email, user.name, user.phoneNumber, replyCreatedAt, replyLastActive))
                && repo.users == old(repo.users)[newId := NewUserRecord(newId, user.name, user.email,
                                                                        hashPassword(user.password), user.phoneNumber, now)]
    {
      if repo.GetUserByEmail(user.email).Some? {
        return Err(Http(400, "Email already registered"));
      }
      var hashed := hashPassword(user.password);
      var id := repo.CreateUser(user.name, user.email, hashed, user.phoneNumber, newId, now);
      if id.Err? {
        return Err(Unhandled("duplicate user_id"));
      }
      r := Ok(NewUserResponse(id.value, user.email, user.name, user.phoneNumber, replyCreatedAt, replyLastActive));
    }

    /** Login. The checks run in order: unknown address, deactivated account,
        wrong password (which counts a failed attempt); a success resets the
        counter, records the login time and issues a bearer token for the
        address. `isNewUser` is judged on the record as it was before the
        login; the source computes it but `Token` drops it. The clock is read
        three times: `loginAt` is stored as `last_active`, `replyAt` is the
        reply's `last_active` and `issuedAt` is when the token is made. */
    method AuthenticateUser(email: string, password: string, loginAt: Instant, replyAt: Instant, issuedAt: Instant)
      returns (r: Result<Token, AuthError>, isNewUser: bool)
      requires repo.Valid()
      modifies repo
      ensures repo.Valid()
      ensures match old(repo.GetUserByEmail(email))
              case None =>
                r == Err(Http(401, InvalidCredentials)) && repo.users == old(repo.users)
              case Some(u) =>
                if !u.isActive then
                  r == Err(Http(401, "Account is deactivated")) && repo.users == old(repo.users)
                else if !verifyPassword(password, u.passwordHash) then
                  r == Err(Http(401, InvalidCredentials))
                  && repo.users == old(repo.users)[u.userId := u.(loginAttempts := u.loginAttempts + 1)]
                else
                  r == Ok(NewToken(CreateAccessToken(map["sub" := VStr(email)],
                                                     Some(accessTokenExpireMinutes * MicrosPerMinute), issuedAt),
                                   ResponseOf(u.(lastActive := replyAt))))
                  && isNewUser == IsNewUser(u)
                  && repo.users == old(repo.users)[u.userId := u.(loginAttempts := 0, lastActive := loginAt)]
    {
      isNewUser := false;
      var found := repo.GetUserByEmail(email);
      if found.None? {
        return Err(Http(401, InvalidCredentials)), false;
      }
      var u := found.value;
      if !u.isActive {
        return Err(Http(401, "Account is deactivated")), false;
      }
      if !verifyPassword(password, u.passwordHash) {
        repo.IncrementLoginAttempts(email);
        return Err(Http(401, InvalidCredentials)), false;
      }
      isNewUser := IsNewUser(u);
      repo.ResetLoginAttempts(email);
      repo.UpdateLastActive(u.userId, loginAt);
      var response := ResponseOf(u.(lastActive := replyAt));
      var token := CreateAccessToken(map["sub" := VStr(email)], Some(accessTokenExpireMinutes * MicrosPerMinute), issuedAt);
      r := Ok(NewToken(token, response));
    }

    /** The user a token names: its `sub` claim must be present and must be
        the e-mail address of a stored user. */
    function GetCurrentUser(token: string): (r: Result<UserResponse, AuthError>)
      reads repo
      requires repo.Valid()
      ensures decodeToken(token).None? ==> r == Err(Http(401, CouldNotValidate))
      ensures r.Ok? ==> decodeToken(token).Some? && "sub" in decodeToken(token).value
                        && decodeToken(token).value["sub"] == VStr(r.value.email)
                        && repo.GetUserByEmail(r.value.email).Some?
                        && r.value == ResponseOf(repo.GetUserByEmail(r.value.email).value)
      ensures (decodeToken(token).Some? && ("sub" !in decodeToken(token).value || decodeToken(token).value["sub"] == VNull))
              ==> r == Err(Http(401, CouldNotValidate))
      ensures (decodeToken(token).Some? && "sub" in decodeToken(token).value
               && decodeToken(token).value["sub"].VStr? && !repo.EmailTaken(decodeToken(token).value["sub"].s))
              ==> r == Err(Http(401, CouldNotValidate))
      ensures (decodeToken(token).Some? && "sub" in decodeToken(token).value
               && decodeToken(token).value["sub"].VStr? && repo.EmailTaken(decodeToken(token).value["sub"].s))
              ==> r == Ok(ResponseOf(repo.GetUserByEmail(decodeToken(token).value["sub"].s).value))
      ensures (decodeToken(token).Some? && "sub" in decodeToken(token).value
               && decodeToken(token).value["sub"] != VNull && !decodeToken(token).value["sub"].VStr?)
              ==> r.Err? && r.error.Unhandled?
    {
      match decodeToken(token)
      case None => Err(Http(401, CouldNotValidate))
      case Some(claims) =>
        if "sub" !in claims || claims["sub"] == VNull then Err(Http(401, CouldNotValidate))
        else if !claims["sub"].VStr? then Err(Unhandled("TokenData rejects a non-string subject"))
        else
          match repo.GetUserByEmail(claims["sub"].s)
          case None => Err(Http(401, CouldNotValidate))
          case Some(u) => Ok(ResponseOf(u))
    }
  }
}
