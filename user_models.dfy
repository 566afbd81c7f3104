/** The user records exchanged by the authentication service (modals/user.py):
    the registration form with its length constraints, and the reply records
    with their defaults. */
module UserModels {
  import opened Common

  datatype UserCreate = UserCreate(email: string, name: string, phoneNumber: string, password: string)

  datatype UserLogin = UserLogin(email: string, password: string)

  /** The fields of `UserCreate`, in declaration order. */
  datatype Field = EmailField | NameField | PhoneNumberField | PasswordField

  predicate LengthBetween(s: string, lo: nat, hi: nat)
  {
    lo <= |s| <= hi
  }

  /** The fields validation rejects, in declaration order. `EmailStr` is
      given as `emailOf`: the normalised address (surrounding spaces removed,
      a display name dropped, the domain lower-cased), or none when the text
      is not an e-mail address. */
  function ValidationErrors(u: UserCreate, emailOf: string -> Option<string>): (errs: seq<Field>)
    ensures EmailField in errs <==> emailOf(u.email).None?
    ensures NameField in errs <==> !LengthBetween(u.name, 2, 100)
    ensures PhoneNumberField in errs <==> !LengthBetween(u.phoneNumber, 10, 15)
    ensures PasswordField in errs <==> !LengthBetween(u.password, 6, 100)
    ensures forall i, j :: 0 <= i < j < |errs| ==> errs[i] != errs[j]
  {
    (if emailOf(u.email).Some? then [] else [EmailField])
    + (if LengthBetween(u.name, 2, 100) then [] else [NameField])
    + (if LengthBetween(u.phoneNumber, 10, 15) then [] else [PhoneNumberField])
    + (if LengthBetween(u.password, 6, 100) then [] else [PasswordField])
  }

  /** Constructing a `UserCreate` from a submitted form. */
  function ValidateUserCreate(u: UserCreate, emailOf: string -> Option<string>): Result<UserCreate, seq<Field>>
  {
    var errs := ValidationErrors(u, emailOf);
    if errs == [] then Ok(u.(email := emailOf(u.email).value)) else Err(errs)
  }

  /** A form is accepted exactly when the e-mail is an address, the name has
      2 to 100 characters, the phone number 10 to 15 and the password 6 to
      100; an accepted form keeps every field as submitted except the
      address, which is stored normalised. */
  lemma ValidateUserCreateAccepts(u: UserCreate, emailOf: string -> Option<string>)
    ensures ValidateUserCreate(u, emailOf).Ok? <==>
              emailOf(u.email).Some? && LengthBetween(u.name, 2, 100)
              && LengthBetween(u.phoneNumber, 10, 15) && LengthBetween(u.password, 6, 100)
    ensures ValidateUserCreate(u, emailOf).Ok? ==>
              ValidateUserCreate(u, emailOf).value == u.(email := emailOf(u.email).value)
  {
    var errs := ValidationErrors(u, emailOf);
    if errs != [] {
      assert errs[0] in errs;
      assert errs[0].EmailField? || errs[0].NameField? || errs[0].PhoneNumberField? || errs[0].PasswordField?;
    }
  }

  datatype UserResponse = UserResponse(
    userId: string,
    email: string,
    name: string,
    phoneNumber: string,
    createdAt: Instant,
    lastActive: Instant,
    isActive: bool)

  /** `UserResponse(...)` without `is_active`. */
  function NewUserResponse(userId: string, email: string, name: string, phoneNumber: string,
                           createdAt: Instant, lastActive: Instant): (r: UserResponse)
    ensures r.isActive
    ensures r.userId == userId && r.email == email && r.name == name && r.phoneNumber == phoneNumber
    ensures r.createdAt == createdAt && r.lastActive == lastActive
  {
    UserResponse(userId, email, name, phoneNumber, createdAt, lastActive, true)
  }

  datatype Token = Token(accessToken: string, tokenType: string, userInfo: UserResponse)

  /** `Token(...)` without `token_type`. */
  function NewToken(accessToken: string, userInfo: UserResponse): (t: Token)
    ensures t.tokenType == "bearer"
    ensures t.accessToken == accessToken && t.userInfo == userInfo
  {
    Token(accessToken, "bearer", userInfo)
  }

  datatype TokenData = TokenData(email: Option<string>)

  /** `TokenData()`. */
  function EmptyTokenData(): (t: TokenData)
    ensures t.email.None?
  {
    TokenData(None)
  }
}
