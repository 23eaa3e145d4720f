/**
 * The auth router's rules over the user table: signup, password login,
 * Google login (create, link or keep) and /auth/me.  The table (Prisma's
 * `user` model, `id` and `email` both unique) is a sequence of rows in a class.
 */
module Users {
  import opened Common
  import opened Unicode
  import opened Passwords
  import opened BearerAuth

  /** One row of the user table; `password` is a bcrypt hash and is absent for accounts made by Google login. */
  datatype User = User(id: string, email: string, password: Option<string>, name: Option<string>,
                       googleId: Option<string>, createdAt: int)

  /** `{"access_token": token, "token_type": "bearer"}`. */
  datatype TokenResponse = TokenResponse(accessToken: string, tokenType: string)

  /** The body of GET /auth/me. */
  datatype Profile = Profile(id: string, email: string, name: Option<string>, createdAt: int)

  /** The claims of a verified Google ID token that the router reads: email, sub and name. */
  datatype GoogleInfo = GoogleInfo(email: string, sub: string, name: Option<string>)

  ghost predicate UniqueKeys(users: seq<User>)
  {
    forall i, j :: 0 <= i < j < |users| ==> users[i].id != users[j].id && users[i].email != users[j].email
  }

  /** `find_unique(where={"email": email})`. */
  function FindByEmail(users: seq<User>, email: string): (r: Option<nat>)
    ensures r.Some? ==> r.value < |users| && users[r.value].email == email
    ensures r.None? <==> forall i :: 0 <= i < |users| ==> users[i].email != email
  {
    FindFirst(users, (u: User) => u.email == email)
  }

  /** `find_unique(where={"id": id})`. */
  function FindById(users: seq<User>, id: string): (r: Option<nat>)
    ensures r.Some? ==> r.value < |users| && users[r.value].id == id
    ensures r.None? <==> forall i :: 0 <= i < |users| ==> users[i].id != id
  {
    FindFirst(users, (u: User) => u.id == id)
  }

  /** The response that carries a fresh token for the user `id`. */
  function Issue(jwt: Jwt, id: string, now: int): (r: TokenResponse)
    ensures r.tokenType == "bearer"
    ensures r.accessToken == CreateAccessToken(jwt, id, now)
  {
    TokenResponse(CreateAccessToken(jwt, id, now), "bearer")
  }

  /** The response's `token_type` and `access_token`, joined by a space, form a header that authenticates the user for seven days. */
  lemma IssuedResponseAuthenticates(jwt: Jwt, id: string, now: int, later: int)
    requires JwtRoundTrips(jwt)
    requires now <= later <= now + JWT_EXPIRE_MINUTES * 60
    ensures var r := Issue(jwt, id, now);
      GetCurrentUser(jwt, Some(r.tokenType + " " + r.accessToken), later) == Ok(Some(id))
  {
    assert AsciiLower("bearer") == "bearer";
    IssuedTokenAuthenticates(jwt, "bearer", id, now, later);
  }

  /** `login`'s acceptance test: the user exists, has a (non-empty) password hash, and the password verifies against it. */
  predicate CredentialsMatch(crypto: Primitives, user: User, password: string): (ok: bool)
    ensures ok <==> user.password.Some? && user.password.value != ""
                    && crypto.checkpw(PreHash(password, crypto.sha256), Utf8Encode(user.password.value)) == Some(true)
  {
    Truthy(user.password) && VerifyPassword(crypto, password, user.password.value)
  }

  const EMAIL_EXISTS := HttpError(400, "Email exists")
  const INVALID_CREDENTIALS := HttpError(401, "Invalid credentials")
  const NO_ID_TOKEN := HttpError(400, "No id token")
  const USER_NOT_FOUND := HttpError(404, "User not found")
  const INVALID_GOOGLE_TOKEN_PREFIX := "Invalid Google token: "

  class UserTable {
    var users: seq<User>

    ghost predicate Valid()
      reads this
    {
      UniqueKeys(users)
    }

    constructor ()
      ensures Valid() && users == []
    {
      users := [];
    }

    /** POST /auth/signup: 400 if the email is taken; otherwise exactly one new user with the hashed password, and a token for it. */
    method Signup(crypto: Primitives, jwt: Jwt, email: string, password: string, name: Option<string>,
                  newId: string, salt: seq<byte>, now: int) returns (r: Result<TokenResponse, HttpError>)
      requires Valid()
      requires forall i :: 0 <= i < |users| ==> users[i].id != newId
      modifies this
      ensures Valid()
      ensures FindByEmail(old(users), email).Some? ==> r == Err(EMAIL_EXISTS) && users == old(users)
      ensures FindByEmail(old(users), email).None? ==>
        && users == old(users) + [User(newId, email, Some(HashPassword(crypto, password, salt)), name, None, now)]
        && r == Ok(Issue(jwt, newId, now))
    {
      if FindByEmail(users, email).Some? {
        return Err(EMAIL_EXISTS);
      }
      var hashed := HashPassword(crypto, password, salt);
      users := users + [User(newId, email, Some(hashed), name, None, now)];
      r := Ok(Issue(jwt, newId, now));
    }

    /** POST /auth/login: a token for the user with this email when the password matches; otherwise 401, whichever of the three checks failed. */
    method Login(crypto: Primitives, jwt: Jwt, email: string, password: string, now: int)
      returns (r: Result<TokenResponse, HttpError>)
      requires Valid()
      ensures r.Ok? <==> exists i :: 0 <= i < |users| && users[i].email == email && CredentialsMatch(crypto, users[i], password)
      ensures r.Err? ==> r.error == INVALID_CREDENTIALS
      ensures r.Ok? ==> exists i :: 0 <= i < |users| && users[i].email == email && r.value == Issue(jwt, users[i].id, now)
    {
      var found := FindByEmail(users, email);
      if found.None? || !CredentialsMatch(crypto, users[found.value], password) {
        assert found.Some? ==> forall i :: 0 <= i < |users| && users[i].email == email ==> i == found.value;
        return Err(INVALID_CREDENTIALS);
      }
      r := Ok(Issue(jwt, users[found.value].id, now));
    }

    /**
     * POST /auth/google: 400 on an empty ID token, 401 when Google rejects it; otherwise the user with the token's
     * email is created when unknown, gets the Google id when it has none, and is left alone when it has one.
     */
    method GoogleLogin(jwt: Jwt, verify: string -> Result<GoogleInfo, string>, idToken: string,
                       newId: string, now: int) returns (r: Result<TokenResponse, HttpError>)
      requires Valid()
      requires forall i :: 0 <= i < |users| ==> users[i].id != newId
      modifies this
      ensures Valid()
      ensures idToken == "" ==> r == Err(NO_ID_TOKEN) && users == old(users)
      ensures idToken != "" && verify(idToken).Err? ==>
        r == Err(HttpError(401, INVALID_GOOGLE_TOKEN_PREFIX + verify(idToken).error)) && users == old(users)
      ensures idToken != "" && verify(idToken).Ok? ==>
        var info := verify(idToken).value;
        match FindByEmail(old(users), info.email)
        case None =>
          && users == old(users) + [User(newId, info.email, None, info.name, Some(info.sub), now)]
          && r == Ok(Issue(jwt, newId, now))
        case Some(i) =>
          && r == Ok(Issue(jwt, old(users)[i].id, now))
          && users == old(users)[i := if Truthy(old(users)[i].googleId) then old(users)[i]
                                      else old(users)[i].(googleId := Some(info.sub))]
    {
      if idToken == "" {
        return Err(NO_ID_TOKEN);
      }
      var verified := verify(idToken);
      if verified.Err? {
        return Err(HttpError(401, INVALID_GOOGLE_TOKEN_PREFIX + verified.error));
      }
      var info := verified.value;
      var found := FindByEmail(users, info.email);
      if found.None? {
        users := users + [User(newId, info.email, None, info.name, Some(info.sub), now)];
        return Ok(Issue(jwt, newId, now));
      }
      var i := found.value;
      if !Truthy(users[i].googleId) {
        users := users[i := users[i].(googleId := Some(info.sub))];
      }
      r := Ok(Issue(jwt, users[i].id, now));
    }

    /** GET /auth/me: the profile of the user the token names, or 404. */
    method GetMe(userId: string) returns (r: Result<Profile, HttpError>)
      requires Valid()
      ensures r.Err? <==> forall i :: 0 <= i < |users| ==> users[i].id != userId
      ensures r.Err? ==> r.error == USER_NOT_FOUND
      ensures r.Ok? ==> exists i :: 0 <= i < |users| && users[i].id == userId &&
                                    r.value == Profile(userId, users[i].email, users[i].name, users[i].createdAt)
    {
      var found := FindById(users, userId);
      if found.None? {
        return Err(USER_NOT_FOUND);
      }
      var u := users[found.value];
      r := Ok(Profile(u.id, u.email, u.name, u.createdAt));
    }
  }
}
