/**
 * The back end's `Authorization` header dependency (`get_current_user`, written out
 * identically in the todos, auth and users routers) and `create_access_token`.
 * JWT signing and checking are opaque: they are the fields of `Jwt`.
 */
module BearerAuth {
  import opened Common

  /** An HTTP error raised as FastAPI's `HTTPException`. */
  datatype HttpError = HttpError(status: int, detail: string)

  /** The claims of a decoded token that the routers look at: `payload.get("sub")`. */
  datatype Payload = Payload(sub: Option<string>)

  /** `jwt.encode({"sub", "exp"})` and `jwt.decode(token)` at a given time (None when it raises: bad signature, malformed, expired). The secret and HS256 are fixed inside. */
  datatype Jwt = Jwt(encode: (string, int) -> string, decode: (string, int) -> Option<Payload>)

  /** What the JWT library promises: a token it signed decodes to its subject until it expires. */
  ghost predicate JwtRoundTrips(jwt: Jwt)
  {
    forall sub: string, exp: int, now: int {:trigger jwt.decode(jwt.encode(sub, exp), now)} ::
      now <= exp ==> jwt.decode(jwt.encode(sub, exp), now) == Some(Payload(Some(sub)))
  }

  /** Tokens are valid for seven days. */
  const JWT_EXPIRE_MINUTES := 60 * 24 * 7

  /** `create_access_token(sub)` at time `now` (seconds). */
  function CreateAccessToken(jwt: Jwt, sub: string, now: int): (r: string)
    ensures r == jwt.encode(sub, now + 7 * 24 * 60 * 60)
  {
    jwt.encode(sub, now + JWT_EXPIRE_MINUTES * 60)
  }

  /** Python's `s.partition(" ")` without the separator: the text before the first space and the text after it. */
  function Partition(s: string): (r: (string, string))
    ensures ' ' !in r.0
    ensures ' ' in s ==> s == r.0 + " " + r.1
    ensures ' ' !in s ==> r == (s, "")
  {
    if s == [] then ("", "")
    else if s[0] == ' ' then ("", s[1..])
    else
      var rest := Partition(s[1..]);
      assert ' ' in s[1..] ==> s == [s[0]] + s[1..];
      ([s[0]] + rest.0, rest.1)
  }

  /** Lower-casing as far as the comparison with "bearer" can tell: only ASCII letters matter, no other character lowers into one of them. */
  function AsciiLower(s: string): (r: string)
    ensures |r| == |s|
    ensures forall i :: 0 <= i < |s| ==> r[i] == if 'A' <= s[i] <= 'Z' then (s[i] as int + 32) as char else s[i]
  {
    seq(|s|, i requires 0 <= i < |s| => if 'A' <= s[i] <= 'Z' then (s[i] as int + 32) as char else s[i])
  }

  /** `get_current_user`: the subject of the bearer token in the header, or the 401 that FastAPI sends instead. */
  function GetCurrentUser(jwt: Jwt, authorization: Option<string>, now: int): (r: Result<Option<string>, HttpError>)
    ensures !Truthy(authorization) ==> r == Err(HttpError(401, "No auth"))
    ensures Truthy(authorization) && AsciiLower(Partition(authorization.value).0) != "bearer" ==> r == Err(HttpError(401, "Invalid scheme"))
    ensures (Truthy(authorization) && AsciiLower(Partition(authorization.value).0) == "bearer"
             && jwt.decode(Partition(authorization.value).1, now).None?) ==> r == Err(HttpError(401, "Invalid token"))
    ensures r.Err? ==> r.error.status == 401
    ensures r.Ok? <==> Truthy(authorization) && AsciiLower(Partition(authorization.value).0) == "bearer"
                       && jwt.decode(Partition(authorization.value).1, now).Some?
    ensures r.Ok? ==> Some(Payload(r.value)) == jwt.decode(Partition(authorization.value).1, now)
  {
    if !Truthy(authorization) then Err(HttpError(401, "No auth"))
    else
      var (scheme, token) := Partition(authorization.value);
      if AsciiLower(scheme) != "bearer" then Err(HttpError(401, "Invalid scheme"))
      else match jwt.decode(token, now)
        case Some(payload) => Ok(payload.sub)
        case None => Err(HttpError(401, "Invalid token"))
  }

  /** A header "Bearer <t>" carrying a token issued at `issued` identifies its subject until the token expires, whatever the case of "Bearer". */
  lemma {:induction false} IssuedTokenAuthenticates(jwt: Jwt, scheme: string, sub: string, issued: int, now: int)
    requires JwtRoundTrips(jwt)
    requires AsciiLower(scheme) == "bearer"
    requires issued <= now <= issued + JWT_EXPIRE_MINUTES * 60
    ensures GetCurrentUser(jwt, Some(scheme + " " + CreateAccessToken(jwt, sub, issued)), now) == Ok(Some(sub))
  {
    var token := CreateAccessToken(jwt, sub, issued);
    var header := scheme + " " + token;
    assert ' ' !in scheme by {
      forall i | 0 <= i < |scheme| ensures scheme[i] != ' ' {
        assert AsciiLower(scheme)[i] == "bearer"[i];
      }
    }
    PartitionAtFirstSpace(scheme, token);
    assert Partition(header) == (scheme, token);
    assert jwt.decode(jwt.encode(sub, issued + JWT_EXPIRE_MINUTES * 60), now) == Some(Payload(Some(sub)));
  }

  /** Partition splits at the first space: the scheme may not hold one, the token may. */
  lemma {:induction false} PartitionAtFirstSpace(a: string, b: string)
    requires ' ' !in a
    ensures Partition(a + " " + b) == (a, b)
  {
    if a != [] {
      var s := a + " " + b;
      assert s[0] == a[0] && s[0] != ' ';
      assert s[1..] == a[1..] + " " + b;
      PartitionAtFirstSpace(a[1..], b);
      assert [a[0]] + a[1..] == a;
    } else {
      assert (a + " " + b)[1..] == b;
    }
  }
}
