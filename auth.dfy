/**
 * The request guard `get_current_user` (backend/server.py:170-213): the
 * `Authorization` header is split into a scheme and a token, the scheme
 * must be "bearer" in any letter case, the token is decoded by the JWT
 * helper in `auth.py` and the subject must name an existing user. Every
 * failure is an HTTP 401 carrying one of five details.
 */
module BearerAuth {
  import opened Base
  import opened PyStr

  type UserId = string

  /** The `detail` of the 401 responses the guard can raise. */
  datatype AuthError =
    | NotAuthenticated
    | InvalidHeader
    | InvalidScheme
    | InvalidToken
    | CouldNotValidate
    | UserNotFound

  function Detail(e: AuthError): string {
    match e
    case NotAuthenticated => "Not authenticated"
    case InvalidHeader => "Invalid authorization header"
    case InvalidScheme => "Invalid authentication scheme"
    case InvalidToken => "Invalid token"
    case CouldNotValidate => "Could not validate credentials"
    case UserNotFound => "User not found"
  }

  /**
   * What `decode_access_token` (auth.py, not part of this model) gives
   * back: a failure (an exception, or no payload at all) or a payload
   * whose "sub" claim may be missing.
   */
  datatype Decoded = DecodeFailed | Payload(sub: Option<UserId>)

  /**
   * Python's `str.lower()` on one character, for the ASCII capitals. No
   * other character lowers into one of the letters of "bearer", so this
   * decides the scheme comparison exactly.
   */
  function LowerChar(c: char): char {
    if 'A' <= c <= 'Z' then (c as int + 32) as char else c
  }

  function Lower(s: string): (r: string)
    ensures |r| == |s|
  {
    seq(|s|, i requires 0 <= i < |s| => LowerChar(s[i]))
  }

  /** The scheme check `scheme.lower() != 'bearer'`, negated. */
  predicate IsBearerScheme(scheme: string) {
    Lower(scheme) == "bearer"
  }

  /** `scheme` spells "bearer" with each letter in either case. */
  predicate CaseVariantOfBearer(scheme: string) {
    |scheme| == 6 && forall i :: 0 <= i < 6 ==> scheme[i] == "bearer"[i] || scheme[i] == "BEARER"[i]
  }

  /** The scheme check accepts exactly the case variants of "bearer". */
  lemma {:induction false} BearerSchemeIsCaseVariant(scheme: string)
    ensures IsBearerScheme(scheme) <==> CaseVariantOfBearer(scheme)
  {
    if IsBearerScheme(scheme) {
      forall i | 0 <= i < 6 ensures scheme[i] == "bearer"[i] || scheme[i] == "BEARER"[i] {
        assert LowerChar(scheme[i]) == Lower(scheme)[i];
      }
    }
    if CaseVariantOfBearer(scheme) {
      forall i | 0 <= i < 6 ensures Lower(scheme)[i] == "bearer"[i] {
        assert Lower(scheme)[i] == LowerChar(scheme[i]);
      }
    }
  }

  /**
   * The header parse (backend/server.py:177-191). An absent or empty
   * header is "Not authenticated"; `scheme, token = authorization.split()`
   * raises ValueError unless there are exactly two words; a scheme other
   * than "bearer" is rejected; otherwise the token is the second word.
   */
  function ParseAuthorization(header: Option<string>): (r: Result<string, AuthError>)
    ensures r.Ok? ==> r.value != [] && NoneIn(r.value, IsSpace)
    ensures r.Ok? <==> header.Some? && header.value != [] && |Words(header.value)| == 2
                        && IsBearerScheme(Words(header.value)[0])
    ensures r.Ok? ==> r.value == Words(header.value)[1]
    ensures r == Err(NotAuthenticated) <==> header == None || header == Some("")
    ensures r == Err(InvalidHeader) <==> header.Some? && header.value != [] && |Words(header.value)| != 2
    ensures r.Err? ==> r.error in {NotAuthenticated, InvalidHeader, InvalidScheme}
  {
    if header == None || header.value == "" then Err(NotAuthenticated)
    else
      var words := Words(header.value);
      if |words| != 2 then Err(InvalidHeader)
      else if !IsBearerScheme(words[0]) then Err(InvalidScheme)
      else
        WordsAreWords(header.value);
        Ok(words[1])
  }

  /** A header written as `<scheme> <token>` with a bearer scheme yields the token. */
  lemma {:induction false} ParseAuthorizationRoundTrip(scheme: string, token: string)
    requires CaseVariantOfBearer(scheme)
    requires token != [] && NoneIn(token, IsSpace)
    ensures ParseAuthorization(Some(scheme + " " + token)) == Ok(token)
  {
    BearerSchemeIsCaseVariant(scheme);
    assert NoneIn(scheme, IsSpace) by {
      forall i | 0 <= i < |scheme| ensures !IsSpace(scheme[i]) {
        assert scheme[i] == "bearer"[i] || scheme[i] == "BEARER"[i];
      }
    }
    var ws := [scheme, token];
    assert Join(" ", ws) == scheme + " " + token by {
      assert ws[1..] == [token];
    }
    WordsOfJoin(ws);
  }

  /**
   * The whole guard (backend/server.py:170-213). `decode` stands for
   * `decode_access_token` and `users` for the ids in the `users` table.
   * A missing "sub" raises "Invalid token" inside the `try` whose
   * `except Exception` turns every error into "Could not validate
   * credentials", so "Invalid token" never reaches the client.
   */
  function GetCurrentUser(header: Option<string>, decode: string -> Decoded, users: set<UserId>)
    : (r: Result<UserId, AuthError>)
    ensures ParseAuthorization(header).Err? ==> r == Err(ParseAuthorization(header).error)
    ensures r.Ok? <==> ParseAuthorization(header).Ok?
                       && decode(ParseAuthorization(header).value).Payload?
                       && decode(ParseAuthorization(header).value).sub.Some?
                       && decode(ParseAuthorization(header).value).sub.value in users
    ensures r.Ok? ==> r.value in users && decode(ParseAuthorization(header).value) == Payload(Some(r.value))
    ensures r != Err(InvalidToken)
  {
    match ParseAuthorization(header)
    case Err(e) => Err(e)
    case Ok(token) =>
      var sub := match decode(token)
        case DecodeFailed => Err(CouldNotValidate)
        case Payload(None) => Err(InvalidToken)
        case Payload(Some(id)) => Ok(id);
      var subject := if sub == Err(InvalidToken) then Err(CouldNotValidate) else sub;
      match subject
      case Err(e) => Err(e)
      case Ok(id) => if id in users then Ok(id) else Err(UserNotFound)
  }

  /** Only a bearer header whose token decodes to a known subject gets through. */
  lemma {:induction false} BearerTokenAccepted(
    scheme: string, token: string, decode: string -> Decoded, users: set<UserId>, id: UserId)
    requires CaseVariantOfBearer(scheme)
    requires token != [] && NoneIn(token, IsSpace)
    requires decode(token) == Payload(Some(id))
    ensures GetCurrentUser(Some(scheme + " " + token), decode, users)
            == if id in users then Ok(id) else Err(UserNotFound)
  {
    ParseAuthorizationRoundTrip(scheme, token);
  }
}
