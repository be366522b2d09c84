/** The bearer-token middlewares: `authenticate` admits a request only with
    a verified access token in an `Authorization: Bearer <token>` header
    (section 2.1 of RFC 6750) and attaches the token's user to the request;
    `optionalAuth` attaches the user when it can and always continues. */
module AuthMiddleware {
  import opened Wrappers
  import opened Strings

  /** The claims of a verified access token that the request keeps. */
  datatype AuthUser = AuthUser(userId: string, email: string)

  const BearerPrefix: string := "Bearer "
  const NoTokenProvided: string := "No token provided"
  const AuthenticationFailed: string := "Authentication failed"

  /** The token of an `Authorization` header: present only for a header
      that starts with "Bearer " (exactly that case and one space), and then
      everything after those seven characters. */
  function BearerToken(header: Option<string>): (r: Option<string>)
    ensures r.Some? <==> Truthy(header) && StartsWith(header.value, BearerPrefix)
    ensures r.Some? ==> BearerPrefix + r.value == header.value
  {
    if Truthy(header) && StartsWith(header.value, BearerPrefix) then Some(header.value[7..]) else None
  }

  /** Whatever token is sent after the prefix is the one verified. */
  lemma BearerTokenRoundTrip(token: string)
    ensures BearerToken(Some(BearerPrefix + token)) == Some(token)
  {
    assert (BearerPrefix + token)[..7] == BearerPrefix;
    assert (BearerPrefix + token)[7..] == token;
  }

  /** The scheme name is matched with its letter case: a lower-case
      "bearer" header carries no token. */
  lemma SchemeIsCaseSensitive(token: string)
    ensures BearerToken(Some("bearer " + token)) == None
  {
    assert ("bearer " + token)[0] == 'b';
  }

  /** What `authenticate` decides. */
  datatype Decision = Admit(user: AuthUser) | Refuse(message: string)

  /** `authenticate`'s decision, given the token verifier (which answers
      the decoded claims or the message of the error it throws). */
  function Decide(header: Option<string>, verify: string -> Result<AuthUser, string>): (r: Decision)
    ensures BearerToken(header).None? ==> r == Refuse(NoTokenProvided)
    ensures BearerToken(header).Some? ==>
      var v := verify(BearerToken(header).value);
      (r.Admit? <==> v.Ok?) &&
      (v.Ok? ==> r.user == v.value) &&
      (v.Err? ==> r.message == (if v.error != "" then v.error else AuthenticationFailed))
    ensures r.Refuse? ==> r.message != ""
  {
    match BearerToken(header)
    case None => Refuse(NoTokenProvided)
    case Some(token) =>
      match verify(token)
      case Ok(user) => Admit(user)
      case Err(message) => Refuse(if message != "" then message else AuthenticationFailed)
  }

  /** The user `optionalAuth` attaches, if any. */
  function OptionalUser(header: Option<string>, verify: string -> Result<AuthUser, string>): (r: Option<AuthUser>)
    ensures r.Some? ==> BearerToken(header).Some? && verify(BearerToken(header).value) == Ok(r.value)
  {
    match BearerToken(header)
    case None => None
    case Some(token) => if verify(token).Ok? then Some(verify(token).value) else None
  }

  /** `optionalAuth` attaches a user exactly when `authenticate` would admit
      the request, and the same user. */
  lemma OptionalAuthAgrees(header: Option<string>, verify: string -> Result<AuthUser, string>)
    ensures OptionalUser(header, verify).Some? <==> Decide(header, verify).Admit?
    ensures OptionalUser(header, verify).Some? ==> OptionalUser(header, verify).value == Decide(header, verify).user
  {
  }

  /** The request as the middlewares see it: the attached user, how often
      `next` ran and the 401 reply, if one was sent. */
  class Exchange {
    var user: Option<AuthUser>
    var nextCalls: nat
    var unauthorized: Option<string>

    constructor ()
      ensures user == None && nextCalls == 0 && unauthorized == None
    {
      user := None;
      nextCalls := 0;
      unauthorized := None;
    }

    /** `authenticate(req, res, next)`: an admitted request gets its user
        and continues once; a refused one gets a 401 with the message and
        does not continue. */
    method Authenticate(header: Option<string>, verify: string -> Result<AuthUser, string>)
      modifies this
      ensures Decide(header, verify).Admit? ==>
        user == Some(Decide(header, verify).user) &&
        nextCalls == old(nextCalls) + 1 && unauthorized == old(unauthorized)
      ensures Decide(header, verify).Refuse? ==>
        user == old(user) && nextCalls == old(nextCalls) &&
        unauthorized == Some(Decide(header, verify).message)
    {
      var token := BearerToken(header);
      if token.None? {
        unauthorized := Some(NoTokenProvided);
        return;
      }
      var decoded := verify(token.value);
      if decoded.Err? {
        unauthorized := Some(if decoded.error != "" then decoded.error else AuthenticationFailed);
        return;
      }
      user := Some(decoded.value);
      nextCalls := nextCalls + 1;
    }

    /** `optionalAuth(req, res, next)`: continues exactly once whatever the
        header, never replies, and attaches a user only when a bearer token
        verifies. */
    method OptionalAuth(header: Option<string>, verify: string -> Result<AuthUser, string>)
      modifies this
      ensures nextCalls == old(nextCalls) + 1 && unauthorized == old(unauthorized)
      ensures user == (if OptionalUser(header, verify).Some? then OptionalUser(header, verify) else old(user))
    {
      if Truthy(header) && StartsWith(header.value, BearerPrefix) {
        var token := header.value[7..];
        var decoded := verify(token);
        if decoded.Ok? {
          user := Some(decoded.value);
        }
      }
      nextCalls := nextCalls + 1;
    }
  }
}
