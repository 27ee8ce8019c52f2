/** `requireAuth`, the middleware in front of every applications route: it
    takes the second space-separated field of the `Authorization` header as
    the access token, asks the auth provider for its user, and either sets
    `req.user` and calls `next` or answers 401. The provider's `getUser` is a
    parameter. */
module AuthMiddleware {
  import opened Wrappers
  import opened Strings
  import opened Schema
  import opened Http

  /** The provider's user record; only its id is used. */
  datatype User = User(id: UserId)

  /** What `supabase.auth.getUser(token)` yields: `data.user`, and whether it
      returned an error or threw. */
  datatype Lookup = Lookup(user: Option<User>, failed: bool)

  const NoHeaderMessage: string := "No authorization header provided"
  const MalformedMessage: string := "Malformed authorization header"
  const UnauthorizedMessage: string := "Unauthorized request"

  /** `authHeader.split(" ")[1]`: the second field, or None (undefined) when
      the header has no space. */
  function TokenOf(header: string): Option<string> {
    var fields := Split(header, ' ');
    if |fields| >= 2 then Some(fields[1]) else None
  }

  /** What the middleware did to the request: the `req.user` it set, how
      often it called `next`, the response it sent, and the token it asked
      the provider about. */
  datatype AuthResult = AuthResult(
    reqUser: Option<User>,
    nextCalls: nat,
    response: Option<Response>,
    queried: Option<string>)

  function Reject(message: string, queried: Option<string>): AuthResult {
    AuthResult(None, 0, Some(Response(401, ErrorJson(message))), queried)
  }

  /** The middleware. Exactly one of two things happens: `next` is called
      once and nothing is sent, or a 401 is sent and `next` is not called.
      The provider is asked only about a non-empty token, and `next` runs
      exactly when it answers with a user and no error. */
  function RequireAuth(header: Option<string>, getUser: string -> Lookup): (r: AuthResult)
    ensures (r.nextCalls == 1 && r.reqUser.Some? && r.response.None?) ||
            (r.nextCalls == 0 && r.reqUser.None? && r.response.Some? && r.response.value.status == 401)
    ensures !Truthy(header) ==> r == Reject(NoHeaderMessage, None)
    ensures Truthy(header) && !Truthy(TokenOf(header.value)) ==> r == Reject(MalformedMessage, None)
    ensures Truthy(header) && Truthy(TokenOf(header.value)) ==>
      var token := TokenOf(header.value).value;
      var look := getUser(token);
      && r.queried == Some(token)
      && (r.nextCalls == 1 <==> !look.failed && look.user.Some?)
      && (r.nextCalls == 1 ==> r.reqUser == look.user)
      && (r.nextCalls == 0 ==> r == Reject(UnauthorizedMessage, Some(token)))
  {
    if !Truthy(header) then Reject(NoHeaderMessage, None)
    else
      var token := TokenOf(header.value);
      if !Truthy(token) then Reject(MalformedMessage, None)
      else
        var look := getUser(token.value);
        if look.failed || look.user.None? then Reject(UnauthorizedMessage, token)
        else AuthResult(look.user, 1, None, token)
  }

  /** The token is the field after the first space, whatever the first field is. */
  lemma {:induction false} TokenAfterScheme(scheme: string, token: string)
    requires ' ' !in scheme && ' ' !in token
    ensures TokenOf(scheme + " " + token) == Some(token)
  {
    SplitAtFirstSeparator(scheme, token, ' ');
    SplitWithoutSeparator(token, ' ');
  }

  /** The token stops at the next space; later fields are ignored. */
  lemma {:induction false} TokenEndsAtSpace(scheme: string, token: string, rest: string)
    requires ' ' !in scheme && ' ' !in token
    ensures TokenOf(scheme + " " + token + " " + rest) == Some(token)
  {
    assert scheme + " " + token + " " + rest == scheme + [' '] + (token + [' '] + rest);
    SplitAtFirstSeparator(scheme, token + [' '] + rest, ' ');
    SplitAtFirstSeparator(token, rest, ' ');
  }

  /** A header without a space has no token. */
  lemma {:induction false} NoSpaceNoToken(header: string)
    requires ' ' !in header
    ensures TokenOf(header) == None
  {
    SplitWithoutSeparator(header, ' ');
  }

  /** The scheme word is never checked: two headers that differ only in
      their first field get the same treatment. */
  lemma SchemeNotChecked(scheme1: string, scheme2: string, token: string, getUser: string -> Lookup)
    requires ' ' !in scheme1 && ' ' !in scheme2 && ' ' !in token
    ensures RequireAuth(Some(scheme1 + " " + token), getUser) == RequireAuth(Some(scheme2 + " " + token), getUser)
  {
    TokenAfterScheme(scheme1, token);
    TokenAfterScheme(scheme2, token);
  }

  /** "Bearer" and "Bearer " carry no token and are rejected as malformed
      without asking the provider. */
  lemma BearerWithoutToken(getUser: string -> Lookup)
    ensures RequireAuth(Some("Bearer"), getUser) == Reject(MalformedMessage, None)
    ensures RequireAuth(Some("Bearer "), getUser) == Reject(MalformedMessage, None)
  {
    NoSpaceNoToken("Bearer");
    TokenAfterScheme("Bearer", "");
    assert "Bearer" + " " + "" == "Bearer ";
  }
}
