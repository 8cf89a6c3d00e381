/**
 * The two shared-secret checks that guard the POST routes: a bearer token in
 * the `Authorization` header (for `/webhook`) and a `secret` field in the
 * JSON body (for `POST /manual-signal`). Both compare exactly, case-sensitively.
 */
module Auth {
  import opened Wrappers
  import opened Text
  import opened Values

  datatype AuthResult = Authorized | Unauthorized401 | Forbidden403

  const BearerPrefix := "Bearer "

  /**
   * The `/webhook` check: a missing header reads as "", a header without the
   * "Bearer " prefix is 401, otherwise the token is what `split(" ", 1)[1]`
   * leaves, and a token other than the secret is 403.
   */
  function AuthorizeBearer(header: Option<string>, secret: string): (r: AuthResult)
    ensures r == Unauthorized401 <==> !(BearerPrefix <= header.GetOr(""))
    ensures r == Forbidden403 <==>
      BearerPrefix <= header.GetOr("") && header.GetOr("")[|BearerPrefix|..] != secret
    ensures r == Authorized <==> header == Some(BearerPrefix + secret)
  {
    var auth := header.GetOr("");
    if !(BearerPrefix <= auth) then Unauthorized401
    else
      assert "Bearer" + [' '] == BearerPrefix;
      SplitOnceAfterWord(auth, "Bearer", ' ');
      assert auth == BearerPrefix + auth[|BearerPrefix|..];
      var token := SplitOnce(auth, ' ')[1];
      if token != secret then Forbidden403 else Authorized
  }

  /** The `POST /manual-signal` check: `body.get("secret") != SECRET_TOKEN` is 401; there is no 403. */
  function AuthorizeBody(body: Payload, secret: string): (r: AuthResult)
    ensures r != Forbidden403
    ensures r == Authorized <==> "secret" in body && body["secret"] == Str(secret)
  {
    if Get(body, "secret", Null) != Str(secret) then Unauthorized401 else Authorized
  }

  /** A request with no `Authorization` header is 401. */
  lemma MissingHeaderUnauthorized(secret: string)
    ensures AuthorizeBearer(None, secret) == Unauthorized401
  {
  }

  /** The prefix is case-sensitive: a lower-case "bearer" is 401 even with the right secret. */
  lemma LowercaseSchemeUnauthorized(secret: string)
    ensures AuthorizeBearer(Some("bearer " + secret), secret) == Unauthorized401
  {
  }

  /** With the secret non-empty, as startup guarantees, a bare "Bearer " carries the empty token and is 403. */
  lemma EmptyTokenForbidden(secret: string)
    requires secret != ""
    ensures AuthorizeBearer(Some(BearerPrefix), secret) == Forbidden403
  {
  }

  /** A body without a `secret` field is never authorized, whatever the configured secret. */
  lemma AbsentSecretUnauthorized(body: Payload, secret: string)
    requires "secret" !in body
    ensures AuthorizeBody(body, secret) == Unauthorized401
  {
  }
}
