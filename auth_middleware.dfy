/** The server's route guard (`protect`): it reads a bearer token from the
    `Authorization` header, verifies it with the configured secret, and either
    answers 401/500 or passes the token's user id on to the next handler.
    Token verification belongs to the JSON Web Token library and is given as
    `verify`. */
module AuthMiddleware {
  import opened Options
  import opened Strings
  import opened Js

  /** What `jwt.verify(token, secret)` does: return the decoded payload, or
      throw an error with the given `name`. */
  datatype Verified = Payload(decoded: JsValue) | VerifyThrows(name: string)

  /** The guard's outcome: an error response, or `next()` with `req.user` set. */
  datatype Outcome = Deny(status: int, message: string) | Next(user: JsValue)

  const NoToken := "Access denied. No token provided."
  const BadFormat := "Invalid token format. Use 'Bearer <token>'."
  const BadPayload := "Invalid token payload"
  const NoSecret := "Server configuration error"

  /** `authHeader.split(" ")[1]`, for a header known to contain a space. */
  function Token(header: string): (t: string)
    requires StartsWith(header, "Bearer ")
    ensures ' ' !in t
  {
    SecondField(header, "Bearer", ' ');
    Split(header, ' ')[1]
  }

  /** The token is everything after "Bearer " up to the next space. */
  lemma TokenAfterPrefix(header: string)
    requires StartsWith(header, "Bearer ")
    ensures Token(header) == Split(header[7..], ' ')[0]
  {
    SecondField(header, "Bearer", ' ');
  }

  /** A header of the prefix and one space-free token yields that token. */
  lemma {:induction false} BearerToken(t: string)
    requires ' ' !in t
    ensures StartsWith("Bearer " + t, "Bearer ")
    ensures Token("Bearer " + t) == t
  {
    var h := "Bearer " + t;
    assert h[..7] == "Bearer ";
    TokenAfterPrefix(h);
    assert h[7..] == t;
    SplitWithoutSeparator(t, ' ');
  }

  /** A string without the separator splits into itself. */
  lemma SplitWithoutSeparator(s: string, sep: char)
    requires sep !in s
    ensures Split(s, sep) == [s]
  {
    assert IndexOf(s, sep).None?;
  }

  const AuthFailed := "Authentication failed"

  /** The header, the token and the secret all pass, so `jwt.verify` is called. */
  predicate Admitted(header: Option<string>, secret: Option<string>) {
    header.Some? && StartsWith(header.value, "Bearer ") && Token(header.value) != "" &&
    secret.Some? && secret.value != ""
  }

  /** `protect`: the header is checked, then the token, then the secret, then
      the verified payload; every failure of verification is a 401. Reading
      `userId` of a `null` or `undefined` payload throws a `TypeError`, which
      the catch answers with its generic message. */
  function Protect(header: Option<string>, secret: Option<string>, verify: (string, string) -> Verified): (r: Outcome)
    ensures r.Next? <==> (Admitted(header, secret) && verify(Token(header.value), secret.value).Payload? &&
      Truthy(Get(verify(Token(header.value), secret.value).decoded, "userId")))
    ensures r.Next? ==> r.user == Get(verify(Token(header.value), secret.value).decoded, "userId")
    ensures r.Deny? ==> r.status == 401 || r == Deny(500, NoSecret)
    ensures header.None? || header.value == "" ==> r == Deny(401, NoToken)
    ensures header.Some? && header.value != "" && !StartsWith(header.value, "Bearer ") ==> r == Deny(401, BadFormat)
    ensures header.Some? && StartsWith(header.value, "Bearer ") && Token(header.value) == "" ==> r == Deny(401, NoToken)
    ensures r == Deny(500, NoSecret) <==> (header.Some? && StartsWith(header.value, "Bearer ") &&
      Token(header.value) != "" && (secret.None? || secret.value == ""))
    ensures r == Deny(401, BadPayload) <==> (Admitted(header, secret) &&
      var v := verify(Token(header.value), secret.value);
      v.Payload? && !v.decoded.Null? && !v.decoded.Undefined? && !Truthy(Get(v.decoded, "userId")))
    ensures Admitted(header, secret) ==> (
      var v := verify(Token(header.value), secret.value);
      v.Payload? && (v.decoded.Null? || v.decoded.Undefined?) ==> r == Deny(401, AuthFailed))
  {
    if header.None? || header.value == "" then Deny(401, NoToken)
    else if !StartsWith(header.value, "Bearer ") then Deny(401, BadFormat)
    else
      var token := Token(header.value);
      if token == "" then Deny(401, NoToken)
      else if secret.None? || secret.value == "" then Deny(500, NoSecret)
      else
        match verify(token, secret.value)
        case VerifyThrows(name) =>
          if name == "TokenExpiredError" then Deny(401, "Token has expired. Please login again.")
          else if name == "JsonWebTokenError" then Deny(401, "Invalid token. Please login again.")
          else Deny(401, AuthFailed)
        case Payload(decoded) =>
          if decoded.Null? || decoded.Undefined? then Deny(401, AuthFailed)
          else if !Truthy(Get(decoded, "userId")) then Deny(401, BadPayload)
          else Next(Get(decoded, "userId"))
  }

  /** A request without a usable header is refused before the secret is
      consulted, so a missing secret does not show. */
  lemma HeaderBeforeSecret(header: Option<string>, verify: (string, string) -> Verified)
    requires header.None? || !StartsWith(header.value, "Bearer ")
    ensures Protect(header, None, verify).status == 401
    ensures header.Some? && header.value != "" ==> Protect(header, None, verify) == Deny(401, BadFormat)
  {
  }

  /** The prefix is case-sensitive and needs its space. */
  lemma PrefixIsExact(secret: Option<string>, verify: (string, string) -> Verified)
    ensures Protect(Some("bearer abc"), secret, verify) == Deny(401, BadFormat)
    ensures Protect(Some("Bearer"), secret, verify) == Deny(401, BadFormat)
  {
    assert "bearer abc"[0] != "Bearer "[0];
  }

  /** "Bearer " alone has an empty token. */
  lemma PrefixAloneHasNoToken(secret: Option<string>, verify: (string, string) -> Verified)
    ensures Protect(Some("Bearer "), secret, verify) == Deny(401, NoToken)
  {
    assert StartsWith("Bearer ", "Bearer ");
    TokenAfterPrefix("Bearer ");
    assert "Bearer "[7..] == "";
    SplitWithoutSeparator("", ' ');
  }

  /** Two spaces after the prefix leave an empty token. */
  lemma DoubleSpaceHasNoToken(secret: Option<string>, verify: (string, string) -> Verified)
    ensures Protect(Some("Bearer  abc"), secret, verify) == Deny(401, NoToken)
  {
    assert StartsWith("Bearer  abc", "Bearer ");
    TokenAfterPrefix("Bearer  abc");
    assert "Bearer  abc"[7..] == " abc";
    assert IndexOf(" abc", ' ') == Some(0);
  }

  /** A well-formed request with a valid token reaches the handler with the
      token's user id, exactly once. */
  lemma ValidTokenPasses(t: string, secret: string, verify: (string, string) -> Verified)
    requires ' ' !in t && t != "" && secret != ""
    requires verify(t, secret).Payload? && Truthy(Get(verify(t, secret).decoded, "userId"))
    ensures Protect(Some("Bearer " + t), Some(secret), verify) == Next(Get(verify(t, secret).decoded, "userId"))
  {
    BearerToken(t);
  }

  /** Every failed verification is refused with 401 and a message naming the failure. */
  lemma VerifyFailures(t: string, secret: string, verify: (string, string) -> Verified)
    requires ' ' !in t && t != "" && secret != "" && verify(t, secret).VerifyThrows?
    ensures Protect(Some("Bearer " + t), Some(secret), verify) ==
      Deny(401, if verify(t, secret).name == "TokenExpiredError" then "Token has expired. Please login again."
                else if verify(t, secret).name == "JsonWebTokenError" then "Invalid token. Please login again."
                else AuthFailed)
  {
    BearerToken(t);
  }
}
