/** The server's last two middlewares: `errorHandler`, which turns whatever
    a handler passed to `next(err)` into a JSON reply, and `notFound`, which
    turns an unmatched route into such an error. Logging the error is left
    out. */
module ErrorMiddleware {
  import opened Options
  import opened Js

  /** The properties of the error `errorHandler` reads, as JavaScript values
      (`Undefined` when the error has no such property). */
  datatype Thrown = Thrown(code: JsValue, name: JsValue, message: JsValue, status: JsValue)

  /** The reply: `res.status(status).json({ message, details })`; `details`
      is present only on the validation reply. */
  datatype Reply = Reply(status: JsValue, message: JsValue, details: Option<JsValue>)

  const DuplicateRecord := "A record with this information already exists"
  const RecordNotFound := "Record not found"
  const BadReference := "Invalid reference to related record"
  const ValidationFailed := "Validation failed"
  const InvalidToken := "Invalid token"
  const TokenExpired := "Token expired"
  const InternalError := "Internal server error"

  /** The three Prisma error codes with an answer of their own, with that answer. */
  const PrismaCodes: map<string, (int, string)> :=
    map["P2002" := (409, DuplicateRecord), "P2025" := (404, RecordNotFound), "P2003" := (400, BadReference)]

  /** The two token error names with an answer of their own. */
  const TokenNames: map<string, string> :=
    map["JsonWebTokenError" := InvalidToken, "TokenExpiredError" := TokenExpired]

  /** `errorHandler`: the Prisma codes first, then the error names, then the
      error's own status and message with their defaults. */
  function ErrorHandler(err: Thrown): (r: Reply)
    ensures r.details.Some? <==> (!(err.code.Str? && err.code.s in PrismaCodes) && err.name == Str("ValidationError"))
    ensures r.details.Some? ==> r == Reply(Num(400 as real), Str(ValidationFailed), Some(err.message))
    ensures Truthy(r.status) && Truthy(r.message)
  {
    if err.code == Str("P2002") then Reply(Num(409 as real), Str(DuplicateRecord), None)
    else if err.code == Str("P2025") then Reply(Num(404 as real), Str(RecordNotFound), None)
    else if err.code == Str("P2003") then Reply(Num(400 as real), Str(BadReference), None)
    else if err.name == Str("ValidationError") then Reply(Num(400 as real), Str(ValidationFailed), Some(err.message))
    else if err.name == Str("JsonWebTokenError") then Reply(Num(401 as real), Str(InvalidToken), None)
    else if err.name == Str("TokenExpiredError") then Reply(Num(401 as real), Str(TokenExpired), None)
    else
      Reply(if Truthy(err.status) then err.status else Num(500 as real),
            if Truthy(err.message) then err.message else Str(InternalError),
            None)
  }

  /** A known Prisma code decides the reply whatever the error's name,
      status or message: the table's status and message. */
  lemma PrismaCodeFirst(err: Thrown)
    requires err.code.Str? && err.code.s in PrismaCodes
    ensures ErrorHandler(err) ==
      Reply(Num(PrismaCodes[err.code.s].0 as real), Str(PrismaCodes[err.code.s].1), None)
    ensures forall name: JsValue :: ErrorHandler(err.(name := name)) == ErrorHandler(err)
  {
  }

  /** Without a known Prisma code, a token error name decides the reply: 401
      with the table's message. */
  lemma TokenNameReply(err: Thrown)
    requires !(err.code.Str? && err.code.s in PrismaCodes)
    requires err.name.Str? && err.name.s in TokenNames
    ensures ErrorHandler(err) == Reply(Num(401 as real), Str(TokenNames[err.name.s]), None)
  {
  }

  /** An error that is neither a known Prisma error nor a named validation or
      token error is answered with its own status (or 500) and its own
      message (or the generic one). */
  lemma DefaultReply(err: Thrown)
    requires !(err.code.Str? && err.code.s in PrismaCodes)
    requires err.name != Str("ValidationError") && !(err.name.Str? && err.name.s in TokenNames)
    ensures Truthy(ErrorHandler(err).status) && Truthy(ErrorHandler(err).message)
    ensures ErrorHandler(err).status == err.status <==> Truthy(err.status)
    ensures ErrorHandler(err).message == err.message <==> Truthy(err.message)
    ensures !Truthy(err.status) ==> ErrorHandler(err).status == Num(500 as real)
    ensures !Truthy(err.message) ==> ErrorHandler(err).message == Str(InternalError)
  {
  }

  /** `notFound`: an `Error` whose message names the requested URL and whose
      status is 404. */
  function NotFound(originalUrl: string): (err: Thrown)
    ensures err.status == Num(404 as real) && err.code == Undefined && err.name == Str("Error")
    ensures err.message.Str? && |err.message.s| > |originalUrl|
    ensures err.message.Str? && err.message.s[|err.message.s| - |originalUrl|..] == originalUrl
  {
    Thrown(Undefined, Str("Error"), Str("Route not found - " + originalUrl), Num(404 as real))
  }

  /** An unmatched route is answered 404 with the message naming the URL. */
  lemma NotFoundReply(originalUrl: string)
    ensures ErrorHandler(NotFound(originalUrl)) == Reply(Num(404 as real), Str("Route not found - " + originalUrl), None)
  {
    assert Str("Error") != Str("ValidationError");
  }
}
