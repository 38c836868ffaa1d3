/**
  What a route handler answers: an HTTP status and a JSON body, as
  `NextResponse.json(body, { status })` builds it.
  */
module Http {
  import opened Json

  datatype Reply = Reply(status: nat, body: Value)

  /** `{ error: message }` */
  function ErrorBody(message: string): Value {
    JObj(map["error" := JStr(message)])
  }

  function ErrorReply(status: nat, message: string): Reply {
    Reply(status, ErrorBody(message))
  }

  /** A successful reply (status 200). */
  function OkReply(body: Value): Reply {
    Reply(200, body)
  }

  const Unauthorized: Reply := ErrorReply(401, "Unauthorized")

  /** An exception the handler does not catch (a body that is not JSON,
      destructuring null): the framework answers 500 with no JSON body. */
  const Crash: Reply := Reply(500, JNull)

  /** `{ error: error.message }` for a failed database call; the database's
      own message text is not modelled. */
  function DbErrorReply(status: nat): Reply {
    ErrorReply(status, "database error")
  }

  /** The 400 answers of a body that fails its schema or is not JSON. */
  const InvalidData: Reply := ErrorReply(400, "Invalid request data")
  const InvalidJson: Reply := ErrorReply(400, "Invalid JSON")
}
