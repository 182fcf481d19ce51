/**
 * HTTP exceptions, handler outcomes and the exception handler that renders
 * an exception into the JSON error body the mobile client reads.
 */
module Http {
  import opened Documents

  /**
   * The detail of an HTTPException: either a dict, or any other value,
   * carried here as the text str() gives it.
   */
  datatype Detail = Structured(fields: map<string, Json>) | Plain(text: string)

  datatype HttpError = HttpError(status: int, detail: Detail)

  /** The body {"message": msg}. */
  function MessageBody(msg: string): Json {
    JObject(map["message" := JString(msg)])
  }

  /** An HTTPException raised with detail={"message": msg}, as every raise in the server does. */
  function MessageError(status: int, msg: string): HttpError {
    HttpError(status, Structured(map["message" := JString(msg)]))
  }

  /** The body of a request, as await request.json() sees it. */
  datatype RequestBody = ParsedBody(doc: Json) | InvalidJson

  /**
   * What a handler ends with: a JSON result, an HTTPException, or an
   * exception of another kind, which the exception handler does not catch.
   */
  datatype Outcome = Ok(body: Json) | Raised(error: HttpError) | Unhandled

  /** The result {"ok": true} of every successful write. */
  function OkBody(): Json {
    JObject(map["ok" := JBool(true)])
  }

  datatype Response = Response(status: int, body: Json)

  /**
   * http_exception_handler: a structured detail is sent verbatim, any other
   * detail is wrapped as {"message": str(detail)}; the status is kept.
   */
  function HandleHttpException(e: HttpError): (r: Response)
    ensures r.status == e.status
    ensures e.detail.Structured? ==> r.body == JObject(e.detail.fields)
    ensures e.detail.Plain? ==> r.body == MessageBody(e.detail.text)
    ensures r.body.JObject?
  {
    match e.detail
    case Structured(fields) => Response(e.status, JObject(fields))
    case Plain(text) => Response(e.status, MessageBody(text))
  }

  /**
   * Both detail shapes reach the client as the same body: raising with
   * {"message": m} and raising with the bare text m cannot be told apart.
   */
  lemma DetailShapesRenderAlike(status: int, msg: string)
    ensures HandleHttpException(MessageError(status, msg)) == Response(status, MessageBody(msg))
    ensures HandleHttpException(HttpError(status, Plain(msg))) == Response(status, MessageBody(msg))
  {
  }
}
