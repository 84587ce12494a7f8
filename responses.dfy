/**
 * The response envelope the handler returns: a status code, a content type
 * and a body. A body is either a value placed in the envelope as it is, or a
 * document the envelope carries JSON-encoded (the encoding itself is outside
 * the model).
 */
module Responses {
  import opened Values

  const TextPlain := "text/plain"
  const ApplicationJson := "application/json"

  datatype Body = Raw(value: Value) | Encoded(document: Value)

  datatype Response = Response(statusCode: int, contentType: string, body: Body)

  /** What an invocation ends with: a response, or an exception that escapes the handler. */
  datatype Outcome = Respond(response: Response) | Throw(exc: Exception)

  /** `error_response(message)`. */
  function ErrorResponse(message: string): Response {
    Response(400, TextPlain, Raw(Str(message)))
  }

  /** `ok_response(body)`: a dict is sent JSON-encoded, anything else as it is. */
  function OkResponse(body: Value): (r: Response)
    ensures r.statusCode == 200
    ensures r.contentType == ApplicationJson <==> body.Dict?
    ensures r.contentType != ApplicationJson ==> r.contentType == TextPlain
    ensures r.body.Encoded? <==> body.Dict?
    ensures r.body == Raw(body) || r.body == Encoded(body)
  {
    if body.Dict? then Response(200, ApplicationJson, Encoded(body)) else Response(200, TextPlain, Raw(body))
  }

  /** `ok_response()`: the empty plain-text success. */
  function OkEmpty(): Response {
    OkResponse(Str(""))
  }

  /** The message of an error response, when `r` is one. */
  predicate IsError(r: Response) {
    r.statusCode == 400 && r.contentType == TextPlain && r.body.Raw? && r.body.value.Str?
  }

  /**
   * Every error is a 400 with a plain-text message, which can be read back
   * from it, and no error response is a success response.
   */
  lemma ErrorResponseShape(message: string, body: Value)
    ensures IsError(ErrorResponse(message)) && ErrorResponse(message).body.value.s == message
    ensures ErrorResponse(message) != OkResponse(body)
    ensures !IsError(OkResponse(body))
  {
  }
}
