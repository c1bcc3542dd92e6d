/** The HTTP responses the handler returns: a status code, an optional
    header map and a JSON body (lambda/app.py, lines 70-79, 85-88, 152-164
    and 167-176). */
module Http {
  import opened Wrappers

  /** The JSON documents the handler serialises as response bodies. */
  datatype Body =
    | MessageBody(message: string)                        // {"message": ...}
    | ErrorBody(error: string)                            // {"error": ...}
    | PredictionBody(cardName: string, confidence: real)  // {"label": ..., "confidence": ...}

  /** `headers` is `None` when the returned dict has no "headers" entry. */
  datatype Response = Response(statusCode: int, headers: Option<map<string, string>>, body: Body)

  /** The fixed header set of the preflight, success and error responses:
      any origin is allowed, there is no allow-list. */
  const CorsHeaders: map<string, string> := map[
    "Content-Type" := "application/json",
    "Access-Control-Allow-Origin" := "*",
    "Access-Control-Allow-Headers" := "Content-Type,Authorization",
    "Access-Control-Allow-Methods" := "OPTIONS,POST,GET"
  ]

  const PreflightMessage: string := "CORS preflight OK"
  const MissingImageMessage: string := "Missing 'image_base64' in request."

  /** The answer to an `OPTIONS` request. */
  const PreflightResponse: Response := Response(200, Some(CorsHeaders), MessageBody(PreflightMessage))

  /** The answer to a body without an image; it carries no headers. */
  const MissingImageResponse: Response := Response(400, None, ErrorBody(MissingImageMessage))

  /** The answer to a classified image. */
  function PredictionResponse(cardName: string, confidence: real): (r: Response) {
    Response(200, Some(CorsHeaders), PredictionBody(cardName, confidence))
  }

  /** The answer built from the text of any exception. */
  function ErrorResponse(message: string): (r: Response) {
    Response(500, Some(CorsHeaders), ErrorBody(message))
  }
}
