/** Response shaping: `errorResponse` and the success response of the
    handler. Every response is JSON with a permissive cross-origin header. */
module Responses {
  import opened Results

  /** The API Gateway proxy response. */
  datatype Response = Response(statusCode: int, headers: map<string, string>, body: string)

  /** The two headers every response carries, and nothing else. */
  predicate HasJsonHeaders(r: Response)
  {
    && r.headers.Keys == {"Content-Type", "Access-Control-Allow-Origin"}
    && r.headers["Content-Type"] == "application/json"
    && r.headers["Access-Control-Allow-Origin"] == "*"
  }

  function JsonHeaders(): map<string, string>
  {
    map["Content-Type" := "application/json", "Access-Control-Allow-Origin" := "*"]
  }

  const ErrorOpen: string := "{\"error\": \""
  const MessageOpen: string := "{\"message\":\""
  const BodyClose: string := "\"}"

  /** The text between `open` and `BodyClose` of a one-field JSON body, if
      the body has that shape. */
  function FieldText(body: string, open: string): Option<string>
  {
    if |open| + |BodyClose| <= |body|
       && body[..|open|] == open
       && body[|body| - |BodyClose|..] == BodyClose
    then Some(body[|open|..|body| - |BodyClose|])
    else None
  }

  /** The message of a body shaped `{"error": "<msg>"}`, if it has that shape. */
  function ErrorMessageOf(body: string): Option<string>
  {
    FieldText(body, ErrorOpen)
  }

  /** The message of a body shaped `{"message":"<msg>"}`, if it has that shape. */
  function MessageOf(body: string): Option<string>
  {
    FieldText(body, MessageOpen)
  }

  /** Wrapping a text between `open` and `BodyClose` and reading it back
      gives the text unchanged. */
  lemma FieldTextRoundTrip(open: string, text: string)
    ensures FieldText(open + text + BodyClose, open) == Some(text)
  {
    var body := open + text + BodyClose;
    assert body[..|open|] == open;
    assert body[|body| - |BodyClose|..] == BodyClose;
    assert body[|open|..|body| - |BodyClose|] == text;
  }

  /** `errorResponse`: the given status, the JSON headers and an error body
      from which the message reads back unchanged. (The message is not
      escaped; every message the handler passes is a fixed text without
      quotes or backslashes.) */
  function ErrorResponse(msg: string, code: int): (r: Response)
    ensures r.statusCode == code
    ensures HasJsonHeaders(r)
    ensures ErrorMessageOf(r.body) == Some(msg)
    ensures MessageOf(r.body) == None
  {
    FieldTextRoundTrip(ErrorOpen, msg);
    var body := ErrorOpen + msg + BodyClose;
    assert body[2] == ErrorOpen[2] != MessageOpen[2];
    Response(code, JsonHeaders(), body)
  }

  const AcceptedMessage: string := "お問い合わせを受け付けました。"
  const AcceptedBody: string := "{\"message\":\"お問い合わせを受け付けました。\"}"

  /** The 200 response: the JSON headers and a `{"message":"…"}` body from
      which the acceptance text reads back; it is not an error body. */
  function SuccessResponse(): (r: Response)
    ensures r.statusCode == 200
    ensures HasJsonHeaders(r)
    ensures MessageOf(r.body) == Some(AcceptedMessage)
    ensures ErrorMessageOf(r.body) == None
  {
    FieldTextRoundTrip(MessageOpen, AcceptedMessage);
    assert AcceptedBody == MessageOpen + AcceptedMessage + BodyClose;
    assert AcceptedBody[2] == MessageOpen[2] != ErrorOpen[2];
    Response(200, JsonHeaders(), AcceptedBody)
  }
}
