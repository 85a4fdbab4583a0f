/**
 * The JSON envelope of every web API answer: optional data, an optional
 * error message and an optional status code. The status code chooses the
 * HTTP status but is never part of the body.
 */
module ApiResponses {
  import opened Wrappers

  /** An HTTP status code, as `http::StatusCode` admits them. */
  type StatusCode = n: int | 100 <= n <= 999 witness 200

  datatype ApiResponse<T> = ApiResponse(data: Option<T>, error: Option<string>, statusCode: Option<StatusCode>)

  /** What is serialized: `status_code` is skipped. */
  datatype Body<T> = Body(data: Option<T>, error: Option<string>)

  datatype HttpResponse = HttpResponse(status: StatusCode, contentType: Option<string>, body: string)

  /** `ApiResponse::new`: stores its arguments unchanged. */
  function New<T>(data: Option<T>, error: Option<string>, statusCode: Option<StatusCode>): (r: ApiResponse<T>)
    ensures r.data == data && r.error == error && r.statusCode == statusCode
  {
    ApiResponse(data, error, statusCode)
  }

  function Serialized<T>(r: ApiResponse<T>): Body<T> {
    Body(r.data, r.error)
  }

  /** The status `respond_to` chooses: the given one, else 400 when there is an error, else 200. */
  function Status<T>(r: ApiResponse<T>): StatusCode {
    if r.statusCode.Some? then r.statusCode.value
    else if r.error.Some? then 400
    else 200
  }

  /**
   * `respond_to`, given the JSON serializer (`None` is a serialization
   * failure): the chosen status with the JSON body, or 500 with no body when
   * serialization fails.
   */
  function RespondTo<T>(r: ApiResponse<T>, toJson: Body<T> -> Option<string>): HttpResponse {
    match toJson(Serialized(r))
    case None => HttpResponse(500, None, "")
    case Some(body) => HttpResponse(Status(r), Some("application/json"), body)
  }

  /** The status rule, for a response whose body serializes. */
  lemma StatusRule<T>(r: ApiResponse<T>, toJson: Body<T> -> Option<string>)
    requires toJson(Serialized(r)).Some?
    ensures r.statusCode.Some? ==> RespondTo(r, toJson).status == r.statusCode.value
    ensures r.statusCode.None? && r.error.Some? ==> RespondTo(r, toJson).status == 400
    ensures r.statusCode.None? && r.error.None? ==> RespondTo(r, toJson).status == 200
    ensures RespondTo(r, toJson).contentType == Some("application/json")
    ensures RespondTo(r, toJson).body == toJson(Body(r.data, r.error)).value
  {
  }

  /** A serialization failure is a bare 500, whatever status was asked for. */
  lemma SerializationFailure<T>(r: ApiResponse<T>, toJson: Body<T> -> Option<string>)
    requires toJson(Serialized(r)).None?
    ensures RespondTo(r, toJson) == HttpResponse(500, None, "")
  {
  }

  /** The status code never reaches the body: responses that differ only in it have the same body. */
  lemma BodyIgnoresStatusCode<T>(r: ApiResponse<T>, statusCode: Option<StatusCode>, toJson: Body<T> -> Option<string>)
    ensures RespondTo(r.(statusCode := statusCode), toJson).body == RespondTo(r, toJson).body
    ensures RespondTo(r.(statusCode := statusCode), toJson).contentType == RespondTo(r, toJson).contentType
  {
  }
}
