/** The HTTP error path: the response envelope `BaseResponse`, the
    application exception `ApiException` and the case analysis of the
    global exception filter, over a small model of JSON values. */
module Responses {

  import opened Seqs
  import opened Entities

  /** A JavaScript value as far as the filter inspects it. Numbers are
      integers (the status codes and counts that occur here). */
  datatype Value =
    | Undefined
    | Null
    | Bool(b: bool)
    | Num(n: int)
    | Str(s: string)
    | Arr(items: seq<Value>)
    | Obj(fields: map<string, Value>)

  /** JavaScript truthiness. */
  predicate Truthy(v: Value) {
    match v
    case Undefined => false
    case Null => false
    case Bool(b) => b
    case Num(n) => n != 0
    case Str(s) => s != ""
    case Arr(_) => true
    case Obj(_) => true
  }

  /** `a || b` */
  function Or(a: Value, b: Value): (r: Value)
    ensures Truthy(a) ==> r == a
    ensures !Truthy(a) ==> r == b
  {
    if Truthy(a) then a else b
  }

  /** Property access `v.key` on a value that is not null or undefined;
      a missing property reads as `undefined`. */
  function Get(v: Value, key: string): (r: Value)
    ensures v.Obj? && key in v.fields ==> r == v.fields[key]
    ensures !(v.Obj? && key in v.fields) ==> r == Undefined
  {
    if v.Obj? && key in v.fields then v.fields[key] else Undefined
  }

  // ---------------------------------------------------------------------
  // BaseResponse

  const DefaultMessage := "Success"

  /** The envelope of every response (the timestamp is left out). The
      message is declared a string, but the filter stores whatever JSON
      value the exception carries, so it is a `Value` here. */
  datatype BaseResponse<T> = BaseResponse(success: bool, message: Value, data: T, path: Option<string>)

  /** `new BaseResponse(data, message)`: a success envelope; an omitted
      (undefined) message becomes "Success". */
  function NewResponse<T>(data: T, message: Value): (r: BaseResponse<T>)
    ensures r.success
    ensures r.data == data
    ensures message == Undefined ==> r.message == Str(DefaultMessage)
    ensures message != Undefined ==> r.message == message
    ensures r.path.None?
  {
    BaseResponse(true, if message == Undefined then Str(DefaultMessage) else message, data, None)
  }

  /** `BaseResponse.success(data, message)` */
  function SuccessResponse<T>(data: T, message: Option<string>): (r: BaseResponse<T>)
    ensures r.success && r.data == data && r.path.None?
    ensures r.message == Str(if message.Some? then message.value else DefaultMessage)
  {
    NewResponse(data, if message.Some? then Str(message.value) else Undefined)
  }

  /** `BaseResponse.error(message)`: built as a success envelope with null
      data, then marked as failed. */
  function ErrorResponse(message: string): (r: BaseResponse<Value>)
    ensures !r.success && r.data == Null && r.message == Str(message) && r.path.None?
  {
    NewResponse(Null, Str(message)).(success := false)
  }

  // ---------------------------------------------------------------------
  // Exceptions

  const BadRequestStatus := 400
  const InternalServerErrorStatus := 500
  const InternalServerErrorMessage := "Internal server error"

  /** `ApiException`: an HTTP exception with its own message, status and
      optional error code. */
  datatype ApiException = ApiException(message: string, status: int, errorCode: Option<string>)
  {
    /** What `getResponse()` returns: the body passed to the HTTP
        exception's constructor. */
    function Response(): (r: Value)
      ensures r.Obj? && r.fields.Keys == {"message"} && Get(r, "message") == Str(message)
    {
      Obj(map["message" := Str(message)])
    }
  }

  /** `new ApiException(message, statusCode?, errorCode?)` */
  function NewApiException(message: string, statusCode: Option<int>, errorCode: Option<string>): (e: ApiException)
    ensures e.message == message
    ensures e.status == if statusCode.Some? then statusCode.value else BadRequestStatus
    ensures e.errorCode == errorCode
  {
    ApiException(message, if statusCode.Some? then statusCode.value else BadRequestStatus, errorCode)
  }

  /** The response an HTTP exception was built with: a string or an object. */
  datatype HttpBody = TextBody(text: string) | ObjectBody(body: Value)

  /** What can reach the filter, most specific class first. */
  datatype Thrown =
    | ApiError(api: ApiException)
    | HttpError(status: int, response: HttpBody, message: string)
    | PlainError(message: string)
    | NotAnError(value: Value)

  /** The filter's three results. */
  datatype Classified = Classified(status: int, message: Value, data: Value)

  /** The `catch` case analysis: the exception's status, message and data,
      each defaulting to 500, "Internal server error" and null. */
  function Classify(exception: Thrown): (c: Classified)
    ensures exception.NotAnError? ==>
              c == Classified(InternalServerErrorStatus, Str(InternalServerErrorMessage), Null)
    ensures exception.ApiError? ==>
              c == Classified(exception.api.status, Str(exception.api.message),
                              Obj(map["errorCode" := ErrorCodeValue(exception.api.errorCode)]))
    ensures exception.HttpError? && exception.response.TextBody? ==>
              c == Classified(exception.status, Str(exception.response.text), Null)
    ensures exception.HttpError? && exception.response.ObjectBody? ==>
              var res := exception.response.body;
              && c.status == exception.status
              && (Truthy(Get(res, "message")) ==> c.message == Get(res, "message"))
              && (!Truthy(Get(res, "message")) && exception.message != "" ==> c.message == Str(exception.message))
              && (!Truthy(Get(res, "message")) && exception.message == "" ==> c.message == Str(InternalServerErrorMessage))
              && (Truthy(Get(res, "data")) ==> c.data == Get(res, "data"))
              && (!Truthy(Get(res, "data")) && Truthy(Get(res, "errors")) ==>
                    c.data == Obj(map["errors" := Get(res, "errors")]))
              && (!Truthy(Get(res, "data")) && !Truthy(Get(res, "errors")) ==> c.data == Null)
    ensures exception.PlainError? ==>
              c == Classified(InternalServerErrorStatus, Str(exception.message), Null)
  {
    match exception
    case ApiError(e) =>
      Classified(e.status, Str(e.message), Obj(map["errorCode" := ErrorCodeValue(e.errorCode)]))
    case HttpError(status, TextBody(text), _) =>
      Classified(status, Str(text), Null)
    case HttpError(status, ObjectBody(res), message) =>
      var msg := Or(Get(res, "message"), Or(Str(message), Str(InternalServerErrorMessage)));
      var data :=
        if Truthy(Get(res, "data")) then Get(res, "data")
        else if Truthy(Get(res, "errors")) then Obj(map["errors" := Get(res, "errors")])
        else Null;
      Classified(status, msg, data)
    case PlainError(message) =>
      Classified(InternalServerErrorStatus, Str(message), Null)
    case NotAnError(_) =>
      Classified(InternalServerErrorStatus, Str(InternalServerErrorMessage), Null)
  }

  function ErrorCodeValue(code: Option<string>): Value {
    if code.Some? then Str(code.value) else Undefined
  }

  /** What the filter writes: the HTTP status and the JSON body. */
  datatype HttpReply = HttpReply(status: int, body: BaseResponse<Value>)

  /** `catch`: the envelope built from the classification, marked as failed
      and stamped with the request URL. */
  function Catch(exception: Thrown, url: string): (r: HttpReply)
    ensures r.status == Classify(exception).status
    ensures !r.body.success
    ensures r.body.path == Some(url)
    ensures r.body.data == Classify(exception).data
    ensures r.body.message == Classify(exception).message
  {
    var c := Classify(exception);
    MessageIsNeverUndefined(exception);
    HttpReply(c.status, NewResponse(c.data, c.message).(success := false, path := Some(url)))
  }

  /** Every branch produces a message, so the envelope's "Success" default
      never shows through an error. */
  lemma MessageIsNeverUndefined(exception: Thrown)
    ensures Classify(exception).message != Undefined
  {
  }

  /** An ApiException is also an HTTP exception; had the generic branch seen
      it first, its status and message would be the same but its error code
      would be lost. The ApiException branch is therefore not redundant. */
  lemma ApiBranchKeepsErrorCode(e: ApiException, ownMessage: string)
    requires e.message != ""
    ensures var generic := Classify(HttpError(e.status, ObjectBody(e.Response()), ownMessage));
            var specific := Classify(ApiError(e));
            && generic.status == specific.status
            && generic.message == specific.message
            && generic.data == Null
            && specific.data == Obj(map["errorCode" := ErrorCodeValue(e.errorCode)])
  {
    var res := e.Response();
    assert Get(res, "data") == Undefined;
    assert Get(res, "errors") == Undefined;
  }

  // ---------------------------------------------------------------------
  // Service errors as the framework raises them

  const NotFoundStatus := 404
  const ForbiddenStatus := 403
  const ConflictStatus := 409

  function StatusOf(e: Error): int {
    match e
    case NotFound(_) => NotFoundStatus
    case Forbidden(_) => ForbiddenStatus
    case BadRequest(_) => BadRequestStatus
    case Conflict(_) => ConflictStatus
    case QueryFailed(_) => InternalServerErrorStatus
    case Crashed(_) => InternalServerErrorStatus
  }

  function ReasonOf(e: Error): string {
    match e
    case NotFound(_) => "Not Found"
    case Forbidden(_) => "Forbidden"
    case BadRequest(_) => "Bad Request"
    case Conflict(_) => "Conflict"
    case QueryFailed(_) => "Internal Server Error"
    case Crashed(_) => "Internal Server Error"
  }

  /** A failed query or a TypeError, thrown as a plain error. */
  predicate IsPlain(e: Error) {
    e.QueryFailed? || e.Crashed?
  }

  /** The exception a service error is thrown as: the framework's HTTP
      exceptions carry `{statusCode, message, error}`; a failed query and a
      TypeError are plain errors. */
  function AsThrown(e: Error): (x: Thrown)
    ensures IsPlain(e) <==> x.PlainError?
    ensures !IsPlain(e) ==> x.HttpError? && x.status == StatusOf(e) && x.response.ObjectBody?
  {
    if IsPlain(e) then PlainError(e.message)
    else
      HttpError(StatusOf(e),
                ObjectBody(Obj(map["statusCode" := Num(StatusOf(e)), "message" := Str(e.message),
                                   "error" := Str(ReasonOf(e))])),
                e.message)
  }

  /** A refused service call reaches the client with its own status and
      message, no data and `success: false`; a failed query or a TypeError
      as a 500. */
  lemma ServiceErrorReply(e: Error, url: string)
    requires e.message != ""
    ensures var r := Catch(AsThrown(e), url);
            && r.status == StatusOf(e)
            && r.body == BaseResponse(false, Str(e.message), Null, Some(url))
  {
    if !IsPlain(e) {
      var res := AsThrown(e).response.body;
      assert Get(res, "message") == Str(e.message);
      assert Get(res, "data") == Undefined;
      assert Get(res, "errors") == Undefined;
    }
  }
}
