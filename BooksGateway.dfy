/**
 * The books API route: classifies an incoming request, forwards at most one
 * request to the backend, and maps the backend's outcome into a JSON envelope.
 * The handler is a total function of the request, the backend's outcome, the
 * configured backend origin and the classifier standing for `isNaN`.
 */
module BooksGateway {
  import opened Wrappers
  import opened JsValues

  const InvalidIdMessage: string := "ID buku tidak valid"
  const InvalidBodyMessage: string := "Judul dan penulis harus diisi dengan string valid"
  const ListFailedMessage: string := "Gagal mengambil daftar buku"
  const UpdateFailedMessage: string := "Gagal memperbarui buku"
  const ServerErrorMessage: string := "Terjadi kesalahan server"

  /** The value of the `Allow` header on a 405 (section 15.5.6 of RFC 9110). */
  const AllowedMethods: seq<string> := ["GET", "PUT"]

  /** The parts of the incoming request the handler reads: method, `query.id`, `body`. */
  datatype Request = Request(verb: string, id: Option<string>, body: Option<Value>)

  /** A request sent to the backend: method, URL and JSON body. */
  datatype BackendRequest = BackendRequest(verb: string, url: string, body: Option<Value>)

  /**
   * What the backend did with the forwarded request: it answered with a status
   * and a body (`None` when the body is not JSON), or `fetch` itself failed.
   */
  datatype BackendOutcome = Reply(status: int, body: Option<Value>) | TransportFailure

  /**
   * The body written to the client: a JSON value, or the framework's own error
   * page for an exception that escapes the handler.
   */
  datatype Payload = JsonBody(value: Value) | FrameworkError

  /** The response: status, `Allow` header if set, body, and the backend requests made. */
  datatype Response = Response(status: int, allow: Option<seq<string>>, payload: Payload, calls: seq<BackendRequest>)

  /** `fetchRes.ok`: the status is in the 2xx (successful) class of section 15.3 of RFC 9110. */
  predicate IsOk(status: int)
    ensures IsOk(status) <==> status / 100 == 2
  {
    200 <= status <= 299
  }

  /** `!id || isNaN(id)`; `numeric(s)` stands for `!isNaN(s)`. */
  predicate InvalidId(id: Option<string>, numeric: string -> bool)
    ensures InvalidId(id, numeric) <==> id == None || !Truthy(JString(id.value)) || !numeric(id.value)
  {
    id == None || id.value == "" || !numeric(id.value)
  }

  /** A destructured body field that fails neither `!f` nor `typeof f !== 'string'`. */
  predicate ValidField(f: Read)
    ensures ValidField(f) <==> f.IsTruthy() && f.v.JString?
  {
    f.Found? && f.v.JString? && f.v.s != ""
  }

  /** The request passes every check the handler makes before calling the backend. */
  predicate Admitted(req: Request, numeric: string -> bool)
  {
    req.verb == "GET"
    || (req.verb == "PUT" && !InvalidId(req.id, numeric)
        && ValidField(Property(req.body, "title")) && ValidField(Property(req.body, "author")))
  }

  /** A JSON `{ message }` response that contacts nobody. */
  function Reject(status: int, message: string): Response
  {
    Response(status, None, JsonBody(MessageObject(JString(message))), [])
  }

  /** The 500 envelope used for every failure caught by the handler. */
  function ServerError(call: BackendRequest): Response
  {
    Response(500, None, JsonBody(MessageObject(JString(ServerErrorMessage))), [call])
  }

  /** `errorData`: the backend's error body, or `{}` when it is not JSON. */
  function ErrorData(body: Option<Value>): (r: Value)
    ensures body.Some? ==> r == body.value
    ensures body.None? ==> Property(Some(r), "message").Undefined?
  {
    if body.Some? then body.value else JObject(map[])
  }

  /** `errorData.message || fallback`, for an `errorData` other than `null`. */
  function ErrorMessage(errorData: Value, fallback: string): (r: Value)
    ensures Property(Some(errorData), "message").IsTruthy() ==> Property(Some(errorData), "message") == Found(r)
    ensures !Property(Some(errorData), "message").IsTruthy() ==> r == JString(fallback)
    ensures fallback != "" ==> Truthy(r)
  {
    var m := Property(Some(errorData), "message");
    if m.IsTruthy() then m.v else JString(fallback)
  }

  /**
   * One `try` block of the handler: send `call`, then map the outcome. A non-ok
   * status is mirrored with the backend's message or `fallback`; an ok status
   * becomes 200 with the backend's JSON unchanged; everything thrown becomes 500.
   */
  function Forward(call: BackendRequest, outcome: BackendOutcome, fallback: string): (r: Response)
    ensures r.calls == [call] && r.allow == None
    ensures outcome.Reply? && IsOk(outcome.status) && outcome.body.Some? ==>
              r.status == 200 && r.payload == JsonBody(outcome.body.value)
    ensures outcome.Reply? && !IsOk(outcome.status) && outcome.body != Some(JNull) ==>
              r.status == outcome.status
              && r.payload == JsonBody(MessageObject(ErrorMessage(ErrorData(outcome.body), fallback)))
    ensures outcome.TransportFailure? || (outcome.Reply? && IsOk(outcome.status) && outcome.body.None?)
            || (outcome.Reply? && !IsOk(outcome.status) && outcome.body == Some(JNull)) ==>
              r == ServerError(call)
  {
    match outcome
    case TransportFailure => ServerError(call)
    case Reply(status, body) =>
      if !IsOk(status) then
        var errorData := ErrorData(body);
        if errorData == JNull then ServerError(call)
        else Response(status, None, JsonBody(MessageObject(ErrorMessage(errorData, fallback))), [call])
      else if body.None? then ServerError(call)
      else Response(200, None, JsonBody(body.value), [call])
  }

  /** The GET branch's backend request. */
  function ListRequest(origin: string): BackendRequest
  {
    BackendRequest("GET", origin + "/books", None)
  }

  /** The PUT branch's backend request: only `title` and `author` are sent. */
  function UpdateRequest(origin: string, id: string, title: Value, author: Value): BackendRequest
  {
    BackendRequest("PUT", origin + "/books/" + id, Some(JObject(map["title" := title, "author" := author])))
  }

  /** The PUT branch after the id check: destructure and check the body, then forward. */
  function HandlePut(id: string, body: Option<Value>, outcome: BackendOutcome, origin: string): (r: Response)
    ensures |r.calls| == (if ValidField(Property(body, "title")) && ValidField(Property(body, "author")) then 1 else 0)
  {
    var title := Property(body, "title");
    var author := Property(body, "author");
    if title.TypeError? then
      // destructuring `undefined` or `null` throws outside the try block
      Response(500, None, FrameworkError, [])
    else if !ValidField(title) || !ValidField(author) then
      Reject(400, InvalidBodyMessage)
    else
      Forward(UpdateRequest(origin, id, title.v, author.v), outcome, UpdateFailedMessage)
  }

  /** The route handler. */
  function Handle(req: Request, outcome: BackendOutcome, origin: string, numeric: string -> bool): (r: Response)
    ensures |r.calls| == (if Admitted(req, numeric) then 1 else 0)
    ensures r.allow.Some? <==> req.verb != "GET" && req.verb != "PUT"
    ensures r.status == 400 && r.calls == [] ==> req.verb == "PUT"
  {
    if req.verb == "PUT" && InvalidId(req.id, numeric) then
      Reject(400, InvalidIdMessage)
    else if req.verb == "GET" then
      Forward(ListRequest(origin), outcome, ListFailedMessage)
    else if req.verb == "PUT" then
      HandlePut(req.id.value, req.body, outcome, origin)
    else
      Response(405, Some(AllowedMethods),
               JsonBody(MessageObject(JString("Metode " + req.verb + " tidak diizinkan"))), [])
  }

  /** A PUT with a missing or non-numeric id is refused with 400 whatever its body. */
  lemma InvalidIdRejectedFirst(req: Request, outcome: BackendOutcome, origin: string, numeric: string -> bool, otherBody: Option<Value>)
    requires req.verb == "PUT" && InvalidId(req.id, numeric)
    ensures Handle(req, outcome, origin, numeric) == Reject(400, InvalidIdMessage)
    ensures Handle(req.(body := otherBody), outcome, origin, numeric) == Handle(req, outcome, origin, numeric)
  {
  }

  /** A PUT with a valid id but a bad `title` or `author` is refused with 400. */
  lemma InvalidBodyRejected(req: Request, outcome: BackendOutcome, origin: string, numeric: string -> bool)
    requires req.verb == "PUT" && !InvalidId(req.id, numeric)
    requires req.body.Some? && req.body != Some(JNull)
    requires !ValidField(Property(req.body, "title")) || !ValidField(Property(req.body, "author"))
    ensures Handle(req, outcome, origin, numeric) == Reject(400, InvalidBodyMessage)
  {
  }

  /** A PUT whose body is `undefined` or `null` escapes the handler: a 500 from the framework. */
  lemma MissingBodyEscapes(req: Request, outcome: BackendOutcome, origin: string, numeric: string -> bool)
    requires req.verb == "PUT" && !InvalidId(req.id, numeric)
    requires req.body == None || req.body == Some(JNull)
    ensures Handle(req, outcome, origin, numeric) == Response(500, None, FrameworkError, [])
  {
  }

  /** Any other method gets 405, `Allow: GET, PUT`, and a message naming the method. */
  lemma OtherMethodNotAllowed(req: Request, outcome: BackendOutcome, origin: string, numeric: string -> bool)
    requires req.verb != "GET" && req.verb != "PUT"
    ensures var r := Handle(req, outcome, origin, numeric);
            r.status == 405 && r.allow == Some(["GET", "PUT"]) && r.calls == []
            && r.payload == JsonBody(MessageObject(JString("Metode " + req.verb + " tidak diizinkan")))
  {
  }

  /** The default message of the branch a request is forwarded by. */
  function Fallback(verb: string): string
  {
    if verb == "GET" then ListFailedMessage else UpdateFailedMessage
  }

  /**
   * A non-ok backend status is mirrored; the message is the backend's truthy
   * `message`, otherwise the branch's default.
   */
  lemma UpstreamErrorMirrored(req: Request, status: int, body: Option<Value>, origin: string, numeric: string -> bool)
    requires Admitted(req, numeric)
    requires !IsOk(status) && body != Some(JNull)
    ensures var r := Handle(req, Reply(status, body), origin, numeric);
            var m := Property(Some(ErrorData(body)), "message");
            r.status == status && r.allow == None
            && r.payload == JsonBody(MessageObject(if m.IsTruthy() then m.v else JString(Fallback(req.verb))))
  {
  }

  /** Any ok backend status with a JSON body yields 200 and that body unchanged. */
  lemma SuccessPassedThrough(req: Request, status: int, data: Value, origin: string, numeric: string -> bool)
    requires Admitted(req, numeric) && IsOk(status)
    ensures Handle(req, Reply(status, Some(data)), origin, numeric)
            == Response(200, None, JsonBody(data), Handle(req, Reply(status, Some(data)), origin, numeric).calls)
  {
  }

  /**
   * A transport failure, an ok reply whose body is not JSON, or an error body
   * that is `null` (reading `null.message` throws) yields 500 with the fixed
   * message only.
   */
  lemma FailuresHidden(req: Request, outcome: BackendOutcome, origin: string, numeric: string -> bool)
    requires Admitted(req, numeric)
    requires outcome.TransportFailure? || (outcome.Reply? && IsOk(outcome.status) && outcome.body.None?)
             || (outcome.Reply? && !IsOk(outcome.status) && outcome.body == Some(JNull))
    ensures var r := Handle(req, outcome, origin, numeric);
            r.status == 500 && r.payload == JsonBody(MessageObject(JString(ServerErrorMessage)))
  {
  }

  /**
   * A PUT that passes validation sends exactly `{title, author}` to
   * `/books/{id}`; every other body field is dropped.
   */
  lemma UpdateForwardsTitleAndAuthor(req: Request, outcome: BackendOutcome, origin: string, numeric: string -> bool)
    requires req.verb == "PUT" && Admitted(req, numeric)
    ensures var r := Handle(req, outcome, origin, numeric);
            var fields := req.body.value.fields;
            |r.calls| == 1 && r.calls[0].verb == "PUT" && r.calls[0].url == origin + "/books/" + req.id.value
            && r.calls[0].body == Some(JObject(map["title" := fields["title"], "author" := fields["author"]]))
            && r.calls[0].body.value.fields.Keys == {"title", "author"}
  {
  }

  /** A GET is forwarded to `/books` with no body, whatever its id and body. */
  lemma ListForwarded(req: Request, outcome: BackendOutcome, origin: string, numeric: string -> bool)
    requires req.verb == "GET"
    ensures Handle(req, outcome, origin, numeric).calls == [BackendRequest("GET", origin + "/books", None)]
  {
  }
}
