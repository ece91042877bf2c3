/** The parts of Express's request and response that the middleware and
    handlers touch, and the JSON envelope every handler answers with. */
module Http {
  import opened Wrappers
  import opened Json
  import Text

  /** A request as the middleware sees it: its method (`verb`), its URL and its
      `Origin` header (`req.get("origin")`). */
  datatype Request = Request(verb: string, url: string, origin: Option<string>)

  /** What has been written as the response body. */
  datatype Body = NoBody | PlainText(text: string) | JsonBody(json: Json) | File(path: string)

  /** The reason phrase `res.sendStatus` writes as the body. */
  function StatusText(code: int): string {
    if code == 200 then "OK"
    else if code == 404 then "Not Found"
    else if code == 500 then "Internal Server Error"
    else Text.IntToDecimal(code)
  }

  /** The response object that middleware updates in place. */
  class Response {
    var headers: map<string, string>
    var statusCode: int
    var body: Body
    var finished: bool

    constructor ()
      ensures headers == map[] && statusCode == 200 && body == NoBody && !finished
    {
      headers := map[];
      statusCode := 200;
      body := NoBody;
      finished := false;
    }

    /** `res.header(name, value)` and `res.setHeader(name, value)`. */
    method Header(name: string, value: string)
      modifies this
      ensures headers == old(headers)[name := value]
      ensures statusCode == old(statusCode) && body == old(body) && finished == old(finished)
    {
      headers := headers[name := value];
    }

    /** `res.sendStatus(code)`: sets the status, writes its reason phrase and
        ends the response. */
    method SendStatus(code: int)
      modifies this
      ensures statusCode == code && body == PlainText(StatusText(code)) && finished
      ensures headers == old(headers)
    {
      statusCode := code;
      body := PlainText(StatusText(code));
      finished := true;
    }

    /** `res.status(code).json(j)`: sets the status, writes `j` and ends the
        response. */
    method StatusJson(code: int, j: Json)
      modifies this
      ensures statusCode == code && body == JsonBody(j) && finished
      ensures headers == old(headers)
    {
      statusCode := code;
      body := JsonBody(j);
      finished := true;
    }

    /** A `res.sendFile(path)` that succeeded: the file is the body, the
        status is left as it was. */
    method SendFile(path: string)
      modifies this
      ensures body == File(path) && finished
      ensures statusCode == old(statusCode) && headers == old(headers)
    {
      body := File(path);
      finished := true;
    }
  }

  /** The `{ success, ... }` envelope. `Degraded` is the analytics routes'
      "success with an error message and fallback data"; `Fault` is the
      application error handler's `{ success: false, error, details }`. */
  datatype Envelope<T> =
    | Ok(data: T)
    | Fail(error: string)
    | Degraded(error: string, data: T)
    | Fault(error: string, details: Option<string>)
  {
    /** The value of the `success` field. */
    predicate Succeeded() {
      Ok? || Degraded?
    }
  }

  /** A handler's answer: status code and JSON envelope. */
  datatype Reply = Reply(status: int, body: Envelope<Json>)

  /** The envelope as the JSON object `res.json` sends, keys in the order the
      handlers write them; an undefined `details` is left out. */
  function EnvelopeJson(e: Envelope<Json>): (j: Json)
    ensures j.JObj?
    ensures Lookup(j.fields, "success") == Some(JBool(e.Succeeded()))
    ensures "data" in KeyList(j.fields) <==> e.Ok? || e.Degraded?
    ensures "error" in KeyList(j.fields) <==> !e.Ok?
  {
    match e
    case Ok(d) => JObj([Field("success", JBool(true)), Field("data", d)])
    case Fail(m) => JObj([Field("success", JBool(false)), Field("error", JStr(m))])
    case Degraded(m, d) =>
      var fs := [Field("success", JBool(true)), Field("error", JStr(m)), Field("data", d)];
      assert KeyList(fs) == ["success", "error", "data"];
      JObj(fs)
    case Fault(m, det) =>
      JObj([Field("success", JBool(false)), Field("error", JStr(m))]
           + (if det.Some? then [Field("details", JStr(det.value))] else []))
  }
}
