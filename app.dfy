/** The end of the application's middleware stack: the single-page-app
    fallback, the catch-all 404 and the error handler. The file system is
    an input: whether the built client exists and whether sending its
    `index.html` fails. */
module App {
  import opened Wrappers
  import opened Json
  import opened Http
  import opened Text

  /** The built client's entry page. */
  const IndexFile := "dist/index.html"

  /** `{ success: false, error: "Not Found" }`. */
  const NotFound: Envelope<Json> := Fail("Not Found")

  /** What the file system answers. */
  datatype Disk = Disk(distExists: bool, sendFileFails: bool)

  /** The requests the fallback answers: a GET whose URL is outside
      `/api/` and has no dot in it, so is not a file. */
  predicate IsSpaRequest(req: Request) {
    req.verb == "GET" && !StartsWith(req.url, "/api/") && '.' !in req.url
  }

  /** The error handler's envelope. */
  function ServerError(message: Option<string>): (e: Envelope<Json>)
    ensures !e.Succeeded() && e.Fault? && e.error == "Server error"
  {
    Fault("Server error", message)
  }

  /** As sent, the error handler's body says `success: false` and "Server
      error"; `details` is the error's message, left out of the JSON when
      the error has none. */
  lemma ServerErrorJson(message: Option<string>)
    ensures Lookup(EnvelopeJson(ServerError(message)).fields, "success") == Some(JBool(false))
    ensures Lookup(EnvelopeJson(ServerError(message)).fields, "error") == Some(JStr("Server error"))
    ensures message.Some? ==>
              Lookup(EnvelopeJson(ServerError(message)).fields, "details") == Some(JStr(message.value))
    ensures message.None? <==> "details" !in KeyList(EnvelopeJson(ServerError(message)).fields)
  {
    if message.Some? {
      ServerErrorWithDetails(message.value);
    } else {
      assert KeyList(EnvelopeJson(ServerError(message)).fields) == ["success", "error"];
    }
  }

  lemma ServerErrorWithDetails(m: string)
    ensures var fs := EnvelopeJson(ServerError(Some(m))).fields;
            && Lookup(fs, "success") == Some(JBool(false))
            && Lookup(fs, "error") == Some(JStr("Server error"))
            && Lookup(fs, "details") == Some(JStr(m))
            && "details" in KeyList(fs)
  {
    var ks := ["success", "error", "details"];
    var vs := [JBool(false), JStr("Server error"), JStr(m)];
    assert EnvelopeJson(ServerError(Some(m))).fields == Object(ks, vs) by {
      assert Object(ks, vs)[2..] == Object(ks[2..], vs[2..]);
    }
    assert Distinct(ks);
    ObjectLookup(ks, vs, 0);
    ObjectLookup(ks, vs, 1);
    ObjectLookup(ks, vs, 2);
  }

  /** The fallback. It answers a single-page-app request with the entry
      page, or with 404 when there is no built client or sending it fails;
      every other request goes on to the next middleware untouched. */
  method SpaFallback(req: Request, disk: Disk, res: Response) returns (callsNext: bool)
    modifies res
    ensures callsNext <==> !IsSpaRequest(req)
    ensures callsNext ==> unchanged(res)
    ensures !callsNext ==> res.finished && res.headers == old(res.headers)
    ensures !callsNext && disk.distExists && !disk.sendFileFails ==>
              res.body == File(IndexFile) && res.statusCode == old(res.statusCode)
    ensures !callsNext && !(disk.distExists && !disk.sendFileFails) ==>
              res.statusCode == 404 && res.body == JsonBody(EnvelopeJson(NotFound))
  {
    if req.verb == "GET" && !StartsWith(req.url, "/api/") && '.' !in req.url {
      if disk.distExists {
        if disk.sendFileFails {
          res.StatusJson(404, EnvelopeJson(NotFound));
        } else {
          res.SendFile(IndexFile);
        }
        return false;
      }
      res.StatusJson(404, EnvelopeJson(NotFound));
      return false;
    }
    return true;
  }

  /** The catch-all for requests no route answered. */
  method NotFoundHandler(res: Response)
    modifies res
    ensures res.statusCode == 404 && res.body == JsonBody(EnvelopeJson(NotFound)) && res.finished
    ensures res.headers == old(res.headers)
  {
    res.StatusJson(404, EnvelopeJson(NotFound));
  }

  /** The error handler: 500 whatever the error. */
  method ErrorHandler(message: Option<string>, res: Response)
    modifies res
    ensures res.statusCode == 500 && res.body == JsonBody(EnvelopeJson(ServerError(message))) && res.finished
    ensures res.headers == old(res.headers)
  {
    res.StatusJson(500, EnvelopeJson(ServerError(message)));
  }

  /** A request no router answered reaches the fallback and then the
      catch-all: it ends with the entry page or with the 404 envelope, and
      the entry page exactly for a single-page-app request when the client
      is built and can be sent. */
  method Unrouted(req: Request, disk: Disk, res: Response)
    modifies res
    ensures res.finished && res.headers == old(res.headers)
    ensures res.body == File(IndexFile) <==> IsSpaRequest(req) && disk.distExists && !disk.sendFileFails
    ensures res.body != File(IndexFile) ==>
              res.statusCode == 404 && res.body == JsonBody(EnvelopeJson(NotFound))
  {
    var next := SpaFallback(req, disk, res);
    if next {
      NotFoundHandler(res);
    }
  }

  /** API paths and file-like paths are never answered with the entry
      page, and neither is anything but GET. */
  lemma SpaExclusions(req: Request)
    ensures StartsWith(req.url, "/api/") ==> !IsSpaRequest(req)
    ensures '.' in req.url ==> !IsSpaRequest(req)
    ensures req.verb != "GET" ==> !IsSpaRequest(req)
  {
  }

  /** The 404 envelope says `success: false` with the error "Not Found". */
  lemma NotFoundJson()
    ensures EnvelopeJson(NotFound) == JObj([Field("success", JBool(false)), Field("error", JStr("Not Found"))])
  {
  }
}
