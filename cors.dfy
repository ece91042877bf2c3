/** Cross-origin handling. Every admin router and the analytics router
    re-read `CORS_ORIGIN` on each request and set the CORS headers
    themselves; the application additionally installs the `cors` package
    with an origin callback over the same list. */
module Cors {
  import opened Wrappers
  import opened Text
  import opened Http

  /** The origins allowed when `CORS_ORIGIN` is unset or empty. */
  const DefaultOrigins: seq<string> :=
    ["http://localhost:5173", "http://localhost:8080", "http://localhost:3000"]

  const AllowOrigin := "Access-Control-Allow-Origin"
  const AllowMethods := "Access-Control-Allow-Methods"
  const AllowHeaders := "Access-Control-Allow-Headers"
  const MaxAge := "Access-Control-Max-Age"

  const AdminMethods := "GET,PUT,POST,DELETE,OPTIONS"
  const AnalyticsMethods := "GET, OPTIONS"
  const RequestHeaders := "Content-Type, Authorization"
  const MaxAgeSeconds := "3600"

  // ---------------------------------------------------------------------
  // The allow-list

  /** `parts.map(o => o.trim())`. */
  function TrimEach(parts: seq<string>): (r: seq<string>) {
    seq(|parts|, i requires 0 <= i < |parts| => Trim(parts[i]))
  }

  /** A trimmed piece is the trim of some piece, and every piece's trim is
      among the trimmed pieces. */
  lemma InTrimEach(parts: seq<string>, o: string)
    ensures o in TrimEach(parts) <==> exists p :: p in parts && Trim(p) == o
  {
    var t := TrimEach(parts);
    if o in t {
      var i :| 0 <= i < |t| && t[i] == o;
      assert parts[i] in parts;
    }
    if exists p :: p in parts && Trim(p) == o {
      var p :| p in parts && Trim(p) == o;
      var i :| 0 <= i < |parts| && parts[i] == p;
      assert t[i] == o;
    }
  }

  /** `parts.filter(Boolean)`: drops the empty strings, keeps the order. */
  function DropEmpty(parts: seq<string>): (r: seq<string>)
    ensures |r| <= |parts|
    ensures forall s :: s in r <==> s in parts && s != ""
  {
    if parts == [] then []
    else if parts[0] == "" then DropEmpty(parts[1..])
    else [parts[0]] + DropEmpty(parts[1..])
  }

  /** A well-formed allow-list entry: non-empty, trimmed, free of commas. */
  predicate IsOriginEntry(o: string) {
    o != "" && Trimmed(o) && ',' !in o
  }

  /** The allow-list read from `CORS_ORIGIN`. An unset or empty variable gives
      exactly the three localhost defaults; otherwise the value is split at
      commas, each piece trimmed, and the empty pieces dropped. */
  function ParseOrigins(env: Option<string>): (origins: seq<string>)
    ensures env.None? || env.value == "" ==> origins == DefaultOrigins
  {
    if env.None? || env.value == "" then DefaultOrigins
    else DropEmpty(TrimEach(Split(env.value, ',')))
  }

  /** Every configured origin is a well-formed entry: non-empty, trimmed and
      free of commas. */
  lemma OriginsWellFormed(env: Option<string>)
    ensures var r := ParseOrigins(env);
            forall i :: 0 <= i < |r| ==> IsOriginEntry(r[i])
  {
    if env.None? || env.value == "" {
      return;
    }
    var r := ParseOrigins(env);
    var parts := Split(env.value, ',');
    var t := TrimEach(parts);
    forall i | 0 <= i < |r|
      ensures IsOriginEntry(r[i])
    {
      assert r[i] in t;
      var j :| 0 <= j < |t| && t[j] == r[i];
      assert ',' !in parts[j];
      if ',' in Trim(parts[j]) {
        TrimKeeps(parts[j], ',');
      }
    }
  }

  /** An origin is listed exactly when some comma-separated piece of the
      variable trims to it (and it is not empty). */
  lemma OriginListed(env: string, o: string)
    requires env != ""
    ensures o in ParseOrigins(Some(env)) <==>
              o != "" && exists p :: p in Split(env, ',') && Trim(p) == o
  {
    var trimmed := TrimEach(Split(env, ','));
    assert ParseOrigins(Some(env)) == DropEmpty(trimmed);
    InTrimEach(Split(env, ','), o);
  }

  lemma TrimEachOfTrimmed(parts: seq<string>)
    requires forall i :: 0 <= i < |parts| ==> Trimmed(parts[i])
    ensures TrimEach(parts) == parts
  {
    forall i | 0 <= i < |parts|
      ensures TrimEach(parts)[i] == parts[i]
    {
      TrimOfTrimmed(parts[i]);
    }
  }

  lemma {:induction false} DropEmptyOfNonEmpty(parts: seq<string>)
    requires forall i :: 0 <= i < |parts| ==> parts[i] != ""
    ensures DropEmpty(parts) == parts
  {
    if parts != [] {
      DropEmptyOfNonEmpty(parts[1..]);
      assert [parts[0]] + parts[1..] == parts;
    }
  }

  /** Writing a non-empty list of well-formed origins comma-separated into
      `CORS_ORIGIN` configures exactly that list, in that order. */
  lemma {:induction false} OriginsRoundTrip(origins: seq<string>)
    requires |origins| >= 1
    requires forall i :: 0 <= i < |origins| ==> IsOriginEntry(origins[i])
    ensures ParseOrigins(Some(Join(origins, ','))) == origins
  {
    var env := Join(origins, ',');
    assert env != "" by { JoinNonEmpty(origins); }
    assert ParseOrigins(Some(env)) == DropEmpty(TrimEach(Split(env, ','))) by {
      ParseSetVariable(env);
    }
    PiecesOfJoin(origins);
  }

  lemma ParseSetVariable(env: string)
    requires env != ""
    ensures ParseOrigins(Some(env)) == DropEmpty(TrimEach(Split(env, ',')))
  {
  }

  lemma JoinNonEmpty(parts: seq<string>)
    requires |parts| >= 1 && parts[0] != ""
    ensures Join(parts, ',') != ""
  {
    if |parts| > 1 {
      assert Join(parts, ',') == parts[0] + [','] + Join(parts[1..], ',');
    }
  }

  /** The split-trim-filter pipeline is the identity on a joined list of
      well-formed entries. */
  lemma PiecesOfJoin(origins: seq<string>)
    requires |origins| >= 1
    requires forall i :: 0 <= i < |origins| ==> IsOriginEntry(origins[i])
    ensures DropEmpty(TrimEach(Split(Join(origins, ','), ','))) == origins
  {
    assert Split(Join(origins, ','), ',') == origins by {
      assert forall i :: 0 <= i < |origins| ==> ',' !in origins[i];
      SplitJoin(origins, ',');
    }
    assert TrimEach(origins) == origins by {
      assert forall i :: 0 <= i < |origins| ==> Trimmed(origins[i]);
      TrimEachOfTrimmed(origins);
    }
    DropEmptyOfNonEmpty(origins);
  }

  /** A value made only of white space and commas configures an empty list:
      every cross-origin request is then refused. */
  lemma BlankEntriesAllowNothing(env: string)
    requires env != ""
    requires forall k :: 0 <= k < |env| ==> env[k] == ',' || IsSpace(env[k])
    ensures ParseOrigins(Some(env)) == []
  {
    var parts := Split(env, ',');
    forall p | p in parts
      ensures Trim(p) == ""
    {
      forall c | c in p
        ensures IsSpace(c)
      {
        assert c in Join(parts, ',') by { JoinContains(parts, p, c); }
        JoinSplit(env, ',');
      }
    }
    if ParseOrigins(Some(env)) != [] {
      var o := ParseOrigins(Some(env))[0];
      OriginListed(env, o);
    }
  }

  /** A character of a piece is a character of the joined string. */
  lemma {:induction false} JoinContains(parts: seq<string>, p: string, c: char)
    requires p in parts && c in p
    ensures c in Join(parts, ',')
  {
    if |parts| > 1 && p != parts[0] {
      JoinContains(parts[1..], p, c);
    }
  }

  // ---------------------------------------------------------------------
  // The decision

  /** `!origin || corsOrigins.includes(origin)`: a request without an origin
      (or with an empty one) and a request from a listed origin are allowed. */
  predicate OriginAllowed(origins: seq<string>, origin: Option<string>) {
    origin.None? || origin.value == "" || origin.value in origins
  }

  /** `origin || "*"`. */
  function AllowOriginValue(origin: Option<string>): string {
    if origin.Some? && origin.value != "" then origin.value else "*"
  }

  /** The headers an admin router's middleware sets. Allow-Origin only for an
      allowed origin, and then it is the request's own origin or `*`, never an
      unlisted one; methods, headers and max-age always. */
  function AdminCorsHeaders(origins: seq<string>, origin: Option<string>): (h: map<string, string>)
    ensures AllowOrigin in h <==> OriginAllowed(origins, origin)
    ensures AllowOrigin in h ==> h[AllowOrigin] == "*" || h[AllowOrigin] in origins
    ensures AllowOrigin in h && (origin.None? || origin.value == "") ==> h[AllowOrigin] == "*"
    ensures AllowOrigin in h && origin.Some? && origin.value != "" ==> h[AllowOrigin] == origin.value
    ensures AllowMethods in h && h[AllowMethods] == AdminMethods
    ensures AllowHeaders in h && h[AllowHeaders] == RequestHeaders
    ensures MaxAge in h && h[MaxAge] == MaxAgeSeconds
    ensures h.Keys <= {AllowOrigin, AllowMethods, AllowHeaders, MaxAge}
    ensures |h| <= 4
  {
    var h := if OriginAllowed(origins, origin) then map[AllowOrigin := AllowOriginValue(origin)] else map[];
    h[AllowMethods := AdminMethods][AllowHeaders := RequestHeaders][MaxAge := MaxAgeSeconds]
  }

  const CacheControl := "Cache-Control"
  const Pragma := "Pragma"
  const Expires := "Expires"
  const SurrogateControl := "Surrogate-Control"

  const NoStoreRevalidate := "no-store, no-cache, must-revalidate, proxy-revalidate"
  const NoCache := "no-cache"
  const ExpiredAlready := "0"
  const NoStore := "no-store"

  /** `h` with the four no-cache headers set on top. */
  function WithNoCache(h: map<string, string>): map<string, string> {
    h[CacheControl := NoStoreRevalidate][Pragma := NoCache][Expires := ExpiredAlready]
     [SurrogateControl := NoStore]
  }

  const NoCacheHeaders: map<string, string> := WithNoCache(map[])

  /** The headers the analytics router's middleware sets: all four CORS
      headers only for an allowed origin, the four no-cache headers always. */
  function AnalyticsCorsHeaders(origins: seq<string>, origin: Option<string>): (h: map<string, string>)
    ensures CacheControl in h && h[CacheControl] == NoStoreRevalidate
    ensures Pragma in h && h[Pragma] == NoCache
    ensures Expires in h && h[Expires] == ExpiredAlready
    ensures SurrogateControl in h && h[SurrogateControl] == NoStore
    ensures OriginAllowed(origins, origin) ==>
              AllowOrigin in h && AllowMethods in h && AllowHeaders in h && MaxAge in h &&
              h[AllowOrigin] == AllowOriginValue(origin) && h[AllowMethods] == AnalyticsMethods &&
              h[AllowHeaders] == RequestHeaders && h[MaxAge] == MaxAgeSeconds
    ensures !OriginAllowed(origins, origin) ==> h == NoCacheHeaders
  {
    var h := if OriginAllowed(origins, origin) then
               map[AllowOrigin := AllowOriginValue(origin)][AllowMethods := AnalyticsMethods]
                  [AllowHeaders := RequestHeaders][MaxAge := MaxAgeSeconds]
             else map[];
    WithNoCache(h)
  }

  /** Setting no header leaves the headers as they are. */
  lemma UnionEmpty(a: map<string, string>)
    ensures a + map[] == a
  {
  }

  /** Setting headers one after the other on top of existing ones. */
  lemma UnionThenSet(a: map<string, string>, b: map<string, string>, k: string, v: string)
    ensures a + b[k := v] == (a + b)[k := v]
  {
  }

  /** For a refused origin the admin routers still advertise their methods,
      headers and max-age; the analytics router advertises nothing. */
  lemma RefusedOriginHeaders(origins: seq<string>, origin: Option<string>)
    requires !OriginAllowed(origins, origin)
    ensures AllowMethods in AdminCorsHeaders(origins, origin)
    ensures AllowMethods !in AnalyticsCorsHeaders(origins, origin)
    ensures AllowOrigin !in AdminCorsHeaders(origins, origin)
    ensures AllowOrigin !in AnalyticsCorsHeaders(origins, origin)
    ensures AllowHeaders in AdminCorsHeaders(origins, origin) && MaxAge in AdminCorsHeaders(origins, origin)
    ensures AllowHeaders !in AnalyticsCorsHeaders(origins, origin)
    ensures MaxAge !in AnalyticsCorsHeaders(origins, origin)
  {
  }

  // ---------------------------------------------------------------------
  // The middleware, which updates the response in place

  /** An admin router's CORS middleware. Returns whether it hands the request
      on (`next()`); a preflight `OPTIONS` request is answered with 200 and
      goes no further. */
  method AdminCorsMiddleware(corsEnv: Option<string>, req: Request, res: Response)
    returns (callsNext: bool)
    modifies res
    ensures res.headers == old(res.headers) + AdminCorsHeaders(ParseOrigins(corsEnv), req.origin)
    ensures callsNext <==> req.verb != "OPTIONS"
    ensures callsNext ==>
              res.statusCode == old(res.statusCode) && res.body == old(res.body) &&
              res.finished == old(res.finished)
    ensures !callsNext ==> res.statusCode == 200 && res.body == PlainText("OK") && res.finished
  {
    var corsOrigins := ParseOrigins(corsEnv);
    var origin := req.origin;
    ghost var h0 := res.headers;
    ghost var h: map<string, string> := map[];
    UnionEmpty(h0);
    if origin.None? || origin.value == "" || origin.value in corsOrigins {
      res.Header(AllowOrigin, AllowOriginValue(origin));
      UnionThenSet(h0, h, AllowOrigin, AllowOriginValue(origin));
      h := h[AllowOrigin := AllowOriginValue(origin)];
    }
    res.Header(AllowMethods, AdminMethods);
    UnionThenSet(h0, h, AllowMethods, AdminMethods);
    h := h[AllowMethods := AdminMethods];
    res.Header(AllowHeaders, RequestHeaders);
    UnionThenSet(h0, h, AllowHeaders, RequestHeaders);
    h := h[AllowHeaders := RequestHeaders];
    res.Header(MaxAge, MaxAgeSeconds);
    UnionThenSet(h0, h, MaxAge, MaxAgeSeconds);
    h := h[MaxAge := MaxAgeSeconds];
    assert h == AdminCorsHeaders(corsOrigins, origin);
    if req.verb == "OPTIONS" {
      res.SendStatus(200);
      return false;
    }
    return true;
  }

  /** The analytics router's CORS and no-cache middleware. */
  method AnalyticsCorsMiddleware(corsEnv: Option<string>, req: Request, res: Response)
    returns (callsNext: bool)
    modifies res
    ensures res.headers == old(res.headers) + AnalyticsCorsHeaders(ParseOrigins(corsEnv), req.origin)
    ensures callsNext <==> req.verb != "OPTIONS"
    ensures callsNext ==>
              res.statusCode == old(res.statusCode) && res.body == old(res.body) &&
              res.finished == old(res.finished)
    ensures !callsNext ==> res.statusCode == 200 && res.body == PlainText("OK") && res.finished
  {
    var corsOrigins := ParseOrigins(corsEnv);
    var origin := req.origin;
    ghost var h0 := res.headers;
    ghost var h: map<string, string> := map[];
    UnionEmpty(h0);
    if origin.None? || origin.value == "" || origin.value in corsOrigins {
      res.Header(AllowOrigin, AllowOriginValue(origin));
      UnionThenSet(h0, h, AllowOrigin, AllowOriginValue(origin));
      h := h[AllowOrigin := AllowOriginValue(origin)];
      res.Header(AllowMethods, AnalyticsMethods);
      UnionThenSet(h0, h, AllowMethods, AnalyticsMethods);
      h := h[AllowMethods := AnalyticsMethods];
      res.Header(AllowHeaders, RequestHeaders);
      UnionThenSet(h0, h, AllowHeaders, RequestHeaders);
      h := h[AllowHeaders := RequestHeaders];
      res.Header(MaxAge, MaxAgeSeconds);
      UnionThenSet(h0, h, MaxAge, MaxAgeSeconds);
      h := h[MaxAge := MaxAgeSeconds];
    }
    PreventCaching(res, h0, h);
    assert WithNoCache(h) == AnalyticsCorsHeaders(corsOrigins, origin);
    if req.verb == "OPTIONS" {
      res.SendStatus(200);
      return false;
    }
    return true;
  }

  /** The four no-cache headers, set on every analytics request. */
  method PreventCaching(res: Response, ghost h0: map<string, string>, ghost h: map<string, string>)
    requires res.headers == h0 + h
    modifies res
    ensures res.headers == h0 + WithNoCache(h)
    ensures res.statusCode == old(res.statusCode) && res.body == old(res.body)
    ensures res.finished == old(res.finished)
  {
    ghost var g := h;
    res.Header(CacheControl, NoStoreRevalidate);
    UnionThenSet(h0, g, CacheControl, NoStoreRevalidate);
    g := g[CacheControl := NoStoreRevalidate];
    res.Header(Pragma, NoCache);
    UnionThenSet(h0, g, Pragma, NoCache);
    g := g[Pragma := NoCache];
    res.Header(Expires, ExpiredAlready);
    UnionThenSet(h0, g, Expires, ExpiredAlready);
    g := g[Expires := ExpiredAlready];
    res.Header(SurrogateControl, NoStore);
    UnionThenSet(h0, g, SurrogateControl, NoStore);
  }

  // ---------------------------------------------------------------------
  // The application-wide `cors` origin callback

  /** What the origin callback hands to `cors`: `callback(null, true)` or
      `callback(new Error("CORS policy violation"))`. */
  datatype Verdict = Allow | Reject(error: string)

  const CorsViolation := "CORS policy violation"

  function OriginCallback(origins: seq<string>, origin: Option<string>): (v: Verdict)
    ensures v.Allow? <==> OriginAllowed(origins, origin)
    ensures v.Reject? ==> v.error == CorsViolation
  {
    if origin.None? || origin.value == "" then Allow
    else if origin.value in origins then Allow
    else Reject(CorsViolation)
  }

  /** The application-wide callback and the per-router middleware agree on
      which origins are allowed. */
  lemma CallbackAgreesWithRouters(origins: seq<string>, origin: Option<string>)
    ensures OriginCallback(origins, origin).Allow? <==> AllowOrigin in AdminCorsHeaders(origins, origin)
    ensures OriginCallback(origins, origin).Allow? <==> AllowOrigin in AnalyticsCorsHeaders(origins, origin)
  {
  }
}
