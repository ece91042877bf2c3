/** The admin routers: which handler answers which request, behind which
    middleware, and how the entity-specific list and update handlers turn
    the store's answer into a reply. The store itself is a parameter. */
module Handlers {
  import opened Wrappers
  import opened Json
  import opened Http
  import opened Queries
  import opened Updates

  /** The store's answer to a query or an update: the data it returned, or
      the error it reported, with that error's message ("" when it has
      none or it is empty). */
  datatype StoreOutcome = Rows(data: Json) | StoreError(message: string)

  /** `.update(payload).eq("id", id).select().single()` on `table`. */
  datatype UpdateCall = UpdateCall(table: string, id: string, payload: Payload)

  /** The five admin routers. */
  datatype Entity = Testimonials | Quotes | Contacts | Products | Services
  {
    /** The entities whose route file holds its own list and update
        handlers; products only rewrite the query, services have none. */
    predicate OwnHandlers() {
      Testimonials? || Quotes? || Contacts?
    }
  }

  function Table(e: Entity): string {
    match e
    case Testimonials => "testimonials"
    case Quotes => "quotes"
    case Contacts => "contact_messages"
    case Products => "products"
    case Services => "services"
  }

  /** The status a failing list or update answers with: the testimonial
      handlers answer 500, the quote and contact handlers 400. */
  function FailureStatus(e: Entity): int
    requires e.OwnHandlers()
  {
    if e.Testimonials? then 500 else 400
  }

  function ListDefault(e: Entity): string
    requires e.OwnHandlers()
  {
    match e
    case Testimonials => "Failed to fetch testimonials"
    case Quotes => "Failed to fetch quotes"
    case Contacts => "Failed to fetch contact messages"
  }

  function UpdateDefault(e: Entity): string
    requires e.OwnHandlers()
  {
    match e
    case Testimonials => "Failed to update testimonial"
    case Quotes => "Failed to update quote"
    case Contacts => "Failed to update contact message"
  }

  /** `error.message || fallback`. */
  function ErrorText(message: string, fallback: string): string {
    if message != "" then message else fallback
  }

  /** `res.json({ success: true, data })` or
      `res.status(failure).json({ success: false, error })`. */
  function Respond(outcome: StoreOutcome, failure: int, fallback: string): (r: Reply)
    requires fallback != ""
    ensures r.status == 200 <==> outcome.Rows? || failure == 200
    ensures r.body.Succeeded() <==> outcome.Rows?
    ensures outcome.Rows? ==> r.body == Ok(outcome.data)
    ensures outcome.StoreError? ==>
              && r.status == failure
              && r.body.Fail?
              && r.body.error != ""
              && (outcome.message != "" ==> r.body.error == outcome.message)
              && (outcome.message == "" ==> r.body.error == fallback)
  {
    match outcome
    case Rows(data) => Reply(200, Ok(data))
    case StoreError(m) => Reply(failure, Fail(ErrorText(m, fallback)))
  }

  /** The query an entity's own list handler sends. */
  function ListQuery(e: Entity, q: Query): StoreQuery
    requires e.OwnHandlers()
  {
    match e
    case Testimonials => StoreQuery("testimonials", "*", TestimonialFilters(q))
    case Quotes => StoreQuery("quotes", QuoteColumns, QuoteFilters(q))
    case Contacts => StoreQuery("contact_messages", "*", ContactFilters(q))
  }

  function RuleOf(e: Entity): UpdateRule
    requires e.OwnHandlers()
  {
    match e
    case Testimonials => TestimonialRule
    case Quotes => QuoteRule
    case Contacts => ContactRule
  }

  /** An entity's own list handler, given what the store answers to each
      query. */
  function List(e: Entity, q: Query, store: StoreQuery -> StoreOutcome): (r: Reply)
    requires e.OwnHandlers()
    ensures r.status == 200 <==> store(ListQuery(e, q)).Rows?
    ensures r.status != 200 ==> r.status == FailureStatus(e) && r.body.Fail? && r.body.error != ""
    ensures r.body.Succeeded() <==> r.status == 200
    ensures store(ListQuery(e, q)).Rows? ==> r.body == Ok(store(ListQuery(e, q)).data)
    ensures store(ListQuery(e, q)).StoreError? ==>
              r.body.Fail? && r.body.error == ErrorText(store(ListQuery(e, q)).message, ListDefault(e))
  {
    Respond(store(ListQuery(e, q)), FailureStatus(e), ListDefault(e))
  }

  /** An entity's own update handler: the body, transformed by the entity's
      rule, is written to the record `id`. */
  function Update(e: Entity, id: string, updates: Payload, now: string,
                  store: UpdateCall -> StoreOutcome): (r: Reply)
    requires e.OwnHandlers()
    ensures var call := UpdateCall(Table(e), id, Finalize(RuleOf(e), updates, now));
            && (r.status == 200 <==> store(call).Rows?)
            && (store(call).Rows? ==> r.body == Ok(store(call).data))
            && (store(call).StoreError? ==>
                  r.body.Fail? && r.body.error == ErrorText(store(call).message, UpdateDefault(e)))
    ensures r.status != 200 ==> r.status == FailureStatus(e) && r.body.Fail? && r.body.error != ""
  {
    Respond(store(UpdateCall(Table(e), id, Finalize(RuleOf(e), updates, now))),
            FailureStatus(e), UpdateDefault(e))
  }

  /** The JSON sent for a list or update reply says `success: true` exactly
      when the status is 200. */
  lemma ReplySuccessMatchesStatus(e: Entity, q: Query, store: StoreQuery -> StoreOutcome)
    requires e.OwnHandlers()
    ensures Lookup(EnvelopeJson(List(e, q, store).body).fields, "success") ==
              Some(JBool(List(e, q, store).status == 200))
  {
  }

  /** Failures answer 500 for testimonials and 400 for quotes and contact
      messages. */
  lemma FailureStatuses(q: Query, store: StoreQuery -> StoreOutcome)
    ensures List(Testimonials, q, store).status in {200, 500}
    ensures List(Quotes, q, store).status in {200, 400}
    ensures List(Contacts, q, store).status in {200, 400}
  {
  }

  // ---------------------------------------------------------------------
  // Route tables

  /** The middleware a route runs before its handler. */
  datatype Guard = AuthenticateAdmin | ValidateRequestBody

  /** The handler that answers: one of the generic handlers made for the
      entity's table, or one written in the route file. */
  datatype Action =
    | GenericGetAll | GenericGetById | GenericCreate | GenericUpdate | GenericRemove
    | OwnList | OwnUpdate | ProductList

  predicate IsGeneric(a: Action) {
    a.GenericGetAll? || a.GenericGetById? || a.GenericCreate? || a.GenericUpdate? || a.GenericRemove?
  }

  datatype Route = Route(verb: string, path: string, guards: seq<Guard>, action: Action)

  const Auth: seq<Guard> := [AuthenticateAdmin]
  const AuthAndBody: seq<Guard> := [AuthenticateAdmin, ValidateRequestBody]

  /** The routes each router registers, in registration order. */
  function Routes(e: Entity): (rs: seq<Route>)
    ensures |rs| == if e.Contacts? then 4 else 5
    ensures forall r :: r in rs ==> r.path == "/" || r.path == "/:id"
  {
    match e
    case Testimonials =>
      [Route("GET", "/", Auth, OwnList), Route("GET", "/:id", Auth, GenericGetById),
       Route("POST", "/", AuthAndBody, GenericCreate), Route("PUT", "/:id", AuthAndBody, OwnUpdate),
       Route("DELETE", "/:id", Auth, GenericRemove)]
    case Quotes =>
      [Route("GET", "/", Auth, OwnList), Route("GET", "/:id", Auth, GenericGetById),
       Route("POST", "/", AuthAndBody, GenericCreate), Route("PUT", "/:id", AuthAndBody, OwnUpdate),
       Route("DELETE", "/:id", Auth, GenericRemove)]
    case Contacts =>
      [Route("GET", "/", Auth, OwnList), Route("GET", "/:id", Auth, GenericGetById),
       Route("PUT", "/:id", AuthAndBody, OwnUpdate), Route("DELETE", "/:id", Auth, GenericRemove)]
    case Products =>
      [Route("GET", "/", Auth, ProductList), Route("GET", "/:id", Auth, GenericGetById),
       Route("POST", "/", AuthAndBody, GenericCreate), Route("PUT", "/:id", AuthAndBody, GenericUpdate),
       Route("DELETE", "/:id", Auth, GenericRemove)]
    case Services =>
      [Route("GET", "/", Auth, GenericGetAll), Route("GET", "/:id", Auth, GenericGetById),
       Route("POST", "/", AuthAndBody, GenericCreate), Route("PUT", "/:id", AuthAndBody, GenericUpdate),
       Route("DELETE", "/:id", Auth, GenericRemove)]
  }

  /** Whether a router-relative path matches a route pattern: "/" only
      itself, "/:id" one non-empty segment. */
  predicate PathMatches(pattern: string, path: string) {
    if pattern == "/:id" then |path| >= 2 && path[0] == '/' && '/' !in path[1..]
    else path == pattern
  }

  /** Whether a request method is answered by a route registered for
      `routeVerb`: Express runs a GET route for HEAD requests too. */
  predicate VerbMatches(routeVerb: string, verb: string) {
    routeVerb == verb || (routeVerb == "GET" && verb == "HEAD")
  }

  predicate RouteMatches(r: Route, verb: string, path: string) {
    VerbMatches(r.verb, verb) && PathMatches(r.path, path)
  }

  /** The first registered route that matches, or `None` when the request
      falls through the router. */
  function Dispatch(routes: seq<Route>, verb: string, path: string): (r: Option<Route>)
    ensures r.Some? ==> r.value in routes && RouteMatches(r.value, verb, path)
    ensures r.None? <==> forall i :: 0 <= i < |routes| ==> !RouteMatches(routes[i], verb, path)
  {
    if routes == [] then None
    else if RouteMatches(routes[0], verb, path) then Some(routes[0])
    else
      var r := Dispatch(routes[1..], verb, path);
      assert forall i :: 1 <= i < |routes| ==> routes[i] == routes[1..][i - 1];
      r
  }

  /** Dispatch picks the earliest matching route. */
  lemma {:induction false} DispatchFirst(routes: seq<Route>, verb: string, path: string, i: nat)
    requires i < |routes| && RouteMatches(routes[i], verb, path)
    requires forall j :: 0 <= j < i ==> !RouteMatches(routes[j], verb, path)
    ensures Dispatch(routes, verb, path) == Some(routes[i])
  {
    if i > 0 {
      DispatchFirst(routes[1..], verb, path, i - 1);
    }
  }

  /** Every route is behind the admin check. */
  lemma RoutesGuarded(e: Entity)
    ensures forall r :: r in Routes(e) ==> |r.guards| >= 1 && r.guards[0] == AuthenticateAdmin
  {
  }

  /** Exactly the routes that take a body (POST and PUT) validate it. */
  lemma RoutesValidateBodies(e: Entity)
    ensures forall r :: r in Routes(e) ==>
              (ValidateRequestBody in r.guards <==> r.verb == "POST" || r.verb == "PUT")
  {
  }

  /** The contact router has no create route: a POST falls through. */
  lemma ContactsHaveNoCreate(path: string)
    ensures Dispatch(Routes(Contacts), "POST", path) == None
  {
  }

  /** Every other router creates through the generic handler. */
  lemma OthersCreate(e: Entity)
    requires !e.Contacts?
    ensures Dispatch(Routes(e), "POST", "/") == Some(Route("POST", "/", AuthAndBody, GenericCreate))
  {
    DispatchFirst(Routes(e), "POST", "/", 2);
  }

  /** The service router binds only generic handlers. */
  lemma ServicesAreGeneric()
    ensures forall r :: r in Routes(Services) ==> IsGeneric(r.action)
  {
  }

  /** A list request reaches the entity's own list handler, or the generic
      one for services and the query rewrite for products. */
  lemma ListDispatch(e: Entity)
    ensures Dispatch(Routes(e), "GET", "/").Some?
    ensures Dispatch(Routes(e), "GET", "/").value.action ==
              if e.OwnHandlers() then OwnList else if e.Products? then ProductList else GenericGetAll
  {
  }

  /** An update of record `id` reaches the entity's own update handler
      where it has one. */
  lemma UpdateDispatch(e: Entity, id: string)
    requires id != "" && '/' !in id
    ensures Dispatch(Routes(e), "PUT", "/" + id).Some?
    ensures Dispatch(Routes(e), "PUT", "/" + id).value.action ==
              if e.OwnHandlers() then OwnUpdate else GenericUpdate
  {
    assert ("/" + id)[1..] == id;
    DispatchFirst(Routes(e), "PUT", "/" + id, if e.Contacts? then 2 else 3);
  }

  /** A read of record `id` reaches the generic get-by-id handler on
      every router. */
  lemma GetByIdDispatch(e: Entity, id: string)
    requires id != "" && '/' !in id
    ensures Dispatch(Routes(e), "GET", "/" + id) == Some(Route("GET", "/:id", Auth, GenericGetById))
  {
    assert ("/" + id)[1..] == id;
    DispatchFirst(Routes(e), "GET", "/" + id, 1);
  }

  /** A deletion of record `id` reaches the generic remove handler on
      every router. */
  lemma DeleteDispatch(e: Entity, id: string)
    requires id != "" && '/' !in id
    ensures Dispatch(Routes(e), "DELETE", "/" + id) == Some(Route("DELETE", "/:id", Auth, GenericRemove))
  {
    assert ("/" + id)[1..] == id;
    DispatchFirst(Routes(e), "DELETE", "/" + id, |Routes(e)| - 1);
  }

  /** A HEAD request reaches the route the same GET request reaches. */
  lemma HeadAsGet(e: Entity, path: string)
    ensures Dispatch(Routes(e), "HEAD", path) == Dispatch(Routes(e), "GET", path)
  {
    HeadFollowsGet(Routes(e), path);
  }

  /** In a table without HEAD routes, HEAD is dispatched like GET. */
  lemma {:induction false} HeadFollowsGet(routes: seq<Route>, path: string)
    requires forall i :: 0 <= i < |routes| ==> routes[i].verb != "HEAD"
    ensures Dispatch(routes, "HEAD", path) == Dispatch(routes, "GET", path)
  {
    if routes != [] {
      assert RouteMatches(routes[0], "HEAD", path) == RouteMatches(routes[0], "GET", path);
      HeadFollowsGet(routes[1..], path);
    }
  }

  /** No request matches two routes of a router, so registration order
      never decides between them. */
  lemma RoutesDisjoint(e: Entity, verb: string, path: string)
    ensures forall i, j :: 0 <= i < j < |Routes(e)| ==>
              !(RouteMatches(Routes(e)[i], verb, path) && RouteMatches(Routes(e)[j], verb, path))
  {
    var rs := Routes(e);
    forall i, j | 0 <= i < j < |rs|
      ensures !(RouteMatches(rs[i], verb, path) && RouteMatches(rs[j], verb, path))
    {
      RoutePairDisjoint(rs[i], rs[j], verb, path);
    }
  }

  /** Two routes without HEAD that differ in method or pattern never
      match the same request. */
  lemma RoutePairDisjoint(r1: Route, r2: Route, verb: string, path: string)
    requires r1.verb != "HEAD" && r2.verb != "HEAD"
    requires r1.path in {"/", "/:id"} && r2.path in {"/", "/:id"}
    requires r1.verb != r2.verb || r1.path != r2.path
    ensures !(RouteMatches(r1, verb, path) && RouteMatches(r2, verb, path))
  {
  }
}
