# Admin and analytics route logic, modelled in Dafny

The server is an Express application. Its admin routers manage testimonials,
quotes, contact messages, products and services in a hosted store. Its
analytics router relays metrics from an analytics provider. On the client,
a small socket wrapper falls back to an in-memory event registry. This
project models the deterministic logic of those pieces:

- the cross-origin policy that every router applies, and the application's
  origin callback;
- the list handlers, which turn the query string into an ordered chain of
  store conditions ending in one newest-first ordering, or for products into
  a serialised `filters` object;
- the update handlers, which stamp `approved_at` / `replied_at` when a
  record reaches a given status and otherwise write the body as received;
- how the store's answer becomes a `{ success, data | error }` reply with a
  per-router failure status, and which handler each router binds;
- the analytics routes, which never fail: a missing, failing or empty
  provider yields the route's fallback data in an envelope still marked as
  a success, while a sources answer the provider did return is sent as the
  bare chart `{labels, sessions}` with no `success` field;
- the end of the application's stack: the single-page-app fallback, the
  catch-all 404 and the 500 error handler;
- the mock socket's `on` / `off` / `emit` registry and the `getSocket`
  singleton.

The store, the analytics provider, the file system and the clock are
inputs. A store answer is a `StoreOutcome`, a provider answer an
`Upstream`, the file system a `Disk`, and the current time a string.

Files, one module each: `wrappers.dfy` (Option), `text.dfy` (JavaScript
`trim`, `split`, `startsWith`, `parseInt`), `json.dfy` (JSON values with
ordered keys, property assignment, `JSON.stringify`, and a reader for
objects of scalars that undoes it), `http.dfy` (request,
response object, envelope), `cors.dfy`, `queries.dfy`, `updates.dfy`,
`handlers.dfy`, `analytics.dfy`, `app.dfy`, `socket.dfy`.

The testimonial handlers answer 500 on failure; the quote and contact
handlers answer 400 (`Handlers.FailureStatus`).

## Model

| member | source | states |
|---|---|---|
| Text.Trim | server/routes/admin-testimonials.ts:19 | `trim` leaves no white space at either end; `TrimEmpty`, `TrimIdempotent` and `TrimKeeps` relate it to its input |
| Text.JoinSplit | server/routes/admin-testimonials.ts:18 | splitting at commas and joining the pieces again gives back the original string |
| Text.SplitJoin | server/routes/admin-testimonials.ts:18 | splitting a comma-joined list of comma-free pieces gives back exactly those pieces |
| Text.Split | server/routes/admin-testimonials.ts:18 | `split(",")` gives at least one piece, and no piece contains the separator |
| Text.ParseInt | server/routes/admin-testimonials.ts:64 | `parseInt` of blank text is NaN; a number needs a digit in the text, and a negative one a minus sign |
| Text.ParseIntDecimal | server/routes/admin-testimonials.ts:64 | `parseInt(s, 10)` reads back any integer written in decimal, whatever non-digit text follows it |
| Cors.ParseOrigins | server/routes/admin-testimonials.ts:17-25 | an unset or empty `CORS_ORIGIN` gives exactly the three localhost origins |
| Cors.DropEmpty | server/routes/admin-testimonials.ts:20 | `filter(Boolean)` keeps exactly the non-empty pieces, never adding one |
| Cors.OriginListed | server/routes/admin-testimonials.ts:17-20 | an origin is listed if and only if it is non-empty and some comma-separated piece of the variable trims to it |
| Cors.OriginsWellFormed | server/routes/admin-services.ts:21-29 | every listed origin is non-empty, trimmed and comma-free |
| Cors.OriginsRoundTrip | server/app.ts:25-33 | writing a list of well-formed origins comma-joined into the variable configures exactly that list, in order |
| Cors.BlankEntriesAllowNothing | server/routes/admin-quotes.ts:17-20 | a value made only of commas and white space configures an empty list |
| Cors.AdminCorsHeaders | server/routes/admin-testimonials.ts:30-35 | Allow-Origin is present iff the origin is absent, empty or listed; its value is the origin, or `*` without one; methods, headers and max-age are always set, and no other header is |
| Cors.AnalyticsCorsHeaders | server/routes/analyticsRoutes.ts:16-27 | the four CORS headers only for an allowed origin, with `GET, OPTIONS`; the four no-cache headers always; only those for a refused origin |
| Cors.RefusedOriginHeaders | server/routes/admin-services.ts:34-39 | for a refused origin the admin routers still send methods, headers and max-age; the analytics router sends none of them |
| Cors.AdminCorsMiddleware | server/routes/admin-contacts.ts:15-41 | adds exactly the admin headers to the response; OPTIONS is answered 200 "OK" and never reaches `next`; every other method goes on with the response otherwise untouched |
| Cors.AnalyticsCorsMiddleware | server/routes/analyticsRoutes.ts:7-35 | adds exactly the analytics headers; OPTIONS is answered 200 and goes no further |
| Cors.PreventCaching | server/routes/analyticsRoutes.ts:24-27 | sets the four no-cache headers on top of the existing ones |
| Cors.OriginCallback | server/app.ts:39-53 | allows a missing origin and any listed one; rejects every other origin with "CORS policy violation" |
| Cors.CallbackAgreesWithRouters | server/app.ts:39-53 | the application callback allows exactly the origins for which the routers set Allow-Origin |
| Queries.TestimonialFilters | server/routes/admin-testimonials.ts:54-72 | the chain ends with one newest-first ordering; filters are only on status, rating and is_featured; one condition for each non-empty status and rating and one whenever `featured` is present |
| Queries.TestimonialConditions | server/routes/admin-testimonials.ts:59-70 | the status and rating conditions are in the chain iff their parameter is non-empty; the featured condition iff `featured` is present, even as "false" |
| Queries.GetAllTestimonials | server/routes/admin-testimonials.ts:57-72 | the query reassigned one condition at a time equals the testimonial chain on table `testimonials` |
| Queries.UnknownTestimonialParam | server/routes/admin-testimonials.ts:54 | adding, changing or removing any parameter other than status, rating and featured leaves the chain unchanged |
| Queries.TestimonialSelection | server/routes/admin-testimonials.ts:59-72 | a row passes the chain iff it has the requested status, rating and featured flag, for each parameter given |
| Queries.QuoteFilters | server/routes/admin-quotes.ts:69-86 | the filters come in the fixed order status, service_id, lower date bound, upper date bound, each present iff its parameter is non-empty, followed by the newest-first ordering |
| Queries.GetAllQuotes | server/routes/admin-quotes.ts:54-86 | the reassigned query equals the quote chain on `quotes` with the related service and client columns |
| Queries.UnknownQuoteParam | server/routes/admin-quotes.ts:51 | parameters other than the four named ones never change the chain |
| Queries.QuoteSelection | server/routes/admin-quotes.ts:69-83 | a quote passes iff it matches status and service and its creation time lies within both given bounds, inclusive |
| Queries.InvertedQuoteBounds | server/routes/admin-quotes.ts:77-83 | the bounds are applied independently: for an ordering of timestamps that is transitive and antisymmetric, a lower bound strictly after the upper bound selects no quote |
| Queries.ContactFilters | server/routes/admin-contacts.ts:51-69 | status, lower and upper creation-date bound, each present iff non-empty, then the newest-first ordering |
| Queries.GetAllMessages | server/routes/admin-contacts.ts:54-69 | the reassigned query equals the contact chain on `contact_messages` |
| Queries.UnknownContactParam | server/routes/admin-contacts.ts:51 | parameters other than status, dateFrom and dateTo never change the chain |
| Queries.ContactSelection | server/routes/admin-contacts.ts:56-69 | a message passes iff it has the requested status and was created within the given bounds |
| Queries.SelectsAppend | server/routes/admin-quotes.ts:69-86 | each condition added to the chain narrows the selection: a chain selects a row iff both of its parts do |
| Queries.BuildProductFilters | server/routes/admin-products.ts:55-60 | the filter object assigned field by field equals `ProductFilters` |
| Queries.ProductCategoryAndStock | server/routes/admin-products.ts:56-57 | `category` is set iff non-empty; `in_stock` is set iff `inStock` is present, to true only for "true" |
| Queries.ProductPrice | server/routes/admin-products.ts:58-60 | `price` is `lte.<max>` when maxPrice is given, else `gte.<min>` when minPrice is, else absent: with both, the upper bound overwrites the lower |
| Queries.ProductFilterKeys | server/routes/admin-products.ts:55-60 | the keys in insertion order are category, in_stock, price, each present iff set; price appears once |
| Queries.NoProductFilters | server/routes/admin-products.ts:55-64 | the filter object is empty iff no recognised parameter is given, and is then serialised as `{}` |
| Queries.ProductFiltersShape | server/routes/admin-products.ts:55-60 | the filter object never repeats a key and holds only strings and booleans |
| Queries.GetAllProducts | server/routes/admin-products.ts:62-65 | the rewritten query keeps every original parameter and adds or replaces `filters` with the serialised filter object, which reads back as exactly that object |
| Json.PutKeyList | server/routes/admin-products.ts:58-60 | assigning an existing property keeps its place; a new one is appended |
| Json.PutTwice | server/routes/admin-testimonials.ts:101-106 | assigning the same value twice is assigning it once |
| Json.PutUnique | server/routes/admin-products.ts:55-60 | assignment never creates a second property with the same key |
| Json.Stringify | server/routes/admin-products.ts:64 | an object serialises to text starting with `{`, an array with `[`, a string with `"`, and nothing else does |
| Json.Quote | server/routes/admin-products.ts:64 | a serialised string is enclosed in double quotes |
| Json.ReadQuote | server/routes/admin-products.ts:64 | a serialised string, whatever follows it, is read back as the original string with the following text left over |
| Json.ParseFlatObject | server/routes/admin-products.ts:64 | what the reader accepts is an object whose values are all scalars |
| Json.FlatObjectRoundTrip | server/routes/admin-products.ts:64 | reading back the serialisation of an object of scalars gives the object, keys and order included |
| Updates.Finalize | server/routes/admin-testimonials.ts:101-106 | when the body's status is the rule's status the stamp field holds the current time; every other field keeps its value; otherwise the body is written unchanged |
| Updates.FinalizeKeys | server/routes/admin-contacts.ts:98-104 | the stamp is appended when new and overwritten in place when present; no other key is added, removed or reordered |
| Updates.FinalizeUnique | server/routes/admin-contacts.ts:98-104 | the written object has no repeated key when the body has none |
| Updates.FinalizeIdempotent | server/routes/admin-testimonials.ts:101-106 | stamping the stamped body again at the same time changes nothing |
| Updates.TestimonialStamp | server/routes/admin-testimonials.ts:101-106 | `approved_at` is set to the current time iff the status is "approved"; otherwise the body is written as received |
| Updates.ContactStamp | server/routes/admin-contacts.ts:97-104 | `replied_at` is set iff the status is "replied", keeping the status; otherwise the body is written as received |
| Updates.QuotePassThrough | server/routes/admin-quotes.ts:113-118 | a quote body is written exactly as received |
| Handlers.Respond | server/routes/admin-quotes.ts:88-103 | data gives 200 with `success: true` and the data; an error gives the failure status with `success: false` and the error's message, or the default when it has none |
| Handlers.List | server/routes/admin-testimonials.ts:74-88 | the reply is 200 iff the store returned rows for the entity's query, and then carries exactly those rows; otherwise the entity's failure status with the store's message, or the entity's default when it has none |
| Handlers.Update | server/routes/admin-contacts.ts:94-121 | the store is asked to write the rule-transformed body to the record; 200 with its data iff it returns data, otherwise the failure status with the store's message or the default update error |
| Handlers.FailureStatuses | server/routes/admin-testimonials.ts:83-88 | failures answer 500 for testimonials and 400 for quotes and contact messages |
| Handlers.ReplySuccessMatchesStatus | server/routes/admin-quotes.ts:93-102 | the JSON sent says `success: true` exactly when the status is 200 |
| Handlers.Dispatch | server/routes/admin-contacts.ts:124-133 | the route chosen is a registered route that matches, a GET route also matching HEAD; none is chosen iff no route matches |
| Handlers.HeadAsGet | server/routes/admin-contacts.ts:124-127 | a HEAD request reaches the same route as the GET request for the same path; with ListDispatch and GetByIdDispatch it runs the list or get-by-id handler |
| Handlers.DispatchFirst | server/routes/admin-quotes.ts:135-147 | the first registered matching route answers |
| Handlers.Routes | server/routes/admin-products.ts:71-83 | the contact router registers four routes and the others five; every route path is `/` or `/:id` |
| Handlers.RoutesGuarded | server/routes/admin-testimonials.ts:129-142 | every route runs the admin check first |
| Handlers.RoutesValidateBodies | server/routes/admin-quotes.ts:135-147 | exactly the POST and PUT routes also validate the body |
| Handlers.ContactsHaveNoCreate | server/routes/admin-contacts.ts:124-133 | no route of the contact router answers a POST |
| Handlers.OthersCreate | server/routes/admin-products.ts:77 | every other router creates through the generic handler |
| Handlers.ServicesAreGeneric | server/routes/admin-services.ts:54-66 | the service router binds only generic handlers |
| Handlers.ListDispatch | server/routes/admin-services.ts:54 | a list request reaches the router's own list handler, the product query rewrite, or the generic list for services |
| Handlers.GetByIdDispatch | server/routes/admin-contacts.ts:127 | a read of one record reaches the generic get-by-id route, behind the admin check only, on every router |
| Handlers.DeleteDispatch | server/routes/admin-contacts.ts:133 | a deletion of one record reaches the generic remove route, behind the admin check only, on every router |
| Handlers.UpdateDispatch | server/routes/admin-quotes.ts:144 | an update of a record reaches the router's own update handler where it has one, the generic one otherwise |
| Handlers.RoutesDisjoint | server/routes/admin-contacts.ts:124-133 | no request matches two routes of a router |
| Analytics.HandleAnalyticsError | server/routes/analyticsRoutes.ts:94-103 | always `success: true` with the message; the data is the given fallback, or FALLBACK_DATA when that is falsy |
| Analytics.FallbackData | server/routes/analyticsRoutes.ts:56-73 | FALLBACK_DATA has sixteen fields, each number 0 and each list empty, ending with `lastUpdated` set to the module's load time |
| Analytics.Overview | server/routes/analyticsRoutes.ts:105-139 | always a success envelope; plain data exactly when the provider is configured, does not throw and returns an overview, and then the data is the overview built from the answer (see OverviewNumbers, OverviewLists); otherwise FALLBACK_DATA with the message for the cause |
| Analytics.MetricsRoute | server/routes/analyticsRoutes.ts:141-153 | always `success: true` with an object of metric names; the provider's metrics object when it returned some, the zero metrics otherwise |
| Analytics.MetricsLookup | server/routes/analyticsRoutes.ts:147-148 | each metric name of the object sent holds the number the provider reported under it; a missing number and any other name are absent |
| Analytics.MetricsFields | server/routes/analyticsRoutes.ts:147-148 | `activeUsers`, `sessions`, `screenPageViews`, `averageSessionDuration` and `bounceRate` each hold the provider's number, or are absent when it is missing |
| Analytics.Timeseries | server/routes/analyticsRoutes.ts:155-167 | always `success: true` with truthy data: the provider's series when truthy, the empty series otherwise |
| Analytics.Sources | server/routes/analyticsRoutes.ts:169-185 | a returned answer is sent as the bare chart built from it (see SourcesChartShape), with no `success` field; every other outcome as a success envelope holding the empty chart |
| Analytics.Realtime | server/routes/analyticsRoutes.ts:187-214 | always a success envelope; plain data exactly when the provider returns metrics, and then the data is the realtime object built from them (see RealtimeLists); otherwise FALLBACK_DATA with the message for the cause |
| Analytics.Conversions | server/routes/analyticsRoutes.ts:216-244 | always a success envelope; plain data exactly when the provider returns metrics, and then the data is the conversion object built from the event summary (see ConversionConstants); otherwise FALLBACK_DATA with the message for the cause |
| Analytics.NotConfiguredFallbacks | server/routes/analyticsRoutes.ts:106-107 | without a configured provider each route sends its own fallback: FALLBACK_DATA with "GA4 not configured" for overview, realtime and conversions; the zero metrics, empty series and empty chart for the others |
| Analytics.OverviewNumbers | server/routes/analyticsRoutes.ts:121-126 | `pageViews` is `screenPageViews` and `users` is `activeUsers`; each number is the provider's value or 0 |
| Analytics.OverviewRenames | server/routes/analyticsRoutes.ts:121-130 | the provider's names `screenPageViews` and `activeUsers` do not appear in the overview |
| Analytics.OverviewLists | server/routes/analyticsRoutes.ts:127-129 | each list is the provider's list or empty |
| Analytics.SourcesChartShape | server/routes/analyticsRoutes.ts:176-179 | labels and sessions have one entry per source, so equal length; label `i` is source `i`'s name and number `i` its percentage, a NaN percentage being 0 |
| Analytics.RealtimeLists | server/routes/analyticsRoutes.ts:199-205 | realtime always sends empty `currentPages` and `countries`, and the page views or 0 |
| Analytics.ConversionConstants | server/routes/analyticsRoutes.ts:229-235 | conversions always send revenue 0, no goal completions and the request time; the count and the rate are the summary's, a missing one or a missing summary giving 0 |
| Analytics.ConversionEvent | server/routes/analyticsRoutes.ts:223 | the event is GA4_CONVERSION_EVENT when set and non-empty, "generate_lead" otherwise; never empty |
| App.ServerError | server/app.ts:141-146 | the error handler's envelope is a failure with "Server error" |
| App.ServerErrorJson | server/app.ts:143-145 | the JSON says `success: false` and "Server error"; `details` is the error's message and is left out iff it has none |
| App.SpaExclusions | server/app.ts:118-123 | the entry page is never the answer to a non-GET, to a URL under `/api/`, or to a URL with a dot |
| App.SpaFallback | server/app.ts:118-134 | a GET outside `/api/` without a dot is answered with the entry page, or 404 when there is no built client or sending it fails; every other request goes to `next` untouched |
| App.NotFoundHandler | server/app.ts:136-138 | an unmatched request gets 404 with `{success: false, error: "Not Found"}` |
| App.ErrorHandler | server/app.ts:141-146 | every error is answered 500 with the server-error envelope |
| App.Unrouted | server/app.ts:118-138 | a request no router answered ends with the entry page exactly when the fallback may serve it, and with the 404 envelope otherwise |
| Socket.Add | client/lib/socket.ts:18-20 | after adding, the callback is in the set and nothing but it was added |
| Socket.AddNoDup | client/lib/socket.ts:18-20 | adding keeps a set without repetitions; adding the same callback twice leaves one copy |
| Socket.Remove | client/lib/socket.ts:26 | after removing, the callback is gone and every other member stays |
| Socket.RemoveNoDup | client/lib/socket.ts:26 | removing keeps a set without repetitions |
| Socket.RemoveAbsent | client/lib/socket.ts:26 | removing a callback that is not subscribed changes nothing |
| Socket.RemoveAdd | client/lib/socket.ts:18-27 | subscribing a new callback and unsubscribing it restores the set, order included |
| Socket.MockSocket.constructor | client/lib/socket.ts:14-32 | the registry starts empty and the mock reports itself not connected |
| Socket.MockSocket.On | client/lib/socket.ts:18-20 | creates the event's set when missing and adds the callback; no other event changes |
| Socket.MockSocket.Off | client/lib/socket.ts:21-27 | without a callback the event's set is dropped; with one, only that callback is removed, and an unknown event is left alone; other events never change |
| Socket.MockSocket.Emit | client/lib/socket.ts:28-30 | the subscribers are called in subscription order with the same arguments, each at most once; a throwing callback is the last one called and the exception reaches the caller; without one every subscriber is called; the registry is not changed |
| Socket.SocketModule.GetSocket | client/lib/socket.ts:72-74 | every call returns the same socket object |
| Socket.OnAsWritten | client/lib/socket.ts:14-20 | the registry as written: `on` throws exactly for an event named after a property every object inherits |
| Socket.EmitAsWritten | client/lib/socket.ts:28-30 | the registry as written: `emit` throws exactly for an event named after an inherited property |
| Socket.OffAsWritten | client/lib/socket.ts:21-27 | the registry as written: `off` with a callback throws exactly for an event named after an inherited property; without one it drops the event's own set |
| Socket.ToStringEventThrows | client/lib/socket.ts:14-30 | `on`, `emit` and `off` with a callback, for the event "toString", throw on the fresh registry |
| Socket.AsWrittenAgrees | client/lib/socket.ts:18-30 | for every other event name the registry as written does what the corrected one does |

## Findings

| source | as written | input that shows it | evidently intended | confidence | as-written member | corrected member |
|---|---|---|---|---|---|---|
| client/lib/socket.ts:14-30 | the registry is a plain `{}`, so `subscribers[event]` finds the members inherited from `Object.prototype`; `||=` keeps them, and `.add`, `.forEach` or `.delete` on them throws a TypeError | `on("toString", cb)`, `emit("toString")` or `off("toString", cb)` on the fresh registry | every event name has its own set of subscribers, as with a `Map` or a prototype-free object | high, not executed | Socket.OnAsWritten | Socket.MockSocket.On |

## Left out

- The store's query execution and the generic handlers (`getAll`, `getById`, `create`, `update`, `remove`) are not part of this model. Their file is not part of this model either. The store is an input, and a generic handler is a name in the route tables.
- The admin check, the body validator and the request logger are not part of this model: their file is not part of this model. They appear only as the guards of each route.
- The analytics provider calls and their `Promise.all` fan-out are replaced by the `Upstream` outcome of each route. Any call that throws becomes `Threw`.
- The provider's numbers are integers here. Floating point (`bounceRate`, durations) and the NaN that `Number` can produce are reduced to `Option<int>`: `None` stands for a missing or NaN value.
- Analytics.MetricsJson: the key order of the provider's metrics object is not known here; the model writes present fields in a fixed order.
- `parseInt` is modelled on decimal digits with an optional sign after leading white space. Its result is an unbounded integer, not a double.
- Query parameters are single strings. Repeated parameters, which Express parses into arrays, are not modelled.
- Header names are compared exactly. Express's case-insensitive header handling is not modelled.
- Writing to a response whose headers were already sent is not modelled. This includes a `sendFile` that fails after it has started.
- The mock registry runs callbacks after the fact: a callback that subscribes or unsubscribes while `emit` is iterating is not modelled.
- The dynamic `socket.io-client` import, which swaps in a real socket's methods, is not modelled. It is network loading.
- The client's analytics fetch wrapper (`client/lib/analyticsApi.ts`) is not part of this model.
- Static file serving, the JSON body-size limit, console logging, the health route and the order in which routers are mounted are not modelled.
- The clock is a parameter: the update stamp, the conversions `lastUpdated`, and FALLBACK_DATA's module load time.
- The headers Express writes itself are not modelled: the Content-Type of `sendStatus`, and the Content-Type, Content-Length and ETag of `json` and `sendFile`. "Adds exactly" in the CORS rows and the unchanged headers of the response methods refer to the headers the code sets.
- The application-wide `cors` options other than the origin callback (methods including PATCH, allowed headers, credentials, a max-age of 3600) are not modelled; only `Cors.OriginCallback` is.
- Analytics.FallbackData: that no key repeats is not stated, only the field count, the values and the last field.
- Handlers.PathMatches: Express path matching is reduced to the two patterns the routers use (`/` and `/:id`); trailing slashes and URL decoding are not modelled.
