/** How the list handlers turn the request's query string into a query
    against the store: a table, a column selection, and an ordered chain of
    conditions ending in one newest-first ordering. Products instead build a
    `filters` object that is handed on to the generic list handler. */
module Queries {
  import opened Wrappers
  import opened Text
  import opened Json

  /** The parsed query string (`req.query`), one string per parameter. */
  type Query = map<string, string>

  /** A value passed to the store. */
  datatype Scalar = SStr(s: string) | SInt(n: int) | SNaN | SBool(b: bool)

  /** One link of the query-builder chain: `eq`, `gte`, `lte`, or
      `order(column, { ascending: false })`. */
  datatype Predicate =
    | Eq(column: string, value: Scalar)
    | Gte(column: string, value: Scalar)
    | Lte(column: string, value: Scalar)
    | OrderDesc(column: string)

  /** `supabase.from(table).select(columns)` followed by the chain. */
  datatype StoreQuery = StoreQuery(table: string, columns: string, preds: seq<Predicate>)

  const CreatedAt := "created_at"

  /** The quote listing also pulls in the related service and client. */
  const QuoteColumns :=
    "*, services (id, name, description), clients:contact_messages (id, name, email, phone)"

  /** The parameter's value, or "" (falsy) when it is absent. */
  function Param(q: Query, k: string): string {
    if k in q then q[k] else ""
  }

  /** `if (q.k)`: the parameter is present and not empty. */
  predicate Truthy(q: Query, k: string) {
    Param(q, k) != ""
  }

  /** `parseInt(v, 10)` as the value handed to the store. */
  function IntScalar(v: string): Scalar {
    match ParseInt(v)
    case Num(n) => SInt(n)
    case NaN => SNaN
  }

  /** A one-element chain when `c` holds, otherwise nothing. */
  function When(c: bool, p: Predicate): seq<Predicate> {
    if c then [p] else []
  }

  /** The shape every list query has: filters first, then exactly one
      ordering, newest first by creation time. */
  predicate EndsWithNewestFirst(preds: seq<Predicate>) {
    && |preds| >= 1
    && preds[|preds| - 1] == OrderDesc(CreatedAt)
    && forall i :: 0 <= i < |preds| - 1 ==> !preds[i].OrderDesc?
  }

  /** Every filter of the chain is on one of `columns`. */
  predicate FiltersOn(preds: seq<Predicate>, columns: set<string>) {
    forall i :: 0 <= i < |preds| && !preds[i].OrderDesc? ==> preds[i].column in columns
  }

  /** A chain made only of filters on `columns`, without an ordering. */
  predicate ConditionsOn(preds: seq<Predicate>, columns: set<string>) {
    forall i :: 0 <= i < |preds| ==> !preds[i].OrderDesc? && preds[i].column in columns
  }

  lemma WhenOn(c: bool, p: Predicate, columns: set<string>)
    requires !p.OrderDesc? && p.column in columns
    ensures ConditionsOn(When(c, p), columns)
  {
  }

  lemma AppendOn(a: seq<Predicate>, b: seq<Predicate>, columns: set<string>)
    requires ConditionsOn(a, columns) && ConditionsOn(b, columns)
    ensures ConditionsOn(a + b, columns)
  {
    forall i | 0 <= i < |a + b|
      ensures !(a + b)[i].OrderDesc? && (a + b)[i].column in columns
    {
      if i >= |a| {
        assert (a + b)[i] == b[i - |a|];
      }
    }
  }

  /** Closing a chain of conditions with the newest-first ordering. */
  lemma CloseChain(filters: seq<Predicate>, columns: set<string>)
    requires ConditionsOn(filters, columns)
    ensures EndsWithNewestFirst(filters + [OrderDesc(CreatedAt)])
    ensures FiltersOn(filters + [OrderDesc(CreatedAt)], columns)
    ensures (filters + [OrderDesc(CreatedAt)])[..|filters|] == filters
  {
    var preds := filters + [OrderDesc(CreatedAt)];
    forall i | 0 <= i < |preds| - 1
      ensures preds[i] == filters[i]
    {
    }
  }

  // ---------------------------------------------------------------------
  // Testimonials

  /** The chain the testimonial listing builds. Only `status`, `rating` and
      `featured` matter. An empty `status` or `rating` adds nothing, while
      `featured` adds a condition whenever it is present, even when false. */
  function TestimonialFilters(q: Query): (preds: seq<Predicate>)
    ensures EndsWithNewestFirst(preds)
    ensures FiltersOn(preds, {"status", "rating", "is_featured"})
    ensures |preds| == 1 + (if Truthy(q, "status") then 1 else 0)
                         + (if Truthy(q, "rating") then 1 else 0)
                         + (if "featured" in q then 1 else 0)
  {
    var columns := {"status", "rating", "is_featured"};
    var a := When(Truthy(q, "status"), Eq("status", SStr(Param(q, "status"))));
    var b := When(Truthy(q, "rating"), Eq("rating", IntScalar(Param(q, "rating"))));
    var c := When("featured" in q, Eq("is_featured", SBool(Param(q, "featured") == "true")));
    WhenOn(Truthy(q, "status"), Eq("status", SStr(Param(q, "status"))), columns);
    WhenOn(Truthy(q, "rating"), Eq("rating", IntScalar(Param(q, "rating"))), columns);
    WhenOn("featured" in q, Eq("is_featured", SBool(Param(q, "featured") == "true")), columns);
    AppendOn(a, b, columns);
    AppendOn(a + b, c, columns);
    CloseChain(a + b + c, columns);
    a + b + c + [OrderDesc(CreatedAt)]
  }

  lemma InWhen(c: bool, p: Predicate, x: Predicate)
    ensures x in When(c, p) <==> c && x == p
  {
  }

  lemma InChain(a: seq<Predicate>, b: seq<Predicate>, c: seq<Predicate>, x: Predicate)
    ensures x in a + b + c + [OrderDesc(CreatedAt)] <==>
              x in a || x in b || x in c || x == OrderDesc(CreatedAt)
  {
  }

  /** Each testimonial condition is in the chain exactly when its parameter
      asks for it: `status` and `rating` when non-empty, `featured` whenever
      present, even as "false". */
  lemma TestimonialConditions(q: Query)
    ensures Eq("status", SStr(Param(q, "status"))) in TestimonialFilters(q) <==> Truthy(q, "status")
    ensures Eq("rating", IntScalar(Param(q, "rating"))) in TestimonialFilters(q) <==> Truthy(q, "rating")
    ensures Eq("is_featured", SBool(Param(q, "featured") == "true")) in TestimonialFilters(q) <==>
              "featured" in q
  {
    var status := Eq("status", SStr(Param(q, "status")));
    var rating := Eq("rating", IntScalar(Param(q, "rating")));
    var featured := Eq("is_featured", SBool(Param(q, "featured") == "true"));
    var a := When(Truthy(q, "status"), status);
    var b := When(Truthy(q, "rating"), rating);
    var c := When("featured" in q, featured);
    assert TestimonialFilters(q) == a + b + c + [OrderDesc(CreatedAt)];
    InChain(a, b, c, status);
    InChain(a, b, c, rating);
    InChain(a, b, c, featured);
    InWhen(Truthy(q, "status"), status, status);
    InWhen(Truthy(q, "rating"), rating, status);
    InWhen("featured" in q, featured, status);
    InWhen(Truthy(q, "status"), status, rating);
    InWhen(Truthy(q, "rating"), rating, rating);
    InWhen("featured" in q, featured, rating);
    InWhen(Truthy(q, "status"), status, featured);
    InWhen(Truthy(q, "rating"), rating, featured);
    InWhen("featured" in q, featured, featured);
  }

  /** The testimonial listing, reassigning `query` one condition at a time. */
  method GetAllTestimonials(q: Query) returns (query: StoreQuery)
    ensures query == StoreQuery("testimonials", "*", TestimonialFilters(q))
  {
    ghost var a := When(Truthy(q, "status"), Eq("status", SStr(Param(q, "status"))));
    ghost var b := When(Truthy(q, "rating"), Eq("rating", IntScalar(Param(q, "rating"))));
    ghost var c := When("featured" in q, Eq("is_featured", SBool(Param(q, "featured") == "true")));
    query := StoreQuery("testimonials", "*", []);
    if "status" in q && q["status"] != "" {
      query := query.(preds := query.preds + [Eq("status", SStr(q["status"]))]);
    }
    assert query.preds == a;
    if "rating" in q && q["rating"] != "" {
      query := query.(preds := query.preds + [Eq("rating", IntScalar(q["rating"]))]);
    }
    assert query.preds == a + b;
    if "featured" in q {
      query := query.(preds := query.preds + [Eq("is_featured", SBool(q["featured"] == "true"))]);
    }
    assert query.preds == a + b + c;
    query := query.(preds := query.preds + [OrderDesc(CreatedAt)]);
  }

  // ---------------------------------------------------------------------
  // Quotes

  /** The chain the quote listing builds, in a fixed order: status,
      service, lower and upper creation-date bound, ordering. The two bounds
      are added independently and never compared with each other. */
  function QuoteFilters(q: Query): (preds: seq<Predicate>)
    ensures EndsWithNewestFirst(preds)
    ensures FiltersOn(preds, {"status", "service_id", CreatedAt})
    ensures preds[..|preds| - 1] ==
              When(Truthy(q, "status"), Eq("status", SStr(Param(q, "status"))))
              + When(Truthy(q, "serviceId"), Eq("service_id", SStr(Param(q, "serviceId"))))
              + When(Truthy(q, "dateFrom"), Gte(CreatedAt, SStr(Param(q, "dateFrom"))))
              + When(Truthy(q, "dateTo"), Lte(CreatedAt, SStr(Param(q, "dateTo"))))
  {
    var columns := {"status", "service_id", CreatedAt};
    var a := When(Truthy(q, "status"), Eq("status", SStr(Param(q, "status"))));
    var b := When(Truthy(q, "serviceId"), Eq("service_id", SStr(Param(q, "serviceId"))));
    var c := When(Truthy(q, "dateFrom"), Gte(CreatedAt, SStr(Param(q, "dateFrom"))));
    var d := When(Truthy(q, "dateTo"), Lte(CreatedAt, SStr(Param(q, "dateTo"))));
    WhenOn(Truthy(q, "status"), Eq("status", SStr(Param(q, "status"))), columns);
    WhenOn(Truthy(q, "serviceId"), Eq("service_id", SStr(Param(q, "serviceId"))), columns);
    WhenOn(Truthy(q, "dateFrom"), Gte(CreatedAt, SStr(Param(q, "dateFrom"))), columns);
    WhenOn(Truthy(q, "dateTo"), Lte(CreatedAt, SStr(Param(q, "dateTo"))), columns);
    AppendOn(a, b, columns);
    AppendOn(a + b, c, columns);
    AppendOn(a + b + c, d, columns);
    CloseChain(a + b + c + d, columns);
    a + b + c + d + [OrderDesc(CreatedAt)]
  }

  method GetAllQuotes(q: Query) returns (query: StoreQuery)
    ensures query == StoreQuery("quotes", QuoteColumns, QuoteFilters(q))
  {
    ghost var a := When(Truthy(q, "status"), Eq("status", SStr(Param(q, "status"))));
    ghost var b := When(Truthy(q, "serviceId"), Eq("service_id", SStr(Param(q, "serviceId"))));
    ghost var c := When(Truthy(q, "dateFrom"), Gte(CreatedAt, SStr(Param(q, "dateFrom"))));
    ghost var d := When(Truthy(q, "dateTo"), Lte(CreatedAt, SStr(Param(q, "dateTo"))));
    query := StoreQuery("quotes", QuoteColumns, []);
    if "status" in q && q["status"] != "" {
      query := query.(preds := query.preds + [Eq("status", SStr(q["status"]))]);
    }
    assert query.preds == a;
    if "serviceId" in q && q["serviceId"] != "" {
      query := query.(preds := query.preds + [Eq("service_id", SStr(q["serviceId"]))]);
    }
    assert query.preds == a + b;
    if "dateFrom" in q && q["dateFrom"] != "" {
      query := query.(preds := query.preds + [Gte(CreatedAt, SStr(q["dateFrom"]))]);
    }
    assert query.preds == a + b + c;
    if "dateTo" in q && q["dateTo"] != "" {
      query := query.(preds := query.preds + [Lte(CreatedAt, SStr(q["dateTo"]))]);
    }
    assert query.preds == a + b + c + d;
    query := query.(preds := query.preds + [OrderDesc(CreatedAt)]);
    assert QuoteFilters(q) == a + b + c + d + [OrderDesc(CreatedAt)];
  }

  // ---------------------------------------------------------------------
  // Contact messages

  /** The chain the contact-message listing builds: status, lower and upper
      creation-date bound, ordering. */
  function ContactFilters(q: Query): (preds: seq<Predicate>)
    ensures EndsWithNewestFirst(preds)
    ensures FiltersOn(preds, {"status", CreatedAt})
    ensures preds[..|preds| - 1] ==
              When(Truthy(q, "status"), Eq("status", SStr(Param(q, "status"))))
              + When(Truthy(q, "dateFrom"), Gte(CreatedAt, SStr(Param(q, "dateFrom"))))
              + When(Truthy(q, "dateTo"), Lte(CreatedAt, SStr(Param(q, "dateTo"))))
  {
    var columns := {"status", CreatedAt};
    var a := When(Truthy(q, "status"), Eq("status", SStr(Param(q, "status"))));
    var c := When(Truthy(q, "dateFrom"), Gte(CreatedAt, SStr(Param(q, "dateFrom"))));
    var d := When(Truthy(q, "dateTo"), Lte(CreatedAt, SStr(Param(q, "dateTo"))));
    WhenOn(Truthy(q, "status"), Eq("status", SStr(Param(q, "status"))), columns);
    WhenOn(Truthy(q, "dateFrom"), Gte(CreatedAt, SStr(Param(q, "dateFrom"))), columns);
    WhenOn(Truthy(q, "dateTo"), Lte(CreatedAt, SStr(Param(q, "dateTo"))), columns);
    AppendOn(a, c, columns);
    AppendOn(a + c, d, columns);
    CloseChain(a + c + d, columns);
    a + c + d + [OrderDesc(CreatedAt)]
  }

  method GetAllMessages(q: Query) returns (query: StoreQuery)
    ensures query == StoreQuery("contact_messages", "*", ContactFilters(q))
  {
    ghost var a := When(Truthy(q, "status"), Eq("status", SStr(Param(q, "status"))));
    ghost var c := When(Truthy(q, "dateFrom"), Gte(CreatedAt, SStr(Param(q, "dateFrom"))));
    ghost var d := When(Truthy(q, "dateTo"), Lte(CreatedAt, SStr(Param(q, "dateTo"))));
    query := StoreQuery("contact_messages", "*", []);
    if "status" in q && q["status"] != "" {
      query := query.(preds := query.preds + [Eq("status", SStr(q["status"]))]);
    }
    assert query.preds == a;
    if "dateFrom" in q && q["dateFrom"] != "" {
      query := query.(preds := query.preds + [Gte(CreatedAt, SStr(q["dateFrom"]))]);
    }
    assert query.preds == a + c;
    if "dateTo" in q && q["dateTo"] != "" {
      query := query.(preds := query.preds + [Lte(CreatedAt, SStr(q["dateTo"]))]);
    }
    assert query.preds == a + c + d;
    query := query.(preds := query.preds + [OrderDesc(CreatedAt)]);
    assert ContactFilters(q) == a + c + d + [OrderDesc(CreatedAt)];
  }

  // ---------------------------------------------------------------------
  // Unknown parameters

  const TestimonialParams: set<string> := {"status", "rating", "featured"}
  const QuoteParams: set<string> := {"status", "serviceId", "dateFrom", "dateTo"}
  const ContactParams: set<string> := {"status", "dateFrom", "dateTo"}

  /** Adding, changing or removing a parameter the listing does not know
      leaves its query unchanged. */
  lemma UnknownTestimonialParam(q: Query, k: string, v: string)
    requires k !in TestimonialParams
    ensures TestimonialFilters(q[k := v]) == TestimonialFilters(q) == TestimonialFilters(q - {k})
  {
    assert forall p :: p in TestimonialParams ==> Param(q[k := v], p) == Param(q, p) == Param(q - {k}, p);
    assert ("featured" in q[k := v]) == ("featured" in q) == ("featured" in q - {k});
  }

  lemma UnknownQuoteParam(q: Query, k: string, v: string)
    requires k !in QuoteParams
    ensures QuoteFilters(q[k := v]) == QuoteFilters(q) == QuoteFilters(q - {k})
  {
    assert forall p :: p in QuoteParams ==> Param(q[k := v], p) == Param(q, p) == Param(q - {k}, p);
  }

  lemma UnknownContactParam(q: Query, k: string, v: string)
    requires k !in ContactParams
    ensures ContactFilters(q[k := v]) == ContactFilters(q) == ContactFilters(q - {k})
  {
    assert forall p :: p in ContactParams ==> Param(q[k := v], p) == Param(q, p) == Param(q - {k}, p);
  }

  // ---------------------------------------------------------------------
  // What a chain selects

  /** A stored row: column name to value; a missing column is null. */
  type Row = map<string, Scalar>

  /** Whether `row` passes one link of the chain, given the store's ordering
      `le` on values. A null column fails every comparison; an ordering
      filters nothing. */
  predicate Holds(row: Row, p: Predicate, le: (Scalar, Scalar) -> bool) {
    match p
    case Eq(c, v) => c in row && row[c] == v
    case Gte(c, v) => c in row && le(v, row[c])
    case Lte(c, v) => c in row && le(row[c], v)
    case OrderDesc(_) => true
  }

  predicate Selects(preds: seq<Predicate>, row: Row, le: (Scalar, Scalar) -> bool) {
    forall i :: 0 <= i < |preds| ==> Holds(row, preds[i], le)
  }

  lemma SelectsAppend(a: seq<Predicate>, b: seq<Predicate>, row: Row, le: (Scalar, Scalar) -> bool)
    ensures Selects(a + b, row, le) <==> Selects(a, row, le) && Selects(b, row, le)
  {
    if Selects(a, row, le) && Selects(b, row, le) {
      forall i | 0 <= i < |a + b|
        ensures Holds(row, (a + b)[i], le)
      {
        if i >= |a| {
          assert (a + b)[i] == b[i - |a|];
        }
      }
    }
    if Selects(a + b, row, le) {
      forall i | 0 <= i < |a|
        ensures Holds(row, a[i], le)
      {
        assert (a + b)[i] == a[i];
      }
      forall i | 0 <= i < |b|
        ensures Holds(row, b[i], le)
      {
        assert (a + b)[|a| + i] == b[i];
      }
    }
  }

  lemma SelectsWhen(c: bool, p: Predicate, row: Row, le: (Scalar, Scalar) -> bool)
    ensures Selects(When(c, p), row, le) <==> (c ==> Holds(row, p, le))
  {
    if c {
      assert When(c, p)[0] == p;
    }
  }

  /** The quote listing selects exactly the quotes with the requested status
      and service whose creation time lies within the requested bounds,
      both inclusive; an absent or empty parameter does not restrict. */
  lemma QuoteSelection(q: Query, row: Row, le: (Scalar, Scalar) -> bool)
    ensures Selects(QuoteFilters(q), row, le) <==>
              && (Truthy(q, "status") ==> "status" in row && row["status"] == SStr(q["status"]))
              && (Truthy(q, "serviceId") ==> "service_id" in row && row["service_id"] == SStr(q["serviceId"]))
              && (Truthy(q, "dateFrom") ==> CreatedAt in row && le(SStr(q["dateFrom"]), row[CreatedAt]))
              && (Truthy(q, "dateTo") ==> CreatedAt in row && le(row[CreatedAt], SStr(q["dateTo"])))
  {
    var a := When(Truthy(q, "status"), Eq("status", SStr(Param(q, "status"))));
    var b := When(Truthy(q, "serviceId"), Eq("service_id", SStr(Param(q, "serviceId"))));
    var c := When(Truthy(q, "dateFrom"), Gte(CreatedAt, SStr(Param(q, "dateFrom"))));
    var d := When(Truthy(q, "dateTo"), Lte(CreatedAt, SStr(Param(q, "dateTo"))));
    var preds := QuoteFilters(q);
    assert preds == a + b + c + d + [OrderDesc(CreatedAt)];
    SelectsAppend(a + b + c + d, [OrderDesc(CreatedAt)], row, le);
    SelectsAppend(a + b + c, d, row, le);
    SelectsAppend(a + b, c, row, le);
    SelectsAppend(a, b, row, le);
    SelectsWhen(Truthy(q, "status"), Eq("status", SStr(Param(q, "status"))), row, le);
    SelectsWhen(Truthy(q, "serviceId"), Eq("service_id", SStr(Param(q, "serviceId"))), row, le);
    SelectsWhen(Truthy(q, "dateFrom"), Gte(CreatedAt, SStr(Param(q, "dateFrom"))), row, le);
    SelectsWhen(Truthy(q, "dateTo"), Lte(CreatedAt, SStr(Param(q, "dateTo"))), row, le);
    assert Selects([OrderDesc(CreatedAt)], row, le);
  }

  /** The two date bounds are applied independently: when the lower bound
      lies after the upper one in the store's ordering of timestamps, no
      quote is selected. */
  lemma InvertedQuoteBounds(q: Query, row: Row, le: (Scalar, Scalar) -> bool)
    requires forall x, y, z :: le(x, y) && le(y, z) ==> le(x, z)
    requires forall x, y :: le(x, y) && le(y, x) ==> x == y
    requires Truthy(q, "dateFrom") && Truthy(q, "dateTo") && q["dateFrom"] != q["dateTo"]
    requires le(SStr(q["dateTo"]), SStr(q["dateFrom"]))
    ensures !Selects(QuoteFilters(q), row, le)
  {
    QuoteSelection(q, row, le);
  }

  /** The contact-message listing selects exactly the messages with the
      requested status created within the requested bounds. */
  lemma ContactSelection(q: Query, row: Row, le: (Scalar, Scalar) -> bool)
    ensures Selects(ContactFilters(q), row, le) <==>
              && (Truthy(q, "status") ==> "status" in row && row["status"] == SStr(q["status"]))
              && (Truthy(q, "dateFrom") ==> CreatedAt in row && le(SStr(q["dateFrom"]), row[CreatedAt]))
              && (Truthy(q, "dateTo") ==> CreatedAt in row && le(row[CreatedAt], SStr(q["dateTo"])))
  {
    var a := When(Truthy(q, "status"), Eq("status", SStr(Param(q, "status"))));
    var c := When(Truthy(q, "dateFrom"), Gte(CreatedAt, SStr(Param(q, "dateFrom"))));
    var d := When(Truthy(q, "dateTo"), Lte(CreatedAt, SStr(Param(q, "dateTo"))));
    var preds := ContactFilters(q);
    assert preds == a + c + d + [OrderDesc(CreatedAt)];
    SelectsAppend(a + c + d, [OrderDesc(CreatedAt)], row, le);
    SelectsAppend(a + c, d, row, le);
    SelectsAppend(a, c, row, le);
    SelectsWhen(Truthy(q, "status"), Eq("status", SStr(Param(q, "status"))), row, le);
    SelectsWhen(Truthy(q, "dateFrom"), Gte(CreatedAt, SStr(Param(q, "dateFrom"))), row, le);
    SelectsWhen(Truthy(q, "dateTo"), Lte(CreatedAt, SStr(Param(q, "dateTo"))), row, le);
    assert Selects([OrderDesc(CreatedAt)], row, le);
  }

  /** The testimonial listing selects exactly the testimonials with the
      requested status and rating and, when `featured` is given, the
      requested featured flag. */
  lemma TestimonialSelection(q: Query, row: Row, le: (Scalar, Scalar) -> bool)
    ensures Selects(TestimonialFilters(q), row, le) <==>
              && (Truthy(q, "status") ==> "status" in row && row["status"] == SStr(q["status"]))
              && (Truthy(q, "rating") ==> "rating" in row && row["rating"] == IntScalar(q["rating"]))
              && ("featured" in q ==> "is_featured" in row && row["is_featured"] == SBool(q["featured"] == "true"))
  {
    var a := When(Truthy(q, "status"), Eq("status", SStr(Param(q, "status"))));
    var b := When(Truthy(q, "rating"), Eq("rating", IntScalar(Param(q, "rating"))));
    var c := When("featured" in q, Eq("is_featured", SBool(Param(q, "featured") == "true")));
    var preds := TestimonialFilters(q);
    assert preds == a + b + c + [OrderDesc(CreatedAt)];
    SelectsAppend(a + b + c, [OrderDesc(CreatedAt)], row, le);
    SelectsAppend(a + b, c, row, le);
    SelectsAppend(a, b, row, le);
    SelectsWhen(Truthy(q, "status"), Eq("status", SStr(Param(q, "status"))), row, le);
    SelectsWhen(Truthy(q, "rating"), Eq("rating", IntScalar(Param(q, "rating"))), row, le);
    SelectsWhen("featured" in q, Eq("is_featured", SBool(Param(q, "featured") == "true")), row, le);
    assert Selects([OrderDesc(CreatedAt)], row, le);
  }

  // ---------------------------------------------------------------------
  // Products

  /** `Put(fs, k, v)` when `c` holds, otherwise `fs` unchanged. */
  function PutIf(c: bool, fs: seq<Field>, k: string, v: Json): seq<Field> {
    if c then Put(fs, k, v) else fs
  }

  /** The product listing's `filters` object. `category` and `inStock` set
      their own keys; `minPrice` sets `price` to a lower bound, and a
      `maxPrice` then overwrites it with an upper bound. */
  function ProductFilters(q: Query): seq<Field> {
    var f1 := PutIf(Truthy(q, "category"), [], "category", JStr(Param(q, "category")));
    var f2 := PutIf("inStock" in q, f1, "in_stock", JBool(Param(q, "inStock") == "true"));
    var f3 := PutIf(Truthy(q, "minPrice"), f2, "price", JStr("gte." + Param(q, "minPrice")));
    PutIf(Truthy(q, "maxPrice"), f3, "price", JStr("lte." + Param(q, "maxPrice")))
  }

  /** The filter object, built one assignment at a time. */
  method BuildProductFilters(q: Query) returns (filters: seq<Field>)
    ensures filters == ProductFilters(q)
  {
    filters := [];
    if "category" in q && q["category"] != "" {
      filters := Put(filters, "category", JStr(q["category"]));
    }
    if "inStock" in q {
      filters := Put(filters, "in_stock", JBool(q["inStock"] == "true"));
    }
    if "minPrice" in q && q["minPrice"] != "" {
      filters := Put(filters, "price", JStr("gte." + q["minPrice"]));
    }
    if "maxPrice" in q && q["maxPrice"] != "" {
      filters := Put(filters, "price", JStr("lte." + q["maxPrice"]));
    }
  }

  /** `category` and `inStock` become their own keys: an empty category
      is ignored, while `inStock` counts whenever present and is true only
      for the exact text "true". */
  lemma {:induction false} ProductCategoryAndStock(q: Query)
    ensures Lookup(ProductFilters(q), "category") ==
              if Truthy(q, "category") then Some(JStr(q["category"])) else None
    ensures Lookup(ProductFilters(q), "in_stock") ==
              if "inStock" in q then Some(JBool(q["inStock"] == "true")) else None
  {
    ProductLookup(q, "category");
    ProductLookup(q, "in_stock");
  }

  /** With both price bounds only the upper one survives. */
  lemma {:induction false} ProductPrice(q: Query)
    ensures Lookup(ProductFilters(q), "price") ==
              if Truthy(q, "maxPrice") then Some(JStr("lte." + q["maxPrice"]))
              else if Truthy(q, "minPrice") then Some(JStr("gte." + q["minPrice"]))
              else None
  {
    ProductLookup(q, "price");
  }

  /** Following one key through the four conditional assignments. */
  lemma {:induction false} ProductLookup(q: Query, k: string)
    ensures Lookup(ProductFilters(q), k) ==
              if k == "price" && Truthy(q, "maxPrice") then Some(JStr("lte." + Param(q, "maxPrice")))
              else if k == "price" && Truthy(q, "minPrice") then Some(JStr("gte." + Param(q, "minPrice")))
              else if k == "in_stock" && "inStock" in q then Some(JBool(Param(q, "inStock") == "true"))
              else if k == "category" && Truthy(q, "category") then Some(JStr(Param(q, "category")))
              else None
  {
    var f1 := PutIf(Truthy(q, "category"), [], "category", JStr(Param(q, "category")));
    var f2 := PutIf("inStock" in q, f1, "in_stock", JBool(Param(q, "inStock") == "true"));
    var f3 := PutIf(Truthy(q, "minPrice"), f2, "price", JStr("gte." + Param(q, "minPrice")));
    PutIfLookup(Truthy(q, "category"), [], "category", JStr(Param(q, "category")), k);
    PutIfLookup("inStock" in q, f1, "in_stock", JBool(Param(q, "inStock") == "true"), k);
    PutIfLookup(Truthy(q, "minPrice"), f2, "price", JStr("gte." + Param(q, "minPrice")), k);
    PutIfLookup(Truthy(q, "maxPrice"), f3, "price", JStr("lte." + Param(q, "maxPrice")), k);
  }

  lemma PutIfLookup(c: bool, fs: seq<Field>, k: string, v: Json, k': string)
    ensures Lookup(PutIf(c, fs, k, v), k') == if c && k' == k then Some(v) else Lookup(fs, k')
  {
  }

  /** The keys of the serialised object, in insertion order; `price`
      appears once even when both bounds are given. */
  lemma {:induction false} ProductFilterKeys(q: Query)
    ensures KeyList(ProductFilters(q)) ==
              (if Truthy(q, "category") then ["category"] else [])
              + (if "inStock" in q then ["in_stock"] else [])
              + (if Truthy(q, "minPrice") || Truthy(q, "maxPrice") then ["price"] else [])
  {
    var f1 := PutIf(Truthy(q, "category"), [], "category", JStr(Param(q, "category")));
    var f2 := PutIf("inStock" in q, f1, "in_stock", JBool(Param(q, "inStock") == "true"));
    var f3 := PutIf(Truthy(q, "minPrice"), f2, "price", JStr("gte." + Param(q, "minPrice")));
    var k1 := if Truthy(q, "category") then ["category"] else [];
    var k2 := k1 + (if "inStock" in q then ["in_stock"] else []);
    var k3 := k2 + (if Truthy(q, "minPrice") then ["price"] else []);
    PutIfKeys(Truthy(q, "category"), [], "category", JStr(Param(q, "category")));
    assert KeyList(f1) == k1;
    PutIfKeys("inStock" in q, f1, "in_stock", JBool(Param(q, "inStock") == "true"));
    assert KeyList(f2) == k2;
    PutIfKeys(Truthy(q, "minPrice"), f2, "price", JStr("gte." + Param(q, "minPrice")));
    assert "price" !in k2;
    assert KeyList(f3) == k3;
    PutIfKeys(Truthy(q, "maxPrice"), f3, "price", JStr("lte." + Param(q, "maxPrice")));
  }

  lemma PutIfKeys(c: bool, fs: seq<Field>, k: string, v: Json)
    ensures KeyList(PutIf(c, fs, k, v)) ==
              if c && k !in KeyList(fs) then KeyList(fs) + [k] else KeyList(fs)
  {
    if c {
      PutKeyList(fs, k, v);
    }
  }

  /** The filter object has no repeated key and only strings and booleans
      as values. */
  lemma {:induction false} ProductFiltersShape(q: Query)
    ensures FilterShape(ProductFilters(q))
  {
    var f1 := PutIf(Truthy(q, "category"), [], "category", JStr(Param(q, "category")));
    var f2 := PutIf("inStock" in q, f1, "in_stock", JBool(Param(q, "inStock") == "true"));
    var f3 := PutIf(Truthy(q, "minPrice"), f2, "price", JStr("gte." + Param(q, "minPrice")));
    PutIfShape(Truthy(q, "category"), [], "category", JStr(Param(q, "category")));
    PutIfShape("inStock" in q, f1, "in_stock", JBool(Param(q, "inStock") == "true"));
    PutIfShape(Truthy(q, "minPrice"), f2, "price", JStr("gte." + Param(q, "minPrice")));
    PutIfShape(Truthy(q, "maxPrice"), f3, "price", JStr("lte." + Param(q, "maxPrice")));
  }

  /** No repeated key, and every value a string or a boolean. */
  predicate FilterShape(fs: seq<Field>) {
    UniqueKeys(fs) && StringsAndBools(fs)
  }

  predicate StringsAndBools(fs: seq<Field>) {
    forall i :: 0 <= i < |fs| ==> fs[i].value.JStr? || fs[i].value.JBool?
  }

  /** Strings and booleans are scalars. */
  lemma FilterShapeFlat(fs: seq<Field>)
    requires FilterShape(fs)
    ensures FlatFields(fs)
  {
  }

  /** A string or boolean, assigned to an object of strings and booleans
      without repeated keys, keeps it so. */
  lemma PutIfShape(c: bool, fs: seq<Field>, k: string, v: Json)
    requires v.JStr? || v.JBool?
    requires FilterShape(fs)
    ensures FilterShape(PutIf(c, fs, k, v))
  {
    if c {
      PutUnique(fs, k, v);
      PutStringsAndBools(fs, k, v);
    }
  }

  lemma {:induction false} PutStringsAndBools(fs: seq<Field>, k: string, v: Json)
    requires StringsAndBools(fs) && (v.JStr? || v.JBool?)
    ensures StringsAndBools(Put(fs, k, v))
  {
    if fs != [] && fs[0].key != k {
      var r := Put(fs, k, v);
      assert StringsAndBools(fs[1..]) by {
        forall i | 0 <= i < |fs[1..]|
          ensures fs[1..][i].value.JStr? || fs[1..][i].value.JBool?
        {
          assert fs[1..][i] == fs[i + 1];
        }
      }
      PutStringsAndBools(fs[1..], k, v);
      assert r == [fs[0]] + Put(fs[1..], k, v);
    }
  }

  /** The product listing's rewrite of `req.query` before it calls the
      generic list handler: every original parameter is kept, and `filters`
      is added, or replaced, with the serialised filter object. */
  method GetAllProducts(q: Query) returns (rewritten: Query)
    ensures rewritten.Keys == q.Keys + {"filters"}
    ensures forall k :: k in q && k != "filters" ==> rewritten[k] == q[k]
    ensures rewritten["filters"] == Stringify(JObj(ProductFilters(q)))
    ensures ParseFlatObject(rewritten["filters"]) == Some(ProductFilters(q))
  {
    ProductFiltersShape(q);
    FilterShapeFlat(ProductFilters(q));
    FlatObjectRoundTrip(ProductFilters(q));
    var filters := BuildProductFilters(q);
    rewritten := q["filters" := Stringify(JObj(filters))];
  }

  /** Without a recognised parameter the serialised filter object is `{}`;
      with one it is never `{}`. */
  lemma NoProductFilters(q: Query)
    ensures ProductFilters(q) == [] <==>
              !Truthy(q, "category") && "inStock" !in q && !Truthy(q, "minPrice") && !Truthy(q, "maxPrice")
    ensures ProductFilters(q) == [] ==> Stringify(JObj(ProductFilters(q))) == "{}"
  {
    ProductFilterKeys(q);
  }
}
