/** The analytics routes' "degrade gracefully" policy: whatever the
    analytics provider does, the client gets a usable answer with status
    200. A provider that is not configured, fails or returns nothing yields
    the route's fallback data in an envelope still marked as a success.
    The one reply without an envelope is a sources answer the provider did
    return: it is sent as the bare chart, with no `success` field. The
    provider's answers are inputs; the load time of the module and the
    current time are parameters. */
module Analytics {
  import opened Wrappers
  import opened Json
  import opened Http

  /** How the provider call of a route went: the provider is not
      configured (nothing is called), a call threw, or the calls returned
      `value`. */
  datatype Upstream<T> = NotConfigured | Threw | Returned(value: T)

  /** The basic metrics as the provider reports them; `None` is a missing
      or NaN number. */
  datatype Metrics = Metrics(activeUsers: Option<int>, sessions: Option<int>,
                             screenPageViews: Option<int>, averageSessionDuration: Option<int>,
                             bounceRate: Option<int>)

  /** The four answers the overview asks for together. */
  datatype OverviewParts = OverviewParts(overview: Option<Metrics>, topPages: Option<seq<Json>>,
                                         trafficSources: Option<seq<Json>>, devices: Option<seq<Json>>)

  /** One traffic source: its `source` value and `Number(percentage)`,
      `None` when that is NaN. */
  datatype Source = Source(source: Json, percentage: Option<int>)

  /** The conversion event's count and rate. */
  datatype EventSummary = EventSummary(count: Option<int>, rate: Option<int>)

  datatype ConversionParts = ConversionParts(metrics: Option<Metrics>, summary: Option<EventSummary>)

  /** What the route sends: an envelope, or for a successful sources call
      the bare chart object. */
  datatype AnalyticsReply = Enveloped(env: Envelope<Json>) | Bare(chart: Json)

  /** JavaScript truthiness of a JSON value. */
  predicate JsTruthy(j: Json) {
    match j
    case JNull => false
    case JBool(b) => b
    case JNum(n) => n != 0
    case JStr(s) => s != ""
    case _ => true
  }

  /** `x || 0` on a number. */
  function NumOr0(x: Option<int>): Json {
    JNum(x.GetOr(0))
  }

  /** `x || []` on a list. */
  function ListOrEmpty(x: Option<seq<Json>>): Json {
    JArr(x.GetOr([]))
  }

  // ---------------------------------------------------------------------
  // Fallbacks

  /** FALLBACK_DATA: every number 0, every list empty, stamped with the
      time the module was loaded. */
  function FallbackData(loadTime: string): (r: Json)
    ensures r.JObj? && |r.fields| == 16 && JsTruthy(r)
    ensures forall i :: 0 <= i < 15 ==> r.fields[i].value == JNum(0) || r.fields[i].value == JArr([])
    ensures r.fields[15] == Field("lastUpdated", JStr(loadTime))
  {
    JObj([Field("pageViews", JNum(0)), Field("sessions", JNum(0)), Field("users", JNum(0)),
          Field("bounceRate", JNum(0)), Field("avgSessionDuration", JNum(0)),
          Field("topPages", JArr([])), Field("trafficSources", JArr([])),
          Field("deviceBreakdown", JArr([])), Field("activeUsers", JNum(0)),
          Field("currentPages", JArr([])), Field("countries", JArr([])),
          Field("totalConversions", JNum(0)), Field("conversionRate", JNum(0)),
          Field("revenue", JNum(0)), Field("goalCompletions", JArr([])),
          Field("lastUpdated", JStr(loadTime))])
  }

  /** The field names of FALLBACK_DATA, in order. */
  const FallbackNames := ["pageViews", "sessions", "users", "bounceRate", "avgSessionDuration",
                          "topPages", "trafficSources", "deviceBreakdown", "activeUsers",
                          "currentPages", "countries", "totalConversions", "conversionRate",
                          "revenue", "goalCompletions", "lastUpdated"]

  /** The metric names the provider reports. */
  const MetricNames := ["activeUsers", "sessions", "screenPageViews", "averageSessionDuration", "bounceRate"]

  const MetricsFallback: Json :=
    JObj([Field("activeUsers", JNum(0)), Field("sessions", JNum(0)), Field("screenPageViews", JNum(0)),
          Field("averageSessionDuration", JNum(0)), Field("bounceRate", JNum(0))])

  const TimeseriesFallback: Json :=
    JObj([Field("labels", JArr([])), Field("users", JArr([])), Field("sessions", JArr([]))])

  const SourcesFallback: Json :=
    JObj([Field("labels", JArr([])), Field("sessions", JArr([]))])

  /** `handleAnalyticsError`: a success carrying the message and the given
      fallback, or FALLBACK_DATA when that is falsy. */
  function HandleAnalyticsError(message: string, fallback: Json, loadTime: string): (e: Envelope<Json>)
    ensures e.Succeeded() && e.Degraded? && e.error == message
    ensures JsTruthy(fallback) ==> e.data == fallback
    ensures !JsTruthy(fallback) ==> e.data == FallbackData(loadTime)
  {
    Degraded(message, if JsTruthy(fallback) then fallback else FallbackData(loadTime))
  }

  /** One reported number under its name, or nothing when it is missing. */
  function Reported(k: string, x: Option<int>): seq<Field> {
    if x.Some? then [Field(k, JNum(x.value))] else []
  }

  /** The metrics object as the provider hands it over; a missing number
      is left out. */
  function MetricsJson(m: Metrics): Json {
    JObj(Reported("activeUsers", m.activeUsers) + Reported("sessions", m.sessions)
         + Reported("screenPageViews", m.screenPageViews)
         + Reported("averageSessionDuration", m.averageSessionDuration)
         + Reported("bounceRate", m.bounceRate))
  }

  // ---------------------------------------------------------------------
  // Routes

  const OverviewNames := ["pageViews", "sessions", "users", "bounceRate", "avgSessionDuration",
                          "topPages", "trafficSources", "deviceBreakdown"]

  function OverviewValues(m: Metrics, p: OverviewParts): (vs: seq<Json>)
    ensures |vs| == |OverviewNames|
  {
    [NumOr0(m.screenPageViews), NumOr0(m.sessions), NumOr0(m.activeUsers), NumOr0(m.bounceRate),
     NumOr0(m.averageSessionDuration), ListOrEmpty(p.topPages), ListOrEmpty(p.trafficSources),
     ListOrEmpty(p.devices)]
  }

  function OverviewData(m: Metrics, p: OverviewParts): Json {
    JObj(Object(OverviewNames, OverviewValues(m, p)))
  }

  /** GET /overview. */
  function Overview(up: Upstream<OverviewParts>, loadTime: string): (r: AnalyticsReply)
    ensures r.Enveloped? && r.env.Succeeded()
    ensures r.env.Ok? <==> up.Returned? && up.value.overview.Some?
    ensures !r.env.Ok? ==> r.env.data == FallbackData(loadTime)
    ensures up.NotConfigured? ==> r.env.error == "GA4 not configured"
    ensures up.Threw? ==> r.env.error == "Failed to fetch analytics overview"
    ensures up.Returned? && !r.env.Ok? ==> r.env.error == "No analytics data available"
    ensures r.env.Ok? ==> r.env.data == OverviewData(up.value.overview.value, up.value)
  {
    match up
    case NotConfigured => Enveloped(HandleAnalyticsError("GA4 not configured", FallbackData(loadTime), loadTime))
    case Threw => Enveloped(HandleAnalyticsError("Failed to fetch analytics overview", FallbackData(loadTime), loadTime))
    case Returned(p) =>
      if p.overview.None? then
        Enveloped(HandleAnalyticsError("No analytics data available", FallbackData(loadTime), loadTime))
      else Enveloped(Ok(OverviewData(p.overview.value, p)))
  }

  /** GET /metrics: the provider's metrics, or the zero metrics on any
      failure. */
  function MetricsRoute(up: Upstream<Option<Metrics>>): (r: AnalyticsReply)
    ensures r.Enveloped? && r.env.Ok? && r.env.data.JObj?
    ensures up.Returned? && up.value.Some? ==>
              forall k :: Lookup(r.env.data.fields, k).Some? ==> k in MetricNames
    ensures up.Returned? && up.value.Some? ==> r.env.data == MetricsJson(up.value.value)
    ensures !(up.Returned? && up.value.Some?) ==> r.env.data == MetricsFallback
  {
    match up
    case Returned(Some(m)) => MetricsNames(m); Enveloped(Ok(MetricsJson(m)))
    case _ => Enveloped(Ok(MetricsFallback))
  }

  /** GET /timeseries: the provider's series when truthy, otherwise the
      empty series. */
  function Timeseries(up: Upstream<Json>): (r: AnalyticsReply)
    ensures r.Enveloped? && r.env.Ok? && JsTruthy(r.env.data)
    ensures up.Returned? && JsTruthy(up.value) ==> r.env.data == up.value
    ensures !(up.Returned? && JsTruthy(up.value)) ==> r.env.data == TimeseriesFallback
  {
    match up
    case Returned(t) => Enveloped(Ok(if JsTruthy(t) then t else TimeseriesFallback))
    case _ => Enveloped(Ok(TimeseriesFallback))
  }

  /** The chart of a sources answer: one label and one number per source,
      a NaN percentage counting as 0; no answer gives empty lists. */
  function SourcesChart(sources: Option<seq<Source>>): Json {
    var ss := sources.GetOr([]);
    JObj([Field("labels", JArr(seq(|ss|, i requires 0 <= i < |ss| => ss[i].source))),
          Field("sessions", JArr(seq(|ss|, i requires 0 <= i < |ss| => NumOr0(ss[i].percentage))))])
  }

  /** GET /sources: a returned answer, even an empty one, is sent as the
      bare chart; failures send the enveloped empty chart. */
  function Sources(up: Upstream<Option<seq<Source>>>): (r: AnalyticsReply)
    ensures r.Bare? <==> up.Returned?
    ensures up.Returned? ==> r.chart == SourcesChart(up.value)
    ensures r.Enveloped? ==> r.env == Ok(SourcesFallback)
    ensures ReplyJson(r).JObj? && (Lookup(ReplyJson(r).fields, "success").Some? <==> !up.Returned?)
  {
    match up
    case Returned(s) => Bare(SourcesChart(s))
    case _ => Enveloped(Ok(SourcesFallback))
  }

  const RealtimeNames := ["activeUsers", "sessions", "pageViews", "currentPages", "countries"]

  function RealtimeData(m: Metrics): Json {
    JObj(Object(RealtimeNames, [NumOr0(m.activeUsers), NumOr0(m.sessions), NumOr0(m.screenPageViews),
                                JArr([]), JArr([])]))
  }

  /** GET /realtime. */
  function Realtime(up: Upstream<Option<Metrics>>, loadTime: string): (r: AnalyticsReply)
    ensures r.Enveloped? && r.env.Succeeded()
    ensures r.env.Ok? <==> up.Returned? && up.value.Some?
    ensures !r.env.Ok? ==> r.env.data == FallbackData(loadTime)
    ensures up.NotConfigured? ==> r.env.error == "GA4 not configured"
    ensures up.Threw? ==> r.env.error == "Failed to fetch realtime data"
    ensures up.Returned? && !r.env.Ok? ==> r.env.error == "No realtime data available"
    ensures r.env.Ok? ==> r.env.data == RealtimeData(up.value.value)
  {
    match up
    case NotConfigured => Enveloped(HandleAnalyticsError("GA4 not configured", FallbackData(loadTime), loadTime))
    case Threw => Enveloped(HandleAnalyticsError("Failed to fetch realtime data", FallbackData(loadTime), loadTime))
    case Returned(None) => Enveloped(HandleAnalyticsError("No realtime data available", FallbackData(loadTime), loadTime))
    case Returned(Some(m)) => Enveloped(Ok(RealtimeData(m)))
  }

  /** The event the conversion count is taken for: GA4_CONVERSION_EVENT
      when set and not empty, otherwise "generate_lead". */
  function ConversionEvent(env: Option<string>): (name: string)
    ensures name != ""
    ensures env.Some? && env.value != "" ==> name == env.value
    ensures env.None? || env.value == "" ==> name == "generate_lead"
  {
    if env.Some? && env.value != "" then env.value else "generate_lead"
  }

  const ConversionNames := ["totalConversions", "conversionRate", "revenue", "goalCompletions", "lastUpdated"]

  function ConversionData(s: Option<EventSummary>, now: string): Json {
    JObj(Object(ConversionNames, [NumOr0(if s.Some? then s.value.count else None),
                                  NumOr0(if s.Some? then s.value.rate else None),
                                  JNum(0), JArr([]), JStr(now)]))
  }

  /** GET /conversions. Both calls are made before the metrics are looked
      at, so a failing event count wins over missing metrics. */
  function Conversions(up: Upstream<ConversionParts>, loadTime: string, now: string): (r: AnalyticsReply)
    ensures r.Enveloped? && r.env.Succeeded()
    ensures r.env.Ok? <==> up.Returned? && up.value.metrics.Some?
    ensures !r.env.Ok? ==> r.env.data == FallbackData(loadTime)
    ensures up.NotConfigured? ==> r.env.error == "GA4 not configured"
    ensures up.Threw? ==> r.env.error == "Failed to fetch conversion data"
    ensures up.Returned? && !r.env.Ok? ==> r.env.error == "No conversion data available"
    ensures r.env.Ok? ==> r.env.data == ConversionData(up.value.summary, now)
  {
    match up
    case NotConfigured => Enveloped(HandleAnalyticsError("GA4 not configured", FallbackData(loadTime), loadTime))
    case Threw => Enveloped(HandleAnalyticsError("Failed to fetch conversion data", FallbackData(loadTime), loadTime))
    case Returned(p) =>
      if p.metrics.None? then
        Enveloped(HandleAnalyticsError("No conversion data available", FallbackData(loadTime), loadTime))
      else Enveloped(Ok(ConversionData(p.summary, now)))
  }

  // ---------------------------------------------------------------------
  // Properties

  /** The body of a reply as sent. */
  function ReplyJson(r: AnalyticsReply): Json {
    match r
    case Enveloped(e) => EnvelopeJson(e)
    case Bare(c) => c
  }

  /** Without a configured provider each route sends its own fallback. */
  lemma NotConfiguredFallbacks(loadTime: string, now: string)
    ensures Overview(NotConfigured, loadTime) == Enveloped(Degraded("GA4 not configured", FallbackData(loadTime)))
    ensures Realtime(NotConfigured, loadTime) == Enveloped(Degraded("GA4 not configured", FallbackData(loadTime)))
    ensures Conversions(NotConfigured, loadTime, now) == Enveloped(Degraded("GA4 not configured", FallbackData(loadTime)))
    ensures MetricsRoute(NotConfigured) == Enveloped(Ok(MetricsFallback))
    ensures Timeseries(NotConfigured) == Enveloped(Ok(TimeseriesFallback))
    ensures Sources(NotConfigured) == Enveloped(Ok(SourcesFallback))
  {
  }

  /** A reported number is found under its own name only. */
  lemma LookupReported(n: string, x: Option<int>, k: string)
    ensures Lookup(Reported(n, x), k) == if k == n && x.Some? then Some(JNum(x.value)) else None
  {
    if x.Some? && k != n {
      assert Reported(n, x)[1..] == [];
    }
  }

  /** Every name of the metrics object holds the number reported under
      it, and no other name is present. */
  lemma MetricsLookup(m: Metrics, k: string)
    ensures Lookup(MetricsJson(m).fields, k) ==
              if k == "activeUsers" && m.activeUsers.Some? then Some(JNum(m.activeUsers.value))
              else if k == "sessions" && m.sessions.Some? then Some(JNum(m.sessions.value))
              else if k == "screenPageViews" && m.screenPageViews.Some? then Some(JNum(m.screenPageViews.value))
              else if k == "averageSessionDuration" && m.averageSessionDuration.Some? then
                Some(JNum(m.averageSessionDuration.value))
              else if k == "bounceRate" && m.bounceRate.Some? then Some(JNum(m.bounceRate.value))
              else None
  {
    var a := Reported("activeUsers", m.activeUsers);
    var b := Reported("sessions", m.sessions);
    var c := Reported("screenPageViews", m.screenPageViews);
    var d := Reported("averageSessionDuration", m.averageSessionDuration);
    var e := Reported("bounceRate", m.bounceRate);
    LookupReported("activeUsers", m.activeUsers, k);
    LookupReported("sessions", m.sessions, k);
    LookupReported("screenPageViews", m.screenPageViews, k);
    LookupReported("averageSessionDuration", m.averageSessionDuration, k);
    LookupReported("bounceRate", m.bounceRate, k);
    LookupAppend(a, b, k);
    LookupAppend(a + b, c, k);
    LookupAppend(a + b + c, d, k);
    LookupAppend(a + b + c + d, e, k);
  }

  /** The metrics object holds only metric names. */
  lemma MetricsNames(m: Metrics)
    ensures forall k :: Lookup(MetricsJson(m).fields, k).Some? ==> k in MetricNames
  {
    forall k | Lookup(MetricsJson(m).fields, k).Some? {
      MetricsLookup(m, k);
    }
  }

  /** The metrics route passes each reported number on under the
      provider's own name and leaves a missing one out. */
  lemma MetricsFields(m: Metrics)
    ensures Lookup(MetricsJson(m).fields, "activeUsers") ==
              if m.activeUsers.Some? then Some(JNum(m.activeUsers.value)) else None
    ensures Lookup(MetricsJson(m).fields, "sessions") ==
              if m.sessions.Some? then Some(JNum(m.sessions.value)) else None
    ensures Lookup(MetricsJson(m).fields, "screenPageViews") ==
              if m.screenPageViews.Some? then Some(JNum(m.screenPageViews.value)) else None
    ensures Lookup(MetricsJson(m).fields, "averageSessionDuration") ==
              if m.averageSessionDuration.Some? then Some(JNum(m.averageSessionDuration.value)) else None
    ensures Lookup(MetricsJson(m).fields, "bounceRate") ==
              if m.bounceRate.Some? then Some(JNum(m.bounceRate.value)) else None
  {
    MetricsLookup(m, "activeUsers");
    MetricsLookup(m, "sessions");
    MetricsLookup(m, "screenPageViews");
    MetricsLookup(m, "averageSessionDuration");
    MetricsLookup(m, "bounceRate");
  }

  /** The overview renames `screenPageViews` to `pageViews` and
      `activeUsers` to `users`, and reads a missing number as 0. */
  lemma OverviewNumbers(m: Metrics, p: OverviewParts)
    ensures Lookup(OverviewData(m, p).fields, "pageViews") == Some(JNum(m.screenPageViews.GetOr(0)))
    ensures Lookup(OverviewData(m, p).fields, "sessions") == Some(JNum(m.sessions.GetOr(0)))
    ensures Lookup(OverviewData(m, p).fields, "users") == Some(JNum(m.activeUsers.GetOr(0)))
    ensures Lookup(OverviewData(m, p).fields, "bounceRate") == Some(JNum(m.bounceRate.GetOr(0)))
    ensures Lookup(OverviewData(m, p).fields, "avgSessionDuration") == Some(JNum(m.averageSessionDuration.GetOr(0)))
  {
    var vs := OverviewValues(m, p);
    assert Distinct(OverviewNames);
    ObjectLookup(OverviewNames, vs, 0);
    ObjectLookup(OverviewNames, vs, 1);
    ObjectLookup(OverviewNames, vs, 2);
    ObjectLookup(OverviewNames, vs, 3);
    ObjectLookup(OverviewNames, vs, 4);
  }

  /** The provider's own names do not appear in the overview. */
  lemma OverviewRenames(m: Metrics, p: OverviewParts)
    ensures "screenPageViews" !in KeyList(OverviewData(m, p).fields)
    ensures "activeUsers" !in KeyList(OverviewData(m, p).fields)
  {
  }

  /** The overview reads a missing list as empty. */
  lemma OverviewLists(m: Metrics, p: OverviewParts)
    ensures Lookup(OverviewData(m, p).fields, "topPages") == Some(JArr(p.topPages.GetOr([])))
    ensures Lookup(OverviewData(m, p).fields, "trafficSources") == Some(JArr(p.trafficSources.GetOr([])))
    ensures Lookup(OverviewData(m, p).fields, "deviceBreakdown") == Some(JArr(p.devices.GetOr([])))
  {
    var vs := OverviewValues(m, p);
    assert Distinct(OverviewNames);
    ObjectLookup(OverviewNames, vs, 5);
    ObjectLookup(OverviewNames, vs, 6);
    ObjectLookup(OverviewNames, vs, 7);
  }

  /** The sources chart has one label and one number per source, and a
      NaN percentage is drawn as 0. */
  lemma SourcesChartShape(sources: Option<seq<Source>>)
    ensures var c := SourcesChart(sources);
            && c.JObj? && |c.fields| == 2
            && c.fields[0].key == "labels" && c.fields[1].key == "sessions"
            && c.fields[0].value.JArr? && c.fields[1].value.JArr?
            && |c.fields[0].value.items| == |c.fields[1].value.items| == |sources.GetOr([])|
            && forall i :: 0 <= i < |sources.GetOr([])| ==>
                 && c.fields[0].value.items[i] == sources.GetOr([])[i].source
                 && c.fields[1].value.items[i] == JNum(sources.GetOr([])[i].percentage.GetOr(0))
  {
  }

  /** Realtime never reports pages or countries. */
  lemma RealtimeLists(m: Metrics)
    ensures Lookup(RealtimeData(m).fields, "currentPages") == Some(JArr([]))
    ensures Lookup(RealtimeData(m).fields, "countries") == Some(JArr([]))
    ensures Lookup(RealtimeData(m).fields, "pageViews") == Some(JNum(m.screenPageViews.GetOr(0)))
  {
    var vs := [NumOr0(m.activeUsers), NumOr0(m.sessions), NumOr0(m.screenPageViews), JArr([]), JArr([])];
    assert Distinct(RealtimeNames);
    ObjectLookup(RealtimeNames, vs, 2);
    ObjectLookup(RealtimeNames, vs, 3);
    ObjectLookup(RealtimeNames, vs, 4);
  }

  /** Conversions never report revenue or goal completions, and are
      stamped with the time of the request. */
  lemma ConversionConstants(s: Option<EventSummary>, now: string)
    ensures Lookup(ConversionData(s, now).fields, "revenue") == Some(JNum(0))
    ensures Lookup(ConversionData(s, now).fields, "goalCompletions") == Some(JArr([]))
    ensures Lookup(ConversionData(s, now).fields, "lastUpdated") == Some(JStr(now))
    ensures s.None? ==> Lookup(ConversionData(s, now).fields, "totalConversions") == Some(JNum(0))
    ensures s.None? ==> Lookup(ConversionData(s, now).fields, "conversionRate") == Some(JNum(0))
    ensures s.Some? ==> Lookup(ConversionData(s, now).fields, "totalConversions") == Some(JNum(s.value.count.GetOr(0)))
    ensures s.Some? ==> Lookup(ConversionData(s, now).fields, "conversionRate") == Some(JNum(s.value.rate.GetOr(0)))
  {
    var vs := [NumOr0(if s.Some? then s.value.count else None),
               NumOr0(if s.Some? then s.value.rate else None),
               JNum(0), JArr([]), JStr(now)];
    assert Distinct(ConversionNames);
    ObjectLookup(ConversionNames, vs, 0);
    ObjectLookup(ConversionNames, vs, 1);
    ObjectLookup(ConversionNames, vs, 2);
    ObjectLookup(ConversionNames, vs, 3);
    ObjectLookup(ConversionNames, vs, 4);
  }
}
