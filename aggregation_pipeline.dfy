/**
 * The aggregation query `get_active_visitors` sends to Pendo: a typed
 * model of the pipeline stages it uses, the builder that validates
 * `days_back` and `group_by` and fills in the fixed three-stage template,
 * and the JSON body the request carries, with a decoder that reads a body
 * back into the typed query.
 */
module AggregationPipeline {
  import opened PyJson

  /** The `group_by` values the tool accepts. */
  datatype Granularity = Day | Hour

  /** The `period` of a time series. */
  datatype Period = DayRange | HourRange

  /** A backward-looking window: `count` periods ending at `first`. */
  datatype TimeSeries = TimeSeries(period: Period, first: string, count: int)

  /** A named output field of a `group` stage. */
  datatype Aggregate = CountOf(field: string) | SumOf(field: string)

  datatype Stage =
    | Source(entity: string, window: TimeSeries)
    | Group(keys: seq<string>, fields: seq<(string, Aggregate)>)
    | Sort(keys: seq<string>)

  /** The whole request: the response MIME type, a query name and the stages. */
  datatype Query = Query(mimeType: string, name: string, pipeline: seq<Stage>)

  datatype InvalidParameter = DaysBackOutOfRange | UnknownGroupBy

  const MinDaysBack := 1
  const MaxDaysBack := 90
  /** The tool's default arguments: the last seven days, one period per day. */
  const DefaultDaysBack := 7
  const DefaultGroupBy := "day"
  const QueryName := "Active Visitors Query"
  const JsonMimeType := "application/json"

  /** The name of the row field that holds a period's timestamp. */
  function FieldName(g: Granularity): string {
    match g
    case Day => "day"
    case Hour => "hour"
  }

  function PeriodOf(g: Granularity): (p: Period)
    ensures p == DayRange <==> g == Day
  {
    match g
    case Day => DayRange
    case Hour => HourRange
  }

  /** The membership test `group_by in ['day', 'hour']`, keeping which one. */
  function ParseGroupBy(groupBy: string): (r: Option<Granularity>)
    ensures r.Some? <==> groupBy == "day" || groupBy == "hour"
    ensures r.Some? ==> FieldName(r.value) == groupBy
    ensures r == Some(Day) <==> groupBy == "day"
  {
    if groupBy == "day" then Some(Day)
    else if groupBy == "hour" then Some(Hour)
    else None
  }

  /**
   * The structural rules of a pipeline: it starts with the one source,
   * whose window looks backward; every group has a key and an output
   * field; no group comes after a sort.
   */
  predicate WellFormed(p: seq<Stage>) {
    && |p| > 0
    && p[0].Source? && p[0].window.count <= -1
    && (forall i :: 0 < i < |p| ==> !p[i].Source?)
    && (forall i :: 0 <= i < |p| && p[i].Group? ==> |p[i].keys| >= 1 && |p[i].fields| >= 1)
    && (forall i, j :: 0 <= i < j < |p| && p[i].Sort? ==> !p[j].Group?)
  }

  /**
   * The look-back and granularity that a pipeline of the active-visitors
   * shape asks for, read back from its stages; `None` for any other shape
   * or when the group and sort keys do not both name the period field.
   */
  function Parameters(p: seq<Stage>): Option<(int, Granularity)> {
    if |p| == 3 && p[0].Source? && p[1].Group? && p[2].Sort? then
      var g := if p[0].window.period == DayRange then Day else Hour;
      if p[1].keys == [FieldName(g)] && p[2].keys == [FieldName(g)]
      then Some((-p[0].window.count, g))
      else None
    else None
  }

  /**
   * The validation and query construction of `get_active_visitors`.
   * `days_back` is checked first, so a call with both parameters wrong is
   * reported as out of range.
   */
  function BuildActiveVisitorsQuery(daysBack: int, groupBy: string): (r: Result<Query, InvalidParameter>)
    ensures r == Err(DaysBackOutOfRange) <==> daysBack < MinDaysBack || daysBack > MaxDaysBack
    ensures r == Err(UnknownGroupBy) <==>
      MinDaysBack <= daysBack <= MaxDaysBack && groupBy != "day" && groupBy != "hour"
    ensures r.Ok? ==>
      var g := ParseGroupBy(groupBy).value;
      && r.value.mimeType == JsonMimeType && r.value.name == QueryName
      && WellFormed(r.value.pipeline)
      && Parameters(r.value.pipeline) == Some((daysBack, g))
    ensures r.Ok? ==>
      var p := r.value.pipeline;
      && |p| == 3 && p[0].Source? && p[1].Group? && p[2].Sort?
      && p[0].entity == "events" && p[0].window.first == "now()"
      && p[0].window.count == -daysBack
      && (p[0].window.period == DayRange <==> groupBy == "day")
      && p[1].keys == p[2].keys == [groupBy]
      && p[1].fields == [("uniqueVisitors", CountOf("visitorId")), ("totalEvents", SumOf("numEvents"))]
  {
    if daysBack < MinDaysBack || daysBack > MaxDaysBack then Err(DaysBackOutOfRange)
    else match ParseGroupBy(groupBy)
      case None => Err(UnknownGroupBy)
      case Some(g) =>
        var field := FieldName(g);
        Ok(Query(JsonMimeType, QueryName, [
          Source("events", TimeSeries(PeriodOf(g), "now()", -daysBack)),
          Group([field], [("uniqueVisitors", CountOf("visitorId")), ("totalEvents", SumOf("numEvents"))]),
          Sort([field])
        ]))
  }

  /** A call with the default arguments is accepted and asks for seven daily periods. */
  lemma DefaultsAreAccepted()
    ensures BuildActiveVisitorsQuery(DefaultDaysBack, DefaultGroupBy).Ok?
    ensures Parameters(BuildActiveVisitorsQuery(DefaultDaysBack, DefaultGroupBy).value.pipeline) == Some((7, Day))
  {
  }

  /** Different valid parameters never produce the same query. */
  lemma BuildIsInjective(d1: int, g1: string, d2: int, g2: string)
    requires BuildActiveVisitorsQuery(d1, g1).Ok? && BuildActiveVisitorsQuery(d1, g1) == BuildActiveVisitorsQuery(d2, g2)
    ensures d1 == d2 && g1 == g2
  {
  }

  // ---------------------------------------------------------------------
  // The JSON body on the wire

  function PeriodName(p: Period): string {
    match p
    case DayRange => "dayRange"
    case HourRange => "hourRange"
  }

  function EncodeWindow(w: TimeSeries): Json {
    Dict([("period", Str(PeriodName(w.period))), ("first", Str(w.first)), ("count", Int(w.count))])
  }

  function EncodeAggregate(a: Aggregate): Json {
    match a
    case CountOf(f) => Dict([("count", Str(f))])
    case SumOf(f) => Dict([("sum", Str(f))])
  }

  function EncodeKeys(ks: seq<string>): seq<Json> {
    if ks == [] then [] else [Str(ks[0])] + EncodeKeys(ks[1..])
  }

  function EncodeFields(fs: seq<(string, Aggregate)>): seq<(string, Json)> {
    if fs == [] then [] else [(fs[0].0, EncodeAggregate(fs[0].1))] + EncodeFields(fs[1..])
  }

  /** One stage as a one-key object, keyed by the stage kind. */
  function EncodeStage(s: Stage): Json {
    match s
    case Source(entity, w) =>
      Dict([("source", Dict([(entity, Null), ("timeSeries", EncodeWindow(w))]))])
    case Group(keys, fields) =>
      Dict([("group", Dict([("group", List(EncodeKeys(keys))), ("fields", Dict(EncodeFields(fields)))]))])
    case Sort(keys) =>
      Dict([("sort", List(EncodeKeys(keys)))])
  }

  function EncodeStages(ss: seq<Stage>): seq<Json> {
    if ss == [] then [] else [EncodeStage(ss[0])] + EncodeStages(ss[1..])
  }

  /** The request body posted to the aggregation endpoint. */
  function EncodeQuery(q: Query): Json {
    Dict([
      ("response", Dict([("mimeType", Str(q.mimeType))])),
      ("request", Dict([("name", Str(q.name)), ("pipeline", List(EncodeStages(q.pipeline)))]))
    ])
  }

  function DecodePeriod(s: string): Option<Period> {
    if s == "dayRange" then Some(DayRange)
    else if s == "hourRange" then Some(HourRange)
    else None
  }

  function DecodeWindow(j: Json): Option<TimeSeries> {
    if j.Dict? && |j.items| == 3
       && j.items[0].0 == "period" && j.items[0].1.Str?
       && j.items[1].0 == "first" && j.items[1].1.Str?
       && j.items[2].0 == "count" && j.items[2].1.Int?
    then
      match DecodePeriod(j.items[0].1.s)
      case None => None
      case Some(p) => Some(TimeSeries(p, j.items[1].1.s, j.items[2].1.n))
    else None
  }

  function DecodeAggregate(j: Json): Option<Aggregate> {
    if j.Dict? && |j.items| == 1 && j.items[0].1.Str? then
      if j.items[0].0 == "count" then Some(CountOf(j.items[0].1.s))
      else if j.items[0].0 == "sum" then Some(SumOf(j.items[0].1.s))
      else None
    else None
  }

  function DecodeKeys(js: seq<Json>): Option<seq<string>> {
    if js == [] then Some([])
    else if !js[0].Str? then None
    else match DecodeKeys(js[1..])
      case None => None
      case Some(rest) => Some([js[0].s] + rest)
  }

  function DecodeFields(items: seq<(string, Json)>): Option<seq<(string, Aggregate)>> {
    if items == [] then Some([])
    else match (DecodeAggregate(items[0].1), DecodeFields(items[1..]))
      case (Some(a), Some(rest)) => Some([(items[0].0, a)] + rest)
      case _ => None
  }

  function DecodeGroup(j: Json): Option<Stage> {
    if j.Dict? && |j.items| == 2
       && j.items[0].0 == "group" && j.items[0].1.List?
       && j.items[1].0 == "fields" && j.items[1].1.Dict?
    then
      match (DecodeKeys(j.items[0].1.elems), DecodeFields(j.items[1].1.items))
      case (Some(keys), Some(fields)) => Some(Group(keys, fields))
      case _ => None
    else None
  }

  function DecodeSource(j: Json): Option<Stage> {
    if j.Dict? && |j.items| == 2 && j.items[0].1 == Null && j.items[1].0 == "timeSeries" then
      match DecodeWindow(j.items[1].1)
      case None => None
      case Some(w) => Some(Source(j.items[0].0, w))
    else None
  }

  function DecodeStage(j: Json): Option<Stage> {
    if j.Dict? && |j.items| == 1 then
      var (kind, body) := j.items[0];
      if kind == "source" then DecodeSource(body)
      else if kind == "group" then DecodeGroup(body)
      else if kind == "sort" && body.List? then
        match DecodeKeys(body.elems)
        case None => None
        case Some(keys) => Some(Sort(keys))
      else None
    else None
  }

  function DecodeStages(js: seq<Json>): Option<seq<Stage>> {
    if js == [] then Some([])
    else match (DecodeStage(js[0]), DecodeStages(js[1..]))
      case (Some(s), Some(rest)) => Some([s] + rest)
      case _ => None
  }

  /** Reads a request body back into the query it describes. */
  function DecodeQuery(j: Json): Option<Query> {
    if j.Dict? && |j.items| == 2
       && j.items[0].0 == "response" && j.items[0].1.Dict? && |j.items[0].1.items| == 1
       && j.items[0].1.items[0].0 == "mimeType" && j.items[0].1.items[0].1.Str?
       && j.items[1].0 == "request" && j.items[1].1.Dict? && |j.items[1].1.items| == 2
       && j.items[1].1.items[0].0 == "name" && j.items[1].1.items[0].1.Str?
       && j.items[1].1.items[1].0 == "pipeline" && j.items[1].1.items[1].1.List?
    then
      match DecodeStages(j.items[1].1.items[1].1.elems)
      case None => None
      case Some(stages) => Some(Query(j.items[0].1.items[0].1.s, j.items[1].1.items[0].1.s, stages))
    else None
  }

  lemma {:induction false} KeysRoundTrip(ks: seq<string>)
    ensures DecodeKeys(EncodeKeys(ks)) == Some(ks)
  {
    if ks != [] {
      KeysRoundTrip(ks[1..]);
      assert [ks[0]] + ks[1..] == ks;
    }
  }

  lemma {:induction false} FieldsRoundTrip(fs: seq<(string, Aggregate)>)
    ensures DecodeFields(EncodeFields(fs)) == Some(fs)
  {
    if fs != [] {
      FieldsRoundTrip(fs[1..]);
      assert DecodeAggregate(EncodeAggregate(fs[0].1)) == Some(fs[0].1);
      assert [(fs[0].0, fs[0].1)] + fs[1..] == fs;
    }
  }

  lemma StageRoundTrip(s: Stage)
    ensures DecodeStage(EncodeStage(s)) == Some(s)
  {
    match s
    case Source(entity, w) =>
      assert DecodePeriod(PeriodName(w.period)) == Some(w.period);
    case Group(keys, fields) =>
      KeysRoundTrip(keys);
      FieldsRoundTrip(fields);
    case Sort(keys) =>
      KeysRoundTrip(keys);
  }

  lemma {:induction false} StagesRoundTrip(ss: seq<Stage>)
    ensures DecodeStages(EncodeStages(ss)) == Some(ss)
  {
    if ss != [] {
      StageRoundTrip(ss[0]);
      StagesRoundTrip(ss[1..]);
      assert [ss[0]] + ss[1..] == ss;
    }
  }

  /**
   * Decoding the body the server posts gives back exactly the query built.
   * The body is taken as its list of items: a source entity named
   * "timeSeries" would repeat a key of the source object, which a Python
   * dict could not hold. The built query's entity is "events".
   */
  lemma QueryRoundTrip(q: Query)
    ensures DecodeQuery(EncodeQuery(q)) == Some(q)
  {
    StagesRoundTrip(q.pipeline);
  }

  /** So two different queries never travel as the same body. */
  lemma EncodeIsInjective(q1: Query, q2: Query)
    requires EncodeQuery(q1) == EncodeQuery(q2)
    ensures q1 == q2
  {
    QueryRoundTrip(q1);
    QueryRoundTrip(q2);
  }
}
