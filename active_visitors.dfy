/**
 * The `get_active_visitors` tool: validate the parameters, post the
 * aggregation query, and turn the reply into the report. The report's
 * text layout is not modelled; each outcome is a constructor.
 */
module ActiveVisitors {
  import opened PyJson
  import opened PendoRequest
  import opened AggregationPipeline
  import opened ActivitySummary

  const AggregationEndpoint := "/api/v1/aggregation"

  datatype ActiveVisitorsReport =
    | Rejected(reason: InvalidParameter)  // the range or group-by message; nothing is sent
    | FetchFailed                         // "Unable to fetch visitor activity data ..."
    | NoActivity(daysBack: int)           // "No visitor activity found in the last N days."
    | Report(daysBack: int, granularity: Granularity, summary: Summary)

  /** `results` when `data` is a dict holding a non-empty list under that key. */
  predicate HasRows(data: Json, rows: seq<Json>) {
    data.Dict? && GetOr(data.items, "results", List([])) == List(rows) && rows != []
  }

  /**
   * What the tool makes of `data`, the value the request helper returned.
   * A failed request (or a falsy reply such as `{}`) and a reply without
   * results are told apart; a reply that is not a dict, results that are
   * not a list, and an ill-typed row make the tool raise.
   */
  function ReplyOutcome(daysBack: int, g: Granularity, data: Option<Json>): (r: Eval<ActiveVisitorsReport>)
    ensures r == Returns(FetchFailed) <==> data.None? || !Truthy(data.value)
    ensures r == Returns(NoActivity(daysBack)) <==>
      data.Some? && data.value.Dict? && Truthy(data.value) && !Truthy(GetOr(data.value.items, "results", List([])))
    ensures r.Returns? ==> !r.value.Rejected? && (r.value.NoActivity? ==> r.value.daysBack == daysBack)
    ensures r.Returns? && r.value.Report? ==>
      && r.value.daysBack == daysBack && r.value.granularity == g
      && exists rows :: HasRows(data.value, rows) && SummaryOf(g, rows) == Returns(r.value.summary)
    ensures r.Raises? <==>
      data.Some? && Truthy(data.value) &&
      (!data.value.Dict? ||
       (var results := GetOr(data.value.items, "results", List([]));
        Truthy(results) && (!results.List? || SummaryOf(g, results.elems).Raises?)))
  {
    if data.None? || !Truthy(data.value) then Returns(FetchFailed)
    else if !data.value.Dict? then Raises
    else
      var results := GetOr(data.value.items, "results", List([]));
      if !Truthy(results) then Returns(NoActivity(daysBack))
      else if !results.List? then Raises
      else match SummaryOf(g, results.elems)
        case Raises => Raises
        case Returns(s) => Returns(Report(daysBack, g, s))
  }

  /**
   * The tool. `call` is the HTTP call it issues, if any; `server` stands
   * for the Pendo API.
   */
  method GetActiveVisitors(daysBack: int, groupBy: string, server: HttpCall -> HttpReply)
    returns (call: Option<HttpCall>, out: Eval<ActiveVisitorsReport>)
    ensures daysBack < MinDaysBack || daysBack > MaxDaysBack ==>
      call.None? && out == Returns(Rejected(DaysBackOutOfRange))
    ensures MinDaysBack <= daysBack <= MaxDaysBack && groupBy != "day" && groupBy != "hour" ==>
      call.None? && out == Returns(Rejected(UnknownGroupBy))
    ensures call.Some? <==> BuildActiveVisitorsQuery(daysBack, groupBy).Ok?
    ensures call.Some? ==>
      && call.value == HttpPost(ApiBase + AggregationEndpoint, Some(EncodeQuery(BuildActiveVisitorsQuery(daysBack, groupBy).value)))
      && out == ReplyOutcome(daysBack, ParseGroupBy(groupBy).value, ResponseData(server(call.value)))
  {
    match BuildActiveVisitorsQuery(daysBack, groupBy)
    case Err(reason) =>
      return None, Returns(Rejected(reason));
    case Ok(query) =>
      var g := ParseGroupBy(groupBy).value;
      var fetch := MakePendoRequest(AggregationEndpoint, "POST", [], Some(EncodeQuery(query)), server);
      call := fetch.call;
      var data := fetch.data;
      if data.None? || !Truthy(data.value) {
        return call, Returns(FetchFailed);
      }
      if !data.value.Dict? {
        return call, Raises;
      }
      var results := GetOr(data.value.items, "results", List([]));
      if !Truthy(results) {
        return call, Returns(NoActivity(daysBack));
      }
      if !results.List? {
        return call, Raises;
      }
      var summary := Summarize(g, results.elems);
      match summary
      case Raises =>
        out := Raises;
      case Returns(s) =>
        out := Returns(Report(daysBack, g, s));
  }
}
