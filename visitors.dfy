/**
 * The `get_visitor_details` tool and `format_visitor_info`: fetch one
 * visitor record and pick out its id, its automatic metadata (account,
 * first visit, last browser) and every custom metadata field.
 */
module Visitors {
  import opened PyJson
  import opened PendoRequest

  const VisitorEndpoint := "/api/v1/visitor/"

  /** One line of the "Custom Fields" section. */
  datatype CustomLine = CustomLine(key: string, value: Json)

  /**
   * The fields `format_visitor_info` prints. The "Custom Fields" section
   * is printed exactly when `customFields` is not empty.
   */
  datatype VisitorInfo = VisitorInfo(visitorId: Json, accountId: Json, firstVisit: When,
                                     lastBrowser: Json, customFields: seq<CustomLine>)

  datatype VisitorReport =
    | VisitorIdRequired                  // "Visitor ID is required."; nothing is sent
    | VisitorFetchFailed(visitorId: string)  // "Unable to fetch visitor details for ID: ..."
    | Visitor(info: VisitorInfo)

  /** `visitor.get('metadata', {})`. */
  function Metadata(visitor: Json): Json
    requires visitor.Dict?
  {
    GetOr(visitor.items, "metadata", Dict([]))
  }

  /** `metadata.get(key, {})` for the `auto` and `custom` sections. */
  function Section(metadata: Json, key: string): Json
    requires metadata.Dict?
  {
    GetOr(metadata.items, key, Dict([]))
  }

  /** One custom line per custom item, in the dict's order. */
  function CustomLines(items: seq<(string, Json)>): (lines: seq<CustomLine>)
    ensures |lines| == |items|
    ensures forall i :: 0 <= i < |items| ==> lines[i] == CustomLine(items[i].0, items[i].1)
  {
    if items == [] then []
    else CustomLines(items[..|items| - 1]) + [CustomLine(items[|items| - 1].0, items[|items| - 1].1)]
  }

  /**
   * What `format_visitor_info` gives for `visitor`. It raises when the
   * visitor, its metadata, or the `auto` or `custom` section is not a
   * dict, or when a truthy `firstvisit` is not a number.
   */
  function VisitorInfoOf(visitor: Json): (r: Eval<VisitorInfo>)
    ensures r.Returns? <==>
      && visitor.Dict? && Metadata(visitor).Dict?
      && Section(Metadata(visitor), "auto").Dict? && Section(Metadata(visitor), "custom").Dict?
      && Timestamp(GetOr(Section(Metadata(visitor), "auto").items, "firstvisit", Int(0))).Returns?
    ensures r.Returns? && !HasKey(visitor.items, "id") ==> r.value.visitorId == Str("Unknown")
    ensures r.Returns? && !HasKey(visitor.items, "metadata") ==>
      r.value.accountId == Str("None") && r.value.firstVisit == Unknown &&
      r.value.lastBrowser == Str("Unknown") && r.value.customFields == []
    ensures r.Returns? ==>
      var auto := Section(Metadata(visitor), "auto").items;
      && (!HasKey(auto, "accountId") ==> r.value.accountId == Str("None"))
      && (!HasKey(auto, "firstvisit") ==> r.value.firstVisit == Unknown)
      && (!HasKey(auto, "lastbrowsername") ==> r.value.lastBrowser == Str("Unknown"))
    ensures r.Returns? ==>
      var auto := Section(Metadata(visitor), "auto").items;
      && (HasKey(visitor.items, "id") ==> ("id", r.value.visitorId) in visitor.items)
      && (HasKey(auto, "accountId") ==> ("accountId", r.value.accountId) in auto)
      && (HasKey(auto, "lastbrowsername") ==> ("lastbrowsername", r.value.lastBrowser) in auto)
    ensures r.Returns? ==>
      var firstVisit := GetOr(Section(Metadata(visitor), "auto").items, "firstvisit", Int(0));
      && (!Truthy(firstVisit) ==> r.value.firstVisit == Unknown)
      && (firstVisit.Int? && firstVisit.n != 0 ==> r.value.firstVisit == At(firstVisit.n))
    ensures r.Returns? ==>
      var custom := Section(Metadata(visitor), "custom").items;
      && |r.value.customFields| == |custom|
      && forall i :: 0 <= i < |custom| ==> r.value.customFields[i] == CustomLine(custom[i].0, custom[i].1)
  {
    if !visitor.Dict? || !Metadata(visitor).Dict? then Raises
    else
      var metadata := Metadata(visitor);
      var auto := Section(metadata, "auto");
      var custom := Section(metadata, "custom");
      if !auto.Dict? || !custom.Dict? then Raises
      else
        GetOrIsBinding(visitor.items, "id", Str("Unknown"));
        GetOrIsBinding(auto.items, "accountId", Str("None"));
        GetOrIsBinding(auto.items, "lastbrowsername", Str("Unknown"));
        match Timestamp(GetOr(auto.items, "firstvisit", Int(0)))
        case Raises => Raises
        case Returns(firstVisit) =>
          Returns(VisitorInfo(GetOr(visitor.items, "id", Str("Unknown")),
                              GetOr(auto.items, "accountId", Str("None")), firstVisit,
                              GetOr(auto.items, "lastbrowsername", Str("Unknown")),
                              CustomLines(custom.items)))
  }

  /** `format_visitor_info`, with its loop over the custom fields. */
  method FormatVisitorInfo(visitor: Json) returns (out: Eval<VisitorInfo>)
    ensures out == VisitorInfoOf(visitor)
  {
    if !visitor.Dict? {
      return Raises;
    }
    var visitorId := GetOr(visitor.items, "id", Str("Unknown"));
    var metadata := GetOr(visitor.items, "metadata", Dict([]));
    if !metadata.Dict? {
      return Raises;
    }
    var auto := GetOr(metadata.items, "auto", Dict([]));
    if !auto.Dict? {
      return Raises;
    }
    var accountId := GetOr(auto.items, "accountId", Str("None"));
    var firstVisit := Timestamp(GetOr(auto.items, "firstvisit", Int(0)));
    var lastBrowser := GetOr(auto.items, "lastbrowsername", Str("Unknown"));
    if firstVisit.Raises? {
      return Raises;
    }
    var custom := GetOr(metadata.items, "custom", Dict([]));
    if !custom.Dict? {
      return Raises;
    }
    var lines: seq<CustomLine> := [];
    for i := 0 to |custom.items|
      invariant lines == CustomLines(custom.items[..i])
    {
      assert custom.items[..i + 1][..i] == custom.items[..i];
      lines := lines + [CustomLine(custom.items[i].0, custom.items[i].1)];
    }
    assert custom.items[..|custom.items|] == custom.items;
    out := Returns(VisitorInfo(visitorId, accountId, firstVisit.value, lastBrowser, lines));
  }

  /** What `get_visitor_details` makes of `data`, the value the request helper returned. */
  function VisitorOutcome(visitorId: string, data: Option<Json>): (r: Eval<VisitorReport>)
    ensures r == Returns(VisitorFetchFailed(visitorId)) <==> data.None? || !Truthy(data.value)
    ensures r.Returns? ==> !r.value.VisitorIdRequired?
    ensures r.Returns? && r.value.Visitor? ==> data.Some? && VisitorInfoOf(data.value) == Returns(r.value.info)
    ensures data.Some? && Truthy(data.value) ==> (r.Raises? <==> VisitorInfoOf(data.value).Raises?)
  {
    if data.None? || !Truthy(data.value) then Returns(VisitorFetchFailed(visitorId))
    else match VisitorInfoOf(data.value)
      case Raises => Raises
      case Returns(info) => Returns(Visitor(info))
  }

  /** The tool. `call` is the HTTP call it issues, if any; `server` stands for the Pendo API. */
  method GetVisitorDetails(visitorId: string, server: HttpCall -> HttpReply)
    returns (call: Option<HttpCall>, out: Eval<VisitorReport>)
    ensures visitorId == "" <==> call.None?
    ensures visitorId == "" ==> out == Returns(VisitorIdRequired)
    ensures visitorId != "" ==>
      && call == Some(HttpGet(ApiBase + VisitorEndpoint + visitorId, []))
      && out == VisitorOutcome(visitorId, ResponseData(server(call.value)))
  {
    if visitorId == "" {
      return None, Returns(VisitorIdRequired);
    }
    var fetch := MakePendoRequest(VisitorEndpoint + visitorId, "GET", [], None, server);
    call := fetch.call;
    assert ApiBase + (VisitorEndpoint + visitorId) == ApiBase + VisitorEndpoint + visitorId;
    var data := fetch.data;
    if data.None? || !Truthy(data.value) {
      return call, Returns(VisitorFetchFailed(visitorId));
    }
    var info := FormatVisitorInfo(data.value);
    match info
    case Raises =>
      out := Raises;
    case Returns(i) =>
      out := Returns(Visitor(i));
  }
}
