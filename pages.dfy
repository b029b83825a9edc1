/**
 * The `list_pages` tool and `format_page_info`: fetch the tagged pages,
 * show the first ten, and count the rest.
 */
module Pages {
  import opened PyJson
  import opened PendoRequest

  const PageEndpoint := "/api/v1/page"

  /** How many pages the listing shows. */
  const ShownPages := 10

  /**
   * The fields `format_page_info` prints. Each holds the page's value, or
   * the default string printed when the key is absent.
   */
  datatype PageInfo = PageInfo(id: Json, name: Json, appId: Json, created: When)

  datatype PagesReport =
    | PagesFetchFailed                 // "Unable to fetch pages from Pendo API. ..."
    | UnexpectedFormat                 // "Unexpected response format from Pendo API."
    | NoPages                          // "No pages found in your Pendo subscription."
    | Listing(total: nat, shown: seq<PageInfo>, more: Option<nat>)  // "... and N more pages."

  /**
   * `format_page_info`: read the page with `page.get(key, default)`. It
   * raises when the page is not a dict or its truthy `createdAt` is not a
   * number.
   */
  function FormatPageInfo(page: Json): (r: Eval<PageInfo>)
    ensures r.Returns? <==> page.Dict? && Timestamp(GetOr(page.items, "createdAt", Int(0))).Returns?
    ensures r.Returns? ==>
      && (!HasKey(page.items, "id") ==> r.value.id == Str("Unknown"))
      && (!HasKey(page.items, "name") ==> r.value.name == Str("Unnamed Page"))
      && (!HasKey(page.items, "appId") ==> r.value.appId == Str("Unknown"))
      && (!HasKey(page.items, "createdAt") ==> r.value.created == Unknown)
    ensures r.Returns? ==>
      && (HasKey(page.items, "id") ==> ("id", r.value.id) in page.items)
      && (HasKey(page.items, "name") ==> ("name", r.value.name) in page.items)
      && (HasKey(page.items, "appId") ==> ("appId", r.value.appId) in page.items)
    ensures r.Returns? ==>
      var createdAt := GetOr(page.items, "createdAt", Int(0));
      && (!Truthy(createdAt) ==> r.value.created == Unknown)
      && (createdAt.Int? && createdAt.n != 0 ==> r.value.created == At(createdAt.n))
  {
    if !page.Dict? then Raises
    else
      var items := page.items;
      GetOrIsBinding(items, "id", Str("Unknown"));
      GetOrIsBinding(items, "name", Str("Unnamed Page"));
      GetOrIsBinding(items, "appId", Str("Unknown"));
      match Timestamp(GetOr(items, "createdAt", Int(0)))
      case Raises => Raises
      case Returns(created) =>
        Returns(PageInfo(GetOr(items, "id", Str("Unknown")), GetOr(items, "name", Str("Unnamed Page")),
                         GetOr(items, "appId", Str("Unknown")), created))
  }

  /** The query parameters: `appId` only when a non-empty one is given. */
  function PageParams(appId: Option<string>): (ps: seq<(string, string)>)
    ensures ps == [] <==> appId.None? || appId.value == ""
    ensures ps != [] ==> ps == [("appId", appId.value)]
  {
    if appId.Some? && appId.value != "" then [("appId", appId.value)] else []
  }

  /** What `list_pages` makes of `data`, the value the request helper returned. */
  function PagesOutcome(data: Option<Json>): (r: Eval<PagesReport>)
    ensures r == Returns(PagesFetchFailed) <==> data.None? || !Truthy(data.value)
    ensures r == Returns(UnexpectedFormat) <==> data.Some? && Truthy(data.value) && !data.value.List?
    ensures r.Returns? && r.value.Listing? ==>
      && data.Some? && data.value.List?
      && var pages := data.value.elems;
      && r.value.total == |pages| > 0
      && MapAll(FormatPageInfo, pages[..Min(|pages|, ShownPages)]) == Returns(r.value.shown)
      && r.value.more == (if |pages| > ShownPages then Some(|pages| - ShownPages) else None)
    ensures r.Raises? <==>
      data.Some? && data.value.List? && data.value.elems != [] &&
      MapAll(FormatPageInfo, data.value.elems[..Min(|data.value.elems|, ShownPages)]).Raises?
  {
    if data.None? || !Truthy(data.value) then Returns(PagesFetchFailed)
    else if !data.value.List? then Returns(UnexpectedFormat)
    else if !Truthy(data.value) then Returns(NoPages)
    else
      var pages := data.value.elems;
      match MapAll(FormatPageInfo, pages[..Min(|pages|, ShownPages)])
      case Raises => Raises
      case Returns(shown) =>
        Returns(Listing(|pages|, shown, if |pages| > ShownPages then Some(|pages| - ShownPages) else None))
  }

  function Min(a: int, b: int): int { if a < b then a else b }

  /**
   * The empty list is caught by the first test (`not data`), so the "no
   * pages" message is never produced.
   */
  lemma NoPagesIsUnreachable(data: Option<Json>)
    ensures PagesOutcome(data) != Returns(NoPages)
    ensures data == Some(List([])) ==> PagesOutcome(data) == Returns(PagesFetchFailed)
  {
  }

  /** The listing shows the first ten pages, in order, and only those. */
  lemma ListingShowsFirstPages(data: Option<Json>)
    requires PagesOutcome(data).Returns? && PagesOutcome(data).value.Listing?
    ensures var pages := data.value.elems; var shown := PagesOutcome(data).value.shown;
      && |shown| == Min(|pages|, ShownPages)
      && (forall i :: 0 <= i < |shown| ==> FormatPageInfo(pages[i]) == Returns(shown[i]))
      && (PagesOutcome(data).value.more.Some? <==> |pages| > ShownPages)
  {
    var pages := data.value.elems;
    var head := pages[..Min(|pages|, ShownPages)];
    MapAllPointwise(FormatPageInfo, head);
    assert forall i :: 0 <= i < |head| ==> head[i] == pages[i];
  }

  /** Pages after the tenth are never read: only their number shows. */
  lemma LaterPagesAreNotRead(pages1: seq<Json>, pages2: seq<Json>)
    requires |pages1| == |pages2| > 0
    requires pages1[..Min(|pages1|, ShownPages)] == pages2[..Min(|pages2|, ShownPages)]
    ensures PagesOutcome(Some(List(pages1))) == PagesOutcome(Some(List(pages2)))
  {
  }

  /** The tool. `call` is the HTTP call it issues; `server` stands for the Pendo API. */
  method ListPages(appId: Option<string>, server: HttpCall -> HttpReply)
    returns (call: HttpCall, out: Eval<PagesReport>)
    ensures call == HttpGet(ApiBase + PageEndpoint, PageParams(appId))
    ensures out == PagesOutcome(ResponseData(server(call)))
  {
    var fetch := MakePendoRequest(PageEndpoint, "GET", PageParams(appId), None, server);
    call := fetch.call.value;
    var data := fetch.data;
    if data.None? || !Truthy(data.value) {
      return call, Returns(PagesFetchFailed);
    }
    if !data.value.List? {
      return call, Returns(UnexpectedFormat);
    }
    var pages := data.value.elems;
    if pages == [] {
      return call, Returns(NoPages);
    }
    var head := pages[..Min(|pages|, ShownPages)];
    var shown: seq<PageInfo> := [];
    for i := 0 to |head|
      invariant MapAll(FormatPageInfo, head[..i]) == Returns(shown)
    {
      assert head[..i + 1] == head[..i] + [head[i]];
      MapAllSnoc(FormatPageInfo, head[..i], head[i]);
      var info := FormatPageInfo(head[i]);
      if info.Raises? {
        MapAllPointwise(FormatPageInfo, head);
        return call, Raises;
      }
      shown := shown + [info.value];
    }
    assert head[..|head|] == head;
    var more := if |pages| > ShownPages then Some(|pages| - ShownPages) else None;
    out := Returns(Listing(|pages|, shown, more));
  }
}
