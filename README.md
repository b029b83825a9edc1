# Pendo MCP server: the active-visitors query and its tools, in Dafny

This project models the logic of the Pendo MCP server (`pendo_mcp_server.py`),
a Model Context Protocol server whose tools query the Pendo product-analytics
REST API and return text reports. What is modelled:

- **The request helper** `make_pendo_request`: every failure (an unsupported
  HTTP method, a transport failure, a non-2xx status, a body that is not JSON)
  collapses into `None`. The network is a parameter `server` that maps the
  call leaving the process to the reply that comes back, so each tool's
  contract says which call it issues, or that it issues none.
- **The aggregation query** of `get_active_visitors`: `days_back` is checked
  against 1..90, then `group_by` against `day` and `hour`. The valid case
  builds the three-stage pipeline `source` (events, time series) → `group` →
  `sort` as a typed `Query`. `EncodeQuery` gives the JSON body that is posted,
  and `DecodeQuery` reads a body back into the query it describes.
- **The row loop** of `get_active_visitors`: one period block per result row,
  a running sum of `totalEvents` and a running maximum of `uniqueVisitors`
  starting at 0, with missing fields read as 0. The method `Summarize` is
  proved equal to the recursive specification `SummaryOf`.
- **`list_pages`**: the first ten pages are formatted in order, with a
  "N more" tail when there are more than ten. The branch for an empty list
  can never be reached, because the empty list fails the first `not data`
  test and gets the "unable to fetch" message.
- **`get_visitor_details` and `format_visitor_info`**: an empty id is
  rejected before any request. Missing fields take their default values.
  Custom metadata fields come out one line per key, in the dict's order.

Python values are modelled by `PyJson.Json`, with Python truthiness and
`dict.get`. Code that would raise an exception yields `Eval.Raises`. This
covers `.get` on something that is not a dict, `max` or `+=` on a count that
is not a number, and a truthy timestamp that is not a number. These cases
are not excluded by preconditions. Report texts are modelled as one
constructor per message, holding the values that message shows.

Three behaviours of the code are worth stating plainly:
- The time series of the query uses the period `dayRange` or `hourRange`,
  with `first: "now()"` and a negative `count`.
- Transport errors are not told apart by kind: every failure becomes `None`.
- A successful but falsy reply (`{}`, `[]`, `null`) is reported the same way
  as a failed request.

## Model

| member | source | states |
|---|---|---|
| `PyJson.GetOr` | pendo_mcp_server.py:254 | `d.get(key, default)` yields the default when the key is absent |
| `PyJson.GetOrIsBinding` | pendo_mcp_server.py:75-77 | when the key is present, `get` yields a value bound to that key in the dict |
| `PyJson.GetOrFindsBinding` | pendo_mcp_server.py:282-283 | when the key is present, `get` yields the value of its first (only) binding |
| `PyJson.AsNumber` | pendo_mcp_server.py:285-286 | `max`/`+=` accept exactly ints and bools; anything else raises; an int is taken as itself, True as 1 and False as 0 |
| `PyJson.Timestamp` | pendo_mcp_server.py:268-272 | a falsy timestamp shows as Unknown; a truthy one is shown iff it is a number: a non-zero int n as the moment n, True as the moment 1 |
| `PyJson.MapAllPointwise` | pendo_mcp_server.py:266-291 | an appending `for` loop gives one result per element in input order, and raises iff some element raises |
| `PendoRequest.ResponseData` | pendo_mcp_server.py:64-71 | data is returned iff the reply is a 2xx response with a JSON body; every other outcome collapses to `None` |
| `PendoRequest.MakePendoRequest` | pendo_mcp_server.py:40-71 | a call is issued iff the method is GET or POST; GET sends the params and POST the JSON body to base URL + endpoint; an unsupported method yields `None` without a call |
| `AggregationPipeline.PeriodOf` | pendo_mcp_server.py:208 | the period is `dayRange` iff the granularity is day |
| `AggregationPipeline.ParseGroupBy` | pendo_mcp_server.py:204-209 | accepts exactly "day" and "hour", and the chosen group field spells back the input |
| `AggregationPipeline.BuildActiveVisitorsQuery` | pendo_mcp_server.py:201-246 | rejects `days_back` outside 1..90 first, then a `group_by` other than day/hour (both iff). A valid input gives a well-formed pipeline (source first, window looking back, non-empty group, no group after sort) whose parameters read back as the input. It has three stages source/group/sort, count = -days_back, first = now(), period dayRange iff day, group key = sort key = [group_by], and the two aggregates uniqueVisitors = count visitorId and totalEvents = sum numEvents |
| `AggregationPipeline.DefaultsAreAccepted` | pendo_mcp_server.py:188-191 | the default arguments (7 days, by day) pass validation and ask for seven daily periods |
| `AggregationPipeline.BuildIsInjective` | pendo_mcp_server.py:217-244 | distinct valid parameter pairs never produce the same query |
| `AggregationPipeline.QueryRoundTrip` | pendo_mcp_server.py:211-246 | decoding the posted JSON body gives back exactly the typed query: no field dropped, none added |
| `AggregationPipeline.EncodeIsInjective` | pendo_mcp_server.py:211-246 | two different queries are never sent as the same body |
| `ActivitySummary.Max` | pendo_mcp_server.py:285 | `max` gives an upper bound of both arguments that is one of them |
| `ActivitySummary.RowBlock` | pendo_mcp_server.py:266-283 | a row yields a block iff it is a dict whose two counts are numbers and whose truthy timestamp is a number. The block's counts are the row's `get(..., 0)` values (True as 1, a missing one as 0); its timestamp is Unknown when falsy or missing and the moment n for a non-zero int n |
| `ActivitySummary.IntRowNeverRaises` | pendo_mcp_server.py:266-286 | a dict row whose values are all ints is always summarised |
| `ActivitySummary.PeakIsUpperBound` | pendo_mcp_server.py:263-285 | Peak Unique Visitors is ≥ 0 and ≥ every period's unique visitors |
| `ActivitySummary.PeakIsAttained` | pendo_mcp_server.py:285 | Peak Unique Visitors is 0 or some period's count: a maximum, not a sum |
| `ActivitySummary.SumEventsAppend` | pendo_mcp_server.py:264-286 | the total of events over consecutive row runs adds up |
| `ActivitySummary.BlocksFollowRows` | pendo_mcp_server.py:264-286 | blocks that carry the rows' counts total and peak exactly as the rows' own counts do |
| `ActivitySummary.SummaryTotals` | pendo_mcp_server.py:263-286 | Total Events is the sum of every row's `get('totalEvents', 0)`, and Peak Unique Visitors the largest `get('uniqueVisitors', 0)` or 0, both read from the rows directly |
| `ActivitySummary.SummaryOf` | pendo_mcp_server.py:263-296 | raises iff some row raises. Otherwise there is exactly one period block per row, in row order; Total Events is the sum of the blocks' events; Peak Unique Visitors is their running max, ≥ 0 and ≥ every block's count |
| `ActivitySummary.Summarize` | pendo_mcp_server.py:260-296 | the loop with its two accumulators computes exactly `SummaryOf` |
| `ActiveVisitors.ReplyOutcome` | pendo_mcp_server.py:251-298 | "unable to fetch" iff the reply is missing or falsy. "No activity" iff it is a non-empty dict whose `results` is falsy. The two never coincide. A report carries the summary of the `results` rows; it raises iff the reply is not a dict, or the results are truthy but not a list, or a row raises |
| `ActiveVisitors.GetActiveVisitors` | pendo_mcp_server.py:188-298 | an invalid `days_back` (checked first) or `group_by` returns its message and issues no call. A valid input POSTs exactly the encoded built query to the aggregation endpoint and reports `ReplyOutcome` of the reply |
| `Pages.FormatPageInfo` | pendo_mcp_server.py:73-91 | formats a page iff it is a dict whose truthy `createdAt` is a number; missing id/name/appId/createdAt default to Unknown / Unnamed Page / Unknown / Unknown; present id/name/appId show the page's own binding; a falsy `createdAt` is Unknown and a non-zero int n the moment n |
| `Pages.PageParams` | pendo_mcp_server.py:138-141 | the `appId` parameter is sent iff a non-empty app id is given |
| `Pages.PagesOutcome` | pendo_mcp_server.py:145-166 | "unable to fetch" iff the reply is missing or falsy; "unexpected format" iff it is truthy and not a list. Otherwise the listing holds the total, the first min(n, 10) pages formatted in order, and "N more" = n − 10 exactly when n > 10 |
| `Pages.NoPagesIsUnreachable` | pendo_mcp_server.py:145-152 | the "no pages found" message is never returned; an empty list gets the "unable to fetch" message |
| `Pages.ListingShowsFirstPages` | pendo_mcp_server.py:155-164 | the listing shows min(n, 10) pages, each the formatting of the page at the same position; the tail appears iff n > 10 |
| `Pages.LaterPagesAreNotRead` | pendo_mcp_server.py:156-164 | lists that agree on their first ten pages and have the same length give the same outcome |
| `Pages.ListPages` | pendo_mcp_server.py:129-166 | GETs the page endpoint with `PageParams`; its loop over the first ten pages computes exactly `PagesOutcome` of the reply |
| `Visitors.CustomLines` | pendo_mcp_server.py:110-113 | one custom line per custom metadata item, key and value, in the dict's order |
| `Visitors.VisitorInfoOf` | pendo_mcp_server.py:93-125 | raises iff the visitor, its metadata, `auto` or `custom` is not a dict or a truthy `firstvisit` is not a number. Missing id/accountId/firstvisit/lastbrowsername give Unknown/None/Unknown/Unknown, and so does missing metadata, with no custom fields. Present id/accountId/lastbrowsername show the record's own binding; a falsy `firstvisit` is Unknown and a non-zero int n the moment n. The custom fields are the custom items, one per key, in order |
| `Visitors.FormatVisitorInfo` | pendo_mcp_server.py:93-125 | the method with its loop over the custom fields computes exactly `VisitorInfoOf` |
| `Visitors.VisitorOutcome` | pendo_mcp_server.py:183-186 | "unable to fetch visitor" iff the reply is missing or falsy; otherwise the formatted visitor, raising exactly when formatting raises |
| `Visitors.GetVisitorDetails` | pendo_mcp_server.py:168-186 | an empty id returns "Visitor ID is required." and is the only case with no call; otherwise it GETs `/api/v1/visitor/<id>` and reports `VisitorOutcome` of the reply |

## Left out

- HTTP transport: the async client, the integration-key and content-type headers, the 30-second timeout and the logging of errors. The model keeps only the call issued and the collapse of every failure to `None`. `ResponseData` assumes the HTTP client's `raise_for_status` rejects every status outside 200-299.
- URL encoding of the visitor id by the HTTP client: the endpoint is modelled as plain concatenation.
- Tool registration with FastMCP, `mcp.run` and the `__main__` block: framework plumbing.
- Loading the environment, reading `PENDO_INTEGRATION_KEY` and exiting when it is missing: process start-up.
- Logging configuration.
- Rendering of timestamps as dates (`datetime.fromtimestamp(...).strftime(...)`): it depends on floating-point division and the local time zone, so a timestamp is kept as the number it is. A numeric timestamp out of the platform's range, which makes `fromtimestamp` raise, is treated as renderable.
- The exact report texts, the `=` rulers, the `{:,}` thousands separators and `str()` of field values: each message is a constructor holding the values it shows.
- JSON numbers with a fraction, and JSON objects with repeated keys. Objects are modelled with distinct keys, as a decoded dict has.
- Arguments of other Python types than those declared (a float `days_back`, a `None` visitor id).
- `test_server.py` and `tests/test_server.py`: they only import the module and list tool names.
- The tools that tests/test_server.py:35-52 lists other than `get_visitor_details` (search_pages, analyze_funnels, analyze_retention, analyze_nps_feedback, …) are not defined in `pendo_mcp_server.py`, which defines only `list_pages`, `get_visitor_details` and `get_active_visitors`, so they are not part of this model. Nor are aggregation stages other than source, group and sort, which the code never builds.
- `AggregationPipeline.QueryRoundTrip`: the round trip is over the body's list of items. A source entity named "timeSeries" would repeat a key of the source object, which a Python dict cannot hold; the query the tool builds uses "events".
- The default arguments are stated by `AggregationPipeline.DefaultsAreAccepted`; the methods themselves take both arguments explicitly.
