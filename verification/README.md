# Global Fishing Watch client: a verified model of its pure core

`src/gfw.py` is a small client for the Global Fishing Watch API v3. Besides
its HTTP calls it holds a little deterministic logic, and this project models
that logic in Dafny and proves what it does:

- **the response flattener** `parse_vessels`. It walks the search responses
  and keeps one vessel record per entry. The registry record is used unless
  `registryInfoTotalRecords` is exactly 0; otherwise the self-reported record
  is used. It concatenates every entry's `registryOwners`. It raises
  `IndexError` when the chosen list is empty (module `Flattener`);
- **the vessel-search client** `get_vessels`. It maps the field kind `mmsi`
  to the filter key `ssvid` and keeps `imo` as it is, and rejects anything
  else before any request is sent. It builds one `where=` search URL per query
  value. It keeps the status-200 bodies, tagged with their query, in query
  order, and logs every other reply. Then it flattens what it kept (module
  `VesselSearch`);
- **the event clients** `get_events` and `get_events_by_geometry`. They map
  the event-type keyword to a dataset identifier; the `ais` identifier
  carries the extra `&gap-intentional-disabling=True` text. `get_events`
  builds the single-vessel events URL. `get_events_by_geometry` builds the
  POST body: the dataset, the dates, the fixed ten vessel types, the
  comma-joined flags and either a region or a geometry, with the region
  winning (module `EventQuery`).

Supporting modules:

- `Json` models JSON values and the Python operations the client applies to
  them: `dict.get`, `x[0]`, `for` iteration and `x != 0`. Python exceptions
  become `Error` values.
- `Text` models integer formatting, `str.split` and `str.join`, together with
  the round trips between them.
- `QueryString` models a plain reading of a formatted query string: split
  on `&`, then each piece at its first `=`. It is the partner against which
  the URL builders are proved.
- `Wrappers` holds `Option` and `Result`.

The network is an input. For the batch loop, `server(n, url)` is the reply to
the n-th request, which was sent to `url`. The `Run` the model returns records
three things: the URLs requested, the error-log records written, and the
tables returned or the exception raised.

One might expect at most one vessel per query, but the model follows the
code. A search may return up to `limit` entries, and `parse_vessels` keeps a
vessel for every entry, so one query can contribute several vessels
(`VesselSearch.OneQueryTwoVessels`).

Two further consequences of the code as written are stated as lemmas:

- `get_events_by_geometry` copies the `ais` identifier into the JSON body
  unchanged. There the `&gap-intentional-disabling=True` text is part of the
  dataset name, not a separate parameter (`EventQuery.GeometryAisDataset`).
- A flag list that is empty but not `None` is sent as a list holding one
  empty string (`EventQuery.EmptyFlagList`).

## Model

| member | source | states |
|---|---|---|
| Json.Field | src/gfw.py:32-39 | `dict.get` gives the stored value, or `None` when the key is absent |
| Json.Get | src/gfw.py:32-39 | `.get` succeeds exactly on a dict and returns that key's value; on anything else it raises |
| Json.First | src/gfw.py:38 | `ships[0]` gives the first element of a non-empty list or the first character of a non-empty string; an empty list or string raises `IndexError`, a dict `KeyError`, anything else `TypeError` |
| Json.Items | src/gfw.py:33-42 | a `for` loop visits a list's elements, a string's characters (each as a one-character string, in order) and nothing for an empty dict; iterating `None`, a number or a boolean raises `TypeError` |
| Flattener.PickVessel | src/gfw.py:34-38 | the vessel is the first element of `registryInfo` unless the count equals 0, and of `selfReportedInfo` when it does; an entry that is not a dict raises |
| Flattener.OwnersOf | src/gfw.py:39-42 | an entry's owners are the items of its `registryOwners`; a missing list raises |
| Flattener.ParseEntry | src/gfw.py:34-42 | an entry parses iff both its vessel and its owners do; the vessel is chosen first, so its failure is the one reported |
| Flattener.EntriesOf | src/gfw.py:32-33 | a response's entries are the items of its `entries` field; a response that is not a dict raises `TypeError`, and a missing `entries` fails as iterating `None` does |
| Flattener.ParseEntries | src/gfw.py:33-42 | the inner loop yields one vessel per entry when it succeeds, and an entry at the head that fails to parse decides the error |
| Flattener.ParseVessels | src/gfw.py:25-47 | a successful `parse_vessels` yields exactly one vessel per entry across all responses, and a first response without iterable entries decides the error |
| Flattener.ParseEntriesMeaning | src/gfw.py:33-42 | the inner loop succeeds iff every entry parses; the result then has one vessel per entry, in entry order, and the concatenation of every entry's owners |
| Flattener.FirstFailingEntryDecides | src/gfw.py:33-42 | when entries fail, the exception is that of the first failing entry |
| Flattener.ParseEntriesAppend | src/gfw.py:33-42 | parsing two runs of entries in turn is parsing their concatenation |
| Flattener.ParseVesselsAppend | src/gfw.py:31-42 | flattening two runs of responses in turn is flattening their concatenation, the first failure winning |
| Flattener.CombineAssociates | src/gfw.py:31-42 | appending partial tables is associative, and a failure anywhere stays the first failure |
| Flattener.SingleEntry | src/gfw.py:33-42 | a lone entry contributes its own vessel and owners, or raises its own error |
| Flattener.SingleResponse | src/gfw.py:31-33 | a lone response gives exactly what its entries give |
| Flattener.ResponsesAreConcatenated | src/gfw.py:31-42 | when every response has an entries list, flattening the responses is flattening all their entries, in response-then-entry order |
| Flattener.ParseVesselsMeaning | src/gfw.py:25-47 | `parse_vessels` succeeds iff every response has an entries list and every entry parses; the vessels are then one per entry, in response-then-entry order, and the owners are all the entries' owners in the same order |
| Flattener.SuccessHasEntries | src/gfw.py:31-33 | a successful flatten means every response had an iterable entries list |
| Flattener.EmptySourceIsFatal | src/gfw.py:31-38 | an entry whose chosen source list is empty makes the whole call raise `IndexError` when no earlier entry or response failed, whatever the later responses hold; the entry is not skipped or defaulted |
| Flattener.EmptyRegistryExample | src/gfw.py:31-38 | the responses `[{"entries": [{"registryInfo": []}]}, {}]` raise `IndexError`: the missing count selects the empty registry list before the second response is reached |
| Flattener.EmptyOwnersAddNothing | src/gfw.py:39-42 | an entry whose `registryOwners` is an empty list adds no owner rows, wherever it stands among the other entries |
| Flattener.AllOwnersAppend | src/gfw.py:39-42 | the owner rows of two runs of entries are the two runs' owner rows, concatenated |
| Flattener.AllEmptyOwners | src/gfw.py:39-42 | entries whose `registryOwners` are all empty lists contribute no owner rows at all |
| Flattener.RecordChoice | src/gfw.py:34-38 | an absent, `null` or non-zero count selects `registryInfo`; a count of 0 selects `selfReportedInfo`; an empty chosen list raises `IndexError` and a non-empty one gives its first element |
| VesselSearch.FilterKey | src/gfw.py:83-88 | `mmsi` maps to `ssvid` and `imo` to `imo`, and only these; every other field raises `ValueError` with the source's message |
| VesselSearch.FilterKeyInverse | src/gfw.py:83-88 | the field mapping is one-to-one: a filter key gives back the field kind it came from |
| VesselSearch.WhereClause | src/gfw.py:91 | the `where` filter holds no `&` when the key and the query value hold none, and reads back as the key and the quoted query value |
| VesselSearch.SearchQuery | src/gfw.py:91 | the search query string carries exactly five parameters, in order: the where filter, the identity dataset, the two includes and the limit |
| VesselSearch.SearchUrl | src/gfw.py:91-92 | the request URL is the search endpoint followed by a query string from which `ParseQuery` recovers the filter key, the query value as printed and the limit |
| VesselSearch.SearchQueryDecodes | src/gfw.py:91 | reading the search query string with `ParseQuery` recovers the filter key, the query value as printed, and the limit |
| VesselSearch.DecodeSearchParams | src/gfw.py:91 | the five search parameters describe the key, the printed query value and the limit they were built from |
| VesselSearch.Tag | src/gfw.py:95-96 | tagging adds `query` with the query value and leaves every other field unchanged; a body that is not a dict raises |
| VesselSearch.GetVessels | src/gfw.py:83-106 | an unknown field raises before any request is sent and nothing is logged; otherwise the call is the batch run for the mapped key |
| VesselSearch.SearchAll | src/gfw.py:90-106 | the loop does what the functional batch run describes: every query requested in order, non-200 replies logged and skipped, the tagged 200 bodies flattened in query order, and a 200 body that is not a dict raising right after its own request |
| VesselSearch.TaggablePrefix | src/gfw.py:94-96 | the replies before the first status-200 reply whose body is not a dict are all taggable, and that reply, if any, is the one the count stops at |
| VesselSearch.StoppedRun | src/gfw.py:94-97 | a 200 reply whose body is not a dict ends the batch after that request, raising, with the log written so far |
| VesselSearch.RunOf | src/gfw.py:90-106 | the URLs requested are always a prefix of the batch's URLs; when every 200 body is a dict, every URL is requested, every non-200 reply is logged and the kept bodies are flattened; otherwise the call raises `TypeError` right after the first 200 reply whose body is not a dict |
| VesselSearch.BatchRun | src/gfw.py:90-106 | the requests go, in order, to the search URLs of the queries; when no request gets a 200 reply every URL is requested, every query is logged and the tables are empty |
| VesselSearch.AllRefused | src/gfw.py:90-106 | a batch in which no reply is a 200 requests every URL, logs every query and flattens nothing |
| VesselSearch.NoneKept | src/gfw.py:94-104 | replies none of which is a 200 keep no body and log one record per query |
| VesselSearch.Kept | src/gfw.py:90-97 | the kept bodies are at most one per query |
| VesselSearch.ErrorLog | src/gfw.py:103-104 | the error-log records are at most one per query |
| VesselSearch.MessageShape | src/gfw.py:104 | a log line starts with the query as printed, carries the status code so that it reads back as that number, and ends with the reason phrase and the hint to check |
| VesselSearch.BatchStep | src/gfw.py:90-104 | one turn of the loop adds the tagged body to the results when the status is 200, and a log record otherwise |
| VesselSearch.KeptAppend | src/gfw.py:90-97 | the 200-filter preserves order: filtering two batches in turn is filtering their concatenation |
| VesselSearch.ErrorLogAppend | src/gfw.py:103-104 | the error log of two batches in turn is the log of their concatenation |
| VesselSearch.KeptOne | src/gfw.py:94-104 | a single query contributes its tagged body when its reply is 200, and one log record otherwise |
| VesselSearch.KeptOrLogged | src/gfw.py:94-104 | the kept bodies and the error-log records together number exactly one per query |
| VesselSearch.KeptMembers | src/gfw.py:94-97 | a kept response is exactly a 200 body tagged with the query that produced it |
| VesselSearch.TaggedCarriesQuery | src/gfw.py:96 | a tagged body is the reply's dict with `query` set to the query value |
| VesselSearch.OneQueryTwoVessels | src/gfw.py:31-38 | one response with two entries gives two vessel rows |
| VesselSearch.TwoEntries | src/gfw.py:31-42 | a response with two entries that each parse to a vessel without owners yields that vessel twice and no owners |
| EventQuery.EventDataset | src/gfw.py:144-155 | each of `encounter`, `fishing`, `loitering` and `port_visits` maps to its own dataset id, and `ais` to the gaps dataset with the intentional-disabling text; every other keyword raises `ValueError` with the source's message |
| EventQuery.EventDatasetInverse | src/gfw.py:144-155 | the keyword-to-dataset mapping is one-to-one: each dataset id gives back its keyword |
| EventQuery.EventsQuery | src/gfw.py:157 | when the vessel id, the dataset id and both dates are free of `&`, the events query string reads back as its six parameters in order |
| EventQuery.EventsRequest | src/gfw.py:144-157 | the single-vessel request fails exactly for an unknown keyword, with the mapping's error; on success its URL is the events endpoint followed by the events query for the dataset the keyword maps to |
| EventQuery.EventsQueryParams | src/gfw.py:157 | reading the events query string with `ParseQuery` gives the vessel, the dataset, for `ais` a separate `gap-intentional-disabling=True` parameter, the two dates, `limit=99999` and `offset=0`, in that order |
| EventQuery.AisQuery | src/gfw.py:153-157 | for `ais`, with a vessel id and dates free of `&`, the intentional-disabling text reads as a parameter of its own, right after the dataset |
| EventQuery.DatasetShape | src/gfw.py:144-153 | every dataset id other than the `ais` one is free of `&`, so it reads back as one parameter |
| EventQuery.GeometryBody | src/gfw.py:221-235 | the body holds `datasets`, `startDate`, `endDate` and `vesselTypes`, plus `flags` when a flag list is given and `region` or else `geometry` when given; the dataset list has one element, the vessel types are the fixed ten, the flags are one comma-joined string, and a region excludes the geometry |
| EventQuery.GeometryRequest | src/gfw.py:206-237 | the geometry request fails exactly for an unknown keyword, with the mapping's error; on success it posts to the events endpoint with `limit=99999&offset=0` the body built from the dataset the keyword maps to |
| EventQuery.SameDatasetRule | src/gfw.py:206-217 | both event clients reject the same keywords with the same error, and on success both the URL and the body name the dataset the keyword maps to |
| EventQuery.GeometryQueryParams | src/gfw.py:219 | the geometry URL asks for `limit=99999` and `offset=0` |
| EventQuery.FlagsRecoverable | src/gfw.py:227-229 | the joined flag string splits back into the caller's flags when the list is non-empty and no flag holds a comma |
| EventQuery.EmptyFlagList | src/gfw.py:227-229 | an empty flag list is sent as a list holding the empty string |
| EventQuery.GeometryAisDataset | src/gfw.py:215-221 | for `ais` the body's dataset name is the whole identifier, whose `&` is part of the name |

## Left out

- HTTP calls, request headers and the bearer token (src/gfw.py:78-79, 92, 141-142, 159, 182-185, 202-203, 237): these are network I/O. Replies are an input, `server`; the events and geometry responses are not modelled.
- Loading the environment and configuring logging (src/gfw.py:11-22): these are process-level side effects.
- Appending result lines to the data file (src/gfw.py:98-101, 164-167, 241-244): file I/O. The line format is Python `repr`, which has no parser to pair it with.
- Building `pd.DataFrame` and `pd.json_normalize` tables (src/gfw.py:44-45, 169, 246): they belong to an external library. The tables are the two sequences of `Tables`.
- `get_eez_list` (src/gfw.py:179-188): a plain GET with no logic of its own.
- How the event clients handle a reply (src/gfw.py:161-176, 239-254): the 200 or 200/201 status test, the tagging with `vessel_id`, echoing the reply text and the error log. This is response plumbing around a library call.
- `json.dumps` of the geometry body (src/gfw.py:237): the model stops at the JSON value.
- Json.Items: iterating a non-empty dict is a `TypeError` in the model, because a `map` has no key order. Python would visit its keys. This is exact for `entries`, where a string key then fails `.get`. For a non-empty dict under `registryOwners`, Python would append its keys as owners.
- Floating-point JSON numbers are not modelled. `0.0 != 0` is false in Python, but numbers here are integers and booleans only.
- Query values other than strings and integers are not modelled. Their f-string form is that type's `__str__`.
- The rendering of the log line is given by `VesselSearch.Message`, and the `logging` call that writes it is left out.
- The server is a function of the request's position and URL. Timing, retries and connection errors (exceptions from `requests`) are not modelled.
- QueryString.ParseQuery: it only splits on `&` and at the first `=`. It does no percent-decoding of `%XX`, does not read `+` as a space, and does not cut the URL at `#`, which `requests` would turn into a fragment that is never sent. So the read-back lemmas (`SearchUrl`, `SearchQueryDecodes`, `SearchQuery`, `EventsQuery`, `EventsQueryParams`, `AisQuery`) state what this plain reading recovers. They do not state what a real server receives for a value holding `#`, `%` or `+`.
- VesselSearch.WhereClause: its `&`-free promise assumes the key and the query value hold no `&`. The client does not escape them.
- VesselSearch.SearchQuery: its read-back promise assumes the query value holds no `&`. The client does not escape it, so such a value would split into extra parameters.
- VesselSearch.SearchUrl: its read-back promise assumes the query value holds no `&`, for the same reason.
- VesselSearch.SearchQueryDecodes: it assumes the query value holds no `&`, for the same reason.
- EventQuery.EventsQuery: its read-back promise assumes the vessel id, the dataset id and both dates hold no `&`. The client does not escape them.
- EventQuery.EventsQueryParams: it assumes the vessel id and both dates hold no `&`, for the same reason.
- EventQuery.AisQuery: it assumes the vessel id and both dates hold no `&`, for the same reason.
- VesselSearch.Kept: its own contract only bounds the length. Which bodies are kept, and in what order, is stated by `KeptMembers`, `KeptOne`, `KeptAppend` and `KeptOrLogged`.
- VesselSearch.ErrorLog: its own contract only bounds the length. Which replies are logged, and in what order, is stated by `KeptOne`, `ErrorLogAppend` and `KeptOrLogged`.
- The default arguments `limit=5` and `field='mmsi'` of `get_vessels` (src/gfw.py:52-53) are not modelled: every model call passes both explicitly.
- The `flag` argument of `get_events_by_geometry` is modelled as `Option<seq<string>>` (src/gfw.py:227-228). In Python, `','.join` raises `TypeError` on a non-string element, and a bare string passed as `flag` is joined character by character. Neither case is modelled.
- `r.json()` raising on a status-200 reply whose body is not JSON (src/gfw.py:95) is not modelled: a `Reply` carries its body already parsed.
