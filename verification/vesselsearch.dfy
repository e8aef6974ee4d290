/**
 The vessel-search client (`get_vessels`): it maps the caller's field kind to
 the API's filter key, sends one search request per query value, keeps the
 status-200 bodies tagged with their query, and flattens them.

 The network is a parameter: `server(n, url)` is the reply to the n-th
 request the client sends, which went to `url`.
 */
module VesselSearch {
  import opened Wrappers
  import opened Json
  import opened Text
  import opened QueryString
  import opened Flattener

  const Endpoint := "https://gateway.api.globalfishingwatch.org/v3/vessels/search?"
  const IdentityDataset := "public-global-vessel-identity:latest"

  /** An MMSI or IMO number as the caller supplies it: a string or an integer. */
  datatype QueryValue = Textual(s: string) | Numeric(n: int)

  /** The query value as an f-string prints it. */
  function Render(q: QueryValue): string {
    match q
    case Textual(s) => s
    case Numeric(n) => IntToString(n)
  }

  /** The query value as it is stored in a tagged response. */
  function AsJson(q: QueryValue): Value {
    match q
    case Textual(s) => Str(s)
    case Numeric(n) => Num(n)
  }

  /** The filter key a field kind selects: `mmsi` is searched as `ssvid`, `imo` as itself. */
  function FilterKey(field: string): (r: Result<string, Error>)
    ensures r == Success("ssvid") <==> field == "mmsi"
    ensures r == Success("imo") <==> field == "imo"
    ensures r.Failure? <==> field != "mmsi" && field != "imo"
    ensures r.Failure? ==> r.error == ValueError("Field must be \"mmsi\" or \"imo\" and not " + field)
  {
    if field == "mmsi" then Success("ssvid")
    else if field == "imo" then Success(field)
    else Failure(ValueError("Field must be \"mmsi\" or \"imo\" and not " + field))
  }

  /** The field kind a filter key came from. */
  function FieldOf(key: string): Option<string> {
    if key == "ssvid" then Some("mmsi")
    else if key == "imo" then Some("imo")
    else None
  }

  /** The field mapping is a bijection between the two field kinds and the two filter keys. */
  lemma FilterKeyInverse(field: string, key: string)
    ensures FilterKey(field) == Success(key) <==> FieldOf(key) == Some(field)
  {
  }

  /** The `where` filter of one search request: `key="value"`. */
  function WhereClause(key: string, q: QueryValue): (w: string)
    ensures '&' !in key && '&' !in Render(q) ==> '&' !in w
    ensures '=' !in key ==> ParsePair(w) == (key, "\"" + Render(q) + "\"")
  {
    var quoted := "\"" + Render(q) + "\"";
    assert '=' !in key ==> ParsePair(key + "=" + quoted) == (key, quoted) by {
      if '=' !in key { ParsePairOf(key, quoted); }
    }
    key + "=" + quoted
  }

  /**
   The query string of one search request, written out parameter by
   parameter. It has exactly the five parameters the client means to send,
   in order, provided the filter key and the query value contain no `&`.
   */
  function SearchQuery(key: string, q: QueryValue, limit: int): (query: string)
    ensures '&' !in key && '&' !in Render(q) ==> ParseQuery(query) == SearchParams(key, q, limit)
  {
    var query := Arg("where", WhereClause(key, q))
      + "&" + Arg("datasets[0]", IdentityDataset)
      + "&" + Arg("includes[0]", "OWNERSHIP")
      + "&" + Arg("includes[1]", "AUTHORIZATIONS")
      + "&" + Arg("limit", IntToString(limit));
    assert '&' !in key && '&' !in Render(q) ==> ParseQuery(query) == SearchParams(key, q, limit) by {
      if '&' !in key && '&' !in Render(q) {
        NoAmpersandInNumber(limit);
        SearchShape(WhereClause(key, q), IntToString(limit));
      }
    }
    query
  }

  /**
   The URL of one search request: the search endpoint followed by a query
   string from which a plain reading gives back the filter key, the query value
   as printed and the limit.
   */
  function SearchUrl(key: string, q: QueryValue, limit: int): (url: string)
    ensures |url| >= |Endpoint| && url[..|Endpoint|] == Endpoint
    ensures '&' !in key && '=' !in key && '&' !in Render(q) ==>
              DecodeSearch(url[|Endpoint|..]) == Some(SearchFilter(key, Render(q), limit))
  {
    var url := Endpoint + SearchQuery(key, q, limit);
    assert url[|Endpoint|..] == SearchQuery(key, q, limit);
    assert '&' !in key && '=' !in key && '&' !in Render(q) ==>
             DecodeSearch(url[|Endpoint|..]) == Some(SearchFilter(key, Render(q), limit)) by {
      if '&' !in key && '=' !in key && '&' !in Render(q) {
        SearchQueryDecodes(key, q, limit);
      }
    }
    url
  }

  /** What a search request asks for: records whose `key` equals `value`, at most `limit` of them. */
  datatype SearchFilter = SearchFilter(key: string, value: string, limit: int)

  /** The parameters of a search request, in order. */
  function SearchParams(key: string, q: QueryValue, limit: int): seq<Param> {
    [ ("where", WhereClause(key, q)),
      ("datasets[0]", IdentityDataset),
      ("includes[0]", "OWNERSHIP"),
      ("includes[1]", "AUTHORIZATIONS"),
      ("limit", IntToString(limit)) ]
  }

  /** The search filter a plain reading of a search query string gives. */
  function DecodeSearch(query: string): Option<SearchFilter> {
    DecodeParams(ParseQuery(query))
  }

  /** The search filter a parsed parameter list describes, if it has the search request's shape. */
  function DecodeParams(ps: seq<Param>): Option<SearchFilter> {
    if |ps| == 5 && ps[0].0 == "where" && ps[1] == ("datasets[0]", IdentityDataset)
       && ps[2] == ("includes[0]", "OWNERSHIP") && ps[3] == ("includes[1]", "AUTHORIZATIONS")
       && ps[4].0 == "limit" && ParseInt(ps[4].1).Some?
    then
      var (key, quoted) := ParsePair(ps[0].1);
      if |quoted| >= 2 && quoted[0] == '"' && quoted[|quoted| - 1] == '"'
      then Some(SearchFilter(key, quoted[1..|quoted| - 1], ParseInt(ps[4].1).value))
      else None
    else None
  }

  /** The search query string's shape, for any `where` filter and limit text free of `&`. */
  lemma SearchShape(where: string, limitText: string)
    requires '&' !in where && '&' !in limitText
    ensures ParseQuery(Arg("where", where)
                       + "&" + Arg("datasets[0]", IdentityDataset)
                       + "&" + Arg("includes[0]", "OWNERSHIP")
                       + "&" + Arg("includes[1]", "AUTHORIZATIONS")
                       + "&" + Arg("limit", limitText))
            == [("where", where), ("datasets[0]", IdentityDataset), ("includes[0]", "OWNERSHIP"),
                ("includes[1]", "AUTHORIZATIONS"), ("limit", limitText)]
  {
    SearchKeysPlain();
    IdentityDatasetPlain();
    ParseFive("where", where, "datasets[0]", IdentityDataset, "includes[0]", "OWNERSHIP",
              "includes[1]", "AUTHORIZATIONS", "limit", limitText);
  }

  lemma SearchKeysPlain()
    ensures '=' !in "where" && '&' !in "where" && '=' !in "limit" && '&' !in "limit"
    ensures PlainParam("includes[0]", "OWNERSHIP") && PlainParam("includes[1]", "AUTHORIZATIONS")
  {
  }

  lemma IdentityDatasetPlain()
    ensures PlainParam("datasets[0]", IdentityDataset)
  {
  }

  lemma NoAmpersandInNumber(n: int)
    ensures '&' !in IntToString(n)
  {
    IntToStringAlphabet(n);
  }

  /**
   The search query determines the request: a plain reading gives back the filter
   key, the query value as printed, and the limit.
   */
  lemma SearchQueryDecodes(key: string, q: QueryValue, limit: int)
    requires '&' !in key && '=' !in key && '&' !in Render(q)
    ensures DecodeSearch(SearchQuery(key, q, limit)) == Some(SearchFilter(key, Render(q), limit))
  {
    DecodeSearchParams(key, q, limit);
  }

  /** The search parameters describe the filter they were built from. */
  lemma DecodeSearchParams(key: string, q: QueryValue, limit: int)
    requires '=' !in key
    ensures DecodeParams(SearchParams(key, q, limit)) == Some(SearchFilter(key, Render(q), limit))
  {
    IntToStringRoundTrip(limit);
    var quoted := "\"" + Render(q) + "\"";
    assert quoted[1..|quoted| - 1] == Render(q);
  }

  // ---------------------------------------------------------------------------
  // The batch loop

  /** An HTTP reply: status code, reason phrase and the parsed JSON body. */
  datatype Reply = Reply(status: int, reason: string, body: Value)

  /**
   What one call of the client did: the URLs it requested, the records it
   wrote to the error log, and what it returned or raised.
   */
  datatype Run = Run(requests: seq<string>, errors: seq<LogEntry>, outcome: Result<Tables, Error>)

  /** `result.update({'query': q})`: only a dict can be tagged. */
  function Tag(body: Value, q: QueryValue): (r: Result<Value, Error>)
    ensures body.Obj? <==> r.Success?
    ensures r.Success? ==> r.value.Obj? && r.value.fields.Keys == body.fields.Keys + {"query"}
    ensures r.Success? ==> r.value.fields["query"] == AsJson(q)
    ensures r.Success? ==> forall k :: k in body.fields && k != "query" ==> r.value.fields[k] == body.fields[k]
    ensures r.Failure? ==> r.error == TypeError
  {
    match body
    case Obj(fields) => Success(Obj(fields["query" := AsJson(q)]))
    case _ => Failure(TypeError)
  }

  /** One error-log record: the query, the status code and the reason phrase of its reply. */
  datatype LogEntry = LogEntry(query: QueryValue, status: int, reason: string)

  function Failed(q: QueryValue, reply: Reply): LogEntry {
    LogEntry(q, reply.status, reply.reason)
  }

  /** The text an error-log record is written as. */
  function Message(e: LogEntry): string {
    "Something went wrong with query: " + Render(e.query) + " --> status code: " + IntToString(e.status)
    + " - reason: " + e.reason + "\nplease check"
  }

  /** A log line names the query as printed, then the status code, and ends with the reason phrase and the hint. */
  lemma MessageShape(e: LogEntry)
    ensures var head := "Something went wrong with query: " + Render(e.query) + " --> status code: ";
            var tail := " - reason: " + e.reason + "\nplease check";
            && |Message(e)| == |head| + |IntToString(e.status)| + |tail|
            && Message(e)[..|head|] == head
            && ParseInt(Message(e)[|head|..|head| + |IntToString(e.status)|]) == Some(e.status)
            && Message(e)[|Message(e)| - |tail|..] == tail
  {
    var head := "Something went wrong with query: " + Render(e.query) + " --> status code: ";
    var tail := " - reason: " + e.reason + "\nplease check";
    var code := IntToString(e.status);
    assert Message(e) == head + code + tail;
    assert (head + code + tail)[|head|..|head| + |code|] == code;
    IntToStringRoundTrip(e.status);
  }

  /** The URLs of the search requests for every query, in order. */
  function Urls(key: string, queries: seq<QueryValue>, limit: int): (urls: seq<string>)
    ensures |urls| == |queries|
    ensures forall i :: 0 <= i < |queries| ==> urls[i] == SearchUrl(key, queries[i], limit)
  {
    seq(|queries|, i requires 0 <= i < |queries| => SearchUrl(key, queries[i], limit))
  }

  /** The reply each request receives: the n-th request, to `urls[n]`, gets `server(n, urls[n])`. */
  function Replies(server: (nat, string) -> Reply, urls: seq<string>): (rs: seq<Reply>)
    ensures |rs| == |urls|
    ensures forall i :: 0 <= i < |urls| ==> rs[i] == server(i, urls[i])
  {
    seq(|urls|, i requires 0 <= i < |urls| => server(i, urls[i]))
  }

  /** Every status-200 reply carries a dict body. */
  predicate Taggable(replies: seq<Reply>) {
    forall i :: 0 <= i < |replies| ==> replies[i].status == 200 ==> replies[i].body.Obj?
  }

  /** A reply's body tagged with its query (the body itself when it is not a dict and cannot be tagged). */
  function Tagged(reply: Reply, q: QueryValue): Value {
    if reply.body.Obj? then Tag(reply.body, q).value else reply.body
  }

  /** The responses kept: the status-200 bodies, each tagged with its query, in query order. */
  function Kept(queries: seq<QueryValue>, replies: seq<Reply>): (kept: seq<Value>)
    requires |queries| == |replies|
    ensures |kept| <= |queries|
    decreases |queries|
  {
    if |queries| == 0 then []
    else
      var n := |queries| - 1;
      Kept(queries[..n], replies[..n]) + (if replies[n].status == 200 then [Tagged(replies[n], queries[n])] else [])
  }

  /** The error-log records: one per reply whose status is not 200, in query order. */
  function ErrorLog(queries: seq<QueryValue>, replies: seq<Reply>): (log: seq<LogEntry>)
    requires |queries| == |replies|
    ensures |log| <= |queries|
    decreases |queries|
  {
    if |queries| == 0 then []
    else
      var n := |queries| - 1;
      ErrorLog(queries[..n], replies[..n]) + (if replies[n].status != 200 then [Failed(queries[n], replies[n])] else [])
  }

  /**
   `get_vessels`. An unknown field kind raises before any request is sent;
   otherwise the batch loop runs with the field's filter key.
   */
  method GetVessels(queries: seq<QueryValue>, limit: int, field: string, server: (nat, string) -> Reply)
    returns (run: Run)
    ensures FilterKey(field).Failure? ==> run == Run([], [], Failure(FilterKey(field).error))
    ensures FilterKey(field).Success? ==> run == BatchRun(FilterKey(field).value, queries, limit, server)
  {
    var checked := FilterKey(field);
    if checked.Failure? {
      return Run([], [], Failure(checked.error));
    }
    run := SearchAll(queries, Urls(checked.value, queries, limit), server);
  }

  /** A status-200 reply whose body is not a dict: `update` on it raises. */
  predicate Untaggable(reply: Reply) {
    reply.status == 200 && !reply.body.Obj?
  }

  /** How many replies come before the first one that cannot be tagged (all of them when none). */
  function TaggablePrefix(replies: seq<Reply>): (n: nat)
    ensures n <= |replies|
    ensures Taggable(replies[..n])
    ensures n < |replies| ==> Untaggable(replies[n])
    decreases |replies|
  {
    if |replies| == 0 then 0
    else if Untaggable(replies[0]) then 0
    else
      1 + TaggablePrefix(replies[1..])
  }

  /** The first untaggable reply is the one a taggable prefix runs into. */
  lemma PrefixEndsAt(replies: seq<Reply>, i: nat)
    requires i < |replies| && Taggable(replies[..i]) && Untaggable(replies[i])
    ensures TaggablePrefix(replies) == i
  {
    var n := TaggablePrefix(replies);
    assert forall k :: 0 <= k < i ==> replies[..i][k] == replies[k];
    assert forall k :: 0 <= k < n ==> replies[..n][k] == replies[k];
  }

  /** With no untaggable reply the prefix is the whole sequence. */
  lemma PrefixIsAll(replies: seq<Reply>)
    requires Taggable(replies)
    ensures TaggablePrefix(replies) == |replies|
  {
  }

  /**
   What the batch loop does, given the URLs it requests and the replies they
   get. Every query is requested in order; a reply other than 200 is logged
   and skipped, and the status-200 bodies, tagged with their query, are
   flattened. A status-200 body that is not a dict cannot be tagged and ends
   the call with an exception right after that request.
   */
  function RunOf(queries: seq<QueryValue>, urls: seq<string>, replies: seq<Reply>): (run: Run)
    requires |queries| == |urls| == |replies|
    ensures |run.requests| <= |urls| && run.requests == urls[..|run.requests|]
    ensures Taggable(replies) ==>
              run == Run(urls, ErrorLog(queries, replies), ParseVessels(Kept(queries, replies)))
    ensures !Taggable(replies) ==>
              && run.outcome == Failure(TypeError)
              && 0 < |run.requests|
              && Untaggable(replies[|run.requests| - 1])
              && Taggable(replies[..|run.requests| - 1])
  {
    var n := TaggablePrefix(replies);
    assert Taggable(replies) <==> n == |replies| by {
      if Taggable(replies) { PrefixIsAll(replies); }
      assert replies[..|replies|] == replies;
    }
    if n == |queries| then Run(urls, ErrorLog(queries, replies), ParseVessels(Kept(queries, replies)))
    else
      assert |urls[..n + 1]| - 1 == n;
      Run(urls[..n + 1], ErrorLog(queries[..n + 1], replies[..n + 1]), Failure(TypeError))
  }

  /** The batch for a valid filter key, with each request's reply taken from the server. */
  function BatchRun(key: string, queries: seq<QueryValue>, limit: int, server: (nat, string) -> Reply): (run: Run)
    ensures |run.requests| <= |queries|
    ensures run.requests == Urls(key, queries, limit)[..|run.requests|]
    ensures (forall i :: 0 <= i < |queries| ==> server(i, Urls(key, queries, limit)[i]).status != 200) ==>
              && run.requests == Urls(key, queries, limit)
              && |run.errors| == |queries|
              && run.outcome == Success(NoRows)
  {
    var urls := Urls(key, queries, limit);
    AllRefused(queries, urls, server);
    RunOf(queries, urls, Replies(server, urls))
  }

  /** When no request gets a 200 reply, every query is logged and nothing is flattened. */
  lemma AllRefused(queries: seq<QueryValue>, urls: seq<string>, server: (nat, string) -> Reply)
    requires |queries| == |urls|
    ensures (forall i :: 0 <= i < |urls| ==> server(i, urls[i]).status != 200) ==>
              && RunOf(queries, urls, Replies(server, urls)).requests == urls
              && |RunOf(queries, urls, Replies(server, urls)).errors| == |queries|
              && RunOf(queries, urls, Replies(server, urls)).outcome == Success(NoRows)
  {
    var replies := Replies(server, urls);
    if forall i :: 0 <= i < |urls| ==> server(i, urls[i]).status != 200 {
      assert forall i :: 0 <= i < |replies| ==> replies[i].status != 200;
      NoneKept(queries, replies);
    }
  }

  /** Replies none of which is a 200 keep nothing and log every query. */
  lemma {:induction false} NoneKept(queries: seq<QueryValue>, replies: seq<Reply>)
    requires |queries| == |replies|
    requires forall i :: 0 <= i < |replies| ==> replies[i].status != 200
    ensures Kept(queries, replies) == []
    ensures |ErrorLog(queries, replies)| == |queries|
    decreases |queries|
  {
    if |queries| > 0 {
      var n := |queries| - 1;
      assert forall i :: 0 <= i < n ==> replies[..n][i] == replies[i];
      NoneKept(queries[..n], replies[..n]);
    }
  }

  /** The batch stopped by the untaggable reply to request `i`. */
  lemma StoppedRun(queries: seq<QueryValue>, urls: seq<string>, replies: seq<Reply>, i: nat)
    requires |queries| == |urls| == |replies|
    requires i < |replies| && Taggable(replies[..i]) && Untaggable(replies[i])
    ensures RunOf(queries, urls, replies) == Run(urls[..i + 1], ErrorLog(queries[..i], replies[..i]), Failure(TypeError))
  {
    PrefixEndsAt(replies, i);
    BatchStep(queries, replies, i);
  }

  /** The loop of `get_vessels` over the query values, given the URL each one is searched with. */
  method SearchAll(queries: seq<QueryValue>, urls: seq<string>, server: (nat, string) -> Reply)
    returns (run: Run)
    requires |urls| == |queries|
    ensures run == RunOf(queries, urls, Replies(server, urls))
  {
    ghost var replies := Replies(server, urls);
    var requests: seq<string> := [];
    var errors: seq<LogEntry> := [];
    var results: seq<Value> := [];
    var i := 0;
    while i < |queries|
      invariant 0 <= i <= |queries|
      invariant Taggable(replies[..i])
      invariant requests == urls[..i]
      invariant results == Kept(queries[..i], replies[..i])
      invariant errors == ErrorLog(queries[..i], replies[..i])
    {
      var url := urls[i];
      var reply := server(i, url);
      assert reply == replies[i];
      requests := requests + [url];
      assert requests == urls[..i + 1];
      BatchStep(queries, replies, i);
      if reply.status == 200 {
        var tagged := Tag(reply.body, queries[i]);
        if tagged.Failure? {
          StoppedRun(queries, urls, replies, i);
          return Run(requests, errors, Failure(tagged.error));
        }
        results := results + [tagged.value];
      } else {
        errors := errors + [Failed(queries[i], reply)];
      }
      i := i + 1;
    }
    assert queries[..i] == queries && replies[..i] == replies && urls[..i] == urls;
    return Run(requests, errors, ParseVessels(results));
  }

  /** One turn of the batch loop extends the kept list, the error log and the well-formed prefix by one query. */
  lemma BatchStep(queries: seq<QueryValue>, replies: seq<Reply>, i: nat)
    requires |queries| == |replies| && i < |queries|
    ensures Kept(queries[..i + 1], replies[..i + 1])
            == Kept(queries[..i], replies[..i]) + (if replies[i].status == 200 then [Tagged(replies[i], queries[i])] else [])
    ensures ErrorLog(queries[..i + 1], replies[..i + 1])
            == ErrorLog(queries[..i], replies[..i]) + (if replies[i].status != 200 then [Failed(queries[i], replies[i])] else [])
    ensures Taggable(replies[..i]) && (replies[i].status == 200 ==> replies[i].body.Obj?) ==> Taggable(replies[..i + 1])
  {
    assert queries[..i + 1][..i] == queries[..i];
    assert replies[..i + 1][..i] == replies[..i];
    var pre := replies[..i + 1];
    if Taggable(replies[..i]) && (replies[i].status == 200 ==> replies[i].body.Obj?) {
      forall k | 0 <= k < |pre|
        ensures pre[k].status == 200 ==> pre[k].body.Obj?
      {
        if k < i {
          assert pre[k] == replies[..i][k];
        }
      }
    }
  }

  // ---------------------------------------------------------------------------
  // Properties of the batch filter

  /** The filter is order-preserving: running it on two batches in turn is running it on their concatenation. */
  lemma {:induction false} KeptAppend(qa: seq<QueryValue>, ra: seq<Reply>, qb: seq<QueryValue>, rb: seq<Reply>)
    requires |qa| == |ra| && |qb| == |rb|
    ensures Kept(qa + qb, ra + rb) == Kept(qa, ra) + Kept(qb, rb)
    decreases |qb|
  {
    if |qb| == 0 {
      assert qa + qb == qa && ra + rb == ra;
    } else {
      var n := |qb| - 1;
      var m := |qa| + n;
      assert (qa + qb)[..m] == qa + qb[..n];
      assert (ra + rb)[..m] == ra + rb[..n];
      assert (qa + qb)[m] == qb[n] && (ra + rb)[m] == rb[n];
      KeptAppend(qa, ra, qb[..n], rb[..n]);
      var last := if rb[n].status == 200 then [Tagged(rb[n], qb[n])] else [];
      calc {
        Kept(qa + qb, ra + rb);
        Kept(qa + qb[..n], ra + rb[..n]) + last;
        (Kept(qa, ra) + Kept(qb[..n], rb[..n])) + last;
        Kept(qa, ra) + (Kept(qb[..n], rb[..n]) + last);
      }
    }
  }

  /** The error log of two batches in turn is the error log of their concatenation. */
  lemma {:induction false} ErrorLogAppend(qa: seq<QueryValue>, ra: seq<Reply>, qb: seq<QueryValue>, rb: seq<Reply>)
    requires |qa| == |ra| && |qb| == |rb|
    ensures ErrorLog(qa + qb, ra + rb) == ErrorLog(qa, ra) + ErrorLog(qb, rb)
    decreases |qb|
  {
    if |qb| == 0 {
      assert qa + qb == qa && ra + rb == ra;
    } else {
      var n := |qb| - 1;
      var m := |qa| + n;
      assert (qa + qb)[..m] == qa + qb[..n];
      assert (ra + rb)[..m] == ra + rb[..n];
      assert (qa + qb)[m] == qb[n] && (ra + rb)[m] == rb[n];
      ErrorLogAppend(qa, ra, qb[..n], rb[..n]);
      var last := if rb[n].status != 200 then [Failed(qb[n], rb[n])] else [];
      calc {
        ErrorLog(qa + qb, ra + rb);
        ErrorLog(qa + qb[..n], ra + rb[..n]) + last;
        (ErrorLog(qa, ra) + ErrorLog(qb[..n], rb[..n])) + last;
        ErrorLog(qa, ra) + (ErrorLog(qb[..n], rb[..n]) + last);
      }
    }
  }

  /** A single query contributes its tagged body when its reply is 200, and an error-log line otherwise. */
  lemma KeptOne(q: QueryValue, reply: Reply)
    ensures Kept([q], [reply]) == (if reply.status == 200 then [Tagged(reply, q)] else [])
    ensures ErrorLog([q], [reply]) == (if reply.status == 200 then [] else [Failed(q, reply)])
  {
    assert [q][..0] == [] && [reply][..0] == [];
  }

  /** Every query lands in exactly one of the two outputs: kept, or logged. */
  lemma {:induction false} KeptOrLogged(queries: seq<QueryValue>, replies: seq<Reply>)
    requires |queries| == |replies|
    ensures |Kept(queries, replies)| + |ErrorLog(queries, replies)| == |queries|
    decreases |queries|
  {
    if |queries| > 0 {
      KeptOrLogged(queries[..|queries| - 1], replies[..|queries| - 1]);
    }
  }

  /** A kept response is exactly a status-200 body tagged with the query that produced it. */
  lemma {:induction false} KeptMembers(queries: seq<QueryValue>, replies: seq<Reply>, v: Value)
    requires |queries| == |replies|
    ensures v in Kept(queries, replies) <==>
              exists i :: 0 <= i < |queries| && replies[i].status == 200 && v == Tagged(replies[i], queries[i])
    decreases |queries|
  {
    if |queries| > 0 {
      var n := |queries| - 1;
      KeptMembers(queries[..n], replies[..n], v);
      if exists i :: 0 <= i < |queries| && replies[i].status == 200 && v == Tagged(replies[i], queries[i]) {
        var i :| 0 <= i < |queries| && replies[i].status == 200 && v == Tagged(replies[i], queries[i]);
        if i < n {
          assert queries[..n][i] == queries[i] && replies[..n][i] == replies[i];
        }
      }
      if v in Kept(queries[..n], replies[..n]) {
        var i :| 0 <= i < n && replies[..n][i].status == 200 && v == Tagged(replies[..n][i], queries[..n][i]);
        assert queries[..n][i] == queries[i] && replies[..n][i] == replies[i];
      }
    }
  }

  /** A tagged dict body carries its originating query under `query` and is otherwise unchanged. */
  lemma TaggedCarriesQuery(reply: Reply, q: QueryValue)
    requires reply.body.Obj?
    ensures Tagged(reply, q).Obj?
    ensures Tagged(reply, q).fields == reply.body.fields["query" := AsJson(q)]
  {
  }

  /**
   One search can return several entries (up to `limit`), and each entry
   yields a vessel row, so a single successful query can contribute more
   than one vessel.
   */
  lemma OneQueryTwoVessels()
    ensures var entry := Obj(map["registryInfo" := Arr([Str("v")]), "registryOwners" := Arr([])]);
            var body := Obj(map["entries" := Arr([entry, entry])]);
            ParseVessels([body]) == Success(Tables([Str("v"), Str("v")], []))
  {
    var entry := Obj(map["registryInfo" := Arr([Str("v")]), "registryOwners" := Arr([])]);
    assert ParseEntry(entry) == Success((Str("v"), []));
    TwoEntries(entry, Str("v"));
  }

  /** A response whose two entries each parse to a vessel without owners yields that vessel twice. */
  lemma TwoEntries(entry: Value, vessel: Value)
    requires ParseEntry(entry) == Success((vessel, []))
    ensures ParseVessels([Obj(map["entries" := Arr([entry, entry])])]) == Success(Tables([vessel, vessel], []))
  {
    var body := Obj(map["entries" := Arr([entry, entry])]);
    SingleEntry(entry);
    ParseEntriesAppend([entry], [entry]);
    var none: seq<Value> := [];
    assert [vessel] + [vessel] == [vessel, vessel] && none + none == none;
    assert [entry] + [entry] == [entry, entry];
    assert EntriesOf(body) == Success([entry, entry]);
    SingleResponse(body);
  }
}
