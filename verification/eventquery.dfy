/**
 Request construction of the two event clients: `get_events` (one vessel,
 a GET whose query string names the vessel, dataset and date range) and
 `get_events_by_geometry` (a POST whose JSON body names the dataset, dates,
 vessel types and optional flag, region or geometry filters). Both map the
 caller's event-type keyword to a dataset identifier with the same rule.
 */
module EventQuery {
  import opened Wrappers
  import opened Json
  import opened Text
  import opened QueryString

  const Endpoint := "https://gateway.api.globalfishingwatch.org/v3/events?"

  const EncountersDataset := "public-global-encounters-events:latest"
  const FishingDataset := "public-global-fishing-events:latest"
  const LoiteringDataset := "public-global-loitering-events:latest"
  const PortVisitsDataset := "public-global-port-visits-c2-events:latest"
  const GapsDataset := "public-global-gaps-events:latest"

  /** The AIS-gap dataset with the extra parameter restricting it to intentional disabling. */
  const IntentionalGapsDataset := GapsDataset + "&" + Arg("gap-intentional-disabling", "True")

  const EventTypeMessage :=
    "Event type must be \"encounter\", \"fishing\", \"loitering\", \"port_visits\" or \"ais\" not "

  /** The five keywords the event clients accept. */
  predicate IsEventType(eventType: string) {
    eventType == "encounter" || eventType == "fishing" || eventType == "loitering"
    || eventType == "port_visits" || eventType == "ais"
  }

  /**
   The dataset identifier of an event-type keyword. Four keywords name their
   dataset; `ais` names the gaps dataset followed by the intentional-disabling
   parameter; anything else raises before a request is built.
   */
  function EventDataset(eventType: string): (r: Result<string, Error>)
    ensures r == Success(EncountersDataset) <==> eventType == "encounter"
    ensures r == Success(FishingDataset) <==> eventType == "fishing"
    ensures r == Success(LoiteringDataset) <==> eventType == "loitering"
    ensures r == Success(PortVisitsDataset) <==> eventType == "port_visits"
    ensures r == Success(IntentionalGapsDataset) <==> eventType == "ais"
    ensures r.Failure? <==> !IsEventType(eventType)
    ensures r.Failure? ==> r.error == ValueError(EventTypeMessage + eventType)
  {
    if eventType == "encounter" then Success(EncountersDataset)
    else if eventType == "fishing" then Success(FishingDataset)
    else if eventType == "loitering" then Success(LoiteringDataset)
    else if eventType == "port_visits" then Success(PortVisitsDataset)
    else if eventType == "ais" then Success(IntentionalGapsDataset)
    else Failure(ValueError(EventTypeMessage + eventType))
  }

  /** The keyword a dataset identifier was selected by. */
  function EventTypeOf(dataset: string): Option<string> {
    if dataset == EncountersDataset then Some("encounter")
    else if dataset == FishingDataset then Some("fishing")
    else if dataset == LoiteringDataset then Some("loitering")
    else if dataset == PortVisitsDataset then Some("port_visits")
    else if dataset == IntentionalGapsDataset then Some("ais")
    else None
  }

  /** The keyword-to-dataset mapping is one-to-one: each dataset identifier gives back its keyword, and only it. */
  lemma EventDatasetInverse(eventType: string, dataset: string)
    ensures EventDataset(eventType) == Success(dataset) <==> EventTypeOf(dataset) == Some(eventType)
  {
  }

  // ---------------------------------------------------------------------------
  // get_events

  /**
   The query string of a single-vessel events request, written out parameter
   by parameter. When no interpolated value contains `&` it reads back as its
   six parameters in order.
   */
  function EventsQuery(vesselId: string, dataset: string, startDate: string, endDate: string): (query: string)
    ensures '&' !in vesselId && '&' !in dataset && '&' !in startDate && '&' !in endDate ==>
              ParseQuery(query)
              == [("vessels[0]", vesselId), ("datasets[0]", dataset),
                  ("start-date", startDate), ("end-date", endDate), ("limit", "99999"), ("offset", "0")]
  {
    var query := Arg("vessels[0]", vesselId)
      + "&" + Arg("datasets[0]", dataset)
      + "&" + Arg("start-date", startDate)
      + "&" + Arg("end-date", endDate)
      + "&" + Arg("limit", "99999")
      + "&" + Arg("offset", "0");
    assert '&' !in vesselId && '&' !in dataset && '&' !in startDate && '&' !in endDate ==>
             ParseQuery(query)
             == [("vessels[0]", vesselId), ("datasets[0]", dataset),
                 ("start-date", startDate), ("end-date", endDate), ("limit", "99999"), ("offset", "0")] by {
      if '&' !in vesselId && '&' !in dataset && '&' !in startDate && '&' !in endDate {
        ParseSix("vessels[0]", vesselId, "datasets[0]", dataset, "start-date", startDate, "end-date", endDate,
                 "limit", "99999", "offset", "0");
      }
    }
    query
  }

  /** The URL `get_events` requests, or the error it raises for an unknown keyword. */
  function EventsRequest(vesselId: string, eventType: string, startDate: string, endDate: string): (r: Result<string, Error>)
    ensures r.Failure? <==> !IsEventType(eventType)
    ensures r.Failure? ==> r.error == ValueError(EventTypeMessage + eventType)
    ensures r.Success? ==> r.value == Endpoint + EventsQuery(vesselId, EventDataset(eventType).value, startDate, endDate)
  {
    var dataset :- EventDataset(eventType);
    Success(Endpoint + EventsQuery(vesselId, dataset, startDate, endDate))
  }

  /** The parameters a dataset id contributes to a query string: itself, or for `ais` the id and the extra filter. */
  function DatasetParams(dataset: string): seq<Param> {
    if dataset == IntentionalGapsDataset then [("datasets[0]", GapsDataset), ("gap-intentional-disabling", "True")]
    else [("datasets[0]", dataset)]
  }

  /** Every dataset id but the `ais` one is free of `&`. */
  lemma DatasetShape(eventType: string)
    requires IsEventType(eventType)
    ensures EventDataset(eventType).value == IntentionalGapsDataset || '&' !in EventDataset(eventType).value
  {
    EncountersPlain();
    FishingPlain();
    LoiteringPlain();
    PortVisitsPlain();
  }

  lemma EncountersPlain() ensures '&' !in EncountersDataset {}
  lemma FishingPlain() ensures '&' !in FishingDataset {}
  lemma LoiteringPlain() ensures '&' !in LoiteringDataset {}
  lemma PortVisitsPlain() ensures '&' !in PortVisitsDataset {}

  /**
   What a plain reading of a single-vessel events query gives: the vessel, the
   dataset, for `ais` the separate `gap-intentional-disabling=True`
   parameter, the two dates, and the fixed page of 99999 results from offset 0.
   */
  lemma EventsQueryParams(vesselId: string, eventType: string, startDate: string, endDate: string)
    requires IsEventType(eventType)
    requires '&' !in vesselId && '&' !in startDate && '&' !in endDate
    ensures var dataset := EventDataset(eventType).value;
            ParseQuery(EventsQuery(vesselId, dataset, startDate, endDate))
            == [("vessels[0]", vesselId)] + DatasetParams(dataset)
               + [("start-date", startDate), ("end-date", endDate), ("limit", "99999"), ("offset", "0")]
  {
    var dataset := EventDataset(eventType).value;
    DatasetShape(eventType);
    if dataset == IntentionalGapsDataset {
      AisQuery(vesselId, startDate, endDate);
    }
  }

  /** The `ais` case: the intentional-disabling text reads as a parameter of its own. */
  lemma AisQuery(vesselId: string, startDate: string, endDate: string)
    requires '&' !in vesselId && '&' !in startDate && '&' !in endDate
    ensures ParseQuery(EventsQuery(vesselId, IntentionalGapsDataset, startDate, endDate))
            == [("vessels[0]", vesselId), ("datasets[0]", GapsDataset), ("gap-intentional-disabling", "True"),
                ("start-date", startDate), ("end-date", endDate), ("limit", "99999"), ("offset", "0")]
  {
    assert '&' !in GapsDataset;
    AmpersandInValue(Arg("vessels[0]", vesselId), "datasets[0]", GapsDataset, Arg("gap-intentional-disabling", "True"));
    ParseSeven("vessels[0]", vesselId, "datasets[0]", GapsDataset, "gap-intentional-disabling", "True",
               "start-date", startDate, "end-date", endDate, "limit", "99999", "offset", "0");
  }

  /** An `&` inside a formatted value ends that parameter: the text after it is a piece of its own. */
  lemma AmpersandInValue(prefix: string, key: string, value: string, rest: string)
    ensures prefix + "&" + Arg(key, value + "&" + rest) == prefix + "&" + Arg(key, value) + "&" + rest
  {
  }

  // ---------------------------------------------------------------------------
  // get_events_by_geometry

  /** The vessel-type categories every geometry/region request asks for, always all ten. */
  const VesselTypes: seq<string> :=
    ["BUNKER", "CARGO", "DISCREPANCY", "CARRIER", "FISHING", "GEAR", "OTHER", "PASSENGER", "SEISMIC_VESSEL", "SUPPORT"]

  const EezDataset := "public-eez-areas"

  /** The query string of a geometry/region request. */
  const GeometryQuery := Arg("limit", "99999") + "&" + Arg("offset", "0")

  /** The keys every geometry/region body has. */
  const BaseKeys: set<string> := {"datasets", "startDate", "endDate", "vesselTypes"}

  /**
   The JSON body of a geometry/region request. `region` and `geometry` are
   `Null` when not given (Python `None`); a given `region` is attached and any
   geometry then left out; `flag`, when given, travels as one comma-joined string.
   */
  function GeometryBody(dataset: string, startDate: string, endDate: string,
                        flag: Option<seq<string>>, geometry: Value, region: Value): (body: Value)
    ensures body.Obj?
    ensures body.fields.Keys == BaseKeys + (if flag.Some? then {"flags"} else {})
                                + (if region != Null then {"region"} else if geometry != Null then {"geometry"} else {})
    ensures "datasets" in body.fields && body.fields["datasets"] == Arr([Str(dataset)])
    ensures "startDate" in body.fields && body.fields["startDate"] == Str(startDate)
    ensures "endDate" in body.fields && body.fields["endDate"] == Str(endDate)
    ensures "vesselTypes" in body.fields && body.fields["vesselTypes"].Arr?
    ensures |body.fields["vesselTypes"].items| == |VesselTypes|
    ensures forall i :: 0 <= i < |VesselTypes| ==> body.fields["vesselTypes"].items[i] == Str(VesselTypes[i])
    ensures flag.Some? ==> body.fields["flags"] == Arr([Str(Join(flag.value, ','))])
    ensures region != Null ==> body.fields["region"] == Obj(map["id" := region, "dataset" := Str(EezDataset)])
    ensures region != Null ==> "geometry" !in body.fields
    ensures region == Null && geometry != Null ==> body.fields["geometry"] == geometry
  {
    var base := map[
      "datasets" := Arr([Str(dataset)]),
      "startDate" := Str(startDate),
      "endDate" := Str(endDate),
      "vesselTypes" := Arr(seq(|VesselTypes|, i requires 0 <= i < |VesselTypes| => Str(VesselTypes[i])))
    ];
    var withFlags := if flag.Some? then base["flags" := Arr([Str(Join(flag.value, ','))])] else base;
    var withArea :=
      if region != Null then withFlags["region" := Obj(map["id" := region, "dataset" := Str(EezDataset)])]
      else if geometry != Null then withFlags["geometry" := geometry]
      else withFlags;
    Obj(withArea)
  }

  /** The URL and body `get_events_by_geometry` posts, or the error it raises for an unknown keyword. */
  function GeometryRequest(startDate: string, endDate: string, eventType: string,
                           flag: Option<seq<string>>, geometry: Value, region: Value): (r: Result<(string, Value), Error>)
    ensures r.Failure? <==> !IsEventType(eventType)
    ensures r.Failure? ==> r.error == ValueError(EventTypeMessage + eventType)
    ensures r.Success? ==> r.value.0 == Endpoint + GeometryQuery
    ensures r.Success? ==>
              r.value.1 == GeometryBody(EventDataset(eventType).value, startDate, endDate, flag, geometry, region)
  {
    var dataset :- EventDataset(eventType);
    Success((Endpoint + GeometryQuery, GeometryBody(dataset, startDate, endDate, flag, geometry, region)))
  }

  /**
   Both event clients apply the same keyword rule: they reject the same
   keywords with the same error, and on success the single-vessel URL and
   the geometry body both name the dataset the keyword maps to.
   */
  lemma SameDatasetRule(vesselId: string, eventType: string, startDate: string, endDate: string,
                        flag: Option<seq<string>>, geometry: Value, region: Value)
    ensures EventsRequest(vesselId, eventType, startDate, endDate).Failure?
            <==> GeometryRequest(startDate, endDate, eventType, flag, geometry, region).Failure?
    ensures EventsRequest(vesselId, eventType, startDate, endDate).Failure? ==>
              EventsRequest(vesselId, eventType, startDate, endDate).error
              == GeometryRequest(startDate, endDate, eventType, flag, geometry, region).error
    ensures EventsRequest(vesselId, eventType, startDate, endDate).Success? ==>
              && EventsRequest(vesselId, eventType, startDate, endDate).value
                 == Endpoint + EventsQuery(vesselId, EventDataset(eventType).value, startDate, endDate)
              && GeometryRequest(startDate, endDate, eventType, flag, geometry, region).value.1.fields["datasets"]
                 == Arr([Str(EventDataset(eventType).value)])
  {
  }

  /** The geometry request's query string asks for one page of 99999 results from offset 0. */
  lemma GeometryQueryParams()
    ensures ParseQuery(GeometryQuery) == [("limit", "99999"), ("offset", "0")]
  {
    ParseQueryOne("limit", "99999");
    ParseQuerySnoc(Arg("limit", "99999"), "offset", "0");
  }

  /** The ten vessel types are distinct. */
  /**
   The comma-joined flag string splits back into the caller's flag list,
   provided the list is non-empty and no flag contains a comma.
   */
  lemma FlagsRecoverable(dataset: string, startDate: string, endDate: string,
                         flags: seq<string>, geometry: Value, region: Value)
    requires |flags| > 0
    requires forall i :: 0 <= i < |flags| ==> ',' !in flags[i]
    ensures var body := GeometryBody(dataset, startDate, endDate, Some(flags), geometry, region);
            Split(body.fields["flags"].items[0].s, ',') == flags
  {
    SplitJoin(flags, ',');
  }

  /**
   An empty flag list is not `None`: the body then carries a `flags` list
   holding the empty string.
   */
  lemma EmptyFlagList(dataset: string, startDate: string, endDate: string, geometry: Value, region: Value)
    ensures GeometryBody(dataset, startDate, endDate, Some([]), geometry, region).fields["flags"] == Arr([Str("")])
  {
  }

  /**
   For `ais` the geometry body's dataset list holds the whole identifier
   including the `&gap-intentional-disabling=True` text: in a JSON body the
   suffix is part of the dataset name, not a separate parameter.
   */
  lemma GeometryAisDataset(startDate: string, endDate: string, flag: Option<seq<string>>, geometry: Value, region: Value)
    ensures GeometryRequest(startDate, endDate, "ais", flag, geometry, region).value.1.fields["datasets"]
            == Arr([Str(IntentionalGapsDataset)])
    ensures IntentionalGapsDataset[..|GapsDataset|] == GapsDataset
    ensures IntentionalGapsDataset[|GapsDataset|] == '&'
  {
  }
}
