/** `ConeClass`: the cone search. `query` normalises its inputs, builds one
    parameter record per coordinate and returns the query loop's results
    unchanged; `_one_cone_search`, handed to the query loop, sends the
    RA/DEC/SR request of one item. */
module ConeQuery {

  import opened Wrappers
  import opened Values
  import opened QueryInput

  /** Seconds before one request times out, and attempts per request. */
  const Timeout: nat := 60
  const Retries: nat := 3

  /** The per-coordinate parameter record `{'coords', 'radius'}`. */
  datatype ConeParams = ConeParams(coords: Value, radius: Value)

  function ConeFanOut(coords: seq<Value>, radii: seq<Value>): (params: seq<ConeParams>)
    requires |radii| == |coords|
    ensures |params| == |coords|
    ensures forall i :: 0 <= i < |coords| ==> params[i] == ConeParams(coords[i], radii[i])
  {
    seq(|coords|, i requires 0 <= i < |coords| => ConeParams(coords[i], radii[i]))
  }

  /** The input checks of `query` as written: a list radius reads `inradius`
      before anything has been assigned to it, so it always raises
      UnboundLocalError, whatever its length. */
  function PrepareAsWritten(service: Value, coords: Value, radius: Value): (r: Result<Prepared<ConeParams>, Error>)
    ensures !(coords.Str? || coords.Sky? || coords.List?) ==> r == Err(CoordsNotList)
    ensures r.Ok? ==> !radius.List?
    ensures !radius.List? ==> r == Prepare(service, coords, radius)
    ensures NormalizeCoords(coords).Ok? && radius.List? ==> r == Err(UnboundLocal("inradius"))
  {
    var cs :- NormalizeCoords(coords);
    var rs :- if radius.List? then Err(UnboundLocal("inradius")) else ExpandRadius(radius, |cs|);
    Ok(Prepared(NormalizeService(service), ConeFanOut(cs, rs)))
  }

  /** Even a one-element radius list for one coordinate fails. */
  lemma ListRadiusAlwaysFails(service: Value, coords: Value, radii: seq<Value>)
    requires coords.Str? || coords.Sky? || coords.List?
    ensures PrepareAsWritten(service, coords, List(radii)) == Err(UnboundLocal("inradius"))
  {
  }

  lemma MatchingRadiusListRejectedAsWritten()
    ensures PrepareAsWritten(Str("http://example"), Str("10.0 20.0"), List([Str("0.1")])).Err?
  {
  }

  /** The input checks as intended, and as the image and spectral searches
      have them: a list of radii is accepted when it has one radius per
      coordinate, otherwise the assertion fails. */
  function Prepare(service: Value, coords: Value, radius: Value): (r: Result<Prepared<ConeParams>, Error>)
    ensures !(coords.Str? || coords.Sky? || coords.List?) ==> r == Err(CoordsNotList)
    ensures r.Ok? <==> NormalizeCoords(coords).Ok? && ExpandRadius(radius, |NormalizeCoords(coords).value|).Ok?
    ensures NormalizeCoords(coords).Ok? && radius.List? && |radius.items| != |NormalizeCoords(coords).value|
            ==> r == Err(RadiusLengthMismatch)
    ensures r.Ok? ==> r.value.service == NormalizeService(service)
    ensures r.Ok? ==>
              var cs := NormalizeCoords(coords).value;
              var ps := r.value.params;
              && |ps| == |cs|
              && forall i :: 0 <= i < |ps| ==>
                   && ps[i].coords == cs[i]
                   && ps[i].radius == (if radius.List? then radius.items[i] else radius)
  {
    var cs :- NormalizeCoords(coords);
    var rs :- ExpandRadius(radius, |cs|);
    Ok(Prepared(NormalizeService(service), ConeFanOut(cs, rs)))
  }

  /** Where the written checks accept the input, the intended ones accept it
      too and build the same records. */
  lemma PrepareExtendsAsWritten(service: Value, coords: Value, radius: Value)
    requires PrepareAsWritten(service, coords, radius).Ok?
    ensures Prepare(service, coords, radius) == PrepareAsWritten(service, coords, radius)
  {
  }

  /** The request parameters of one cone search: exactly RA and DEC of the
      resolved position, in degrees, and SR, the radius as given. */
  function ConeRequest(params: ConeParams, parse: string -> Option<SkyCoord>, show: Value -> string)
    : (r: Result<map<string, Value>, Error>)
    ensures r.Ok? <==> ResolveCoordinate(params.coords, parse, show).Ok?
    ensures r.Err? ==> r.error == ResolveCoordinate(params.coords, parse, show).error
    ensures r.Ok? ==> r.value.Keys == {"RA", "DEC", "SR"}
    ensures r.Ok? ==> r.value["SR"] == params.radius
    ensures r.Ok? ==>
              var c := ResolveCoordinate(params.coords, parse, show).value;
              r.value["RA"] == Num(c.raDeg) && r.value["DEC"] == Num(c.decDeg)
  {
    var c :- ResolveCoordinate(params.coords, parse, show);
    Ok(map["RA" := Num(c.raDeg), "DEC" := Num(c.decDeg), "SR" := params.radius])
  }

  /** `_one_cone_search`: the request of one item goes to `try_query` with
      this class's timeout and retry count; a coordinate that cannot be
      resolved raises before anything is sent. */
  function OneConeSearch(calls: SearchCalls, service: Value, params: ConeParams): (r: Result<ResultTable, Error>)
    ensures ResolveCoordinate(params.coords, calls.parse, calls.show).Err?
            ==> r == Err(ResolveCoordinate(params.coords, calls.parse, calls.show).error)
    ensures ResolveCoordinate(params.coords, calls.parse, calls.show).Ok?
            ==> r == calls.tryQuery(service, ConeRequest(params, calls.parse, calls.show).value, Timeout, Retries)
  {
    var request :- ConeRequest(params, calls.parse, calls.show);
    calls.tryQuery(service, request, Timeout, Retries)
  }

  /** `self._one_cone_search`, the per-item search handed to the query loop. */
  function ConeSearch(calls: SearchCalls): (Value, ConeParams) -> Result<ResultTable, Error> {
    (service, params) => OneConeSearch(calls, service, params)
  }

  /** `query` as written: when the written input checks pass, the query
      loop runs, given the per-item search, and its results are returned
      unchanged; otherwise the first failing check's exception, with no
      query. A list of radii therefore always raises. */
  function Query(service: Value, coords: Value, radius: Value,
                 calls: SearchCalls, queryLoop: QueryLoop<ConeParams>)
    : (r: Result<seq<ResultTable>, Error>)
    ensures r.Err? <==> PrepareAsWritten(service, coords, radius).Err?
    ensures r.Err? ==> r.error == PrepareAsWritten(service, coords, radius).error
    ensures r.Ok? ==> r.value == queryLoop(ConeSearch(calls),
                                           PrepareAsWritten(service, coords, radius).value.service,
                                           PrepareAsWritten(service, coords, radius).value.params)
  {
    var p :- PrepareAsWritten(service, coords, radius);
    Ok(queryLoop(ConeSearch(calls), p.service, p.params))
  }

  /** `query` with the radius checks corrected: a list of one radius per
      coordinate reaches the query loop. */
  function QueryCorrected(service: Value, coords: Value, radius: Value,
                          calls: SearchCalls, queryLoop: QueryLoop<ConeParams>)
    : (r: Result<seq<ResultTable>, Error>)
    ensures r.Err? <==> Prepare(service, coords, radius).Err?
    ensures r.Err? ==> r.error == Prepare(service, coords, radius).error
    ensures r.Ok? ==> r.value == queryLoop(ConeSearch(calls),
                                           Prepare(service, coords, radius).value.service,
                                           Prepare(service, coords, radius).value.params)
  {
    var p :- Prepare(service, coords, radius);
    Ok(queryLoop(ConeSearch(calls), p.service, p.params))
  }

  /** The two queries differ only on lists of radii: a list of matching
      length is rejected as written and queried once corrected. */
  lemma QueriesDifferOnlyOnRadiusLists(service: Value, coords: Value, radius: Value,
                                       calls: SearchCalls, queryLoop: QueryLoop<ConeParams>)
    ensures !radius.List? ==> Query(service, coords, radius, calls, queryLoop)
                              == QueryCorrected(service, coords, radius, calls, queryLoop)
    ensures NormalizeCoords(coords).Ok? && radius.List? && |radius.items| == |NormalizeCoords(coords).value|
            ==> Query(service, coords, radius, calls, queryLoop).Err?
                && QueryCorrected(service, coords, radius, calls, queryLoop).Ok?
  {
  }
}
