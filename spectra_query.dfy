/** `SpectraClass`: the spectral (SSA) search. `query` normalises its inputs
    exactly as the image search does, hands one parameter record per
    coordinate and the per-item search to the query loop and wraps every
    result as a `SpectraTable`, with no fallback; `_one_image_search` sends
    the request of one item. */
module SpectraQuery {

  import opened Wrappers
  import opened Values
  import opened QueryInput
  import opened SpectraTables

  /** Seconds before one request times out, and attempts per request. */
  const Timeout: nat := 60
  const Retries: nat := 3

  /** A query-loop result wrapped as a `SpectraTable`. */
  datatype SpectraResult = AsSpectraTable(table: ResultTable)

  /** The wrapping loop: each result becomes a `SpectraTable`; a conversion
      that raises ends the loop and the exception leaves `query`. */
  method WrapResults(results: seq<ResultTable>, converts: ResultTable -> bool)
    returns (r: Result<seq<SpectraResult>, Error>)
    ensures r.Ok? <==> forall i :: 0 <= i < |results| ==> converts(results[i])
    ensures r.Err? ==> r.error == ConversionFailed
    ensures r.Ok? ==> |r.value| == |results|
                      && forall i :: 0 <= i < |results| ==> r.value[i] == AsSpectraTable(results[i])
  {
    var tables: seq<SpectraResult> := [];
    var i := 0;
    while i < |results|
      invariant 0 <= i <= |results|
      invariant forall k :: 0 <= k < i ==> converts(results[k])
      invariant |tables| == i
      invariant forall k :: 0 <= k < i ==> tables[k] == AsSpectraTable(results[k])
    {
      if !converts(results[i]) {
        return Err(ConversionFailed);
      }
      tables := tables + [AsSpectraTable(results[i])];
      i := i + 1;
    }
    r := Ok(tables);
  }

  /** `_one_image_search` of the spectral class: the request of one item
      goes to `try_query` with this class's timeout and retry count; a
      coordinate that cannot be resolved raises before anything is sent. */
  function OneImageSearch(calls: SearchCalls, service: Value, params: SearchParams): (r: Result<ResultTable, Error>)
    ensures ResolveCoordinate(params.coords, calls.parse, calls.show).Err?
            ==> r == Err(ResolveCoordinate(params.coords, calls.parse, calls.show).error)
    ensures ResolveCoordinate(params.coords, calls.parse, calls.show).Ok?
            ==> r == calls.tryQuery(service, SearchRequest(params, calls.parse, calls.show, calls.posText, calls.sizeText).value,
                                    Timeout, Retries)
  {
    var request :- SearchRequest(params, calls.parse, calls.show, calls.posText, calls.sizeText);
    calls.tryQuery(service, request, Timeout, Retries)
  }

  /** `self._one_image_search`, the per-item search handed to the query loop. */
  function SpectraSearch(calls: SearchCalls): (Value, SearchParams) -> Result<ResultTable, Error> {
    (service, params) => OneImageSearch(calls, service, params)
  }

  /** `query`: the same checks, in the same order, as the image search; the
      query loop, given the per-item search, runs only when they all pass;
      its results are wrapped one for one, in order. */
  method Query(service: Value, coords: Value, radius: Value, format: Value,
               calls: SearchCalls, queryLoop: QueryLoop<SearchParams>,
               converts: ResultTable -> bool)
    returns (r: Result<seq<SpectraResult>, Error>)
    ensures PrepareSearch(service, coords, radius, format).Err?
            ==> r == Err(PrepareSearch(service, coords, radius, format).error)
    ensures PrepareSearch(service, coords, radius, format).Ok? ==>
              var p := PrepareSearch(service, coords, radius, format).value;
              var results := queryLoop(SpectraSearch(calls), p.service, p.params);
              && (r.Ok? <==> forall i :: 0 <= i < |results| ==> converts(results[i]))
              && (r.Err? ==> r.error == ConversionFailed)
              && (r.Ok? ==> |r.value| == |results|
                            && forall i :: 0 <= i < |results| ==> r.value[i] == AsSpectraTable(results[i]))
  {
    var prepared := PrepareSearch(service, coords, radius, format);
    if prepared.Err? {
      return Err(prepared.error);
    }
    var results := queryLoop(SpectraSearch(calls), prepared.value.service, prepared.value.params);
    r := WrapResults(results, converts);
  }

  /** `get_column`: the mnemonic is checked first, then the table; the
      matcher is given the mnemonic's whole value record. */
  function GetColumn(table: TableArg, mnemonic: Item, find: Matcher): (r: Result<Option<Column>, Error>)
    ensures r.Err? <==> mnemonic.Named? || table.NotATableValue?
    ensures mnemonic.Named? ==> r == Err(NotAMnemonic)
    ensures mnemonic.Std? && table.NotATableValue? ==> r == Err(NotATable)
    ensures r.Ok? ==> r.value == find(table.table.columns, EnumValue(mnemonic.m))
  {
    if mnemonic.Named? then Err(NotAMnemonic)
    else if table.NotATableValue? then Err(NotATable)
    else Ok(find(table.table.columns, EnumValue(mnemonic.m)))
  }

  /** `get_column_name`: the name of the column `get_column` finds, or none. */
  function GetColumnName(table: TableArg, mnemonic: Item, find: Matcher): (r: Result<Option<string>, Error>)
    ensures r.Err? <==> GetColumn(table, mnemonic, find).Err?
    ensures r.Err? ==> r.error == GetColumn(table, mnemonic, find).error
    ensures r.Ok? ==> r.value == NameOf(GetColumn(table, mnemonic, find).value)
  {
    var col :- GetColumn(table, mnemonic, find);
    Ok(NameOf(col))
  }
}
