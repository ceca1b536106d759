/** `ImageClass`: the image (SIA) search. `query` normalises its inputs,
    hands one parameter record per coordinate and the per-item search to the
    query loop and wraps each result as an `ImageTable`;
    `_one_image_search` sends the request of one item; `get_column` checks
    its arguments before matching a column. */
module ImageQuery {

  import opened Wrappers
  import opened Values
  import opened QueryInput
  import opened ImageTables

  /** Seconds before one request times out, and attempts per request. */
  const Timeout: nat := 60
  const Retries: nat := 3

  /** What `query` returns for one query-loop result: the result as an
      `ImageTable`, or, when that conversion raises, an empty table that
      carries the result's metadata. */
  datatype ImageResult = AsImageTable(table: ResultTable) | EmptyWithMeta(meta: map<string, Value>)

  function WrapOne(result: ResultTable, converts: ResultTable -> bool): ImageResult {
    if converts(result) then AsImageTable(result) else EmptyWithMeta(result.meta)
  }

  /** The list the wrapping loop builds as written: a result that does not
      convert has its fallback table appended inside the `except` branch and
      again after it. */
  function WrappedAsWritten(results: seq<ResultTable>, converts: ResultTable -> bool): seq<ImageResult> {
    if results == [] then []
    else
      var last := results[|results| - 1];
      var front := WrappedAsWritten(results[..|results| - 1], converts);
      if converts(last) then front + [AsImageTable(last)]
      else front + [EmptyWithMeta(last.meta), EmptyWithMeta(last.meta)]
  }

  /** The number of results that do not convert. */
  function Failures(results: seq<ResultTable>, converts: ResultTable -> bool): nat {
    if results == [] then 0
    else Failures(results[..|results| - 1], converts) + (if converts(results[|results| - 1]) then 0 else 1)
  }

  /** The wrapping loop of `query` as written. */
  method WrapResultsAsWritten(results: seq<ResultTable>, converts: ResultTable -> bool) returns (tables: seq<ImageResult>)
    ensures tables == WrappedAsWritten(results, converts)
  {
    tables := [];
    var i := 0;
    while i < |results|
      invariant 0 <= i <= |results|
      invariant tables == WrappedAsWritten(results[..i], converts)
    {
      var result := results[i];
      assert results[..i + 1][..i] == results[..i];
      var table: ImageResult;
      if converts(result) {
        table := AsImageTable(result);
      } else {
        table := EmptyWithMeta(result.meta);
        tables := tables + [table];
      }
      tables := tables + [table];
      i := i + 1;
    }
    assert results[..i] == results;
  }

  /** As written, the output has one extra entry per failed conversion, so
      from the first failure on, entry i no longer belongs to result i. */
  lemma {:induction false} WrappedAsWrittenLength(results: seq<ResultTable>, converts: ResultTable -> bool)
    ensures |WrappedAsWritten(results, converts)| == |results| + Failures(results, converts)
  {
    if results != [] {
      WrappedAsWrittenLength(results[..|results| - 1], converts);
    }
  }

  /** A single result that does not convert yields two tables. */
  lemma OneFailureYieldsTwoTables(result: ResultTable, converts: ResultTable -> bool)
    requires !converts(result)
    ensures WrappedAsWritten([result], converts) == [EmptyWithMeta(result.meta), EmptyWithMeta(result.meta)]
  {
    assert [result][..0] == [];
  }

  /** The wrapping loop as intended: exactly one table per query-loop
      result, in the same order, the fallback appended once. */
  method WrapResults(results: seq<ResultTable>, converts: ResultTable -> bool) returns (tables: seq<ImageResult>)
    ensures |tables| == |results|
    ensures forall i :: 0 <= i < |results| ==>
              tables[i] == if converts(results[i]) then AsImageTable(results[i]) else EmptyWithMeta(results[i].meta)
  {
    tables := [];
    var i := 0;
    while i < |results|
      invariant 0 <= i <= |results|
      invariant |tables| == i
      invariant forall k :: 0 <= k < i ==> tables[k] == WrapOne(results[k], converts)
    {
      var result := results[i];
      var table: ImageResult;
      if converts(result) {
        table := AsImageTable(result);
      } else {
        table := EmptyWithMeta(result.meta);
      }
      tables := tables + [table];
      i := i + 1;
    }
  }

  /** When every result converts, both loops agree: one `ImageTable` per
      result, in order. */
  lemma {:induction false} AllConvertAgree(results: seq<ResultTable>, converts: ResultTable -> bool)
    requires forall i :: 0 <= i < |results| ==> converts(results[i])
    ensures WrappedAsWritten(results, converts) == seq(|results|, i requires 0 <= i < |results| => AsImageTable(results[i]))
  {
    if results != [] {
      var front := results[..|results| - 1];
      AllConvertAgree(front, converts);
    }
  }

  /** `_one_image_search`: the request of one item goes to `try_query`
      with this class's timeout and retry count; a coordinate that cannot
      be resolved raises before anything is sent. */
  function OneImageSearch(calls: SearchCalls, service: Value, params: SearchParams): (r: Result<ResultTable, Error>)
    ensures ResolveCoordinate(params.coords, calls.parse, calls.show).Err?
            ==> r == Err(ResolveCoordinate(params.coords, calls.parse, calls.show).error)
    ensures ResolveCoordinate(params.coords, calls.parse, calls.show).Ok?
            ==> r == calls.tryQuery(service, SearchRequest(params, calls.parse, calls.show, calls.posText, calls.sizeText).value,
                                    Timeout, Retries)
  {
    var request :- SearchRequest(params, calls.parse, calls.show, calls.posText, calls.sizeText);
    calls.tryQuery(service, request, Timeout, Retries)
  }

  /** `self._one_image_search`, the per-item search handed to the query loop. */
  function ImageSearch(calls: SearchCalls): (Value, SearchParams) -> Result<ResultTable, Error> {
    (service, params) => OneImageSearch(calls, service, params)
  }

  /** `query` as written: the normalised service and parameter list go to
      the query loop, together with the per-item search, only when every
      input check passes; otherwise the first failing check's exception is
      raised and no query is made. The results are then wrapped by the loop
      as written, so a result that does not convert contributes two
      fallback tables. */
  method Query(service: Value, coords: Value, radius: Value, format: Value,
               calls: SearchCalls, queryLoop: QueryLoop<SearchParams>,
               converts: ResultTable -> bool)
    returns (r: Result<seq<ImageResult>, Error>)
    ensures r.Err? <==> PrepareSearch(service, coords, radius, format).Err?
    ensures r.Err? ==> r.error == PrepareSearch(service, coords, radius, format).error
    ensures r.Ok? ==>
              var p := PrepareSearch(service, coords, radius, format).value;
              r.value == WrappedAsWritten(queryLoop(ImageSearch(calls), p.service, p.params), converts)
  {
    var prepared := PrepareSearch(service, coords, radius, format);
    if prepared.Err? {
      return Err(prepared.error);
    }
    var results := queryLoop(ImageSearch(calls), prepared.value.service, prepared.value.params);
    var tables := WrapResultsAsWritten(results, converts);
    r := Ok(tables);
  }

  /** `query` with the wrapping loop corrected: one table per query-loop
      result, in order, so results stay aligned with the coordinates. */
  method QueryCorrected(service: Value, coords: Value, radius: Value, format: Value,
                        calls: SearchCalls, queryLoop: QueryLoop<SearchParams>,
                        converts: ResultTable -> bool)
    returns (r: Result<seq<ImageResult>, Error>)
    ensures r.Err? <==> PrepareSearch(service, coords, radius, format).Err?
    ensures r.Err? ==> r.error == PrepareSearch(service, coords, radius, format).error
    ensures r.Ok? ==>
              var p := PrepareSearch(service, coords, radius, format).value;
              var results := queryLoop(ImageSearch(calls), p.service, p.params);
              && |r.value| == |results|
              && forall i :: 0 <= i < |results| ==> r.value[i] == WrapOne(results[i], converts)
  {
    var prepared := PrepareSearch(service, coords, radius, format);
    if prepared.Err? {
      return Err(prepared.error);
    }
    var results := queryLoop(ImageSearch(calls), prepared.value.service, prepared.value.params);
    var tables := WrapResults(results, converts);
    r := Ok(tables);
  }

  /** `get_column`: the mnemonic is checked first, then the table; the
      matcher is given the mnemonic's whole value record. */
  function GetColumn(table: TableArg, mnemonic: Item, find: Matcher): (r: Result<Option<Column>, Error>)
    ensures r.Err? <==> mnemonic.Named? || table.NotATableValue?
    ensures mnemonic.Named? ==> r == Err(NotAMnemonic)
    ensures mnemonic.Std? && table.NotATableValue? ==> r == Err(NotATable)
    ensures r.Ok? ==> r.value == find(table.table.columns, EnumValue(mnemonic.m))
  {
    if mnemonic.Named? then Err(NotAMnemonic)
    else if table.NotATableValue? then Err(NotATable)
    else Ok(find(table.table.columns, EnumValue(mnemonic.m)))
  }

  /** `get_column_name`: the name of the column `get_column` finds, or none. */
  function GetColumnName(table: TableArg, mnemonic: Item, find: Matcher): (r: Result<Option<string>, Error>)
    ensures r.Err? <==> GetColumn(table, mnemonic, find).Err?
    ensures r.Err? ==> r.error == GetColumn(table, mnemonic, find).error
    ensures r.Ok? ==> r.value == NameOf(GetColumn(table, mnemonic, find).value)
  {
    var col :- GetColumn(table, mnemonic, find);
    Ok(NameOf(col))
  }
}
