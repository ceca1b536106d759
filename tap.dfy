/** `TapClass`: synchronous ADQL queries against a TAP service, with an
    optional uploaded table, and the two listing helpers built on it. The
    HTTP requests, the VOTable conversion and the remote table loader are
    parameters. */
module Tap {

  import opened Wrappers
  import opened Values
  import opened Text
  import opened QueryInput

  /** Seconds before the request times out, and total attempts. */
  const Timeout: nat := 60
  const Retries: nat := 2

  const SyncSuffix: string := "/sync?"
  const UploadParam: string := ",param:uplt"

  /** `service['access_url']` after a string service has been wrapped:
      a missing key raises KeyError; anything that is not a record of
      strings cannot be indexed by a string or joined to one (TypeError). */
  function AccessUrl(service: Value): (r: Result<string, Error>)
    ensures service.Str? ==> r == Ok(service.s)
    ensures r.Ok? ==> (service.Str? && service.s == r.value)
                      || (service.Dict? && "access_url" in service.entries
                          && service.entries["access_url"] == Str(r.value))
    ensures service.Dict? && "access_url" !in service.entries ==> r == Err(KeyError("access_url"))
    ensures service.Dict? && "access_url" in service.entries && service.entries["access_url"].Str?
            ==> r == Ok(service.entries["access_url"].s)
    ensures service.Dict? && "access_url" in service.entries && !service.entries["access_url"].Str?
            ==> r == Err(TypeError)
    ensures !service.Str? && !service.Dict? ==> r == Err(TypeError)
  {
    var svc := NormalizeService(service);
    if !svc.Dict? then Err(TypeError)
    else if "access_url" !in svc.entries then Err(KeyError("access_url"))
    else if !svc.entries["access_url"].Str? then Err(TypeError)
    else Ok(svc.entries["access_url"].s)
  }

  /** The request URL: the access URL followed by `/sync?`. */
  function SyncUrl(service: Value): (r: Result<string, Error>)
    ensures r.Ok? <==> AccessUrl(service).Ok?
    ensures r.Err? ==> r.error == AccessUrl(service).error
    ensures r.Ok? ==> r.value == AccessUrl(service).value + SyncSuffix
  {
    var u :- AccessUrl(service);
    Ok(u + SyncSuffix)
  }

  /** The synchronous request parameters: exactly doQuery, ADQL and the query. */
  function SyncParams(query: string): (p: map<string, string>)
    ensures p.Keys == {"request", "lang", "query"}
    ensures p["request"] == "doQuery" && p["lang"] == "ADQL" && p["query"] == query
  {
    map["request" := "doQuery", "lang" := "ADQL", "query" := query]
  }

  /** The parameters sent with an uploaded table. */
  function UploadParams(query: string, uploadName: string): (p: map<string, string>)
    ensures p.Keys == {"request", "lang", "query", "upload"}
    ensures p["upload"] == uploadName + UploadParam
  {
    map["lang" := "ADQL", "request" := "doQuery", "upload" := uploadName + UploadParam]["query" := query]
  }

  /** The upload parameters are the synchronous ones plus the `upload`
      entry naming the table; removing it gives them back. */
  lemma UploadParamsExtendSyncParams(query: string, uploadName: string)
    ensures UploadParams(query, uploadName) == SyncParams(query)["upload" := uploadName + UploadParam]
    ensures UploadParams(query, uploadName) - {"upload"} == SyncParams(query)
  {
    var u := UploadParams(query, uploadName);
    var s := SyncParams(query);
    assert u.Keys == s["upload" := uploadName + UploadParam].Keys;
    assert (u - {"upload"}).Keys == s.Keys;
  }

  /** What `upload_file` may be: a path, an in-memory buffer, or anything else. */
  datatype UploadSource = Path(path: string) | Buffer(bytes: seq<bv8>) | OtherObject

  /** The two requests `query` can issue. */
  datatype TapRequest =
    | RetriedPost(url: string, postData: map<string, string>, timeout: nat, retries: nat)
    | MultipartPost(url: string, data: map<string, string>, upload: UploadSource)

  /** The decision `query` takes before anything is sent: a request, or the
      early `None` when an upload has no name. */
  datatype TapPlan = Send(request: TapRequest) | NoUploadName

  /** The URL is computed first, so a bad service fails before the upload
      guard; an upload without a name issues nothing; an upload that is
      neither a path nor a buffer leaves `files` unbound. */
  function Plan(service: Value, query: string, uploadFile: Option<UploadSource>, uploadName: Option<string>)
    : (r: Result<TapPlan, Error>)
    ensures SyncUrl(service).Err? ==> r == Err(SyncUrl(service).error)
    ensures SyncUrl(service).Ok? && uploadFile.None? ==>
              r == Ok(Send(RetriedPost(SyncUrl(service).value, SyncParams(query), Timeout, Retries)))
    ensures SyncUrl(service).Ok? && uploadFile.Some? && uploadName.None? ==> r == Ok(NoUploadName)
    ensures r.Ok? && r.value.NoUploadName? <==> SyncUrl(service).Ok? && uploadFile.Some? && uploadName.None?
    ensures SyncUrl(service).Ok? && uploadFile == Some(OtherObject) && uploadName.Some?
            ==> r == Err(UnboundLocal("files"))
    ensures SyncUrl(service).Ok? && uploadFile.Some? && !uploadFile.value.OtherObject? && uploadName.Some?
            ==> r == Ok(Send(MultipartPost(SyncUrl(service).value, UploadParams(query, uploadName.value), uploadFile.value)))
    ensures r.Ok? && r.value.Send? && r.value.request.MultipartPost? ==>
              && uploadFile.Some? && uploadName.Some? && !uploadFile.value.OtherObject?
              && r.value.request.url == SyncUrl(service).value
              && r.value.request.upload == uploadFile.value
              && r.value.request.data == UploadParams(query, uploadName.value)
  {
    var url :- SyncUrl(service);
    if uploadFile.None? then Ok(Send(RetriedPost(url, SyncParams(query), Timeout, Retries)))
    else if uploadName.None? then Ok(NoUploadName)
    else if uploadFile.value.OtherObject? then Err(UnboundLocal("files"))
    else Ok(Send(MultipartPost(url, UploadParams(query, uploadName.value), uploadFile.value)))
  }

  /** `query`: the planned request is sent and its response converted to a
      table; an upload without a name yields `None`. */
  function Query(service: Value, query: string, uploadFile: Option<UploadSource>, uploadName: Option<string>,
                 send: TapRequest -> Result<ResultTable, Error>)
    : (r: Result<Option<ResultTable>, Error>)
    ensures Plan(service, query, uploadFile, uploadName).Err? ==> r == Err(Plan(service, query, uploadFile, uploadName).error)
    ensures r == Ok(None) <==> Plan(service, query, uploadFile, uploadName) == Ok(NoUploadName)
    ensures Plan(service, query, uploadFile, uploadName).Ok? && Plan(service, query, uploadFile, uploadName).value.Send?
            ==> var req := Plan(service, query, uploadFile, uploadName).value.request;
                (r.Ok? <==> send(req).Ok?)
                && (r.Ok? ==> r.value == Some(send(req).value))
                && (r.Err? ==> r.error == send(req).error)
  {
    var plan :- Plan(service, query, uploadFile, uploadName);
    match plan
    case NoUploadName => Ok(None)
    case Send(req) =>
      var t :- send(req);
      Ok(Some(t))
  }

  /** A plain query of a string service posts the three fixed parameters to
      the service's `/sync?` endpoint. */
  lemma StringServiceQueryRequest(url: string, query: string)
    ensures Plan(Str(url), query, None, None)
            == Ok(Send(RetriedPost(url + "/sync?", map["request" := "doQuery", "lang" := "ADQL", "query" := query], 60, 2)))
  {
  }

  /** The name filter of `list_tables`. */
  predicate Keeps(contains: Option<string>, name: string) {
    contains.None? || Contains(name, contains.value)
  }

  /** The names that `list_tables` keeps, in load order. */
  function Filtered(names: seq<string>, contains: Option<string>): (r: seq<string>)
    ensures |r| <= |names|
    ensures forall s :: s in r ==> s in names && Keeps(contains, s)
  {
    if names == [] then []
    else (if Keeps(contains, names[0]) then [names[0]] else []) + Filtered(names[1..], contains)
  }

  /** Filtering a concatenation filters each part, in order: kept names
      keep their relative order. */
  lemma {:induction false} FilteredAppend(a: seq<string>, b: seq<string>, contains: Option<string>)
    ensures Filtered(a + b, contains) == Filtered(a, contains) + Filtered(b, contains)
  {
    if a == [] {
      assert a + b == b;
    } else {
      assert (a + b)[0] == a[0];
      assert (a + b)[1..] == a[1..] + b;
      FilteredAppend(a[1..], b, contains);
    }
  }

  /** One more loaded name extends the listing by that name or by nothing. */
  lemma FilteredStep(names: seq<string>, i: nat, contains: Option<string>)
    requires i < |names|
    ensures Filtered(names[..i + 1], contains)
         == Filtered(names[..i], contains) + (if Keeps(contains, names[i]) then [names[i]] else [])
  {
    FilteredAppend(names[..i], [names[i]], contains);
    assert names[..i + 1] == names[..i] + [names[i]];
    assert [names[i]][1..] == [];
  }

  /** A name is listed exactly when it was loaded and passes the filter. */
  lemma {:induction false} FilteredMembership(names: seq<string>, contains: Option<string>, s: string)
    ensures s in Filtered(names, contains) <==> s in names && Keeps(contains, s)
  {
    if names != [] {
      FilteredMembership(names[1..], contains, s);
      assert s in names <==> s == names[0] || s in names[1..];
    }
  }

  /** Without `contains` every loaded name is listed. */
  lemma {:induction false} FilteredNoneIsAll(names: seq<string>)
    ensures Filtered(names, None) == names
  {
    if names != [] {
      FilteredNoneIsAll(names[1..]);
    }
  }

  /** A kept name holds `contains` as a slice of itself. */
  lemma KeptNamesHoldSubstring(names: seq<string>, p: string, s: string)
    requires s in Filtered(names, Some(p))
    ensures exists j :: OccursAt(s, p, j)
  {
    ContainsIsSubstring(s, p);
  }

  /** `list_tables`: the loop over the loaded tables, appending each
      qualified name that passes the filter. */
  method ListTables(names: seq<string>, contains: Option<string>) returns (retlist: seq<string>)
    ensures retlist == Filtered(names, contains)
  {
    retlist := [];
    var i := 0;
    while i < |names|
      invariant 0 <= i <= |names|
      invariant retlist == Filtered(names[..i], contains)
    {
      var tname := names[i];
      FilteredStep(names, i, contains);
      if contains.None? || Contains(tname, contains.value) {
        retlist := retlist + [tname];
      }
      i := i + 1;
    }
    assert names[..i] == names;
  }

  const ListColumnsPrefix: string := "select top 1 * from "

  /** The query `list_columns` issues for a table. */
  function ListColumnsQuery(tablename: string): (q: string)
    ensures q == ListColumnsPrefix + tablename
    ensures |q| == |ListColumnsPrefix| + |tablename|
    ensures q[..|ListColumnsPrefix|] == ListColumnsPrefix
  {
    ListColumnsPrefix + tablename
  }

  /** Reads the table name back out of a `list_columns` query. */
  function TableNameOf(q: string): (r: Option<string>)
    ensures r.Some? <==> |ListColumnsPrefix| <= |q| && q[..|ListColumnsPrefix|] == ListColumnsPrefix
  {
    if |ListColumnsPrefix| <= |q| && q[..|ListColumnsPrefix|] == ListColumnsPrefix
    then Some(q[|ListColumnsPrefix|..]) else None
  }

  /** The table name is recovered from the query built for it, and the
      query is recovered from the name it yields. */
  lemma ListColumnsQueryRoundTrip(tablename: string, q: string)
    ensures TableNameOf(ListColumnsQuery(tablename)) == Some(tablename)
    ensures TableNameOf(q).Some? ==> ListColumnsQuery(TableNameOf(q).value) == q
  {
    assert (ListColumnsPrefix + tablename)[|ListColumnsPrefix|..] == tablename;
    if TableNameOf(q).Some? {
      assert q == q[..|ListColumnsPrefix|] + q[|ListColumnsPrefix|..];
    }
  }

  /** What `list_columns` returns: the column list, or the table's metadata. */
  datatype ColumnsOrMeta = Columns(columns: seq<Column>) | Meta(meta: map<string, Value>)

  /** `list_columns`: one row is fetched; a table with rows yields its
      columns and an empty one its metadata; when the query raises, the
      handler reads `table`, which was never assigned. */
  function ListColumns(service: Value, tablename: string, send: TapRequest -> Result<ResultTable, Error>)
    : (r: Result<ColumnsOrMeta, Error>)
    ensures Query(service, ListColumnsQuery(tablename), None, None, send).Err? <==> r.Err?
    ensures r.Err? ==> r.error == UnboundLocal("table")
    ensures r.Ok? ==>
              var t := Query(service, ListColumnsQuery(tablename), None, None, send).value.value;
              r.value == (if t.rows > 0 then Columns(t.columns) else Meta(t.meta))
  {
    match Query(service, ListColumnsQuery(tablename), None, None, send)
    case Err(_) => Err(UnboundLocal("table"))
    case Ok(None) =>
      // a query without an upload never yields None
      assert false; Err(UnboundLocal("table"))
    case Ok(Some(table)) =>
      if table.rows > 0 then Ok(Columns(table.columns)) else Ok(Meta(table.meta))
  }

  /** Without an upload `query` never returns `None`. */
  lemma QueryWithoutUploadIsNeverNone(service: Value, query: string, uploadName: Option<string>,
                                      send: TapRequest -> Result<ResultTable, Error>)
    ensures Query(service, query, None, uploadName, send) != Ok(None)
  {
  }
}
