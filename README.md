# navo_utils query core, in Dafny

This project models the query layer of the NAVO workshop utilities
(`navo_utils`). That layer holds the Python helpers that send Virtual
Observatory searches and hand back astropy tables:

- **Cone search** (`ConeClass`, module `ConeQuery`): normalises the service,
  the coordinates and the radii, builds one `{coords, radius}` record per
  position, and asks for `RA`, `DEC` and `SR` for each position.
- **Image search** (`ImageClass`, modules `QueryInput`, `ImageQuery`): the same
  normalisation, plus the mapping of the free-text image format to one of
  `image/fits`, `image/jpeg`, `image/png`, `GRAPHICS` or `ALL`. Each result is
  wrapped as an `ImageTable`, with an empty metadata-only table as the fallback.
- **Spectral search** (`SpectraClass`, module `SpectraQuery`): the same
  normalisation. Each result is wrapped as a `SpectraTable`, with no fallback.
- **Result tables** (`ImageColumn`/`ImageTable`/`ImRow`, module `ImageTables`;
  `SpectraColumn`/`SpectraTable`/`SpRow`, module `SpectraTables`):
  - columns can be addressed by a standard mnemonic;
  - each table computes a mnemonic-to-column-name map (by UCD or by utype)
    on the first lookup and keeps it;
  - the reverse lookup, column name to mnemonic, walks that map.
- **TAP** (`TapClass`, module `Tap`):
  - builds the synchronous ADQL request, with or without an uploaded table;
  - keeps the table names that contain a substring, in load order;
  - issues the one-row query that `list_columns` reads column names from.

Python's dynamic values are the datatype `Values.Value`. Raised exceptions
become the `Error` alternatives of a `Result`. `Wrappers` holds `Option` and
`Result`. `Text` models `str.lower()` and the substring test `p in s`.
`ColumnMaps` holds the two generic constructions both table classes use:
- the map built by inserting one entry per enumeration member;
- the last member that satisfies a test.

Everything the code calls but does not define is a parameter of the model:
- `utils.query_loop`, a `QueryLoop` given the per-item search, the service and the parameter records;
- `parse_coordinates`;
- `str()` of a coordinate element;
- `utils.find_column_by_ucd` / `find_column_by_utype`, the `Matcher`;
- the conversion of a result into a table class, `converts`;
- the numeric text formatting of `POS` and `SIZE`;
- `utils.try_query` with the VOTable conversion, `tryQuery` (bundled with the coordinate and formatting calls in `SearchCalls`), and for TAP, the HTTP requests with the VOTable conversion, `send`;
- the table loader of `list_tables`, given as the list of qualified names.

The two table classes are Dafny classes:
- `ucdmap` / `utypemap` is the cached map, a field that `GetUcdMap` /
  `GetUtypeMap` assign;
- a ghost counter `scans` records that the map is computed at most once.

Constants:
- all search classes time out after 60 seconds;
- the cone, image and spectral searches try 3 times, and TAP tries 2 times;
- the image and spectral searches default to the radius string `"0.000001"` and to no format, which callers of the model pass explicitly; the cone search has no default radius;
- the timeout and the retry count reach only `try_query`, inside the per-item search (`OneImageSearch`, `OneConeSearch`) that `query` hands to the query loop.

## Model

| member | source | states |
|---|---|---|
| Values.ColumnNames | navo_utils/image.py:408 | `colnames` lists the name of every column, in column order |
| Values.ColumnNamed | navo_utils/image.py:382-387 | indexing a table by a name returns a column with that name, and raises KeyError exactly when no column has it |
| Values.NameOf | navo_utils/image.py:360-365 | the name is present exactly when a column was found, and is that column's name |
| Text.Lower | navo_utils/image.py:60-70 | `lower()` keeps the length and lowers each character (ASCII letters) |
| Text.ContainsIsSubstring | navo_utils/tap.py:79 | the recursive `p in s` holds exactly when some slice of `s` equals `p` |
| Text.ContainsTrivial | navo_utils/tap.py:79 | the empty string is in every name, and every name is in itself |
| ColumnMaps.NameMapKeys | navo_utils/image.py:367-374 | the map built by the loop over the enumeration has exactly the member names as keys |
| ColumnMaps.NameMapAt | navo_utils/image.py:367-374 | with distinct names, each member's entry holds that member's computed column name |
| ColumnMaps.NameMapSize | navo_utils/image.py:367-374 | with distinct names, the map has one entry per member |
| ColumnMaps.Last | navo_utils/image.py:412-416 | the recorded member satisfies the test; nothing is recorded exactly when no member satisfies it |
| ColumnMaps.LastIsLatest | navo_utils/image.py:412-416 | the recorded member is the latest one in enumeration order that satisfies the test |
| QueryInput.NormalizeService | navo_utils/image.py:46-47 | a string service becomes `{"access_url": service}`; any other service passes through unchanged |
| QueryInput.NormalizeCoords | navo_utils/image.py:49-51 | a string or SkyCoord becomes a one-element list; a list is kept; anything else fails the list assertion |
| QueryInput.Replicate | navo_utils/image.py:54 | `[radius]*n` has length n and every element is the radius |
| QueryInput.ExpandRadius | navo_utils/image.py:53-57 | a scalar radius is repeated once per coordinate; a list is accepted exactly when its length matches and is used as given; otherwise the length assertion fails |
| QueryInput.FirstHit | navo_utils/image.py:59-73 | the token returned belongs to a rule whose keyword occurs in the text; none exactly when no keyword occurs |
| QueryInput.MapImageFormat | navo_utils/image.py:59-73 | `None` stays `None`; a non-string raises; every mapped value is one of the five tokens; an unrecognised string raises |
| QueryInput.MapImageFormatIsFirstHit | navo_utils/image.py:59-73 | the elif chain over the lowered format equals the first keyword hit in the order fits, jpeg, jpg, png, graphics, all |
| QueryInput.FormatRaisesIffNoKeyword | navo_utils/image.py:72-73 | a string format raises exactly when its lowered form contains none of the six keywords |
| QueryInput.GraphicsSelectsGraphicsToken | navo_utils/image.py:68-69 | "graphics" maps to `GRAPHICS` |
| QueryInput.JpgSelectsJpegMimeType | navo_utils/image.py:64-65 | "JPG" maps, case-insensitively, to `image/jpeg` |
| QueryInput.UnknownKeywordRaises | navo_utils/image.py:72-73 | "TIFF" raises the unrecognised-format exception |
| QueryInput.FanOut | navo_utils/image.py:76 | one parameter record per coordinate, holding that coordinate, its radius and the shared format |
| QueryInput.PrepareSearch | navo_utils/image.py:46-76 | checks fail in source order, each with its own error (coords, radius length, then the format's error); success exactly when all pass, with the normalised service and one record per coordinate |
| QueryInput.Parsed | navo_utils/image.py:99-101 | a parsed position is used; a failed parse is an error |
| QueryInput.ResolveCoordinate | navo_utils/image.py:98-103 | a 2-element list/tuple is joined as "a b" and parsed; a string is parsed; a SkyCoord is used; everything else, and only that, fails the SkyCoord assertion |
| QueryInput.SearchRequest | navo_utils/image.py:105-110 | the keys are exactly POS and SIZE, plus FORMAT exactly when a format was given; POS comes from the resolved position, SIZE from the radius (the spectral search, spectra.py lines 83-88, builds the same request) |
| ImageTables.NameRoundTrip | navo_utils/image.py:414-416 | a member is found again from its name, and only from its name |
| ImageTables.MembersShape | navo_utils/image.py:204-299 | `ImageColumn` has 22 members, iteration visits each of them, and no two share a name |
| ImageTables.UcdMapSize | navo_utils/image.py:367-374 | the UCD map has 22 entries |
| ImageTables.UcdMapKeys | navo_utils/image.py:367-374 | the keys of the UCD map are exactly the member names |
| ImageTables.UcdMapAt | navo_utils/image.py:352-374 | under each member's name the map holds the name of the column the matcher finds for that member's UCD, or none |
| ImageTables.ReverseThenForward | navo_utils/image.py:397-418 | the mnemonic found for a column name maps forward to that same column name |
| ImageTables.ForwardThenReverse | navo_utils/image.py:397-418 | a column that a mnemonic maps to always yields some mnemonic; it yields that mnemonic when no other maps to the column |
| ImageTables.FindStdcol | navo_utils/image.py:411-416 | the nested loop over the map items and the enumeration `ms` records the last member of `ms`, in order, that the map sends to the column (the table passes the full enumeration) |
| ImageTables.ImageTable.constructor | navo_utils/image.py:332-339 | a new table holds the result's columns, rows and metadata, with the map unset |
| ImageTables.ImageTable.GetUcdMap | navo_utils/image.py:367-374 | the returned map is the UCD map of the table; it is computed once and later calls return the cached map |
| ImageTables.ImageTable.StdcolToColname | navo_utils/image.py:397-403 | a mnemonic yields its column name (or none) from the map, and the cache then holds the table's UCD map; anything else raises ValueError without touching the cache |
| ImageTables.ImageTable.ColnameToStdcol | navo_utils/image.py:406-418 | a name that is not a column raises ValueError with the cache untouched; a column yields the last mnemonic mapped to it, or none, and the cache then holds the UCD map |
| ImageTables.ImageTable.Get | navo_utils/image.py:376-394 | a mnemonic without a column gives none; otherwise the column of that name, with KeyError when there is none; a mnemonic fills the cache, a plain name leaves it as it was |
| ImageTables.ImRow.Get | navo_utils/image.py:306-329 | as the table lookup, but returning this row's cell of the column; the table's cache is filled by a mnemonic and untouched by a plain name |
| SpectraTables.NameRoundTrip | navo_utils/spectra.py:283-285 | a member is found again from its name, and only from its name |
| SpectraTables.MembersShape | navo_utils/spectra.py:147-174 | `SpectraColumn` has 8 members, iteration visits each of them, and no two share a name |
| SpectraTables.UtypeMapSize | navo_utils/spectra.py:235-242 | the utype map has 8 entries |
| SpectraTables.UtypeMapKeys | navo_utils/spectra.py:235-242 | the keys of the utype map are exactly the member names |
| SpectraTables.UtypeMapAt | navo_utils/spectra.py:220-242 | under each member's name the map holds the name of the column the matcher finds for that member's utype, or none |
| SpectraTables.ReverseThenForward | navo_utils/spectra.py:267-287 | the mnemonic found for a column name maps forward to that same column name |
| SpectraTables.ForwardThenReverse | navo_utils/spectra.py:267-287 | a column that a mnemonic maps to always yields some mnemonic; it yields that mnemonic when no other maps to the column |
| SpectraTables.FindStdcol | navo_utils/spectra.py:280-285 | the nested loop over the enumeration `ms` records the last member of `ms`, in order, that the map sends to the column (the table passes the full enumeration) |
| SpectraTables.SpectraTable.constructor | navo_utils/spectra.py:210-217 | a new table holds the result's columns, rows and metadata, with the map unset |
| SpectraTables.SpectraTable.GetUtypeMap | navo_utils/spectra.py:235-242 | the returned map is the utype map of the table; it is computed once and later calls return the cached map |
| SpectraTables.SpectraTable.StdcolToColname | navo_utils/spectra.py:267-273 | a mnemonic yields its column name (or none) from the map, and the cache then holds the table's utype map; anything else raises ValueError without touching the cache |
| SpectraTables.SpectraTable.ColnameToStdcol | navo_utils/spectra.py:275-287 | a name that is not a column raises ValueError with the cache untouched; a column yields the last mnemonic mapped to it, or none, and the cache then holds the utype map |
| SpectraTables.SpectraTable.Get | navo_utils/spectra.py:244-264 | a mnemonic without a column gives none; otherwise the column of that name, with KeyError when there is none; a mnemonic fills the cache, a plain name leaves it as it was |
| SpectraTables.SpRow.Get | navo_utils/spectra.py:183-206 | as the table lookup, but returning this row's cell of the column; the table's cache is filled by a mnemonic and untouched by a plain name |
| ImageQuery.WrapResultsAsWritten | navo_utils/image.py:79-89 | the wrapping loop as written: the output is the as-written wrapping, where a failed conversion is appended twice |
| ImageQuery.WrappedAsWrittenLength | navo_utils/image.py:79-89 | the as-written output has one extra entry per result that fails to convert |
| ImageQuery.OneFailureYieldsTwoTables | navo_utils/image.py:83-89 | one result that fails to convert yields two copies of the empty metadata table |
| ImageQuery.WrapResults | navo_utils/image.py:79-89 | the corrected loop: one entry per result, in order, either the converted table or the empty table with the result's metadata |
| ImageQuery.AllConvertAgree | navo_utils/image.py:79-89 | when every result converts, the as-written loop gives one table per result, in order |
| ImageQuery.OneImageSearch | navo_utils/image.py:97-113 | a coordinate that cannot be resolved raises before anything is sent; otherwise `try_query` gets the service, the request `SearchRequest` builds, timeout 60 and 3 tries |
| ImageQuery.Query | navo_utils/image.py:46-95 | an input check that fails raises its error and nothing is queried; otherwise the query loop is given the per-item search `OneImageSearch`, the service and the records, and its results are wrapped by the loop as written (two fallback tables per failed conversion) |
| ImageQuery.QueryCorrected | navo_utils/image.py:46-95 | the same checks and query loop with the same per-item search, then the corrected wrapping: one entry per query-loop result, in order |
| ImageQuery.GetColumn | navo_utils/image.py:115-123 | a non-mnemonic raises first, then a non-table; otherwise the matcher's answer for the mnemonic's value record |
| ImageQuery.GetColumnName | navo_utils/image.py:125-130 | the same errors as `get_column`; otherwise the found column's name, or none |
| SpectraQuery.WrapResults | navo_utils/spectra.py:67-73 | every result converts exactly when the output is a list of tables, one per result, in order; the first failed conversion raises |
| SpectraQuery.OneImageSearch | navo_utils/spectra.py:75-92 | a coordinate that cannot be resolved raises before anything is sent; otherwise `try_query` gets the service, the request `SearchRequest` builds, timeout 60 and 3 tries |
| SpectraQuery.Query | navo_utils/spectra.py:35-73 | an input check that fails raises its error; otherwise the query loop is given the per-item search `OneImageSearch`, and its results are wrapped as SpectraTables or the conversion error propagates |
| SpectraQuery.GetColumn | navo_utils/spectra.py:94-102 | a non-mnemonic raises first, then a non-table; otherwise the matcher's answer for the mnemonic's value record |
| SpectraQuery.GetColumnName | navo_utils/spectra.py:104-109 | the same errors as `get_column`; otherwise the found column's name, or none |
| ConeQuery.ConeFanOut | navo_utils/cone.py:56 | one `{coords, radius}` record per coordinate, pairing each with its radius |
| ConeQuery.PrepareAsWritten | navo_utils/cone.py:37-56 | as written, a bad coordinate value fails first; then every list radius raises UnboundLocalError for `inradius`; a scalar radius gives the same records as the corrected checks |
| ConeQuery.ListRadiusAlwaysFails | navo_utils/cone.py:48-52 | every list radius raises UnboundLocalError for `inradius`, whatever its length |
| ConeQuery.MatchingRadiusListRejectedAsWritten | navo_utils/cone.py:48-52 | one coordinate with a one-element radius list is rejected |
| ConeQuery.Prepare | navo_utils/cone.py:37-56 | the corrected checks: success exactly when the coordinates and radii are accepted; a length mismatch fails the assertion; one record per coordinate with its radius |
| ConeQuery.PrepareExtendsAsWritten | navo_utils/cone.py:48-56 | wherever the written checks succeed, the corrected ones give the same records |
| ConeQuery.OneConeSearch | navo_utils/cone.py:62-74 | a coordinate that cannot be resolved raises before anything is sent; otherwise `try_query` gets the service, the request `ConeRequest` builds, timeout 60 and 3 tries |
| ConeQuery.Query | navo_utils/cone.py:37-59 | the written input checks run first and a failure raises its error, so any list radius raises; otherwise the query loop is given the per-item search `OneConeSearch`, the service and the records, and its results are returned unchanged |
| ConeQuery.QueryCorrected | navo_utils/cone.py:37-59 | the same query loop and per-item search with the corrected radius checks, so a list of one radius per coordinate is queried |
| ConeQuery.QueriesDifferOnlyOnRadiusLists | navo_utils/cone.py:48-59 | the written and corrected queries agree on scalar radii; a radius list of matching length fails as written and succeeds corrected |
| ConeQuery.ConeRequest | navo_utils/cone.py:62-70 | the request has exactly RA, DEC and SR: the resolved position in degrees and the radius as given |
| Tap.AccessUrl | navo_utils/tap.py:30-33 | a string service is its own URL; a record with a string `access_url` yields it; a record without it raises KeyError; a non-string `access_url` or a service that is neither string nor record raises TypeError |
| Tap.SyncUrl | navo_utils/tap.py:33 | the request URL is the access URL followed by `/sync?`, and fails as the URL lookup fails |
| Tap.SyncParams | navo_utils/tap.py:35-39 | the parameters are exactly request=doQuery, lang=ADQL and the query |
| Tap.UploadParams | navo_utils/tap.py:56-62 | the upload parameters have four keys; `upload` is the name followed by `,param:uplt` |
| Tap.UploadParamsExtendSyncParams | navo_utils/tap.py:35-62 | the upload parameters are the synchronous ones plus `upload`, and removing it gives them back |
| Tap.Plan | navo_utils/tap.py:27-66 | URL failure comes first; no upload posts the fixed parameters with retries; an upload without a name issues nothing; an unsupported upload object leaves `files` unbound; a named path or buffer upload is posted multipart to the `/sync?` URL with the upload parameters and that file |
| Tap.Query | navo_utils/tap.py:27-69 | `None` exactly when an upload has no name; otherwise the table from the planned request, or its error |
| Tap.StringServiceQueryRequest | navo_utils/tap.py:30-66 | a plain query on a URL posts doQuery/ADQL/query to URL + `/sync?` with 60 s timeout and 2 tries |
| Tap.QueryWithoutUploadIsNeverNone | navo_utils/tap.py:41-66 | without an upload `query` never returns `None` |
| Tap.Filtered | navo_utils/tap.py:76-82 | every listed name was loaded and passes the filter |
| Tap.FilteredAppend | navo_utils/tap.py:76-82 | filtering a concatenation concatenates the filtered parts, so the load order is kept |
| Tap.FilteredMembership | navo_utils/tap.py:79-81 | a name is listed exactly when it was loaded and `contains` is None or occurs in it |
| Tap.FilteredNoneIsAll | navo_utils/tap.py:79 | with `contains=None` every loaded name is listed |
| Tap.KeptNamesHoldSubstring | navo_utils/tap.py:79 | a name kept by a `contains` filter has it as a slice |
| Tap.ListTables | navo_utils/tap.py:72-82 | the loop's list is the filtered list of loaded names |
| Tap.ListColumnsQuery | navo_utils/tap.py:88 | the query is exactly `select top 1 * from ` followed by the table name, so it has that prefix and their combined length |
| Tap.ListColumnsQueryRoundTrip | navo_utils/tap.py:88 | the table name is read back from its query, and the query rebuilt from that name |
| Tap.ListColumns | navo_utils/tap.py:85-96 | a table with rows gives its columns, an empty one its metadata; any failure of the query ends in UnboundLocalError for `table` |

## Left out

- Network I/O: `utils.try_query`, `requests.post` and `utils.query_loop` are parameters. Their retry loops, timeouts, streaming and the opening of an uploaded file are not modelled.
- VOTable parsing (`astropy_table_from_votable_response`) and the table conversion are parameters. The model does not decide when an `ImageTable(result)` or `SpectraTable(result)` construction fails.
- `parse_coordinates`, `str()` of a coordinate element and the `utils.sval` text of POS and SIZE are parameters. The floating-point doubling of the radius into SIZE is therefore not modelled.
- QueryInput.SearchRequest: `sizeText` is total, so the ValueError that `float(radius)` raises for a non-numeric radius (image.py line 107, spectra.py line 85) cannot occur in the model; such a radius gets a SIZE text instead of failing the request.
- `utils.find_column_by_ucd` / `find_column_by_utype` are parameters (the `Matcher`). `utils.py` is not part of this model, so their matching rule is unknown.
- `get_image` and `get_fits`: file downloads and temporary files, outside the query core.
- The loader of `list_tables` is given as the list of qualified names it yields.
- Printing, `traceback.print_exc`, the `verbose` flag, and the Python 2 `super()` fallbacks. The fallback repeats the same lookup, so it changes no result.
- `str.lower()` is modelled for ASCII letters only. Text.Lower leaves other characters unchanged, where Python would lower them.
- Table indexing by integer or slice is not modelled. An index is a mnemonic or a column name.
- The free-text `description` of each enumeration member is not part of the modelled value record (`EnumValue`).
- Exceptions are modelled by kind (`Error`), not by message text. `ValueError` is split into `NotAMnemonic`, `NotATable` and `UnknownColumnName`.
- `conf.py` (documentation configuration) and `check_env.py` (environment probing) have no query logic.
- ImageTables.ImageTable.GetUcdMap and SpectraTables.SpectraTable.GetUtypeMap: the table's columns are fixed in the model. In the source the table is a mutable astropy Table whose `__ucdmap__` / `__utypemap__` cache is filled once and never invalidated. After `add_column`, `rename_column` or `remove_column`, `stdcol_to_colname` can return a stale name and `colname_to_stdcol` can miss. Column mutation and that stale cache are not modelled.
- ImageTables.FindStdcol and SpectraTables.FindStdcol: the outer loop runs over the enumeration `ms` rather than over the map's `items()`. This is the same order, because the map is built by inserting one entry per member in enumeration order (`ColumnMaps.NameMap`) and a Python dict iterates in insertion order.
- The fresh-object identity of returned tables and aliasing between tables are not modelled. A wrapped result is the value it came from.

## Findings

| source | as written | input that shows it | evidently intended | confidence | as-written member | corrected member |
|---|---|---|---|---|---|---|
| navo_utils/image.py:79-89 | a result that fails to convert is appended in the except branch and again after it | one result whose conversion raises: the list holds two empty tables | one entry per result, so results stay aligned with the coordinates | not executed | ImageQuery.WrapResultsAsWritten (ImageQuery.OneFailureYieldsTwoTables) | ImageQuery.WrapResults (used by ImageQuery.QueryCorrected) |
| navo_utils/cone.py:50-52 | `inradius = inradius` reads the local before it is assigned | `query(url, "10 20", ["0.1"])`: UnboundLocalError | `inradius = radius`, as in the image and spectral searches | not executed | ConeQuery.PrepareAsWritten (ConeQuery.ListRadiusAlwaysFails) | ConeQuery.Prepare (used by ConeQuery.QueryCorrected) |
