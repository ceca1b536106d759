/** The Python values that the query entry points inspect by type, the
    astropy tables they return, and the exceptions they raise. */
module Values {

  import opened Wrappers

  /** A position as the coordinate library returns it: `.ra.deg`, `.dec.deg`. */
  datatype SkyCoord = SkyCoord(raDeg: real, decDeg: real)

  /** A dynamically typed argument. `Dict` stands for a `dict` and for a
      registry table row, both of which are indexed by key. */
  datatype Value =
    | NoneValue
    | Str(s: string)
    | Num(x: real)
    | Bool(b: bool)
    | Sky(coord: SkyCoord)
    | List(items: seq<Value>)
    | Tuple(items: seq<Value>)
    | Dict(entries: map<string, Value>)

  /** One column of an astropy table: its name, its metadata (UCD, utype, ...)
      and its cells, one per row. */
  datatype Column = Column(name: string, meta: map<string, Value>, cells: seq<Value>)

  /** An astropy table as a VOTable response is turned into. */
  datatype ResultTable = ResultTable(columns: seq<Column>, rows: nat, meta: map<string, Value>)

  /** A table argument: an astropy Table, or any other value. */
  datatype TableArg = AstropyTable(table: ResultTable) | NotATableValue(value: Value)

  /** The exceptions raised by the modelled code, each named after its cause. */
  datatype Error =
    | CoordsNotList           // AssertionError: coords is not a list after wrapping
    | RadiusLengthMismatch    // AssertionError: radius list and coords differ in length
    | UnrecognisedFormat      // Exception: no known image-format keyword
    | FormatNotText           // AttributeError: image_format has no lower()
    | CoordsUnparsable        // parse_coordinates raised
    | NotSkyCoord             // AssertionError: cannot parse input coordinates
    | UnboundLocal(variable: string)  // UnboundLocalError
    | NotAMnemonic            // ValueError: not a member of the column enumeration
    | NotATable               // ValueError: not an astropy Table
    | UnknownColumnName       // ValueError: not the name of a column in this table
    | KeyError(key: string)
    | TypeError
    | ConversionFailed        // the table subclass could not be built from a result
    | ServiceFailure          // raised by the network call or the VOTable parser

  /** The column lookup `find_column_by_ucd` / `find_column_by_utype`, whose
      matching rule is not part of this model. */
  type Matcher = (seq<Column>, Value) -> Option<Column>

  /** The `colnames` of a table. */
  function ColumnNames(cols: seq<Column>): (names: seq<string>)
    ensures |names| == |cols|
    ensures forall i :: 0 <= i < |cols| ==> names[i] == cols[i].name
  {
    if cols == [] then [] else [cols[0].name] + ColumnNames(cols[1..])
  }

  /** astropy's `table[name]`: the column of that name, or KeyError. */
  function ColumnNamed(cols: seq<Column>, name: string): (r: Result<Column, Error>)
    ensures r.Ok? ==> r.value in cols && r.value.name == name
    ensures r.Err? <==> name !in ColumnNames(cols)
    ensures r.Err? ==> r.error == KeyError(name)
  {
    if cols == [] then Err(KeyError(name))
    else if cols[0].name == name then Ok(cols[0])
    else ColumnNamed(cols[1..], name)
  }

  /** Every column holds one cell per row, as astropy guarantees. */
  predicate WellFormed(t: ResultTable) {
    forall c :: c in t.columns ==> |c.cells| == t.rows
  }

  /** `col.name if col is not None else None`. */
  function NameOf(col: Option<Column>): (name: Option<string>)
    ensures name.Some? <==> col.Some?
    ensures col.Some? ==> name.value == col.value.name
  {
    match col
    case None => None
    case Some(c) => Some(c.name)
  }
}
