/** The `ImageColumn` enumeration and the `ImageTable` / `ImRow` classes:
    image-search results whose columns can be addressed by mnemonic, through
    a UCD map that each table computes on first use and then keeps. */
module ImageTables {

  import opened Wrappers
  import opened Values
  import opened ColumnMaps

  /** The standard image-search columns, in declaration order. */
  datatype ImageColumn =
    | Title | Ra | Dec | Naxes | Naxis | Scale | Format | AccessUrl
    | Projection | Crpix | Crval | CdMatrix
    | Instrument | MjdObs | RefFrame | Bandpass | BandpassUnit | BandpassRefval
    | BandpassHilimit | BandpassLolimit | PixFlags | FileSize

  /** Iterating over the enumeration visits the members in this order. */
  function Members(): seq<ImageColumn> {
    [Title, Ra, Dec, Naxes, Naxis, Scale, Format, AccessUrl,
     Projection, Crpix, Crval, CdMatrix,
     Instrument, MjdObs, RefFrame, Bandpass, BandpassUnit, BandpassRefval,
     BandpassHilimit, BandpassLolimit, PixFlags, FileSize]
  }

  /** The member's `.name`. */
  function Name(m: ImageColumn): string {
    match m
    case Title => "TITLE"
    case Ra => "RA"
    case Dec => "DEC"
    case Naxes => "NAXES"
    case Naxis => "NAXIS"
    case Scale => "SCALE"
    case Format => "FORMAT"
    case AccessUrl => "ACCESS_URL"
    case Projection => "PROJECTION"
    case Crpix => "CRPIX"
    case Crval => "CRVAL"
    case CdMatrix => "CDMATRIX"
    case Instrument => "INSTRUMENT"
    case MjdObs => "MJD_OBS"
    case RefFrame => "REF_FRAME"
    case Bandpass => "BANDPASS"
    case BandpassUnit => "BANDPASS_UNIT"
    case BandpassRefval => "BANDPASS_REFVAL"
    case BandpassHilimit => "BANDPASS_HILIMIT"
    case BandpassLolimit => "BANDPASS_LOLIMIT"
    case PixFlags => "PIXFLAGS"
    case FileSize => "FILESIZE"
  }

  /** The UCD the member's value record carries under 'ucd'. */
  function Ucd(m: ImageColumn): string {
    match m
    case Title => "VOX:Image_Title"
    case Ra => "POS_EQ_RA_MAIN"
    case Dec => "POS_EQ_DEC_MAIN"
    case Naxes => "VOX:Image_Naxes"
    case Naxis => "VOX:Image_Naxis"
    case Scale => "VOX:Image_Scale"
    case Format => "VOX:Image_Format"
    case AccessUrl => "VOX:Image_AccessReference"
    case Projection => "VOX:WCS_CoordProjection"
    case Crpix => "VOX:WCS_CoordRefPixel"
    case Crval => "VOX:WCS_CoordRefValue"
    case CdMatrix => "VOX:WCS_CDMatrix"
    case Instrument => "INST_ID"
    case MjdObs => "VOX:Image_MJDateObs"
    case RefFrame => "VOX:STC_CoordRefFrame"
    case Bandpass => "VOX:BandPass_ID"
    case BandpassUnit => "VOX:BandPass_Unit"
    case BandpassRefval => "VOX:BandPass_RefValue"
    case BandpassHilimit => "VOX:BandPass_HiLimit"
    case BandpassLolimit => "VOX:BandPass_LoLimit"
    case PixFlags => "VOX:Image_PixFlags"
    case FileSize => "VOX:Image_FileSize"
  }

  /** The 'required' flag: the first eight columns are required. */
  function Required(m: ImageColumn): bool {
    m in Members()[..8]
  }

  /** The member's value record, without its free-text description. */
  function EnumValue(m: ImageColumn): Value {
    Dict(map["ucd" := Str(Ucd(m)), "required" := Bool(Required(m))])
  }

  /** `ImageColumn[s]`: the member with that name. */
  function FromName(s: string): Option<ImageColumn> {
    match s
    case "TITLE" => Some(Title)
    case "RA" => Some(Ra)
    case "DEC" => Some(Dec)
    case "NAXES" => Some(Naxes)
    case "NAXIS" => Some(Naxis)
    case "SCALE" => Some(Scale)
    case "FORMAT" => Some(Format)
    case "ACCESS_URL" => Some(AccessUrl)
    case "PROJECTION" => Some(Projection)
    case "CRPIX" => Some(Crpix)
    case "CRVAL" => Some(Crval)
    case "CDMATRIX" => Some(CdMatrix)
    case "INSTRUMENT" => Some(Instrument)
    case "MJD_OBS" => Some(MjdObs)
    case "REF_FRAME" => Some(RefFrame)
    case "BANDPASS" => Some(Bandpass)
    case "BANDPASS_UNIT" => Some(BandpassUnit)
    case "BANDPASS_REFVAL" => Some(BandpassRefval)
    case "BANDPASS_HILIMIT" => Some(BandpassHilimit)
    case "BANDPASS_LOLIMIT" => Some(BandpassLolimit)
    case "PIXFLAGS" => Some(PixFlags)
    case "FILESIZE" => Some(FileSize)
    case _ => None
  }

  /** The member's position in the enumeration. */
  function Index(m: ImageColumn): nat {
    match m
    case Title => 0
    case Ra => 1
    case Dec => 2
    case Naxes => 3
    case Naxis => 4
    case Scale => 5
    case Format => 6
    case AccessUrl => 7
    case Projection => 8
    case Crpix => 9
    case Crval => 10
    case CdMatrix => 11
    case Instrument => 12
    case MjdObs => 13
    case RefFrame => 14
    case Bandpass => 15
    case BandpassUnit => 16
    case BandpassRefval => 17
    case BandpassHilimit => 18
    case BandpassLolimit => 19
    case PixFlags => 20
    case FileSize => 21
  }

  lemma IndexInMembers(m: ImageColumn)
    ensures Index(m) < |Members()| && Members()[Index(m)] == m
  {
  }

  /** Names and members determine each other. */
  lemma NameRoundTrip(m: ImageColumn, s: string)
    ensures FromName(Name(m)) == Some(m)
    ensures FromName(s) == Some(m) ==> Name(m) == s
  {
    FromNameOfName(m);
    NameOfFromName(s);
  }

  lemma FromNameOfName(m: ImageColumn)
    ensures FromName(Name(m)) == Some(m)
  {
  }

  lemma NameOfFromName(s: string)
    ensures FromName(s).Some? ==> Name(FromName(s).value) == s
  {
  }

  /** The enumeration has 22 members, lists every member, and no two share a name. */
  lemma MembersShape()
    ensures |Members()| == 22
    ensures forall m :: m in Members()
    ensures DistinctNames(Members(), Name)
  {
    var ms := Members();
    forall m ensures m in ms {
      IndexInMembers(m);
    }
    forall i, j | 0 <= i < j < |ms| ensures Name(ms[i]) != Name(ms[j]) {
      NameRoundTrip(ms[i], Name(ms[j]));
      NameRoundTrip(ms[j], Name(ms[j]));
    }
  }

  /** `__compute_ucd_column_name__`: the name of the column the matcher finds
      for the member's UCD, or none. */
  function UcdColumnName(columns: seq<Column>, find: Matcher, m: ImageColumn): Option<string> {
    NameOf(find(columns, Str(Ucd(m))))
  }

  function UcdColumnNames(columns: seq<Column>, find: Matcher): ImageColumn -> Option<string> {
    m => UcdColumnName(columns, find, m)
  }

  /** The map `get_ucdmap` builds: member name to matched column name. */
  function UcdMap(columns: seq<Column>, find: Matcher): map<string, Option<string>> {
    NameMap(Members(), Name, UcdColumnNames(columns, find))
  }

  /** The UCD map has one entry per member. */
  lemma UcdMapSize(columns: seq<Column>, find: Matcher)
    ensures |UcdMap(columns, find)| == 22
  {
    MembersShape();
    NameMapSize(Members(), Name, UcdColumnNames(columns, find));
  }

  /** The UCD map's keys are exactly the member names. */
  lemma UcdMapKeys(columns: seq<Column>, find: Matcher)
    ensures forall s :: s in UcdMap(columns, find) <==> FromName(s).Some?
  {
    var ms := Members();
    MembersShape();
    forall s ensures s in UcdMap(columns, find) <==> FromName(s).Some? {
      NameMapKeys(ms, Name, UcdColumnNames(columns, find), s);
      if FromName(s).Some? {
        var m := FromName(s).value;
        NameRoundTrip(m, s);
        IndexInMembers(m);
        assert Name(ms[Index(m)]) == s;
      } else if s in UcdMap(columns, find) {
        var k :| 0 <= k < |ms| && Name(ms[k]) == s;
        NameRoundTrip(ms[k], s);
      }
    }
  }

  /** Under each member's name the UCD map holds the name of the column the
      matcher finds for that member's UCD. */
  lemma UcdMapAt(columns: seq<Column>, find: Matcher, m: ImageColumn)
    ensures Name(m) in UcdMap(columns, find)
    ensures UcdMap(columns, find)[Name(m)] == UcdColumnName(columns, find, m)
  {
    MembersShape();
    IndexInMembers(m);
    NameMapAt(Members(), Name, UcdColumnNames(columns, find), Index(m));
  }

  /** The member whose name a UCD map sends to `colname`. */
  function MapsTo(ucdmap: map<string, Option<string>>, colname: string): ImageColumn -> bool {
    m => Name(m) in ucdmap && ucdmap[Name(m)] == Some(colname)
  }

  /** The member `colname_to_stdcol` returns for a column of the table: the
      last member, in enumeration order, that the UCD map sends to it. */
  function StdcolOf(columns: seq<Column>, find: Matcher, colname: string): Option<ImageColumn> {
    Last(Members(), MapsTo(UcdMap(columns, find), colname))
  }

  /** Reverse then forward: the member found for a column name resolves back
      to that column name. */
  lemma ReverseThenForward(columns: seq<Column>, find: Matcher, colname: string)
    requires StdcolOf(columns, find, colname).Some?
    ensures UcdColumnName(columns, find, StdcolOf(columns, find, colname).value) == Some(colname)
  {
    UcdMapAt(columns, find, StdcolOf(columns, find, colname).value);
  }

  /** Forward then reverse: a member whose column no other member resolves
      to is recovered from its column name; when several members resolve to
      the same column, the last of them in enumeration order is returned. */
  lemma ForwardThenReverse(columns: seq<Column>, find: Matcher, m: ImageColumn, colname: string)
    requires UcdColumnName(columns, find, m) == Some(colname)
    ensures StdcolOf(columns, find, colname).Some?
    ensures (forall m' :: UcdColumnName(columns, find, m') == Some(colname) ==> m' == m)
            ==> StdcolOf(columns, find, colname) == Some(m)
  {
    UcdMapAt(columns, find, m);
    var ms := Members();
    IndexInMembers(m);
    assert MapsTo(UcdMap(columns, find), colname)(ms[Index(m)]);
    var found := StdcolOf(columns, find, colname).value;
    UcdMapAt(columns, find, found);
    assert UcdColumnName(columns, find, found) == Some(colname);
  }

  /** A mnemonic, or a plain column name, used as a table or row index. */
  datatype Item = Std(m: ImageColumn) | Named(name: string)

  /** What `table[item]` returns for a table with these columns: a mnemonic
      with no matching column gives none, otherwise the column is looked up
      by name. */
  function ColumnFor(columns: seq<Column>, find: Matcher, item: Item): Result<Option<Column>, Error> {
    var name := match item
      case Std(m) => UcdColumnName(columns, find, m)
      case Named(n) => Some(n);
    match name
    case None => Ok(None)
    case Some(n) =>
      match ColumnNamed(columns, n)
      case Ok(c) => Ok(Some(c))
      case Err(e) => Err(e)
  }

  /** The inner loop of `colname_to_stdcol`: scanning the members, the
      one whose name is `img` is recorded, over whatever was recorded before.
      `k` is the position of that member. */
  method MemberNamed(ms: seq<ImageColumn>, img: string, prior: Option<ImageColumn>, ghost k: nat)
    returns (imgcol: Option<ImageColumn>)
    requires k < |ms| && FromName(img) == Some(ms[k])
    ensures imgcol == FromName(img)
  {
    NameOfFromName(img);
    imgcol := prior;
    var j := 0;
    while j < |ms|
      invariant 0 <= j <= |ms|
      invariant k < j ==> imgcol == FromName(img)
    {
      if Name(ms[j]) == img {
        FromNameOfName(ms[j]);
        imgcol := Some(ms[j]);
      }
      j := j + 1;
    }
  }

  /** The nested search of `colname_to_stdcol` over a UCD map: the outer
      loop visits the map's items in insertion order, which is enumeration
      order, and at each item mapped to `colname` the inner loop finds the
      member carrying the item's key and records it. `ms` is the
      enumeration in order; `colname_to_stdcol` passes `Members()`. */
  method FindStdcol(ms: seq<ImageColumn>, ucdmap: map<string, Option<string>>, colname: string) returns (imgcol: Option<ImageColumn>)
    requires forall k :: 0 <= k < |ms| ==> Name(ms[k]) in ucdmap
    ensures imgcol == Last(ms, MapsTo(ucdmap, colname))
  {
    imgcol := None;
    var i := 0;
    while i < |ms|
      invariant 0 <= i <= |ms|
      invariant imgcol == Last(ms[..i], MapsTo(ucdmap, colname))
    {
      var img := Name(ms[i]);
      var col := ucdmap[img];
      LastStep(ms, MapsTo(ucdmap, colname), i);
      if col == Some(colname) {
        FromNameOfName(ms[i]);
        imgcol := MemberNamed(ms, img, imgcol, i);
      }
      i := i + 1;
    }
    assert ms[..i] == ms;
  }

  class ImageTable {
    const columns: seq<Column>
    const rows: nat
    const meta: map<string, Value>
    const findByUcd: Matcher
    /** `__ucdmap__`: unset until the first mnemonic lookup. */
    var ucdmap: Option<map<string, Option<string>>>
    /** How many times the UCD map has been computed. */
    ghost var scans: nat

    ghost predicate Valid()
      reads this
    {
      && (forall c :: c in columns ==> |c.cells| == rows)
      && (ucdmap.Some? ==> ucdmap.value == UcdMap(columns, findByUcd))
      && scans == (if ucdmap.Some? then 1 else 0)
    }

    /** `ImageTable(result, copy=False)` on a result that converts. */
    constructor (t: ResultTable, findByUcd: Matcher)
      requires WellFormed(t)
      ensures Valid()
      ensures columns == t.columns && rows == t.rows && meta == t.meta
      ensures this.findByUcd == findByUcd && ucdmap == None
    {
      columns := t.columns;
      rows := t.rows;
      meta := t.meta;
      this.findByUcd := findByUcd;
      ucdmap := None;
      scans := 0;
    }

    function Colnames(): seq<string> {
      ColumnNames(columns)
    }

    /** `get_ucdmap`: computes the map when it is unset (or empty), then
        returns the cached map; a second call does not recompute it. */
    method GetUcdMap() returns (m: map<string, Option<string>>)
      requires Valid()
      modifies this`ucdmap, this`scans
      ensures Valid()
      ensures m == UcdMap(columns, findByUcd) && ucdmap == Some(m)
      ensures scans == 1
      ensures old(ucdmap).Some? ==> ucdmap == old(ucdmap) && scans == old(scans)
    {
      UcdMapSize(columns, findByUcd);
      if ucdmap.None? || ucdmap.value == map[] {
        ucdmap := Some(map[]);
        var ms := Members();
        var i := 0;
        while i < |ms|
          invariant 0 <= i <= |ms|
          invariant ucdmap == Some(NameMap(ms[..i], Name, UcdColumnNames(columns, findByUcd)))
          invariant scans == old(scans) == 0
        {
          var mnemonic := ms[i];
          var colname := UcdColumnName(columns, findByUcd, mnemonic);
          NameMapStep(ms, Name, UcdColumnNames(columns, findByUcd), i);
          ucdmap := Some(ucdmap.value[Name(mnemonic) := colname]);
          i := i + 1;
        }
        assert ms[..i] == ms;
        scans := scans + 1;
      }
      m := ucdmap.value;
    }

    /** `stdcol_to_colname`: a mnemonic's column name from the UCD map; any
        other argument raises ValueError before the map is touched. */
    method StdcolToColname(item: Item) returns (r: Result<Option<string>, Error>)
      requires Valid()
      modifies this`ucdmap, this`scans
      ensures Valid()
      ensures item.Named? ==> r == Err(NotAMnemonic) && ucdmap == old(ucdmap) && scans == old(scans)
      ensures item.Std? ==> ucdmap == Some(UcdMap(columns, findByUcd))
      ensures item.Std? ==> r == Ok(UcdColumnName(columns, findByUcd, item.m))
    {
      if !item.Std? {
        return Err(NotAMnemonic);
      }
      var um := GetUcdMap();
      UcdMapAt(columns, findByUcd, item.m);
      r := Ok(um[Name(item.m)]);
    }

    /** `colname_to_stdcol`: for a column of this table, the last member (in
        enumeration order) that the UCD map sends to it, or none; a name that
        is not a column raises ValueError before the map is touched. */
    method ColnameToStdcol(colname: string) returns (r: Result<Option<ImageColumn>, Error>)
      requires Valid()
      modifies this`ucdmap, this`scans
      ensures Valid()
      ensures colname !in Colnames() ==> r == Err(UnknownColumnName) && ucdmap == old(ucdmap) && scans == old(scans)
      ensures colname in Colnames() ==> ucdmap == Some(UcdMap(columns, findByUcd))
      ensures colname in Colnames() ==> r == Ok(StdcolOf(columns, findByUcd, colname))
    {
      if colname !in Colnames() {
        return Err(UnknownColumnName);
      }
      var um := GetUcdMap();
      UcdMapKeys(columns, findByUcd);
      forall m ensures Name(m) in um {
        NameRoundTrip(m, Name(m));
      }
      var imgcol := FindStdcol(Members(), um, colname);
      r := Ok(imgcol);
    }

    /** `__getitem__`: a mnemonic with no matching column gives none;
        otherwise the column is looked up by name, as for a plain name. */
    method Get(item: Item) returns (r: Result<Option<Column>, Error>)
      requires Valid()
      modifies this`ucdmap, this`scans
      ensures Valid()
      ensures r == ColumnFor(columns, findByUcd, item)
      ensures item.Std? ==> ucdmap == Some(UcdMap(columns, findByUcd))
      ensures item.Named? ==> ucdmap == old(ucdmap) && scans == old(scans)
    {
      var name: Option<string>;
      if item.Std? {
        var looked := StdcolToColname(item);
        name := looked.value;
      } else {
        name := Some(item.name);
      }
      if name.None? {
        return Ok(None);
      }
      var c := ColumnNamed(columns, name.value);
      r := if c.Ok? then Ok(Some(c.value)) else Err(c.error);
    }
  }

  /** One row of an `ImageTable`. */
  class ImRow {
    const table: ImageTable
    const index: nat

    constructor (table: ImageTable, index: nat)
      ensures this.table == table && this.index == index
    {
      this.table := table;
      this.index := index;
    }

    /** `ImRow.__getitem__`: a mnemonic with no matching column gives none;
        otherwise the cell of this row in the named column. */
    method Get(item: Item) returns (r: Result<Option<Value>, Error>)
      requires table.Valid() && index < table.rows
      modifies table`ucdmap, table`scans
      ensures table.Valid()
      ensures item.Std? ==> table.ucdmap == Some(UcdMap(table.columns, table.findByUcd))
      ensures item.Named? ==> table.ucdmap == old(table.ucdmap) && table.scans == old(table.scans)
      ensures r == match ColumnFor(table.columns, table.findByUcd, item)
                   case Ok(None) => Ok(None)
                   case Ok(Some(c)) => Ok(Some(c.cells[index]))
                   case Err(e) => Err(e)
    {
      var col := table.Get(item);
      match col
      case Ok(None) => r := Ok(None);
      case Ok(Some(c)) => r := Ok(Some(c.cells[index]));
      case Err(e) => r := Err(e);
    }
  }
}
