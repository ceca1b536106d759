/** The `SpectraColumn` enumeration and the `SpectraTable` / `SpRow`
    classes: spectral-search results whose columns can be addressed by
    mnemonic, through a utype map that each table computes on first use and
    then keeps. */
module SpectraTables {

  import opened Wrappers
  import opened Values
  import opened ColumnMaps

  /** The standard spectral-search columns, in declaration order. */
  datatype SpectraColumn =
    | AccessUrl | Format | Title | Publisher | Length | Position | Extent
    | Size

  /** Iterating over the enumeration visits the members in this order. */
  function Members(): seq<SpectraColumn> {
    [AccessUrl, Format, Title, Publisher, Length, Position, Extent, Size]
  }

  /** The member's `.name`. */
  function Name(m: SpectraColumn): string {
    match m
    case AccessUrl => "ACCESS_URL"
    case Format => "FORMAT"
    case Title => "TITLE"
    case Publisher => "PUBLISHER"
    case Length => "LENGTH"
    case Position => "POSITION"
    case Extent => "EXTENT"
    case Size => "SIZE"
  }

  /** The utype the member's value record carries under 'utype'. */
  function Utype(m: SpectraColumn): string {
    match m
    case AccessUrl => "ssa:Access.Reference"
    case Format => "ssa:Access.Format"
    case Title => "ssa:DataID.Title"
    case Publisher => "ssa:Curation.Publisher"
    case Length => "ssa:Dataset.Length"
    case Position => "ssa:Char.SpatialAxis.Coverage.Location.Value"
    case Extent => "ssa:Char.SpatialAxis.Coverage.Bounds.Extent"
    case Size => "ssa:Access.Size"
  }

  /** The 'required' flag: all but the last column are required. */
  function Required(m: SpectraColumn): bool {
    m != Size
  }

  /** The member's value record, without its free-text description. */
  function EnumValue(m: SpectraColumn): Value {
    Dict(map["utype" := Str(Utype(m)), "required" := Bool(Required(m))])
  }

  /** `SpectraColumn[s]`: the member with that name. */
  function FromName(s: string): Option<SpectraColumn> {
    match s
    case "ACCESS_URL" => Some(AccessUrl)
    case "FORMAT" => Some(Format)
    case "TITLE" => Some(Title)
    case "PUBLISHER" => Some(Publisher)
    case "LENGTH" => Some(Length)
    case "POSITION" => Some(Position)
    case "EXTENT" => Some(Extent)
    case "SIZE" => Some(Size)
    case _ => None
  }

  /** The member's position in the enumeration. */
  function Index(m: SpectraColumn): nat {
    match m
    case AccessUrl => 0
    case Format => 1
    case Title => 2
    case Publisher => 3
    case Length => 4
    case Position => 5
    case Extent => 6
    case Size => 7
  }

  lemma IndexInMembers(m: SpectraColumn)
    ensures Index(m) < |Members()| && Members()[Index(m)] == m
  {
  }

  /** Names and members determine each other. */
  lemma NameRoundTrip(m: SpectraColumn, s: string)
    ensures FromName(Name(m)) == Some(m)
    ensures FromName(s) == Some(m) ==> Name(m) == s
  {
    FromNameOfName(m);
    NameOfFromName(s);
  }

  lemma FromNameOfName(m: SpectraColumn)
    ensures FromName(Name(m)) == Some(m)
  {
  }

  lemma NameOfFromName(s: string)
    ensures FromName(s).Some? ==> Name(FromName(s).value) == s
  {
  }

  /** The enumeration has 8 members, lists every member, and no two share a name. */
  lemma MembersShape()
    ensures |Members()| == 8
    ensures forall m :: m in Members()
    ensures DistinctNames(Members(), Name)
  {
    var ms := Members();
    forall m ensures m in ms {
      IndexInMembers(m);
    }
    forall i, j | 0 <= i < j < |ms| ensures Name(ms[i]) != Name(ms[j]) {
      NameRoundTrip(ms[i], Name(ms[j]));
      NameRoundTrip(ms[j], Name(ms[j]));
    }
  }

  /** `__compute_utype_column_name__`: the name of the column the matcher finds
      for the member's utype, or none. */
  function UtypeColumnName(columns: seq<Column>, find: Matcher, m: SpectraColumn): Option<string> {
    NameOf(find(columns, Str(Utype(m))))
  }

  function UtypeColumnNames(columns: seq<Column>, find: Matcher): SpectraColumn -> Option<string> {
    m => UtypeColumnName(columns, find, m)
  }

  /** The map `get_utypemap` builds: member name to matched column name. */
  function UtypeMap(columns: seq<Column>, find: Matcher): map<string, Option<string>> {
    NameMap(Members(), Name, UtypeColumnNames(columns, find))
  }

  /** The utype map has one entry per member. */
  lemma UtypeMapSize(columns: seq<Column>, find: Matcher)
    ensures |UtypeMap(columns, find)| == 8
  {
    MembersShape();
    NameMapSize(Members(), Name, UtypeColumnNames(columns, find));
  }

  /** The utype map's keys are exactly the member names. */
  lemma UtypeMapKeys(columns: seq<Column>, find: Matcher)
    ensures forall s :: s in UtypeMap(columns, find) <==> FromName(s).Some?
  {
    var ms := Members();
    MembersShape();
    forall s ensures s in UtypeMap(columns, find) <==> FromName(s).Some? {
      NameMapKeys(ms, Name, UtypeColumnNames(columns, find), s);
      if FromName(s).Some? {
        var m := FromName(s).value;
        NameRoundTrip(m, s);
        IndexInMembers(m);
        assert Name(ms[Index(m)]) == s;
      } else if s in UtypeMap(columns, find) {
        var k :| 0 <= k < |ms| && Name(ms[k]) == s;
        NameRoundTrip(ms[k], s);
      }
    }
  }

  /** Under each member's name the utype map holds the name of the column the
      matcher finds for that member's utype. */
  lemma UtypeMapAt(columns: seq<Column>, find: Matcher, m: SpectraColumn)
    ensures Name(m) in UtypeMap(columns, find)
    ensures UtypeMap(columns, find)[Name(m)] == UtypeColumnName(columns, find, m)
  {
    MembersShape();
    IndexInMembers(m);
    NameMapAt(Members(), Name, UtypeColumnNames(columns, find), Index(m));
  }

  /** The member whose name a utype map sends to `colname`. */
  function MapsTo(utypemap: map<string, Option<string>>, colname: string): SpectraColumn -> bool {
    m => Name(m) in utypemap && utypemap[Name(m)] == Some(colname)
  }

  /** The member `colname_to_stdcol` returns for a column of the table: the
      last member, in enumeration order, that the utype map sends to it. */
  function StdcolOf(columns: seq<Column>, find: Matcher, colname: string): Option<SpectraColumn> {
    Last(Members(), MapsTo(UtypeMap(columns, find), colname))
  }

  /** Reverse then forward: the member found for a column name resolves back
      to that column name. */
  lemma ReverseThenForward(columns: seq<Column>, find: Matcher, colname: string)
    requires StdcolOf(columns, find, colname).Some?
    ensures UtypeColumnName(columns, find, StdcolOf(columns, find, colname).value) == Some(colname)
  {
    UtypeMapAt(columns, find, StdcolOf(columns, find, colname).value);
  }

  /** Forward then reverse: a member whose column no other member resolves
      to is recovered from its column name; when several members resolve to
      the same column, the last of them in enumeration order is returned. */
  lemma ForwardThenReverse(columns: seq<Column>, find: Matcher, m: SpectraColumn, colname: string)
    requires UtypeColumnName(columns, find, m) == Some(colname)
    ensures StdcolOf(columns, find, colname).Some?
    ensures (forall m' :: UtypeColumnName(columns, find, m') == Some(colname) ==> m' == m)
            ==> StdcolOf(columns, find, colname) == Some(m)
  {
    UtypeMapAt(columns, find, m);
    var ms := Members();
    IndexInMembers(m);
    assert MapsTo(UtypeMap(columns, find), colname)(ms[Index(m)]);
    var found := StdcolOf(columns, find, colname).value;
    UtypeMapAt(columns, find, found);
    assert UtypeColumnName(columns, find, found) == Some(colname);
  }

  /** A mnemonic, or a plain column name, used as a table or row index. */
  datatype Item = Std(m: SpectraColumn) | Named(name: string)

  /** What `table[item]` returns for a table with these columns: a mnemonic
      with no matching column gives none, otherwise the column is looked up
      by name. */
  function ColumnFor(columns: seq<Column>, find: Matcher, item: Item): Result<Option<Column>, Error> {
    var name := match item
      case Std(m) => UtypeColumnName(columns, find, m)
      case Named(n) => Some(n);
    match name
    case None => Ok(None)
    case Some(n) =>
      match ColumnNamed(columns, n)
      case Ok(c) => Ok(Some(c))
      case Err(e) => Err(e)
  }

  /** The inner loop of `colname_to_stdcol`: scanning the members, the
      one whose name is `img` is recorded, over whatever was recorded before.
      `k` is the position of that member. */
  method MemberNamed(ms: seq<SpectraColumn>, img: string, prior: Option<SpectraColumn>, ghost k: nat)
    returns (imgcol: Option<SpectraColumn>)
    requires k < |ms| && FromName(img) == Some(ms[k])
    ensures imgcol == FromName(img)
  {
    NameOfFromName(img);
    imgcol := prior;
    var j := 0;
    while j < |ms|
      invariant 0 <= j <= |ms|
      invariant k < j ==> imgcol == FromName(img)
    {
      if Name(ms[j]) == img {
        FromNameOfName(ms[j]);
        imgcol := Some(ms[j]);
      }
      j := j + 1;
    }
  }

  /** The nested search of `colname_to_stdcol` over a utype map: the outer
      loop visits the map's items in insertion order, which is enumeration
      order, and at each item mapped to `colname` the inner loop finds the
      member carrying the item's key and records it. `ms` is the
      enumeration in order; `colname_to_stdcol` passes `Members()`. */
  method FindStdcol(ms: seq<SpectraColumn>, utypemap: map<string, Option<string>>, colname: string) returns (imgcol: Option<SpectraColumn>)
    requires forall k :: 0 <= k < |ms| ==> Name(ms[k]) in utypemap
    ensures imgcol == Last(ms, MapsTo(utypemap, colname))
  {
    imgcol := None;
    var i := 0;
    while i < |ms|
      invariant 0 <= i <= |ms|
      invariant imgcol == Last(ms[..i], MapsTo(utypemap, colname))
    {
      var img := Name(ms[i]);
      var col := utypemap[img];
      LastStep(ms, MapsTo(utypemap, colname), i);
      if col == Some(colname) {
        FromNameOfName(ms[i]);
        imgcol := MemberNamed(ms, img, imgcol, i);
      }
      i := i + 1;
    }
    assert ms[..i] == ms;
  }

  class SpectraTable {
    const columns: seq<Column>
    const rows: nat
    const meta: map<string, Value>
    const findByUtype: Matcher
    /** `__utypemap__`: unset until the first mnemonic lookup. */
    var utypemap: Option<map<string, Option<string>>>
    /** How many times the utype map has been computed. */
    ghost var scans: nat

    ghost predicate Valid()
      reads this
    {
      && (forall c :: c in columns ==> |c.cells| == rows)
      && (utypemap.Some? ==> utypemap.value == UtypeMap(columns, findByUtype))
      && scans == (if utypemap.Some? then 1 else 0)
    }

    /** `SpectraTable(result, copy=False)` on a result that converts. */
    constructor (t: ResultTable, findByUtype: Matcher)
      requires WellFormed(t)
      ensures Valid()
      ensures columns == t.columns && rows == t.rows && meta == t.meta
      ensures this.findByUtype == findByUtype && utypemap == None
    {
      columns := t.columns;
      rows := t.rows;
      meta := t.meta;
      this.findByUtype := findByUtype;
      utypemap := None;
      scans := 0;
    }

    function Colnames(): seq<string> {
      ColumnNames(columns)
    }

    /** `get_utypemap`: computes the map when it is unset (or empty), then
        returns the cached map; a second call does not recompute it. */
    method GetUtypeMap() returns (m: map<string, Option<string>>)
      requires Valid()
      modifies this`utypemap, this`scans
      ensures Valid()
      ensures m == UtypeMap(columns, findByUtype) && utypemap == Some(m)
      ensures scans == 1
      ensures old(utypemap).Some? ==> utypemap == old(utypemap) && scans == old(scans)
    {
      UtypeMapSize(columns, findByUtype);
      if utypemap.None? || utypemap.value == map[] {
        utypemap := Some(map[]);
        var ms := Members();
        var i := 0;
        while i < |ms|
          invariant 0 <= i <= |ms|
          invariant utypemap == Some(NameMap(ms[..i], Name, UtypeColumnNames(columns, findByUtype)))
          invariant scans == old(scans) == 0
        {
          var mnemonic := ms[i];
          var colname := UtypeColumnName(columns, findByUtype, mnemonic);
          NameMapStep(ms, Name, UtypeColumnNames(columns, findByUtype), i);
          utypemap := Some(utypemap.value[Name(mnemonic) := colname]);
          i := i + 1;
        }
        assert ms[..i] == ms;
        scans := scans + 1;
      }
      m := utypemap.value;
    }

    /** `stdcol_to_colname`: a mnemonic's column name from the utype map; any
        other argument raises ValueError before the map is touched. */
    method StdcolToColname(item: Item) returns (r: Result<Option<string>, Error>)
      requires Valid()
      modifies this`utypemap, this`scans
      ensures Valid()
      ensures item.Named? ==> r == Err(NotAMnemonic) && utypemap == old(utypemap) && scans == old(scans)
      ensures item.Std? ==> utypemap == Some(UtypeMap(columns, findByUtype))
      ensures item.Std? ==> r == Ok(UtypeColumnName(columns, findByUtype, item.m))
    {
      if !item.Std? {
        return Err(NotAMnemonic);
      }
      var um := GetUtypeMap();
      UtypeMapAt(columns, findByUtype, item.m);
      r := Ok(um[Name(item.m)]);
    }

    /** `colname_to_stdcol`: for a column of this table, the last member (in
        enumeration order) that the utype map sends to it, or none; a name that
        is not a column raises ValueError before the map is touched. */
    method ColnameToStdcol(colname: string) returns (r: Result<Option<SpectraColumn>, Error>)
      requires Valid()
      modifies this`utypemap, this`scans
      ensures Valid()
      ensures colname !in Colnames() ==> r == Err(UnknownColumnName) && utypemap == old(utypemap) && scans == old(scans)
      ensures colname in Colnames() ==> utypemap == Some(UtypeMap(columns, findByUtype))
      ensures colname in Colnames() ==> r == Ok(StdcolOf(columns, findByUtype, colname))
    {
      if colname !in Colnames() {
        return Err(UnknownColumnName);
      }
      var um := GetUtypeMap();
      UtypeMapKeys(columns, findByUtype);
      forall m ensures Name(m) in um {
        NameRoundTrip(m, Name(m));
      }
      var imgcol := FindStdcol(Members(), um, colname);
      r := Ok(imgcol);
    }

    /** `__getitem__`: a mnemonic with no matching column gives none;
        otherwise the column is looked up by name, as for a plain name. */
    method Get(item: Item) returns (r: Result<Option<Column>, Error>)
      requires Valid()
      modifies this`utypemap, this`scans
      ensures Valid()
      ensures r == ColumnFor(columns, findByUtype, item)
      ensures item.Std? ==> utypemap == Some(UtypeMap(columns, findByUtype))
      ensures item.Named? ==> utypemap == old(utypemap) && scans == old(scans)
    {
      var name: Option<string>;
      if item.Std? {
        var looked := StdcolToColname(item);
        name := looked.value;
      } else {
        name := Some(item.name);
      }
      if name.None? {
        return Ok(None);
      }
      var c := ColumnNamed(columns, name.value);
      r := if c.Ok? then Ok(Some(c.value)) else Err(c.error);
    }
  }

  /** One row of an `SpectraTable`. */
  class SpRow {
    const table: SpectraTable
    const index: nat

    constructor (table: SpectraTable, index: nat)
      ensures this.table == table && this.index == index
    {
      this.table := table;
      this.index := index;
    }

    /** `SpRow.__getitem__`: a mnemonic with no matching column gives none;
        otherwise the cell of this row in the named column. */
    method Get(item: Item) returns (r: Result<Option<Value>, Error>)
      requires table.Valid() && index < table.rows
      modifies table`utypemap, table`scans
      ensures table.Valid()
      ensures item.Std? ==> table.utypemap == Some(UtypeMap(table.columns, table.findByUtype))
      ensures item.Named? ==> table.utypemap == old(table.utypemap) && table.scans == old(table.scans)
      ensures r == match ColumnFor(table.columns, table.findByUtype, item)
                   case Ok(None) => Ok(None)
                   case Ok(Some(c)) => Ok(Some(c.cells[index]))
                   case Err(e) => Err(e)
    {
      var col := table.Get(item);
      match col
      case Ok(None) => r := Ok(None);
      case Ok(Some(c)) => r := Ok(Some(c.cells[index]));
      case Err(e) => r := Err(e);
    }
  }
}
