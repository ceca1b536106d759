/** Input normalisation shared by the cone, image and spectral searches:
    the service descriptor, the coordinate list, the per-coordinate radii,
    the image-format keyword, the per-coordinate parameter records, and the
    shape dispatch each per-item search applies to its coordinate. */
module QueryInput {

  import opened Wrappers
  import opened Values
  import opened Text

  /** A string service is a bare access URL and becomes the record
      `{"access_url": service}`; any other service is used as given. */
  function NormalizeService(service: Value): (r: Value)
    ensures service.Str? ==> r.Dict? && r.entries.Keys == {"access_url"} && r.entries["access_url"] == service
    ensures !service.Str? ==> r == service
    ensures !r.Str?
  {
    if service.Str? then Dict(map["access_url" := service]) else service
  }

  /** A string or a SkyCoord is one coordinate and becomes a one-element
      list; a list is used as given; anything else fails the assertion. */
  function NormalizeCoords(coords: Value): (r: Result<seq<Value>, Error>)
    ensures r.Ok? <==> coords.Str? || coords.Sky? || coords.List?
    ensures (coords.Str? || coords.Sky?) ==> r == Ok([coords])
    ensures coords.List? ==> r == Ok(coords.items)
    ensures r.Err? ==> r.error == CoordsNotList
  {
    match coords
    case Str(_) => Ok([coords])
    case Sky(_) => Ok([coords])
    case List(items) => Ok(items)
    case _ => Err(CoordsNotList)
  }

  /** `[x] * n`. */
  function Replicate(x: Value, n: nat): (r: seq<Value>)
    ensures |r| == n
    ensures forall i :: 0 <= i < n ==> r[i] == x
  {
    if n == 0 then [] else Replicate(x, n - 1) + [x]
  }

  /** The radius for each of `n` coordinates: a non-list radius is repeated
      `n` times; a list of radii must have exactly `n` entries. */
  function ExpandRadius(radius: Value, n: nat): (r: Result<seq<Value>, Error>)
    ensures !radius.List? ==> r.Ok? && |r.value| == n && forall i :: 0 <= i < n ==> r.value[i] == radius
    ensures radius.List? ==> (r.Ok? <==> |radius.items| == n)
    ensures radius.List? && r.Ok? ==> r.value == radius.items
    ensures r.Err? ==> r.error == RadiusLengthMismatch
  {
    if !radius.List? then Ok(Replicate(radius, n))
    else if |radius.items| == n then Ok(radius.items)
    else Err(RadiusLengthMismatch)
  }

  /** The image-format keywords in the order they are tested, each with the
      protocol token it selects. */
  const FormatRules: seq<(string, string)> :=
    [("fits", "image/fits"), ("jpeg", "image/jpeg"), ("jpg", "image/jpeg"),
     ("png", "image/png"), ("graphics", "GRAPHICS"), ("all", "ALL")]

  /** The token of the first rule whose keyword occurs in `s`. */
  function FirstHit(rules: seq<(string, string)>, s: string): (r: Option<string>)
    ensures r.Some? ==> exists k :: 0 <= k < |rules| && rules[k].1 == r.value && Contains(s, rules[k].0)
                                  && forall j :: 0 <= j < k ==> !Contains(s, rules[j].0)
    ensures r.None? <==> forall k :: 0 <= k < |rules| ==> !Contains(s, rules[k].0)
  {
    if rules == [] then None
    else if Contains(s, rules[0].0) then Some(rules[0].1)
    else
      var r := FirstHit(rules[1..], s);
      assert r.Some? ==> exists k :: 0 < k < |rules| && rules[k].1 == r.value && Contains(s, rules[k].0)
                                   && forall j :: 0 <= j < k ==> !Contains(s, rules[j].0) by {
        if r.Some? {
          var k :| 0 <= k < |rules[1..]| && rules[1..][k].1 == r.value && Contains(s, rules[1..][k].0)
                   && forall j :: 0 <= j < k ==> !Contains(s, rules[1..][j].0);
          assert rules[k + 1] == rules[1..][k];
          forall j | 0 <= j < k + 1 ensures !Contains(s, rules[j].0) {
            if j > 0 { assert rules[j] == rules[1..][j - 1]; }
          }
        }
      }
      assert r.None? <==> forall k :: 0 <= k < |rules| ==> !Contains(s, rules[k].0) by {
        forall k | 0 < k < |rules| ensures rules[k] == rules[1..][k - 1] { }
      }
      r
  }

  /** The image-format argument as the searches normalise it: `None` stays
      `None`; a string is lowercased and tested for the keywords "fits",
      "jpeg", "jpg", "png", "graphics" and "all" in that order; a string with
      none of them raises, and a value that is not a string has no `lower()`. */
  function MapImageFormat(format: Value): (r: Result<Option<string>, Error>)
    ensures format.NoneValue? ==> r == Ok(None)
    ensures !format.NoneValue? && !format.Str? ==> r == Err(FormatNotText)
    ensures r.Ok? && r.value.Some? ==> r.value.value in {"image/fits", "image/jpeg", "image/png", "GRAPHICS", "ALL"}
    ensures format.Str? && r.Err? ==> r.error == UnrecognisedFormat
  {
    match format
    case NoneValue => Ok(None)
    case Str(f) =>
      if Contains(Lower(f), "fits") then Ok(Some("image/fits"))
      else if Contains(Lower(f), "jpeg") then Ok(Some("image/jpeg"))
      else if Contains(Lower(f), "jpg") then Ok(Some("image/jpeg"))
      else if Contains(Lower(f), "png") then Ok(Some("image/png"))
      else if Contains(Lower(f), "graphics") then Ok(Some("GRAPHICS"))
      else if Contains(Lower(f), "all") then Ok(Some("ALL"))
      else Err(UnrecognisedFormat)
    case _ => Err(FormatNotText)
  }

  /** The rule table read out: each keyword is tried in turn. */
  lemma FirstHitUnrolled(s: string)
    ensures FirstHit(FormatRules, s)
         == if Contains(s, "fits") then Some("image/fits")
            else if Contains(s, "jpeg") then Some("image/jpeg")
            else if Contains(s, "jpg") then Some("image/jpeg")
            else if Contains(s, "png") then Some("image/png")
            else if Contains(s, "graphics") then Some("GRAPHICS")
            else if Contains(s, "all") then Some("ALL")
            else None
  {
    var r1 := FormatRules[1..];
    var r2 := r1[1..];
    var r3 := r2[1..];
    var r4 := r3[1..];
    var r5 := r4[1..];
    assert r5 == [("all", "ALL")] && r5[1..] == [];
    assert FirstHit(r5, s) == if Contains(s, "all") then Some("ALL") else None;
    assert FirstHit(r4, s) == if Contains(s, "graphics") then Some("GRAPHICS") else FirstHit(r5, s);
    assert FirstHit(r3, s) == if Contains(s, "png") then Some("image/png") else FirstHit(r4, s);
    assert FirstHit(r2, s) == if Contains(s, "jpg") then Some("image/jpeg") else FirstHit(r3, s);
    assert FirstHit(r1, s) == if Contains(s, "jpeg") then Some("image/jpeg") else FirstHit(r2, s);
  }

  /** The if-chain is the first-hit reading of the rule table. */
  lemma MapImageFormatIsFirstHit(f: string)
    ensures MapImageFormat(Str(f))
         == match FirstHit(FormatRules, Lower(f))
            case Some(token) => Ok(Some(token))
            case None => Err(UnrecognisedFormat)
  {
    FirstHitUnrolled(Lower(f));
  }

  /** A format string raises exactly when its lowercase form contains none
      of the keywords. */
  lemma FormatRaisesIffNoKeyword(f: string)
    ensures MapImageFormat(Str(f)).Err?
        <==> forall k :: 0 <= k < |FormatRules| ==> !Contains(Lower(f), FormatRules[k].0)
  {
    MapImageFormatIsFirstHit(f);
  }

  /** "graphics" holds no keyword tested before its own: neither "f" nor
      "j" occurs in it, and its one "p" is followed by "h". */
  lemma GraphicsLacksFits()
    ensures !Contains("graphics", "fits")
  {
    AbsentPrefix("graphics", "fits", 1);
  }

  lemma GraphicsLacksJpeg()
    ensures !Contains("graphics", "jpeg")
  {
    AbsentPrefix("graphics", "jpeg", 1);
  }

  lemma GraphicsLacksJpg()
    ensures !Contains("graphics", "jpg")
  {
    AbsentPrefix("graphics", "jpg", 1);
  }

  lemma GraphicsLacksPng()
    ensures !Contains("graphics", "png")
  {
    assert "png"[..2] == "pn";
    assert !MatchesAt("graphics", "pn", 3, 0);
    AbsentPrefix("graphics", "png", 2);
  }

  lemma GraphicsSelectsGraphicsToken()
    ensures MapImageFormat(Str("graphics")) == Ok(Some("GRAPHICS"))
  {
    assert Lower("graphics") == "graphics";
    GraphicsLacksFits();
    GraphicsLacksJpeg();
    GraphicsLacksJpg();
    GraphicsLacksPng();
    ContainsTrivial("graphics");
  }

  lemma JpgSelectsJpegMimeType()
    ensures MapImageFormat(Str("JPG")) == Ok(Some("image/jpeg"))
  {
    assert Lower("JPG") == "jpg";
  }

  lemma UnknownKeywordRaises()
    ensures MapImageFormat(Str("TIFF")) == Err(UnrecognisedFormat)
  {
    assert Lower("TIFF") == "tiff";
  }

  /** The per-coordinate parameter record `{'coords', 'radius', 'image_format'}`. */
  datatype SearchParams = SearchParams(coords: Value, radius: Value, format: Option<string>)

  /** The normalised service and one parameter record per coordinate. */
  datatype Prepared<P> = Prepared(service: Value, params: seq<P>)

  /** The comprehension that builds one record per coordinate. */
  function FanOut(coords: seq<Value>, radii: seq<Value>, format: Option<string>): (params: seq<SearchParams>)
    requires |radii| == |coords|
    ensures |params| == |coords|
    ensures forall i :: 0 <= i < |coords| ==> params[i] == SearchParams(coords[i], radii[i], format)
  {
    seq(|coords|, i requires 0 <= i < |coords| => SearchParams(coords[i], radii[i], format))
  }

  /** Everything an image or spectral search does before calling the query
      loop: the service, the coordinates, the radii and the format are
      normalised in that order, the first failure aborts the call, and
      otherwise one parameter record is built per coordinate, in order. */
  function PrepareSearch(service: Value, coords: Value, radius: Value, format: Value): (r: Result<Prepared<SearchParams>, Error>)
    ensures !(coords.Str? || coords.Sky? || coords.List?) ==> r == Err(CoordsNotList)
    ensures NormalizeCoords(coords).Ok? && radius.List? && |radius.items| != |NormalizeCoords(coords).value|
            ==> r == Err(RadiusLengthMismatch)
    ensures NormalizeCoords(coords).Ok? && ExpandRadius(radius, |NormalizeCoords(coords).value|).Ok?
            && MapImageFormat(format).Err?
            ==> r == Err(MapImageFormat(format).error)
    ensures r.Ok? <==> NormalizeCoords(coords).Ok?
                       && ExpandRadius(radius, |NormalizeCoords(coords).value|).Ok?
                       && MapImageFormat(format).Ok?
    ensures r.Ok? ==> r.value.service == NormalizeService(service)
    ensures r.Ok? ==>
              var cs := NormalizeCoords(coords).value;
              var ps := r.value.params;
              && |ps| == |cs|
              && forall i :: 0 <= i < |ps| ==>
                   && ps[i].coords == cs[i]
                   && ps[i].radius == (if radius.List? then radius.items[i] else radius)
                   && ps[i].format == MapImageFormat(format).value
  {
    var cs :- NormalizeCoords(coords);
    var rs :- ExpandRadius(radius, |cs|);
    var fmt :- MapImageFormat(format);
    Ok(Prepared(NormalizeService(service), FanOut(cs, rs, fmt)))
  }

  /** The parsed position, or the exception `parse_coordinates` raised. */
  function Parsed(c: Option<SkyCoord>): (r: Result<SkyCoord, Error>)
    ensures r.Ok? <==> c.Some?
    ensures c.Some? ==> r.value == c.value
    ensures c.None? ==> r.error == CoordsUnparsable
  {
    match c
    case Some(p) => Ok(p)
    case None => Err(CoordsUnparsable)
  }

  /** The coordinate dispatch of one search: a two-element tuple or list is
      written as "a b" and parsed, a string is parsed, a SkyCoord is used as
      it is, and anything else fails the assertion. `show` is Python's `str()`
      of an element and `parse` is `parse_coordinates`. */
  function ResolveCoordinate(coords: Value, parse: string -> Option<SkyCoord>, show: Value -> string): (r: Result<SkyCoord, Error>)
    ensures (coords.List? || coords.Tuple?) && |coords.items| == 2
            ==> r == Parsed(parse(show(coords.items[0]) + " " + show(coords.items[1])))
    ensures coords.Str? ==> r == Parsed(parse(coords.s))
    ensures coords.Sky? ==> r == Ok(coords.coord)
    ensures r == Err(NotSkyCoord)
            <==> !(coords.Str? || coords.Sky? || ((coords.List? || coords.Tuple?) && |coords.items| == 2))
  {
    if (coords.List? || coords.Tuple?) && |coords.items| == 2 then
      Parsed(parse(show(coords.items[0]) + " " + show(coords.items[1])))
    else if coords.Str? then
      Parsed(parse(coords.s))
    else if coords.Sky? then
      Ok(coords.coord)
    else
      Err(NotSkyCoord)
  }

  /** The request parameters of one image or spectral search: the position and the size
      (the diameter, twice the radius), and `FORMAT` exactly when a format
      was given. `posText` and `sizeText` are the numeric formatting of the
      position and of the size. */
  function SearchRequest(params: SearchParams, parse: string -> Option<SkyCoord>, show: Value -> string,
                         posText: SkyCoord -> string, sizeText: Value -> string)
    : (r: Result<map<string, Value>, Error>)
    ensures r.Ok? <==> ResolveCoordinate(params.coords, parse, show).Ok?
    ensures r.Err? ==> r.error == ResolveCoordinate(params.coords, parse, show).error
    ensures r.Ok? ==> ("FORMAT" in r.value <==> params.format.Some?)
    ensures r.Ok? ==> r.value.Keys == {"POS", "SIZE"} + (if params.format.Some? then {"FORMAT"} else {})
    ensures r.Ok? && params.format.Some? ==> r.value["FORMAT"] == Str(params.format.value)
    ensures r.Ok? ==> r.value["SIZE"] == Str(sizeText(params.radius))
    ensures r.Ok? ==> r.value["POS"] == Str(posText(ResolveCoordinate(params.coords, parse, show).value))
  {
    var c :- ResolveCoordinate(params.coords, parse, show);
    var base := map["POS" := Str(posText(c)), "SIZE" := Str(sizeText(params.radius))];
    if params.format.Some? then Ok(base["FORMAT" := Str(params.format.value)]) else Ok(base)
  }

  /** The calls one search makes into code outside this model:
      `parse_coordinates`, `str()` of a coordinate element, the numeric
      formatting of a position and of a size, and `utils.try_query` (given
      the service, the request parameters, the timeout and the retry count)
      followed by `astropy_table_from_votable_response`. */
  datatype SearchCalls = SearchCalls(
    parse: string -> Option<SkyCoord>,
    show: Value -> string,
    posText: SkyCoord -> string,
    sizeText: Value -> string,
    tryQuery: (Value, map<string, Value>, nat, nat) -> Result<ResultTable, Error>)

  /** `utils.query_loop(one_search, service, params)`: it is handed the
      per-item search, the service and the parameter records; how it runs
      the searches, and what it does with one that raises, is not part of
      this model. */
  type QueryLoop<!P> = ((Value, P) -> Result<ResultTable, Error>, Value, seq<P>) -> seq<ResultTable>
}
