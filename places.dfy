/** Places of the zip-code file: place/Place (built from a CSV row), the two
 *  StateCityZipPlace classes (built from six values), and the two
 *  header-driven factories, PlaceLoader and StateCityZipPlaceFactory.  All
 *  of them are immutable values here; a `null` string field is `None`. */
module Places {
  import opened Wrappers
  import opened JavaText
  import opened CsvRows

  /** `DirectPosition2D`: an ordered pair of doubles. */
  datatype Coordinate = Coordinate(x: Double, y: Double)

  datatype Place = Place(state: Option<string>, abbreviation: Option<string>, name: Option<string>,
                         postalCode: Option<string>, coordinate: Coordinate)

  /** The keys of a Person's attribute map that places and costs use
   *  (`Person.CITY`, `Person.STATE`, `Person.ZIP`). */
  datatype PersonField = CITY | STATE | ZIP

  /** `getX()` and `getY()`: the two axes of the stored coordinate. */
  function X(p: Place): Double { p.coordinate.x }
  function Y(p: Place): Double { p.coordinate.y }

  /** place/Place's row constructor: the four text fields come from the
   *  fixed columns USPS, ST, NAME and ZCTA5; latitude is parsed before
   *  longitude, and the coordinate is stored longitude first. */
  function PlaceOfRow(row: Row, parseDouble: string -> Option<Double>): (r: Result<Place>)
    ensures r.Ok? <==> ParseCell(Cell(row, "LAT"), parseDouble).Ok? && ParseCell(Cell(row, "LON"), parseDouble).Ok?
    ensures ParseCell(Cell(row, "LAT"), parseDouble).Err? ==> r == Err(ParseCell(Cell(row, "LAT"), parseDouble).error)
    ensures r.Ok? ==> r.value.state == Cell(row, "USPS") && r.value.abbreviation == Cell(row, "ST")
                      && r.value.name == Cell(row, "NAME") && r.value.postalCode == Cell(row, "ZCTA5")
    ensures r.Ok? ==> X(r.value) == ParseCell(Cell(row, "LON"), parseDouble).value
                      && Y(r.value) == ParseCell(Cell(row, "LAT"), parseDouble).value
  {
    match ParseCell(Cell(row, "LAT"), parseDouble)
    case Err(e) => Err(e)
    case Ok(lat) =>
      match ParseCell(Cell(row, "LON"), parseDouble)
      case Err(e) => Err(e)
      case Ok(lon) =>
        Ok(Place(Cell(row, "USPS"), Cell(row, "ST"), Cell(row, "NAME"), Cell(row, "ZCTA5"), Coordinate(lon, lat)))
  }

  /** The six-value constructor of both StateCityZipPlace classes: the
   *  values are stored unchanged and the coordinate is latitude first. */
  function StateCityZipPlace(state: Option<string>, abbreviation: Option<string>, name: Option<string>,
                             postalCode: Option<string>, lat: Double, lon: Double): (p: Place)
    ensures p.state == state && p.abbreviation == abbreviation && p.name == name && p.postalCode == postalCode
    ensures X(p) == lat && Y(p) == lon
  {
    Place(state, abbreviation, name, postalCode, Coordinate(lat, lon))
  }

  /** `sameState(s)`: the state name equals `s` ignoring case, or else the
   *  abbreviation does.  A `null` field that gets compared throws. */
  function SameState(p: Place, s: string): (r: Result<bool>)
    ensures p.state.None? ==> r == Err(NULL_POINTER)
    ensures p.state.Some? && EqualsIgnoreCase(p.state.value, s) ==> r == Ok(true)
    ensures p.state.Some? && !EqualsIgnoreCase(p.state.value, s) && p.abbreviation.None? ==> r == Err(NULL_POINTER)
    ensures r.Ok? ==> (r.value <==> EqualsIgnoreCase(p.state.value, s)
                                    || (p.abbreviation.Some? && EqualsIgnoreCase(p.abbreviation.value, s)))
  {
    match p.state
    case None => Err(NULL_POINTER)
    case Some(st) =>
      if EqualsIgnoreCase(st, s) then Ok(true)
      else match p.abbreviation
        case None => Err(NULL_POINTER)
        case Some(ab) => Ok(EqualsIgnoreCase(ab, s))
  }

  /** Matching ignores case: spellings of `s` that differ only in case
   *  give the same answer. */
  lemma SameStateIgnoresCase(p: Place, s: string, t: string)
    requires EqualsIgnoreCase(s, t)
    ensures SameState(p, s) == SameState(p, t)
  {
  }

  /** A place with both names set is in the state it names, whether the
   *  state is given by name or by abbreviation, in any case. */
  lemma SameStateOwnNames(p: Place)
    requires p.state.Some? && p.abbreviation.Some?
    ensures SameState(p, p.state.value) == Ok(true)
    ensures SameState(p, ToLower(p.state.value)) == Ok(true)
    ensures SameState(p, p.abbreviation.value) == Ok(true)
    ensures SameState(p, ToLower(p.abbreviation.value)) == Ok(true)
  {
    ToLowerIdempotent(p.state.value);
    ToLowerIdempotent(p.abbreviation.value);
  }

  /** place/StateCityZipPlace's `makeMapForPerson`: exactly the city and
   *  state attributes, taken from the place's name and state. */
  function MakeMapForPerson(p: Place): (m: map<PersonField, Option<string>>)
    ensures m.Keys == {CITY, STATE}
    ensures m[CITY] == p.name && m[STATE] == p.state
  {
    map[CITY := p.name, STATE := p.state]
  }

  /** The six column headers held by a PlaceLoader or a
   *  StateCityZipPlaceFactory; the constructors store them unchanged. */
  datatype PlaceHeaders = PlaceHeaders(stateHeader: string, abbrHeader: string, nameHeader: string,
                                       postalCodeHeader: string, latHeader: string, lonHeader: string)

  /** The headers place/Place reads and geography/Location configures. */
  const DEFAULT_HEADERS := PlaceHeaders("USPS", "ST", "NAME", "ZCTA5", "LAT", "LON")

  /** `placeFromRow` of both factories: the text fields come from the
   *  configured headers, latitude and longitude are parsed (latitude first)
   *  and handed to the six-value constructor in (lat, lon) order.  Being a
   *  function on values, it changes neither the row nor the headers. */
  function PlaceFromRow(h: PlaceHeaders, row: Row, parseDouble: string -> Option<Double>): (r: Result<Place>)
    ensures r.Ok? <==> ParseCell(Cell(row, h.latHeader), parseDouble).Ok?
                       && ParseCell(Cell(row, h.lonHeader), parseDouble).Ok?
    ensures ParseCell(Cell(row, h.latHeader), parseDouble).Err? ==>
              r == Err(ParseCell(Cell(row, h.latHeader), parseDouble).error)
    ensures r.Ok? ==> r.value == StateCityZipPlace(Cell(row, h.stateHeader), Cell(row, h.abbrHeader),
                                                   Cell(row, h.nameHeader), Cell(row, h.postalCodeHeader),
                                                   ParseCell(Cell(row, h.latHeader), parseDouble).value,
                                                   ParseCell(Cell(row, h.lonHeader), parseDouble).value)
  {
    var state := Cell(row, h.stateHeader);
    var abbreviation := Cell(row, h.abbrHeader);
    var name := Cell(row, h.nameHeader);
    var postalCode := Cell(row, h.postalCodeHeader);
    match ParseCell(Cell(row, h.latHeader), parseDouble)
    case Err(e) => Err(e)
    case Ok(lat) =>
      match ParseCell(Cell(row, h.lonHeader), parseDouble)
      case Err(e) => Err(e)
      case Ok(lon) => Ok(StateCityZipPlace(state, abbreviation, name, postalCode, lat, lon))
  }

  /** place/Place's row constructor and a factory with the default headers
   *  read the same fields from a row and fail alike, but store the
   *  coordinate in opposite axis order. */
  lemma RowConstructorSwapsAxes(row: Row, parseDouble: string -> Option<Double>)
    ensures PlaceOfRow(row, parseDouble).Ok? <==> PlaceFromRow(DEFAULT_HEADERS, row, parseDouble).Ok?
    ensures PlaceOfRow(row, parseDouble).Err? ==>
              PlaceOfRow(row, parseDouble) == PlaceFromRow(DEFAULT_HEADERS, row, parseDouble)
    ensures PlaceOfRow(row, parseDouble).Ok? ==>
              var p := PlaceOfRow(row, parseDouble).value;
              var q := PlaceFromRow(DEFAULT_HEADERS, row, parseDouble).value;
              p.state == q.state && p.abbreviation == q.abbreviation && p.name == q.name
              && p.postalCode == q.postalCode && X(p) == Y(q) && Y(p) == X(q)
  {
  }
}
