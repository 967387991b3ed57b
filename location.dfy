/** Location, in both of its versions (geography/Location and
 *  geography/location/Location): the demographics of one state, or of one
 *  city in it, together with the zip-code places of that state.  A Location
 *  never changes after its constructor, so it is a value here; the
 *  constructor, whose two loops fill the population and zip-code tables,
 *  is the method `Build`.  The random source is a parameter: `u` stands for
 *  `random.nextDouble()` and `nextInt` for `person.randInt`. */
module Locations {
  import opened Wrappers
  import opened JavaText
  import opened CsvRows
  import opened LinkedMaps
  import opened Places
  import opened Demographics
  import opened StateAbbreviations

  /** `allDemographics.row(state)`: city name -> demographics of that city,
   *  in the row map's iteration order. */
  type CityRow = Linked<string, Profile>

  /** `zipCodes`: place name (possibly `null`) -> the places of that name. */
  type ZipTable = map<Option<string>, seq<Place>>

  datatype Location = Location(totalPopulation: int, populationByCity: Linked<Option<string>, int>,
                               zipCodes: ZipTable, city: Option<string>, demographics: map<string, Profile>)

  // ------------------------------------------------------------ population

  /** The (city, population) pair the constructor's loop takes from each
   *  demographics entry: the city named inside the entry, not its key. */
  function CityPopulations(cities: CityRow): (ps: Linked<Option<string>, int>)
    ensures |ps| == |cities|
    ensures forall i :: 0 <= i < |cities| ==> ps[i] == (cities[i].1.city, cities[i].1.population)
  {
    seq(|cities|, i requires 0 <= i < |cities| => (cities[i].1.city, cities[i].1.population))
  }

  /** The sum of the first `n` populations. */
  function Cumulative(pops: Linked<Option<string>, int>, n: nat): int
    requires n <= |pops|
  {
    if n == 0 then 0 else pops[0].1 + Cumulative(pops[1..], n - 1)
  }

  lemma {:induction false} CumulativeStep(pops: Linked<Option<string>, int>, n: nat)
    requires n < |pops|
    ensures Cumulative(pops, n + 1) == Cumulative(pops, n) + pops[n].1
  {
    if n > 0 {
      CumulativeStep(pops[1..], n - 1);
    }
  }

  /** `demographics.containsKey`/`get` on the row. */
  function RowMap(cities: CityRow): (m: map<string, Profile>)
    ensures forall k :: k in m <==> k in Keys(cities)
    ensures forall k :: k in m ==> Get(cities, k) == Some(m[k])
  {
    map k | k in Keys(cities) :: Get(cities, k).value
  }

  // ------------------------------------------------------------- zip codes

  /** A line is usable when its place can be built and its state compared. */
  predicate Usable(state: string, row: Row, h: PlaceHeaders, parse: string -> Option<Double>) {
    PlaceFromRow(h, row, parse).Ok? && SameState(PlaceFromRow(h, row, parse).value, state).Ok?
  }

  /** A usable line whose place lies in the state. */
  predicate InState(state: string, row: Row, h: PlaceHeaders, parse: string -> Option<Double>) {
    Usable(state, row, h, parse) && SameState(PlaceFromRow(h, row, parse).value, state).value
  }

  /** What one zip-code line contributes to the table: its place when the
   *  place lies in `state`, nothing when it does not (`continue`), or the
   *  exception that building or comparing the place throws. */
  function LineOutcome(state: string, row: Row, h: PlaceHeaders, parse: string -> Option<Double>): (r: Result<Option<Place>>)
    ensures r.Ok? <==> Usable(state, row, h, parse)
    ensures r.Ok? ==> (r.value.Some? <==> InState(state, row, h, parse))
    ensures r.Ok? && r.value.Some? ==> r.value.value == PlaceFromRow(h, row, parse).value
  {
    match PlaceFromRow(h, row, parse)
    case Err(e) => Err(e)
    case Ok(p) =>
      match SameState(p, state)
      case Err(e) => Err(e)
      case Ok(same) => Ok(if same then Some(p) else None)
  }

  /** The places of the zip-code lines that lie in `state`, in line order;
   *  the first line that throws aborts the loop with its exception. */
  function KeptPlaces(state: string, lines: seq<Row>, h: PlaceHeaders, parse: string -> Option<Double>): (r: Result<seq<Place>>)
    decreases |lines|
  {
    if |lines| == 0 then Ok([])
    else
      match KeptPlaces(state, lines[..|lines| - 1], h, parse)
      case Err(e) => Err(e)
      case Ok(kept) =>
        match LineOutcome(state, lines[|lines| - 1], h, parse)
        case Err(e) => Err(e)
        case Ok(None) => Ok(kept)
        case Ok(Some(p)) => Ok(kept + [p])
  }

  /** Once a prefix of the lines fails, the whole file fails alike. */
  lemma {:induction false} KeptErrorPersists(state: string, lines: seq<Row>, n: nat, h: PlaceHeaders,
                                             parse: string -> Option<Double>)
    requires n <= |lines| && KeptPlaces(state, lines[..n], h, parse).Err?
    ensures KeptPlaces(state, lines, h, parse) == KeptPlaces(state, lines[..n], h, parse)
    decreases |lines|
  {
    if n == |lines| {
      assert lines[..n] == lines;
    } else {
      var init := lines[..|lines| - 1];
      assert init[..n] == lines[..n];
      KeptErrorPersists(state, init, n, h, parse);
    }
  }

  /** The zip-code loop succeeds exactly when no line throws ... */
  lemma {:induction false} KeptPlacesOk(state: string, lines: seq<Row>, h: PlaceHeaders, parse: string -> Option<Double>)
    ensures KeptPlaces(state, lines, h, parse).Ok?
            <==> forall i :: 0 <= i < |lines| ==> LineOutcome(state, lines[i], h, parse).Ok?
  {
    if |lines| > 0 {
      var init := lines[..|lines| - 1];
      KeptPlacesOk(state, init, h, parse);
      assert forall i :: 0 <= i < |init| ==> init[i] == lines[i];
    }
  }

  /** ... and then keeps exactly the places of the lines in the state. */
  lemma {:induction false} KeptPlacesMembers(state: string, lines: seq<Row>, h: PlaceHeaders, parse: string -> Option<Double>)
    requires KeptPlaces(state, lines, h, parse).Ok?
    ensures forall p :: p in KeptPlaces(state, lines, h, parse).value <==>
                        exists i :: 0 <= i < |lines| && LineOutcome(state, lines[i], h, parse) == Ok(Some(p))
  {
    if |lines| > 0 {
      var init := lines[..|lines| - 1];
      assert KeptPlaces(state, init, h, parse).Ok?;
      KeptPlacesMembers(state, init, h, parse);
      assert forall i :: 0 <= i < |init| ==> init[i] == lines[i];
    }
  }

  /** The places of `ps` named `name`, in order. */
  function Group(ps: seq<Place>, name: Option<string>): (g: seq<Place>)
    ensures forall p :: p in g <==> p in ps && p.name == name
  {
    if |ps| == 0 then []
    else
      var init := ps[..|ps| - 1];
      assert forall p :: p in ps <==> p in init || p == ps[|ps| - 1];
      Group(init, name) + if ps[|ps| - 1].name == name then [ps[|ps| - 1]] else []
  }

  /** The zip-code table the loop builds from the kept places. */
  function GroupsOf(ps: seq<Place>): ZipTable {
    if |ps| == 0 then map[]
    else
      var g := GroupsOf(ps[..|ps| - 1]);
      var p := ps[|ps| - 1];
      g[p.name := (if p.name in g then g[p.name] else []) + [p]]
  }

  lemma GroupsOfSnoc(ps: seq<Place>, p: Place)
    ensures GroupsOf(ps + [p]) == GroupsOf(ps)[p.name := (if p.name in GroupsOf(ps) then GroupsOf(ps)[p.name] else []) + [p]]
  {
    assert (ps + [p])[..|ps|] == ps;
  }

  /** The table has a non-empty group for exactly the names that occur,
   *  and each group holds the places of that name in line order. */
  lemma {:induction false} GroupsOfFilters(ps: seq<Place>, name: Option<string>)
    ensures name in GroupsOf(ps) <==> Group(ps, name) != []
    ensures name in GroupsOf(ps) ==> GroupsOf(ps)[name] == Group(ps, name)
  {
    if |ps| > 0 {
      GroupsOfFilters(ps[..|ps| - 1], name);
    }
  }

  // ----------------------------------------------------------- constructor

  /** What the constructor yields: every failure, in the demographics or
   *  in the zip-code file, becomes an ExceptionInInitializerError. */
  function Constructed(state: string, city: Option<string>, cities: Option<CityRow>, zipLines: Option<seq<Row>>,
                       h: PlaceHeaders, parse: string -> Option<Double>): (r: Result<Location>)
    ensures r.Err? ==> r.error == INITIALIZER_ERROR
  {
    match cities
    case None => Err(INITIALIZER_ERROR)
    case Some(cs) =>
      if city.Some? && city.value !in Keys(cs) then Err(INITIALIZER_ERROR)
      else
        match zipLines
        case None => Err(INITIALIZER_ERROR)
        case Some(lines) =>
          match KeptPlaces(state, lines, h, parse)
          case Err(_) => Err(INITIALIZER_ERROR)
          case Ok(kept) =>
            var pops := CityPopulations(cs);
            Ok(Location(Cumulative(pops, |pops|), PutAll([], pops), GroupsOf(kept), city, RowMap(cs)))
  }

  /** A constructed location holds the state's kept places, grouped by
   *  name, and the cities' populations in line order. */
  lemma ConstructedShape(state: string, city: Option<string>, cities: Option<CityRow>, zipLines: Option<seq<Row>>,
                         h: PlaceHeaders, parse: string -> Option<Double>)
    requires Constructed(state, city, cities, zipLines, h, parse).Ok?
    ensures cities.Some? && zipLines.Some? && KeptPlaces(state, zipLines.value, h, parse).Ok?
    ensures Constructed(state, city, cities, zipLines, h, parse).value.zipCodes
            == GroupsOf(KeptPlaces(state, zipLines.value, h, parse).value)
    ensures Constructed(state, city, cities, zipLines, h, parse).value.populationByCity
            == PutAll([], CityPopulations(cities.value))
  {
  }

  /** The constructor's first loop: the running total and the
   *  insertion-ordered city -> population table. */
  method TallyPopulation(cities: CityRow) returns (total: int, populationByCity: Linked<Option<string>, int>)
    ensures total == Cumulative(CityPopulations(cities), |cities|)
    ensures populationByCity == PutAll([], CityPopulations(cities))
  {
    var pops := CityPopulations(cities);
    total := 0;
    populationByCity := [];
    for j := 0 to |cities|
      invariant total == Cumulative(pops, j)
      invariant populationByCity == PutAll([], pops[..j])
    {
      CumulativeStep(pops, j);
      assert pops[..j + 1][..j] == pops[..j];
      total := total + cities[j].1.population;
      populationByCity := Put(populationByCity, cities[j].1.city, cities[j].1.population);
    }
    assert pops[..|cities|] == pops;
  }

  /** The constructor's second loop: the state's places grouped by name;
   *  the first failing line ends it with that line's exception. */
  method GroupZipCodes(state: string, lines: seq<Row>, h: PlaceHeaders, parse: string -> Option<Double>)
    returns (r: Result<ZipTable>)
    ensures KeptPlaces(state, lines, h, parse).Err? ==> r == Err(KeptPlaces(state, lines, h, parse).error)
    ensures KeptPlaces(state, lines, h, parse).Ok? ==> r == Ok(GroupsOf(KeptPlaces(state, lines, h, parse).value))
  {
    ghost var kept: seq<Place> := [];
    var zipCodes: ZipTable := map[];
    var i := 0;
    while i < |lines|
      invariant 0 <= i <= |lines|
      invariant KeptPlaces(state, lines[..i], h, parse) == Ok(kept)
      invariant zipCodes == GroupsOf(kept)
    {
      assert lines[..i + 1][..i] == lines[..i];
      var outcome := LineOutcome(state, lines[i], h, parse);
      if outcome.Err? {
        KeptErrorPersists(state, lines, i + 1, h, parse);
        return Err(outcome.error);
      }
      if outcome.value.Some? {
        var p := outcome.value.value;
        GroupsOfSnoc(kept, p);
        if p.name !in zipCodes {
          zipCodes := zipCodes[p.name := []];
        }
        zipCodes := zipCodes[p.name := zipCodes[p.name] + [p]];
        kept := kept + [p];
      }
      i := i + 1;
    }
    assert lines[..|lines|] == lines;
    return Ok(zipCodes);
  }

  /** The constructor.  `cities` is the state's row of the loaded
   *  demographics table and `zipLines` the parsed zip-code file; `None`
   *  stands for a load that threw.  Each of the two stages turns any
   *  exception into an ExceptionInInitializerError. */
  method Build(state: string, city: Option<string>, cities: Option<CityRow>, zipLines: Option<seq<Row>>,
               h: PlaceHeaders, parse: string -> Option<Double>) returns (r: Result<Location>)
    ensures r == Constructed(state, city, cities, zipLines, h, parse)
  {
    if cities.None? {
      return Err(INITIALIZER_ERROR);
    }
    var cs := cities.value;
    var demographics := RowMap(cs);
    if city.Some? && city.value !in demographics {
      return Err(INITIALIZER_ERROR);
    }
    var total, populationByCity := TallyPopulation(cs);
    if zipLines.None? {
      return Err(INITIALIZER_ERROR);
    }
    var zipCodes := GroupZipCodes(state, zipLines.value, h, parse);
    if zipCodes.Err? {
      return Err(INITIALIZER_ERROR);
    }
    return Ok(Location(total, populationByCity, zipCodes.value, city, demographics));
  }

  /** The constructor succeeds exactly when the row was loaded, names the
   *  configured city (if any), and the zip-code file was read and none of
   *  its lines throws while its place is built or compared. */
  lemma BuiltLocationOk(state: string, city: Option<string>, cities: Option<CityRow>, zipLines: Option<seq<Row>>,
                        h: PlaceHeaders, parse: string -> Option<Double>)
    ensures Constructed(state, city, cities, zipLines, h, parse).Ok?
            <==> cities.Some? && (city.Some? ==> city.value in Keys(cities.value)) && zipLines.Some?
                 && forall i :: 0 <= i < |zipLines.value| ==> LineOutcome(state, zipLines.value[i], h, parse).Ok?
  {
    if cities.Some? && zipLines.Some? {
      KeptPlacesOk(state, zipLines.value, h, parse);
    }
  }

  /** A successful construction keeps the configured city, knows every city
   *  of the row, totals every entry's population and holds, for every city
   *  named in some entry, the population of the last such entry; its zip
   *  table groups exactly the places of the state's lines by name. */
  lemma BuiltLocationFields(state: string, city: Option<string>, cities: Option<CityRow>, zipLines: Option<seq<Row>>,
                            h: PlaceHeaders, parse: string -> Option<Double>)
    requires Constructed(state, city, cities, zipLines, h, parse).Ok?
    ensures cities.Some? && zipLines.Some?
    ensures var loc := Constructed(state, city, cities, zipLines, h, parse).value;
            var pops := CityPopulations(cities.value);
            && loc.city == city
            && loc.demographics.Keys == set k | k in Keys(cities.value)
            && loc.totalPopulation == Cumulative(pops, |pops|)
            && (forall c :: Get(loc.populationByCity, c) == LastValue(pops, c))
            && loc.zipCodes == GroupsOf(KeptPlaces(state, zipLines.value, h, parse).value)
  {
    var cs := cities.value;
    var kept := KeptPlaces(state, zipLines.value, h, parse).value;
    var pops := CityPopulations(cs);
    var loc := Constructed(state, city, cities, zipLines, h, parse).value;
    assert loc == Location(Cumulative(pops, |pops|), PutAll([], pops), GroupsOf(kept), city, RowMap(cs));
    forall c ensures Get(loc.populationByCity, c) == LastValue(pops, c) {
      PutAllGet(pops, c);
    }
  }

  // ------------------------------------------------------ city lookups

  /** `getZipCode`: the exact name, else the name + " Town"; a missing or
   *  empty group gives the dummy "00000", else the group's first postal
   *  code. */
  function ZipCode(loc: Location, cityName: string): (r: Option<string>)
    ensures Some(cityName) in loc.zipCodes && loc.zipCodes[Some(cityName)] != [] ==>
              r == loc.zipCodes[Some(cityName)][0].postalCode
    ensures Some(cityName) in loc.zipCodes && loc.zipCodes[Some(cityName)] == [] ==> r == Some("00000")
    ensures Some(cityName) !in loc.zipCodes && Some(cityName + " Town") in loc.zipCodes ==>
              r == (if loc.zipCodes[Some(cityName + " Town")] == [] then Some("00000")
                    else loc.zipCodes[Some(cityName + " Town")][0].postalCode)
    ensures Some(cityName) !in loc.zipCodes && Some(cityName + " Town") !in loc.zipCodes ==> r == Some("00000")
  {
    var zips :=
      if Some(cityName) in loc.zipCodes then Some(loc.zipCodes[Some(cityName)])
      else if Some(cityName + " Town") in loc.zipCodes then Some(loc.zipCodes[Some(cityName + " Town")])
      else None;
    if zips.None? || zips.value == [] then Some("00000") else zips.value[0].postalCode
  }

  /** For a built location: the postal code of the first zip-code line of
   *  the state named like the city (or like the city + " Town"), and the
   *  dummy only when no line of the state bears either name. */
  lemma ZipCodeOfFirstLine(loc: Location, kept: seq<Place>, cityName: string)
    requires loc.zipCodes == GroupsOf(kept)
    ensures Group(kept, Some(cityName)) != [] ==> ZipCode(loc, cityName) == Group(kept, Some(cityName))[0].postalCode
    ensures Group(kept, Some(cityName)) == [] && Group(kept, Some(cityName + " Town")) != [] ==>
              ZipCode(loc, cityName) == Group(kept, Some(cityName + " Town"))[0].postalCode
    ensures Group(kept, Some(cityName)) == [] && Group(kept, Some(cityName + " Town")) == [] ==>
              ZipCode(loc, cityName) == Some("00000")
  {
    GroupsOfFilters(kept, Some(cityName));
    GroupsOfFilters(kept, Some(cityName + " Town"));
  }

  /** `getPopulation`: 0 for a city the table does not know. */
  function Population(loc: Location, cityName: string): (r: int)
    ensures Some(cityName) !in Keys(loc.populationByCity) ==> r == 0
    ensures Some(cityName) in Keys(loc.populationByCity) ==> Some(r) == Get(loc.populationByCity, Some(cityName))
  {
    GetOrDefault(loc.populationByCity, Some(cityName), 0)
  }

  /** The cities named inside the demographics entries are pairwise
   *  different (the loaders name each entry after its own key). */
  ghost predicate DistinctCities(cities: CityRow) {
    forall i, j :: 0 <= i < j < |cities| ==> cities[i].1.city != cities[j].1.city
  }

  /** For a built location whose entries name different cities, each city
   *  has its own entry's population, and every other name has 0. */
  lemma {:induction false} PopulationOfEachCity(state: string, city: Option<string>, cities: CityRow,
                                                zipLines: Option<seq<Row>>, h: PlaceHeaders,
                                                parse: string -> Option<Double>, cityName: string)
    requires Constructed(state, city, Some(cities), zipLines, h, parse).Ok?
    requires DistinctCities(cities)
    ensures var loc := Constructed(state, city, Some(cities), zipLines, h, parse).value;
            (forall i :: 0 <= i < |cities| && cities[i].1.city == Some(cityName) ==>
                           Population(loc, cityName) == cities[i].1.population)
            && ((forall i :: 0 <= i < |cities| ==> cities[i].1.city != Some(cityName)) ==> Population(loc, cityName) == 0)
  {
    var pops := CityPopulations(cities);
    PutAllGet(pops, Some(cityName));
    ConstructedShape(state, city, Some(cities), zipLines, h, parse);
    var loc := Constructed(state, city, Some(cities), zipLines, h, parse).value;
    match LastValue(pops, Some(cityName))
    case None =>
    case Some(v) =>
      var k :| 0 <= k < |pops| && pops[k] == (Some(cityName), v);
      assert cities[k].1.city == Some(cityName) && cities[k].1.population == v;
      forall i | 0 <= i < |cities| && cities[i].1.city == Some(cityName)
        ensures i == k
      {
      }
  }

  // --------------------------------------------------- weighted city pick

  /** `(long) (random.nextDouble() * totalPopulation)`. */
  function Target(u: real, total: int): int {
    Truncate(u * total as real)
  }

  /** A draw in [0, 1) against a positive total lands in [0, total). */
  lemma TargetInRange(u: real, total: int)
    requires 0.0 <= u < 1.0 && total > 0
    ensures 0 <= Target(u, total) < total
  {
    var t := total as real;
    MulPositive(1.0 - u, t);
    assert (1.0 - u) * t == t - u * t;
    MulNonNegative(u, t);
  }

  lemma MulPositive(a: real, b: real)
    requires a > 0.0 && b > 0.0
    ensures a * b > 0.0
  {
  }

  /** The cumulative-subtraction loop of `randomCityName`: the city at
   *  which the running target drops below zero, or a RuntimeException. */
  function PickCity(pops: Linked<Option<string>, int>, target: int): (r: Result<Option<string>>)
    ensures r.Err? ==> r.error == RUNTIME
    ensures r.Ok? ==> exists p :: p in pops && p.0 == r.value
    ensures |pops| > 0 && target < pops[0].1 ==> r == Ok(pops[0].0)
    decreases |pops|
  {
    if |pops| == 0 then Err(RUNTIME)
    else if target - pops[0].1 < 0 then Ok(pops[0].0)
    else PickCity(pops[1..], target - pops[0].1)
  }

  /** City `i` is the first whose cumulative population exceeds `target`. */
  ghost predicate FirstExceeding(pops: Linked<Option<string>, int>, target: int, i: int) {
    0 <= i < |pops| && target < Cumulative(pops, i + 1)
    && forall n :: 0 < n <= i ==> Cumulative(pops, n) <= target
  }

  /** The pick is the first city whose cumulative population exceeds the
   *  target, and the loop throws exactly when no city does. */
  lemma {:induction false} PickCityFirstExceeding(pops: Linked<Option<string>, int>, target: int)
    ensures PickCity(pops, target).Err? ==>
              PickCity(pops, target).error == RUNTIME
              && forall n :: 0 < n <= |pops| ==> Cumulative(pops, n) <= target
    ensures PickCity(pops, target).Ok? ==>
              exists i :: FirstExceeding(pops, target, i) && pops[i].0 == PickCity(pops, target).value
    decreases |pops|
  {
    if |pops| > 0 {
      var rest := target - pops[0].1;
      assert Cumulative(pops, 1) == pops[0].1 + Cumulative(pops[1..], 0);
      if rest < 0 {
        assert FirstExceeding(pops, target, 0);
      } else {
        var tail := pops[1..];
        assert PickCity(pops, target) == PickCity(tail, rest);
        PickCityFirstExceeding(tail, rest);
        forall n | 0 < n <= |pops|
          ensures Cumulative(pops, n) == pops[0].1 + Cumulative(tail, n - 1)
        {
        }
        if PickCity(pops, target).Ok? {
          var i :| FirstExceeding(tail, rest, i) && tail[i].0 == PickCity(tail, rest).value;
          forall n | 0 < n <= i + 1
            ensures Cumulative(pops, n) <= target
          {
            if n > 1 {
              assert Cumulative(tail, n - 1) <= rest;
            }
          }
          assert FirstExceeding(pops, target, i + 1);
        } else {
          forall n | 0 < n <= |pops|
            ensures Cumulative(pops, n) <= target
          {
            if n > 1 {
              assert Cumulative(tail, n - 1) <= rest;
            }
          }
        }
      }
    }
  }

  /** `randomCityName`: subtracts each city's population from the target
   *  in iteration order and returns the first city that takes it below
   *  zero. */
  method RandomCityName(loc: Location, u: real) returns (r: Result<Option<string>>)
    ensures r == PickCity(loc.populationByCity, Target(u, loc.totalPopulation))
  {
    var pops := loc.populationByCity;
    var targetPop := Target(u, loc.totalPopulation);
    var i := 0;
    while i < |pops|
      invariant 0 <= i <= |pops|
      invariant PickCity(pops[i..], targetPop) == PickCity(pops, Target(u, loc.totalPopulation))
    {
      assert pops[i..][1..] == pops[i + 1..];
      targetPop := targetPop - pops[i].1;
      if targetPop < 0 {
        return Ok(pops[i].0);
      }
      i := i + 1;
    }
    return Err(RUNTIME);
  }

  /** For a built location whose entries name different cities and whose
   *  total is positive, a draw in [0, 1) always picks a city of the row:
   *  the "should never happen" exception indeed cannot happen.  A loaded
   *  row meets the first condition, since each entry names the city it is
   *  keyed by (`DemographicsLoading.TableEntryNamesItsCity`) and a row's
   *  keys are different. */
  lemma {:induction false} RandomCityNameSucceeds(state: string, city: Option<string>, cities: CityRow,
                                                  zipLines: Option<seq<Row>>, h: PlaceHeaders,
                                                  parse: string -> Option<Double>, u: real)
    requires Constructed(state, city, Some(cities), zipLines, h, parse).Ok?
    requires DistinctCities(cities)
    requires Constructed(state, city, Some(cities), zipLines, h, parse).value.totalPopulation > 0
    requires 0.0 <= u < 1.0
    ensures var loc := Constructed(state, city, Some(cities), zipLines, h, parse).value;
            PickCity(loc.populationByCity, Target(u, loc.totalPopulation)).Ok?
            && exists i :: 0 <= i < |cities|
                           && PickCity(loc.populationByCity, Target(u, loc.totalPopulation)).value == cities[i].1.city
  {
    var loc := Constructed(state, city, Some(cities), zipLines, h, parse).value;
    var pops := CityPopulations(cities);
    PutAllFresh(pops);
    assert loc.populationByCity == pops;
    var target := Target(u, loc.totalPopulation);
    TargetInRange(u, loc.totalPopulation);
    assert |pops| > 0;
    assert target < Cumulative(pops, |pops|);
    PickCityFirstExceeding(pops, target);
    assert PickCity(pops, target).Ok?;
    var i :| FirstExceeding(pops, target, i) && pops[i].0 == PickCity(pops, target).value;
    assert pops[i].0 == cities[i].1.city;
  }

  /** Putting entries with pairwise different keys into an empty map
   *  gives back exactly those entries. */
  lemma {:induction false} PutAllFresh(pops: Linked<Option<string>, int>)
    requires forall i, j :: 0 <= i < j < |pops| ==> pops[i].0 != pops[j].0
    ensures PutAll([], pops) == pops
  {
    if |pops| > 0 {
      var init := pops[..|pops| - 1];
      PutAllFresh(init);
      PutAppends(init, pops[|pops| - 1].0, pops[|pops| - 1].1);
      assert init + [pops[|pops| - 1]] == pops;
    }
  }

  /** `put` of a new key appends it. */
  lemma {:induction false} PutAppends<K(!new), V>(l: Linked<K, V>, k: K, v: V)
    requires forall i :: 0 <= i < |l| ==> l[i].0 != k
    ensures Put(l, k, v) == l + [(k, v)]
  {
    if |l| > 0 {
      PutAppends(l[1..], k, v);
      assert [l[0]] + (l[1..] + [(k, v)]) == l + [(k, v)];
    }
  }

  /** `demographics.get(name)`: `null` when the name is `null` or unknown. */
  function CityProfile(loc: Location, name: Option<string>): (r: Option<Profile>)
    ensures r.Some? <==> name.Some? && name.value in loc.demographics
    ensures r.Some? ==> r.value == loc.demographics[name.value]
  {
    if name.Some? && name.value in loc.demographics then Some(loc.demographics[name.value]) else None
  }

  /** `randomCity`: the configured city's demographics if there is one,
   *  else those of a population-weighted pick. */
  method RandomCity(loc: Location, u: real) returns (r: Result<Option<Profile>>)
    ensures loc.city.Some? ==> r == Ok(CityProfile(loc, loc.city))
    ensures loc.city.None? && PickCity(loc.populationByCity, Target(u, loc.totalPopulation)).Err? ==>
              r == Err(RUNTIME)
    ensures loc.city.None? && PickCity(loc.populationByCity, Target(u, loc.totalPopulation)).Ok? ==>
              r == Ok(CityProfile(loc, PickCity(loc.populationByCity, Target(u, loc.totalPopulation)).value))
  {
    if loc.city.Some? {
      return Ok(CityProfile(loc, loc.city));
    }
    var name := RandomCityName(loc, u);
    PickCityFirstExceeding(loc.populationByCity, Target(u, loc.totalPopulation));
    if name.Err? {
      return Err(name.error);
    }
    return Ok(CityProfile(loc, name.value));
  }

  /** Every entry is named after its own key (as both loaders build it). */
  ghost predicate NamedAfterKeys(cities: CityRow) {
    forall i :: 0 <= i < |cities| ==> cities[i].1.city == Some(cities[i].0)
  }

  /** For a built location whose entries are named after their keys, a
   *  configured city always has demographics, and so does every city the
   *  weighted pick can return. */
  lemma RandomCityHasDemographics(state: string, city: Option<string>, cities: CityRow,
                                  zipLines: Option<seq<Row>>, h: PlaceHeaders,
                                  parse: string -> Option<Double>, u: real)
    requires Constructed(state, city, Some(cities), zipLines, h, parse).Ok?
    requires NamedAfterKeys(cities)
    ensures var loc := Constructed(state, city, Some(cities), zipLines, h, parse).value;
            (city.Some? ==> CityProfile(loc, city).Some?)
            && (PickCity(loc.populationByCity, Target(u, loc.totalPopulation)).Ok? ==>
                  CityProfile(loc, PickCity(loc.populationByCity, Target(u, loc.totalPopulation)).value).Some?)
  {
    var loc := Constructed(state, city, Some(cities), zipLines, h, parse).value;
    var pops := CityPopulations(cities);
    assert loc.populationByCity == PutAll([], pops);
    assert loc.demographics == RowMap(cities);
    var target := Target(u, loc.totalPopulation);
    if PickCity(loc.populationByCity, target).Ok? {
      PickCityFirstExceeding(loc.populationByCity, target);
      var name := PickCity(loc.populationByCity, target).value;
      var i :| FirstExceeding(loc.populationByCity, target, i) && loc.populationByCity[i].0 == name;
      PutAllKeys(pops);
      assert Keys(loc.populationByCity)[i] == name;
      assert name in Keys(pops);
      var k :| 0 <= k < |pops| && Keys(pops)[k] == name;
      assert name == Some(cities[k].0);
      assert Keys(cities)[k] == cities[k].0;
    }
  }

  // ------------------------------------------------------------ assignPoint

  /** `cityName + suffix`, where Java renders a `null` name as "null". */
  function Concat(name: Option<string>, suffix: string): string {
    (if name.None? then "null" else name.value) + suffix
  }

  /** The names `assignPoint` tries, in order: the name itself, then with
   *  " Town", " Center", " City" and " corporation" appended, and last,
   *  for a name with a space, the name without its last word. */
  function Candidates(name: Option<string>): (cs: seq<Option<string>>)
    ensures 5 <= |cs| <= 6 && cs[0] == name
  {
    [name, Some(Concat(name, " Town")), Some(Concat(name, " Center")), Some(Concat(name, " City")),
     Some(Concat(name, " corporation"))]
    + if name.Some? && ' ' in name.value then [Some(name.value[..LastIndexOf(name.value, ' ')])] else []
  }

  /** The first of the names that the table knows. */
  function FirstPresent(z: ZipTable, names: seq<Option<string>>): (r: Option<nat>)
    ensures r.Some? ==> r.value < |names| && names[r.value] in z
                        && forall j :: 0 <= j < r.value ==> names[j] !in z
    ensures r.None? ==> forall j :: 0 <= j < |names| ==> names[j] !in z
  {
    if |names| == 0 then None
    else if names[0] in z then Some(0)
    else match FirstPresent(z, names[1..])
      case None => None
      case Some(i) => Some(i + 1)
  }

  /** The group `assignPoint` settles on, by the chain of `null` checks. */
  function ZipsFor(z: ZipTable, name: Option<string>): (r: Result<seq<Place>>)
    ensures r.Err? ==> r.error == RUNTIME || (name.None? && r.error == NULL_POINTER)
    ensures r.Ok? ==> r.value in z.Values
  {
    if name in z then Ok(z[name])
    else if Some(Concat(name, " Town")) in z then Ok(z[Some(Concat(name, " Town"))])
    else if Some(Concat(name, " Center")) in z then Ok(z[Some(Concat(name, " Center"))])
    else if Some(Concat(name, " City")) in z then Ok(z[Some(Concat(name, " City"))])
    else if Some(Concat(name, " corporation")) in z then Ok(z[Some(Concat(name, " corporation"))])
    else if name.None? then Err(NULL_POINTER)
    else if ' ' in name.value && Some(name.value[..LastIndexOf(name.value, ' ')]) in z then
      Ok(z[Some(name.value[..LastIndexOf(name.value, ' ')])])
    else Err(RUNTIME)
  }

  /** The chain of fallbacks is the first known name among the candidates;
   *  none known throws (a `null` name already at `contains`). */
  lemma ZipsForFirstCandidate(z: ZipTable, name: Option<string>)
    ensures ZipsFor(z, name).Ok? <==> FirstPresent(z, Candidates(name)).Some?
    ensures ZipsFor(z, name).Ok? ==> ZipsFor(z, name).value == z[Candidates(name)[FirstPresent(z, Candidates(name)).value]]
    ensures ZipsFor(z, name).Err? ==> ZipsFor(z, name).error == if name.None? then NULL_POINTER else RUNTIME
  {
    var cs := Candidates(name);
    assert cs[1] == Some(Concat(name, " Town")) && cs[2] == Some(Concat(name, " Center"))
           && cs[3] == Some(Concat(name, " City")) && cs[4] == Some(Concat(name, " corporation"));
    if cs[0] in z {
      assert FirstPresent(z, cs) == Some(0);
    } else if cs[1] in z {
      assert FirstPresent(z, cs) == Some(1);
    } else if cs[2] in z {
      assert FirstPresent(z, cs) == Some(2);
    } else if cs[3] in z {
      assert FirstPresent(z, cs) == Some(3);
    } else if cs[4] in z {
      assert FirstPresent(z, cs) == Some(4);
    } else if name.Some? && ' ' in name.value {
      assert |cs| == 6 && cs[5] == Some(name.value[..LastIndexOf(name.value, ' ')]);
      if cs[5] in z {
        assert FirstPresent(z, cs) == Some(5);
      } else {
        assert FirstPresent(z, cs) == None;
      }
    } else {
      assert |cs| == 5;
      assert FirstPresent(z, cs) == None;
    }
  }

  /** `assignPoint`: the coordinate put into the person's attributes.  A
   *  `null` name is replaced by a random key of the zip table (`keys`
   *  stands for the order of `keySet().toArray()`, `keyDraw` for the
   *  first `nextInt` on the person's random source); a group of one place
   *  gives that place, a larger one the member `placeDraw` picks (the
   *  next `nextInt`, drawn after the key when there was one). */
  function AssignPoint(loc: Location, cityName: Option<string>, keys: seq<Option<string>>,
                       keyDraw: int -> int, placeDraw: int -> int): (r: Result<Coordinate>)
    ensures cityName.None? && |loc.zipCodes| == 0 ==> r == Err(ILLEGAL_ARGUMENT)
    ensures r.Ok? ==> exists g: seq<Place>, i :: g in loc.zipCodes.Values && 0 <= i < |g| && g[i].coordinate == r.value
  {
    var name :=
      if cityName.Some? then Ok(cityName)
      else if |loc.zipCodes| == 0 then Err(ILLEGAL_ARGUMENT)
      else if 0 <= keyDraw(|loc.zipCodes|) < |keys| then Ok(keys[keyDraw(|loc.zipCodes|)])
      else Err(ARRAY_INDEX);
    if name.Err? then Err(name.error)
    else
      match ZipsFor(loc.zipCodes, name.value)
      case Err(e) => Err(e)
      case Ok(zips) =>
        if |zips| == 1 then Ok(zips[0].coordinate)
        else if |zips| == 0 then Err(ILLEGAL_ARGUMENT)
        else if 0 <= placeDraw(|zips|) < |zips| then Ok(zips[placeDraw(|zips|)].coordinate)
        else Err(INDEX_OUT_OF_BOUNDS)
  }

  /** `keys` is an ordering of the zip table's keys. */
  ghost predicate ListsKeys(z: ZipTable, keys: seq<Option<string>>) {
    |keys| == |z| && forall k :: k in keys <==> k in z
  }

  /** An assigned point is the coordinate of one of the places the table
   *  was built from, and for a given city name that place bears one of
   *  the candidate names. */
  lemma AssignedPointFromPlaces(loc: Location, kept: seq<Place>, cityName: Option<string>,
                                keys: seq<Option<string>>, keyDraw: int -> int, placeDraw: int -> int)
    requires loc.zipCodes == GroupsOf(kept)
    requires AssignPoint(loc, cityName, keys, keyDraw, placeDraw).Ok?
    ensures exists p :: p in kept && p.coordinate == AssignPoint(loc, cityName, keys, keyDraw, placeDraw).value
                        && (cityName.Some? ==> p.name in Candidates(cityName))
  {
    var name :=
      if cityName.Some? then cityName
      else keys[keyDraw(|loc.zipCodes|)];
    ZipsForFirstCandidate(loc.zipCodes, name);
    var at := Candidates(name)[FirstPresent(loc.zipCodes, Candidates(name)).value];
    GroupsOfFilters(kept, at);
    var zips := ZipsFor(loc.zipCodes, name).value;
    var p := if |zips| == 1 then zips[0] else zips[placeDraw(|zips|)];
    assert p in zips;
    assert p in kept && p.name == at;
  }

  /** For a built location, an assigned point is the coordinate of a
   *  zip-code line that lies in the state. */
  lemma AssignedPointInState(state: string, city: Option<string>, cities: Option<CityRow>, zipLines: Option<seq<Row>>,
                             h: PlaceHeaders, parse: string -> Option<Double>,
                             cityName: Option<string>, keys: seq<Option<string>>, keyDraw: int -> int, placeDraw: int -> int)
    requires Constructed(state, city, cities, zipLines, h, parse).Ok?
    requires AssignPoint(Constructed(state, city, cities, zipLines, h, parse).value, cityName, keys, keyDraw, placeDraw).Ok?
    ensures var c := AssignPoint(Constructed(state, city, cities, zipLines, h, parse).value, cityName, keys, keyDraw, placeDraw).value;
            exists i :: 0 <= i < |zipLines.value| && InState(state, zipLines.value[i], h, parse)
                        && PlaceFromRow(h, zipLines.value[i], parse).value.coordinate == c
  {
    ConstructedShape(state, city, cities, zipLines, h, parse);
    var loc := Constructed(state, city, cities, zipLines, h, parse).value;
    var kept := KeptPlaces(state, zipLines.value, h, parse).value;
    AssignedPointFromPlaces(loc, kept, cityName, keys, keyDraw, placeDraw);
    var p :| p in kept && p.coordinate == AssignPoint(loc, cityName, keys, keyDraw, placeDraw).value;
    KeptPlacesMembers(state, zipLines.value, h, parse);
    var i :| 0 <= i < |zipLines.value| && LineOutcome(state, zipLines.value[i], h, parse) == Ok(Some(p));
    assert InState(state, zipLines.value[i], h, parse);
  }

  /** For a zip table built from the state's places, assigning a point
   *  never fails when the city name is one the table knows, or when no
   *  name is given and the table is not empty. */
  lemma AssignPointSucceeds(loc: Location, kept: seq<Place>, cityName: Option<string>, keys: seq<Option<string>>,
                            keyDraw: int -> int, placeDraw: int -> int)
    requires loc.zipCodes == GroupsOf(kept)
    requires ValidNextInt(keyDraw) && ValidNextInt(placeDraw)
    requires ListsKeys(loc.zipCodes, keys)
    requires cityName.Some? ==> cityName in loc.zipCodes
    requires cityName.None? ==> |loc.zipCodes| > 0
    ensures AssignPoint(loc, cityName, keys, keyDraw, placeDraw).Ok?
  {
    var name := if cityName.Some? then cityName else keys[keyDraw(|loc.zipCodes|)];
    assert name in loc.zipCodes;
    GroupsOfFilters(kept, name);
    assert ZipsFor(loc.zipCodes, name) == Ok(loc.zipCodes[name]);
    assert |loc.zipCodes[name]| > 0;
  }

  // -------------------------------------------------- state abbreviations

  /** `getAbbreviation`: the abbreviation stored for the state, `null`
   *  when there is none; a table that failed to load throws. */
  function Abbreviation(abbrs: Option<AbbreviationTable>, state: string): (r: Result<Option<string>>)
    ensures abbrs.None? ==> r == Err(NULL_POINTER)
    ensures abbrs.Some? && Some(state) !in Keys(abbrs.value) ==> r == Ok(None)
    ensures abbrs.Some? && Some(state) in Keys(abbrs.value) ==> r.Ok? && Some(r.value) == Get(abbrs.value, Some(state))
  {
    match abbrs
    case None => Err(NULL_POINTER)
    case Some(t) =>
      match Get(t, Some(state))
      case None => Ok(None)
      case Some(a) => Ok(a)
  }

  /** The position of `state` among the keys, or the number of keys when
   *  it is absent; comparing against a `null` key throws. */
  function IndexOf(keys: seq<Option<string>>, state: string): (r: Result<nat>)
    ensures r.Ok? ==> r.value <= |keys| && forall j :: 0 <= j < r.value ==> keys[j].Some? && keys[j] != Some(state)
    ensures r.Ok? && r.value < |keys| ==> keys[r.value] == Some(state)
    ensures r.Err? ==> r.error == NULL_POINTER
                       && exists j :: 0 <= j < |keys| && keys[j].None? && forall i :: 0 <= i < j ==> keys[i] != Some(state)
  {
    if |keys| == 0 then Ok(0)
    else if keys[0].None? then Err(NULL_POINTER)
    else if keys[0].value == state then Ok(0)
    else
      match IndexOf(keys[1..], state)
      case Err(e) =>
        assert exists j :: 1 <= j < |keys| && keys[j].None? && forall i :: 0 <= i < j ==> keys[i] != Some(state) by {
          var j :| 0 <= j < |keys| - 1 && keys[1..][j].None? && forall i :: 0 <= i < j ==> keys[1..][i] != Some(state);
          assert forall i :: 1 <= i < j + 1 ==> keys[i] == keys[1..][i - 1];
        }
        Err(e)
      case Ok(i) => Ok(i + 1)
  }

  /** A position counted from `n` keys further on. */
  function Shifted(r: Result<nat>, n: nat): Result<nat> {
    match r
    case Err(e) => Err(e)
    case Ok(i) => Ok(i + n)
  }

  /** One step of the search through the keys from position `index`. */
  lemma IndexOfSuffix(keys: seq<Option<string>>, state: string, index: nat)
    requires index < |keys|
    ensures IndexOf(keys[index..], state)
            == if keys[index].None? then Err(NULL_POINTER)
               else if keys[index].value == state then Ok(0)
               else Shifted(IndexOf(keys[index + 1..], state), 1)
  {
    assert keys[index..][1..] == keys[index + 1..];
  }

  /** `getIndex`: counts the keys passed before `state` is met. */
  method GetIndex(abbrs: Option<AbbreviationTable>, state: string) returns (r: Result<int>)
    ensures abbrs.None? ==> r == Err(NULL_POINTER)
    ensures abbrs.Some? ==> match IndexOf(Keys(abbrs.value), state)
                            case Err(e) => r == Err(e)
                            case Ok(i) => r == Ok(i)
  {
    if abbrs.None? {
      return Err(NULL_POINTER);
    }
    var keys := Keys(abbrs.value);
    var index := 0;
    while index < |keys|
      invariant 0 <= index <= |keys|
      invariant IndexOf(keys, state) == Shifted(IndexOf(keys[index..], state), index)
    {
      IndexOfSuffix(keys, state, index);
      if keys[index].None? {
        return Err(NULL_POINTER);
      }
      if keys[index].value == state {
        return Ok(index);
      }
      index := index + 1;
    }
    return Ok(index);
  }

  /** Different states get different indices, so the index is a key that
   *  does not collide across states. */
  lemma IndexIdentifiesState(keys: seq<Option<string>>, a: string, b: string)
    requires IndexOf(keys, a).Ok? && IndexOf(keys, a) == IndexOf(keys, b)
    requires IndexOf(keys, a).value < |keys|
    ensures a == b
  {
  }

  /** The reverse lookup over the key order: the first state whose stored
   *  abbreviation equals `abbr` ignoring case; a missing or `null`
   *  abbreviation met first throws. */
  function NameFor(t: AbbreviationTable, keys: seq<Option<string>>, abbr: string): (r: Result<Option<string>>)
    ensures r.Ok? && r.value.Some? ==> r.value in keys && Matches(t, r.value, abbr)
    ensures r == Ok(None) && None !in keys ==> forall j :: 0 <= j < |keys| ==> Get(t, keys[j]).Some? && Get(t, keys[j]).value.Some? && !Matches(t, keys[j], abbr)
    ensures r.Err? ==> r.error == NULL_POINTER
  {
    if |keys| == 0 then Ok(None)
    else
      match Get(t, keys[0])
      case None => Err(NULL_POINTER)
      case Some(v) =>
        match v
        case None => Err(NULL_POINTER)
        case Some(a) => if EqualsIgnoreCase(a, abbr) then Ok(keys[0]) else NameFor(t, keys[1..], abbr)
  }

  /** The state `key` has a non-null abbreviation equal to `abbr`
   *  ignoring case. */
  predicate Matches(t: AbbreviationTable, key: Option<string>, abbr: string) {
    Get(t, key).Some? && Get(t, key).value.Some? && EqualsIgnoreCase(Get(t, key).value.value, abbr)
  }

  /** `getStateName` over the loaded table: a state whose abbreviation
   *  matches, `null` when every state has one and none matches (or when a
   *  `null` state matches); a table
   *  that failed to load, or a `null` abbreviation met first, throws. */
  function StateName(abbrs: Option<AbbreviationTable>, abbr: string): (r: Result<Option<string>>)
    ensures abbrs.None? ==> r == Err(NULL_POINTER)
    ensures r.Ok? && r.value.Some? ==> abbrs.Some? && r.value in Keys(abbrs.value) && Matches(abbrs.value, r.value, abbr)
    ensures r == Ok(None) && abbrs.Some? && None !in Keys(abbrs.value) ==> forall k :: k in Keys(abbrs.value) ==> Get(abbrs.value, k).Some? && Get(abbrs.value, k).value.Some? && !Matches(abbrs.value, k, abbr)
  {
    match abbrs
    case None => Err(NULL_POINTER)
    case Some(t) => NameFor(t, Keys(t), abbr)
  }

  /** `getStateName`: walks the states in order and returns the first whose
   *  abbreviation matches, or `null`. */
  method GetStateName(abbrs: Option<AbbreviationTable>, abbr: string) returns (r: Result<Option<string>>)
    ensures r == StateName(abbrs, abbr)
  {
    if abbrs.None? {
      return Err(NULL_POINTER);
    }
    var t := abbrs.value;
    var keys := Keys(t);
    var i := 0;
    while i < |keys|
      invariant 0 <= i <= |keys|
      invariant NameFor(t, keys[i..], abbr) == NameFor(t, keys, abbr)
    {
      assert keys[i..][1..] == keys[i + 1..];
      var v := Get(t, keys[i]);
      if v.None? || v.value.None? {
        return Err(NULL_POINTER);
      }
      if EqualsIgnoreCase(v.value.value, abbr) {
        return Ok(keys[i]);
      }
      i := i + 1;
    }
    return Ok(None);
  }

  /** In a table without repeated keys, `get` of a key finds its entry. */
  lemma {:induction false} GetOwnEntry<K(!new), V>(l: Linked<K, V>, i: nat)
    requires DistinctKeys(l) && i < |l|
    ensures Get(l, l[i].0) == Some(l[i].1)
  {
    if i > 0 {
      assert DistinctKeys(l[1..]);
      GetOwnEntry(l[1..], i - 1);
    }
  }

  /** The reverse lookup reaches the `i`-th key when every earlier one has
   *  a different abbreviation. */
  lemma {:induction false} NameForReaches(t: AbbreviationTable, keys: seq<Option<string>>, abbr: string, i: nat)
    requires i < |keys|
    requires forall j :: 0 <= j <= i ==> Get(t, keys[j]).Some? && Get(t, keys[j]).value.Some?
    requires forall j :: 0 <= j < i ==> !EqualsIgnoreCase(Get(t, keys[j]).value.value, abbr)
    requires EqualsIgnoreCase(Get(t, keys[i]).value.value, abbr)
    ensures NameFor(t, keys, abbr) == Ok(keys[i])
  {
    if i > 0 {
      var tail := keys[1..];
      assert forall j :: 0 <= j < |tail| ==> tail[j] == keys[j + 1];
      NameForSkips(t, keys, abbr);
      NameForReaches(t, tail, abbr, i - 1);
    }
  }

  /** One step of the reverse lookup past a state whose abbreviation
   *  differs. */
  lemma NameForSkips(t: AbbreviationTable, keys: seq<Option<string>>, abbr: string)
    requires |keys| > 0 && Get(t, keys[0]).Some? && Get(t, keys[0]).value.Some?
    requires !EqualsIgnoreCase(Get(t, keys[0]).value.value, abbr)
    ensures NameFor(t, keys, abbr) == NameFor(t, keys[1..], abbr)
  {
  }

  /** `getStateName` inverts `getAbbreviation` on a table where every
   *  state has an abbreviation and no two abbreviations differ only in
   *  case or coincide. */
  lemma StateNameInvertsAbbreviation(t: AbbreviationTable, state: string)
    requires DistinctKeys(t)
    requires forall i :: 0 <= i < |t| ==> t[i].1.Some?
    requires forall i, j :: 0 <= i < j < |t| ==> !EqualsIgnoreCase(t[i].1.value, t[j].1.value)
    requires Abbreviation(Some(t), state).Ok? && Abbreviation(Some(t), state).value.Some?
    ensures StateName(Some(t), Abbreviation(Some(t), state).value.value) == Ok(Some(state))
  {
    var a := Abbreviation(Some(t), state).value.value;
    var i :| 0 <= i < |t| && t[i] == (Some(state), Some(a));
    var keys := Keys(t);
    forall j | 0 <= j <= i
      ensures Get(t, keys[j]) == Some(t[j].1)
    {
      GetOwnEntry(t, j);
    }
    NameForReaches(t, keys, a, i);
  }

  /** The abbreviation table of a file has no repeated keys. */
  lemma TableKeysDistinct(lines: seq<Row>, stateHeader: string, abbrHeader: string)
    ensures DistinctKeys(TableOf(lines, stateHeader, abbrHeader))
  {
    var t := TableOf(lines, stateHeader, abbrHeader);
    PutAllKeys(Entries(lines, stateHeader, abbrHeader));
    FirstOccurrencesUnique(Keys(Entries(lines, stateHeader, abbrHeader)));
    assert forall i :: 0 <= i < |t| ==> Keys(t)[i] == t[i].0;
  }

  lemma {:induction false} FirstOccurrencesUnique<K(!new)>(ks: seq<K>)
    ensures forall i, j :: 0 <= i < j < |FirstOccurrences(ks)| ==> FirstOccurrences(ks)[i] != FirstOccurrences(ks)[j]
  {
    if |ks| > 0 {
      FirstOccurrencesUnique(ks[..|ks| - 1]);
    }
  }

  // ----------------------------------------------------------- timezones

  /** `loadTimezones` (location/Location only): STATE -> TIMEZONE of every
   *  line, the last line for a state winning; a file that cannot be read
   *  leaves the table empty. */
  method LoadTimezones(csv: Option<seq<Row>>) returns (m: AbbreviationTable)
    ensures csv.None? ==> m == []
    ensures csv.Some? ==> m == TableOf(csv.value, "STATE", "TIMEZONE")
  {
    if csv.None? {
      return [];
    }
    m := LoadAbbrsFromCsv(csv.value, "STATE", "TIMEZONE");
  }

  /** `getTimezoneByState`: the time zone stored for the state, or `null`
   *  for a state without one. */
  function TimezoneByState(timezones: AbbreviationTable, state: Option<string>): (r: Option<string>)
    ensures r.Some? <==> Get(timezones, state).Some? && Get(timezones, state).value.Some?
    ensures r.Some? ==> Get(timezones, state) == Some(r)
  {
    match Get(timezones, state)
    case None => None
    case Some(zone) => zone
  }

  /** A state's time zone is the one on its last line of the file. */
  lemma TimezoneFromLastLine(lines: seq<Row>, state: Option<string>)
    ensures TimezoneByState(TableOf(lines, "STATE", "TIMEZONE"), state)
            == match LastValue(Entries(lines, "STATE", "TIMEZONE"), state)
               case None => None
               case Some(zone) => zone
  {
    LastLineWins(lines, "STATE", "TIMEZONE", state);
  }
}
