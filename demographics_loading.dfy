/** The two DemographicsLoader classes and their configurations
 *  (DefaultDemographicsLoader, ACSFactFinderDemographicsLoader).  A loader
 *  turns one CSV line into a city's demographics, reading the population,
 *  the age, race, income and education columns its options name and the
 *  two sex columns; the newer loader also filters a whole file by state
 *  into a (state, city) table.
 *
 *  The cell parser `Double.parseDouble` is the parameter `parse` (`None`
 *  for text it rejects), as in module CsvRows. */
module DemographicsLoading {
  import opened Wrappers
  import opened JavaText
  import opened CsvRows
  import opened Demographics

  /** DemographicsOptions: the column lists a loader was built with. */
  datatype LoaderOptions = LoaderOptions(ageGroups: seq<string>, races: seq<string>, incomes: seq<string>,
                                         educations: seq<string>, sexes: seq<string>, popEstHeader: string)

  /** The geography columns both loaders read by fixed name. */
  const STATE_HEADER := "STNAME"
  const CITY_HEADER := "NAME"
  const COUNTY_HEADER := "CTYNAME"

  /** The sex columns geography/DemographicsLoader reads by fixed name. */
  const TOTAL_SEXES := ["TOT_MALE", "TOT_FEMALE"]

  /** The "dummy, has to be non-zero" frequency of an empty income or
   *  education cell. */
  const PLACEHOLDER := Num(0.01)

  /** geography/DemographicsLoader's options: it has no list of sex
   *  columns, so the fixed pair stands in for one. */
  function GeographyOptions(ageGroups: seq<string>, races: seq<string>, incomes: seq<string>,
                            educations: seq<string>, popEstHeader: string): LoaderOptions
  {
    LoaderOptions(ageGroups, races, incomes, educations, TOTAL_SEXES, popEstHeader)
  }

  // ------------------------------------------------------ one column

  /** A CSV column read into a frequency table under `key`. */
  datatype Column = Column(header: string, key: string)

  /** The frequency in one cell.  A missing cell throws
   *  NullPointerException (from `isEmpty` or from `parseDouble`); with
   *  `placeholder` an empty cell stands for 0.01. */
  function CellValue(row: Row, header: string, placeholder: bool, parse: string -> Option<Double>): Result<Double> {
    if placeholder && Cell(row, header) == Some("") then Ok(PLACEHOLDER)
    else ParseCell(Cell(row, header), parse)
  }

  /** Age group k is stored under the column named k + 1. */
  function AgeColumns(ageGroups: seq<string>): (cs: seq<Column>)
    ensures |cs| == |ageGroups|
    ensures forall k :: 0 <= k < |cs| ==> cs[k] == Column(NatToString(k + 1), ageGroups[k])
  {
    seq(|ageGroups|, k requires 0 <= k < |ageGroups| => Column(NatToString(k + 1), ageGroups[k]))
  }

  /** Race and education columns are stored under their lower-cased name. */
  function LowerColumns(headers: seq<string>): (cs: seq<Column>)
    ensures |cs| == |headers|
    ensures forall k :: 0 <= k < |cs| ==> cs[k] == Column(headers[k], ToLower(headers[k]))
  {
    seq(|headers|, k requires 0 <= k < |headers| => Column(headers[k], ToLower(headers[k])))
  }

  /** Income columns are stored under their own name. */
  function SameColumns(headers: seq<string>): (cs: seq<Column>)
    ensures |cs| == |headers|
    ensures forall k :: 0 <= k < |cs| ==> cs[k] == Column(headers[k], headers[k])
  {
    seq(|headers|, k requires 0 <= k < |headers| => Column(headers[k], headers[k]))
  }

  // ------------------------------------------------ frequency tables

  /** The table one loop of `csvLineToDemographics` fills: the columns
   *  read in order, each `put` overriding an earlier equal key, the first
   *  failing cell ending the loop with its exception. */
  function Frequencies(row: Row, cols: seq<Column>, placeholder: bool, parse: string -> Option<Double>): Result<Weights> {
    if |cols| == 0 then Ok(map[])
    else
      match Frequencies(row, cols[..|cols| - 1], placeholder, parse)
      case Err(e) => Err(e)
      case Ok(w) =>
        match CellValue(row, cols[|cols| - 1].header, placeholder, parse)
        case Err(e) => Err(e)
        case Ok(v) => Ok(w[cols[|cols| - 1].key := v])
  }

  /** Once a prefix of the columns has failed, the whole loop fails with
   *  the same exception. */
  lemma {:induction false} ErrorPersists(row: Row, cols: seq<Column>, k: nat, placeholder: bool,
                                         parse: string -> Option<Double>)
    requires k <= |cols| && Frequencies(row, cols[..k], placeholder, parse).Err?
    ensures Frequencies(row, cols, placeholder, parse) == Frequencies(row, cols[..k], placeholder, parse)
    decreases |cols|
  {
    if k == |cols| {
      assert cols[..k] == cols;
    } else {
      var init := cols[..|cols| - 1];
      assert init[..k] == cols[..k];
      ErrorPersists(row, init, k, placeholder, parse);
    }
  }

  /** The loop fills a table exactly when every cell it reads is usable;
   *  otherwise it throws the exception of the first unusable cell. */
  lemma {:induction false} FrequenciesOk(row: Row, cols: seq<Column>, placeholder: bool, parse: string -> Option<Double>)
    ensures Frequencies(row, cols, placeholder, parse).Ok?
            <==> forall i :: 0 <= i < |cols| ==> CellValue(row, cols[i].header, placeholder, parse).Ok?
    ensures Frequencies(row, cols, placeholder, parse).Err? ==>
              exists i :: 0 <= i < |cols| && CellValue(row, cols[i].header, placeholder, parse).Err?
                          && Frequencies(row, cols, placeholder, parse).error
                             == CellValue(row, cols[i].header, placeholder, parse).error
                          && forall j :: 0 <= j < i ==> CellValue(row, cols[j].header, placeholder, parse).Ok?
  {
    if |cols| > 0 {
      var init := cols[..|cols| - 1];
      FrequenciesOk(row, init, placeholder, parse);
      assert forall i :: 0 <= i < |init| ==> init[i] == cols[i];
    }
  }

  /** A filled table has one key per column ... */
  lemma {:induction false} FrequenciesKeys(row: Row, cols: seq<Column>, placeholder: bool, parse: string -> Option<Double>)
    requires Frequencies(row, cols, placeholder, parse).Ok?
    ensures Frequencies(row, cols, placeholder, parse).value.Keys == set i | 0 <= i < |cols| :: cols[i].key
  {
    if |cols| > 0 {
      var init := cols[..|cols| - 1];
      FrequenciesKeys(row, init, placeholder, parse);
      assert forall i :: 0 <= i < |init| ==> init[i] == cols[i];
      assert (set i | 0 <= i < |cols| :: cols[i].key)
             == (set i | 0 <= i < |init| :: init[i].key) + {cols[|cols| - 1].key};
    }
  }

  /** ... holding the frequency of the last column with that key. */
  lemma {:induction false} FrequenciesLastWins(row: Row, cols: seq<Column>, placeholder: bool,
                                              parse: string -> Option<Double>, i: nat)
    requires Frequencies(row, cols, placeholder, parse).Ok?
    requires i < |cols| && forall j :: i < j < |cols| ==> cols[j].key != cols[i].key
    ensures CellValue(row, cols[i].header, placeholder, parse).Ok?
    ensures cols[i].key in Frequencies(row, cols, placeholder, parse).value
    ensures Frequencies(row, cols, placeholder, parse).value[cols[i].key]
            == CellValue(row, cols[i].header, placeholder, parse).value
  {
    FrequenciesKeys(row, cols, placeholder, parse);
    if i < |cols| - 1 {
      var init := cols[..|cols| - 1];
      assert forall k :: 0 <= k < |init| ==> init[k] == cols[k];
      FrequenciesLastWins(row, init, placeholder, parse, i);
    }
  }

  /** One loop of `csvLineToDemographics`. */
  method FillFrequencies(row: Row, cols: seq<Column>, placeholder: bool, parse: string -> Option<Double>)
    returns (r: Result<Weights>)
    ensures r == Frequencies(row, cols, placeholder, parse)
  {
    var w: Weights := map[];
    var i := 0;
    while i < |cols|
      invariant 0 <= i <= |cols|
      invariant Frequencies(row, cols[..i], placeholder, parse) == Ok(w)
    {
      assert cols[..i + 1][..i] == cols[..i];
      var v := CellValue(row, cols[i].header, placeholder, parse);
      if v.Err? {
        ErrorPersists(row, cols, i + 1, placeholder, parse);
        return Err(v.error);
      }
      w := w[cols[i].key := v.value];
      i := i + 1;
    }
    assert cols[..|cols|] == cols;
    return Ok(w);
  }

  // ------------------------------------------------------ one line

  /** The two `put`s of the gender table: `sexes.get(0)` and
   *  `sexes.get(1)` throw IndexOutOfBoundsException on a short list, each
   *  just before its own cell is read. */
  function GenderOf(row: Row, sexes: seq<string>, parse: string -> Option<Double>): (r: Result<Weights>)
    ensures |sexes| == 0 ==> r == Err(INDEX_OUT_OF_BOUNDS)
    ensures |sexes| == 1 ==> r == if ParseCell(Cell(row, sexes[0]), parse).Err?
                                  then Err(ParseCell(Cell(row, sexes[0]), parse).error)
                                  else Err(INDEX_OUT_OF_BOUNDS)
    ensures r.Ok? <==> |sexes| >= 2 && ParseCell(Cell(row, sexes[0]), parse).Ok?
                       && ParseCell(Cell(row, sexes[1]), parse).Ok?
    ensures r.Ok? ==> r.value == map["male" := ParseCell(Cell(row, sexes[0]), parse).value,
                                     "female" := ParseCell(Cell(row, sexes[1]), parse).value]
  {
    if |sexes| == 0 then Err(INDEX_OUT_OF_BOUNDS)
    else
      match ParseCell(Cell(row, sexes[0]), parse)
      case Err(e) => Err(e)
      case Ok(male) =>
        if |sexes| < 2 then Err(INDEX_OUT_OF_BOUNDS)
        else
          match ParseCell(Cell(row, sexes[1]), parse)
          case Err(e) => Err(e)
          case Ok(female) => Ok(map["male" := male, "female" := female])
  }

  /** `csvLineToDemographics` of either loader: the population estimate
   *  (`Double.valueOf(...).longValue()`), the three geography cells as
   *  they are, then the age, gender, race, income and education tables in
   *  that order; the first exception is the result. */
  function ProfileOf(o: LoaderOptions, row: Row, parse: string -> Option<Double>): Result<Profile> {
    match ParseCell(Cell(row, o.popEstHeader), parse)
    case Err(e) => Err(e)
    case Ok(population) =>
      match Frequencies(row, AgeColumns(o.ageGroups), false, parse)
      case Err(e) => Err(e)
      case Ok(ages) =>
        match GenderOf(row, o.sexes, parse)
        case Err(e) => Err(e)
        case Ok(gender) =>
          match Frequencies(row, LowerColumns(o.races), false, parse)
          case Err(e) => Err(e)
          case Ok(race) =>
            match Frequencies(row, SameColumns(o.incomes), true, parse)
            case Err(e) => Err(e)
            case Ok(income) =>
              match Frequencies(row, LowerColumns(o.educations), true, parse)
              case Err(e) => Err(e)
              case Ok(education) =>
                Ok(Profile(LongValue(population), Cell(row, CITY_HEADER), Cell(row, STATE_HEADER),
                           Cell(row, COUNTY_HEADER), ages, gender, race, income, education))
  }

  /** `csvLineToDemographics`, one loop per table. */
  method CsvLineToDemographics(o: LoaderOptions, row: Row, parse: string -> Option<Double>) returns (r: Result<Profile>)
    ensures r == ProfileOf(o, row, parse)
  {
    var population := ParseCell(Cell(row, o.popEstHeader), parse);
    if population.Err? {
      return Err(population.error);
    }
    var ages := FillFrequencies(row, AgeColumns(o.ageGroups), false, parse);
    if ages.Err? {
      return Err(ages.error);
    }
    var gender := GenderOf(row, o.sexes, parse);
    if gender.Err? {
      return Err(gender.error);
    }
    var race := FillFrequencies(row, LowerColumns(o.races), false, parse);
    if race.Err? {
      return Err(race.error);
    }
    var income := FillFrequencies(row, SameColumns(o.incomes), true, parse);
    if income.Err? {
      return Err(income.error);
    }
    var education := FillFrequencies(row, LowerColumns(o.educations), true, parse);
    if education.Err? {
      return Err(education.error);
    }
    r := Ok(Profile(LongValue(population.value), Cell(row, CITY_HEADER), Cell(row, STATE_HEADER),
                    Cell(row, COUNTY_HEADER), ages.value, gender.value, race.value, income.value, education.value));
  }

  /** A loaded line carries the population estimate truncated to a whole
   *  number, the line's own geography cells, and exactly the keys the
   *  options name: the age groups, "male" and "female", the lower-cased
   *  races, the incomes as written and the lower-cased educations. */
  lemma ProfileShape(o: LoaderOptions, row: Row, parse: string -> Option<Double>)
    requires ProfileOf(o, row, parse).Ok?
    ensures var p := ProfileOf(o, row, parse).value;
            && ParseCell(Cell(row, o.popEstHeader), parse).Ok?
            && p.population == LongValue(ParseCell(Cell(row, o.popEstHeader), parse).value)
            && p.city == Cell(row, CITY_HEADER) && p.state == Cell(row, STATE_HEADER)
            && p.county == Cell(row, COUNTY_HEADER)
            && p.ages.Keys == (set k | 0 <= k < |o.ageGroups| :: o.ageGroups[k])
            && p.gender.Keys == {"male", "female"}
            && p.race.Keys == (set k | 0 <= k < |o.races| :: ToLower(o.races[k]))
            && p.income.Keys == (set k | 0 <= k < |o.incomes| :: o.incomes[k])
            && p.education.Keys == (set k | 0 <= k < |o.educations| :: ToLower(o.educations[k]))
  {
    FrequenciesKeys(row, AgeColumns(o.ageGroups), false, parse);
    FrequenciesKeys(row, LowerColumns(o.races), false, parse);
    FrequenciesKeys(row, SameColumns(o.incomes), true, parse);
    FrequenciesKeys(row, LowerColumns(o.educations), true, parse);
    AgeColumnKeys(o.ageGroups);
    LowerColumnKeys(o.races);
    SameColumnKeys(o.incomes);
    LowerColumnKeys(o.educations);
  }

  lemma AgeColumnKeys(ageGroups: seq<string>)
    ensures (set i | 0 <= i < |AgeColumns(ageGroups)| :: AgeColumns(ageGroups)[i].key)
            == set k | 0 <= k < |ageGroups| :: ageGroups[k]
  {
    var cs := AgeColumns(ageGroups);
    assert forall i :: 0 <= i < |cs| ==> cs[i].key == ageGroups[i];
  }

  lemma LowerColumnKeys(headers: seq<string>)
    ensures (set i | 0 <= i < |LowerColumns(headers)| :: LowerColumns(headers)[i].key)
            == set k | 0 <= k < |headers| :: ToLower(headers[k])
  {
    var cs := LowerColumns(headers);
    assert forall i :: 0 <= i < |cs| ==> cs[i].key == ToLower(headers[i]);
  }

  lemma SameColumnKeys(headers: seq<string>)
    ensures (set i | 0 <= i < |SameColumns(headers)| :: SameColumns(headers)[i].key)
            == set k | 0 <= k < |headers| :: headers[k]
  {
    var cs := SameColumns(headers);
    assert forall i :: 0 <= i < |cs| ==> cs[i].key == headers[i];
  }

  /** Age group k takes the frequency in column k + 1 (when no later group
   *  has the same label). */
  lemma AgeGroupReadsNumberedColumn(o: LoaderOptions, row: Row, parse: string -> Option<Double>, k: nat)
    requires ProfileOf(o, row, parse).Ok?
    requires k < |o.ageGroups| && forall j :: k < j < |o.ageGroups| ==> o.ageGroups[j] != o.ageGroups[k]
    ensures ParseCell(Cell(row, NatToString(k + 1)), parse).Ok?
    ensures o.ageGroups[k] in ProfileOf(o, row, parse).value.ages
    ensures ProfileOf(o, row, parse).value.ages[o.ageGroups[k]] == ParseCell(Cell(row, NatToString(k + 1)), parse).value
  {
    FrequenciesLastWins(row, AgeColumns(o.ageGroups), false, parse, k);
  }

  /** An empty income or education cell stands for 0.01, any other cell
   *  for the number it holds (when no later column has the same key). */
  lemma EmptyCellIsPlaceholder(o: LoaderOptions, row: Row, parse: string -> Option<Double>, k: nat)
    requires ProfileOf(o, row, parse).Ok?
    requires k < |o.incomes| && forall j :: k < j < |o.incomes| ==> o.incomes[j] != o.incomes[k]
    ensures o.incomes[k] in ProfileOf(o, row, parse).value.income
    ensures Cell(row, o.incomes[k]) == Some("") ==> ProfileOf(o, row, parse).value.income[o.incomes[k]] == PLACEHOLDER
    ensures Cell(row, o.incomes[k]) != Some("") ==>
              ParseCell(Cell(row, o.incomes[k]), parse).Ok?
              && ProfileOf(o, row, parse).value.income[o.incomes[k]] == ParseCell(Cell(row, o.incomes[k]), parse).value
  {
    FrequenciesLastWins(row, SameColumns(o.incomes), true, parse, k);
  }

  /** A race column missing from the line fails the whole line, however
   *  the other cells read. */
  lemma MissingRaceColumnFails(o: LoaderOptions, row: Row, parse: string -> Option<Double>, k: nat)
    requires k < |o.races| && o.races[k] !in row
    ensures ProfileOf(o, row, parse).Err?
  {
    FrequenciesOk(row, LowerColumns(o.races), false, parse);
  }

  /** geography/DemographicsLoader reads the sexes from TOT_MALE and
   *  TOT_FEMALE. */
  lemma GeographyLoaderReadsTotals(ageGroups: seq<string>, races: seq<string>, incomes: seq<string>,
                                   educations: seq<string>, popEstHeader: string,
                                   row: Row, parse: string -> Option<Double>)
    requires ProfileOf(GeographyOptions(ageGroups, races, incomes, educations, popEstHeader), row, parse).Ok?
    ensures ParseCell(Cell(row, "TOT_MALE"), parse).Ok? && ParseCell(Cell(row, "TOT_FEMALE"), parse).Ok?
    ensures ProfileOf(GeographyOptions(ageGroups, races, incomes, educations, popEstHeader), row, parse).value.gender
            == map["male" := ParseCell(Cell(row, "TOT_MALE"), parse).value,
                   "female" := ParseCell(Cell(row, "TOT_FEMALE"), parse).value]
  {
  }

  // -------------------------------------------------------- whole file

  /** Guava's `Table<state, city, demographics>`; it refuses `null` keys. */
  type Table = map<(string, string), Profile>

  /** The line's state matches the wanted state, ignoring case. */
  predicate InState(state: string, row: Row) {
    Cell(row, STATE_HEADER).Some? && EqualsIgnoreCase(state, Cell(row, STATE_HEADER).value)
  }

  /** The loop of `load` over the lines of the file: a line of the wanted
   *  state is parsed and then put under (its state, its city), a later
   *  line overriding an earlier one; a `null` city is refused with
   *  NullPointerException after the line is parsed. */
  function TableFrom(state: string, rows: seq<Row>, o: LoaderOptions, parse: string -> Option<Double>): (r: Result<Table>)
    ensures r.Ok? ==> forall k :: k in r.value ==> EqualsIgnoreCase(state, k.0)
    ensures (forall i :: 0 <= i < |rows| ==> !InState(state, rows[i])) ==> r == Ok(map[])
  {
    if |rows| == 0 then Ok(map[])
    else
      match TableFrom(state, rows[..|rows| - 1], o, parse)
      case Err(e) => Err(e)
      case Ok(t) => WithLine(state, t, rows[|rows| - 1], o, parse)
  }

  lemma {:induction false} TableErrorPersists(state: string, rows: seq<Row>, k: nat, o: LoaderOptions,
                                              parse: string -> Option<Double>)
    requires k <= |rows| && TableFrom(state, rows[..k], o, parse).Err?
    ensures TableFrom(state, rows, o, parse) == TableFrom(state, rows[..k], o, parse)
    decreases |rows|
  {
    if k == |rows| {
      assert rows[..k] == rows;
    } else {
      var init := rows[..|rows| - 1];
      assert init[..k] == rows[..k];
      TableErrorPersists(state, init, k, o, parse);
    }
  }

  /** The table the first `i` lines of the file give. */
  ghost predicate LoadedSoFar(state: string, rows: seq<Row>, i: nat, o: LoaderOptions, parse: string -> Option<Double>,
                              table: Table)
    requires i <= |rows|
  {
    TableFrom(state, rows[..i], o, parse) == Ok(table)
  }

  /** One line of `load`'s loop: a line of the wanted state is parsed and
   *  put under its state and city; a `null` city throws
   *  NullPointerException once the line is parsed. */
  function WithLine(state: string, table: Table, line: Row, o: LoaderOptions, parse: string -> Option<Double>)
    : (r: Result<Table>)
    ensures !InState(state, line) ==> r == Ok(table)
    ensures r.Ok? && InState(state, line) ==>
              Cell(line, CITY_HEADER).Some? && ProfileOf(o, line, parse).Ok?
              && r.value == table[(Cell(line, STATE_HEADER).value, Cell(line, CITY_HEADER).value) := ProfileOf(o, line, parse).value]
  {
    if !InState(state, line) then Ok(table)
    else
      match ProfileOf(o, line, parse)
      case Err(e) => Err(e)
      case Ok(p) =>
        match Cell(line, CITY_HEADER)
        case None => Err(NULL_POINTER)
        case Some(city) => Ok(table[(Cell(line, STATE_HEADER).value, city) := p])
  }

  /** The table of one more line of the file. */
  lemma TableFromSnoc(state: string, rows: seq<Row>, i: nat, o: LoaderOptions, parse: string -> Option<Double>,
                      table: Table)
    requires i < |rows| && LoadedSoFar(state, rows, i, o, parse, table)
    ensures TableFrom(state, rows[..i + 1], o, parse) == WithLine(state, table, rows[i], o, parse)
  {
    assert rows[..i + 1][..i] == rows[..i];
  }

  /** The body of `load`'s loop for one line of the wanted state's file. */
  method LoadLine(state: string, table: Table, line: Row, o: LoaderOptions, parse: string -> Option<Double>)
    returns (r: Result<Table>)
    ensures r == WithLine(state, table, line, o, parse)
  {
    if !InState(state, line) {
      return Ok(table);
    }
    var parsed := CsvLineToDemographics(o, line, parse);
    if parsed.Err? {
      return Err(parsed.error);
    }
    var city := Cell(line, CITY_HEADER);
    if city.None? {
      return Err(NULL_POINTER);
    }
    return Ok(table[(Cell(line, STATE_HEADER).value, city.value) := parsed.value]);
  }

  /** `load(state, filename)`: `null` when the file cannot be read or
   *  parsed; no line matches a `null` state, so that gives an empty
   *  table. */
  method Load(state: Option<string>, csv: Option<seq<Row>>, o: LoaderOptions, parse: string -> Option<Double>)
    returns (r: Result<Option<Table>>)
    ensures csv.None? ==> r == Ok(None)
    ensures csv.Some? && state.None? ==> r == Ok(Some(map[]))
    ensures csv.Some? && state.Some? ==>
              match TableFrom(state.value, csv.value, o, parse)
              case Err(e) => r == Err(e)
              case Ok(t) => r == Ok(Some(t))
  {
    if csv.None? {
      return Ok(None);
    }
    var rows := csv.value;
    var table: Table := map[];
    var i := 0;
    while i < |rows|
      invariant 0 <= i <= |rows|
      invariant state.None? ==> table == map[]
      invariant state.Some? ==> LoadedSoFar(state.value, rows, i, o, parse, table)
    {
      if state.Some? {
        TableFromSnoc(state.value, rows, i, o, parse, table);
        var next := LoadLine(state.value, table, rows[i], o, parse);
        if next.Err? {
          TableErrorPersists(state.value, rows, i + 1, o, parse);
          return Err(next.error);
        }
        table := next.value;
      }
      i := i + 1;
    }
    assert rows[..|rows|] == rows;
    return Ok(Some(table));
  }

  /** Every entry of a loaded table comes from a line of the wanted state
   *  (ignoring case) whose state and city cells are the entry's keys, and
   *  whose parsed demographics are the entry. */
  lemma {:induction false} TableEntriesFromLines(state: string, rows: seq<Row>, o: LoaderOptions,
                                                parse: string -> Option<Double>, key: (string, string))
    requires TableFrom(state, rows, o, parse).Ok? && key in TableFrom(state, rows, o, parse).value
    ensures exists i :: 0 <= i < |rows| && InState(state, rows[i])
                        && Cell(rows[i], STATE_HEADER) == Some(key.0) && Cell(rows[i], CITY_HEADER) == Some(key.1)
                        && ProfileOf(o, rows[i], parse) == Ok(TableFrom(state, rows, o, parse).value[key])
  {
    var init := rows[..|rows| - 1];
    var line := rows[|rows| - 1];
    var t := TableFrom(state, init, o, parse).value;
    var r := TableFrom(state, rows, o, parse).value;
    assert TableFrom(state, rows, o, parse) == WithLine(state, t, line, o, parse);
    if InState(state, line) && key == (Cell(line, STATE_HEADER).value, Cell(line, CITY_HEADER).value) {
      assert ProfileOf(o, rows[|rows| - 1], parse) == Ok(r[key]);
    } else {
      assert key in t && r[key] == t[key];
      TableEntriesFromLines(state, init, o, parse, key);
      var i :| 0 <= i < |init| && InState(state, init[i])
               && Cell(init[i], STATE_HEADER) == Some(key.0) && Cell(init[i], CITY_HEADER) == Some(key.1)
               && ProfileOf(o, init[i], parse) == Ok(t[key]);
      var row := init[i];
      assert row == rows[i];
    }
  }

  /** Every line of the wanted state is in a loaded table, under its own
   *  state and city. */
  lemma {:induction false} TableHasEveryLine(state: string, rows: seq<Row>, o: LoaderOptions,
                                            parse: string -> Option<Double>, i: nat)
    requires TableFrom(state, rows, o, parse).Ok? && i < |rows| && InState(state, rows[i])
    ensures Cell(rows[i], CITY_HEADER).Some?
    ensures (Cell(rows[i], STATE_HEADER).value, Cell(rows[i], CITY_HEADER).value) in TableFrom(state, rows, o, parse).value
  {
    var init := rows[..|rows| - 1];
    if i < |rows| - 1 {
      assert init[i] == rows[i];
      TableHasEveryLine(state, init, o, parse, i);
    }
  }

  /** The loaded demographics of an entry name the entry's own city and
   *  state. */
  lemma TableEntryNamesItsCity(state: string, rows: seq<Row>, o: LoaderOptions,
                               parse: string -> Option<Double>, key: (string, string))
    requires TableFrom(state, rows, o, parse).Ok? && key in TableFrom(state, rows, o, parse).value
    ensures TableFrom(state, rows, o, parse).value[key].city == Some(key.1)
    ensures TableFrom(state, rows, o, parse).value[key].state == Some(key.0)
    ensures EqualsIgnoreCase(state, key.0)
  {
    TableEntriesFromLines(state, rows, o, parse, key);
    var i :| 0 <= i < |rows| && InState(state, rows[i])
             && Cell(rows[i], STATE_HEADER) == Some(key.0) && Cell(rows[i], CITY_HEADER) == Some(key.1)
             && ProfileOf(o, rows[i], parse) == Ok(TableFrom(state, rows, o, parse).value[key]);
    ProfileShape(o, rows[i], parse);
  }
}
