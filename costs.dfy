/** Costs: the price tables of procedures, medications, encounters and
 *  immunizations, the state and zip-code adjustment factors, and the cost of
 *  one health-record entry.
 *
 *  Reading a resource file is not modelled: a file is given by its parsed
 *  lines, or `None` when reading it throws IOException.  `parse` stands for
 *  `Double.parseDouble` / `Double.valueOf`, as in module CsvRows, and
 *  `chosen` for `CostData.chooseCost(patient.random)`. */
module Costs {
  import opened Wrappers
  import opened JavaText
  import opened CsvRows
  import opened StateAbbreviations
  import Locations

  /** The kinds of health-record entry; `Other` stands for every entry
   *  class that is none of the four priced ones. */
  datatype EntryKind = Procedure | Medication | Encounter | Immunization | Other

  /** A health-record entry: its class and the `code` of each of its codes. */
  datatype Entry = Entry(kind: EntryKind, codes: seq<Option<string>>)

  /** The patient attributes a cost depends on: the state name and the zip
   *  code, `None` when the attribute map has no such key. */
  datatype Patient = Patient(state: Option<string>, zip: Option<string>)

  /** A price range: minimum, most common and maximum cost in dollars. */
  datatype CostData = CostData(min: Double, mode: Double, max: Double)

  /** code -> price range, and state or zip -> adjustment factor; a missing
   *  column gives a `null` key. */
  type CostTable = map<Option<string>, CostData>
  type Factors = map<Option<string>, Double>

  /** The four static price tables with their configured default costs. */
  datatype CostTables = CostTables(procedures: CostTable, medications: CostTable, encounters: CostTable,
                                   immunizations: CostTable, defaultProcedure: Double, defaultMedication: Double,
                                   defaultEncounter: Double, defaultImmunization: Double)

  // ------------------------------------------------------ line by line

  /** What one CSV line contributes to a table: an entry to `put`, nothing
   *  (the line is skipped), or the exception that escapes the loop. */
  type Outcome<V> = Result<Option<(Option<string>, V)>>

  /** A parse loop over the lines' outcomes: every entry `put` in turn, so a
   *  later line overrides an earlier one with the same key, and the first
   *  escaping exception ends the loop. */
  function Fill<V>(outs: seq<Outcome<V>>): Result<map<Option<string>, V>> {
    if |outs| == 0 then Ok(map[])
    else
      match Fill(outs[..|outs| - 1])
      case Err(e) => Err(e)
      case Ok(m) =>
        match outs[|outs| - 1]
        case Err(e) => Err(e)
        case Ok(None) => Ok(m)
        case Ok(Some(kv)) => Ok(m[kv.0 := kv.1])
  }

  /** Once a prefix of the lines has failed, the whole loop fails alike. */
  lemma {:induction false} FillErrorPersists<V>(outs: seq<Outcome<V>>, n: nat)
    requires n <= |outs| && Fill(outs[..n]).Err?
    ensures Fill(outs) == Fill(outs[..n])
    decreases |outs|
  {
    if n == |outs| {
      assert outs[..n] == outs;
    } else {
      var init := outs[..|outs| - 1];
      assert init[..n] == outs[..n];
      FillErrorPersists(init, n);
    }
  }

  /** The loop finishes exactly when no line throws, and otherwise throws
   *  the exception of the first line that does. */
  lemma {:induction false} FillOk<V>(outs: seq<Outcome<V>>)
    ensures Fill(outs).Ok? <==> forall i :: 0 <= i < |outs| ==> outs[i].Ok?
    ensures Fill(outs).Err? ==>
              exists i :: 0 <= i < |outs| && outs[i] == Err(Fill(outs).error)
                          && forall j :: 0 <= j < i ==> outs[j].Ok?
  {
    if |outs| > 0 {
      var init := outs[..|outs| - 1];
      FillOk(init);
      assert forall i :: 0 <= i < |init| ==> init[i] == outs[i];
    }
  }

  /** Whether line `i` puts an entry under `k`. */
  predicate PutsKey<V>(outs: seq<Outcome<V>>, i: int, k: Option<string>)
    requires 0 <= i < |outs|
  {
    outs[i].Ok? && outs[i].value.Some? && outs[i].value.value.0 == k
  }

  /** A finished table holds exactly the keys some line put ... */
  lemma {:induction false} FillKeys<V>(outs: seq<Outcome<V>>)
    requires Fill(outs).Ok?
    ensures forall k :: k in Fill(outs).value <==> exists i :: 0 <= i < |outs| && PutsKey(outs, i, k)
  {
    if |outs| > 0 {
      var init := outs[..|outs| - 1];
      FillKeys(init);
      forall k
        ensures k in Fill(outs).value <==> exists i :: 0 <= i < |outs| && PutsKey(outs, i, k)
      {
        if k in Fill(outs).value {
          if k in Fill(init).value {
            var i :| 0 <= i < |init| && PutsKey(init, i, k);
            assert init[i] == outs[i];
            assert PutsKey(outs, i, k);
          } else {
            assert PutsKey(outs, |outs| - 1, k);
          }
        } else {
          forall i | 0 <= i < |outs|
            ensures !PutsKey(outs, i, k)
          {
            if i < |init| {
              assert init[i] == outs[i];
              assert !PutsKey(init, i, k);
            }
          }
        }
      }
    }
  }

  /** ... each under the value of the last line that put it. */
  lemma {:induction false} FillLastWins<V>(outs: seq<Outcome<V>>, i: nat, k: Option<string>, v: V)
    requires Fill(outs).Ok?
    requires i < |outs| && outs[i] == Ok(Some((k, v)))
    requires forall j :: i < j < |outs| ==> !PutsKey(outs, j, k)
    ensures k in Fill(outs).value && Fill(outs).value[k] == v
  {
    var init := outs[..|outs| - 1];
    assert Fill(init).Ok?;
    if i < |outs| - 1 {
      forall j | i < j < |init|
        ensures !PutsKey(init, j, k)
      {
        assert !PutsKey(outs, j, k);
        assert init[j] == outs[j];
      }
      FillLastWins(init, i, k, v);
      assert !PutsKey(outs, |outs| - 1, k);
    }
  }

  // -------------------------------------------------------- price files

  /** A line whose three prices are all numbers. */
  predicate Priced(row: Row, parse: string -> Option<Double>) {
    ParseCell(Cell(row, "MIN"), parse).Ok? && ParseCell(Cell(row, "MODE"), parse).Ok?
    && ParseCell(Cell(row, "MAX"), parse).Ok?
  }

  /** A NumberFormatException is caught and the line skipped; any other
   *  exception escapes the loop. */
  function Caught<V>(e: string): (r: Outcome<V>)
    ensures r.Ok? <==> e == NUMBER_FORMAT
    ensures r.Ok? ==> r.value.None?
    ensures r.Err? ==> r.error == e
  {
    if e == NUMBER_FORMAT then Ok(None) else Err(e)
  }

  /** One line of a price file: MIN, MODE and MAX are parsed in that order;
   *  the first non-numeric one skips the line (the code then keeps its
   *  default cost) and the first missing one throws NullPointerException. */
  function CostLine(row: Row, parse: string -> Option<Double>): (r: Outcome<CostData>)
    ensures r.Ok? && r.value.Some? <==> Priced(row, parse)
    ensures Priced(row, parse) ==>
              r.value.value == (Cell(row, "CODE"), CostData(ParseCell(Cell(row, "MIN"), parse).value,
                                                              ParseCell(Cell(row, "MODE"), parse).value,
                                                              ParseCell(Cell(row, "MAX"), parse).value))
    ensures r.Err? ==> r.error == NULL_POINTER
  {
    match ParseCell(Cell(row, "MIN"), parse)
    case Err(e) => Caught(e)
    case Ok(min) =>
      match ParseCell(Cell(row, "MODE"), parse)
      case Err(e) => Caught(e)
      case Ok(mode) =>
        match ParseCell(Cell(row, "MAX"), parse)
        case Err(e) => Caught(e)
        case Ok(max) => Ok(Some((Cell(row, "CODE"), CostData(min, mode, max))))
  }

  function CostOutcomes(lines: seq<Row>, parse: string -> Option<Double>): (outs: seq<Outcome<CostData>>)
    ensures |outs| == |lines|
    ensures forall i :: 0 <= i < |lines| ==> outs[i] == CostLine(lines[i], parse)
  {
    seq(|lines|, i requires 0 <= i < |lines| => CostLine(lines[i], parse))
  }

  /** `parseCsvToMap`: an unreadable file throws ExceptionInInitializerError;
   *  otherwise the lines are filled in turn. */
  function CostFile(lines: Option<seq<Row>>, parse: string -> Option<Double>): Result<CostTable> {
    if lines.None? then Err(INITIALIZER_ERROR) else Fill(CostOutcomes(lines.value, parse))
  }

  method ParseCsvToMap(lines: Option<seq<Row>>, parse: string -> Option<Double>) returns (r: Result<CostTable>)
    ensures r == CostFile(lines, parse)
  {
    if lines.None? {
      return Err(INITIALIZER_ERROR);
    }
    var ls := lines.value;
    ghost var outs := CostOutcomes(ls, parse);
    var costMap: CostTable := map[];
    var i := 0;
    while i < |ls|
      invariant 0 <= i <= |ls|
      invariant Fill(outs[..i]) == Ok(costMap)
    {
      assert outs[..i + 1][..i] == outs[..i];
      var outcome := CostLine(ls[i], parse);
      if outcome.Err? {
        FillErrorPersists(outs, i + 1);
        return Err(outcome.error);
      }
      if outcome.value.Some? {
        var (code, data) := outcome.value.value;
        costMap := costMap[code := data];
      }
      i := i + 1;
    }
    assert outs[..|ls|] == outs;
    return Ok(costMap);
  }

  /** A price file loads exactly when it is readable and no line has a
   *  missing price column before its first non-numeric one. */
  lemma CostFileOk(lines: Option<seq<Row>>, parse: string -> Option<Double>)
    ensures CostFile(lines, parse).Ok?
            <==> lines.Some? && forall i :: 0 <= i < |lines.value| ==> CostLine(lines.value[i], parse).Ok?
    ensures CostFile(lines, parse).Err? ==> CostFile(lines, parse).error in {INITIALIZER_ERROR, NULL_POINTER}
  {
    if lines.Some? {
      var outs := CostOutcomes(lines.value, parse);
      FillOk(outs);
      if Fill(outs).Err? {
        var i :| 0 <= i < |outs| && outs[i] == Err(Fill(outs).error);
        assert CostLine(lines.value[i], parse).Err?;
      }
    }
  }

  /** A loaded price table knows a code exactly when some line of that code
   *  has three numeric prices: a code whose every line was skipped is
   *  absent, and so costs the default. */
  lemma PricedCodes(lines: seq<Row>, parse: string -> Option<Double>, code: Option<string>)
    requires CostFile(Some(lines), parse).Ok?
    ensures code in CostFile(Some(lines), parse).value
            <==> exists i :: 0 <= i < |lines| && Priced(lines[i], parse) && Cell(lines[i], "CODE") == code
  {
    var outs := CostOutcomes(lines, parse);
    FillKeys(outs);
    assert forall i :: 0 <= i < |lines| ==>
             (PutsKey(outs, i, code) <==> Priced(lines[i], parse) && Cell(lines[i], "CODE") == code);
  }

  /** The last priced line of a code sets its price range. */
  lemma LastPricedLineWins(lines: seq<Row>, parse: string -> Option<Double>, i: nat)
    requires CostFile(Some(lines), parse).Ok?
    requires i < |lines| && Priced(lines[i], parse)
    requires forall j :: i < j < |lines| && Priced(lines[j], parse) ==> Cell(lines[j], "CODE") != Cell(lines[i], "CODE")
    ensures Cell(lines[i], "CODE") in CostFile(Some(lines), parse).value
    ensures CostFile(Some(lines), parse).value[Cell(lines[i], "CODE")]
            == CostData(ParseCell(Cell(lines[i], "MIN"), parse).value, ParseCell(Cell(lines[i], "MODE"), parse).value,
                        ParseCell(Cell(lines[i], "MAX"), parse).value)
  {
    var outs := CostOutcomes(lines, parse);
    var kv := outs[i].value.value;
    assert forall j :: i < j < |outs| ==> !PutsKey(outs, j, kv.0);
    FillLastWins(outs, i, kv.0, kv.1);
  }

  // --------------------------------------------------- adjustment files

  /** One line of an adjustment file: the location cell of column `column`
   *  and the ADJ_FACTOR cell.  A non-numeric factor is rethrown as
   *  RuntimeException and a missing one throws NullPointerException; no
   *  line is skipped. */
  function FactorLine(row: Row, column: string, parse: string -> Option<Double>): (r: Outcome<Double>)
    ensures r.Ok? <==> ParseCell(Cell(row, "ADJ_FACTOR"), parse).Ok?
    ensures r.Ok? ==> r.value == Some((Cell(row, column), ParseCell(Cell(row, "ADJ_FACTOR"), parse).value))
    ensures r.Err? ==> (r.error == RUNTIME <==> Cell(row, "ADJ_FACTOR").Some?)
    ensures r.Err? ==> r.error in {RUNTIME, NULL_POINTER}
  {
    match ParseCell(Cell(row, "ADJ_FACTOR"), parse)
    case Err(e) => if e == NUMBER_FORMAT then Err(RUNTIME) else Err(e)
    case Ok(factor) => Ok(Some((Cell(row, column), factor)))
  }

  function FactorOutcomes(lines: seq<Row>, column: string, parse: string -> Option<Double>): (outs: seq<Outcome<Double>>)
    ensures |outs| == |lines|
    ensures forall i :: 0 <= i < |lines| ==> outs[i] == FactorLine(lines[i], column, parse)
  {
    seq(|lines|, i requires 0 <= i < |lines| => FactorLine(lines[i], column, parse))
  }

  /** `parseAdjustmentFactors(path, type)` with `column` for `type`. */
  function FactorFile(lines: Option<seq<Row>>, column: string, parse: string -> Option<Double>): Result<Factors> {
    if lines.None? then Err(INITIALIZER_ERROR) else Fill(FactorOutcomes(lines.value, column, parse))
  }

  method ParseAdjustmentFactors(lines: Option<seq<Row>>, column: string, parse: string -> Option<Double>)
    returns (r: Result<Factors>)
    ensures r == FactorFile(lines, column, parse)
  {
    if lines.None? {
      return Err(INITIALIZER_ERROR);
    }
    var ls := lines.value;
    ghost var outs := FactorOutcomes(ls, column, parse);
    var costMap: Factors := map[];
    var i := 0;
    while i < |ls|
      invariant 0 <= i <= |ls|
      invariant Fill(outs[..i]) == Ok(costMap)
    {
      assert outs[..i + 1][..i] == outs[..i];
      var factor := ParseCell(Cell(ls[i], "ADJ_FACTOR"), parse);
      if factor.Err? {
        FillErrorPersists(outs, i + 1);
        return if factor.error == NUMBER_FORMAT then Err(RUNTIME) else Err(factor.error);
      }
      costMap := costMap[Cell(ls[i], column) := factor.value];
      i := i + 1;
    }
    assert outs[..|ls|] == outs;
    return Ok(costMap);
  }

  /** An adjustment file loads exactly when it is readable and every factor
   *  is a number; an unreadable file throws ExceptionInInitializerError
   *  and a malformed one the RuntimeException or NullPointerException of
   *  its first bad line. */
  lemma FactorFileOk(lines: Option<seq<Row>>, column: string, parse: string -> Option<Double>)
    ensures FactorFile(lines, column, parse).Ok?
            <==> lines.Some? && forall i :: 0 <= i < |lines.value| ==> ParseCell(Cell(lines.value[i], "ADJ_FACTOR"), parse).Ok?
    ensures FactorFile(lines, column, parse).Err? ==>
              (FactorFile(lines, column, parse).error == INITIALIZER_ERROR <==> lines.None?)
    ensures FactorFile(lines, column, parse).Err? ==>
              FactorFile(lines, column, parse).error in {INITIALIZER_ERROR, RUNTIME, NULL_POINTER}
  {
    if lines.Some? {
      var outs := FactorOutcomes(lines.value, column, parse);
      FillOk(outs);
      if Fill(outs).Err? {
        var j :| 0 <= j < |outs| && outs[j] == Err(Fill(outs).error);
        assert FactorLine(lines.value[j], column, parse).Err?;
      }
    }
  }

  /** A loaded adjustment table maps every location of the file, each to
   *  the factor of its last line. */

  lemma FactorFileKeys(lines: seq<Row>, column: string, parse: string -> Option<Double>)
    requires FactorFile(Some(lines), column, parse).Ok?
    ensures forall k :: k in FactorFile(Some(lines), column, parse).value
                        <==> exists i :: 0 <= i < |lines| && Cell(lines[i], column) == k
  {
    var outs := FactorOutcomes(lines, column, parse);
    FillOk(outs);
    FillKeys(outs);
    forall k
      ensures k in FactorFile(Some(lines), column, parse).value
              <==> exists i :: 0 <= i < |lines| && Cell(lines[i], column) == k
    {
      if k in FactorFile(Some(lines), column, parse).value {
        var i :| 0 <= i < |outs| && PutsKey(outs, i, k);
        assert outs[i] == FactorLine(lines[i], column, parse);
      } else {
        forall i | 0 <= i < |lines|
          ensures Cell(lines[i], column) != k
        {
          assert !PutsKey(outs, i, k);
          assert outs[i] == FactorLine(lines[i], column, parse);
        }
      }
    }
  }

  lemma LastFactorLineWins(lines: seq<Row>, column: string, parse: string -> Option<Double>, i: nat)
    requires FactorFile(Some(lines), column, parse).Ok?
    requires i < |lines| && forall j :: i < j < |lines| ==> Cell(lines[j], column) != Cell(lines[i], column)
    ensures Cell(lines[i], column) in FactorFile(Some(lines), column, parse).value
    ensures ParseCell(Cell(lines[i], "ADJ_FACTOR"), parse).Ok?
    ensures FactorFile(Some(lines), column, parse).value[Cell(lines[i], column)]
            == ParseCell(Cell(lines[i], "ADJ_FACTOR"), parse).value
  {
    var outs := FactorOutcomes(lines, column, parse);
    FillOk(outs);
    var kv := outs[i].value.value;
    assert forall j :: i < j < |outs| ==> !PutsKey(outs, j, kv.0);
    FillLastWins(outs, i, kv.0, kv.1);
  }

  // ------------------------------------------------- static initialiser

  /** The class's static initialiser: the four price files and the four
   *  configured default costs (`Double.parseDouble(Config.get(...))`, a
   *  missing setting being `None`).  Any exception in it surfaces as
   *  ExceptionInInitializerError. */
  function CostTablesFrom(procedures: Option<seq<Row>>, medications: Option<seq<Row>>, encounters: Option<seq<Row>>,
                          immunizations: Option<seq<Row>>, defaults: seq<Option<string>>,
                          parse: string -> Option<Double>): (r: Result<CostTables>)
    requires |defaults| == 4
    ensures r.Ok? <==> (CostFile(procedures, parse).Ok? && CostFile(medications, parse).Ok?
                        && CostFile(encounters, parse).Ok? && CostFile(immunizations, parse).Ok?
                        && forall i :: 0 <= i < 4 ==> ParseCell(defaults[i], parse).Ok?)
    ensures r.Ok? ==> r.value == CostTables(CostFile(procedures, parse).value, CostFile(medications, parse).value,
                                            CostFile(encounters, parse).value, CostFile(immunizations, parse).value,
                                            ParseCell(defaults[0], parse).value, ParseCell(defaults[1], parse).value,
                                            ParseCell(defaults[2], parse).value, ParseCell(defaults[3], parse).value)
    ensures r.Err? ==> r.error == INITIALIZER_ERROR
  {
    var p := CostFile(procedures, parse);
    var m := CostFile(medications, parse);
    var e := CostFile(encounters, parse);
    var i := CostFile(immunizations, parse);
    var d := seq(4, k requires 0 <= k < 4 => ParseCell(defaults[k], parse));
    if p.Err? || m.Err? || e.Err? || i.Err? || d[0].Err? || d[1].Err? || d[2].Err? || d[3].Err? then
      Err(INITIALIZER_ERROR)
    else
      Ok(CostTables(p.value, m.value, e.value, i.value, d[0].value, d[1].value, d[2].value, d[3].value))
  }

  // ------------------------------------------------------ loadCostData

  /** An exception from `parseAdjustmentFactors` is caught and the table
   *  set to `null`; ExceptionInInitializerError is an Error, not an
   *  Exception, and escapes. */
  function Loaded(r: Result<Factors>): (t: Option<Factors>)
    requires r.Ok? || r.error != INITIALIZER_ERROR
    ensures t.Some? <==> r.Ok?
    ensures t.Some? ==> t.value == r.value
  {
    if r.Ok? then Some(r.value) else None
  }

  /** The two mutable static adjustment tables; `None` is `null`, as they
   *  are before the first `loadCostData` and after a failed load. */
  class AdjustmentFactors {
    var state: Option<Factors>
    var zip: Option<Factors>

    constructor ()
      ensures state == None && zip == None
    {
      state := None;
      zip := None;
    }

    /** `loadCostData`: the zip table and then the state table, each
     *  falling back to `null` when its file is malformed.  An unreadable
     *  file ends the method with its Error and leaves that table and any
     *  later one as they were. */
    method LoadCostData(zipLines: Option<seq<Row>>, stateLines: Option<seq<Row>>, parse: string -> Option<Double>)
      returns (thrown: Option<string>)
      modifies this
      ensures var z := FactorFile(zipLines, "ZIP", parse);
              var s := FactorFile(stateLines, "STATE", parse);
              if z == Err(INITIALIZER_ERROR) then
                thrown == Some(INITIALIZER_ERROR) && zip == old(zip) && state == old(state)
              else if s == Err(INITIALIZER_ERROR) then
                thrown == Some(INITIALIZER_ERROR) && zip == Loaded(z) && state == old(state)
              else
                thrown == None && zip == Loaded(z) && state == Loaded(s)
    {
      var z := ParseAdjustmentFactors(zipLines, "ZIP", parse);
      if z == Err(INITIALIZER_ERROR) {
        return Some(INITIALIZER_ERROR);
      }
      zip := Loaded(z);
      var s := ParseAdjustmentFactors(stateLines, "STATE", parse);
      if s == Err(INITIALIZER_ERROR) {
        return Some(INITIALIZER_ERROR);
      }
      state := Loaded(s);
      return None;
    }
  }

  /** A readable zip file with a bad factor throws an Exception, which
   *  `loadCostData` catches: the zip table becomes `null`, so costs fall
   *  back to the state factors. */
  lemma MalformedZipFileFallsBack(zipLines: seq<Row>, parse: string -> Option<Double>, i: nat)
    requires i < |zipLines| && ParseCell(Cell(zipLines[i], "ADJ_FACTOR"), parse).Err?
    ensures FactorFile(Some(zipLines), "ZIP", parse).Err?
    ensures FactorFile(Some(zipLines), "ZIP", parse).error != INITIALIZER_ERROR
    ensures Loaded(FactorFile(Some(zipLines), "ZIP", parse)) == None
  {
    FactorFileOk(Some(zipLines), "ZIP", parse);
  }

  // ------------------------------------------------------ calculateCost

  /** `hasCost`: only procedures, medications, encounters and immunizations
   *  are billed. */
  predicate HasCost(e: Entry) {
    e.kind == Procedure || e.kind == Medication || e.kind == Encounter || e.kind == Immunization
  }

  /** The price table and default cost of a billed entry's class. */
  function TableFor(t: CostTables, kind: EntryKind): (r: (CostTable, Double))
    requires kind != Other
  {
    match kind
    case Procedure => (t.procedures, t.defaultProcedure)
    case Medication => (t.medications, t.defaultMedication)
    case Encounter => (t.encounters, t.defaultEncounter)
    case Immunization => (t.immunizations, t.defaultImmunization)
  }

  /** The base cost of a billed entry: drawn from the price range of its
   *  first code when its class's table has that code (which reads the
   *  patient's random source), else its class's default. */
  function BaseCost(t: CostTables, e: Entry, patient: Option<Patient>, chosen: CostData -> Double): (r: Result<Double>)
    requires HasCost(e)
    ensures |e.codes| == 0 <==> r == Err(INDEX_OUT_OF_BOUNDS)
    ensures |e.codes| > 0 && e.codes[0] !in TableFor(t, e.kind).0 ==> r == Ok(TableFor(t, e.kind).1)
    ensures |e.codes| > 0 && e.codes[0] in TableFor(t, e.kind).0 ==>
              r == if patient.None? then Err(NULL_POINTER) else Ok(chosen(TableFor(t, e.kind).0[e.codes[0]]))
  {
    if |e.codes| == 0 then Err(INDEX_OUT_OF_BOUNDS)
    else
      var (costs, defaultCost) := TableFor(t, e.kind);
      var code := e.codes[0];
      if code in costs then
        if patient.None? then Err(NULL_POINTER) else Ok(chosen(costs[code]))
      else Ok(defaultCost)
  }

  /** The location adjustment: 1.0, replaced by the factor of the
   *  patient's state abbreviation (`Location.getAbbreviation`, module
   *  Locations) when the state table has it, and that by the factor of the
   *  patient's zip code when the zip table is loaded and has it.  For a
   *  patient with a state, an unloaded abbreviation table, and then a
   *  `null` state table, throws NullPointerException. */
  function LocationAdjustment(abbrs: Option<AbbreviationTable>, stateFactors: Option<Factors>,
                              zipFactors: Option<Factors>, patient: Option<Patient>): (r: Result<Double>)
    ensures r.Err? <==> patient.Some? && patient.value.state.Some? && (abbrs.None? || stateFactors.None?)
    ensures r.Err? ==> r.error == NULL_POINTER
    // a zip factor, when there is one, wins over any state factor
    ensures r.Ok? && patient.Some? && patient.value.zip.Some? && zipFactors.Some?
            && patient.value.zip in zipFactors.value
            ==> r.value == zipFactors.value[patient.value.zip]
    // without one, the factor of the state's abbreviation applies
    ensures r.Ok? && patient.Some? && !(patient.value.zip.Some? && zipFactors.Some? && patient.value.zip in zipFactors.value)
            && patient.value.state.Some?
            && Locations.Abbreviation(abbrs, patient.value.state.value).value in stateFactors.value
            ==> r.value == stateFactors.value[Locations.Abbreviation(abbrs, patient.value.state.value).value]
    // with neither, the adjustment is 1.0
    ensures r.Ok? && !(patient.Some? && patient.value.zip.Some? && zipFactors.Some? && patient.value.zip in zipFactors.value)
            && !(patient.Some? && patient.value.state.Some?
                 && Locations.Abbreviation(abbrs, patient.value.state.value).value in stateFactors.value)
            ==> r.value == Num(1.0)
  {
    var stateAdjustment :=
      if patient.Some? && patient.value.state.Some? then
        match Locations.Abbreviation(abbrs, patient.value.state.value)
        case Err(e) => Err(e)
        case Ok(abbr) =>
          if stateFactors.None? then Err(NULL_POINTER)
          else if abbr in stateFactors.value then Ok(stateFactors.value[abbr])
          else Ok(Num(1.0))
      else Ok(Num(1.0));
    if stateAdjustment.Err? then stateAdjustment
    else if patient.Some? && patient.value.zip.Some? && zipFactors.Some? && patient.value.zip in zipFactors.value
    then Ok(zipFactors.value[patient.value.zip])
    else stateAdjustment
  }

  /** `calculateCost`: zero for an entry that is not billed, otherwise the
   *  base cost times the location adjustment; the provider and payer do
   *  not take part. */
  function CalculateCost(t: CostTables, abbrs: Option<AbbreviationTable>, stateFactors: Option<Factors>,
                         zipFactors: Option<Factors>, e: Entry, patient: Option<Patient>,
                         chosen: CostData -> Double): (r: Result<Double>)
    ensures !HasCost(e) ==> r == Ok(Num(0.0))
    ensures HasCost(e) && r.Ok? ==>
              BaseCost(t, e, patient, chosen).Ok? && LocationAdjustment(abbrs, stateFactors, zipFactors, patient).Ok?
              && r.value == Times(BaseCost(t, e, patient, chosen).value,
                                  LocationAdjustment(abbrs, stateFactors, zipFactors, patient).value)
    ensures HasCost(e) && r.Err? ==>
              r.error in {INDEX_OUT_OF_BOUNDS, NULL_POINTER}
  {
    if !HasCost(e) then Ok(Num(0.0))
    else
      match BaseCost(t, e, patient, chosen)
      case Err(err) => Err(err)
      case Ok(base) =>
        match LocationAdjustment(abbrs, stateFactors, zipFactors, patient)
        case Err(err) => Err(err)
        case Ok(adjustment) => Ok(Times(base, adjustment))
  }

  /** An entry whose code no line of its price file priced costs its class's
   *  default, scaled by the location adjustment. */
  lemma UnpricedCodeCostsDefault(lines: seq<Row>, parse: string -> Option<Double>, t: CostTables,
                                 abbrs: Option<AbbreviationTable>, stateFactors: Option<Factors>, zipFactors: Option<Factors>,
                                 e: Entry, patient: Option<Patient>, chosen: CostData -> Double)
    requires CostFile(Some(lines), parse).Ok? && HasCost(e) && |e.codes| > 0
    requires TableFor(t, e.kind).0 == CostFile(Some(lines), parse).value
    requires forall i :: 0 <= i < |lines| && Cell(lines[i], "CODE") == e.codes[0] ==> !Priced(lines[i], parse)
    requires LocationAdjustment(abbrs, stateFactors, zipFactors, patient).Ok?
    ensures CalculateCost(t, abbrs, stateFactors, zipFactors, e, patient, chosen)
            == Ok(Times(TableFor(t, e.kind).1, LocationAdjustment(abbrs, stateFactors, zipFactors, patient).value))
  {
    PricedCodes(lines, parse, e.codes[0]);
  }
}
