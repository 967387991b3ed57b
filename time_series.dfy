/** TimeSeriesUtils: yearly time series built from "year:value,..." text —
 *  constant, step-wise and piece-wise linear.  Years are ints, values are
 *  Java doubles (a real or NaN); `Double.parseDouble` is a parameter. */
module TimeSeries {
  import opened Wrappers
  import opened JavaText

  /** One (year, value) entry of a series. */
  datatype Point = Point(year: int, value: Double)

  /** A named series of yearly points, in the order they were added. */
  datatype Series = Series(name: string, points: seq<Point>)

  /** The number of years in [start, end). */
  function Span(start: int, end: int): nat {
    if end > start then end - start else 0
  }

  // ------------------------------------------------ sorted-map lookups

  /** `k` is the least key (`TreeMap.firstKey`). */
  ghost predicate IsFirst(keys: set<int>, k: int) {
    k in keys && forall x :: x in keys ==> k <= x
  }

  /** `k` is the greatest key (`TreeMap.lastKey`). */
  ghost predicate IsLast(keys: set<int>, k: int) {
    k in keys && forall x :: x in keys ==> x <= k
  }

  /** `k` is the greatest key at most `i` (`TreeMap.floorEntry(i)`). */
  ghost predicate IsFloor(keys: set<int>, i: int, k: int) {
    k in keys && k <= i && forall x :: x in keys && x <= i ==> x <= k
  }

  /** `k` is the least key at least `i` (`TreeMap.ceilingEntry(i)`). */
  ghost predicate IsCeiling(keys: set<int>, i: int, k: int) {
    k in keys && i <= k && forall x :: x in keys && i <= x ==> k <= x
  }

  /** A non-empty set of years has a member. */
  lemma Member(s: set<int>)
    requires s != {}
    ensures exists y :: y in s
  {
    if forall y :: y !in s {
      assert false;
    }
  }

  lemma {:induction false} HasLeast(s: set<int>)
    requires s != {}
    ensures exists m :: IsFirst(s, m)
    decreases |s|
  {
    Member(s);
    var y :| y in s;
    if z :| z in s && z != y {
      assert z in s - {y};
      HasLeast(s - {y});
      var m :| IsFirst(s - {y}, m);
      assert forall x :: x in s && x != y ==> x in s - {y};
      if y < m {
        assert IsFirst(s, y);
      } else {
        assert IsFirst(s, m);
      }
    } else {
      assert IsFirst(s, y);
    }
  }

  lemma {:induction false} HasGreatest(s: set<int>)
    requires s != {}
    ensures exists m :: IsLast(s, m)
    decreases |s|
  {
    Member(s);
    var y :| y in s;
    if z :| z in s && z != y {
      assert z in s - {y};
      HasGreatest(s - {y});
      var m :| IsLast(s - {y}, m);
      assert forall x :: x in s && x != y ==> x in s - {y};
      if y > m {
        assert IsLast(s, y);
      } else {
        assert IsLast(s, m);
      }
    } else {
      assert IsLast(s, y);
    }
  }

  ghost function First(keys: set<int>): (k: int)
    requires keys != {}
    ensures IsFirst(keys, k)
  {
    HasLeast(keys);
    var k :| IsFirst(keys, k); k
  }

  ghost function Last(keys: set<int>): (k: int)
    requires keys != {}
    ensures IsLast(keys, k)
  {
    HasGreatest(keys);
    var k :| IsLast(keys, k); k
  }

  ghost function Floor(keys: set<int>, i: int): (k: int)
    requires keys != {} && First(keys) <= i
    ensures IsFloor(keys, i, k)
  {
    var below := set x | x in keys && x <= i;
    assert First(keys) in below;
    assert forall x :: x in keys && x <= i ==> x in below;
    HasGreatest(below);
    var k :| IsLast(below, k); k
  }

  ghost function Ceiling(keys: set<int>, i: int): (k: int)
    requires keys != {} && i <= Last(keys)
    ensures IsCeiling(keys, i, k)
  {
    var above := set x | x in keys && i <= x;
    assert Last(keys) in above;
    assert forall x :: x in keys && i <= x ==> x in above;
    HasLeast(above);
    var k :| IsFirst(above, k); k
  }

  /** The floor, the ceiling, the first and the last key are unique. */
  lemma FloorUnique(keys: set<int>, i: int, k: int)
    requires IsFloor(keys, i, k)
    ensures keys != {} && First(keys) <= i && Floor(keys, i) == k
  {
  }

  lemma CeilingUnique(keys: set<int>, i: int, k: int)
    requires IsCeiling(keys, i, k)
    ensures keys != {} && i <= Last(keys) && Ceiling(keys, i) == k
  {
  }

  /** `TreeMap.firstKey` on a non-empty key set. */
  method FirstKey(keys: set<int>) returns (k: int)
    requires keys != {}
    ensures k == First(keys)
  {
    var rest := keys;
    Member(rest);
    k :| k in rest;
    rest := rest - {k};
    while rest != {}
      invariant rest <= keys && k in keys
      invariant forall x :: x in keys && x !in rest ==> k <= x
      decreases |rest|
    {
      Member(rest);
      var x :| x in rest;
      if x < k {
        k := x;
      }
      rest := rest - {x};
    }
  }

  /** `TreeMap.floorEntry(i)`'s key: the greatest key at most `i`, or
   *  nothing when every key is above `i`. */
  method FloorKey(keys: set<int>, i: int) returns (k: Option<int>)
    ensures k.None? <==> forall x :: x in keys ==> i < x
    ensures k.Some? ==> IsFloor(keys, i, k.value)
  {
    var rest := keys;
    k := None;
    while rest != {}
      invariant rest <= keys
      invariant k.None? ==> forall x :: x in keys && x !in rest ==> i < x
      invariant k.Some? ==> k.value in keys && k.value <= i && forall x :: x in keys && x !in rest && x <= i ==> x <= k.value
      decreases |rest|
    {
      Member(rest);
      var x :| x in rest;
      if x <= i && (k.None? || k.value < x) {
        k := Some(x);
      }
      rest := rest - {x};
    }
  }

  /** `TreeMap.ceilingEntry(i)`'s key: the least key at least `i`, or
   *  nothing when every key is below `i`. */
  method CeilingKey(keys: set<int>, i: int) returns (k: Option<int>)
    ensures k.None? <==> forall x :: x in keys ==> x < i
    ensures k.Some? ==> IsCeiling(keys, i, k.value)
  {
    var rest := keys;
    k := None;
    while rest != {}
      invariant rest <= keys
      invariant k.None? ==> forall x :: x in keys && x !in rest ==> x < i
      invariant k.Some? ==> k.value in keys && i <= k.value && forall x :: x in keys && x !in rest && i <= x ==> k.value <= x
      decreases |rest|
    {
      Member(rest);
      var x :| x in rest;
      if i <= x && (k.None? || x < k.value) {
        k := Some(x);
      }
      rest := rest - {x};
    }
  }

  // ------------------------------------------------------------ parsing

  /** One "year:value" item: it must split on ':' into exactly two parts
   *  (an IllegalArgumentException otherwise); the year goes through
   *  `Integer.parseInt` and the value through `Double.parseDouble`, either
   *  of which can throw a NumberFormatException. */
  function ParsePoint(item: string, parseDouble: string -> Option<Double>): (r: Result<(int, Double)>)
    ensures r.Ok? ==> |Split(item, ":")| == 2 && ParseInt(Split(item, ":")[0]) == Some(r.value.0)
                      && parseDouble(Split(item, ":")[1]) == Some(r.value.1)
    ensures r == Err(ILLEGAL_ARGUMENT) <==> |Split(item, ":")| != 2
  {
    var yearValue := Split(item, ":");
    if |yearValue| != 2 then Err(ILLEGAL_ARGUMENT)
    else match ParseInt(yearValue[0])
      case None => Err(NUMBER_FORMAT)
      case Some(year) =>
        match parseDouble(yearValue[1])
        case None => Err(NUMBER_FORMAT)
        case Some(value) => Ok((year, value))
  }

  /** The outcome of parsing each item, in order. */
  function Parsed(items: seq<string>, parseDouble: string -> Option<Double>): (outs: seq<Result<(int, Double)>>)
    ensures |outs| == |items|
    ensures forall i :: 0 <= i < |items| ==> outs[i] == ParsePoint(items[i], parseDouble)
  {
    seq(|items|, i requires 0 <= i < |items| => ParsePoint(items[i], parseDouble))
  }

  /** The map the parse loop has built after the given outcomes, in order:
   *  the first bad item's exception, or every item's year mapped to its
   *  value, a later item overwriting an earlier one with the same year. */
  function PointsOf(outs: seq<Result<(int, Double)>>): Result<map<int, Double>> {
    if |outs| == 0 then Ok(map[])
    else match PointsOf(outs[..|outs| - 1])
      case Err(e) => Err(e)
      case Ok(m) =>
        match outs[|outs| - 1]
        case Err(e) => Err(e)
        case Ok(p) => Ok(m[p.0 := p.1])
  }

  /** The map a list of "year:value" items denotes. */
  function PointsFrom(items: seq<string>, parseDouble: string -> Option<Double>): Result<map<int, Double>> {
    PointsOf(Parsed(items, parseDouble))
  }

  /** Once an item fails, the whole parse fails with its exception. */
  lemma {:induction false} ErrorPersists(outs: seq<Result<(int, Double)>>, n: nat)
    requires n <= |outs| && PointsOf(outs[..n]).Err?
    ensures PointsOf(outs) == PointsOf(outs[..n])
    decreases |outs|
  {
    if n == |outs| {
      assert outs[..n] == outs;
    } else {
      var init := outs[..|outs| - 1];
      assert init[..n] == outs[..n];
      ErrorPersists(init, n);
    }
  }

  /** `stringToPoints`: split on ',' and parse each item in turn. */
  method StringToPoints(str: string, parseDouble: string -> Option<Double>) returns (r: Result<map<int, Double>>)
    ensures r == PointsFrom(Split(str, ","), parseDouble)
  {
    var items := Split(str, ",");
    ghost var outs := Parsed(items, parseDouble);
    var points: map<int, Double> := map[];
    var i := 0;
    while i < |items|
      invariant 0 <= i <= |items|
      invariant PointsOf(outs[..i]) == Ok(points)
    {
      assert outs[..i + 1][..i] == outs[..i];
      var p := ParsePoint(items[i], parseDouble);
      if p.Err? {
        ErrorPersists(outs, i + 1);
        return Err(p.error);
      }
      points := points[p.value.0 := p.value.1];
      i := i + 1;
    }
    assert outs[..i] == outs;
    return Ok(points);
  }

  /** A parsed text maps the year of every item, and no other year. */
  lemma {:induction false} PointsKeys(items: seq<string>, parseDouble: string -> Option<Double>)
    requires PointsFrom(items, parseDouble).Ok?
    ensures forall k :: 0 <= k < |items| ==>
      ParsePoint(items[k], parseDouble).Ok? && ParsePoint(items[k], parseDouble).value.0 in PointsFrom(items, parseDouble).value
    ensures forall y :: y in PointsFrom(items, parseDouble).value ==>
      exists k :: 0 <= k < |items| && ParsePoint(items[k], parseDouble) == Ok((y, PointsFrom(items, parseDouble).value[y]))
  {
    var outs := Parsed(items, parseDouble);
    EveryYearMapped(outs);
    OnlyYearsMapped(outs);
  }

  /** Every item's year is in the map ... */
  lemma {:induction false} EveryYearMapped(outs: seq<Result<(int, Double)>>)
    requires PointsOf(outs).Ok?
    ensures forall k :: 0 <= k < |outs| ==> outs[k].Ok? && outs[k].value.0 in PointsOf(outs).value
  {
    if |outs| > 0 {
      var n := |outs|;
      var init := outs[..n - 1];
      EveryYearMapped(init);
      forall k | 0 <= k < n
        ensures outs[k].Ok? && outs[k].value.0 in PointsOf(outs).value
      {
        if k < n - 1 {
          assert outs[k] == init[k];
        }
      }
    }
  }

  /** ... and every year in the map comes from an item. */
  lemma {:induction false} OnlyYearsMapped(outs: seq<Result<(int, Double)>>)
    requires PointsOf(outs).Ok?
    ensures forall y :: y in PointsOf(outs).value ==>
      exists k :: 0 <= k < |outs| && outs[k] == Ok((y, PointsOf(outs).value[y]))
  {
    if |outs| > 0 {
      var n := |outs|;
      var init := outs[..n - 1];
      OnlyYearsMapped(init);
      var m0 := PointsOf(init).value;
      var p := outs[n - 1].value;
      var m := PointsOf(outs).value;
      assert m == m0[p.0 := p.1];
      forall y | y in m
        ensures exists k :: 0 <= k < n && outs[k] == Ok((y, m[y]))
      {
        if y == p.0 {
          assert outs[n - 1] == Ok((y, m[y]));
        } else {
          var k :| 0 <= k < |init| && init[k] == Ok((y, m0[y]));
          assert outs[k] == init[k];
        }
      }
    }
  }

  /** When a year repeats, the last item with that year gives its value. */
  lemma {:induction false} LastValueWins(items: seq<string>, parseDouble: string -> Option<Double>, k: nat)
    requires PointsFrom(items, parseDouble).Ok? && k < |items|
    requires ParsePoint(items[k], parseDouble).Ok?
    requires forall j :: k < j < |items| ==> ParsePoint(items[j], parseDouble).Ok? ==>
               ParsePoint(items[j], parseDouble).value.0 != ParsePoint(items[k], parseDouble).value.0
    ensures ParsePoint(items[k], parseDouble).value.0 in PointsFrom(items, parseDouble).value
    ensures PointsFrom(items, parseDouble).value[ParsePoint(items[k], parseDouble).value.0]
            == ParsePoint(items[k], parseDouble).value.1
  {
    LastOutcomeWins(Parsed(items, parseDouble), k);
  }

  lemma {:induction false} LastOutcomeWins(outs: seq<Result<(int, Double)>>, k: nat)
    requires PointsOf(outs).Ok? && k < |outs| && outs[k].Ok?
    requires forall j :: k < j < |outs| ==> outs[j].Ok? ==> outs[j].value.0 != outs[k].value.0
    ensures outs[k].value.0 in PointsOf(outs).value
    ensures PointsOf(outs).value[outs[k].value.0] == outs[k].value.1
  {
    var n := |outs|;
    if k < n - 1 {
      var init := outs[..n - 1];
      assert init[k] == outs[k];
      assert forall j :: k < j < |init| ==> init[j] == outs[j];
      LastOutcomeWins(init, k);
    }
  }

  /** The empty text is rejected: it splits into one empty item, which
   *  has no ':'. */
  lemma EmptyTextRejected(parseDouble: string -> Option<Double>)
    ensures PointsFrom(Split("", ","), parseDouble) == Err(ILLEGAL_ARGUMENT)
  {
    assert Split("", ",") == [""];
    assert Split("", ":") == [""];
    assert ParsePoint("", parseDouble) == Err(ILLEGAL_ARGUMENT);
    var outs: seq<Result<(int, Double)>> := [Err(ILLEGAL_ARGUMENT)];
    assert Parsed([""], parseDouble) == outs;
    assert outs[..0] == [];
    assert PointsOf(outs[..0]) == Ok(map[]);
    assert PointsOf(outs) == Err(ILLEGAL_ARGUMENT);
  }

  // ------------------------------------------------------------- series

  /** `constantSeries`: a do-while loop, so the start year is always in
   *  the series even when `start >= end`; every point holds `val`. */
  method ConstantSeries(name: string, start: int, end: int, val: Double) returns (s: Series)
    ensures s.name == name
    ensures |s.points| == if end > start then end - start else 1
    ensures forall j :: 0 <= j < |s.points| ==> s.points[j] == Point(start + j, val)
  {
    var points := [Point(start, val)];
    var year := start + 1;
    while year < end
      invariant year == start + |points| && |points| >= 1
      invariant year <= end || |points| == 1
      invariant forall j :: 0 <= j < |points| ==> points[j] == Point(start + j, val)
    {
      points := points + [Point(year, val)];
      year := year + 1;
    }
    return Series(name, points);
  }

  /** `stepSeries` over a map: a NoSuchElementException for an empty map;
   *  otherwise one point per year from the least key up to `end - 1`,
   *  each holding the value of the greatest key at or before that year. */
  method StepSeries(name: string, steps: map<int, Double>, end: int) returns (r: Result<Series>)
    ensures r.Err? <==> steps == map[]
    ensures r.Err? ==> r.error == NO_SUCH_ELEMENT
    ensures r.Ok? ==> r.value.name == name && |r.value.points| == Span(First(steps.Keys), end)
    ensures r.Ok? ==> forall j :: 0 <= j < |r.value.points| ==>
      r.value.points[j] == Point(First(steps.Keys) + j, steps[Floor(steps.Keys, First(steps.Keys) + j)])
  {
    if steps == map[] {
      return Err(NO_SUCH_ELEMENT);
    }
    assert steps.Keys != {};
    var start := FirstKey(steps.Keys);
    var points: seq<Point> := [];
    var i := start;
    while i < end
      invariant start <= i && i - start == |points| && (i <= end || i == start)
      invariant forall j :: 0 <= j < |points| ==> points[j] == Point(start + j, steps[Floor(steps.Keys, start + j)])
    {
      var k := FloorKey(steps.Keys, i);
      FloorUnique(steps.Keys, i, k.value);
      points := points + [Point(i, steps[k.value])];
      i := i + 1;
    }
    return Ok(Series(name, points));
  }

  /** At a key year the step series holds that key's own value, and
   *  between keys it keeps the previous key's value. */
  lemma StepAtKey(steps: map<int, Double>, year: int)
    requires year in steps
    ensures steps.Keys != {} && First(steps.Keys) <= year && steps[Floor(steps.Keys, year)] == steps[year]
  {
    FloorUnique(steps.Keys, year, year);
  }

  lemma StepBetweenKeys(steps: map<int, Double>, k: int, year: int)
    requires k in steps && k <= year && forall x :: x in steps && k < x ==> year < x
    ensures steps.Keys != {} && First(steps.Keys) <= year && steps[Floor(steps.Keys, year)] == steps[k]
  {
    FloorUnique(steps.Keys, year, k);
  }

  /** The piece-wise value of year `i` as written: the slope between the
   *  floor and the ceiling entry.  When `i` is itself a key both entries
   *  are the same, the slope is 0.0/0 and the value is NaN. */
  ghost function RampAsWritten(steps: map<int, Double>, i: int): Double
    requires steps.Keys != {} && First(steps.Keys) <= i <= Last(steps.Keys)
  {
    var lk := Floor(steps.Keys, i);
    var rk := Ceiling(steps.Keys, i);
    Ramp(lk, steps[lk], rk, steps[rk], i, true)
  }

  /** Linear interpolation from (lk, lv) to (rk, rv) at year `i`, in exact
   *  arithmetic; a NaN operand gives NaN.  With coinciding bounds the
   *  as-written formula divides zero by zero; the corrected one keeps the
   *  bound's value. */
  function Ramp(lk: int, lv: Double, rk: int, rv: Double, i: int, asWritten: bool): Double {
    if lv.NaN? || rv.NaN? then NaN
    else if lk == rk then (if asWritten then NaN else lv)
    else Num(lv.x + (i - lk) as real * ((rv.x - lv.x) / (rk - lk) as real))
  }

  /** The corrected piece-wise value of year `i`: the interpolation
   *  between the floor and the ceiling entry, or the last key's value
   *  after the last key. */
  ghost function PiecewiseValue(steps: map<int, Double>, i: int): Double
    requires steps.Keys != {} && First(steps.Keys) <= i
  {
    var lk := Floor(steps.Keys, i);
    if i <= Last(steps.Keys) then
      var rk := Ceiling(steps.Keys, i);
      Ramp(lk, steps[lk], rk, steps[rk], i, false)
    else steps[lk]
  }

  /** At every key year up to the last key, the as-written ramp is NaN
   *  (whatever the key's value). */
  lemma RampAsWrittenNaNAtKeys(steps: map<int, Double>, year: int)
    requires year in steps
    ensures steps.Keys != {} && First(steps.Keys) <= year <= Last(steps.Keys)
    ensures RampAsWritten(steps, year) == NaN
  {
    FloorUnique(steps.Keys, year, year);
    CeilingUnique(steps.Keys, year, year);
  }

  /** The corrected series passes through every key's value, interpolates
   *  linearly between neighbouring keys, and holds the last value after
   *  the last key. */
  lemma PiecewiseHitsKeys(steps: map<int, Double>, year: int)
    requires year in steps
    ensures steps.Keys != {} && First(steps.Keys) <= year && PiecewiseValue(steps, year) == steps[year]
  {
    FloorUnique(steps.Keys, year, year);
    CeilingUnique(steps.Keys, year, year);
  }

  lemma PiecewiseBetweenKeys(steps: map<int, Double>, lk: int, rk: int, year: int)
    requires lk in steps && rk in steps && lk < year < rk
    requires forall x :: x in steps ==> x <= lk || rk <= x
    ensures steps.Keys != {} && First(steps.Keys) <= year
    ensures PiecewiseValue(steps, year) == Ramp(lk, steps[lk], rk, steps[rk], year, false)
  {
    FloorUnique(steps.Keys, year, lk);
    CeilingUnique(steps.Keys, year, rk);
  }

  lemma PiecewiseAfterLastKey(steps: map<int, Double>, year: int)
    requires steps.Keys != {} && Last(steps.Keys) < year
    ensures First(steps.Keys) <= year && PiecewiseValue(steps, year) == steps[Last(steps.Keys)]
  {
    FloorUnique(steps.Keys, year, Last(steps.Keys));
  }

  /** `piecewiseSeries` over a map, with the corrected value at key years:
   *  the same years as the step series, each holding PiecewiseValue. */
  method PiecewiseSeries(name: string, steps: map<int, Double>, end: int) returns (r: Result<Series>)
    ensures r.Err? <==> steps == map[]
    ensures r.Err? ==> r.error == NO_SUCH_ELEMENT
    ensures r.Ok? ==> r.value.name == name && |r.value.points| == Span(First(steps.Keys), end)
    ensures r.Ok? ==> forall j :: 0 <= j < |r.value.points| ==>
      r.value.points[j] == Point(First(steps.Keys) + j, PiecewiseValue(steps, First(steps.Keys) + j))
  {
    if steps == map[] {
      return Err(NO_SUCH_ELEMENT);
    }
    assert steps.Keys != {};
    var start := FirstKey(steps.Keys);
    var points: seq<Point> := [];
    var i := start;
    while i < end
      invariant start <= i && i - start == |points| && (i <= end || i == start)
      invariant forall j :: 0 <= j < |points| ==> points[j] == Point(start + j, PiecewiseValue(steps, start + j))
    {
      var left := FloorKey(steps.Keys, i);
      var right := CeilingKey(steps.Keys, i);
      FloorUnique(steps.Keys, i, left.value);
      var value: Double;
      if right.Some? {
        CeilingUnique(steps.Keys, i, right.value);
        value := Ramp(left.value, steps[left.value], right.value, steps[right.value], i, false);
      } else {
        value := steps[left.value];
      }
      points := points + [Point(i, value)];
      i := i + 1;
    }
    return Ok(Series(name, points));
  }

  /** Year `First + j` of a step series holds the value of the greatest
   *  key at or before it. */
  ghost predicate StepPoints(points: seq<Point>, steps: map<int, Double>) {
    steps.Keys != {}
    && forall j :: 0 <= j < |points| ==>
         points[j] == Point(First(steps.Keys) + j, steps[Floor(steps.Keys, First(steps.Keys) + j)])
  }

  /** Year `First + j` of a piecewise series holds PiecewiseValue. */
  ghost predicate PiecewisePoints(points: seq<Point>, steps: map<int, Double>) {
    steps.Keys != {}
    && forall j :: 0 <= j < |points| ==>
         points[j] == Point(First(steps.Keys) + j, PiecewiseValue(steps, First(steps.Keys) + j))
  }

  /** `series`: "step" and "piecewise" parse the text and build that kind
   *  of series; any other type is an IllegalArgumentException, text that
   *  does not parse throws what parsing throws, and text that parses to no
   *  point at all (such as ",") a NoSuchElementException. */
  method MakeSeries(name: string, steps: string, end: int, kind: string, parseDouble: string -> Option<Double>)
    returns (r: Result<Series>)
    ensures kind != "step" && kind != "piecewise" ==> r == Err(ILLEGAL_ARGUMENT)
    ensures (kind == "step" || kind == "piecewise") && PointsFrom(Split(steps, ","), parseDouble).Err? ==>
      r == Err(PointsFrom(Split(steps, ","), parseDouble).error)
    ensures (kind == "step" || kind == "piecewise") && PointsFrom(Split(steps, ","), parseDouble) == Ok(map[]) ==>
      r == Err(NO_SUCH_ELEMENT)
    ensures r.Ok? <==> (kind == "step" || kind == "piecewise")
                       && PointsFrom(Split(steps, ","), parseDouble).Ok? && PointsFrom(Split(steps, ","), parseDouble) != Ok(map[])
    ensures r.Ok? ==> var m := PointsFrom(Split(steps, ","), parseDouble).value;
      m.Keys != {} && r.value.name == name && |r.value.points| == Span(First(m.Keys), end)
    ensures r.Ok? && kind == "step" ==> StepPoints(r.value.points, PointsFrom(Split(steps, ","), parseDouble).value)
    ensures r.Ok? && kind == "piecewise" ==> PiecewisePoints(r.value.points, PointsFrom(Split(steps, ","), parseDouble).value)
  {
    if kind != "step" && kind != "piecewise" {
      return Err(ILLEGAL_ARGUMENT);
    }
    var points := StringToPoints(steps, parseDouble);
    if points.Err? {
      return Err(points.error);
    }
    var m := points.value;
    assert PointsFrom(Split(steps, ","), parseDouble) == Ok(m);
    if kind == "step" {
      r := StepSeries(name, m, end);
      assert r.Ok? ==> StepPoints(r.value.points, m);
    } else {
      r := PiecewiseSeries(name, m, end);
      assert r.Ok? ==> PiecewisePoints(r.value.points, m);
    }
  }
}
