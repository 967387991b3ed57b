/** The two configured demographics loaders: DefaultDemographicsLoader
 *  (Synthea's own census file) and ACSFactFinderDemographicsLoader (ACS
 *  FactFinder data).  Their column lists decide which range labels a
 *  loaded city carries, and so which ages and incomes can be picked. */
module LoaderConfigs {
  import opened Wrappers
  import opened JavaText
  import opened Demographics
  import opened CsvRows
  import opened DemographicsLoading

  // ---------------------------------------------------- range labels

  /** Two runs of digits read as a number each. */
  lemma ParseDigits(a: string)
    requires |a| > 0 && AllDigits(a) && DigitsValue(a) <= INT_MAX
    ensures ParseInt(a) == Some(DigitsValue(a))
  {
    assert IsDigit(a[0]);
  }

  /** ".." never starts at a digit. */
  lemma NoSeparatorAtDigit(s: string, j: int)
    requires 0 <= j < |s| && IsDigit(s[j])
    ensures !OccursAt(s, "..", j)
  {
    if j + 2 <= |s| {
      assert s[j..j + 2][0] == s[j];
    }
  }

  /** ".." never occurs in a run of digits. */
  lemma NoSeparatorInDigits(s: string)
    requires AllDigits(s)
    ensures FindFrom(s, "..", 0) == None
  {
    forall j | 0 <= j < |s|
      ensures !OccursAt(s, "..", j)
    {
      NoSeparatorAtDigit(s, j);
    }
  }

  /** In "a..b" the first ".." follows `a`. */
  lemma SeparatorAfterDigits(a: string, b: string)
    requires AllDigits(a)
    ensures FindFrom(a + ".." + b, "..", 0) == Some(|a|)
  {
    var s := a + ".." + b;
    assert OccursAt(s, "..", |a|) by {
      assert s[|a|..|a| + 2] == "..";
    }
    forall j | 0 <= j < |a|
      ensures !OccursAt(s, "..", j)
    {
      assert s[j] == a[j];
      NoSeparatorAtDigit(s, j);
    }
  }

  /** "a..b" splits on ".." into `a` and `b`. */
  lemma SplitDigits(a: string, b: string)
    requires |b| > 0 && AllDigits(a) && AllDigits(b)
    ensures Split(a + ".." + b, "..") == [a, b]
  {
    var s := a + ".." + b;
    SeparatorAfterDigits(a, b);
    assert s[..|a|] == a && s[|a| + 2..] == b;
    NoSeparatorInDigits(b);
    assert Pieces(b, "..") == [b];
    assert Pieces(s, "..") == [a, b];
  }

  /** A label "a..b" of two runs of digits is the range (a, b). */
  lemma RangeOfDigits(a: string, b: string)
    requires |a| > 0 && |b| > 0 && AllDigits(a) && AllDigits(b)
    requires DigitsValue(a) <= INT_MAX && DigitsValue(b) <= INT_MAX
    ensures RangeOf(a + ".." + b) == Ok((DigitsValue(a), DigitsValue(b)))
  {
    SplitDigits(a, b);
    ParseDigits(a);
    ParseDigits(b);
  }

  /** A label printed from two numbers reads back as those numbers. */
  lemma RangeOfNats(lo: nat, hi: nat)
    requires lo <= INT_MAX && hi <= INT_MAX
    ensures RangeOf(NatToString(lo) + ".." + NatToString(hi)) == Ok((lo, hi))
  {
    DigitsValueOfNatToString(lo);
    DigitsValueOfNatToString(hi);
    RangeOfDigits(NatToString(lo), NatToString(hi));
  }

  /** The zero-padded lower end "00" reads as 0. */
  lemma PaddedZero(z: string)
    requires z == "00"
    ensures AllDigits(z) && DigitsValue(z) == 0
  {
    var z1 := z[..1];
    assert z1[..0] == [];
    assert DigitsValue(z1) == DigitsValue(z1[..0]) * 10 + DigitValue(z1[0]) == 0;
    assert DigitsValue(z) == DigitsValue(z1) * 10 + DigitValue(z[1]);
  }

  // ------------------------------------------------------ the tables

  /** The age groups of the default file: column k + 1 holds ages
   *  [5k, 5k + 4], and the last column 85 to 110. */
  const DEFAULT_AGE_GROUPS := ["0..4", "5..9", "10..14", "15..19", "20..24", "25..29", "30..34", "35..39",
                              "40..44", "45..49", "50..54", "55..59", "60..64", "65..69", "70..74", "75..79",
                              "80..84", "85..110"]
  const DEFAULT_RACES := ["WHITE", "HISPANIC", "BLACK", "ASIAN", "NATIVE", "OTHER"]
  const DEFAULT_INCOMES := ["00..10", "10..15", "15..25", "25..35", "35..50", "50..75", "75..100",
                           "100..150", "150..200", "200..999"]
  /** Where the default income brackets start and end, in thousands. */
  const DEFAULT_INCOME_ENDS := [0, 10, 15, 25, 35, 50, 75, 100, 150, 200, 999]
  const DEFAULT_EDUCATIONS := ["LESS_THAN_HS", "HS_DEGREE", "SOME_COLLEGE", "BS_DEGREE"]
  const DEFAULT_SEXES := ["TOT_MALE", "TOT_FEMALE"]
  const ESTIMATE_HEADER := "POPESTIMATE2015"
  /** The geography header map each configuration declares; both loaders
   *  read the same three headers by fixed name instead. */
  const GEOGRAPHY: map<string, string> := map["state" := "STNAME", "city" := "NAME", "county" := "CTYNAME"]

  const DEFAULT_OPTIONS := LoaderOptions(DEFAULT_AGE_GROUPS, DEFAULT_RACES, DEFAULT_INCOMES, DEFAULT_EDUCATIONS,
                                         DEFAULT_SEXES, ESTIMATE_HEADER)

  /** The ACS tables: adult age brackets and two income brackets. */
  const ACS_AGE_GROUPS := ["18..34", "35..54", "55..64", "65..74", "75..110"]
  const ACS_INCOMES := ["00..11", "11..999"]
  /** Where the ACS age groups start, and one past the last age. */
  const ACS_AGE_STARTS := [18, 35, 55, 65, 75, 111]

  const ACS_OPTIONS := LoaderOptions(ACS_AGE_GROUPS, DEFAULT_RACES, ACS_INCOMES, DEFAULT_EDUCATIONS,
                                     DEFAULT_SEXES, ESTIMATE_HEADER)

  // ------------------------------------------------- what they read

  /** A label that prints two numbers reads as the range they bound. */
  lemma LabelRange(tag: string, lo: nat, hi: nat)
    requires lo <= INT_MAX && hi <= INT_MAX
    requires tag == NatToString(lo) + ".." + NatToString(hi)
    ensures RangeOf(tag) == Ok((lo, hi))
  {
    RangeOfNats(lo, hi);
  }

  /** The same for a lower end written "00". */
  lemma PaddedLabelRange(tag: string, z: string, hi: nat)
    requires z == "00" && hi <= INT_MAX
    requires tag == z + ".." + NatToString(hi)
    ensures RangeOf(tag) == Ok((0, hi as int))
  {
    PaddedZero(z);
    DigitsValueOfNatToString(hi);
    RangeOfDigits(z, NatToString(hi));
  }

  lemma DefaultAgeGroupsSpelled0(k: nat)
    requires 0 <= k < 3
    ensures DEFAULT_AGE_GROUPS[k] == NatToString(5 * k) + ".." + NatToString(5 * k + 4)
  {
    if k == 0 {
      assert DEFAULT_AGE_GROUPS[k] == NatToString(0) + ".." + NatToString(4);
    } else if k == 1 {
      assert DEFAULT_AGE_GROUPS[k] == NatToString(5) + ".." + NatToString(9);
    } else if k == 2 {
      assert DEFAULT_AGE_GROUPS[k] == NatToString(10) + ".." + NatToString(14);
    }
  }

  lemma DefaultAgeGroupsSpelled3(k: nat)
    requires 3 <= k < 6
    ensures DEFAULT_AGE_GROUPS[k] == NatToString(5 * k) + ".." + NatToString(5 * k + 4)
  {
    if k == 3 {
      assert DEFAULT_AGE_GROUPS[k] == NatToString(15) + ".." + NatToString(19);
    } else if k == 4 {
      assert DEFAULT_AGE_GROUPS[k] == NatToString(20) + ".." + NatToString(24);
    } else if k == 5 {
      assert DEFAULT_AGE_GROUPS[k] == NatToString(25) + ".." + NatToString(29);
    }
  }

  lemma DefaultAgeGroupsSpelled6(k: nat)
    requires 6 <= k < 9
    ensures DEFAULT_AGE_GROUPS[k] == NatToString(5 * k) + ".." + NatToString(5 * k + 4)
  {
    if k == 6 {
      assert DEFAULT_AGE_GROUPS[k] == NatToString(30) + ".." + NatToString(34);
    } else if k == 7 {
      assert DEFAULT_AGE_GROUPS[k] == NatToString(35) + ".." + NatToString(39);
    } else if k == 8 {
      assert DEFAULT_AGE_GROUPS[k] == NatToString(40) + ".." + NatToString(44);
    }
  }

  lemma DefaultAgeGroupsSpelled9(k: nat)
    requires 9 <= k < 12
    ensures DEFAULT_AGE_GROUPS[k] == NatToString(5 * k) + ".." + NatToString(5 * k + 4)
  {
    if k == 9 {
      assert DEFAULT_AGE_GROUPS[k] == NatToString(45) + ".." + NatToString(49);
    } else if k == 10 {
      assert DEFAULT_AGE_GROUPS[k] == NatToString(50) + ".." + NatToString(54);
    } else if k == 11 {
      assert DEFAULT_AGE_GROUPS[k] == NatToString(55) + ".." + NatToString(59);
    }
  }

  lemma DefaultAgeGroupsSpelled12(k: nat)
    requires 12 <= k < 15
    ensures DEFAULT_AGE_GROUPS[k] == NatToString(5 * k) + ".." + NatToString(5 * k + 4)
  {
    if k == 12 {
      assert DEFAULT_AGE_GROUPS[k] == NatToString(60) + ".." + NatToString(64);
    } else if k == 13 {
      assert DEFAULT_AGE_GROUPS[k] == NatToString(65) + ".." + NatToString(69);
    } else if k == 14 {
      assert DEFAULT_AGE_GROUPS[k] == NatToString(70) + ".." + NatToString(74);
    }
  }

  lemma DefaultAgeGroupsSpelled15(k: nat)
    requires 15 <= k < 17
    ensures DEFAULT_AGE_GROUPS[k] == NatToString(5 * k) + ".." + NatToString(5 * k + 4)
  {
    if k == 15 {
      assert DEFAULT_AGE_GROUPS[k] == NatToString(75) + ".." + NatToString(79);
    } else if k == 16 {
      assert DEFAULT_AGE_GROUPS[k] == NatToString(80) + ".." + NatToString(84);
    }
  }

  /** All but the last default age group print 5k and 5k + 4. */
  lemma DefaultAgeGroupSpelled(k: nat)
    requires 0 <= k < 17
    ensures DEFAULT_AGE_GROUPS[k] == NatToString(5 * k) + ".." + NatToString(5 * k + 4)
  {
    if k < 3 {
      DefaultAgeGroupsSpelled0(k);
    } else if k < 6 {
      DefaultAgeGroupsSpelled3(k);
    } else if k < 9 {
      DefaultAgeGroupsSpelled6(k);
    } else if k < 12 {
      DefaultAgeGroupsSpelled9(k);
    } else if k < 15 {
      DefaultAgeGroupsSpelled12(k);
    } else {
      DefaultAgeGroupsSpelled15(k);
    }
  }

  /** The default age groups read as ranges that tile 0..110 with neither
   *  gap nor overlap: group k is [5k, 5k + 4] ... */
  lemma DefaultAgeGroupsTile(k: nat)
    requires k < 17
    ensures RangeOf(DEFAULT_AGE_GROUPS[k]) == Ok((5 * k, 5 * k + 4))
  {
    DefaultAgeGroupSpelled(k);
    LabelRange(DEFAULT_AGE_GROUPS[k], 5 * k, 5 * k + 4);
  }

  /** ... and the last one is [85, 110]. */
  lemma OldestAgeGroup()
    ensures RangeOf(DEFAULT_AGE_GROUPS[17]) == Ok((85, 110))
  {
    LabelRange(DEFAULT_AGE_GROUPS[17], 85, 110);
  }

  lemma DefaultIncomesSpelled1(k: nat)
    requires 1 <= k < 4
    ensures DEFAULT_INCOMES[k] == NatToString(DEFAULT_INCOME_ENDS[k]) + ".." + NatToString(DEFAULT_INCOME_ENDS[k + 1])
  {
    if k == 1 {
      assert DEFAULT_INCOMES[k] == NatToString(10) + ".." + NatToString(15);
    } else if k == 2 {
      assert DEFAULT_INCOMES[k] == NatToString(15) + ".." + NatToString(25);
    } else if k == 3 {
      assert DEFAULT_INCOMES[k] == NatToString(25) + ".." + NatToString(35);
    }
  }

  lemma DefaultIncomesSpelled4(k: nat)
    requires 4 <= k < 7
    ensures DEFAULT_INCOMES[k] == NatToString(DEFAULT_INCOME_ENDS[k]) + ".." + NatToString(DEFAULT_INCOME_ENDS[k + 1])
  {
    if k == 4 {
      assert DEFAULT_INCOMES[k] == NatToString(35) + ".." + NatToString(50);
    } else if k == 5 {
      assert DEFAULT_INCOMES[k] == NatToString(50) + ".." + NatToString(75);
    } else if k == 6 {
      assert DEFAULT_INCOMES[k] == NatToString(75) + ".." + NatToString(100);
    }
  }

  lemma DefaultIncomesSpelled7(k: nat)
    requires 7 <= k < 10
    ensures DEFAULT_INCOMES[k] == NatToString(DEFAULT_INCOME_ENDS[k]) + ".." + NatToString(DEFAULT_INCOME_ENDS[k + 1])
  {
    if k == 7 {
      assert DEFAULT_INCOMES[k] == NatToString(100) + ".." + NatToString(150);
    } else if k == 8 {
      assert DEFAULT_INCOMES[k] == NatToString(150) + ".." + NatToString(200);
    } else if k == 9 {
      assert DEFAULT_INCOMES[k] == NatToString(200) + ".." + NatToString(999);
    }
  }

  /** All but the first default income bracket print their two ends. */
  lemma DefaultIncomeSpelled(k: nat)
    requires 1 <= k < 10
    ensures DEFAULT_INCOMES[k] == NatToString(DEFAULT_INCOME_ENDS[k]) + ".." + NatToString(DEFAULT_INCOME_ENDS[k + 1])
  {
    if k < 4 {
      DefaultIncomesSpelled1(k);
    } else if k < 7 {
      DefaultIncomesSpelled4(k);
    } else {
      DefaultIncomesSpelled7(k);
    }
  }

  /** The default income brackets read as ranges, in thousands, that
   *  chain from 0 to 999: each bracket starts where the previous one
   *  ends ... */
  lemma DefaultIncomeBracket(k: nat)
    requires 1 <= k < 10
    ensures RangeOf(DEFAULT_INCOMES[k]) == Ok((DEFAULT_INCOME_ENDS[k], DEFAULT_INCOME_ENDS[k + 1]))
  {
    DefaultIncomeSpelled(k);
    LabelRange(DEFAULT_INCOMES[k], DEFAULT_INCOME_ENDS[k], DEFAULT_INCOME_ENDS[k + 1]);
  }

  /** ... starting with "00..10", which is [0, 10]. */
  lemma PoorestIncomeBracket()
    ensures RangeOf(DEFAULT_INCOMES[0]) == Ok((0, 10))
  {
    PaddedLabelRange(DEFAULT_INCOMES[0], "00", 10);
  }

  lemma AcsAgeGroupsSpelled0(k: nat)
    requires 0 <= k < 3
    ensures ACS_AGE_GROUPS[k] == NatToString(ACS_AGE_STARTS[k]) + ".." + NatToString(ACS_AGE_STARTS[k + 1] - 1)
  {
    if k == 0 {
      assert ACS_AGE_GROUPS[k] == NatToString(18) + ".." + NatToString(34);
    } else if k == 1 {
      assert ACS_AGE_GROUPS[k] == NatToString(35) + ".." + NatToString(54);
    } else if k == 2 {
      assert ACS_AGE_GROUPS[k] == NatToString(55) + ".." + NatToString(64);
    }
  }

  lemma AcsAgeGroupsSpelled3(k: nat)
    requires 3 <= k < 5
    ensures ACS_AGE_GROUPS[k] == NatToString(ACS_AGE_STARTS[k]) + ".." + NatToString(ACS_AGE_STARTS[k + 1] - 1)
  {
    if k == 3 {
      assert ACS_AGE_GROUPS[k] == NatToString(65) + ".." + NatToString(74);
    } else if k == 4 {
      assert ACS_AGE_GROUPS[k] == NatToString(75) + ".." + NatToString(110);
    }
  }

  /** Every ACS age group prints its two ends. */
  lemma AcsAgeGroupSpelled(k: nat)
    requires 0 <= k < 5
    ensures ACS_AGE_GROUPS[k] == NatToString(ACS_AGE_STARTS[k]) + ".." + NatToString(ACS_AGE_STARTS[k + 1] - 1)
  {
    if k < 3 {
      AcsAgeGroupsSpelled0(k);
    } else {
      AcsAgeGroupsSpelled3(k);
    }
  }

  /** The ACS age groups tile 18..110: each starts one past the end of
   *  the previous one. */
  lemma AcsAgeGroupsTile(k: nat)
    requires k < 5
    ensures RangeOf(ACS_AGE_GROUPS[k]) == Ok((ACS_AGE_STARTS[k], ACS_AGE_STARTS[k + 1] - 1))
  {
    AcsAgeGroupSpelled(k);
    LabelRange(ACS_AGE_GROUPS[k], ACS_AGE_STARTS[k], ACS_AGE_STARTS[k + 1] - 1);
  }

  /** The two ACS income brackets are [0, 11] ... */
  lemma AcsPoorerIncomeBracket()
    ensures RangeOf(ACS_INCOMES[0]) == Ok((0, 11))
  {
    PaddedLabelRange(ACS_INCOMES[0], "00", 11);
  }

  /** ... and [11, 999]. */
  lemma AcsRicherIncomeBracket()
    ensures RangeOf(ACS_INCOMES[1]) == Ok((11, 999))
  {
    LabelRange(ACS_INCOMES[1], 11, 999);
  }

  // --------------------------------------------- what a city can pick

  /** Every label reads as a range that lies inside [lo, hi]. */
  ghost predicate RangesWithin(labels: seq<string>, lo: int, hi: int) {
    forall k :: 0 <= k < |labels| ==>
      RangeOf(labels[k]).Ok? && lo <= RangeOf(labels[k]).value.0 <= RangeOf(labels[k]).value.1 <= hi
  }

  lemma DefaultAgeGroupsWithin()
    ensures RangesWithin(DEFAULT_AGE_GROUPS, 0, 110)
  {
    forall k | 0 <= k < |DEFAULT_AGE_GROUPS|
      ensures RangeOf(DEFAULT_AGE_GROUPS[k]).Ok?
      ensures 0 <= RangeOf(DEFAULT_AGE_GROUPS[k]).value.0 <= RangeOf(DEFAULT_AGE_GROUPS[k]).value.1 <= 110
    {
      if k < 17 {
        DefaultAgeGroupsTile(k);
      } else {
        OldestAgeGroup();
      }
    }
  }

  lemma DefaultIncomesWithin()
    ensures RangesWithin(DEFAULT_INCOMES, 0, 999)
  {
    forall k | 0 <= k < |DEFAULT_INCOMES|
      ensures RangeOf(DEFAULT_INCOMES[k]).Ok?
      ensures 0 <= RangeOf(DEFAULT_INCOMES[k]).value.0 <= RangeOf(DEFAULT_INCOMES[k]).value.1 <= 999
    {
      DefaultIncomeEndsAscend(k);
      if k < 1 {
        PoorestIncomeBracket();
      } else {
        DefaultIncomeBracket(k);
      }
    }
  }

  lemma DefaultIncomeEndsAscend(k: nat)
    requires k < 10
    ensures 0 <= DEFAULT_INCOME_ENDS[k] < DEFAULT_INCOME_ENDS[k + 1] <= 999
  {
  }

  lemma AcsAgeGroupsWithin()
    ensures RangesWithin(ACS_AGE_GROUPS, 18, 110)
  {
    forall k | 0 <= k < |ACS_AGE_GROUPS|
      ensures RangeOf(ACS_AGE_GROUPS[k]).Ok?
      ensures 18 <= RangeOf(ACS_AGE_GROUPS[k]).value.0 <= RangeOf(ACS_AGE_GROUPS[k]).value.1 <= 110
    {
      AcsAgeGroupsTile(k);
    }
  }

  lemma AcsIncomesWithin()
    ensures RangesWithin(ACS_INCOMES, 0, 999)
  {
    forall k | 0 <= k < |ACS_INCOMES|
      ensures RangeOf(ACS_INCOMES[k]).Ok?
      ensures 0 <= RangeOf(ACS_INCOMES[k]).value.0 <= RangeOf(ACS_INCOMES[k]).value.1 <= 999
    {
      if k == 0 {
        AcsPoorerIncomeBracket();
      } else {
        AcsRicherIncomeBracket();
      }
    }
  }

  /** A city loaded with options whose age groups all lie in [lo, hi]
   *  picks an age in [lo, hi] whenever the draw succeeds. */
  lemma LoadedAgeWithin(o: LoaderOptions, row: Row, parse: string -> Option<Double>,
                        next: Weights -> Option<string>, nextInt: int -> int, lo: int, hi: int)
    requires ValidDraw(next) && ValidNextInt(nextInt)
    requires RangesWithin(o.ageGroups, lo, hi) && 0 <= lo && hi < INT_MAX
    requires ProfileOf(o, row, parse).Ok? && next(ProfileOf(o, row, parse).value.ages).Some?
    ensures AgeFrom(ProfileOf(o, row, parse).value.ages, next, nextInt).Ok?
    ensures lo <= AgeFrom(ProfileOf(o, row, parse).value.ages, next, nextInt).value <= hi
  {
    ProfileShape(o, row, parse);
    AgeWithin(o.ageGroups, ProfileOf(o, row, parse).value.ages, next, nextInt, lo, hi);
  }

  /** The same for any table keyed by the age groups. */
  lemma AgeWithin(ageGroups: seq<string>, ages: Weights, next: Weights -> Option<string>, nextInt: int -> int,
                  lo: int, hi: int)
    requires ValidDraw(next) && ValidNextInt(nextInt)
    requires RangesWithin(ageGroups, lo, hi) && 0 <= lo && hi < INT_MAX
    requires ages.Keys == set k | 0 <= k < |ageGroups| :: ageGroups[k]
    requires next(ages).Some?
    ensures AgeFrom(ages, next, nextInt).Ok? && lo <= AgeFrom(ages, next, nextInt).value <= hi
  {
    var tag := next(ages).value;
    assert tag in ages;
    var k :| 0 <= k < |ageGroups| && ageGroups[k] == tag;
    AgeInDrawnRange(ages, next, nextInt);
  }

  /** A city loaded with options whose income brackets all lie in
   *  [lo, hi] thousand picks an income in [lo * 1000, hi * 1000] whenever
   *  the draw succeeds. */
  lemma LoadedIncomeWithin(o: LoaderOptions, row: Row, parse: string -> Option<Double>,
                           next: Weights -> Option<string>, nextInt: int -> int, lo: int, hi: int)
    requires ValidDraw(next) && ValidNextInt(nextInt)
    requires RangesWithin(o.incomes, lo, hi) && 0 <= lo && hi <= 2000000
    requires ProfileOf(o, row, parse).Ok?
    requires next(ProfileOf(o, row, parse).value.income - {"mean", "median"}).Some?
    ensures IncomeFrom(ProfileOf(o, row, parse).value.income - {"mean", "median"}, next, nextInt).Ok?
    ensures lo * 1000 <= IncomeFrom(ProfileOf(o, row, parse).value.income - {"mean", "median"}, next, nextInt).value
                      <= hi * 1000
  {
    var brackets := ProfileOf(o, row, parse).value.income - {"mean", "median"};
    ProfileShape(o, row, parse);
    var tag := next(brackets).value;
    assert tag in brackets;
    var k :| 0 <= k < |o.incomes| && o.incomes[k] == tag;
    IncomeInDrawnBracket(brackets, next, nextInt);
  }

  /** With the default loader an age is in [0, 110] and an income in
   *  [0, 999000]; with the ACS loader an age is in [18, 110] and an
   *  income in [0, 999000]. */
  lemma ConfiguredPicksWithin(row: Row, parse: string -> Option<Double>,
                              next: Weights -> Option<string>, nextInt: int -> int)
    requires ValidDraw(next) && ValidNextInt(nextInt)
    ensures ProfileOf(DEFAULT_OPTIONS, row, parse).Ok? && next(ProfileOf(DEFAULT_OPTIONS, row, parse).value.ages).Some?
            ==> AgeFrom(ProfileOf(DEFAULT_OPTIONS, row, parse).value.ages, next, nextInt).Ok?
                && 0 <= AgeFrom(ProfileOf(DEFAULT_OPTIONS, row, parse).value.ages, next, nextInt).value <= 110
    ensures ProfileOf(ACS_OPTIONS, row, parse).Ok? && next(ProfileOf(ACS_OPTIONS, row, parse).value.ages).Some?
            ==> AgeFrom(ProfileOf(ACS_OPTIONS, row, parse).value.ages, next, nextInt).Ok?
                && 18 <= AgeFrom(ProfileOf(ACS_OPTIONS, row, parse).value.ages, next, nextInt).value <= 110
    ensures ProfileOf(DEFAULT_OPTIONS, row, parse).Ok?
            && next(ProfileOf(DEFAULT_OPTIONS, row, parse).value.income - {"mean", "median"}).Some?
            ==> IncomeFrom(ProfileOf(DEFAULT_OPTIONS, row, parse).value.income - {"mean", "median"}, next, nextInt).Ok?
                && 0 <= IncomeFrom(ProfileOf(DEFAULT_OPTIONS, row, parse).value.income - {"mean", "median"},
                                   next, nextInt).value <= 999000
    ensures ProfileOf(ACS_OPTIONS, row, parse).Ok?
            && next(ProfileOf(ACS_OPTIONS, row, parse).value.income - {"mean", "median"}).Some?
            ==> IncomeFrom(ProfileOf(ACS_OPTIONS, row, parse).value.income - {"mean", "median"}, next, nextInt).Ok?
                && 0 <= IncomeFrom(ProfileOf(ACS_OPTIONS, row, parse).value.income - {"mean", "median"},
                                   next, nextInt).value <= 999000
  {
    DefaultAgeGroupsWithin();
    DefaultIncomesWithin();
    AcsAgeGroupsWithin();
    AcsIncomesWithin();
    if ProfileOf(DEFAULT_OPTIONS, row, parse).Ok? {
      if next(ProfileOf(DEFAULT_OPTIONS, row, parse).value.ages).Some? {
        LoadedAgeWithin(DEFAULT_OPTIONS, row, parse, next, nextInt, 0, 110);
      }
      if next(ProfileOf(DEFAULT_OPTIONS, row, parse).value.income - {"mean", "median"}).Some? {
        LoadedIncomeWithin(DEFAULT_OPTIONS, row, parse, next, nextInt, 0, 999);
      }
    }
    if ProfileOf(ACS_OPTIONS, row, parse).Ok? {
      if next(ProfileOf(ACS_OPTIONS, row, parse).value.ages).Some? {
        LoadedAgeWithin(ACS_OPTIONS, row, parse, next, nextInt, 18, 110);
      }
      if next(ProfileOf(ACS_OPTIONS, row, parse).value.income - {"mean", "median"}).Some? {
        LoadedIncomeWithin(ACS_OPTIONS, row, parse, next, nextInt, 0, 999);
      }
    }
  }
}
