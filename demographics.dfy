/** Demographics of one city: frequency tables for age, gender, race,
 *  income and education, random picks from them (each table turned into a
 *  weighted collection on first use and kept), and the fixed
 *  race -> ethnicity -> language tables.
 *
 *  Randomness is a parameter.  A weighted draw (`RandomCollection.next`)
 *  is a function `next` from the weights to the label it picks, or `None`
 *  when the draw fails; `Random.nextInt(n)` is a function `nextInt`.
 *  Only their documented ranges are assumed, by the lemmas that need them. */
module Demographics {
  import opened Wrappers
  import opened JavaText

  /** Label -> weight, the content of a `RandomCollection`. */
  type Weights = map<string, Double>

  /** The fields a loader fills in (CityStateDemographics). */
  datatype Profile = Profile(population: int, city: Option<string>, state: Option<string>, county: Option<string>,
                             ages: Weights, gender: Weights, race: Weights, income: Weights, education: Weights)

  /** A weighted draw only ever returns one of its labels. */
  ghost predicate ValidDraw(next: Weights -> Option<string>) {
    forall w :: next(w).Some? ==> next(w).value in w
  }

  /** `Random.nextInt(n)` is in [0, n) for every positive bound. */
  ghost predicate ValidNextInt(nextInt: int -> int) {
    forall n :: n > 0 ==> 0 <= nextInt(n) < n
  }

  // --------------------------------------------------------- range labels

  /** A label "low..high" split on ".." and both ends read with
   *  `Integer.parseInt`, in the order `pickAge` reads them: a missing
   *  piece is an ArrayIndexOutOfBoundsException, a bad number a
   *  NumberFormatException. */
  function RangeOf(picked: string): (r: Result<(int, int)>)
    ensures r.Ok? <==> |Split(picked, "..")| >= 2 && ParseInt(Split(picked, "..")[0]).Some?
                       && ParseInt(Split(picked, "..")[1]).Some?
    ensures r.Ok? ==> r.value == (ParseInt(Split(picked, "..")[0]).value, ParseInt(Split(picked, "..")[1]).value)
  {
    var range := Split(picked, "..");
    if |range| == 0 then Err(ARRAY_INDEX)
    else match ParseInt(range[0])
      case None => Err(NUMBER_FORMAT)
      case Some(low) =>
        if |range| < 2 then Err(ARRAY_INDEX)
        else match ParseInt(range[1])
          case None => Err(NUMBER_FORMAT)
          case Some(high) => Ok((low, high))
  }

  /** `random.nextInt((high - low) + 1) + low` in 32-bit int arithmetic. */
  function InclusivePick(low: int, high: int, nextInt: int -> int): (r: Result<int>)
    ensures r.Ok? ==> INT_MIN <= r.value <= INT_MAX
    ensures r.Err? ==> r.error == ILLEGAL_ARGUMENT
    ensures INT_MIN <= low <= high <= INT_MAX && high - low < INT_MAX ==> r.Ok?
    ensures INT_MIN <= high - low + 1 <= 0 ==> r == Err(ILLEGAL_ARGUMENT)
  {
    var bound := Wrap32(Wrap32(high - low) + 1);
    if bound <= 0 then Err(ILLEGAL_ARGUMENT) else Ok(Wrap32(nextInt(bound) + low))
  }

  /** Without overflow the pick lands in [low, high], both ends included. */
  lemma InclusivePickInRange(low: int, high: int, nextInt: int -> int)
    requires ValidNextInt(nextInt)
    requires INT_MIN <= low <= high <= INT_MAX && high - low < INT_MAX
    ensures InclusivePick(low, high, nextInt).Ok?
    ensures low <= InclusivePick(low, high, nextInt).value <= high
  {
    assert Wrap32(high - low) == high - low;
    assert Wrap32(high - low + 1) == high - low + 1;
    var x := nextInt(high - low + 1);
    assert 0 <= x <= high - low;
    assert Wrap32(x + low) == x + low;
  }

  /** `pickAge` once the range is drawn from `dist`. */
  function AgeFrom(dist: Weights, next: Weights -> Option<string>, nextInt: int -> int): Result<int> {
    match next(dist)
    case None => Err(RUNTIME)
    case Some(picked) =>
      match RangeOf(picked)
      case Err(e) => Err(e)
      case Ok((low, high)) => InclusivePick(low, high, nextInt)
  }

  /** `pickIncome` once the bracket is drawn from `dist`: the ends are
   *  thousands, multiplied in 32-bit int arithmetic. */
  function IncomeFrom(dist: Weights, next: Weights -> Option<string>, nextInt: int -> int): Result<int> {
    match next(dist)
    case None => Err(RUNTIME)
    case Some(picked) =>
      match RangeOf(picked)
      case Err(e) => Err(e)
      case Ok((low, high)) => InclusivePick(Wrap32(low * 1000), Wrap32(high * 1000), nextInt)
  }

  /** `pickGender`, `pickRace`, `pickEducation`: the drawn label itself. */
  function LabelFrom(dist: Weights, next: Weights -> Option<string>): Result<string> {
    match next(dist)
    case None => Err(RUNTIME)
    case Some(picked) => Ok(picked)
  }

  /** An age is drawn from one of the distribution's ranges and lies in
   *  it, ends included. */
  lemma AgeInDrawnRange(dist: Weights, next: Weights -> Option<string>, nextInt: int -> int)
    requires ValidDraw(next) && ValidNextInt(nextInt)
    requires next(dist).Some? && RangeOf(next(dist).value).Ok?
    requires RangeOf(next(dist).value).value.0 <= RangeOf(next(dist).value).value.1
    requires RangeOf(next(dist).value).value.1 - RangeOf(next(dist).value).value.0 < INT_MAX
    ensures next(dist).value in dist
    ensures AgeFrom(dist, next, nextInt).Ok?
    ensures RangeOf(next(dist).value).value.0 <= AgeFrom(dist, next, nextInt).value
                                                 <= RangeOf(next(dist).value).value.1
  {
    var (low, high) := RangeOf(next(dist).value).value;
    InclusivePickInRange(low, high, nextInt);
  }

  /** An income is drawn from a bracket "low..high" of thousands and lies
   *  in [low * 1000, high * 1000]. */
  lemma IncomeInDrawnBracket(dist: Weights, next: Weights -> Option<string>, nextInt: int -> int)
    requires ValidDraw(next) && ValidNextInt(nextInt)
    requires next(dist).Some? && RangeOf(next(dist).value).Ok?
    requires 0 <= RangeOf(next(dist).value).value.0 <= RangeOf(next(dist).value).value.1 <= 2000000
    ensures next(dist).value in dist
    ensures IncomeFrom(dist, next, nextInt).Ok?
    ensures RangeOf(next(dist).value).value.0 * 1000 <= IncomeFrom(dist, next, nextInt).value
                                                        <= RangeOf(next(dist).value).value.1 * 1000
  {
    var (low, high) := RangeOf(next(dist).value).value;
    assert Wrap32(low * 1000) == low * 1000;
    assert Wrap32(high * 1000) == high * 1000;
    InclusivePickInRange(low * 1000, high * 1000, nextInt);
  }

  // ------------------------------------------------------ the object

  /** One Demographics object: the public frequency tables, and the
   *  private weighted collections built from them on first use. */
  class Demographics {
    var population: int
    var ages: Weights
    var gender: Weights
    var race: Weights
    var income: Weights
    var education: Weights
    var ageDistribution: Option<Weights>
    var genderDistribution: Option<Weights>
    var raceDistribution: Option<Weights>
    var incomeDistribution: Option<Weights>
    var educationDistribution: Option<Weights>

    /** The public fields. */
    ghost function Tables(): (int, Weights, Weights, Weights, Weights, Weights)
      reads this
    {
      (population, ages, gender, race, income, education)
    }

    /** A loaded city, no collection built yet. */
    constructor(p: Profile)
      ensures Tables() == (p.population, p.ages, p.gender, p.race, p.income, p.education)
      ensures ageDistribution.None? && genderDistribution.None? && raceDistribution.None?
      ensures incomeDistribution.None? && educationDistribution.None?
    {
      population := p.population;
      ages := p.ages;
      gender := p.gender;
      race := p.race;
      income := p.income;
      education := p.education;
      ageDistribution := None;
      genderDistribution := None;
      raceDistribution := None;
      incomeDistribution := None;
      educationDistribution := None;
    }

    /** `pickAge`: the age collection is built from `ages` the first time
     *  and reused afterwards, even if `ages` has changed since. */
    method PickAge(next: Weights -> Option<string>, nextInt: int -> int) returns (r: Result<int>)
      modifies this
      ensures Tables() == old(Tables())
      ensures ageDistribution == if old(ageDistribution).Some? then old(ageDistribution) else Some(ages)
      ensures genderDistribution == old(genderDistribution) && raceDistribution == old(raceDistribution)
      ensures incomeDistribution == old(incomeDistribution) && educationDistribution == old(educationDistribution)
      ensures r == AgeFrom(ageDistribution.value, next, nextInt)
    {
      if ageDistribution.None? {
        ageDistribution := Some(ages);
      }
      r := AgeFrom(ageDistribution.value, next, nextInt);
    }

    /** `pickGender`, cached like `pickAge`. */
    method PickGender(next: Weights -> Option<string>) returns (r: Result<string>)
      modifies this
      ensures Tables() == old(Tables())
      ensures genderDistribution == if old(genderDistribution).Some? then old(genderDistribution) else Some(gender)
      ensures ageDistribution == old(ageDistribution) && raceDistribution == old(raceDistribution)
      ensures incomeDistribution == old(incomeDistribution) && educationDistribution == old(educationDistribution)
      ensures r == LabelFrom(genderDistribution.value, next)
    {
      if genderDistribution.None? {
        genderDistribution := Some(gender);
      }
      r := LabelFrom(genderDistribution.value, next);
    }

    /** `pickRace`, cached like `pickAge`. */
    method PickRace(next: Weights -> Option<string>) returns (r: Result<string>)
      modifies this
      ensures Tables() == old(Tables())
      ensures raceDistribution == if old(raceDistribution).Some? then old(raceDistribution) else Some(race)
      ensures ageDistribution == old(ageDistribution) && genderDistribution == old(genderDistribution)
      ensures incomeDistribution == old(incomeDistribution) && educationDistribution == old(educationDistribution)
      ensures r == LabelFrom(raceDistribution.value, next)
    {
      if raceDistribution.None? {
        raceDistribution := Some(race);
      }
      r := LabelFrom(raceDistribution.value, next);
    }

    /** `pickIncome`: the collection is built once from `income` without
     *  its "mean" and "median" entries. */
    method PickIncome(next: Weights -> Option<string>, nextInt: int -> int) returns (r: Result<int>)
      modifies this
      ensures Tables() == old(Tables())
      ensures incomeDistribution == if old(incomeDistribution).Some? then old(incomeDistribution)
                                    else Some(income - {"mean", "median"})
      ensures ageDistribution == old(ageDistribution) && genderDistribution == old(genderDistribution)
      ensures raceDistribution == old(raceDistribution) && educationDistribution == old(educationDistribution)
      ensures r == IncomeFrom(incomeDistribution.value, next, nextInt)
    {
      if incomeDistribution.None? {
        incomeDistribution := Some(income - {"mean", "median"});
      }
      r := IncomeFrom(incomeDistribution.value, next, nextInt);
    }

    /** `pickEducation`, cached like `pickAge`. */
    method PickEducation(next: Weights -> Option<string>) returns (r: Result<string>)
      modifies this
      ensures Tables() == old(Tables())
      ensures educationDistribution == if old(educationDistribution).Some? then old(educationDistribution)
                                       else Some(education)
      ensures ageDistribution == old(ageDistribution) && genderDistribution == old(genderDistribution)
      ensures raceDistribution == old(raceDistribution) && incomeDistribution == old(incomeDistribution)
      ensures r == LabelFrom(educationDistribution.value, next)
    {
      if educationDistribution.None? {
        educationDistribution := Some(education);
      }
      r := LabelFrom(educationDistribution.value, next);
    }
  }

  /** The income collection never offers "mean" or "median", so a valid
   *  draw never returns either. */
  lemma IncomeDrawIsBracket(income: Weights, next: Weights -> Option<string>)
    requires ValidDraw(next)
    ensures LabelFrom(income - {"mean", "median"}, next).Ok? ==>
              var picked := LabelFrom(income - {"mean", "median"}, next).value;
              picked in income && picked != "mean" && picked != "median"
  {
  }

  // ------------------------------------------- ethnicity and language

  const WHITE_ETHNICITIES: Weights :=
    map["irish" := Num(22.8), "italian" := Num(13.9), "english" := Num(10.7), "french" := Num(7.8),
        "german" := Num(6.4), "polish" := Num(5.0), "portuguese" := Num(4.7), "american" := Num(4.4),
        "french_canadian" := Num(3.8), "scottish" := Num(2.4), "russian" := Num(1.9),
        "swedish" := Num(1.8), "greek" := Num(1.2)]
  const HISPANIC_ETHNICITIES: Weights :=
    map["puerto_rican" := Num(4.1), "mexican" := Num(1.0), "central_american" := Num(1.0),
        "south_american" := Num(1.0)]
  const BLACK_ETHNICITIES: Weights :=
    map["african" := Num(1.8), "dominican" := Num(1.8), "west_indian" := Num(1.8)]
  const ASIAN_ETHNICITIES: Weights :=
    map["chinese" := Num(2.0), "asian_indian" := Num(1.1)]

  /** Every ethnicity `ethnicityFromRace` can produce. */
  const ETHNICITIES: set<string> :=
    WHITE_ETHNICITIES.Keys + HISPANIC_ETHNICITIES.Keys + BLACK_ETHNICITIES.Keys + ASIAN_ETHNICITIES.Keys
    + {"american_indian", "arab"}

  /** `ethnicityFromRace`: a weighted draw for white, hispanic, black and
   *  asian; "american_indian" for native; "arab" for any other race. */
  function EthnicityFromRace(race: string, next: Weights -> Option<string>): (r: Result<string>)
    ensures race == "native" ==> r == Ok("american_indian")
    ensures race !in {"white", "hispanic", "black", "asian", "native"} ==> r == Ok("arab")
  {
    if race == "white" then LabelFrom(WHITE_ETHNICITIES, next)
    else if race == "hispanic" then LabelFrom(HISPANIC_ETHNICITIES, next)
    else if race == "black" then LabelFrom(BLACK_ETHNICITIES, next)
    else if race == "asian" then LabelFrom(ASIAN_ETHNICITIES, next)
    else if race == "native" then Ok("american_indian")
    else Ok("arab")
  }

  /** Ethnicities whose language is always English. */
  const ENGLISH_SPEAKING: set<string> :=
    {"irish", "english", "american", "scottish", "polish", "swedish", "american_indian"}

  /** The weighted language tables of the other known ethnicities. */
  const LANGUAGES_BY_ETHNICITY: map<string, Weights> :=
    map["italian" := map["english" := Num(95.0), "italian" := Num(5.0)],
        "french" := map["english" := Num(99.0), "french" := Num(1.0)],
        "french_canadian" := map["english" := Num(99.0), "french" := Num(1.0)],
        "german" := map["english" := Num(96.0), "german" := Num(4.0)],
        "portuguese" := map["english" := Num(37.0), "portuguese" := Num(63.0)],
        "russian" := map["english" := Num(62.0), "russian" := Num(38.0)],
        "greek" := map["english" := Num(66.0), "greek" := Num(34.0)],
        "puerto_rican" := map["english" := Num(30.0), "spanish" := Num(70.0)],
        "mexican" := map["english" := Num(30.0), "spanish" := Num(70.0)],
        "central_american" := map["english" := Num(30.0), "spanish" := Num(70.0)],
        "south_american" := map["english" := Num(30.0), "spanish" := Num(35.0), "portuguese" := Num(35.0)],
        "african" := map["english" := Num(95.0), "french" := Num(5.0)],
        "dominican" := map["english" := Num(30.0), "spanish" := Num(70.0)],
        "west_indian" := map["english" := Num(25.0), "spanish" := Num(35.0), "french_creole" := Num(50.0)],
        "chinese" := map["english" := Num(25.0), "chinese" := Num(75.0)],
        "asian_indian" := map["english" := Num(75.0), "hindi" := Num(25.0)],
        "arab" := map["english" := Num(63.0), "arabic" := Num(37.0)]]

  /** Every language `languageFromEthnicity` can produce. */
  const LANGUAGES: set<string> :=
    {"english", "italian", "french", "german", "portuguese", "russian", "greek", "spanish",
     "french_creole", "chinese", "hindi", "arabic"}

  /** `languageFromEthnicity`: English for the English-speaking
   *  ethnicities and for any unknown one, a weighted draw otherwise.  The
   *  source's chain of `equals` tests compares distinct constants, so a
   *  table lookup gives the same answers. */
  function LanguageFromEthnicity(ethnicity: string, next: Weights -> Option<string>): (r: Result<string>)
    ensures ethnicity in ENGLISH_SPEAKING ==> r == Ok("english")
    ensures ethnicity !in ENGLISH_SPEAKING && ethnicity !in LANGUAGES_BY_ETHNICITY ==> r == Ok("english")
  {
    if ethnicity in ENGLISH_SPEAKING then Ok("english")
    else if ethnicity in LANGUAGES_BY_ETHNICITY then LabelFrom(LANGUAGES_BY_ETHNICITY[ethnicity], next)
    else Ok("english")
  }

  /** Whatever the draw, an ethnicity comes from the fixed list ... */
  lemma EthnicityIsKnown(race: string, next: Weights -> Option<string>)
    requires ValidDraw(next)
    ensures EthnicityFromRace(race, next).Ok? ==> EthnicityFromRace(race, next).value in ETHNICITIES
  {
    var r := EthnicityFromRace(race, next);
    if r.Ok? {
      if race == "white" {
        assert r.value in WHITE_ETHNICITIES.Keys;
      } else if race == "hispanic" {
        assert r.value in HISPANIC_ETHNICITIES.Keys;
      } else if race == "black" {
        assert r.value in BLACK_ETHNICITIES.Keys;
      } else if race == "asian" {
        assert r.value in ASIAN_ETHNICITIES.Keys;
      }
    }
  }

  /** ... every one of them has its own entry in the language table (none
   *  falls through to the default) ... */
  lemma EveryEthnicityHasLanguages(e: string)
    requires e in ETHNICITIES
    ensures e in ENGLISH_SPEAKING || e in LANGUAGES_BY_ETHNICITY
  {
    if e in WHITE_ETHNICITIES {
      WhiteEthnicitiesHaveLanguages(e);
    } else if e in HISPANIC_ETHNICITIES {
      HispanicEthnicitiesHaveLanguages(e);
    } else if e in BLACK_ETHNICITIES {
      BlackEthnicitiesHaveLanguages(e);
    } else if e in ASIAN_ETHNICITIES {
      AsianEthnicitiesHaveLanguages(e);
    } else if e == "arab" {
      assert "arab" in LANGUAGES_BY_ETHNICITY;
    }
  }

  lemma WhiteEthnicitiesHaveLanguages(e: string)
    requires e in WHITE_ETHNICITIES
    ensures e in ENGLISH_SPEAKING || e in LANGUAGES_BY_ETHNICITY
  {
  }

  lemma HispanicEthnicitiesHaveLanguages(e: string)
    requires e in HISPANIC_ETHNICITIES
    ensures e in LANGUAGES_BY_ETHNICITY
  {
  }

  lemma BlackEthnicitiesHaveLanguages(e: string)
    requires e in BLACK_ETHNICITIES
    ensures e in LANGUAGES_BY_ETHNICITY
  {
  }

  lemma AsianEthnicitiesHaveLanguages(e: string)
    requires e in ASIAN_ETHNICITIES
    ensures e in LANGUAGES_BY_ETHNICITY
  {
  }

  /** ... and a language comes from the fixed list. */
  lemma LanguageIsKnown(ethnicity: string, next: Weights -> Option<string>)
    requires ValidDraw(next)
    ensures LanguageFromEthnicity(ethnicity, next).Ok? ==> LanguageFromEthnicity(ethnicity, next).value in LANGUAGES
  {
  }

  // ---------------------------------------------- socioeconomic scales

  lemma MulNonNegative(a: real, b: real)
    requires a >= 0.0 && b > 0.0
    ensures a * b >= 0.0
  {
  }

  /** A part divided by a larger whole lies strictly between 0 and 1. */
  lemma QuotientInUnit(n: real, d: real)
    requires 0.0 < n < d
    ensures 0.0 < n / d < 1.0
  {
    var q := n / d;
    assert q * d == n;
    if q >= 1.0 {
      MulNonNegative(q - 1.0, d);
      assert false;
    }
  }

  /** The configured defaults of `incomeLevel`. */
  const POVERTY_INCOME: real := 11000.0
  const HIGH_INCOME: real := 75000.0

  /** `incomeLevel`: income mapped linearly from the poverty level (0) to
   *  the high level (1), clamped at both ends. */
  function IncomeLevel(income: int, poverty: real, high: real): (r: real)
    ensures income as real >= high ==> r == 1.0
    ensures income as real < high && income as real <= poverty ==> r == 0.0
    ensures poverty < income as real < high ==> 0.0 < r < 1.0
  {
    if income as real >= high then 1.0
    else if income as real <= poverty then 0.0
    else
      QuotientInUnit(income as real - poverty, high - poverty);
      (income as real - poverty) / (high - poverty)
  }

  /** The configured [min, max] range of each education level. */
  datatype EducationRanges = EducationRanges(lessThanHs: (real, real), hsDegree: (real, real),
                                             someCollege: (real, real), bsDegree: (real, real))

  const DEFAULT_EDUCATION_RANGES :=
    EducationRanges((0.0, 0.5), (0.1, 0.75), (0.3, 0.85), (0.5, 1.0))

  /** `rand(random, low, high)` for a draw `u` of `nextDouble`. */
  function Scale(low: real, high: real, u: real): real {
    low + (high - low) * u
  }

  /** `educationLevel`: a draw from the level's range, 0.0 for any other
   *  level. */
  function EducationLevel(level: string, ranges: EducationRanges, u: real): (r: real)
    ensures level !in {"less_than_hs", "hs_degree", "some_college", "bs_degree"} ==> r == 0.0
  {
    match level
    case "less_than_hs" => Scale(ranges.lessThanHs.0, ranges.lessThanHs.1, u)
    case "hs_degree" => Scale(ranges.hsDegree.0, ranges.hsDegree.1, u)
    case "some_college" => Scale(ranges.someCollege.0, ranges.someCollege.1, u)
    case "bs_degree" => Scale(ranges.bsDegree.0, ranges.bsDegree.1, u)
    case _ => 0.0
  }

  /** With the default ranges and a draw in [0, 1), every known level
   *  scores in [0, 1). */
  lemma EducationLevelDefaultsInUnit(level: string, u: real)
    requires 0.0 <= u < 1.0
    ensures 0.0 <= EducationLevel(level, DEFAULT_EDUCATION_RANGES, u) < 1.0
  {
  }

  /** `socioeconomicCategory`: "High" from the high score up, "Middle"
   *  from the middle score up, "Low" below. */
  function SocioeconomicCategory(score: real, highScore: real, middleScore: real): (r: string)
    ensures r == "High" <==> score >= highScore
    ensures r == "Middle" <==> score < highScore && score >= middleScore
    ensures r == "Low" <==> score < highScore && score < middleScore
  {
    if score >= highScore then "High"
    else if score >= middleScore then "Middle"
    else "Low"
  }
}
