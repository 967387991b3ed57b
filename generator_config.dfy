/** How a web-service request turns its JSON configuration into generator
 *  options and simulator settings (`configureGeneratorOptions` and
 *  `updateSyntheaConfig`, which Request, RequestService and Controller each
 *  carry a copy of). */
module GeneratorConfig {
  import opened Wrappers
  import opened JavaText

  /** An org.json value, as far as the modelled code inspects it: a number
   *  written without fraction or exponent (`JNumber`), one written with
   *  them, which org.json reads as a `Double` (`JDecimal`), a string, a
   *  boolean, null, or a nested array or object. */
  datatype JsonValue = JNumber(n: int) | JDecimal(d: real) | JString(s: string) | JBool(b: bool) | JNull | JNested

  /** A JSONObject: its keys and values (key order plays no part in the model). */
  type JsonObject = map<string, JsonValue>

  /** `JSONObject.getLong`: a number narrowed to 64 bits (a fractional one
   *  rounded toward zero), or a numeric string. */
  function GetLong(v: JsonValue): (r: Result<int>)
    ensures r.Ok? ==> LONG_MIN <= r.value <= LONG_MAX
    ensures r.Err? ==> r.error == JSON_EXCEPTION
    ensures r.Ok? <==> v.JNumber? || v.JDecimal? || (v.JString? && ParseLong(v.s).Some?)
    ensures v.JDecimal? ==> r == Ok(NarrowReal(v.d, LONG_MIN, LONG_MAX))
  {
    match v
    case JNumber(n) => Ok(Wrap64(n))
    case JDecimal(d) => Ok(NarrowReal(d, LONG_MIN, LONG_MAX))
    case JString(s) => if ParseLong(s).Some? then Ok(ParseLong(s).value) else Err(JSON_EXCEPTION)
    case _ => Err(JSON_EXCEPTION)
  }

  /** `JSONObject.getInt`: a number narrowed to 32 bits (a fractional one
   *  rounded toward zero), or a numeric string. */
  function GetInt(v: JsonValue): (r: Result<int>)
    ensures r.Ok? ==> INT_MIN <= r.value <= INT_MAX
    ensures r.Err? ==> r.error == JSON_EXCEPTION
    ensures r.Ok? <==> v.JNumber? || v.JDecimal? || (v.JString? && ParseInt(v.s).Some?)
    ensures v.JDecimal? ==> r == Ok(NarrowReal(v.d, INT_MIN, INT_MAX))
  {
    match v
    case JNumber(n) => Ok(Wrap32(n))
    case JDecimal(d) => Ok(NarrowReal(d, INT_MIN, INT_MAX))
    case JString(s) => if ParseInt(s).Some? then Ok(ParseInt(s).value) else Err(JSON_EXCEPTION)
    case _ => Err(JSON_EXCEPTION)
  }

  /** A fractional number is rounded toward zero; one beyond the range
   *  saturates rather than wrapping as an integral one does. */
  lemma FractionalNumbersTruncate()
    ensures GetInt(JDecimal(2.7)) == Ok(2) && GetInt(JDecimal(-2.7)) == Ok(-2)
    ensures GetInt(JDecimal(10000000000.0)) == Ok(INT_MAX)
    ensures GetInt(JNumber(10000000000)) == Ok(1410065408)
    ensures GetLong(JDecimal(-0.5)) == Ok(0)
  {
  }

  /** `JSONObject.getString`: only a string value is accepted. */
  function GetString(v: JsonValue): (r: Result<string>)
    ensures r.Ok? <==> v.JString?
    ensures r.Ok? ==> r.value == v.s
  {
    if v.JString? then Ok(v.s) else Err(JSON_EXCEPTION)
  }

  /** The fields of `Generator.GeneratorOptions` the web service sets;
   *  `None` is a Java null. */
  datatype GeneratorOptions = GeneratorOptions(
    seed: int, population: int, gender: Option<string>,
    minAge: int, maxAge: int, state: Option<string>, city: Option<string>)

  /** The keys `configureGeneratorOptions` recognises; `updateSyntheaConfig`
   *  skips them. */
  const GENERATOR_KEYS: set<string> :=
    {"seed", "population", "gender", "minAge", "maxAge", "state", "city"}

  function LongField(o: JsonObject, key: string, default: int): Result<int> {
    if key in o then GetLong(o[key]) else Ok(default)
  }

  function IntField(o: JsonObject, key: string, default: int): Result<int> {
    if key in o then GetInt(o[key]) else Ok(default)
  }

  function StringField(o: JsonObject, key: string, default: Option<string>): Result<Option<string>> {
    if key in o then (if o[key].JString? then Ok(Some(o[key].s)) else Err(JSON_EXCEPTION))
    else Ok(default)
  }

  /** The options a configuration denotes: each recognised key, read
   *  independently of the others, replaces its default; reading any of them
   *  fails with a JSONException when the value has the wrong type. */
  function OptionsFrom(o: JsonObject, d: GeneratorOptions): (r: Result<GeneratorOptions>)
    ensures r.Err? ==> r.error == JSON_EXCEPTION
  {
    var seed := LongField(o, "seed", d.seed);
    var population := IntField(o, "population", d.population);
    var gender := StringField(o, "gender", d.gender);
    var minAge := IntField(o, "minAge", d.minAge);
    var maxAge := IntField(o, "maxAge", d.maxAge);
    var state := StringField(o, "state", d.state);
    var city := StringField(o, "city", d.city);
    if seed.Ok? && population.Ok? && gender.Ok? && minAge.Ok? && maxAge.Ok? && state.Ok? && city.Ok?
    then Ok(GeneratorOptions(seed.value, population.value, gender.value, minAge.value,
                             maxAge.value, state.value, city.value))
    else Err(JSON_EXCEPTION)
  }

  /** The part of `o` whose keys are in `keys`. */
  function Restrict(o: JsonObject, keys: set<string>): (r: JsonObject)
    ensures forall k :: k in r <==> k in o && k in keys
    ensures forall k :: k in r ==> r[k] == o[k]
  {
    map k | k in o && k in keys :: o[k]
  }

  /** Keys other than the seven recognised ones never affect the options. */
  lemma OptionsIgnoreOtherKeys(o: JsonObject, o': JsonObject, d: GeneratorOptions)
    requires forall k :: k in GENERATOR_KEYS ==> (k in o <==> k in o')
    requires forall k :: k in GENERATOR_KEYS && k in o ==> o[k] == o'[k]
    ensures OptionsFrom(o, d) == OptionsFrom(o', d)
  {
  }

  /** A configuration without recognised keys leaves every default in place. */
  lemma OptionsOfUnrelatedKeys(o: JsonObject, d: GeneratorOptions)
    requires forall k :: k in o ==> k !in GENERATOR_KEYS
    ensures OptionsFrom(o, d) == Ok(d)
  {
  }

  function Lift(r: Result<GeneratorOptions>): Result<Option<GeneratorOptions>> {
    match r
    case Ok(o) => Ok(Some(o))
    case Err(e) => Err(e)
  }

  /** One pass of the loop body of `configureGeneratorOptions`: the switch
   *  on the key `name`. */
  function ApplyKey(options: GeneratorOptions, o: JsonObject, name: string): (r: Result<GeneratorOptions>)
    requires name in o
    ensures r.Err? ==> r.error == JSON_EXCEPTION
  {
    var v := o[name];
    if name == "seed" then (if GetLong(v).Ok? then Ok(options.(seed := GetLong(v).value)) else Err(JSON_EXCEPTION))
    else if name == "population" then (if GetInt(v).Ok? then Ok(options.(population := GetInt(v).value)) else Err(JSON_EXCEPTION))
    else if name == "gender" then (if v.JString? then Ok(options.(gender := Some(v.s))) else Err(JSON_EXCEPTION))
    else if name == "minAge" then (if GetInt(v).Ok? then Ok(options.(minAge := GetInt(v).value)) else Err(JSON_EXCEPTION))
    else if name == "maxAge" then (if GetInt(v).Ok? then Ok(options.(maxAge := GetInt(v).value)) else Err(JSON_EXCEPTION))
    else if name == "state" then (if v.JString? then Ok(options.(state := Some(v.s))) else Err(JSON_EXCEPTION))
    else if name == "city" then (if v.JString? then Ok(options.(city := Some(v.s))) else Err(JSON_EXCEPTION))
    else Ok(options)
  }

  /** Reading one more recognised key on top of the keys read so far. */
  lemma ApplyKeyStep(before: JsonObject, o: JsonObject, name: string, d: GeneratorOptions)
    requires name in o && name !in before && name in GENERATOR_KEYS
    requires OptionsFrom(before, d).Ok?
    ensures ApplyKey(OptionsFrom(before, d).value, o, name).Ok? ==>
              OptionsFrom(before[name := o[name]], d) == ApplyKey(OptionsFrom(before, d).value, o, name)
    ensures ApplyKey(OptionsFrom(before, d).value, o, name).Err? ==> OptionsFrom(before[name := o[name]], d).Err?
  {
  }

  /** A key whose value has the wrong type spoils every configuration that
   *  holds it. */
  lemma OptionsErrMonotone(part: JsonObject, o: JsonObject, d: GeneratorOptions)
    requires forall k :: k in part ==> k in o && o[k] == part[k]
    requires OptionsFrom(part, d).Err?
    ensures OptionsFrom(o, d).Err?
  {
  }

  /** Processing one more key in any order extends the options read so far. */
  lemma ApplyKeyExtends(o: JsonObject, done: set<string>, name: string, d: GeneratorOptions)
    requires name in o && name !in done
    requires OptionsFrom(Restrict(o, done), d).Ok?
    ensures ApplyKey(OptionsFrom(Restrict(o, done), d).value, o, name).Ok? ==>
              OptionsFrom(Restrict(o, done + {name}), d) == ApplyKey(OptionsFrom(Restrict(o, done), d).value, o, name)
    ensures ApplyKey(OptionsFrom(Restrict(o, done), d).value, o, name).Err? ==> OptionsFrom(o, d).Err?
  {
    var before := Restrict(o, done);
    var after := Restrict(o, done + {name});
    if name !in GENERATOR_KEYS {
      OptionsIgnoreOtherKeys(before, after, d);
    } else {
      assert after == before[name := o[name]];
      ApplyKeyStep(before, o, name, d);
      if OptionsFrom(after, d).Err? {
        OptionsErrMonotone(after, o, d);
      }
    }
  }

  /** The loop body of `configureGeneratorOptions` for the key `name`,
   *  after the keys in `done` have been read into `options`. */
  method ReadKey(o: JsonObject, ghost done: set<string>, name: string, options: GeneratorOptions, defaults: GeneratorOptions)
    returns (next: Result<GeneratorOptions>)
    requires name in o && name !in done
    requires OptionsFrom(Restrict(o, done), defaults) == Ok(options)
    ensures next.Ok? ==> OptionsFrom(Restrict(o, done + {name}), defaults) == next
    ensures next.Err? ==> next.error == JSON_EXCEPTION && OptionsFrom(o, defaults).Err?
  {
    ApplyKeyExtends(o, done, name, defaults);
    next := ApplyKey(options, o, name);
  }

  /** `configureGeneratorOptions`: null for a null configuration; otherwise
   *  the loop over the configuration's names, which sets one field per
   *  recognised key and ignores every other key.  An object without keys
   *  is treated as having no names (see ConfigureGeneratorOptionsAsWritten). */
  method ConfigureGeneratorOptions(configuration: Option<JsonObject>, defaults: GeneratorOptions)
    returns (r: Result<Option<GeneratorOptions>>)
    ensures configuration.None? ==> r == Ok(None)
    ensures configuration.Some? ==> r == Lift(OptionsFrom(configuration.value, defaults))
  {
    if configuration.None? {
      return Ok(None);
    }
    var options := ReadOptions(configuration.value, defaults);
    if options.Err? {
      return Err(options.error);
    }
    return Ok(Some(options.value));
  }

  /** The loop of `configureGeneratorOptions` over the configuration's names,
   *  taken in whatever order the object yields them. */
  method ReadOptions(o: JsonObject, defaults: GeneratorOptions) returns (r: Result<GeneratorOptions>)
    ensures r == OptionsFrom(o, defaults)
  {
    var options := defaults;
    var remaining := o.Keys;
    ghost var done: set<string> := {};
    RestrictBounds(o);
    while remaining != {}
      invariant remaining <= o.Keys && done == o.Keys - remaining
      invariant OptionsFrom(Restrict(o, done), defaults) == Ok(options)
      decreases |remaining|
    {
      var name :| name in remaining;
      var next := ReadKey(o, done, name, options, defaults);
      if next.Err? {
        return next;
      }
      options := next.value;
      done := done + {name};
      remaining := remaining - {name};
    }
    assert done == o.Keys;
    return Ok(options);
  }

  /** Restricting to no key leaves nothing; to every key, the whole object. */
  lemma RestrictBounds(o: JsonObject)
    ensures Restrict(o, {}) == map[]
    ensures Restrict(o, o.Keys) == o
  {
    assert Restrict(o, {}) == map[];
    assert Restrict(o, o.Keys) == o;
  }

  /** `configureGeneratorOptions` as written: `JSONObject.names()` is null
   *  for an object without keys, and the loop dereferences it. */
  function ConfigureGeneratorOptionsAsWritten(configuration: Option<JsonObject>, defaults: GeneratorOptions)
    : (r: Result<Option<GeneratorOptions>>)
    ensures configuration.None? <==> r == Ok(None)
    ensures r == Err(NULL_POINTER) <==> configuration == Some(map[])
    ensures r.Ok? && r.value.Some? ==> configuration.Some? && OptionsFrom(configuration.value, defaults) == Ok(r.value.value)
    ensures r.Err? && configuration != Some(map[]) ==> r.error == JSON_EXCEPTION
  {
    if configuration.None? then Ok(None)
    else if |configuration.value| == 0 then Err(NULL_POINTER)
    else Lift(OptionsFrom(configuration.value, defaults))
  }

  /** The two definitions differ exactly on the empty object: the code throws
   *  where the evident intent is "all defaults". */
  lemma EmptyConfigurationThrows(defaults: GeneratorOptions)
    ensures ConfigureGeneratorOptionsAsWritten(Some(map[]), defaults) == Err(NULL_POINTER)
    ensures Lift(OptionsFrom(map[], defaults)) == Ok(Some(defaults))
  {
  }

  lemma AsWrittenAgreesOnNonEmpty(configuration: Option<JsonObject>, defaults: GeneratorOptions)
    requires configuration.None? || |configuration.value| > 0
    ensures ConfigureGeneratorOptionsAsWritten(configuration, defaults)
         == (if configuration.None? then Ok(None) else Lift(OptionsFrom(configuration.value, defaults)))
  {
  }

  // ------------------------------------------------------ simulator settings

  /** The static simulator `Config`: property name to value. */
  class SyntheaConfig {
    var properties: map<string, string>

    constructor(properties: map<string, string>)
      ensures this.properties == properties
    {
      this.properties := properties;
    }

    method Set(name: string, value: string)
      modifies this
      ensures properties == old(properties)[name := value]
    {
      properties := properties[name := value];
    }
  }

  /** The entries `updateSyntheaConfig` forwards to `Config`: every
   *  white-listed key outside `skipped`. */
  function Requested(o: JsonObject, skipped: set<string>, whitelist: set<string>): (r: JsonObject)
    ensures forall k :: k in r <==> k in o && k !in skipped && k in whitelist
  {
    map k | k in o && k !in skipped && k in whitelist :: o[k]
  }

  /** The string settings of a request whose requested values are all strings. */
  function Settings(req: JsonObject): (r: map<string, string>)
    requires forall k :: k in req ==> req[k].JString?
    ensures r.Keys == req.Keys
    ensures forall k :: k in r ==> req[k] == JString(r[k])
  {
    map k | k in req :: req[k].s
  }

  /** The settings copied once the keys in `done` have been visited. */
  ghost function Copied(o: JsonObject, skipped: set<string>, whitelist: set<string>, done: set<string>): map<string, string>
  {
    map k | k in Requested(o, skipped, whitelist) && k in done && o[k].JString? :: o[k].s
  }

  lemma CopiedStep(o: JsonObject, skipped: set<string>, whitelist: set<string>, done: set<string>, name: string)
    requires name in o && name !in done
    ensures name in Requested(o, skipped, whitelist) && o[name].JString? ==>
              Copied(o, skipped, whitelist, done + {name}) == Copied(o, skipped, whitelist, done)[name := o[name].s]
    ensures name !in Requested(o, skipped, whitelist) ==>
              Copied(o, skipped, whitelist, done + {name}) == Copied(o, skipped, whitelist, done)
  {
  }

  /** Setting a key after a merge is setting it in the merged-in map. */
  lemma MergeThenSet(a: map<string, string>, b: map<string, string>, k: string, v: string)
    ensures (a + b)[k := v] == a + b[k := v]
  {
  }

  lemma CopiedAreRequested(o: JsonObject, skipped: set<string>, whitelist: set<string>, done: set<string>)
    ensures forall k :: k in Copied(o, skipped, whitelist, done) ==>
              k in Requested(o, skipped, whitelist) && o[k] == JString(Copied(o, skipped, whitelist, done)[k])
  {
  }

  lemma CopiedAll(o: JsonObject, skipped: set<string>, whitelist: set<string>)
    requires forall k :: k in Requested(o, skipped, whitelist) ==> o[k].JString?
    ensures Copied(o, skipped, whitelist, o.Keys) == Settings(Requested(o, skipped, whitelist))
  {
  }

  /** `updateSyntheaConfig` as written: `JSONObject.names()` is null for an
   *  object without keys, so an empty configuration throws before any
   *  setting is copied, where the evident intent is to copy nothing. */
  method UpdateSyntheaConfigAsWritten(config: SyntheaConfig, o: JsonObject, skipped: set<string>, whitelist: set<string>)
    returns (r: Result<()>)
    modifies config
    ensures |o| == 0 ==> r == Err(NULL_POINTER) && config.properties == old(config.properties)
    ensures |o| > 0 ==> (r.Ok? <==> forall k :: k in Requested(o, skipped, whitelist) ==> o[k].JString?)
    ensures |o| > 0 && r.Ok? ==> config.properties == old(config.properties) + Settings(Requested(o, skipped, whitelist))
  {
    if |o| == 0 {
      return Err(NULL_POINTER);
    }
    r := UpdateSyntheaConfig(config, o, skipped, whitelist);
  }

  /** `updateSyntheaConfig`: keys in `skipped` are ignored, white-listed keys
   *  are copied into `Config` as strings, anything else is only logged.
   *  A non-string value aborts with a JSONException, keeping the settings
   *  already copied. */
  method UpdateSyntheaConfig(config: SyntheaConfig, o: JsonObject, skipped: set<string>, whitelist: set<string>)
    returns (r: Result<()>)
    modifies config
    ensures r.Ok? <==> forall k :: k in Requested(o, skipped, whitelist) ==> o[k].JString?
    ensures r.Ok? ==> config.properties == old(config.properties) + Settings(Requested(o, skipped, whitelist))
    ensures old(config.properties).Keys <= config.properties.Keys
    ensures forall k :: k in config.properties ==>
              (k in old(config.properties) && config.properties[k] == old(config.properties)[k])
              || (k in Requested(o, skipped, whitelist) && o[k] == JString(config.properties[k]))
  {
    var remaining := o.Keys;
    ghost var done: set<string> := {};
    while remaining != {}
      invariant remaining <= o.Keys && done == o.Keys - remaining
      invariant forall k :: k in Requested(o, skipped, whitelist) && k in done ==> o[k].JString?
      invariant config.properties == old(config.properties) + Copied(o, skipped, whitelist, done)
      decreases |remaining|
    {
      var name :| name in remaining;
      CopiedStep(o, skipped, whitelist, done, name);
      if name !in skipped && name in whitelist {
        var v := GetString(o[name]);
        if v.Err? {
          assert name in Requested(o, skipped, whitelist);
          CopiedAreRequested(o, skipped, whitelist, done);
          return Err(v.error);
        }
        MergeThenSet(old(config.properties), Copied(o, skipped, whitelist, done), name, v.value);
        config.Set(name, v.value);
      }
      done := done + {name};
      remaining := remaining - {name};
    }
    CopiedAll(o, skipped, whitelist);
    return Ok(());
  }
}
