/** GlobalAttributes: the simulation-wide constants and yearly time series,
 *  held by one lazily created instance.  The static `instance` field is
 *  the field of class `Singleton`; a time series is a map from year to the
 *  value of that year's data item (`None` for a `null` value). */
module Engine {
  import opened Wrappers

  /** A value a module reads as an attribute; only numbers are modelled. */
  type Value = Option<real>

  /** A yearly `TimeSeries`: year -> the value of that year's data item. */
  type TimeSeries = map<int, Value>

  class GlobalAttributes {
    var globalConsts: map<string, Value>
    var globalTimeBasedAttrs: map<string, TimeSeries>

    /** A fresh instance starts with both maps empty. */
    constructor ()
      ensures globalConsts == map[] && globalTimeBasedAttrs == map[]
    {
      globalConsts := map[];
      globalTimeBasedAttrs := map[];
    }

    /** `getAttrsAtTime(t)`, with `year` the calendar year of instant `t`:
     *  a new map holding, for every time-based attribute, the value of its
     *  series in that year.  A series without an item for that year
     *  yields `null` from `getDataItem`, whose `getValue` throws
     *  NullPointerException.  Neither field changes (no `modifies`). */
    method GetAttrsAtTime(year: int) returns (r: Result<map<string, Value>>)
      ensures r.Ok? <==> forall a :: a in globalTimeBasedAttrs ==> year in globalTimeBasedAttrs[a]
      ensures r.Err? ==> r.error == NULL_POINTER
      ensures r.Ok? ==> r.value.Keys == globalTimeBasedAttrs.Keys
      ensures r.Ok? ==> forall a :: a in r.value ==> r.value[a] == globalTimeBasedAttrs[a][year]
    {
      var attrs: map<string, Value> := map[];
      var remaining := globalTimeBasedAttrs.Keys;
      while remaining != {}
        invariant remaining <= globalTimeBasedAttrs.Keys
        invariant attrs.Keys == globalTimeBasedAttrs.Keys - remaining
        invariant forall a :: a in attrs ==> year in globalTimeBasedAttrs[a] && attrs[a] == globalTimeBasedAttrs[a][year]
        decreases remaining
      {
        var a :| a in remaining;
        var series := globalTimeBasedAttrs[a];
        if year !in series {
          return Err(NULL_POINTER);
        }
        attrs := attrs[a := series[year]];
        remaining := remaining - {a};
      }
      return Ok(attrs);
    }
  }

  /** The class's static state: `instance`, `null` until the first
   *  `attrs()`. */
  class Singleton {
    var instance: GlobalAttributes?

    constructor ()
      ensures instance == null
    {
      instance := null;
    }

    /** `attrs()`: the first call creates the instance, with empty maps;
     *  every call returns the stored instance. */
    method Attrs() returns (r: GlobalAttributes)
      modifies this
      ensures old(instance) != null ==> r == old(instance)
      ensures old(instance) == null ==> fresh(r) && r.globalConsts == map[] && r.globalTimeBasedAttrs == map[]
      ensures instance == r
    {
      if instance == null {
        instance := new GlobalAttributes();
      }
      return instance;
    }

    /** Two calls in a row return the same instance. */
    method AttrsTwice() returns (first: GlobalAttributes, second: GlobalAttributes)
      modifies this
      ensures first == second && instance == first
      ensures old(instance) != null ==> first == old(instance)
    {
      first := Attrs();
      second := Attrs();
    }
  }
}
