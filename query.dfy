/** The values shared by the normalisers and the evaluator: JSON documents,
    the canonical parameter map that `ItemSearch.__init__` builds, and the
    errors raised along the way. */
module Query {
  import opened Wrappers
  import opened Calendar

  /** A decoded JSON value (GeoJSON geometries, CQL2-JSON filters, item attributes). */
  datatype Json =
    | JNull
    | JBool(b: bool)
    | JNumber(n: real)
    | JString(s: string)
    | JArray(items: seq<Json>)
    | JObject(fields: map<string, Json>)

  /** A JSON object, such as a GeoJSON geometry dictionary. */
  type Object = map<string, Json>

  /** A value of a type other than `str`, `dict` and `None`: a number, a
      boolean or a list. */
  type OtherJson = j: Json | !j.JString? && !j.JObject? && !j.JNull? witness JBool(false)

  /** A `filter` argument as the caller passed it: CQL2 text, a dictionary
      (CQL2-JSON), or a value of some other type. */
  datatype Filter =
    | TextFilter(text: string)
    | DictFilter(dict: Object)
    | OtherFilter(other: OtherJson)

  /** A normalised datetime: a start and an end, either of which may be unset. */
  datatype Interval = Interval(start: Option<Instant>, end: Option<Instant>)

  /** A value of the canonical parameter map. */
  datatype Value =
    | BboxValue(coords: seq<real>)
    | DatetimeValue(interval: Interval)
    | NamesValue(names: seq<string>)
    | GeometryValue(geometry: Object)
    | FilterValue(filter: Filter)
    | LanguageValue(tag: string)

  const BboxKey: string := "bbox"
  const DatetimeKey: string := "datetime"
  const IdsKey: string := "ids"
  const CollectionsKey: string := "collections"
  const IntersectsKey: string := "intersects"
  const FilterKey: string := "filter"
  const FilterLangKey: string := "filter-lang"

  const ParameterKeys: set<string> :=
    {BboxKey, DatetimeKey, IdsKey, CollectionsKey, IntersectsKey, FilterKey, FilterLangKey}

  /** The shape of the map `ItemSearch.__init__` builds: only the seven keys,
      each holding the kind of value its normaliser produces. */
  predicate WellTyped(m: map<string, Value>) {
    && m.Keys <= ParameterKeys
    && (BboxKey in m ==> m[BboxKey].BboxValue?)
    && (DatetimeKey in m ==> m[DatetimeKey].DatetimeValue?)
    && (IdsKey in m ==> m[IdsKey].NamesValue?)
    && (CollectionsKey in m ==> m[CollectionsKey].NamesValue?)
    && (IntersectsKey in m ==> m[IntersectsKey].GeometryValue?)
    && (FilterKey in m ==> m[FilterKey].FilterValue?)
    && (FilterLangKey in m ==> m[FilterLangKey].LanguageValue?)
  }

  /** The exceptions of the query engine, raised at construction (the first
      six) or when the result is first computed. */
  datatype Error =
    | TooManyDatetimeComponents(count: nat)   // more than two datetime components
    | InvalidPeriod(text: string)            // a component that is not a date period
    | NotIterable                            // a datetime that is neither text nor a sequence
    | InvalidNumber(text: string)            // a bbox piece `float` rejects
    | InvalidJson(text: string)              // intersects text that is not a JSON object
    | UnsupportedIntersects                  // intersects of any other type
    | BoxArity(count: nat)                   // a bbox `shapely.geometry.box` cannot take
    | InvalidGeometry                        // intersects that is not a geometry
    | MissingFilterLanguage                  // filter present, "filter-lang" absent
    | UnsupportedFilterLanguage(tag: string) // a tag with no parser
    | InvalidFilter                          // a filter its parser rejects
    | UnresolvedAttribute                    // a filter reading a column the table lacks
}
