/** The parameter normalisers of `ItemSearch` (`_format_*`) and the parameter
    map its constructor builds from their results. */
module Normalize {
  import opened Wrappers
  import opened Text
  import opened Calendar
  import opened Query

  /** An `ids` or `collections` argument: unset, a comma-separated string,
      or a sequence of strings. */
  datatype ListInput = NoList | ListText(text: string) | ListItems(items: seq<string>)

  /** A `bbox` argument: unset, a comma-separated string, or a sequence of numbers. */
  datatype BboxInput = NoBbox | BboxText(text: string) | BboxItems(coords: seq<real>)

  /** An `intersects` argument: unset, a dictionary, JSON text, an object
      exposing `__geo_interface__` (given by the dictionary it exposes), or a
      value of some other type. */
  datatype IntersectsInput =
    | NoIntersects
    | IntersectsDict(dict: Object)
    | IntersectsText(text: string)
    | IntersectsGeoInterface(geoInterface: Object)
    | IntersectsOther(other: OtherJson)

  /** A `datetime` argument: unset, a `/`-separated string, a sequence whose
      entries are strings or `None`, or a non-string value that cannot be
      iterated. */
  datatype DatetimeInput =
    | NoDatetime
    | DatetimeText(text: string)
    | DatetimeItems(items: seq<Option<string>>)
    | DatetimeScalar

  /** The foreign parsers the normalisers call: Python's `float` on a string
      and `json.loads`; `None` stands for the exception they raise. */
  datatype Readers = Readers(float: string -> Option<real>, json: string -> Option<Json>)

  /** The keyword arguments of `ItemSearch.__init__`. */
  datatype RawParameters = RawParameters(
    ids: ListInput,
    collections: ListInput,
    bbox: BboxInput,
    intersects: IntersectsInput,
    datetime: DatetimeInput,
    filter: Option<Filter>,
    filterLang: Option<string>)

  // _format_listlike

  /** `_format_listlike`: unset stays unset, a string becomes its `,`-pieces in
      order and untrimmed, a sequence is kept element for element. */
  function FormatListlike(value: ListInput): (r: Option<seq<string>>)
    ensures r.None? <==> value.NoList?
    ensures value.ListText? ==> r.Some? && |r.value| >= 1 && Join(r.value, ',') == value.text
    ensures value.ListText? ==> forall i :: 0 <= i < |r.value| ==> ',' !in r.value[i]
    ensures value.ListItems? ==> r == Some(value.items)
  {
    match value
    case NoList => None
    case ListText(s) =>
      JoinSplit(s, ',');
      SplitPiecesFree(s, ',');
      Some(Split(s, ','))
    case ListItems(items) => Some(items)
  }

  // _format_filter_lang

  /** `_format_filter_lang`: no language without a filter; an explicit
      language as given; otherwise inferred from the filter's type. */
  function FormatFilterLang(filter: Option<Filter>, lang: Option<string>): (r: Option<string>)
    ensures filter.None? ==> r.None?
    ensures filter.Some? && lang.Some? ==> r == lang
    ensures filter.Some? && lang.None? ==>
      r == (match filter.value
            case TextFilter(_) => Some("cql2-text")
            case DictFilter(_) => Some("cql2-json")
            case OtherFilter(_) => None)
  {
    if filter.None? then None
    else if lang.Some? then lang
    else match filter.value
      case TextFilter(_) => Some("cql2-text")
      case DictFilter(_) => Some("cql2-json")
      case OtherFilter(_) => None
  }

  // _format_bbox

  /** `tuple(map(float, pieces))`: every piece converted in order, or the
      exception for the first piece `float` rejects. */
  function ParseNumbers(pieces: seq<string>, float: string -> Option<real>): (r: Result<seq<real>, Error>)
    ensures r.Ok? <==> forall i :: 0 <= i < |pieces| ==> float(pieces[i]).Some?
    ensures r.Ok? ==> |r.value| == |pieces|
    ensures r.Ok? ==> forall i :: 0 <= i < |pieces| ==> float(pieces[i]) == Some(r.value[i])
    ensures r.Err? ==>
      exists i :: && 0 <= i < |pieces| && float(pieces[i]).None?
                  && r.error == InvalidNumber(pieces[i])
                  && forall j :: 0 <= j < i ==> float(pieces[j]).Some?
  {
    if |pieces| == 0 then Ok([])
    else match float(pieces[0])
      case None => Err(InvalidNumber(pieces[0]))
      case Some(x) =>
        var rest :- ParseNumbers(pieces[1..], float);
        Ok([x] + rest)
  }

  /** `_format_bbox`: unset stays unset; a string is split on `,` and each
      piece converted; a sequence is kept. The number of coordinates is not
      checked here. */
  function FormatBbox(value: BboxInput, float: string -> Option<real>): (r: Result<Option<seq<real>>, Error>)
    ensures value.NoBbox? ==> r == Ok(None)
    ensures value.BboxItems? ==> r == Ok(Some(value.coords))
    ensures value.BboxText? ==>
      var pieces := Split(value.text, ',');
      && (r.Ok? <==> forall i :: 0 <= i < |pieces| ==> float(pieces[i]).Some?)
      && (r.Ok? ==>
            && r.value.Some?
            && |r.value.value| == |pieces| == Occurrences(value.text, ',') + 1
            && forall i :: 0 <= i < |pieces| ==> float(pieces[i]) == Some(r.value.value[i]))
  {
    match value
    case NoBbox => Ok(None)
    case BboxText(s) =>
      SplitCount(s, ',');
      var coords :- ParseNumbers(Split(s, ','), float);
      Ok(Some(coords))
    case BboxItems(coords) => Ok(Some(coords))
  }

  // _format_intersects

  /** `_format_intersects`: a dictionary or a geo-interface dictionary is
      copied, text must decode to a JSON object, any other type is refused. */
  function FormatIntersects(value: IntersectsInput, json: string -> Option<Json>): (r: Result<Option<Object>, Error>)
    ensures value.NoIntersects? ==> r == Ok(None)
    ensures value.IntersectsDict? ==> r == Ok(Some(value.dict))
    ensures value.IntersectsGeoInterface? ==> r == Ok(Some(value.geoInterface))
    ensures value.IntersectsText? ==>
      (r.Ok? <==> json(value.text).Some? && json(value.text).value.JObject?)
    ensures value.IntersectsText? && r.Ok? ==> r == Ok(Some(json(value.text).value.fields))
    ensures value.IntersectsOther? ==> r == Err(UnsupportedIntersects)
  {
    match value
    case NoIntersects => Ok(None)
    case IntersectsDict(d) => Ok(Some(d))
    case IntersectsText(t) =>
      (match json(t)
       case Some(JObject(fields)) => Ok(Some(fields))
       case _ => Err(InvalidJson(t)))
    case IntersectsGeoInterface(g) => Ok(Some(g))
    case IntersectsOther(_) => Err(UnsupportedIntersects)
  }

  /** GeoJSON text and the dictionary it decodes to give the same geometry. */
  lemma IntersectsTextMatchesDict(text: string, json: string -> Option<Json>)
    requires json(text).Some? && json(text).value.JObject?
    ensures FormatIntersects(IntersectsText(text), json)
         == FormatIntersects(IntersectsDict(json(text).value.fields), json)
  {
  }

  // _format_datetime

  /** The non-`None` entries of a sequence, in order. */
  function Present(items: seq<Option<string>>): (r: seq<string>)
    ensures |r| <= |items|
    ensures forall s :: s in r <==> Some(s) in items
  {
    if |items| == 0 then []
    else match items[0]
      case None => Present(items[1..])
      case Some(s) => [s] + Present(items[1..])
  }

  /** Dropping the `None` entries works entry by entry: a string entry
      stays, in place, and a `None` entry vanishes. With these three facts
      `Present` is the comprehension, order and count included. */
  lemma {:induction false} PresentAppend(a: seq<Option<string>>, b: seq<Option<string>>)
    ensures Present(a + b) == Present(a) + Present(b)
    ensures forall s :: Present([Some(s)]) == [s]
    ensures Present([None]) == []
  {
    if |a| > 0 {
      PresentAppend(a[1..], b);
      assert (a + b)[1..] == a[1..] + b;
    } else {
      assert a + b == b;
    }
  }

  /** Every string entry is kept: there are as many components as entries
      that are not `None`. */
  lemma {:induction false} PresentCount(items: seq<Option<string>>)
    ensures |Present(items)| == |items| - multiset(items)[None]
  {
    if |items| > 0 {
      PresentCount(items[1..]);
      assert items == [items[0]] + items[1..];
      assert multiset(items) == multiset{items[0]} + multiset(items[1..]);
    }
  }

  /** The components `_format_datetime` counts: the `/`-pieces of a string,
      or the non-`None` entries of a sequence. */
  function Components(value: DatetimeInput): seq<string>
    requires value.DatetimeText? || value.DatetimeItems?
  {
    if value.DatetimeText? then Split(value.text, '/') else Present(value.items)
  }

  /** The start of the left side of a range: unset for `..`, else the first
      instant of the period. */
  function RangeStart(c: string): (r: Result<Option<Instant>, Error>)
  {
    if c == ".." then Ok(None)
    else match ParsePeriod(c)
      case None => Err(InvalidPeriod(c))
      case Some(p) => Ok(Some(PeriodStart(p)))
  }

  /** The end of the right side of a range: unset for `..`, else the last
      instant of the period. */
  function RangeEnd(c: string): (r: Result<Option<Instant>, Error>)
  {
    if c == ".." then Ok(None)
    else match ParsePeriod(c)
      case None => Err(InvalidPeriod(c))
      case Some(p) => Ok(Some(PeriodEnd(p)))
  }

  /** The dispatch of `_format_datetime` on the number of components. */
  function Expand(cs: seq<string>): Result<Option<Interval>, Error>
  {
    if |cs| == 0 then Ok(None)
    else if |cs| == 1 then
      match ParsePeriod(cs[0])
      case None => Err(InvalidPeriod(cs[0]))
      case Some(p) => Ok(Some(Interval(Some(PeriodStart(p)), Some(PeriodEnd(p)))))
    else if |cs| == 2 then
      var start :- RangeStart(cs[0]);
      var end :- RangeEnd(cs[1]);
      Ok(Some(Interval(start, end)))
    else Err(TooManyDatetimeComponents(|cs|))
  }

  /** `_format_datetime`: unset stays unset; otherwise the components are
      counted. None gives no constraint, one gives the span of its period,
      two give the start of the left period and the end of the right one
      (`..` leaving a side open), and more are refused with their count. */
  function FormatDatetime(value: DatetimeInput): (r: Result<Option<Interval>, Error>)
    ensures value.NoDatetime? ==> r == Ok(None)
    ensures value.DatetimeScalar? ==> r == Err(NotIterable)
    ensures value.DatetimeText? || value.DatetimeItems? ==>
      var cs := Components(value);
      && (r == Ok(None) <==> |cs| == 0)
      && (|cs| >= 3 ==> r == Err(TooManyDatetimeComponents(|cs|)))
      && (|cs| == 1 ==>
            && (r.Ok? <==> ParsePeriod(cs[0]).Some?)
            && (r.Ok? ==>
                  && r.value.Some?
                  && r.value.value.start == Some(PeriodStart(ParsePeriod(cs[0]).value))
                  && r.value.value.end == Some(PeriodEnd(ParsePeriod(cs[0]).value))))
      && (|cs| == 2 ==>
            && (r.Ok? <==>
                  (cs[0] == ".." || ParsePeriod(cs[0]).Some?) && (cs[1] == ".." || ParsePeriod(cs[1]).Some?))
            && (r.Ok? ==>
                  && r.value.Some?
                  && (r.value.value.start.None? <==> cs[0] == "..")
                  && (r.value.value.end.None? <==> cs[1] == "..")
                  && (cs[0] != ".." ==> r.value.value.start == Some(PeriodStart(ParsePeriod(cs[0]).value)))
                  && (cs[1] != ".." ==> r.value.value.end == Some(PeriodEnd(ParsePeriod(cs[1]).value)))))
  {
    match value
    case NoDatetime => Ok(None)
    case DatetimeScalar => Err(NotIterable)
    case DatetimeText(s) => Expand(Split(s, '/'))
    case DatetimeItems(items) => Expand(Present(items))
  }

  /** A single period selects exactly the instants of that period: the
      window's start is no later than the instant and its end no earlier
      precisely when the instant falls in the year, month or day written. */
  lemma SinglePeriodWindow(value: DatetimeInput, t: Instant)
    requires value.DatetimeText? || value.DatetimeItems?
    requires |Components(value)| == 1 && FormatDatetime(value).Ok?
    requires ValidInstant(t)
    ensures var w := FormatDatetime(value).value.value;
      var p := ParsePeriod(Components(value)[0]).value;
      w.start.Some? && w.end.Some?
      && NotAfter(w.start.value, w.end.value)
      && (InPeriod(t, p) <==> NotAfter(w.start.value, t) && NotAfter(t, w.end.value))
  {
    var p := ParsePeriod(Components(value)[0]).value;
    PeriodBounds(p, t);
    PeriodStartNotAfterEnd(p);
  }

  /** A `None` entry anywhere in a datetime sequence changes nothing, so
      `[s, None]` and `[None, s]` both normalise as `[s]`. */
  lemma DatetimeNoneIgnored(a: seq<Option<string>>, b: seq<Option<string>>)
    ensures FormatDatetime(DatetimeItems(a + [None] + b)) == FormatDatetime(DatetimeItems(a + b))
  {
    PresentAppend(a, [None]);
    PresentAppend(a + [None], b);
    PresentAppend(a, b);
  }

  // ItemSearch.__init__

  /** `m` with `key` bound to `v` when `v` is set, and unchanged otherwise. */
  function PutIfSet<T>(m: map<string, Value>, key: string, v: Option<T>, wrap: T -> Value): (r: map<string, Value>)
    ensures key in r <==> key in m || v.Some?
    ensures v.Some? ==> r[key] == wrap(v.value)
    ensures v.None? ==> r == m
    ensures forall k :: k != key ==> (k in r <==> k in m) && (k in m ==> r[k] == m[k])
  {
    if v.Some? then m[key := wrap(v.value)] else m
  }

  /** The comprehension `{k: v for k, v in params.items() if v is not None}`
      over the seven normalised values. Which keys it holds is stated by the
      three lemmas that follow. */
  function ParameterMap(bbox: Option<seq<real>>, datetime: Option<Interval>, ids: Option<seq<string>>,
                        collections: Option<seq<string>>, intersects: Option<Object>,
                        filter: Option<Filter>, lang: Option<string>): (m: map<string, Value>)
    ensures WellTyped(m)
  {
    var m0: map<string, Value> := map[];
    var m1 := PutIfSet(m0, BboxKey, bbox, c => BboxValue(c));
    var m2 := PutIfSet(m1, DatetimeKey, datetime, w => DatetimeValue(w));
    var m3 := PutIfSet(m2, IdsKey, ids, n => NamesValue(n));
    var m4 := PutIfSet(m3, CollectionsKey, collections, n => NamesValue(n));
    var m5 := PutIfSet(m4, IntersectsKey, intersects, g => GeometryValue(g));
    var m6 := PutIfSet(m5, FilterKey, filter, f => FilterValue(f));
    PutIfSet(m6, FilterLangKey, lang, t => LanguageValue(t))
  }

  /** The spatial keys are present exactly when set, and then hold their values. */
  lemma ParameterMapSpatial(bbox: Option<seq<real>>, datetime: Option<Interval>, ids: Option<seq<string>>,
                            collections: Option<seq<string>>, intersects: Option<Object>,
                            filter: Option<Filter>, lang: Option<string>)
    ensures var m := ParameterMap(bbox, datetime, ids, collections, intersects, filter, lang);
      && (BboxKey in m <==> bbox.Some?) && (bbox.Some? ==> m[BboxKey] == BboxValue(bbox.value))
      && (IntersectsKey in m <==> intersects.Some?)
      && (intersects.Some? ==> m[IntersectsKey] == GeometryValue(intersects.value))
  {
  }

  /** The datetime, ids and collections keys are present exactly when set,
      and then hold their values. */
  lemma ParameterMapSelectors(bbox: Option<seq<real>>, datetime: Option<Interval>, ids: Option<seq<string>>,
                              collections: Option<seq<string>>, intersects: Option<Object>,
                              filter: Option<Filter>, lang: Option<string>)
    ensures var m := ParameterMap(bbox, datetime, ids, collections, intersects, filter, lang);
      && (DatetimeKey in m <==> datetime.Some?)
      && (datetime.Some? ==> m[DatetimeKey] == DatetimeValue(datetime.value))
      && (IdsKey in m <==> ids.Some?) && (ids.Some? ==> m[IdsKey] == NamesValue(ids.value))
      && (CollectionsKey in m <==> collections.Some?)
      && (collections.Some? ==> m[CollectionsKey] == NamesValue(collections.value))
  {
  }

  /** The filter keys are present exactly when set, and then hold their values. */
  lemma ParameterMapFilter(bbox: Option<seq<real>>, datetime: Option<Interval>, ids: Option<seq<string>>,
                           collections: Option<seq<string>>, intersects: Option<Object>,
                           filter: Option<Filter>, lang: Option<string>)
    ensures var m := ParameterMap(bbox, datetime, ids, collections, intersects, filter, lang);
      && (FilterKey in m <==> filter.Some?) && (filter.Some? ==> m[FilterKey] == FilterValue(filter.value))
      && (FilterLangKey in m <==> lang.Some?) && (lang.Some? ==> m[FilterLangKey] == LanguageValue(lang.value))
  {
  }

  /** `ItemSearch.__init__`: the normalisers run in the constructor's order
      (bbox, datetime, ids, collections, intersects, filter-lang), the first
      exception aborts construction, and the map keeps the set values only. */
  function NormalizeParameters(raw: RawParameters, readers: Readers): (r: Result<map<string, Value>, Error>)
    ensures r.Ok? <==>
      FormatBbox(raw.bbox, readers.float).Ok? && FormatDatetime(raw.datetime).Ok?
      && FormatIntersects(raw.intersects, readers.json).Ok?
    ensures FormatBbox(raw.bbox, readers.float).Err? ==>
      r == Err(FormatBbox(raw.bbox, readers.float).error)
    ensures FormatBbox(raw.bbox, readers.float).Ok? && FormatDatetime(raw.datetime).Err? ==>
      r == Err(FormatDatetime(raw.datetime).error)
    ensures (FormatBbox(raw.bbox, readers.float).Ok? && FormatDatetime(raw.datetime).Ok?
             && FormatIntersects(raw.intersects, readers.json).Err?) ==>
      r == Err(FormatIntersects(raw.intersects, readers.json).error)
    ensures r.Ok? ==> r.value == ParameterMap(
      FormatBbox(raw.bbox, readers.float).value, FormatDatetime(raw.datetime).value,
      FormatListlike(raw.ids), FormatListlike(raw.collections),
      FormatIntersects(raw.intersects, readers.json).value,
      raw.filter, FormatFilterLang(raw.filter, raw.filterLang))
  {
    var bbox :- FormatBbox(raw.bbox, readers.float);
    var datetime :- FormatDatetime(raw.datetime);
    var ids := FormatListlike(raw.ids);
    var collections := FormatListlike(raw.collections);
    var intersects :- FormatIntersects(raw.intersects, readers.json);
    var lang := FormatFilterLang(raw.filter, raw.filterLang);
    Ok(ParameterMap(bbox, datetime, ids, collections, intersects, raw.filter, lang))
  }
}
