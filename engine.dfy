/** The query evaluator `_search` and the one-pass meaning of a query.
    Geometry (shapely), CQL2 parsing and evaluation (pygeofilter) are opaque
    collaborators passed in an `Env`. */
module Engine {
  import opened Wrappers
  import opened Text
  import opened Calendar
  import opened Query
  import opened Normalize

  /** A geometry: a rectangle built from a bbox, or a shape built from a
      GeoJSON dictionary. */
  datatype Shape =
    | Box(minX: real, minY: real, maxX: real, maxY: real)
    | GeoShape(geometry: Object)

  /** One row of the item table. */
  datatype Record = Record(
    id: string,
    collection: string,
    geometry: Shape,
    datetime: Instant,
    attributes: Object)

  /** The CQL2 parsers named by the attributes of the `Parsers` class. */
  datatype Language = Cql2Json | Cql2Text

  /** A parsed CQL2 expression tree; its structure belongs to the parser. */
  type Ast = Json

  /** The collaborators `_search` calls: `geometry.intersects`,
      `shapely.geometry.shape` (`None` when it raises), the parser of a
      language (`None` when it rejects the filter), whether every attribute a
      parsed filter reads is a column of the table (`to_filter` raises
      otherwise, however many rows remain), and the per-row verdict of
      `to_filter` (an item lacking a property holds a null there, on which
      the filter decides like on any other value). */
  datatype Env = Env(
    intersects: (Shape, Shape) -> bool,
    shape: Object -> Option<Shape>,
    parse: (Language, Filter) -> Option<Ast>,
    resolves: Ast -> bool,
    evaluate: (Ast, Record) -> bool)

  // Boolean-mask selection

  /** `frame[mask]` for a mask computed row by row: the rows satisfying `p`,
      in their original order. */
  function Keep(s: seq<Record>, p: Record -> bool): (r: seq<Record>)
    ensures |r| <= |s|
  {
    if |s| == 0 then []
    else (if p(s[0]) then [s[0]] else []) + Keep(s[1..], p)
  }

  /** Selection keeps exactly the rows that satisfy the predicate. */
  lemma {:induction false} KeepMembers(s: seq<Record>, p: Record -> bool)
    ensures forall x :: x in Keep(s, p) <==> x in s && p(x)
  {
    if |s| > 0 {
      KeepMembers(s[1..], p);
      assert s == [s[0]] + s[1..];
    }
  }

  /** `a` is `b` with some elements removed, the rest in the same order. */
  predicate IsSubsequence(a: seq<Record>, b: seq<Record>)
    decreases |b|
  {
    if |a| == 0 then true
    else if |b| == 0 then false
    else (a[0] == b[0] && IsSubsequence(a[1..], b[1..])) || IsSubsequence(a, b[1..])
  }

  /** Selection keeps the order of the rows it keeps. */
  lemma {:induction false} KeepIsSubsequence(s: seq<Record>, p: Record -> bool)
    ensures IsSubsequence(Keep(s, p), s)
  {
    if |s| > 0 {
      KeepIsSubsequence(s[1..], p);
      if p(s[0]) {
        assert Keep(s, p) == [s[0]] + Keep(s[1..], p);
        assert Keep(s, p)[1..] == Keep(s[1..], p);
      } else {
        assert Keep(s, p) == Keep(s[1..], p);
      }
    }
  }

  /** Selection keeps every copy of a row that satisfies the predicate and no
      copy of one that does not. */
  lemma {:induction false} KeepMultiplicity(s: seq<Record>, p: Record -> bool, x: Record)
    ensures multiset(Keep(s, p))[x] == if p(x) then multiset(s)[x] else 0
  {
    if |s| > 0 {
      KeepMultiplicity(s[1..], p, x);
      assert s == [s[0]] + s[1..];
      assert multiset(s) == multiset{s[0]} + multiset(s[1..]);
      var head: seq := if p(s[0]) then [s[0]] else [];
      assert multiset(Keep(s, p)) == multiset(head) + multiset(Keep(s[1..], p));
    }
  }

  /** The conjunction of two row predicates. */
  function Both(p: Record -> bool, q: Record -> bool): Record -> bool
  {
    x => p(x) && q(x)
  }

  /** Selecting by `p` and then by `q` is selecting once by their conjunction. */
  lemma {:induction false} KeepKeep(s: seq<Record>, p: Record -> bool, q: Record -> bool)
    ensures Keep(Keep(s, p), q) == Keep(s, Both(p, q))
  {
    if |s| > 0 {
      KeepKeep(s[1..], p, q);
      var k := Keep(s, p);
      if p(s[0]) {
        assert k == [s[0]] + Keep(s[1..], p);
        assert k[0] == s[0] && k[1..] == Keep(s[1..], p);
      } else {
        assert k == Keep(s[1..], p);
      }
    }
  }

  /** Selections by two predicates commute. */
  lemma KeepCommutes(s: seq<Record>, p: Record -> bool, q: Record -> bool)
    ensures Keep(Keep(s, p), q) == Keep(Keep(s, q), p)
  {
    KeepKeep(s, p, q);
    KeepKeep(s, q, p);
    KeepCongruent(s, Both(p, q), Both(q, p));
  }

  /** Selection depends only on the predicate's verdicts on the rows. */
  lemma {:induction false} KeepCongruent(s: seq<Record>, p: Record -> bool, q: Record -> bool)
    requires forall x :: x in s ==> p(x) == q(x)
    ensures Keep(s, p) == Keep(s, q)
  {
    if |s| > 0 {
      KeepCongruent(s[1..], p, q);
    }
  }

  /** A predicate every row satisfies removes nothing. */
  lemma {:induction false} KeepEverything(s: seq<Record>, p: Record -> bool)
    requires forall x :: x in s ==> p(x)
    ensures Keep(s, p) == s
  {
    if |s| > 0 {
      KeepEverything(s[1..], p);
      assert s == [s[0]] + s[1..];
    }
  }

  // The filter-language lookup

  /** The parser attributes of the `Parsers` class, by name. (Functions
      assigned in an `Enum` body become plain class attributes, not members.) */
  const Parsers: map<string, Language> := map["cql2_json" := Cql2Json, "cql2_text" := Cql2Text]

  /** `getattr(Parsers, tag.replace("-", "_"))`, which raises for a tag that
      names no parser. */
  function ParserFor(tag: string): (r: Result<Language, Error>)
    ensures r.Err? ==> r.error == UnsupportedFilterLanguage(tag)
  {
    var name := Replace(tag, '-', '_');
    if name in Parsers then Ok(Parsers[name]) else Err(UnsupportedFilterLanguage(tag))
  }

  /** The spellings `Replace(_, '-', '_')` sends to a name whose only
      underscore is at position `k`: the name itself and the name with a
      hyphen there. */
  lemma HyphenSpellings(tag: string, name: string, k: nat)
    requires k < |name| && name[k] == '_'
    requires forall i :: 0 <= i < |name| && i != k ==> name[i] != '_' && name[i] != '-'
    ensures Replace(tag, '-', '_') == name <==> tag == name || tag == name[k := '-']
  {
    var spelled := Replace(tag, '-', '_');
    if spelled == name {
      assert |tag| == |name|;
      forall i | 0 <= i < |name| && i != k ensures tag[i] == name[i] {
        assert spelled[i] == (if tag[i] == '-' then '_' else tag[i]);
      }
      assert tag[k] == '-' || tag[k] == '_' by {
        assert spelled[k] == (if tag[k] == '-' then '_' else tag[k]);
      }
      if tag[k] == '_' {
        assert tag == name;
      } else {
        assert tag == name[k := '-'];
      }
    }
  }

  /** Exactly four tags resolve: each parser's name written with a hyphen or
      with an underscore. */
  lemma ParserForAccepts(tag: string)
    ensures ParserFor(tag) == Ok(Cql2Json) <==> tag == "cql2-json" || tag == "cql2_json"
    ensures ParserFor(tag) == Ok(Cql2Text) <==> tag == "cql2-text" || tag == "cql2_text"
    ensures ParserFor(tag).Ok? <==> tag == "cql2-json" || tag == "cql2_json" || tag == "cql2-text" || tag == "cql2_text"
  {
    HyphenSpellings(tag, "cql2_json", 4);
    HyphenSpellings(tag, "cql2_text", 4);
    assert "cql2_json"[4 := '-'] == "cql2-json";
    assert "cql2_text"[4 := '-'] == "cql2-text";
  }

  /** A language inferred from a text or dictionary filter always names a
      parser, of the matching syntax; for a filter of any other type no
      language is inferred. */
  lemma InferredLanguageResolves(filter: Filter)
    ensures filter.TextFilter? ==> ParserFor(FormatFilterLang(Some(filter), None).value) == Ok(Cql2Text)
    ensures filter.DictFilter? ==> ParserFor(FormatFilterLang(Some(filter), None).value) == Ok(Cql2Json)
    ensures filter.OtherFilter? ==> FormatFilterLang(Some(filter), None).None?
  {
    match filter
    case TextFilter(_) => ParserForAccepts("cql2-text");
    case DictFilter(_) => ParserForAccepts("cql2-json");
    case OtherFilter(_) =>
  }

  // The evaluation plan

  /** `shapely.geometry.box(*bbox)`: `box(minx, miny, maxx, maxy, ccw=True)`
      takes four coordinates and an optional orientation flag, which does not
      change the rectangle; any other count raises. */
  function BoxOf(coords: seq<real>): (r: Result<Shape, Error>)
    ensures r.Ok? <==> |coords| == 4 || |coords| == 5
    ensures r.Ok? ==> r.value == Box(coords[0], coords[1], coords[2], coords[3])
    ensures r.Err? ==> r.error == BoxArity(|coords|)
  {
    if |coords| == 4 || |coords| == 5 then Ok(Box(coords[0], coords[1], coords[2], coords[3]))
    else Err(BoxArity(|coords|))
  }

  /** What each present parameter resolves to before any row is looked at. */
  datatype Plan = Plan(
    ids: Option<seq<string>>,
    collections: Option<seq<string>>,
    box: Option<Shape>,
    region: Option<Shape>,
    filter: Option<Ast>,
    window: Option<Interval>)

  function CompileBox(params: map<string, Value>): Result<Option<Shape>, Error>
    requires WellTyped(params)
  {
    if BboxKey in params then
      var b :- BoxOf(params[BboxKey].coords);
      Ok(Some(b))
    else Ok(None)
  }

  function CompileRegion(params: map<string, Value>, env: Env): Result<Option<Shape>, Error>
    requires WellTyped(params)
  {
    if IntersectsKey in params then
      match env.shape(params[IntersectsKey].geometry)
      case None => Err(InvalidGeometry)
      case Some(g) => Ok(Some(g))
    else Ok(None)
  }

  function CompileFilter(params: map<string, Value>, env: Env): Result<Option<Ast>, Error>
    requires WellTyped(params)
  {
    if FilterKey in params then
      if FilterLangKey !in params then Err(MissingFilterLanguage)
      else
        var lang :- ParserFor(params[FilterLangKey].tag);
        match env.parse(lang, params[FilterKey].filter)
        case None => Err(InvalidFilter)
        case Some(ast) => if env.resolves(ast) then Ok(Some(ast)) else Err(UnresolvedAttribute)
    else Ok(None)
  }

  function Names(params: map<string, Value>, key: string): Option<seq<string>>
    requires WellTyped(params) && (key == IdsKey || key == CollectionsKey)
  {
    if key in params then Some(params[key].names) else None
  }

  /** Resolves the parameters in the order `_search` uses them: the bbox
      rectangle, the intersects shape, then the filter's language and parse
      tree. The first failure is the one reported. */
  function Compile(params: map<string, Value>, env: Env): (r: Result<Plan, Error>)
    requires WellTyped(params)
    ensures CompileBox(params).Err? ==> r == Err(CompileBox(params).error)
    ensures CompileBox(params).Ok? && CompileRegion(params, env).Err? ==> r == Err(CompileRegion(params, env).error)
    ensures CompileBox(params).Ok? && CompileRegion(params, env).Ok? && CompileFilter(params, env).Err? ==>
      r == Err(CompileFilter(params, env).error)
    ensures r.Ok? <==> CompileBox(params).Ok? && CompileRegion(params, env).Ok? && CompileFilter(params, env).Ok?
    ensures r.Ok? ==>
      && (r.value.ids.Some? <==> IdsKey in params)
      && (IdsKey in params ==> r.value.ids.value == params[IdsKey].names)
      && (r.value.collections.Some? <==> CollectionsKey in params)
      && (CollectionsKey in params ==> r.value.collections.value == params[CollectionsKey].names)
      && (r.value.box.Some? <==> BboxKey in params)
      && r.value.box == CompileBox(params).value
      && (r.value.region.Some? <==> IntersectsKey in params)
      && r.value.region == CompileRegion(params, env).value
      && (r.value.filter.Some? <==> FilterKey in params)
      && r.value.filter == CompileFilter(params, env).value
      && (r.value.window.Some? <==> DatetimeKey in params)
      && (DatetimeKey in params ==> r.value.window.value == params[DatetimeKey].interval)
  {
    var box :- CompileBox(params);
    var region :- CompileRegion(params, env);
    var filter :- CompileFilter(params, env);
    var window := if DatetimeKey in params then Some(params[DatetimeKey].interval) else None;
    Ok(Plan(Names(params, IdsKey), Names(params, CollectionsKey), box, region, filter, window))
  }

  predicate Listed(names: Option<seq<string>>, name: string) {
    names.None? || name in names.value
  }

  predicate Touches(env: Env, shape: Option<Shape>, r: Record) {
    shape.None? || env.intersects(r.geometry, shape.value)
  }

  /** The datetime pass: no earlier than a set start, no later than a set end. */
  predicate InWindow(window: Option<Interval>, t: Instant) {
    window.None? ||
    ((window.value.start.None? || NotAfter(window.value.start.value, t)) &&
     (window.value.end.None? || NotAfter(t, window.value.end.value)))
  }

  /** The predicates of the passes that precede the filter pass. */
  predicate Prefilter(env: Env, plan: Plan, r: Record) {
    Listed(plan.ids, r.id) && Listed(plan.collections, r.collection)
    && Touches(env, plan.box, r) && Touches(env, plan.region, r)
  }

  predicate Accepted(env: Env, plan: Plan, r: Record) {
    plan.filter.None? || env.evaluate(plan.filter.value, r)
  }

  /** All active predicates at once. */
  predicate Matches(env: Env, plan: Plan, r: Record) {
    Prefilter(env, plan, r) && Accepted(env, plan, r) && InWindow(plan.window, r.datetime)
  }

  function MatchTest(env: Env, plan: Plan): Record -> bool
  {
    r => Matches(env, plan, r)
  }

  /** The meaning of `_search` in one pass: the rows matching the conjunction
      of the active predicates, in table order, unless a parameter cannot be
      resolved. */
  function Evaluate(rows: seq<Record>, params: map<string, Value>, env: Env): (res: Result<seq<Record>, Error>)
    requires WellTyped(params)
    ensures res.Ok? <==> Compile(params, env).Ok?
    ensures res.Err? ==> res.error == Compile(params, env).error
    ensures res.Ok? ==> IsSubsequence(res.value, rows)
    ensures res.Ok? ==> forall r :: r in res.value <==> r in rows && Matches(env, Compile(params, env).value, r)
    ensures res.Ok? ==> forall r :: (multiset(res.value)[r] ==
      if Matches(env, Compile(params, env).value, r) then multiset(rows)[r] else 0)
  {
    var plan :- Compile(params, env);
    KeepIsSubsequence(rows, MatchTest(env, plan));
    KeepMembers(rows, MatchTest(env, plan));
    assert forall r :: multiset(Keep(rows, MatchTest(env, plan)))[r] ==
      (if Matches(env, plan, r) then multiset(rows)[r] else 0) by {
      forall r
        ensures multiset(Keep(rows, MatchTest(env, plan)))[r] ==
          (if Matches(env, plan, r) then multiset(rows)[r] else 0)
      {
        KeepMultiplicity(rows, MatchTest(env, plan), r);
      }
    }
    Ok(Keep(rows, MatchTest(env, plan)))
  }

  /** A row is matched exactly when, for every parameter present, it passes
      that parameter's test; a parameter that is absent tests nothing. */
  lemma MatchedRowsSatisfyEveryParameter(rows: seq<Record>, params: map<string, Value>, env: Env, r: Record)
    requires WellTyped(params) && Evaluate(rows, params, env).Ok?
    ensures BboxKey in params ==> BoxOf(params[BboxKey].coords).Ok?
    ensures IntersectsKey in params ==> env.shape(params[IntersectsKey].geometry).Some?
    ensures FilterKey in params ==>
      && FilterLangKey in params && ParserFor(params[FilterLangKey].tag).Ok?
      && env.parse(ParserFor(params[FilterLangKey].tag).value, params[FilterKey].filter).Some?
    ensures
      r in Evaluate(rows, params, env).value <==>
        && r in rows
        && (IdsKey in params ==> r.id in params[IdsKey].names)
        && (CollectionsKey in params ==> r.collection in params[CollectionsKey].names)
        && (BboxKey in params ==> env.intersects(r.geometry, BoxOf(params[BboxKey].coords).value))
        && (IntersectsKey in params ==> env.intersects(r.geometry, env.shape(params[IntersectsKey].geometry).value))
        && (FilterKey in params ==>
              env.evaluate(env.parse(ParserFor(params[FilterLangKey].tag).value, params[FilterKey].filter).value, r))
        && (DatetimeKey in params && params[DatetimeKey].interval.start.Some? ==>
              NotAfter(params[DatetimeKey].interval.start.value, r.datetime))
        && (DatetimeKey in params && params[DatetimeKey].interval.end.Some? ==>
              NotAfter(r.datetime, params[DatetimeKey].interval.end.value))
  {
    var plan := Compile(params, env).value;
    assert r in Evaluate(rows, params, env).value <==> r in rows && Matches(env, plan, r);
    assert Prefilter(env, plan, r) <==>
      && Listed(plan.ids, r.id) && Listed(plan.collections, r.collection)
      && Touches(env, plan.box, r) && Touches(env, plan.region, r);
  }

  /** With no parameters every row matches. */
  lemma NoParametersMatchEverything(rows: seq<Record>, env: Env)
    ensures Evaluate(rows, map[], env) == Ok(rows)
  {
    var plan := Compile(map[], env).value;
    KeepEverything(rows, MatchTest(env, plan));
  }

  /** A filter whose language could not be inferred fails the search with the
      missing "filter-lang" key, once the spatial parameters resolve. */
  lemma FilterWithoutLanguageFails(rows: seq<Record>, params: map<string, Value>, env: Env)
    requires WellTyped(params) && FilterKey in params && FilterLangKey !in params
    requires CompileBox(params).Ok? && CompileRegion(params, env).Ok?
    ensures Evaluate(rows, params, env) == Err(MissingFilterLanguage)
  {
  }

  /** Once the spatial parameters resolve, the filter stage fails in the
      order `_search` meets its steps: an unknown language tag, a filter the
      parser rejects, then a filter reading a column the table lacks. */
  lemma FilterStageErrors(rows: seq<Record>, params: map<string, Value>, env: Env)
    requires WellTyped(params) && FilterKey in params && FilterLangKey in params
    requires CompileBox(params).Ok? && CompileRegion(params, env).Ok?
    ensures var tag := params[FilterLangKey].tag;
      ParserFor(tag).Err? ==> Evaluate(rows, params, env) == Err(UnsupportedFilterLanguage(tag))
    ensures var lang := ParserFor(params[FilterLangKey].tag);
      lang.Ok? && env.parse(lang.value, params[FilterKey].filter).None? ==>
        Evaluate(rows, params, env) == Err(InvalidFilter)
    ensures var lang := ParserFor(params[FilterLangKey].tag);
      lang.Ok? && env.parse(lang.value, params[FilterKey].filter).Some? ==>
        (Evaluate(rows, params, env).Err? <==> !env.resolves(env.parse(lang.value, params[FilterKey].filter).value))
    ensures var lang := ParserFor(params[FilterLangKey].tag);
      lang.Ok? && env.parse(lang.value, params[FilterKey].filter).Some? && Evaluate(rows, params, env).Err? ==>
        Evaluate(rows, params, env) == Err(UnresolvedAttribute)
  {
  }

  // _search

  /** One pass: narrowing the rows that match `plan` by `pass` leaves the
      rows matching `next`, when `next` adds exactly `pass` to `plan`. */
  lemma NarrowPlan(rows: seq<Record>, env: Env, plan: Plan, pass: Record -> bool, next: Plan)
    requires forall r :: Matches(env, next, r) == (Matches(env, plan, r) && pass(r))
    ensures Keep(Keep(rows, MatchTest(env, plan)), pass) == Keep(rows, MatchTest(env, next))
  {
    KeepKeep(rows, MatchTest(env, plan), pass);
    KeepCongruent(rows, Both(MatchTest(env, plan), pass), MatchTest(env, next));
  }

  // The six passes of `_search`. Each takes the rows matching the
  // parameters resolved so far (`plan`) and returns those matching `plan`
  // with its own parameter added.

  /** `if "ids" in params`: keep the rows whose id is listed. */
  method IdsPass(subset: seq<Record>, params: map<string, Value>, ghost rows: seq<Record>, ghost env: Env, ghost plan: Plan)
    returns (narrowed: seq<Record>)
    requires WellTyped(params) && plan.ids.None?
    requires subset == Keep(rows, MatchTest(env, plan))
    ensures narrowed == Keep(rows, MatchTest(env, plan.(ids := Names(params, IdsKey))))
  {
    narrowed := subset;
    if IdsKey in params {
      var ids := params[IdsKey].names;
      var pass := (r: Record) => r.id in ids;
      NarrowPlan(rows, env, plan, pass, plan.(ids := Names(params, IdsKey)));
      narrowed := Keep(subset, pass);
    }
  }

  /** `if "collections" in params`: keep the rows whose collection is listed. */
  method CollectionsPass(subset: seq<Record>, params: map<string, Value>, ghost rows: seq<Record>, ghost env: Env, ghost plan: Plan)
    returns (narrowed: seq<Record>)
    requires WellTyped(params) && plan.collections.None?
    requires subset == Keep(rows, MatchTest(env, plan))
    ensures narrowed == Keep(rows, MatchTest(env, plan.(collections := Names(params, CollectionsKey))))
  {
    narrowed := subset;
    if CollectionsKey in params {
      var collections := params[CollectionsKey].names;
      var pass := (r: Record) => r.collection in collections;
      NarrowPlan(rows, env, plan, pass, plan.(collections := Names(params, CollectionsKey)));
      narrowed := Keep(subset, pass);
    }
  }

  /** `if "bbox" in params`: keep the rows whose geometry meets the box. */
  method BboxPass(subset: seq<Record>, params: map<string, Value>, env: Env, ghost rows: seq<Record>, ghost plan: Plan)
    returns (res: Result<seq<Record>, Error>)
    requires WellTyped(params) && plan.box.None?
    requires subset == Keep(rows, MatchTest(env, plan))
    ensures CompileBox(params).Err? ==> res == Err(CompileBox(params).error)
    ensures CompileBox(params).Ok? ==> res == Ok(Keep(rows, MatchTest(env, plan.(box := CompileBox(params).value))))
  {
    if BboxKey in params {
      var box :- BoxOf(params[BboxKey].coords);
      var pass := (r: Record) => env.intersects(r.geometry, box);
      NarrowPlan(rows, env, plan, pass, plan.(box := Some(box)));
      return Ok(Keep(subset, pass));
    }
    return Ok(subset);
  }

  /** `if "intersects" in params`: keep the rows whose geometry meets the shape. */
  method IntersectsPass(subset: seq<Record>, params: map<string, Value>, env: Env, ghost rows: seq<Record>, ghost plan: Plan)
    returns (res: Result<seq<Record>, Error>)
    requires WellTyped(params) && plan.region.None?
    requires subset == Keep(rows, MatchTest(env, plan))
    ensures CompileRegion(params, env).Err? ==> res == Err(CompileRegion(params, env).error)
    ensures CompileRegion(params, env).Ok? ==>
      res == Ok(Keep(rows, MatchTest(env, plan.(region := CompileRegion(params, env).value))))
  {
    if IntersectsKey in params {
      var shape := env.shape(params[IntersectsKey].geometry);
      if shape.None? {
        return Err(InvalidGeometry);
      }
      var region := shape.value;
      var pass := (r: Record) => env.intersects(r.geometry, region);
      NarrowPlan(rows, env, plan, pass, plan.(region := Some(region)));
      return Ok(Keep(subset, pass));
    }
    return Ok(subset);
  }

  /** `if "filter" in params`: look up the parser, parse the filter, fail
      when it reads a column the table lacks, and keep the rows it accepts. */
  method FilterPass(subset: seq<Record>, params: map<string, Value>, env: Env, ghost rows: seq<Record>, ghost plan: Plan)
    returns (res: Result<seq<Record>, Error>)
    requires WellTyped(params) && plan.filter.None?
    requires subset == Keep(rows, MatchTest(env, plan))
    ensures CompileFilter(params, env).Err? ==> res == Err(CompileFilter(params, env).error)
    ensures CompileFilter(params, env).Ok? ==>
      res == Ok(Keep(rows, MatchTest(env, plan.(filter := CompileFilter(params, env).value))))
  {
    if FilterKey in params {
      if FilterLangKey !in params {
        return Err(MissingFilterLanguage);
      }
      var lang :- ParserFor(params[FilterLangKey].tag);
      var ast := env.parse(lang, params[FilterKey].filter);
      if ast.None? {
        return Err(InvalidFilter);
      }
      if !env.resolves(ast.value) {
        return Err(UnresolvedAttribute);
      }
      var pass := (r: Record) => env.evaluate(ast.value, r);
      NarrowPlan(rows, env, plan, pass, plan.(filter := ast));
      return Ok(Keep(subset, pass));
    }
    return Ok(subset);
  }

  /** `if "datetime" in params`: keep the rows no earlier than a set start,
      then those no later than a set end. */
  method DatetimePass(subset: seq<Record>, params: map<string, Value>, ghost rows: seq<Record>, ghost env: Env, ghost plan: Plan)
    returns (narrowed: seq<Record>)
    requires WellTyped(params) && plan.window.None?
    requires subset == Keep(rows, MatchTest(env, plan))
    ensures narrowed == Keep(rows, MatchTest(env,
      plan.(window := if DatetimeKey in params then Some(params[DatetimeKey].interval) else None)))
  {
    narrowed := subset;
    if DatetimeKey in params {
      var window := params[DatetimeKey].interval;
      ghost var half := plan.(window := Some(Interval(window.start, None)));
      if window.start.Some? {
        var start := window.start.value;
        var pass := (r: Record) => NotAfter(start, r.datetime);
        NarrowPlan(rows, env, plan, pass, half);
        narrowed := Keep(narrowed, pass);
      } else {
        assert forall r :: Matches(env, plan, r) == Matches(env, half, r);
        KeepCongruent(rows, MatchTest(env, plan), MatchTest(env, half));
      }
      if window.end.Some? {
        var end := window.end.value;
        var pass := (r: Record) => NotAfter(r.datetime, end);
        NarrowPlan(rows, env, half, pass, plan.(window := Some(window)));
        narrowed := Keep(narrowed, pass);
      }
    }
  }

  /** `_search`: narrows a copy of the table through the ids, collections,
      bbox, intersects, filter and datetime passes, each applied to the
      output of the one before. */
  method SearchRows(rows: seq<Record>, params: map<string, Value>, env: Env) returns (res: Result<seq<Record>, Error>)
    requires WellTyped(params)
    ensures res == Evaluate(rows, params, env)
  {
    // After each pass, `subset` holds the rows of `rows` matching the plan
    // of the parameters resolved so far: p0 (none), p1 (ids), ..., p6 (all).
    ghost var p0 := Plan(None, None, None, None, None, None);
    KeepEverything(rows, MatchTest(env, p0));
    var subset := rows;
    subset := IdsPass(subset, params, rows, env, p0);
    ghost var p1 := p0.(ids := Names(params, IdsKey));
    subset := CollectionsPass(subset, params, rows, env, p1);
    ghost var p2 := p1.(collections := Names(params, CollectionsKey));
    subset :- BboxPass(subset, params, env, rows, p2);
    ghost var p3 := p2.(box := CompileBox(params).value);
    subset :- IntersectsPass(subset, params, env, rows, p3);
    ghost var p4 := p3.(region := CompileRegion(params, env).value);
    subset :- FilterPass(subset, params, env, rows, p4);
    ghost var p5 := p4.(filter := CompileFilter(params, env).value);
    subset := DatetimePass(subset, params, rows, env, p5);
    ghost var p6 := p5.(window := if DatetimeKey in params then Some(params[DatetimeKey].interval) else None);
    assert Compile(params, env) == Ok(p6);
    return Ok(subset);
  }
}
