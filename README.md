# stac-static query engine, in Dafny

stac-static answers STAC API Item Search queries over a static catalog held
as a table of items (a GeoDataFrame). This project models its query core,
`stac_static/search.py`, which has two parts.

- **The parameter normalisers of `ItemSearch`.** These turn loosely typed
  keyword arguments into canonical values:
  - `ids` and `collections` become tuples of strings;
  - `bbox` becomes a tuple of numbers;
  - `intersects` becomes a GeoJSON dictionary;
  - `datetime` becomes a window of two optional UTC instants, expanded from
    `YYYY`, `YYYY-MM` or `YYYY-MM-DD` periods;
  - `filter-lang` is inferred when not given.

  The constructor keeps the values that are set in a parameter map.
- **The evaluator `_search` and the query object.** `_search` narrows a copy
  of the table through six passes in a fixed order: ids, collections, bbox,
  intersects, filter, datetime. `result` runs it and caches the table on
  the first access that succeeds (a failing access caches nothing), and `matched()` is the number of rows in that table.

Modules, one per file:

| file | module | contents |
|---|---|---|
| `wrappers.dfy` | `Wrappers` | `Option`, `Result` |
| `text.dfy` | `Text` | Python's `str.split`, `str.join` and `str.replace` on one character; decimal digit strings |
| `calendar.dfy` | `Calendar` | the Gregorian calendar, instants as a date plus nanoseconds of the day, periods with their first and last instants, the parser of the three date forms |
| `query.dfy` | `Query` | JSON values, filters, the normalised parameter values and keys, the error cases |
| `normalize.dfy` | `Normalize` | `_format_listlike`, `_format_filter_lang`, `_format_bbox`, `_format_intersects`, `_format_datetime`, the parameter map of `__init__` |
| `engine.dfy` | `Engine` | the table as a sequence of records, selection by a row predicate, the `Parsers` lookup, the one-pass meaning of a query (`Evaluate`) and the six-pass method `SearchRows` proved equal to it |
| `search.dfy` | `Search` | the `ItemSearch` class with its cached result, and `search()` |
| `cases.dfy` | `Cases` | the datetime and ids cases of `tests/test_search.py` |

Collaborators whose code is not part of this model are parameters:
- `float` on a string and `json.loads` are the `Readers` datatype;
- shapely's `intersects` and `shape`, the pygeofilter parsers, and
  `to_filter` are the `Env` datatype. `to_filter` is split in two: whether
  every attribute the filter reads is a column of the table, which does not
  depend on the rows left, and the verdict on one row.

A collaborator returns `None` where the original raises. An exception that
escapes a Python function is an `Err` of the `Query.Error` datatype.

Where the docstring and the code disagree, the model follows the code:
- The end of a period is the last nanosecond, `23:59:59.999999999`, as
  `Period.end_time` gives and the tests expect. The docstring says
  `23:59:59Z`.
- `shapely.geometry.box(*bbox)` accepts four coordinates or four plus the
  orientation flag. Any other count raises (`BoxArity`), so a six-number 3-D
  bbox fails the search. It is not reduced to its horizontal extent.
- A filter whose language cannot be inferred, a value that is neither text
  nor a dictionary, leaves `filter-lang` out of the map. `_search` then fails
  on the missing key (`MissingFilterLanguage`).
- The docstring offers `None` as an open side of a datetime range
  (search.py:137-140). The code drops `None` entries before counting
  (search.py:212), so `["2020-01-01", None]` is the single period, not an
  open range (`Normalize.DatetimeNoneIgnored`, `Cases.DatetimeNoneDropped`).
- The docstring accepts a single `datetime.datetime` (search.py:126-127). The
  code calls `list(value)` on it (search.py:210), which raises
  (`DatetimeScalar` gives `NotIterable`).
- The docstring accepts `pystac.Collection` instances for `collections`
  (search.py:115-117). The code keeps the objects as they are
  (search.py:244), and they compare equal to no collection id. The model's
  `collections` holds strings only.

## Model

| member | source | states |
|---|---|---|
| Text.Split | stac_static/search.py:208 | `str.split` always yields at least one piece, so `""` gives `[""]` |
| Text.SplitPiecesFree | stac_static/search.py:242 | no piece of a split contains the separator |
| Text.SplitCount | stac_static/search.py:284 | a split has one more piece than the string has separators |
| Text.JoinSplit | stac_static/search.py:242 | joining the pieces with the separator gives back the string |
| Text.SplitJoin | stac_static/search.py:242 | splitting a join of separator-free pieces gives back the pieces, so split and join are inverse |
| Text.Replace | stac_static/search.py:86 | `str.replace` of one character: same length, each occurrence replaced, every other character kept |
| Text.DigitsValue | stac_static/search.py:216 | a digit string of length w denotes a number below 10^w |
| Text.Pow10 | stac_static/search.py:216 | powers of ten are positive |
| Text.PadDigits | stac_static/search.py:216 | a padded rendering has exactly the width asked for and only digits |
| Text.DigitsValuePad | stac_static/search.py:216 | reading back a padded rendering of a number below 10^w gives the number |
| Text.PadDigitsValue | stac_static/search.py:216 | a digit string is the padded rendering of its value at its own width |
| Calendar.DaysInMonth | stac_static/search.py:228 | every month has 28 to 31 days, and 29 exactly for February of a Gregorian leap year |
| Calendar.NextDay | stac_static/search.py:228 | the day after a valid date is a valid date |
| Calendar.Successor | stac_static/search.py:228 | the instant one nanosecond later is valid and strictly later |
| Calendar.SuccessorIsNext | stac_static/search.py:228 | nothing lies strictly between an instant and its successor |
| Calendar.PeriodStart | stac_static/search.py:217 | `start_time` is a valid instant inside the period |
| Calendar.PeriodEnd | stac_static/search.py:218 | `end_time` is a valid instant inside the period |
| Calendar.NextPeriod | stac_static/search.py:218 | the following period of the same granularity is valid |
| Calendar.PeriodBounds | stac_static/search.py:215-219 | a valid instant is in the period exactly when it lies between the period's start and end, inclusive |
| Calendar.PeriodEndAdjoinsNext | stac_static/search.py:218 | one nanosecond after the end of a period is the start of the next period, so the end is inclusive to the nanosecond |
| Calendar.PeriodStartNotAfterEnd | stac_static/search.py:215-219 | a period's start is no later than its end |
| Calendar.ParsePeriod | stac_static/search.py:216 | an accepted date string is a valid period with a year from 1 to 9999 |
| Calendar.ParseFormatPeriod | stac_static/search.py:216 | parsing a period's canonical string gives the period back |
| Calendar.ParseFormatMonth | stac_static/search.py:216 | a `YYYY-MM` string of a month parses back to that month |
| Calendar.ParseFormatDay | stac_static/search.py:216 | a `YYYY-MM-DD` string of a date parses back to that day |
| Calendar.FormatParsePeriod | stac_static/search.py:216 | every accepted date string is the canonical string of its period |
| Normalize.FormatListlike | stac_static/search.py:237-244 | unset gives unset. A string gives its `,`-pieces in order and untrimmed, which join back to the string and contain no comma. A sequence is kept element for element |
| Normalize.FormatFilterLang | stac_static/search.py:247-262 | no filter gives no language whatever the language argument. An explicit language is returned unchanged. Otherwise a text filter gives `cql2-text`, a dictionary gives `cql2-json`, and a value of any other type (not a string, dictionary or `None`) gives none |
| Normalize.ParseNumbers | stac_static/search.py:284-287 | `tuple(map(float, ...))` succeeds exactly when every piece converts, keeping order and count. Otherwise it fails naming the first piece that does not convert |
| Normalize.FormatBbox | stac_static/search.py:280-289 | unset gives unset and a sequence is kept. A string succeeds exactly when every `,`-piece converts, giving one coordinate per piece (separators plus one) in order. The count is not checked |
| Normalize.FormatIntersects | stac_static/search.py:265-277 | unset gives unset. A dictionary or a geo-interface dictionary is copied. Text succeeds exactly when it decodes to a JSON object, which is returned. A value of any other type (not a string, dictionary, geo-interface object or `None`) is refused |
| Normalize.IntersectsTextMatchesDict | stac_static/search.py:268-271 | GeoJSON text and the dictionary it decodes to normalise to the same value |
| Normalize.Present | stac_static/search.py:212 | dropping the `None` entries keeps exactly the strings present and never lengthens the list |
| Normalize.PresentAppend | stac_static/search.py:212 | the comprehension works entry by entry, in order: it distributes over concatenation, keeps a string entry and drops a `None` entry |
| Normalize.PresentCount | stac_static/search.py:212-215 | the number of components counted is the number of entries that are not `None` |
| Normalize.DatetimeNoneIgnored | stac_static/search.py:212-229 | a `None` entry anywhere in a datetime sequence leaves the result unchanged, so `[s, None]` and `[None, s]` normalise as `[s]` |
| Normalize.FormatDatetime | stac_static/search.py:200-234 | unset, or zero components once `None` entries are dropped, gives no window, and a non-iterable value fails. One component succeeds exactly when it is a period, giving that period's start and end. With two, a side is open exactly when it is `..`; otherwise the start is the left period's start and the end the right period's end. Three or more fail with the count |
| Normalize.SinglePeriodWindow | stac_static/search.py:215-219 | a one-period window has start no later than its end, and contains an instant exactly when the instant lies in the period |
| Normalize.PutIfSet | stac_static/search.py:196-198 | a key is added exactly when its value is set, and no other key changes; an unset value leaves the map exactly as it was |
| Normalize.ParameterMap | stac_static/search.py:186-198 | the map holds only the seven parameter keys, each with a value of its own kind |
| Normalize.ParameterMapSpatial | stac_static/search.py:186-198 | `bbox` and `intersects` are present exactly when their normalised values are not `None`, and then hold those values |
| Normalize.ParameterMapSelectors | stac_static/search.py:186-198 | `datetime`, `ids` and `collections` are present exactly when their normalised values are not `None`, and then hold those values |
| Normalize.ParameterMapFilter | stac_static/search.py:186-198 | `filter` and `filter-lang` are present exactly when set, and then hold their values |
| Normalize.NormalizeParameters | stac_static/search.py:186-198 | construction succeeds exactly when bbox, datetime and intersects normalise. A failure is the first in the constructor's order: bbox, then datetime, then intersects. On success the map is the one built from the normalised values |
| Engine.Keep | stac_static/search.py:69 | a boolean-mask selection never has more rows than the table |
| Engine.KeepMembers | stac_static/search.py:64-97 | a selection holds exactly the rows of the table that satisfy its predicate |
| Engine.KeepIsSubsequence | stac_static/search.py:64-97 | a selection keeps the table's order |
| Engine.KeepMultiplicity | stac_static/search.py:64-97 | a selection keeps every copy of a satisfying row and no copy of any other |
| Engine.KeepKeep | stac_static/search.py:64-97 | selecting by one mask and then another is selecting once by their conjunction |
| Engine.KeepCommutes | stac_static/search.py:64-97 | two selections give the same rows in either order |
| Engine.KeepCongruent | stac_static/search.py:64-97 | a selection depends only on the predicate's verdicts on the table's rows |
| Engine.KeepEverything | stac_static/search.py:64-97 | a predicate every row satisfies removes nothing |
| Engine.ParserFor | stac_static/search.py:86 | an unknown language tag fails, naming the tag |
| Engine.HyphenSpellings | stac_static/search.py:86 | the tags that hyphen-to-underscore replacement sends to a name with one underscore are the name and its hyphenated spelling |
| Engine.ParserForAccepts | stac_static/search.py:26-28 | exactly `cql2-json`, `cql2_json`, `cql2-text` and `cql2_text` resolve, each to the parser its name says |
| Engine.InferredLanguageResolves | stac_static/search.py:85-87 | an inferred language always names the parser of the filter's syntax. For a filter of another type no language is inferred |
| Engine.BoxOf | stac_static/search.py:77 | `box(*bbox)` succeeds exactly for four or five coordinates, giving the rectangle of the first four. Otherwise it fails with the count |
| Engine.Compile | stac_static/search.py:64-97 | resolution reports the first failure in `_search`'s order: the box, then the shape, then the filter. It succeeds exactly when the bbox, intersects and filter resolve. On success each parameter's test is present exactly when its key is, with the value under that key |
| Engine.Evaluate | stac_static/search.py:64-97 | the search succeeds exactly when `Compile` does and otherwise fails with `Compile`'s error, so a bad box, a bad shape or a bad filter is the error reported, in that order. A successful search is an order-preserving subsequence of the table. It holds a row exactly when the row is in the table and passes every active test, and it keeps every copy of a matching row and no copy of any other |
| Engine.MatchedRowsSatisfyEveryParameter | stac_static/search.py:66-95 | a row is matched exactly when id ∈ ids, collection ∈ collections, geometry meets the bbox rectangle and the shape built from `intersects`, the tree parsed from `filter` in the language of `filter_lang` holds for the row, timestamp ≥ start when the start is set, and timestamp ≤ end when the end is set. An absent key tests nothing, and on success the bbox, the shape and the parse exist |
| Engine.NoParametersMatchEverything | stac_static/search.py:64-97 | with no parameters the search returns the whole table |
| Engine.FilterStageErrors | stac_static/search.py:85-88 | once the spatial parameters resolve, the filter stage fails in order: an unknown tag with that tag, a rejected filter, then a filter reading a column the table lacks |
| Engine.FilterWithoutLanguageFails | stac_static/search.py:85-86 | a filter with no `filter-lang` key fails the search once the spatial parameters resolve |
| Engine.NarrowPlan | stac_static/search.py:64-97 | narrowing the rows that pass some tests by one more test leaves the rows passing all of them |
| Engine.IdsPass | stac_static/search.py:67-69 | the ids pass adds the ids test to the rows matched so far |
| Engine.CollectionsPass | stac_static/search.py:71-73 | the collections pass adds the collections test |
| Engine.BboxPass | stac_static/search.py:75-78 | the bbox pass adds the box test, or fails as building the box does |
| Engine.IntersectsPass | stac_static/search.py:80-83 | the intersects pass adds the shape test, or fails when the dictionary is not a geometry |
| Engine.FilterPass | stac_static/search.py:85-88 | the filter pass fails as language lookup or parsing does, or when the filter reads a column the table lacks. Otherwise it adds the filter test |
| Engine.DatetimePass | stac_static/search.py:90-95 | the datetime pass keeps the rows no earlier than a set start and then no later than a set end, adding the window test |
| Engine.SearchRows | stac_static/search.py:64-97 | the six passes in sequence give exactly `Evaluate`, the set of rows passing all active tests in table order, with the same error |
| Search.ItemSearch.constructor | stac_static/search.py:167-198 | a new query holds the table and parameters and has run no search |
| Search.ItemSearch.Parameters | stac_static/search.py:291-294 | `parameters` gives the query's parameter map |
| Search.ItemSearch.Result | stac_static/search.py:296-298 | `result` is the search's outcome. The search runs only when nothing is cached, and a success is cached |
| Search.ItemSearch.Matched | stac_static/search.py:303-311 | `matched()` is the number of rows of `result`, or its error |
| Search.OpenSearch | stac_static/search.py:60-61 | `search()` fails as normalisation does. Otherwise it is a fresh query over that map with nothing searched yet |
| Search.MatchedTwice | stac_static/search.py:296-311 | two `matched()` calls agree. After a success the search has run at most once and its table is cached |
| Search.ParametersAreACopy | stac_static/search.py:291-294 | changing the copy `parameters` returns leaves the query's own map as it was |
| Cases.YearIs2022 | tests/test_search.py:66-73 | `2022` is the year 2022 |
| Cases.MonthIs2022March | tests/test_search.py:74-75 | `2022-03` is March 2022 |
| Cases.DatetimeYear | tests/test_search.py:66-73 | `2022` spans 2022-01-01T00:00:00 to 2022-12-31T23:59:59.999999999 |
| Cases.DatetimeOpenStart | tests/test_search.py:74 | `../2022-03` is open at the start and ends at 2022-03-31T23:59:59.999999999 |
| Cases.DatetimeOpenEnd | tests/test_search.py:75 | `2022-03/..` starts at 2022-03-01T00:00:00 and is open at the end |
| Cases.DatetimeNoneDropped | stac_static/search.py:212 | `["2022", None]` is the single period 2022, not a range |
| Cases.DatetimeThreeComponents | stac_static/search.py:230-234 | `2020/2021/2022` fails with count 3 |
| Cases.ListlikePieces | tests/test_search.py:23-26 | the ids string of the test gives its two ids, and `""` gives `[""]` |

## Left out

- Inputs outside the declared parameter types: a non-iterable `ids` or `collections` (`tuple(value)` at stac_static/search.py:244), a non-iterable `bbox` (`map(float, value)` at stac_static/search.py:287) and a non-string `filter-lang` value (`.replace` at stac_static/search.py:86) raise a `TypeError` or `AttributeError` in the source. The model's input types cannot express these inputs, so those implicit errors are not modelled.
- `stac_static/utils.py`, the conversion of a pystac catalog to a table, and parquet I/O are not part of this model. `__init__`'s choice between converting a catalog and taking a table as it is (search.py:179-184) is left out too: the model starts from the table.
- `item_collection`, `items`, `items_as_dicts` and `as_geodataframe` (search.py:300-340) are left out. They serialise or alias `result` through stac_geoparquet and pystac.
- Shapely and pygeofilter are opaque functions in `Env`: rectangle and shape construction, `intersects`, CQL2 parsing, and `to_filter` with `np.sin`. Their geometry and CQL2 semantics are not modelled.
- `to_filter` is modelled as a table-level check plus a per-row verdict. A filter that reads a column the table lacks fails the search (`UnresolvedAttribute`), even when the earlier passes left no rows. An item lacking a property holds a null in its column, and the verdict on it is the collaborator's. Which columns a filter reads, and the other failure modes of `to_filter`, are not modelled.
- Engine.ParserFor: only the two parser attributes of `Parsers` resolve. `getattr` at search.py:86 also finds any other attribute of the class, such as `mro`; such a tag fails later or differently in the source, and here it is an unknown tag.
- `pystac.Collection` objects in `collections` (search.py:244) are not modelled. Names are strings.
- Floating point: bbox coordinates are reals, and `float` of a string is an opaque reader. A bbox given as a sequence is also mapped through `float` (stac_static/search.py:287), which can raise on a non-numeric element; the sequence input carries reals, so that error path is not modelled.
- JSON decoding is an opaque reader. `dict(...)` of a JSON array of pairs is not modelled; only a decoded object is accepted.
- `pd.Period` is modelled only on the `YYYY`, `YYYY-MM` and `YYYY-MM-DD` forms with a year from 0001 to 9999. The other formats pandas accepts are refused with `InvalidPeriod`: full timestamps, week and quarter strings, time zones. So are the empty string and the `NaT` spellings.
- The range of pandas timestamps (years 1677 to 2262) is not modelled. Periods outside it are accepted.
- `datetime` and `pd.Timestamp` objects as datetime components are not modelled; only strings and `None` are.
- Record datetimes are always valid instants. `NaT` rows, which fail every comparison, are not modelled.
- The error messages of the exceptions are not modelled, except that the too-many-components error carries the count.
- `copy`, `deepcopy` and dataframe aliasing: all values are immutable, so copies cannot be told apart from the original.
- Search.ItemSearch.Parameters: the copy is the same immutable value, so "changing the copy" is shown by `ParametersAreACopy` through value semantics. No aliasing is modelled. The source's `.copy()` (search.py:294) is shallow, so there the nested `intersects` and `filter` dictionaries stay shared with the query, and changing them in place would change the search.
- Thread safety of `cached_property` is not modelled.
