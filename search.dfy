/** The deferred query object. `ItemSearch` keeps the table and the
    normalised parameters; reading `result` runs `_search` the first time it
    succeeds and answers from the cached table afterwards. */
module Search {
  import opened Wrappers
  import opened Query
  import opened Normalize
  import opened Engine

  class ItemSearch {
    /** `self.df`: the table of records searched. */
    const rows: seq<Record>
    /** `self._parameters`: the normalised parameters that are set. */
    const query: map<string, Value>
    /** The spatial and filter collaborators `_search` calls. */
    const env: Env
    /** The `cached_property` slot of `result`: filled by the first access
        that succeeds. An access that fails caches nothing. */
    var cache: Option<seq<Record>>
    /** How many times `_search` has run for this object. */
    ghost var evaluations: nat

    ghost predicate Valid()
      reads this
    {
      WellTyped(query) && (cache.Some? ==> Evaluate(rows, query, env) == Ok(cache.value))
    }

    /** The constructor after normalisation: nothing has been searched yet. */
    constructor (rows: seq<Record>, params: map<string, Value>, env: Env)
      requires WellTyped(params)
      ensures Valid()
      ensures this.rows == rows && query == params && this.env == env
      ensures cache == None && evaluations == 0
    {
      this.rows := rows;
      query := params;
      this.env := env;
      cache := None;
      evaluations := 0;
    }

    /** `parameters`: a copy of the parameter map. The copy is a value, so
        nothing done with it can reach `query`, which is constant. */
    method Parameters() returns (m: map<string, Value>)
      requires Valid()
      ensures m == query && WellTyped(m)
    {
      m := query;
    }

    /** `result`: the rows `_search` selects. The search runs only when no
        earlier access succeeded, and a success is cached. */
    method Result() returns (res: Result<seq<Record>, Error>)
      requires Valid()
      modifies this`cache, this`evaluations
      ensures Valid()
      ensures res == Evaluate(rows, query, env)
      ensures old(cache).Some? ==> cache == old(cache) && evaluations == old(evaluations)
      ensures old(cache).None? ==>
        && evaluations == old(evaluations) + 1
        && cache == (if res.Ok? then Some(res.value) else None)
    {
      if cache.Some? {
        return Ok(cache.value);
      }
      res := SearchRows(rows, query, env);
      evaluations := evaluations + 1;
      if res.Ok? {
        cache := Some(res.value);
      }
    }

    /** `matched()`: the number of rows of `result`, which it reads. */
    method Matched() returns (res: Result<nat, Error>)
      requires Valid()
      modifies this`cache, this`evaluations
      ensures Valid()
      ensures Evaluate(rows, query, env).Ok? ==> res == Ok(|Evaluate(rows, query, env).value|)
      ensures Evaluate(rows, query, env).Err? ==> res == Err(Evaluate(rows, query, env).error)
      ensures old(cache).Some? ==> cache == old(cache) && evaluations == old(evaluations)
      ensures old(cache).None? ==>
        && evaluations == old(evaluations) + 1
        && (cache.Some? <==> res.Ok?)
    {
      var result :- Result();
      return Ok(|result|);
    }
  }

  /** `search(catalog, **params)`, that is `ItemSearch.__init__`: normalise
      the keyword arguments, failing as the first failing normaliser does,
      and keep the parameters that are set. */
  method OpenSearch(rows: seq<Record>, raw: RawParameters, readers: Readers, env: Env)
    returns (res: Result<ItemSearch, Error>)
    ensures NormalizeParameters(raw, readers).Err? ==> res == Err(NormalizeParameters(raw, readers).error)
    ensures NormalizeParameters(raw, readers).Ok? ==>
      && res.Ok? && fresh(res.value) && res.value.Valid()
      && res.value.rows == rows && res.value.query == NormalizeParameters(raw, readers).value
      && res.value.env == env
      && res.value.cache == None && res.value.evaluations == 0
  {
    var params :- NormalizeParameters(raw, readers);
    var s := new ItemSearch(rows, params, env);
    return Ok(s);
  }

  /** Two `matched()` calls in a row agree, and between them `_search`
      runs at most once when the first call succeeds. */
  method MatchedTwice(s: ItemSearch) returns (first: Result<nat, Error>, second: Result<nat, Error>)
    requires s.Valid()
    modifies s
    ensures s.Valid()
    ensures first == second
    ensures first.Ok? ==> s.evaluations <= old(s.evaluations) + 1
    ensures first.Ok? ==> s.cache.Some? && first.value == |s.cache.value|
  {
    first := s.Matched();
    ghost var between := s.evaluations;
    second := s.Matched();
    assert first.Ok? ==> s.evaluations == between;
  }

  /** `parameters` returns a copy: changing every entry of the copy leaves
      the query's own map, and so its result, as it was. The source's copy is
      shallow, so nested dictionaries stay shared there; values here have no
      identity to share. */
  method ParametersAreACopy(s: ItemSearch, change: map<string, Value>)
    returns (before: map<string, Value>, after: map<string, Value>)
    requires s.Valid()
    ensures before == after && after == s.query
  {
    var copy := s.Parameters();
    before := copy;
    copy := copy + change;
    after := s.Parameters();
  }
}
