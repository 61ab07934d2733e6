/**
 * What the query builder promises: the shape and order of BuildURL's
 * output, the contents of the request `execute` plans, the fragments the
 * setters store, and the behaviour of Get on a builder whose method was
 * never set.
 */
module QueryBuilderProperties {
  import opened Text
  import opened SupabaseOrm

  // ---------------------------------------------------------------------
  // BuildURL
  // ---------------------------------------------------------------------

  /** The URL is the bare path exactly when no parameter is set. */
  lemma UrlBarePathIffNoParams(s: BuilderState)
    ensures Url(s) == "/" + s.table <==> UrlParams(s) == []
    ensures UrlParams(s) == [] <==>
      && s.selectQuery == "" && s.filters == [] && s.orderQuery == ""
      && s.limitQuery == "" && s.offsetQuery == "" && s.countQuery == ""
  {
    if UrlParams(s) != [] {
      assert |Url(s)| > |"/" + s.table|;
    }
  }

  /**
   * Everything after `/table?` splits on `&` back into the parameters, in
   * BuildURL's order: select, the filters as added, order, limit, offset, count.
   */
  lemma UrlQuerySplitsIntoParams(s: BuilderState)
    requires UrlParams(s) != []
    requires forall k :: 0 <= k < |UrlParams(s)| ==> '&' !in UrlParams(s)[k]
    ensures |Url(s)| >= |s.table| + 2
    ensures Url(s)[..|s.table| + 2] == "/" + s.table + "?"
    ensures Split(Url(s)[|s.table| + 2..], '&') == UrlParams(s)
  {
    var query := Join(UrlParams(s), "&");
    assert Url(s) == "/" + s.table + "?" + query;
    assert Url(s)[|s.table| + 2..] == query;
    SplitJoin(UrlParams(s), '&');
  }

  /** Range, joins, the or/and/not groups, headers and the raw query never reach the URL. */
  lemma UrlIgnoresUnrenderedFields(s: BuilderState, t: BuilderState)
    requires s.table == t.table && s.selectQuery == t.selectQuery && s.filters == t.filters
    requires s.orderQuery == t.orderQuery && s.limitQuery == t.limitQuery
    requires s.offsetQuery == t.offsetQuery && s.countQuery == t.countQuery
    ensures Url(s) == Url(t)
  {
  }

  /** On a well-formed builder every parameter of the URL is non-empty. */
  lemma WellFormedUrlParamsNonEmpty(s: BuilderState)
    requires WellFormed(s)
    ensures forall k :: 0 <= k < |UrlParams(s)| ==> UrlParams(s)[k] != ""
  {
    var p := Present(s.selectQuery);
    NoEmptyConcat(p, s.filters);
    p := p + s.filters;
    NoEmptyConcat(p, Present(s.orderQuery));
    p := p + Present(s.orderQuery);
    NoEmptyConcat(p, Present(s.limitQuery));
    p := p + Present(s.limitQuery);
    NoEmptyConcat(p, Present(s.offsetQuery));
    p := p + Present(s.offsetQuery);
    NoEmptyConcat(p, Present(s.countQuery));
  }

  predicate NoEmpty(xs: seq<string>)
  {
    forall k :: 0 <= k < |xs| ==> xs[k] != ""
  }

  lemma NoEmptyConcat(xs: seq<string>, ys: seq<string>)
    requires NoEmpty(xs) && NoEmpty(ys)
    ensures NoEmpty(xs + ys)
  {
    forall k | 0 <= k < |xs + ys|
      ensures (xs + ys)[k] != ""
    {
      if k >= |xs| {
        assert (xs + ys)[k] == ys[k - |xs|];
      }
    }
  }

  // ---------------------------------------------------------------------
  // The fragments the setters store
  // ---------------------------------------------------------------------

  /** `limit=n` gives back n. */
  lemma LimitFragmentParses(n: int)
    ensures |LimitFragment(n)| > 6 && LimitFragment(n)[..6] == "limit="
    ensures var digits := LimitFragment(n)[6..];
      (forall k :: 0 < k < |digits| ==> IsDigit(digits[k]))
      && (digits[0] == '-' || IsDigit(digits[0]))
      && ParseInt(digits) == n
  {
    assert LimitFragment(n)[6..] == IntToString(n);
    ParseIntToString(n);
  }

  /** `offset=n` gives back n. */
  lemma OffsetFragmentParses(n: int)
    ensures |OffsetFragment(n)| > 7 && OffsetFragment(n)[..7] == "offset="
    ensures var digits := OffsetFragment(n)[7..];
      (forall k :: 0 < k < |digits| ==> IsDigit(digits[k]))
      && (digits[0] == '-' || IsDigit(digits[0]))
      && ParseInt(digits) == n
  {
    assert OffsetFragment(n)[7..] == IntToString(n);
    ParseIntToString(n);
  }

  /** Two `%d` renderings joined by `-` can be told apart again, whatever their signs. */
  lemma DashPairInjective(a: int, b: int, c: int, d: int)
    requires IntToString(a) + "-" + IntToString(b) == IntToString(c) + "-" + IntToString(d)
    ensures a == c && b == d
  {
    var x, y, x', y' := IntToString(a), IntToString(b), IntToString(c), IntToString(d);
    var w := x + "-" + y;
    assert w == x' + "-" + y';
    // Past a possible leading sign, the first dash is the separator.
    assert w[1..] == x[1..] + "-" + y;
    assert w[1..] == x'[1..] + "-" + y';
    IndexOfAfterPrefix(x[1..], '-', y);
    IndexOfAfterPrefix(x'[1..], '-', y');
    assert x == w[..|x|] == x';
    assert y == w[|x| + 1..] == y';
    IntToStringInjective(a, c);
    IntToStringInjective(b, d);
  }

  /** `range=a-b` determines both bounds. */
  lemma RangeFragmentInjective(a: int, b: int, c: int, d: int)
    requires RangeFragment(a, b) == RangeFragment(c, d)
    ensures a == c && b == d
  {
    var p := "range=";
    assert RangeFragment(a, b) == p + (IntToString(a) + "-" + IntToString(b));
    assert RangeFragment(c, d) == p + (IntToString(c) + "-" + IntToString(d));
    assert RangeFragment(a, b)[|p|..] == IntToString(a) + "-" + IntToString(b);
    DashPairInjective(a, b, c, d);
  }

  /** Inside `kind=( … )` the comma-separated filters of an Or or And group are recoverable. */
  lemma GroupFragmentSplits(kind: string, fs: seq<string>)
    requires |fs| > 0
    requires forall k :: 0 <= k < |fs| ==> ',' !in fs[k]
    ensures var g := GroupFragment(kind, fs);
      && |g| >= |kind| + 3
      && g[..|kind| + 2] == kind + "=(" && g[|g| - 1] == ')'
      && Split(g[|kind| + 2..|g| - 1], ',') == fs
  {
    var inner := Join(fs, ",");
    var g := GroupFragment(kind, fs);
    assert g == kind + "=(" + inner + ")";
    assert g[|kind| + 2..|g| - 1] == inner;
    SplitJoin(fs, ',');
  }

  // ---------------------------------------------------------------------
  // Request planning
  // ---------------------------------------------------------------------

  /** Adding values one at a time puts them, in order, after those the key held. */
  lemma {:induction false} AddAllAppends(v: Values, key: string, xs: seq<string>)
    ensures AddAll(v, key, xs) == if |xs| == 0 then v else v[key := (if key in v then v[key] else []) + xs]
  {
    if |xs| > 0 {
      var init := xs[..|xs| - 1];
      AddAllAppends(v, key, init);
      assert init + [xs[|xs| - 1]] == xs;
      var held := if key in v then v[key] else [];
      assert (held + init) + [xs[|xs| - 1]] == held + xs;
      if |init| == 0 {
        assert AddAll(v, key, init) == v;
      }
    }
  }

  /** The parameters of a table request: which keys appear and what each carries. */
  lemma QueryParamsContents(s: BuilderState)
    ensures var p := QueryParams(s);
      && p.Keys <= {"select", "and", "order", "limit", "offset"}
      && ("select" in p <==> s.selectQuery != "" || |s.joins| > 0)
      && (|s.joins| > 0 ==> p["select"] == [SelectWithJoins(s.selectQuery, s.joins)])
      && (|s.joins| == 0 && s.selectQuery != "" ==> p["select"] == [s.selectQuery])
      && ("and" in p <==> |s.filters| > 0)
      && (|s.filters| > 0 ==> p["and"] == s.filters)
      && ("order" in p <==> s.orderQuery != "")
      && (s.orderQuery != "" ==> p["order"] == [s.orderQuery])
      && ("limit" in p <==> s.limitQuery != "")
      && (s.limitQuery != "" ==> p["limit"] == [s.limitQuery])
      && ("offset" in p <==> s.offsetQuery != "")
      && (s.offsetQuery != "" ==> p["offset"] == [s.offsetQuery])
  {
    var before := QueryParamsBeforeFilters(s);
    assert "and" !in before && before.Keys <= {"select"};
    AddAllAppends(before, "and", s.filters);
  }

  /** With joins, the select parameter is the selection (or `*`) followed by `table(*)` per join. */
  lemma SelectWithJoinsShape(selectQuery: string, joins: seq<JoinSpec>)
    requires |joins| > 0
    requires forall k :: 0 <= k < |joins| ==> ',' !in joins[k].foreignTable
    ensures var prefix := if selectQuery != "" then selectQuery else "*";
      var sel := SelectWithJoins(selectQuery, joins);
      && sel[..|prefix| + 1] == prefix + ","
      && Split(sel[|prefix| + 1..], ',') == JoinSelects(joins)
      && forall k :: 0 <= k < |joins| ==> JoinSelects(joins)[k] == joins[k].foreignTable + "(*)"
  {
    var prefix := if selectQuery != "" then selectQuery else "*";
    var list := JoinSelects(joins);
    forall k | 0 <= k < |list|
      ensures ',' !in list[k]
    {
      assert list[k] == joins[k].foreignTable + "(*)";
    }
    assert SelectWithJoins(selectQuery, joins)[|prefix| + 1..] == Join(list, ",");
    SplitJoin(list, ',');
  }

  /**
   * A raw query is POSTed as `{query: raw}` to the SQL-execution endpoint
   * with the custom headers only: no parameters, no Range header, and no
   * other field of the builder (table, filters, order, pagination, joins,
   * method) makes any difference.
   */
  lemma RawQueryRequest(s: BuilderState, t: BuilderState, baseURL: string, data: Option<string>, data': Option<string>)
    requires s.rawQuery != "" && t.rawQuery == s.rawQuery && t.headers == s.headers
    ensures PlanRequest(s, baseURL, data) == PlanRequest(t, baseURL, data')
    ensures PlanRequest(s, baseURL, data).Ok?
    ensures var r := PlanRequest(s, baseURL, data).value;
      && r.endpoint == baseURL + "/rest/v1/rpc/execute_sql"
      && r.httpMethod == POST && r.params == map[] && r.headers == s.headers
      && r.body == Some(SqlRequest(s.rawQuery)) && r.decodeInto == Some(SqlRequest(s.rawQuery))
  {
  }

  /** Without a raw query, `execute` accepts exactly GET, POST, PATCH and DELETE. */
  lemma DispatchAcceptsFourMethods(s: BuilderState, baseURL: string, data: Option<string>)
    requires s.rawQuery == ""
    ensures PlanRequest(s, baseURL, data).Err? <==> s.httpMethod !in {GET, POST, PATCH, DELETE}
    ensures PlanRequest(s, baseURL, data).Err? ==>
      PlanRequest(s, baseURL, data).message == "unsupported HTTP method: " + s.httpMethod
  {
  }

  /**
   * A table request goes to `base/rest/v1/table` with the builder's method
   * and query parameters, and the custom headers plus a Range header that
   * carries the range fragment (replacing a custom one of that name).
   */
  lemma TableRequest(s: BuilderState, baseURL: string, data: Option<string>)
    requires s.rawQuery == "" && s.httpMethod in {GET, POST, PATCH, DELETE}
    ensures PlanRequest(s, baseURL, data).Ok?
    ensures var r := PlanRequest(s, baseURL, data).value;
      && r.endpoint == baseURL + "/rest/v1/" + s.table
      && r.httpMethod == s.httpMethod
      && r.params == QueryParams(s)
      && r.headers.Keys == s.headers.Keys + (if s.rangeQuery != "" then {"Range"} else {})
      && (s.rangeQuery != "" ==> r.headers["Range"] == s.rangeQuery)
      && (forall h :: h in s.headers && (h != "Range" || s.rangeQuery == "") ==> r.headers[h] == s.headers[h])
  {
  }

  /**
   * Only GET and POST decode the response, into the value given and only
   * when one is; GET and DELETE send no body, POST and PATCH send the value given.
   */
  lemma BodyAndDecoding(s: BuilderState, baseURL: string, data: Option<string>)
    requires s.rawQuery == "" && PlanRequest(s, baseURL, data).Ok?
    ensures var r := PlanRequest(s, baseURL, data).value;
      && (r.decodeInto.Some? <==> (r.httpMethod == GET || r.httpMethod == POST) && data.Some?)
      && (r.decodeInto.Some? ==> r.decodeInto == Some(CallerData(data.value)))
      && (r.httpMethod == GET || r.httpMethod == DELETE ==> r.body == None)
      && (r.httpMethod == POST || r.httpMethod == PATCH ==>
            r.body == if data.Some? then Some(CallerData(data.value)) else None)
  {
  }

  /** The count fragment, the single flag and the or/and/not groups never reach the request. */
  lemma RequestIgnoresUnsentFields(s: BuilderState, t: BuilderState, baseURL: string, data: Option<string>)
    requires t == s.(countQuery := t.countQuery, singleResult := t.singleResult,
                     orFilters := t.orFilters, andFilters := t.andFilters, notFilters := t.notFilters)
    ensures PlanRequest(s, baseURL, data) == PlanRequest(t, baseURL, data)
  {
  }

  /**
   * A call fails on a transport error, an error status, or a decode into a
   * value that is not a pointer; it decodes only when planned to.
   */
  lemma CompleteOutcome(r: Request, resp: Response)
    ensures Complete(r, resp).Err? <==>
      resp.TransportFailure? || resp.isError || (r.decodeInto.Some? && r.decodeInto.value.SqlRequest?)
    ensures resp.TransportFailure? ==> Complete(r, resp) == Err(resp.error)
    ensures resp.HttpResponse? && resp.isError ==> Complete(r, resp) == Err("API error: " + resp.text)
    ensures Complete(r, resp).Ok? ==>
      (Complete(r, resp).value.DecodeInto? <==> r.decodeInto.Some?)
      && (Complete(r, resp).value.DecodeInto? ==> Complete(r, resp).value.body == resp.text)
  {
  }

  // ---------------------------------------------------------------------
  // Get never sets a method
  // ---------------------------------------------------------------------

  /**
   * No setter assigns the method, and a fresh builder's method is empty:
   * Get on a builder without a raw query fails with "unsupported HTTP method: ".
   */
  lemma GetWithoutMethodFails(s: BuilderState, baseURL: string, dest: Option<string>)
    requires s.rawQuery == "" && s.httpMethod == ""
    ensures PlanRequest(s, baseURL, dest) == Err("unsupported HTTP method: ")
  {
  }

  /** Get with the method set to GET plans a body-less GET that decodes into the destination. */
  lemma IntendedGetSucceeds(s: BuilderState, baseURL: string, dest: Option<string>)
    requires s.rawQuery == ""
    ensures PlanRequest(s.(httpMethod := GET), baseURL, dest).Ok?
    ensures var r := PlanRequest(s.(httpMethod := GET), baseURL, dest).value;
      && r.httpMethod == GET && r.body == None && r.params == QueryParams(s)
      && r.endpoint == baseURL + "/rest/v1/" + s.table
      && (dest.Some? ==> r.decodeInto == Some(CallerData(dest.value)))
      && (dest.None? ==> r.decodeInto == None)
  {
  }

  /** First with the method set to GET: a GET to the table endpoint whose `limit` parameter is `limit=1`. */
  lemma IntendedFirstSucceeds(s: BuilderState, baseURL: string, dest: Option<string>)
    requires s.rawQuery == ""
    ensures var s' := s.(limitQuery := LimitFragment(1), httpMethod := GET);
      && PlanRequest(s', baseURL, dest).Ok?
      && PlanRequest(s', baseURL, dest).value.httpMethod == GET
      && PlanRequest(s', baseURL, dest).value.endpoint == baseURL + "/rest/v1/" + s.table
      && PlanRequest(s', baseURL, dest).value.params["limit"] == ["limit=1"]
  {
    var s' := s.(limitQuery := LimitFragment(1), httpMethod := GET);
    assert LimitFragment(1) == "limit=1";
    QueryParamsContents(s');
  }

  // ---------------------------------------------------------------------
  // A raw query's response is decoded into the request wrapper
  // ---------------------------------------------------------------------

  /**
   * `execute` replaces the caller's value with the raw-query wrapper, a
   * struct value, and then decodes the response into it: every raw query
   * the server answers successfully fails, and the caller receives no rows.
   */
  lemma RawQueryResponseFails(s: BuilderState, baseURL: string, data: Option<string>, text: string)
    requires s.rawQuery != ""
    ensures PlanRequest(s, baseURL, data).Ok?
    ensures Complete(PlanRequest(s, baseURL, data).value, HttpResponse(false, text)) == Err(NonPointerUnmarshal)
  {
  }

  /**
   * As intended, a raw query still sends the wrapper, but a successful
   * response is decoded into the caller's value; table requests and every
   * other part of a raw request are unchanged.
   */
  lemma IntendedRawQueryDecodes(s: BuilderState, baseURL: string, data: Option<string>, text: string)
    ensures s.rawQuery == "" ==> PlanRequestAsIntended(s, baseURL, data) == PlanRequest(s, baseURL, data)
    ensures s.rawQuery != "" ==> PlanRequestAsIntended(s, baseURL, data).Ok?
    ensures s.rawQuery != "" ==>
      var r := PlanRequestAsIntended(s, baseURL, data).value;
      && r == PlanRequest(s, baseURL, data).value.(decodeInto := r.decodeInto)
      && r.body == Some(SqlRequest(s.rawQuery))
      && Complete(r, HttpResponse(false, text)) == if data.Some? then Ok(DecodeInto(text)) else Ok(Done)
  {
  }

  // ---------------------------------------------------------------------
  // Scenarios
  // ---------------------------------------------------------------------

  /**
   * BuildURL's output for the state Select("id", "name", "email"),
   * Filter("age", "gte", 18), Order("created_at", "desc"), Limit(10) and
   * Offset(20) leave on `users`.
   */
  lemma ComplexQueryUrlValue(s: BuilderState)
    requires s.table == "users" && s.selectQuery == "id,name,email" && s.filters == ["age.gte.18"]
    requires s.orderQuery == "order=created_at.desc" && s.limitQuery == "limit=10"
    requires s.offsetQuery == "offset=20" && s.countQuery == ""
    ensures Url(s) == "/users?" + "id,name,email" + "&" + "age.gte.18" + "&" + "order=created_at.desc"
                      + "&" + "limit=10" + "&" + "offset=20"
  {
    var params := ["id,name,email", "age.gte.18", "order=created_at.desc", "limit=10", "offset=20"];
    ComplexQueryParamList(s);
    assert Join(params[4..], "&") == "offset=20";
    assert Join(params[3..], "&") == "limit=10" + "&" + Join(params[4..], "&");
    assert Join(params[2..], "&") == "order=created_at.desc" + "&" + Join(params[3..], "&");
    assert Join(params[1..], "&") == "age.gte.18" + "&" + Join(params[2..], "&");
    assert Join(params, "&") == "id,name,email" + "&" + Join(params[1..], "&");
  }

  /** The parameter list of the complex query, in BuildURL's order. */
  lemma ComplexQueryParamList(s: BuilderState)
    requires s.selectQuery == "id,name,email" && s.filters == ["age.gte.18"]
    requires s.orderQuery == "order=created_at.desc" && s.limitQuery == "limit=10"
    requires s.offsetQuery == "offset=20" && s.countQuery == ""
    ensures UrlParams(s) == ["id,name,email", "age.gte.18", "order=created_at.desc", "limit=10", "offset=20"]
  {
  }

  /** The `%d` renderings the scenarios use. */
  lemma SmallNumerals()
    ensures IntToString(18) == "18" && IntToString(10) == "10" && IntToString(20) == "20"
  {
    assert NatToString(1) == "1" && NatToString(2) == "2";
    assert NatToString(18) == NatToString(1) + [Digit(8)];
    assert NatToString(10) == NatToString(1) + [Digit(0)];
    assert NatToString(20) == NatToString(2) + [Digit(0)];
  }

  /** The fragments the complex query's setters store. */
  lemma ComplexQueryFragments()
    ensures Join(["id", "name", "email"], ",") == "id,name,email"
    ensures FilterExpr("age", "gte", IntV(18)) == "age.gte.18"
    ensures OrderFragment("created_at", "desc") == "order=created_at.desc"
    ensures LimitFragment(10) == "limit=10" && OffsetFragment(20) == "offset=20"
  {
    SmallNumerals();
  }

  /** The complex query, built with the setters and rendered by BuildURL. */
  method ComplexQueryUrl() returns (url: string)
    ensures url == "/users?" + "id,name,email" + "&" + "age.gte.18" + "&" + "order=created_at.desc"
                   + "&" + "limit=10" + "&" + "offset=20"
  {
    var q := new QueryBuilder("users");
    q.Select(["id", "name", "email"]);
    q.Filter("age", "gte", IntV(18));
    q.Order("created_at", "desc");
    q.Limit(10);
    q.Offset(20);
    ComplexQueryFragments();
    ghost var s := q.State();
    assert s.selectQuery == "id,name,email" && s.filters == ["age.gte.18"];
    assert s.orderQuery == "order=created_at.desc" && s.limitQuery == "limit=10" && s.offsetQuery == "offset=20";
    ComplexQueryUrlValue(s);
    url := q.BuildURL();
  }

  /** BuildURL's output for a selection and one filter on `users`. */
  lemma SelectFilterUrlValue(s: BuilderState)
    requires s.table == "users" && s.selectQuery == "*" && s.filters == ["age.gt.18"]
    requires s.orderQuery == "" && s.limitQuery == "" && s.offsetQuery == "" && s.countQuery == ""
    ensures Url(s) == "/users?" + "*" + "&" + "age.gt.18"
  {
    var params := ["*", "age.gt.18"];
    assert UrlParams(s) == params;
    assert Join(params, "&") == "*" + "&" + Join(params[1..], "&");
  }

  /** Select and Filter on `users`, rendered by BuildURL: no `select=` prefix, and `col.op.val`. */
  method SelectFilterUrl() returns (url: string)
    ensures url == "/users?" + "*" + "&" + "age.gt.18"
  {
    var q := new QueryBuilder("users");
    q.Select(["*"]);
    q.Filter("age", "gt", IntV(18));
    FilterAgeGt18();
    SelectFilterUrlValue(q.State());
    url := q.BuildURL();
  }

  lemma FilterAgeGt18()
    ensures FilterExpr("age", "gt", IntV(18)) == "age.gt.18"
  {
    SmallNumerals();
  }

  /** BuildURL's output for a selection and the count fragment on `users`. */
  lemma SelectCountUrlValue(s: BuilderState)
    requires s.table == "users" && s.selectQuery == "*" && s.filters == []
    requires s.orderQuery == "" && s.limitQuery == "" && s.offsetQuery == "" && s.countQuery == CountExact
    ensures Url(s) == "/users?" + "*" + "&" + "count=exact"
  {
    var params := ["*", "count=exact"];
    assert UrlParams(s) == params;
    assert Join(params, "&") == "*" + "&" + Join(params[1..], "&");
  }

  /** Select and Count on `users`, rendered by BuildURL. */
  method SelectCountUrl() returns (url: string)
    ensures url == "/users?" + "*" + "&" + "count=exact"
  {
    var q := new QueryBuilder("users");
    q.Select(["*"]);
    q.Count();
    SelectCountUrlValue(q.State());
    url := q.BuildURL();
  }

  /** The request for `users` with selection `id,name` and filter `age.gt.18`. */
  lemma SelectFilterRequest(s: BuilderState, baseURL: string, dest: Option<string>)
    requires s == Fresh("users").(selectQuery := "id,name", filters := ["age.gt.18"])
    ensures PlanRequest(s, baseURL, dest) == Err("unsupported HTTP method: ")
    ensures PlanRequest(s.(httpMethod := GET), baseURL, dest).Ok?
    ensures var r := PlanRequest(s.(httpMethod := GET), baseURL, dest).value;
      && r.httpMethod == GET && r.endpoint == baseURL + "/rest/v1/users"
      && r.params == map["select" := ["id,name"], "and" := ["age.gt.18"]]
  {
    var before := map["select" := ["id,name"]];
    assert QueryParamsBeforeFilters(s) == before;
    assert AddAll(before, "and", []) == before;
    assert AddAll(before, "and", ["age.gt.18"]) == before["and" := ["age.gt.18"]];
    assert QueryParams(s.(httpMethod := GET)) == map["select" := ["id,name"], "and" := ["age.gt.18"]];
  }

  /** Select("id", "name") and Filter("age", "gt", 18) on `users`. */
  method SelectedAndFiltered() returns (q: QueryBuilder)
    ensures fresh(q) && q.Valid()
    ensures q.State() == Fresh("users").(selectQuery := "id,name", filters := ["age.gt.18"])
  {
    q := new QueryBuilder("users");
    q.Select(["id", "name"]);
    q.Filter("age", "gt", IntV(18));
    FilterAgeGt18();
    assert Join(["id", "name"], ",") == "id,name";
  }

  /** Get on `users` with a selection and a filter, as written and as intended. */
  method SelectFilterGet(baseURL: string) returns (asWritten: Result<Request>, intended: Result<Request>)
    ensures asWritten == Err("unsupported HTTP method: ")
    ensures intended.Ok? && intended.value.httpMethod == GET
    ensures intended.value.endpoint == baseURL + "/rest/v1/users"
    ensures intended.value.params == map["select" := ["id,name"], "and" := ["age.gt.18"]]
  {
    var q := SelectedAndFiltered();
    SelectFilterRequest(q.State(), baseURL, Some("users"));
    asWritten := q.Get(baseURL, Some("users"));
    intended := q.GetAsIntended(baseURL, Some("users"));
  }

  /**
   * Raw("select 1") followed by Get: the server's successful answer ends in
   * an error as written, and is decoded into the caller's value as intended.
   */
  method RawQueryGet(baseURL: string, text: string) returns (asWritten: Result<Completion>, intended: Result<Completion>)
    ensures asWritten == Err(NonPointerUnmarshal)
    ensures intended == Ok(DecodeInto(text))
  {
    var q := new QueryBuilder("users");
    q.Raw("select 1");
    var s := q.State();
    RawQueryResponseFails(s, baseURL, Some("rows"), text);
    IntendedRawQueryDecodes(s, baseURL, Some("rows"), text);
    var r := q.Get(baseURL, Some("rows"));
    asWritten := Complete(r.value, HttpResponse(false, text));
    var planned := PlanRequestAsIntended(s, baseURL, Some("rows"));
    intended := Complete(planned.value, HttpResponse(false, text));
  }

  /** BuildURL's output when only order and limit are set. */
  lemma OrderLimitUrlValue(s: BuilderState)
    requires s.table == "users" && s.selectQuery == "" && s.filters == []
    requires s.orderQuery == "order=b.desc" && s.limitQuery == "limit=0"
    requires s.offsetQuery == "" && s.countQuery == ""
    ensures Url(s) == "/users?" + "order=b.desc" + "&" + "limit=0"
  {
    var params := ["order=b.desc", "limit=0"];
    assert UrlParams(s) == params;
    assert Join(params, "&") == "order=b.desc" + "&" + Join(params[1..], "&");
  }

  lemma LimitZero()
    ensures LimitFragment(0) == "limit=0"
  {
  }

  /** Order and Limit called twice each: only the last value of each is rendered, and Limit(0) is kept. */
  method LastSetterWins() returns (url: string)
    ensures url == "/users?" + "order=b.desc" + "&" + "limit=0"
  {
    var q := OverwrittenOrderAndLimit();
    LimitZero();
    OrderLimitUrlValue(q.State());
    url := q.BuildURL();
  }

  /** Limit(5), Order("a", "asc"), Limit(0), Order("b", "desc") on `users`. */
  method OverwrittenOrderAndLimit() returns (q: QueryBuilder)
    ensures fresh(q)
    ensures q.State() == Fresh("users").(orderQuery := OrderFragment("b", "desc"), limitQuery := LimitFragment(0))
  {
    q := new QueryBuilder("users");
    q.Limit(5);
    q.Order("a", "asc");
    q.Limit(0);
    q.Order("b", "desc");
  }

  /** A foreign-table builder on `users` targets `users.posts` and starts empty. */
  method ForeignTableOfUsers() returns (url: string)
    ensures url == "/users.posts"
  {
    var q := new QueryBuilder("users");
    q.Where("id", "eq", IntV(1));
    var f := q.ForeignTable("posts");
    url := f.BuildURL();
  }
}
