/**
 * The fluent query builder of the Supabase client: a mutable record of query
 * intent, the setters that fill it in, the path-and-parameters string that
 * BuildURL renders from it, and the request that a terminal call (Get,
 * First, Insert, Update, Delete) plans from it before handing it to the
 * HTTP transport.
 */
module SupabaseOrm {
  import opened Text

  datatype Option<T> = None | Some(value: T)

  /** A Go `error` return: Err carries the error's message. */
  datatype Result<T> = Ok(value: T) | Err(message: string)

  /** A filter value handed over as `interface{}`; the model covers ints and strings. */
  datatype Value = IntV(i: int) | StrV(s: string)

  /** What `fmt`'s `%v` verb prints for a value. */
  function Format(v: Value): string
  {
    match v
    case IntV(i) => IntToString(i)
    case StrV(s) => s
  }

  /** A join descriptor; only the foreign table is ever emitted. */
  datatype JoinSpec = JoinSpec(foreignTable: string, localColumn: string, operator: string, foreignColumn: string)

  /** The fields of a builder, as one value (the client pointer is not part of the model). */
  datatype BuilderState = BuilderState(
    table: string,
    selectQuery: string,
    filters: seq<string>,
    orFilters: seq<string>,
    andFilters: seq<string>,
    notFilters: seq<string>,
    orderQuery: string,
    limitQuery: string,
    offsetQuery: string,
    rangeQuery: string,
    countQuery: string,
    singleResult: bool,
    headers: map<string, string>,
    joins: seq<JoinSpec>,
    rawQuery: string,
    httpMethod: string)

  /** The builder that NewQueryBuilder returns: the table and Go's zero values elsewhere. */
  function Fresh(table: string): BuilderState
  {
    BuilderState(table, "", [], [], [], [], "", "", "", "", "", false, map[], [], "", "")
  }

  // The HTTP methods `execute` dispatches on.
  const GET := "GET"
  const POST := "POST"
  const PATCH := "PATCH"
  const DELETE := "DELETE"

  const CountExact := "count=exact"

  // ---------------------------------------------------------------------
  // The strings the setters store
  // ---------------------------------------------------------------------

  /** Where / Filter: `column.operator.value`. */
  function FilterExpr(column: string, operator: string, value: Value): string
  {
    column + "." + operator + "." + Format(value)
  }

  /** OrWhere: `or(column.operator.value)`. */
  function OrFilterExpr(column: string, operator: string, value: Value): string
  {
    "or(" + FilterExpr(column, operator, value) + ")"
  }

  /** WhereRaw: `and(condition)`. */
  function RawFilterExpr(condition: string): string
  {
    "and(" + condition + ")"
  }

  function OrderFragment(column: string, direction: string): string
  {
    "order=" + column + "." + direction
  }

  function LimitFragment(n: int): string
  {
    "limit=" + IntToString(n)
  }

  function OffsetFragment(n: int): string
  {
    "offset=" + IntToString(n)
  }

  function RangeFragment(start: int, end: int): string
  {
    "range=" + IntToString(start) + "-" + IntToString(end)
  }

  /** Or / And: `kind=(f1,...,fn)`. */
  function GroupFragment(kind: string, filters: seq<string>): string
  {
    kind + "=(" + Join(filters, ",") + ")"
  }

  /** Not: `not.column=operator.value`. */
  function NotFilterExpr(column: string, operator: string, value: Value): string
  {
    "not." + column + "=" + operator + "." + Format(value)
  }

  /** What Or and And append: one group when given filters, nothing otherwise. */
  function Grouped(kind: string, filters: seq<string>): seq<string>
  {
    if |filters| > 0 then [GroupFragment(kind, filters)] else []
  }

  /**
   * The invariant every setter keeps: the order, limit, offset and range
   * fragments are unset or exactly what their setter stores, no plain filter
   * is empty, every or/and/not entry carries its prefix, and the count
   * fragment is either unset or exact.
   */
  ghost predicate WellFormed(s: BuilderState)
  {
    && (s.orderQuery == "" || exists c, d :: s.orderQuery == OrderFragment(c, d))
    && (s.limitQuery == "" || exists n :: s.limitQuery == LimitFragment(n))
    && (s.offsetQuery == "" || exists n :: s.offsetQuery == OffsetFragment(n))
    && (s.rangeQuery == "" || exists a, b :: s.rangeQuery == RangeFragment(a, b))
    && (forall k :: 0 <= k < |s.filters| ==> s.filters[k] != "")
    && (forall k :: 0 <= k < |s.orFilters| ==> |s.orFilters[k]| >= 5 && s.orFilters[k][..4] == "or=(")
    && (forall k :: 0 <= k < |s.andFilters| ==> |s.andFilters[k]| >= 6 && s.andFilters[k][..5] == "and=(")
    && (forall k :: 0 <= k < |s.notFilters| ==> |s.notFilters[k]| >= 4 && s.notFilters[k][..4] == "not.")
    && (s.countQuery == "" || s.countQuery == CountExact)
  }

  // ---------------------------------------------------------------------
  // BuildURL
  // ---------------------------------------------------------------------

  /** A one-element list when the fragment is set, none otherwise. */
  function Present(fragment: string): seq<string>
  {
    if fragment != "" then [fragment] else []
  }

  /** The parameters BuildURL emits, in its fixed order. */
  function UrlParams(s: BuilderState): seq<string>
  {
    Present(s.selectQuery) + s.filters + Present(s.orderQuery) + Present(s.limitQuery)
      + Present(s.offsetQuery) + Present(s.countQuery)
  }

  /** `/table`, then `?` and the parameters joined by `&` when there are any. */
  function Url(s: BuilderState): string
  {
    WithQuery("/" + s.table, UrlParams(s))
  }

  /** A path followed, when there are parameters, by `?` and the parameters joined by `&`. */
  function WithQuery(path: string, params: seq<string>): string
  {
    path + (if |params| > 0 then "?" + Join(params, "&") else "")
  }

  // ---------------------------------------------------------------------
  // Request planning in `execute`
  // ---------------------------------------------------------------------

  /** Go's `url.Values`: each key holds a list of values. */
  type Values = map<string, seq<string>>

  /** `url.Values.Set`: the key holds exactly this value afterwards. */
  function SetValue(v: Values, key: string, x: string): Values
  {
    v[key := [x]]
  }

  /** `url.Values.Add`: the value goes after those the key already holds. */
  function AddValue(v: Values, key: string, x: string): Values
  {
    if key in v then v[key := v[key] + [x]] else v[key := [x]]
  }

  /** `Add` of each value in turn. */
  function AddAll(v: Values, key: string, xs: seq<string>): Values
  {
    if |xs| == 0 then v else AddValue(AddAll(v, key, xs[..|xs| - 1]), key, xs[|xs| - 1])
  }

  /** `foreignTable(*)` for each join, in order. */
  function JoinSelects(joins: seq<JoinSpec>): seq<string>
  {
    seq(|joins|, k requires 0 <= k < |joins| => joins[k].foreignTable + "(*)")
  }

  /** The `select` parameter with the joined tables' projections appended. */
  function SelectWithJoins(selectQuery: string, joins: seq<JoinSpec>): string
  {
    (if selectQuery != "" then selectQuery else "*") + "," + Join(JoinSelects(joins), ",")
  }

  /** The `select` parameter, the only one set before the filters are added. */
  function QueryParamsBeforeFilters(s: BuilderState): Values
  {
    if |s.joins| > 0 then SetValue(map[], "select", SelectWithJoins(s.selectQuery, s.joins))
    else if s.selectQuery != "" then SetValue(map[], "select", s.selectQuery)
    else map[]
  }

  /** The query parameters of a table request. */
  function QueryParams(s: BuilderState): Values
  {
    var withFilters := AddAll(QueryParamsBeforeFilters(s), "and", s.filters);
    var withOrder := if s.orderQuery != "" then SetValue(withFilters, "order", s.orderQuery) else withFilters;
    var withLimit := if s.limitQuery != "" then SetValue(withOrder, "limit", s.limitQuery) else withOrder;
    if s.offsetQuery != "" then SetValue(withLimit, "offset", s.offsetQuery) else withLimit
  }

  /** A request body: the caller's data, or the wrapper a raw query is sent in. */
  datatype Payload = CallerData(data: string) | SqlRequest(query: string)

  /**
   * What `execute` hands to the transport, and the value (if any) it
   * JSON-decodes a successful response into.
   */
  datatype Request = Request(
    endpoint: string,
    httpMethod: string,
    params: Values,
    headers: map<string, string>,
    body: Option<Payload>,
    decodeInto: Option<Payload>)

  /** The method `execute` dispatches on: a raw query forces POST. */
  function EffectiveMethod(s: BuilderState): string
  {
    if s.rawQuery != "" then POST else s.httpMethod
  }

  function UnsupportedMethod(httpMethod: string): string
  {
    "unsupported HTTP method: " + httpMethod
  }

  /**
   * The request `execute` plans for a builder, against the client's base URL,
   * with `data` the value passed to it (None for Go's nil).
   */
  function PlanRequest(s: BuilderState, baseURL: string, data: Option<string>): Result<Request>
  {
    var raw := s.rawQuery != "";
    var endpoint := if raw then baseURL + "/rest/v1/rpc/execute_sql" else baseURL + "/rest/v1/" + s.table;
    var payload :=
      if raw then Some(SqlRequest(s.rawQuery))
      else if data.Some? then Some(CallerData(data.value))
      else None;
    var params := if raw then map[] else QueryParams(s);
    var headers := if !raw && s.rangeQuery != "" then s.headers["Range" := s.rangeQuery] else s.headers;
    var httpMethod := EffectiveMethod(s);
    if httpMethod == GET then Ok(Request(endpoint, httpMethod, params, headers, None, payload))
    else if httpMethod == POST then Ok(Request(endpoint, httpMethod, params, headers, payload, payload))
    else if httpMethod == PATCH then Ok(Request(endpoint, httpMethod, params, headers, payload, None))
    else if httpMethod == DELETE then Ok(Request(endpoint, httpMethod, params, headers, None, None))
    else Err(UnsupportedMethod(httpMethod))
  }

  /** What the transport reports back for a request. */
  datatype Response = TransportFailure(error: string) | HttpResponse(isError: bool, text: string)

  /** How a successful call ends: done, or by JSON-decoding the body into the caller's value. */
  datatype Completion = Done | DecodeInto(body: string)

  /**
   * What `encoding/json` returns when asked to decode into a value that is
   * not a pointer: the raw-query wrapper is a struct value.
   */
  const NonPointerUnmarshal := "json: Unmarshal(non-pointer supabaseorm.sqlRequest)"

  /**
   * The end of `execute` once the transport has answered. The caller's
   * value is taken to be a pointer, as the decoding calls require.
   */
  function Complete(r: Request, resp: Response): Result<Completion>
  {
    match resp
    case TransportFailure(e) => Err(e)
    case HttpResponse(isError, text) =>
      if isError then Err("API error: " + text)
      else
        match r.decodeInto
        case None => Ok(Done)
        case Some(CallerData(_)) => Ok(DecodeInto(text))
        case Some(SqlRequest(_)) => Err(NonPointerUnmarshal)
  }

  /**
   * `execute` as its comments describe it: a raw query's rows are decoded
   * into the value the caller passed, not into the request wrapper.
   */
  function PlanRequestAsIntended(s: BuilderState, baseURL: string, data: Option<string>): (r: Result<Request>)
    ensures r.Ok? <==> PlanRequest(s, baseURL, data).Ok?
    ensures r.Ok? ==> r.value == PlanRequest(s, baseURL, data).value.(decodeInto := r.value.decodeInto)
    ensures r.Ok? && r.value.decodeInto.Some? ==> data.Some? && r.value.decodeInto == Some(CallerData(data.value))
  {
    match PlanRequest(s, baseURL, data)
    case Err(e) => Err(e)
    case Ok(r) =>
      if s.rawQuery != "" then Ok(r.(decodeInto := if data.Some? then Some(CallerData(data.value)) else None))
      else Ok(r)
  }

  // ---------------------------------------------------------------------
  // The builder object
  // ---------------------------------------------------------------------

  class QueryBuilder {
    var table: string
    var selectQuery: string
    var filters: seq<string>
    var orFilters: seq<string>
    var andFilters: seq<string>
    var notFilters: seq<string>
    var orderQuery: string
    var limitQuery: string
    var offsetQuery: string
    var rangeQuery: string
    var countQuery: string
    var singleResult: bool
    var headers: map<string, string>
    var joins: seq<JoinSpec>
    var rawQuery: string
    var httpMethod: string

    /** The builder's fields as one value. */
    function State(): BuilderState
      reads this
    {
      BuilderState(table, selectQuery, filters, orFilters, andFilters, notFilters, orderQuery,
                    limitQuery, offsetQuery, rangeQuery, countQuery, singleResult, headers, joins,
                    rawQuery, httpMethod)
    }

    ghost predicate Valid()
      reads this
    {
      WellFormed(State())
    }

    /** NewQueryBuilder. */
    constructor (table: string)
      ensures State() == Fresh(table)
      ensures Valid()
    {
      this.table := table;
      selectQuery, filters, orFilters, andFilters, notFilters := "", [], [], [], [];
      orderQuery, limitQuery, offsetQuery, rangeQuery, countQuery := "", "", "", "", "";
      singleResult, headers, joins, rawQuery, httpMethod := false, map[], [], "", "";
    }

    method Select(columns: seq<string>)
      requires Valid()
      modifies this
      ensures Valid()
      ensures State() == old(State()).(selectQuery := Text.Join(columns, ","))
    {
      selectQuery := Text.Join(columns, ",");
    }

    method Where(column: string, operator: string, value: Value)
      requires Valid()
      modifies this
      ensures Valid()
      ensures State() == old(State()).(filters := old(filters) + [FilterExpr(column, operator, value)])
    {
      filters := filters + [FilterExpr(column, operator, value)];
    }

    /** An alias of Where. */
    method Filter(column: string, operator: string, value: Value)
      requires Valid()
      modifies this
      ensures Valid()
      ensures State() == old(State()).(filters := old(filters) + [FilterExpr(column, operator, value)])
    {
      Where(column, operator, value);
    }

    method OrWhere(column: string, operator: string, value: Value)
      requires Valid()
      modifies this
      ensures Valid()
      ensures State() == old(State()).(filters := old(filters) + [OrFilterExpr(column, operator, value)])
    {
      filters := filters + [OrFilterExpr(column, operator, value)];
    }

    method WhereRaw(condition: string)
      requires Valid()
      modifies this
      ensures Valid()
      ensures State() == old(State()).(filters := old(filters) + [RawFilterExpr(condition)])
    {
      filters := filters + [RawFilterExpr(condition)];
    }

    method Order(column: string, direction: string)
      requires Valid()
      modifies this
      ensures Valid()
      ensures State() == old(State()).(orderQuery := OrderFragment(column, direction))
    {
      orderQuery := OrderFragment(column, direction);
    }

    method Limit(n: int)
      requires Valid()
      modifies this
      ensures Valid()
      ensures State() == old(State()).(limitQuery := LimitFragment(n))
    {
      limitQuery := LimitFragment(n);
    }

    method Offset(n: int)
      requires Valid()
      modifies this
      ensures Valid()
      ensures State() == old(State()).(offsetQuery := OffsetFragment(n))
    {
      offsetQuery := OffsetFragment(n);
    }

    method Range(start: int, end: int)
      requires Valid()
      modifies this
      ensures Valid()
      ensures State() == old(State()).(rangeQuery := RangeFragment(start, end))
    {
      rangeQuery := RangeFragment(start, end);
    }

    method Header(key: string, value: string)
      requires Valid()
      modifies this
      ensures Valid()
      ensures State() == old(State()).(headers := old(headers)[key := value])
    {
      headers := headers[key := value];
    }

    method Join(foreignTable: string, localColumn: string, operator: string, foreignColumn: string)
      requires Valid()
      modifies this
      ensures Valid()
      ensures State() == old(State()).(joins := old(joins) + [JoinSpec(foreignTable, localColumn, operator, foreignColumn)])
    {
      joins := joins + [JoinSpec(foreignTable, localColumn, operator, foreignColumn)];
    }

    method InnerJoin(foreignTable: string, localColumn: string, foreignColumn: string)
      requires Valid()
      modifies this
      ensures Valid()
      ensures State() == old(State()).(joins := old(joins) + [JoinSpec(foreignTable, localColumn, "eq", foreignColumn)])
    {
      Join(foreignTable, localColumn, "eq", foreignColumn);
    }

    /** Join with "eq", plus the header asking the server to keep unmatched rows. */
    method LeftJoin(foreignTable: string, localColumn: string, foreignColumn: string)
      requires Valid()
      modifies this
      ensures Valid()
      ensures State() == old(State()).(
        joins := old(joins) + [JoinSpec(foreignTable, localColumn, "eq", foreignColumn)],
        headers := old(headers)["Prefer" := "missing=null"])
    {
      Join(foreignTable, localColumn, "eq", foreignColumn);
      Header("Prefer", "missing=null");
    }

    method Raw(query: string)
      requires Valid()
      modifies this
      ensures Valid()
      ensures State() == old(State()).(rawQuery := query)
    {
      rawQuery := query;
    }

    method Count()
      requires Valid()
      modifies this
      ensures Valid()
      ensures State() == old(State()).(countQuery := CountExact)
    {
      countQuery := CountExact;
    }

    method Single()
      requires Valid()
      modifies this
      ensures Valid()
      ensures State() == old(State()).(singleResult := true)
    {
      singleResult := true;
    }

    method Or(fs: seq<string>)
      requires Valid()
      modifies this
      ensures Valid()
      ensures State() == old(State()).(orFilters := old(orFilters) + Grouped("or", fs))
    {
      if |fs| > 0 {
        orFilters := orFilters + [GroupFragment("or", fs)];
      }
    }

    method And(fs: seq<string>)
      requires Valid()
      modifies this
      ensures Valid()
      ensures State() == old(State()).(andFilters := old(andFilters) + Grouped("and", fs))
    {
      if |fs| > 0 {
        andFilters := andFilters + [GroupFragment("and", fs)];
      }
    }

    method Not(column: string, operator: string, value: Value)
      requires Valid()
      modifies this
      ensures Valid()
      ensures State() == old(State()).(notFilters := old(notFilters) + [NotFilterExpr(column, operator, value)])
    {
      notFilters := notFilters + [NotFilterExpr(column, operator, value)];
    }

    /** A new builder on `table.foreignTable`, sharing nothing with this one. */
    method ForeignTable(foreignTable: string) returns (q: QueryBuilder)
      ensures fresh(q)
      ensures q.State() == Fresh(table + "." + foreignTable)
      ensures q.Valid()
    {
      q := new QueryBuilder(table + "." + foreignTable);
    }

    /** The parameters BuildURL collects, appended one at a time in its fixed order. */
    method UrlParamList() returns (params: seq<string>)
      ensures params == UrlParams(State())
    {
      params := [];
      if selectQuery != "" {
        params := params + [selectQuery];
      }
      var i := 0;
      while i < |filters|
        invariant 0 <= i <= |filters|
        invariant params == Present(selectQuery) + filters[..i]
      {
        assert filters[..i + 1] == filters[..i] + [filters[i]];
        params := params + [filters[i]];
        i := i + 1;
      }
      assert filters[..i] == filters;
      ghost var expected := Present(selectQuery) + filters;
      if orderQuery != "" {
        params := params + [orderQuery];
      }
      expected := expected + Present(orderQuery);
      assert params == expected;
      if limitQuery != "" {
        params := params + [limitQuery];
      }
      expected := expected + Present(limitQuery);
      assert params == expected;
      if offsetQuery != "" {
        params := params + [offsetQuery];
      }
      expected := expected + Present(offsetQuery);
      assert params == expected;
      if countQuery != "" {
        params := params + [countQuery];
      }
    }

    /** The path and parameters of the query: `/table`, then `?` and the parameters joined by `&`. */
    method BuildURL() returns (url: string)
      ensures url == Url(State())
    {
      url := "/" + table;
      var params := UrlParamList();
      if |params| > 0 {
        url := url + "?" + Text.Join(params, "&");
      }
    }

    /** The `foreignTable(*)` projections `execute` collects from the joins. */
    method JoinSelectList() returns (joinSelects: seq<string>)
      ensures joinSelects == JoinSelects(joins)
    {
      joinSelects := [];
      var j := 0;
      while j < |joins|
        invariant 0 <= j <= |joins|
        invariant joinSelects == JoinSelects(joins[..j])
      {
        joinSelects := joinSelects + [joins[j].foreignTable + "(*)"];
        j := j + 1;
      }
      assert joins[..j] == joins;
    }

    /** The query parameters `execute` builds for a table request. */
    method TableQueryParams() returns (params: Values)
      ensures params == QueryParams(State())
    {
      params := map[];
      if selectQuery != "" {
        params := SetValue(params, "select", selectQuery);
      }
      if |joins| > 0 {
        var joinSelects := JoinSelectList();
        if selectQuery != "" {
          params := SetValue(params, "select", selectQuery + "," + Text.Join(joinSelects, ","));
        } else {
          assert "*," == "*" + ",";
          params := SetValue(params, "select", "*," + Text.Join(joinSelects, ","));
        }
        assert params == SetValue(map[], "select", SelectWithJoins(selectQuery, joins));
      }
      assert params == QueryParamsBeforeFilters(State());
      ghost var beforeFilters := params;
      var i := 0;
      while i < |filters|
        invariant 0 <= i <= |filters|
        invariant params == AddAll(beforeFilters, "and", filters[..i])
      {
        assert filters[..i + 1][..i] == filters[..i];
        params := AddValue(params, "and", filters[i]);
        i := i + 1;
      }
      assert filters[..i] == filters;
      if orderQuery != "" {
        params := SetValue(params, "order", orderQuery);
      }
      if limitQuery != "" {
        params := SetValue(params, "limit", limitQuery);
      }
      if offsetQuery != "" {
        params := SetValue(params, "offset", offsetQuery);
      }
    }

    /**
     * The planning half of `execute`: the endpoint, method, parameters,
     * headers and body of the request, or the unsupported-method error.
     * A raw query leaves the builder's method set to POST.
     */
    method Prepare(baseURL: string, data: Option<string>) returns (r: Result<Request>)
      requires Valid()
      modifies this
      ensures Valid()
      ensures r == PlanRequest(old(State()), baseURL, data)
      ensures State() == old(State()).(httpMethod := EffectiveMethod(old(State())))
    {
      var endpoint: string;
      var payload: Option<Payload> := if data.Some? then Some(CallerData(data.value)) else None;
      if rawQuery != "" {
        endpoint := baseURL + "/rest/v1/rpc/execute_sql";
        httpMethod := POST;
        payload := Some(SqlRequest(rawQuery));
      } else {
        endpoint := baseURL + "/rest/v1/" + table;
      }

      var hdrs := headers;
      var params: Values := map[];
      if rawQuery == "" {
        params := TableQueryParams();
        if rangeQuery != "" {
          hdrs := hdrs["Range" := rangeQuery];
        }
      }

      if httpMethod == GET {
        r := Ok(Request(endpoint, httpMethod, params, hdrs, None, payload));
      } else if httpMethod == POST {
        r := Ok(Request(endpoint, httpMethod, params, hdrs, payload, payload));
      } else if httpMethod == PATCH {
        r := Ok(Request(endpoint, httpMethod, params, hdrs, payload, None));
      } else if httpMethod == DELETE {
        r := Ok(Request(endpoint, httpMethod, params, hdrs, None, None));
      } else {
        r := Err(UnsupportedMethod(httpMethod));
      }
    }

    /** Runs the query with the method already on the builder; `dest` is the caller's destination. */
    method Get(baseURL: string, dest: Option<string>) returns (r: Result<Request>)
      requires Valid()
      modifies this
      ensures Valid()
      ensures r == PlanRequest(old(State()), baseURL, dest)
      ensures State() == old(State()).(httpMethod := EffectiveMethod(old(State())))
    {
      r := Prepare(baseURL, dest);
    }

    /** Get, as the rest of the terminal calls suggest it was meant: with the method set to GET. */
    method GetAsIntended(baseURL: string, dest: Option<string>) returns (r: Result<Request>)
      requires Valid()
      modifies this
      ensures Valid()
      ensures r == PlanRequest(old(State()).(httpMethod := GET), baseURL, dest)
      ensures State() == old(State()).(httpMethod := EffectiveMethod(old(State()).(httpMethod := GET)))
    {
      httpMethod := GET;
      r := Prepare(baseURL, dest);
    }

    /** Sets the limit to one row, then runs the query as Get does. */
    method First(baseURL: string, dest: Option<string>) returns (r: Result<Request>)
      requires Valid()
      modifies this
      ensures Valid()
      ensures r == PlanRequest(old(State()).(limitQuery := LimitFragment(1)), baseURL, dest)
      ensures State() == old(State()).(limitQuery := LimitFragment(1), httpMethod := EffectiveMethod(old(State())))
    {
      Limit(1);
      r := Prepare(baseURL, dest);
    }

    /** First, as Get was meant to behave: the limit set to one row and the method to GET. */
    method FirstAsIntended(baseURL: string, dest: Option<string>) returns (r: Result<Request>)
      requires Valid()
      modifies this
      ensures Valid()
      ensures r == PlanRequest(old(State()).(limitQuery := LimitFragment(1), httpMethod := GET), baseURL, dest)
      ensures State() == old(State()).(limitQuery := LimitFragment(1),
                                       httpMethod := EffectiveMethod(old(State()).(httpMethod := GET)))
    {
      Limit(1);
      httpMethod := GET;
      r := Prepare(baseURL, dest);
    }

    method Insert(baseURL: string, data: Option<string>) returns (r: Result<Request>)
      requires Valid()
      modifies this
      ensures Valid()
      ensures r == PlanRequest(old(State()).(httpMethod := POST), baseURL, data)
      ensures State() == old(State()).(httpMethod := POST)
    {
      httpMethod := POST;
      r := Prepare(baseURL, data);
    }

    method Update(baseURL: string, data: Option<string>) returns (r: Result<Request>)
      requires Valid()
      modifies this
      ensures Valid()
      ensures r == PlanRequest(old(State()).(httpMethod := PATCH), baseURL, data)
      ensures State() == old(State()).(httpMethod := EffectiveMethod(old(State()).(httpMethod := PATCH)))
    {
      httpMethod := PATCH;
      r := Prepare(baseURL, data);
    }

    /** Deletes the matching rows; no body is sent. */
    method Delete(baseURL: string) returns (r: Result<Request>)
      requires Valid()
      modifies this
      ensures Valid()
      ensures r == PlanRequest(old(State()).(httpMethod := DELETE), baseURL, None)
      ensures State() == old(State()).(httpMethod := EffectiveMethod(old(State()).(httpMethod := DELETE)))
    {
      httpMethod := DELETE;
      r := Prepare(baseURL, None);
    }
  }

  /** The connection parameters a builder's requests go out with. */
  class Client {
    var baseURL: string
    var apiKey: string

    /** NewClient: both values stored as given. */
    constructor (baseURL: string, apiKey: string)
      ensures this.baseURL == baseURL && this.apiKey == apiKey
    {
      this.baseURL := baseURL;
      this.apiKey := apiKey;
    }

    /** A fresh builder on `table`. */
    method From(table: string) returns (q: QueryBuilder)
      ensures fresh(q)
      ensures q.State() == Fresh(table) && q.Valid()
    {
      q := new QueryBuilder(table);
    }
  }
}
