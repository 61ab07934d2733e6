# go-supabase-orm query builder, modelled in Dafny

`query_builder.go` holds a fluent `QueryBuilder` for a Supabase (PostgREST)
backend. It is a mutable record of query intent: a table, a selection, filter
lists, order/limit/offset/range/count fragments, custom headers, joins, a raw
SQL override and an HTTP method. Chained setters fill the record in. Two steps
read it:

- `BuildURL` renders `/table?p1&p2&…` from a fixed subset of the fields.
- The unexported `execute` plans a request and dispatches it. It is reached
  through `Get`, `First`, `Insert`, `Update` and `Delete`, and decides:
  - the endpoint, method, query parameters, headers and body;
  - or it returns the "unsupported HTTP method" error;
  - then, given the server's answer, whether to decode it.

The model has three modules.

- `Text` (text.dfy) covers Go's `strings.Join` and the `%d` rendering of
  integers. It also defines their inverses, `Split` and `ParseInt`, and proves
  the round trips, so the rendered strings can be shown to lose nothing.
- `SupabaseOrm` (query_builder.dfy) holds the rest of the model.
  - `BuilderState` is the builder's fields as one value.
  - The fragment functions give the strings the setters store.
  - `Url` and `UrlParams` specify `BuildURL`.
  - `QueryParams` (over a model of `url.Values`) and `PlanRequest` specify
    `execute`'s planning. `Complete` gives its end once the transport answers.
  - `class QueryBuilder` has the Go struct's fields except the `client`
    pointer. The model replaces it by a base-URL parameter of the terminal
    calls. Each setter is a method that states the builder's whole new
    state, `State() == old(State()).(field := …)`, and keeps the invariant
    `Valid()`. The terminal calls keep it too. The invariant says:
    - the order, limit, offset and range fragments are unset or exactly what
      their setter stores;
    - no plain filter is empty;
    - each or/and/not entry carries its prefix;
    - the count fragment is unset or `count=exact`.
  - `BuildURL` and `Prepare` (the planning half of `execute`) are loops
    proved equal to `Url` and `PlanRequest`.
- `QueryBuilderProperties` (properties.dfy) holds three groups of members:
  - lemmas about the specification functions: the URL's shape, order and
    parseability, the contents of the query parameters, raw-query and table
    requests, method dispatch, and decoding;
  - the two findings below;
  - scenario methods that drive the class through the setters.

Where the tests in `query_builder_test.go` disagree with the code, the model
follows the code:

- `Select` stores the bare comma-join, with no `select=` prefix
  (query_builder.go:92; the test expects one at query_builder_test.go:27).
- Filters are `column.operator.value` (query_builder.go:98; the test expects
  `name=eq.John` at query_builder_test.go:66).
- `Count` only ever stores `count=exact`. There is no `count=estimated`
  (query_builder.go:211 against query_builder_test.go:274).
- Slice values are not rendered as `(1,2,3)` (query_builder_test.go:87).
  Filter values are modelled as integers and strings only.

## Model

| member | source | states |
|---|---|---|
| SupabaseOrm.QueryBuilder.constructor | query_builder.go:35-40 | NewQueryBuilder: the table is set, every other field holds Go's zero value, and the invariant holds |
| SupabaseOrm.Client.constructor | query_builder.go:43-48 | NewClient stores the base URL and the API key as given |
| SupabaseOrm.Client.From | query_builder.go:51-55 | returns a new builder in exactly the state NewQueryBuilder(table) gives |
| SupabaseOrm.QueryBuilder.Select | query_builder.go:91-94 | the selection becomes the comma-join of the columns with no prefix (a later Select replaces it); every other field is unchanged |
| SupabaseOrm.QueryBuilder.Where | query_builder.go:97-100 | appends exactly one `column.operator.value` to the end of the filters; earlier filters and all other fields are unchanged |
| SupabaseOrm.QueryBuilder.Filter | query_builder.go:352-354 | same new state as Where |
| SupabaseOrm.QueryBuilder.OrWhere | query_builder.go:103-106 | appends `or(column.operator.value)` to the plain filters and changes nothing else |
| SupabaseOrm.QueryBuilder.WhereRaw | query_builder.go:109-112 | appends `and(condition)` to the plain filters and changes nothing else |
| SupabaseOrm.QueryBuilder.Order | query_builder.go:115-118 | overwrites the order fragment with `order=column.direction`; nothing else changes, so only the last call survives |
| SupabaseOrm.QueryBuilder.Limit | query_builder.go:121-124 | overwrites the limit fragment with `limit=` and the `%d` rendering of n (0 and negatives included) |
| SupabaseOrm.QueryBuilder.Offset | query_builder.go:127-130 | overwrites the offset fragment with `offset=` and the rendering of n |
| SupabaseOrm.QueryBuilder.Range | query_builder.go:133-136 | overwrites the range fragment with `range=start-end` |
| SupabaseOrm.QueryBuilder.Header | query_builder.go:139-142 | sets or overwrites one custom header and leaves the others and all other fields unchanged |
| SupabaseOrm.QueryBuilder.Join | query_builder.go:146-154 | appends one join descriptor with all four components, in call order |
| SupabaseOrm.QueryBuilder.InnerJoin | query_builder.go:157-159 | appends a join whose operator is `eq` |
| SupabaseOrm.QueryBuilder.LeftJoin | query_builder.go:163-171 | appends an `eq` join and sets the header `Prefer: missing=null`; nothing else changes |
| SupabaseOrm.QueryBuilder.Raw | query_builder.go:175-178 | stores the raw query and changes nothing else |
| SupabaseOrm.QueryBuilder.Count | query_builder.go:210-213 | overwrites the count fragment with `count=exact` |
| SupabaseOrm.QueryBuilder.Single | query_builder.go:346-349 | sets the single-result flag and nothing else |
| SupabaseOrm.QueryBuilder.Or | query_builder.go:400-405 | appends one `or=(f1,…,fn)` to the or-groups when given filters; with none the builder is unchanged; plain filters are never touched |
| SupabaseOrm.QueryBuilder.And | query_builder.go:408-413 | the same for `and=(f1,…,fn)` and the and-groups |
| SupabaseOrm.QueryBuilder.Not | query_builder.go:416-420 | appends `not.column=operator.value` to the not-filters only |
| SupabaseOrm.QueryBuilder.ForeignTable | query_builder.go:423-425 | returns a new builder on `table.foreignTable` with nothing copied; the parent is not modified |
| SupabaseOrm.QueryBuilder.UrlParamList | query_builder.go:361-384 | the list BuildURL collects is exactly: the selection, each filter in insertion order, then order, limit, offset and count, each only when set |
| SupabaseOrm.QueryBuilder.BuildURL | query_builder.go:357-391 | returns `/table`, followed by `?` and the collected parameters joined by `&` only when there is at least one |
| SupabaseOrm.QueryBuilder.JoinSelectList | query_builder.go:262-267 | `foreignTable(*)` for each join, in join order |
| SupabaseOrm.QueryBuilder.TableQueryParams | query_builder.go:249-297 | the parameter multimap of a table request equals the specification QueryParams |
| SupabaseOrm.QueryBuilder.Prepare | query_builder.go:216-322 | the planning half of execute: the result is PlanRequest of the state on entry; the only state change is that a raw query leaves the method set to POST |
| SupabaseOrm.PlanRequest | query_builder.go:216-322 | the specification of execute's planning that Prepare is proved equal to; its properties are the request lemmas below |
| SupabaseOrm.Url | query_builder.go:357-391 | the specification of BuildURL; its properties are the URL lemmas below |
| SupabaseOrm.QueryParams | query_builder.go:249-297 | the specification of the query-parameter multimap; its properties are in QueryParamsContents |
| SupabaseOrm.Complete | query_builder.go:324-342 | the end of execute once the transport answers (the transport's answer is a parameter); its properties are in CompleteOutcome |
| SupabaseOrm.QueryBuilder.Get | query_builder.go:181-183 | runs execute with the method already on the builder (as written; see Findings) |
| SupabaseOrm.QueryBuilder.GetAsIntended | query_builder.go:181-183 | Get with the method set to GET first |
| SupabaseOrm.QueryBuilder.First | query_builder.go:186-189 | sets the limit fragment to `limit=1` and then plans as Get does; the invariant is kept |
| SupabaseOrm.QueryBuilder.FirstAsIntended | query_builder.go:186-189 | First with the method set to GET after the limit |
| SupabaseOrm.QueryBuilder.Insert | query_builder.go:192-195 | sets the method to POST and plans with the caller's data as the body |
| SupabaseOrm.QueryBuilder.Update | query_builder.go:198-201 | sets the method to PATCH and plans with the caller's data as the body |
| SupabaseOrm.QueryBuilder.Delete | query_builder.go:204-207 | sets the method to DELETE and plans with no data |
| SupabaseOrm.PlanRequestAsIntended | query_builder.go:226-235 | the corrected plan: the same request in every part but the decode target, which is only ever the caller's value |
| Text.SplitJoin | query_builder.go:387 | splitting a `&`-joined (or `,`-joined) list on the separator gives the list back when no element contains it |
| Text.JoinSplit | query_builder.go:92 | joining the pieces of a split string gives the string back |
| Text.IntToString | query_builder.go:122 | the `%d` rendering is non-empty, starts with `-` exactly for negatives, and every later character is a digit |
| Text.IntToStringCanonical | query_builder.go:122 | past the optional sign the rendering is non-empty digits with no leading zero, and zero renders as `0` |
| Text.ParseIntToString | query_builder.go:122 | parsing the `%d` rendering of any integer gives the integer back |
| Text.IntToStringInjective | query_builder.go:128 | distinct integers render differently |
| QueryBuilderProperties.UrlBarePathIffNoParams | query_builder.go:386-388 | the URL is the bare `/table` exactly when selection, filters, order, limit, offset and count are all unset |
| QueryBuilderProperties.UrlQuerySplitsIntoParams | query_builder.go:357-391 | after `/table?` the URL splits on `&` back into the parameters in BuildURL's order |
| QueryBuilderProperties.UrlIgnoresUnrenderedFields | query_builder.go:357-391 | range, joins, or/and/not groups, headers, raw query and method never affect the URL |
| QueryBuilderProperties.WellFormedUrlParamsNonEmpty | query_builder.go:361-384 | on any builder the setters can produce, no URL parameter is empty |
| QueryBuilderProperties.LimitFragmentParses | query_builder.go:121-124 | `limit=` followed by a numeral that parses back to n |
| QueryBuilderProperties.OffsetFragmentParses | query_builder.go:127-130 | `offset=` followed by a numeral that parses back to n |
| QueryBuilderProperties.DashPairInjective | query_builder.go:134 | two renderings joined by `-` determine both integers, whatever their signs |
| QueryBuilderProperties.RangeFragmentInjective | query_builder.go:133-136 | `range=a-b` determines both bounds |
| QueryBuilderProperties.GroupFragmentSplits | query_builder.go:400-413 | an or/and group is `kind=(`, the filters joined by `,` (recoverable by splitting), and `)` |
| QueryBuilderProperties.AddAllAppends | query_builder.go:280-283 | adding the filters one by one under `and` leaves them, in order, after what the key held |
| QueryBuilderProperties.QueryParamsContents | query_builder.go:249-297 | which keys a table request carries, each exactly when its field is set, and their values: select (with joins), every filter under `and` in order, order, limit, offset; never count |
| QueryBuilderProperties.SelectWithJoinsShape | query_builder.go:259-278 | with joins, select is the selection (or `*`) followed by `,` and `table(*)` per join |
| QueryBuilderProperties.RawQueryRequest | query_builder.go:220-239 | a raw query POSTs `{query: raw}` to `base/rest/v1/rpc/execute_sql`, with only the custom headers and no parameters, whatever the other fields hold |
| QueryBuilderProperties.DispatchAcceptsFourMethods | query_builder.go:311-322 | without a raw query the plan fails exactly when the method is not GET, POST, PATCH or DELETE, with `unsupported HTTP method: <m>` |
| QueryBuilderProperties.TableRequest | query_builder.go:236-306 | a table request goes to `base/rest/v1/table` with the builder's method, QueryParams, the custom headers and a Range header carrying the range fragment |
| QueryBuilderProperties.BodyAndDecoding | query_builder.go:311-340 | GET and DELETE send no body; POST and PATCH send the caller's data; only GET and POST with data decode, into that data |
| QueryBuilderProperties.RequestIgnoresUnsentFields | query_builder.go:216-343 | count, single and the or/and/not groups never reach the request |
| QueryBuilderProperties.CompleteOutcome | query_builder.go:324-342 | a transport error is returned as is, an error status as `API error: <text>`, a decode into a non-pointer fails; otherwise decoding happens exactly when planned |
| QueryBuilderProperties.GetWithoutMethodFails | query_builder.go:181-183 | on a builder whose method was never set, Get's plan is the error `unsupported HTTP method: ` |
| QueryBuilderProperties.IntendedGetSucceeds | query_builder.go:311-313 | with the method set to GET, a body-less GET to the table endpoint that decodes into the destination |
| QueryBuilderProperties.IntendedFirstSucceeds | query_builder.go:186-189 | First with GET plans a GET to the table endpoint whose `limit` parameter is `limit=1` |
| QueryBuilderProperties.RawQueryResponseFails | query_builder.go:226-340 | every raw query the server answers successfully ends in the non-pointer decoding error |
| QueryBuilderProperties.IntendedRawQueryDecodes | query_builder.go:226-340 | as intended, a raw query still sends the wrapper and its successful answer is decoded into the caller's value; table requests are unchanged |
| QueryBuilderProperties.ComplexQueryUrl | query_builder_test.go:312-320 | Select, Filter, Order, Limit and Offset on `users` render `/users?id,name,email&age.gte.18&order=created_at.desc&limit=10&offset=20` |
| QueryBuilderProperties.SelectFilterUrl | query_builder_test.go:303-309 | Select("*") and Filter("age","gt",18) render `/users?*&age.gt.18` |
| QueryBuilderProperties.SelectCountUrl | query_builder_test.go:322-328 | Select("*") and Count render `/users?*&count=exact` |
| QueryBuilderProperties.SelectFilterRequest | query_builder.go:249-283 | the request for selection `id,name` and filter `age.gt.18`: the method error as written; with GET, the parameters `select=[id,name]`, `and=[age.gt.18]` |
| QueryBuilderProperties.SelectFilterGet | query_builder_test.go:362-364 | the same builder driven through the setters and Get: the error as written, the planned GET as intended |
| QueryBuilderProperties.RawQueryGet | query_builder.go:175-178 | Raw and then Get: a successful answer ends in the decoding error as written, and is decoded as intended |
| QueryBuilderProperties.LastSetterWins | query_builder.go:115-124 | Limit and Order called twice keep only the last values, and `limit=0` is rendered |
| QueryBuilderProperties.ForeignTableOfUsers | query_builder_test.go:591-597 | a foreign-table builder of a filtered `users` builder renders `/users.posts`, with no copied filters |

## Left out

- The HTTP round trip (resty's `Get`/`Post`/`Patch`/`Delete`, `IsError`, `String`) is not modelled. It is I/O; `Complete` takes the transport's answer as a parameter.
- JSON encoding of bodies and decoding of answers is not modelled. The model only records which value a response is decoded into.
- URL encoding and key sorting of `url.Values` are not modelled. The query parameters are kept as a multimap.
- Header key canonicalisation by the HTTP library is not modelled.
- Go's map iteration order when headers are copied is irrelevant to a map, so it is not modelled.
- `Client.GetBaseURL` and `Client.RawRequest` are not part of this model. The base URL is a parameter of planning.
- `From` never stores the client pointer on the builder, so `execute` on such a builder would dereference nil. This is not modelled.
- `RPC` (query_builder.go:58-61) and `Execute` (query_builder.go:394-397) are stubs that return nil. They are not modelled.
- `%v` of values other than integers and strings (slices, floats, structs) is not modelled. `Value` has ints and strings only.
- Go's 64-bit `int` is modelled as an unbounded integer. Its range does not affect any of the strings.
- The setters return the receiver for chaining. The model's methods return nothing, and the scenarios chain by calling them in sequence.
- doc.go documents APIs (`New`, `Table`, `Auth`) that are not part of this model.
- SupabaseOrm.QueryBuilder.Header: writes into a nil map on every builder made by NewQueryBuilder, which panics in Go. The model treats it as a plain map update.
- SupabaseOrm.QueryBuilder.LeftJoin: reaches the same nil-map write through Header. It is modelled as succeeding.
- SupabaseOrm.Complete: assumes the caller's value is a pointer that JSON can decode into. Decoding errors of the caller's own value are not modelled. Every successful answer is assumed to be well-formed JSON. On a body that is not JSON (an empty 204 body, for example), `json.Unmarshal` reports a syntax error before it checks for a pointer.
- QueryBuilderProperties.RawQueryResponseFails: the exact non-pointer message holds only for a JSON body. For any other body a raw query still fails, but with a JSON syntax error.
- QueryBuilderProperties.RawQueryGet: the same assumption of a JSON body applies to its as-written result.

## Findings

| source | as written | input that shows it | evidently intended | confidence | as-written member | corrected member |
|---|---|---|---|---|---|---|
| query_builder.go:181-189 | Get and First call execute without setting the method. A new builder's method is empty, and only Insert, Update, Delete and a raw query set it. So the switch at query_builder.go:311-322 rejects the request with `unsupported HTTP method: ` | a builder on `users` whose client is set, with `Select("id","name")` and `Filter("age","gt",18)`, then `Get(&rows)` | Get and First issue a GET to the table endpoint and decode into the destination (proved in IntendedGetSucceeds and IntendedFirstSucceeds; First's corrected member is FirstAsIntended) | not executed | QueryBuilderProperties.GetWithoutMethodFails | SupabaseOrm.QueryBuilder.GetAsIntended |
| query_builder.go:226-340 | For a raw query, execute replaces the caller's value by a `sqlRequest` struct value. The method is POST, so a successful answer is passed to `json.Unmarshal` with that non-pointer, which always fails; the caller's value is never filled. The non-pointer message is the one for a JSON body | a builder with `Raw("select 1")` and its client set, then `Insert(&rows)`, answered with status 200 and a JSON body | the wrapper is sent as the body, and the answer is decoded into the caller's value (proved in IntendedRawQueryDecodes) | not executed | QueryBuilderProperties.RawQueryResponseFails | SupabaseOrm.PlanRequestAsIntended |
