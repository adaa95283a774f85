# monasca-log-api: the log-listing pipeline, in Dafny

This project models the read side of the monasca-log-api v3 service and proves
properties of that model. A listing request goes through these steps:

1. **Authorization.** The caller's roles are checked against the read roles.
2. **Tenant resolution.** The caller's project is used, or the query's
   `tenant_id` when the caller holds a delegate role.
3. **Query parsing.** The query parameters are parsed into the arguments of
   `list_logs`:
   - `dimensions`: `name:value|value,...`;
   - `start_time` and `end_time`;
   - `offset`, and `limit` (default 10);
   - `sort_by`: `timestamp asc|desc,...`.
4. **Repository call.** The repository turns the query into an Elasticsearch
   search, hands it to the client and tidies the hits. Each hit becomes a
   `{timestamp, message, dimensions}` record.

The model covers every step, in these modules:

- **Base.** Shared values:
  - the error kinds, each named by its HTTP status: 422, 400 and 401;
  - a failed Python `assert`;
  - an uncaught `KeyError`/`IndexError`/`TypeError`;
  - `RepositoryException`;
  - `Result`, JSON-like documents and decoded query parameters;
  - `Collaborators`, the routines of other libraries that the helpers call.
- **Py, PyDict.** Python's `str.split`, `split(None)`, `split(sep, 1)`,
  `str.format` of one field, `int()` and `lower()`. Insertion-ordered dicts.
- **LogsRepository.** The `Dimension` and `SortBy` records, the arguments of
  `list_logs`, and what its doc contract says a returned log matches.
- **ReferenceHelpers.** The helpers of the reference API. Both APIs share
  them, except for the time handling.
- **AppHelpers.** The helpers where the app controller differs:
  - authorization;
  - time conversion straight to whole seconds;
  - the start/end check, which accepts equal times;
  - `sort_by` parsing, which the reference parser has a copy of.
- **QueryRequests.** The reference parser `get_list_logs_query`. "No
  dimensions" is `None` there.
- **LogsController.** The app controller:
  - `_get_list_logs_query`, where "no dimensions" is `{}`;
  - the decision order of `on_get`, on a `Response` object;
  - the tenant of a bulk post;
  - `__init__`'s role list.
- **SearchBuilder.** It turns a query into `{index, body}`.
  - Pure functions give the index, the terms clauses, the range clause, the
    sort clauses and the body.
  - The `SearchBuilder` class builds the filter list and the body step by
    step, as the source does. Each method is proved to produce exactly what
    those functions describe.
  - Ghost decoders read a built search back. Round-trip lemmas show that the
    search asks for exactly the query: the size, the from, every dimension
    in order, the inclusive bounds and the sort specs.
- **ResultTransformer.** Dotted-path lookup and `tidy`.
  - Lookup is proved equal to looking up each segment in turn.
  - Each record has exactly three keys.
  - A listing has one record per hit, in hit order.
- **EsLogsRepository.** The Elasticsearch repository:
  - connecting to the client, with a failure mapped to a repository error;
  - `list_logs`, which hands exactly the built search to a client object that
    records its searches, wraps the client's exceptions, and tidies the
    reply;
  - the static `_index` with its call-time assertions.

  The repository's static `_build_list_logs`, `_body`, `_filters`, `_sort`,
  `_terms_clause`, `_sort_clause` and `_transform_list_logs_result` are the
  same code as `SearchBuilder` and `ResultTransformer`. They read the global
  options instead. They are modelled as those modules over the configured
  fields.
- **Pipeline.** End-to-end theorems. Any query either parser accepts, for a
  caller with a tenant, always builds into a search: the builder's
  assertions about the limit and the sort specs can never fire on it. That
  search reads back as the query.

Routines outside this code are parameters of the model:

- the dimension key and value validators of `monasca_common`;
- `oslo_utils` ISO-8601 parsing, normalised to UTC and given as seconds since
  the epoch;
- the Elasticsearch client's answer, as a function of the request it is
  handed.

In three places the model follows the code where the code's behaviour is
easy to misread:

- An absent start with a present end passes the reference start/end check.
  That is what Python 2 does, where `None` is below every number; Python 3
  would raise `TypeError`.
- The app controller's "no dimensions" is `{}`, not `None`, and its
  start/end check accepts equal times.
- A whitespace-only `sort_by` spec, or a lone `timestamp`, fails uncaught.
  No direction is defaulted. A lone word other than `timestamp` gets the
  422 about the field.

## Model

Paths are relative to the repository root. In the table:

- `ref` is `monasca_log_api/reference/v3/common/helpers.py`;
- `app` is `monasca_log_api/app/controller/v3/aid/helpers.py`;

and the remaining paths are written in full.

| member | source | states |
|---|---|---|
| LogsRepository.AnyValueMatches | monasca_log_api/common/repositories/logs_repository.py:38-41 | a dimension with several values matches a log exactly when a filter on one of those values matches it |
| LogsRepository.NoValuesMatchAny | monasca_log_api/common/repositories/logs_repository.py:41-42 | a dimension without values matches a log with any value for it, and so does any value list holding that value |
| LogsRepository.FiltersConjoin | monasca_log_api/common/repositories/logs_repository.py:36-46 | a log matches a query with one more dimension filter exactly when it matches the query without it and that filter; without dimension filters only the time range decides |
| LogsRepository.TimeBoundsInclusive | monasca_log_api/common/repositories/logs_repository.py:43-46 | both bounds are inclusive: a log stamped at either bound is in range, and a range whose end precedes its start holds nothing |
| ReferenceHelpers.GetLogs | monasca_log_api/reference/v3/common/helpers.py:57-62 | succeeds exactly when the body has `logs` and returns it, otherwise 422 "Unprocessable Entity Logs not found" (the same routine as app:66-71 and the controller's `_get_logs`) |
| ReferenceHelpers.AnyIn | monasca_log_api/reference/v3/common/helpers.py:73 | true exactly when some element of the first list is in the second |
| ReferenceHelpers.RoleItems | monasca_log_api/reference/v3/common/helpers.py:73 | iterating the roles visits a list's elements, or a string's characters one by one |
| ReferenceHelpers.GetXTenantOrTenantId | monasca_log_api/reference/v3/common/helpers.py:65-78 | the query `tenant_id` when a caller role is a delegate role and the query has one; otherwise the caller's project (app:108-128 is the same code) |
| ReferenceHelpers.GetQueryParam | monasca_log_api/reference/v3/common/helpers.py:81-98 | a string value as is, the first element of a list, 422 "list index out of range" for an empty list, the default when absent and optional, 422 "Missing <name>" when it is required (app:131-148 is the same code) |
| ReferenceHelpers.RepeatedParamReadsFirst | monasca_log_api/reference/v3/common/helpers.py:85-87 | a repeated parameter reads as its first occurrence |
| ReferenceHelpers.GetIntQueryParam | monasca_log_api/reference/v3/common/helpers.py:223-232 | `None` and int defaults pass through; the text of a string, or the first element of a non-empty list, is parsed by `int()`; unparsable text, given or default, gives 422 "Parameter <name> value <text> must be an integer"; an empty list gives 422 "list index out of range"; the result is `None` only for an absent parameter with no default (app:279-288 is the same code) |
| ReferenceHelpers.IntQueryParamRoundTrip | monasca_log_api/reference/v3/common/helpers.py:223-232 | the decimal text of every integer reads back as that integer |
| ReferenceHelpers.SplitAll | monasca_log_api/reference/v3/common/helpers.py:119-121 | the pieces of every text split on the separator, none holding it |
| ReferenceHelpers.DimensionFragments | monasca_log_api/reference/v3/common/helpers.py:115-121 | the comma-free fragments of a string, or of each element of a list in turn |
| ReferenceHelpers.SplitAllJoin | monasca_log_api/reference/v3/common/helpers.py:118-121 | splitting each element and joining everything with commas gives the elements joined with commas |
| ReferenceHelpers.ListFragmentsAsJoined | monasca_log_api/reference/v3/common/helpers.py:115-121 | a list value yields the same fragments as one string of its elements joined by commas |
| ReferenceHelpers.ParseDimensionFragments | monasca_log_api/reference/v3/common/helpers.py:125-132 | succeeds exactly when no fragment has two colons or more, otherwise "Dimensions are malformed" |
| ReferenceHelpers.ParseLastFragment | monasca_log_api/reference/v3/common/helpers.py:125-130 | the last fragment stores its name and value (`""` without a colon) into the mapping of the others |
| ReferenceHelpers.ParsedDistinct | monasca_log_api/reference/v3/common/helpers.py:128-130 | the parsed mapping holds each name once |
| ReferenceHelpers.FragmentNames | monasca_log_api/reference/v3/common/helpers.py:126-130 | the name each fragment stores under, in order |
| ReferenceHelpers.ParsedKeys | monasca_log_api/reference/v3/common/helpers.py:125-130 | the keys of the mapping are exactly the fragments' names |
| ReferenceHelpers.LastFragmentWins | monasca_log_api/reference/v3/common/helpers.py:128-130 | a repeated name keeps the value of its last fragment |
| ReferenceHelpers.QueryDimensions | monasca_log_api/reference/v3/common/helpers.py:101-137 | the empty mapping when the parameter is absent, otherwise the parsed fragments (app:152-188 is the same code) |
| ReferenceHelpers.GatherFragments | monasca_log_api/reference/v3/common/helpers.py:115-121 | the loop that splits and extends gathers exactly `DimensionFragments` |
| ReferenceHelpers.StoreFragments | monasca_log_api/reference/v3/common/helpers.py:125-133 | the loop that stores each fragment into the dict, stopping at a malformed one, gives exactly `ParseDimensionFragments` |
| ReferenceHelpers.GetQueryDimensions | monasca_log_api/reference/v3/common/helpers.py:109-137 | the two loops together give exactly `QueryDimensions` |
| ReferenceHelpers.CheckValue | monasca_log_api/reference/v3/common/helpers.py:160-164 | a value passes exactly when the value validator accepts it; otherwise 422 with the validator's text |
| ReferenceHelpers.ValidateEntry | monasca_log_api/reference/v3/common/helpers.py:149-166 | 422 for a key starting with `_` or refused by the key validator; otherwise no values for an empty value, and the `\|`-separated pieces, each validated, for any other value; a refused value gives 422 with the validator's text for the first refused piece |
| ReferenceHelpers.ValidatedValuesRoundTrip | monasca_log_api/reference/v3/common/helpers.py:157-164 | the values of a validated dimension joined by `\|` give back the text |
| ReferenceHelpers.ValidatedDimensions | monasca_log_api/reference/v3/common/helpers.py:140-172 | succeeds exactly when every entry does; one output pair per entry, in mapping order; otherwise the error of the first refused entry (app:191-223 is the same code) |
| ReferenceHelpers.ValidateOne | monasca_log_api/reference/v3/common/helpers.py:150-166 | the key checks and the value loop for one entry give exactly `ValidateEntry` |
| ReferenceHelpers.ValidateQueryDimensions | monasca_log_api/reference/v3/common/helpers.py:146-172 | the appending loop returns exactly `ValidatedDimensions` |
| ReferenceHelpers.GetQueryTimestamp | monasca_log_api/reference/v3/common/helpers.py:175-202 | absent: 422 with the "Missing" text when required, otherwise `None`; present: the parse in seconds, or 422 with the parser's text |
| ReferenceHelpers.GetQueryStartTimestamp | monasca_log_api/reference/v3/common/helpers.py:175-187 | the same for `start_time`, with "Missing start time" |
| ReferenceHelpers.GetQueryEndTimestamp | monasca_log_api/reference/v3/common/helpers.py:190-202 | the same for `end_time`, with "Missing end time" |
| ReferenceHelpers.ValidateStartEndTimestamps | monasca_log_api/reference/v3/common/helpers.py:205-209 | fails exactly when the end is truthy and the start is not strictly before it, with 400 "start_time must be before end_time" |
| AppHelpers.LowerAll | monasca_log_api/app/controller/v3/aid/helpers.py:97 | every role lower-cased, in order |
| AppHelpers.Authorization | monasca_log_api/app/controller/v3/aid/helpers.py:75-104 | 401 "Tenant does not have any roles" for empty roles; otherwise success exactly when some role, lower-cased, is an authorized role lower-cased; otherwise 401 "Tenant ID is missing a required role to access this service" |
| AppHelpers.AuthorizationIgnoresCase | monasca_log_api/app/controller/v3/aid/helpers.py:95-104 | the case of the caller's roles and of the authorized roles does not change the outcome |
| AppHelpers.ValidateAuthorization | monasca_log_api/app/controller/v3/aid/helpers.py:75-104 | the loop with its early return gives exactly `Authorization` |
| AppHelpers.GetQueryStartTimestamp | monasca_log_api/app/controller/v3/aid/helpers.py:226-238 | absent: "Missing start time" or `None`; present: the truncated parse, failing exactly when the parse fails |
| AppHelpers.GetQueryEndTimestamp | monasca_log_api/app/controller/v3/aid/helpers.py:242-255 | the same for `end_time` |
| AppHelpers.ValidateTimestampOrder | monasca_log_api/app/controller/v3/aid/helpers.py:259-263 | fails exactly when both times are given and the start is after the end, with 400 |
| AppHelpers.TimestampChecksCompared | monasca_log_api/app/controller/v3/aid/helpers.py:259-263 | equal non-zero times are refused by the reference check and accepted by this one; whatever the reference check accepts, this one accepts |
| AppHelpers.ParseSortSpec | monasca_log_api/app/controller/v3/aid/helpers.py:309-326 | succeeds exactly for `timestamp asc` and `timestamp desc`, as separated by whitespace, giving that `SortBy`; 422 for more than two words, for another field and for another direction, each with its text; no words or a lone `timestamp` fail uncaught |
| AppHelpers.SortSpecRoundTrip | monasca_log_api/app/controller/v3/aid/helpers.py:309-326 | a valid `SortBy` written as `field direction` parses back to itself |
| AppHelpers.SortSpecs | monasca_log_api/app/controller/v3/aid/helpers.py:291-328 | `None` when absent or an empty list; a non-empty one succeeds exactly when every comma piece parses, with one `SortBy` per piece in input order, each a valid sort; otherwise the error of the first failing piece (qr 72-109 is the same code) |
| AppHelpers.CheckSortSpec | monasca_log_api/app/controller/v3/aid/helpers.py:310-326 | the checks made of one spec, in their order, give exactly `ParseSortSpec` |
| AppHelpers.CheckSortSpecs | monasca_log_api/app/controller/v3/aid/helpers.py:307-328 | the appending loop parses every spec in order and stops at the first refused |
| AppHelpers.GetSortBy | monasca_log_api/app/controller/v3/aid/helpers.py:291-328 | exactly `SortSpecs` |
| QueryRequests.GetDimensions | monasca_log_api/reference/v3/common/query_requests.py:62-69 | `None` when the parsed mapping is empty; for a non-empty mapping, the validated dimensions in mapping order, or the validation error; the parse error unchanged |
| QueryRequests.ListLogsQueryOf | monasca_log_api/reference/v3/common/query_requests.py:21-59 | the error of the first failing step (dimensions, start, end, start/end check, offset, limit, sort_by), success when none fails; the tenant is the request's project; offset and limit are their parameters' readings, limit 10 by default; each time is the truncated parse; the sort specs and the dimensions are their parsers' results; an accepted start is strictly before a non-zero end, compared before truncation |
| QueryRequests.GetListLogsQuery | monasca_log_api/reference/v3/common/query_requests.py:21-59 | the step-by-step parser that truncates the times after the check gives exactly `ListLogsQueryOf` |
| QueryRequests.DefaultLimitParses | monasca_log_api/reference/v3/common/query_requests.py:47 | the default `'10'` reads as 10 |
| QueryRequests.EqualTimesRejected | monasca_log_api/reference/v3/common/query_requests.py:37-39 | equal non-zero start and end times are refused with 400 |
| QueryRequests.CheckedBeforeTruncation | monasca_log_api/reference/v3/common/query_requests.py:37-44 | a start before an end in the same second (10.25 and 10.75, say) passes the check, and both become that second |
| LogsController.GetDimensions | monasca_log_api/app/controller/v3/logs.py:148-151 | `{}` when the parsed mapping is empty; for a non-empty mapping, the validated dimensions in mapping order, or the validation error; the parse error unchanged |
| LogsController.DimensionsAgree | monasca_log_api/app/controller/v3/logs.py:148-151 | it agrees with the reference parser except that "none" is `{}` here and `None` there |
| LogsController.ListLogsQueryOf | monasca_log_api/app/controller/v3/logs.py:146-173 | the error of the first failing step (dimensions, start, end, order check, offset, limit, sort_by), success when none fails; the tenant is the argument; offset and limit are their parameters' readings, limit 10 by default; each time is the truncated parse; an accepted start is never after the end |
| LogsController.EqualTimesAccepted | monasca_log_api/app/controller/v3/logs.py:153-157 | times in the same second pass when the other parameters do |
| LogsController.PostTenant | monasca_log_api/app/controller/v3/logs.py:95-96 | the cross-project id when set and non-empty, otherwise the project |
| LogsController.GetOutcome | monasca_log_api/app/controller/v3/logs.py:117-129 | an authorization failure is returned before anything else; then a parse error or a repository error is returned unchanged; otherwise the body is `{'elements': <the repository's listing>}`, records with exactly three fields |
| LogsController.IssuedSearch | monasca_log_api/app/controller/v3/logs.py:117-126 | an authorized request whose query parses and builds issues exactly that search, for the delegate-resolved tenant; no other request issues one |
| LogsController.Response.constructor | monasca_log_api/app/controller/v3/logs.py:127-129 | a fresh response with status 200 and no body |
| LogsController.Logs.constructor | monasca_log_api/app/controller/v3/logs.py:39-64 | the read roles are the default roles followed by the read-only roles |
| LogsController.Logs.ListForRequest | monasca_log_api/app/controller/v3/logs.py:117-127 | with a repository, exactly `GetOutcome`; the client receives exactly the issued search |
| LogsController.Logs.OnGet | monasca_log_api/app/controller/v3/logs.py:110-129 | without a repository: 500, nothing else changed; otherwise status 200 with the outcome on success, or the error with the response untouched; the client receives exactly the issued search |
| SearchBuilder.Index | monasca_log_api/common/repositories/elasticsearch/search_builder.py:48-52 | fails its assertion exactly when there is no tenant; otherwise the pattern with the tenant's text in place of the field |
| SearchBuilder.IndexSubstitutes | monasca_log_api/common/repositories/elasticsearch/search_builder.py:52 | a pattern holding the field once reads as the text before it, the tenant, and the rest |
| SearchBuilder.IndexExample | monasca_log_api/common/repositories/elasticsearch/search_builder.py:48-52 | `monasca-{tenant_id}-*` with a tenant such as `abc123` gives `monasca-abc123-*` |
| SearchBuilder.TermsClauses | monasca_log_api/common/repositories/elasticsearch/search_builder.py:64-65 | one terms clause per dimension, in order |
| SearchBuilder.Bounds | monasca_log_api/common/repositories/elasticsearch/search_builder.py:67-71 | `gte` exactly for a truthy start and `lte` exactly for a truthy end, each holding that time |
| SearchBuilder.FiltersFor | monasca_log_api/common/repositories/elasticsearch/search_builder.py:59-79 | the terms clauses in dimension order, then one range clause exactly when a bound is truthy |
| SearchBuilder.FiltersEmpty | monasca_log_api/common/repositories/elasticsearch/search_builder.py:59-79 | there are no filters exactly when there are no dimensions and no truthy bound |
| SearchBuilder.SortClause | monasca_log_api/common/repositories/elasticsearch/search_builder.py:113-125 | succeeds exactly for a `timestamp` spec with `asc` or `desc`, otherwise fails its assertion |
| SearchBuilder.Sort | monasca_log_api/common/repositories/elasticsearch/search_builder.py:54-57 | one clause per spec, in order; fails exactly when some spec is invalid |
| SearchBuilder.BodyFor | monasca_log_api/common/repositories/elasticsearch/search_builder.py:81-103 | fails exactly without a limit or for a non-empty sort with an invalid spec; `size` is the limit; `from` exactly for a truthy offset; `query` exactly when there are filters; `sort` exactly for a non-empty `sort_by` |
| SearchBuilder.SearchFor | monasca_log_api/common/repositories/elasticsearch/search_builder.py:27-46 | fails exactly without a tenant or when the body fails; otherwise exactly the keys `index` and `body` |
| SearchBuilder.NoDimensionsAsEmptyMapping | monasca_log_api/common/repositories/elasticsearch/search_builder.py:64 | `None`, `{}` and `[]` as dimensions build the same body |
| SearchBuilder.ValuesRoundTrip | monasca_log_api/common/repositories/elasticsearch/search_builder.py:111 | dimension values are carried verbatim, `None` as null |
| SearchBuilder.TermsRoundTrip | monasca_log_api/common/repositories/elasticsearch/search_builder.py:105-111 | a terms clause is keyed `<dimensions field>.<name>` and reads back as its dimension |
| SearchBuilder.AllTermsRoundTrip | monasca_log_api/common/repositories/elasticsearch/search_builder.py:64-65 | the terms clauses read back as the dimensions, in order |
| SearchBuilder.RangeRoundTrip | monasca_log_api/common/repositories/elasticsearch/search_builder.py:67-77 | the range clause, built once a bound is truthy, reads back only with `format: epoch_second` and at most the two bounds, and holds exactly the truthy bounds |
| SearchBuilder.FiltersRoundTrip | monasca_log_api/common/repositories/elasticsearch/search_builder.py:59-79 | the filter list reads back as the dimensions in order and the truthy bounds |
| SearchBuilder.SortClauseRoundTrip | monasca_log_api/common/repositories/elasticsearch/search_builder.py:113-125 | a sort clause orders the timestamp field by the spec's direction |
| SearchBuilder.SortRoundTrip | monasca_log_api/common/repositories/elasticsearch/search_builder.py:54-57 | the sort clauses read back as the specs, in order |
| SearchBuilder.BodyQueryRoundTrip | monasca_log_api/common/repositories/elasticsearch/search_builder.py:94-97 | the query clause of a built body reads back as the dimensions and the truthy bounds, and is absent when there are neither |
| SearchBuilder.BodySortRoundTrip | monasca_log_api/common/repositories/elasticsearch/search_builder.py:99-101 | the sort of a built body reads back as the specs of a non-empty `sort_by`, and is absent otherwise |
| SearchBuilder.BodyRoundTrip | monasca_log_api/common/repositories/elasticsearch/search_builder.py:81-103 | a built body asks for exactly the query: its limit, truthy offset, dimensions, truthy bounds and sort specs |
| SearchBuilder.SearchRoundTrip | monasca_log_api/common/repositories/elasticsearch/search_builder.py:27-46 | a built search names the tenant's index and asks for exactly the query |
| SearchBuilder.SearchBuilder.constructor | monasca_log_api/common/repositories/elasticsearch/search_builder.py:18-25 | a pattern holding `{tenant_id}` gives a builder over those fields |
| SearchBuilder.SearchBuilder.New | monasca_log_api/common/repositories/elasticsearch/search_builder.py:18-25 | construction fails its assertion exactly when the pattern lacks `{tenant_id}` |
| SearchBuilder.SearchBuilder.Filters | monasca_log_api/common/repositories/elasticsearch/search_builder.py:59-79 | the loop and the key-by-key time spec build exactly `FiltersFor` |
| SearchBuilder.SearchBuilder.Body | monasca_log_api/common/repositories/elasticsearch/search_builder.py:81-103 | the body set key by key is exactly `BodyFor` |
| SearchBuilder.SearchBuilder.BuildListLogs | monasca_log_api/common/repositories/elasticsearch/search_builder.py:27-46 | exactly `SearchFor` |
| ResultTransformer.Item | monasca_log_api/common/repositories/elasticsearch/result_transformer.py:29 | indexing succeeds exactly on an object holding the key; otherwise the failure is uncaught |
| ResultTransformer.Get | monasca_log_api/common/repositories/elasticsearch/result_transformer.py:27-34 | a path without a dot is a single lookup; a missing first key fails uncaught |
| ResultTransformer.GetDescends | monasca_log_api/common/repositories/elasticsearch/result_transformer.py:27-34 | looking up a dotted path is looking up each of its segments in turn |
| ResultTransformer.DescendNeedsEveryKey | monasca_log_api/common/repositories/elasticsearch/result_transformer.py:29 | a key missing at any depth fails, never reads as null |
| ResultTransformer.GetStep | monasca_log_api/common/repositories/elasticsearch/result_transformer.py:28-34 | a path splits on its first dot and goes on with the rest |
| ResultTransformer.NestedPath | monasca_log_api/common/repositories/elasticsearch/result_transformer.py:27-34 | `a.b.c` reads `doc[a][b][c]` |
| ResultTransformer.Tidy | monasca_log_api/common/repositories/elasticsearch/result_transformer.py:36-41 | succeeds exactly when all three paths resolve; exactly the keys `timestamp`, `message` and `dimensions`, each holding its path's value |
| ResultTransformer.TransformListLogsResult | monasca_log_api/common/repositories/elasticsearch/result_transformer.py:43 | every record has exactly the three keys; any failure is uncaught |
| ResultTransformer.OneRecordPerHit | monasca_log_api/common/repositories/elasticsearch/result_transformer.py:43 | one record per hit, in hit order, each the tidied `_source` of its hit; succeeds exactly when every hit does |
| ResultTransformer.NoHitsNoRecords | monasca_log_api/common/repositories/elasticsearch/result_transformer.py:43 | no hits, no records |
| EsLogsRepository.EsIndex | monasca_log_api/common/repositories/elasticsearch/logs_repository.py:92-98 | fails its assertion exactly without a tenant or when the pattern lacks `{tenant_id}`; otherwise the substituted pattern |
| EsLogsRepository.EsSearchFor | monasca_log_api/common/repositories/elasticsearch/logs_repository.py:69-90 | a pattern without the field fails; otherwise the search the builder makes over the configured fields |
| EsLogsRepository.BuildListLogs | monasca_log_api/common/repositories/elasticsearch/logs_repository.py:69-90 | the assertions, then a configured builder, give exactly `EsSearchFor` |
| EsLogsRepository.EsClient.constructor | monasca_log_api/common/repositories/elasticsearch/logs_repository.py:30-32 | a client that has not been asked anything |
| EsLogsRepository.EsClient.Search | monasca_log_api/common/repositories/elasticsearch/logs_repository.py:40 | records the request and answers it |
| EsLogsRepository.ListLogsOutcome | monasca_log_api/common/repositories/elasticsearch/logs_repository.py:37-44 | a search that cannot be built fails its assertion; an exception from the client is a repository error with its text; a returned reply gives exactly its transformed hits, each with exactly three fields |
| EsLogsRepository.LogsRepository.constructor | monasca_log_api/common/repositories/elasticsearch/logs_repository.py:27-35 | a repository over the client and the options |
| EsLogsRepository.LogsRepository.Connect | monasca_log_api/common/repositories/elasticsearch/logs_repository.py:27-35 | a client that raises while being made becomes a repository error with its text |
| EsLogsRepository.LogsRepository.ListLogs | monasca_log_api/common/repositories/elasticsearch/logs_repository.py:37-44 | the listing outcome; the client receives exactly the built search, and nothing when it cannot be built |
| Pipeline.BuildableBuilds | monasca_log_api/common/repositories/elasticsearch/search_builder.py:27-46 | a query with a limit, valid sort specs and a tenant builds, and reads back as that query |
| Pipeline.ControllerQueriesBuildable | monasca_log_api/app/controller/v3/logs.py:146-173 | every query the controller accepts has a limit and only valid sort specs |
| Pipeline.ReferenceQueriesBuildable | monasca_log_api/reference/v3/common/query_requests.py:21-59 | every query the reference parser accepts has a limit and only valid sort specs |
| Pipeline.ControllerSearchBuilds | monasca_log_api/app/controller/v3/logs.py:119-126 | a request the controller parses, for a caller with a tenant, always reaches the client |
| Pipeline.ReferenceSearchBuilds | monasca_log_api/reference/v3/common/query_requests.py:21-59 | a query the reference parser builds for a request with a project always reaches the client |

## Left out

- Falcon's query-string parsing. The model takes the decoded parameter map.
  Empty values and empty comma elements are dropped there, not in this
  code, so the model's `split` keeps empty pieces.
- Python 2 against Python 3:
  - the model follows Python 2 for a missing start with a present end, and
    the reference check passes it;
  - dicts are insertion-ordered, which fixes the order of validated
    dimensions; Python 2 dict order is arbitrary;
  - `.decode('utf8')` in the reference `get_query_param` is the identity.
- `str.split()`, `lower()` and `int()` are modelled on ASCII only:
  - whitespace is space, tab, newline, carriage return, vertical tab and
    form feed;
  - lower-casing covers `A`-`Z`;
  - `int()` takes an optional sign and decimal digits between whitespace;
  - Unicode digits and `_` separators are not modelled.
- Index formatting. `str.format` is modelled as replacing every
  `{tenant_id}`. Other fields, `{{` escapes and format specs are not
  modelled.
- SearchBuilder.TenantText renders a list tenant as `['a', 'b']` without
  Python's quote escaping.
- Errors:
  - an error carries the text that differs between cases, not the HTTP
    title and description layout;
  - KeyError, IndexError and TypeError all fold into one uncaught failure;
  - the "Error parsing dimensions, unknown format" branch of
    `get_query_dimensions` cannot be reached with a string-or-list
    parameter, so it is not modelled.
- ISO-8601 parsing and the dimension validators are parameters
  (`Collaborators`). Their own behaviour is not modelled, and neither is
  the float arithmetic of `total_seconds()`.
- The Elasticsearch client is modelled only as its answer to each request.
  Its construction from the configured URIs, SSL options and networking are
  left out. `LogsRepository.Connect` takes the outcome of that construction
  as a parameter.
- `AbstractLogsRepository` is modelled through its one driver, the
  Elasticsearch repository. Its doc contract is stated as the `Matches`
  predicate, not as a property of a storage engine.
- The POST path beyond the choice of tenant is left out because it is
  ingestion, not listing. That covers body reading, global dimensions, the
  bulk processor and Kafka.
- Monitoring counters and timers are left out.
- `dumpit_utf8` is left out: the response body is kept as a JSON value, not
  as bytes.
- The `region` option is read but never used, and there is no region filter
  to model.
- `log_query_schema.py` and `reference/v3/logs.py` are not part of this
  model. The schema depends on libraries that are not available, and the
  reference resource duplicates the app controller's missing-repository
  check.
- A truthy end of 0 drops the upper bound, as in the source: `if end_time:`.
  It is stated in SearchBuilder.Bounds, not treated as an error.
