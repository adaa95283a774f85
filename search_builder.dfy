/** Turning a listing query into the arguments of an Elasticsearch search:
    the index named after the tenant, and a body with `size`, `from`, a
    bool filter (terms clauses, then one range clause) and sort clauses.
    The pure pieces are functions over the configured `Fields`; the
    `SearchBuilder` class builds the filters and the body step by step and
    is proved to produce what those functions describe. */
module SearchBuilder {
  import opened Base
  import opened Py
  import opened LogsRepository

  /** The replacement field an index pattern must hold. */
  const TenantField: string := "{tenant_id}"

  /** What the builder is configured with: the index pattern and the
      document fields holding a log's time, message and dimensions. */
  datatype Fields = Fields(indexPattern: string, timestampField: string, messageField: string,
                           dimensionsField: string)

  // ---------------------------------------------------------------------
  // _index

  function ReprItems(items: seq<string>): string
  {
    if |items| == 0 then ""
    else if |items| == 1 then "'" + items[0] + "'"
    else ReprItems(items[..|items| - 1]) + ", '" + items[|items| - 1] + "'"
  }

  /** How `format` renders a tenant: a string as itself, a list (a
      repeated `tenant_id` parameter) as its repr. */
  function TenantText(t: ParamVal): string
  {
    match t
    case Str(s) => s
    case Lst(items) => "[" + ReprItems(items) + "]"
  }

  /** The index to search: the pattern with the tenant put in place of
      every `{tenant_id}`; a missing tenant fails the assertion. */
  function Index(f: Fields, tenantId: Option<ParamVal>): (r: Result<string>)
    ensures r.Err? <==> tenantId.None?
    ensures r.Err? ==> r.error == AssertFail
    ensures r.Ok? && Contains(f.indexPattern, TenantField) ==> Contains(r.value, TenantText(tenantId.value))
    ensures r.Ok? && !Contains(f.indexPattern, TenantField) ==> r.value == f.indexPattern
  {
    if tenantId.None? then Err(AssertFail)
    else
      ReplaceAllInserts(f.indexPattern, TenantField, TenantText(tenantId.value));
      Ok(ReplaceAll(f.indexPattern, TenantField, TenantText(tenantId.value)))
  }

  /** A pattern holding the field once, after text without any `{`, reads
      as that text, the tenant and the rest. */
  lemma IndexSubstitutes(f: Fields, before: string, after: string, t: ParamVal)
    requires f.indexPattern == before + TenantField + after
    requires '{' !in before && !Contains(after, TenantField)
    ensures Index(f, Some(t)) == Ok(before + TenantText(t) + after)
  {
    var v := TenantText(t);
    var rest := TenantField + after;
    assert f.indexPattern == before + rest;
    forall i | 0 <= i < |before|
      ensures !StartsWith((before + rest)[i..], TenantField)
    {
      assert (before + rest)[i..][0] == before[i] != TenantField[0];
    }
    ReplaceAllAfterPlain(before, TenantField, v, rest);
    ReplaceAllAtHead(TenantField, v, after);
    assert ReplaceAll(after, TenantField, v) == after;
    assert ReplaceAll(f.indexPattern, TenantField, v) == before + (v + after);
    assert before + (v + after) == before + v + after;
    assert Index(f, Some(t)) == Ok(ReplaceAll(f.indexPattern, TenantField, v));
  }

  /** The pattern `monasca-{tenant_id}-*` and a tenant such as `abc123`
      name the index `monasca-abc123-*`. */
  lemma IndexExample(f: Fields, tenant: string)
    requires f.indexPattern == "monasca-{tenant_id}-*"
    ensures Index(f, Some(Str(tenant))) == Ok("monasca-" + tenant + "-*")
  {
    ShorterLacks("-*", TenantField);
    assert f.indexPattern == "monasca-" + TenantField + "-*";
    IndexSubstitutes(f, "monasca-", "-*", Str(tenant));
  }

  // ---------------------------------------------------------------------
  // _terms_clause

  function StrList(vs: seq<string>): (r: seq<Json>)
    ensures |r| == |vs|
    ensures forall i :: 0 <= i < |vs| ==> r[i] == JStr(vs[i])
  {
    if |vs| == 0 then [] else StrList(vs[..|vs| - 1]) + [JStr(vs[|vs| - 1])]
  }

  /** A dimension's values as Elasticsearch receives them: `None` is null. */
  function ValuesJson(values: Option<seq<string>>): Json
  {
    if values.None? then JNull else JList(StrList(values.value))
  }

  function TermsKey(f: Fields, name: string): string
  {
    f.dimensionsField + "." + name
  }

  /** `{'terms': {'<dimensions field>.<name>': values}}`. */
  function TermsClause(f: Fields, d: Dimension): Json
  {
    JObj(map["terms" := JObj(map[TermsKey(f, d.name) := ValuesJson(d.values)])])
  }

  function TermsClauses(f: Fields, ds: seq<Dimension>): (r: seq<Json>)
    ensures |r| == |ds|
    ensures forall i :: 0 <= i < |ds| ==> r[i] == TermsClause(f, ds[i])
  {
    if |ds| == 0 then [] else TermsClauses(f, ds[..|ds| - 1]) + [TermsClause(f, ds[|ds| - 1])]
  }

  // ---------------------------------------------------------------------
  // _filters

  /** Python truthiness of an optional int: `None` and `0` are false. */
  predicate TruthyInt(x: Option<int>) { x.Some? && x.value != 0 }

  /** The bound a truthy value sets, `None` for none. */
  function Truthy(x: Option<int>): (r: Option<int>)
    ensures r.Some? <==> TruthyInt(x)
    ensures r.Some? ==> r == x
  {
    if TruthyInt(x) then x else None
  }

  /** The range bounds: `gte` for a truthy start, `lte` for a truthy end. */
  function Bounds(start: Option<int>, end: Option<int>): (r: map<string, Json>)
    ensures "gte" in r <==> TruthyInt(start)
    ensures "lte" in r <==> TruthyInt(end)
    ensures "gte" in r ==> r["gte"] == JInt(start.value)
    ensures "lte" in r ==> r["lte"] == JInt(end.value)
    ensures "format" !in r
    ensures |r| > 0 <==> TruthyInt(start) || TruthyInt(end)
  {
    var lower: map<string, Json> := if TruthyInt(start) then map["gte" := JInt(start.value)] else map[];
    if TruthyInt(end) then lower["lte" := JInt(end.value)] else lower
  }

  /** The time spec: the bounds, and `format` once a bound is there. */
  function TimeSpec(start: Option<int>, end: Option<int>): map<string, Json>
  {
    var bounds := Bounds(start, end);
    if |bounds| > 0 then bounds["format" := JStr("epoch_second")] else bounds
  }

  function RangeClause(f: Fields, start: Option<int>, end: Option<int>): Json
  {
    JObj(map["range" := JObj(map[f.timestampField := JObj(TimeSpec(start, end))])])
  }

  /** The filter list: one terms clause per dimension, in order, then the
      range clause when a bound is set. */
  function FiltersFor(f: Fields, dims: Dimensions, start: Option<int>, end: Option<int>): (r: seq<Json>)
    ensures |r| == |dims.Items()| + (if TruthyInt(start) || TruthyInt(end) then 1 else 0)
    ensures forall i :: 0 <= i < |dims.Items()| ==> r[i] == TermsClause(f, dims.Items()[i])
    ensures TruthyInt(start) || TruthyInt(end) ==> r[|r| - 1] == RangeClause(f, start, end)
  {
    TermsClauses(f, dims.Items()) + (if TruthyInt(start) || TruthyInt(end) then [RangeClause(f, start, end)] else [])
  }

  /** No filters at all exactly when there are no dimensions and no
      truthy bound. */
  lemma FiltersEmpty(f: Fields, dims: Dimensions, start: Option<int>, end: Option<int>)
    ensures |FiltersFor(f, dims, start, end)| == 0 <==> !dims.Truthy() && !TruthyInt(start) && !TruthyInt(end)
  {
  }

  // ---------------------------------------------------------------------
  // _sort_clause, _sort

  /** The only sort a search can carry: on `timestamp`, `asc` or `desc`. */
  predicate ValidSort(s: SortBy) { s.field == "timestamp" && IsSortDirection(s.direction) }

  /** `{<timestamp field>: {'order': direction}}`, asserting the spec is valid. */
  function SortClause(f: Fields, s: SortBy): (r: Result<Json>)
    ensures r.Ok? <==> ValidSort(s)
    ensures r.Err? ==> r.error == AssertFail
  {
    if s.field != "timestamp" || !IsSortDirection(s.direction) then Err(AssertFail)
    else Ok(JObj(map[f.timestampField := JObj(map["order" := JStr(s.direction)])]))
  }

  function SortStep(f: Fields): SortBy -> Result<Json>
  {
    (s: SortBy) => SortClause(f, s)
  }

  function Sort(f: Fields, sortBy: seq<SortBy>): (r: Result<seq<Json>>)
    ensures r.Ok? <==> forall i :: 0 <= i < |sortBy| ==> ValidSort(sortBy[i])
    ensures r.Ok? ==> |r.value| == |sortBy|
    ensures r.Ok? ==> forall i :: 0 <= i < |sortBy| ==> SortClause(f, sortBy[i]) == Ok(r.value[i])
    ensures r.Err? ==> r.error == AssertFail
  {
    assert forall i :: 0 <= i < |sortBy| ==> SortStep(f)(sortBy[i]) == SortClause(f, sortBy[i]);
    MapResult(SortStep(f), sortBy)
  }

  // ---------------------------------------------------------------------
  // _body, build_list_logs

  /** Python truthiness of `sort_by`: `None` and `[]` are false. */
  predicate SortTruthy(s: Option<seq<SortBy>>) { s.Some? && |s.value| > 0 }

  function QueryClause(filters: seq<Json>): Json
  {
    JObj(map["bool" := JObj(map["filter" := JList(filters)])])
  }

  /** The search body: `size` always, `from` for a truthy offset, `query`
      when there are filters, `sort` for a non-empty `sort_by`; a missing
      limit or an invalid sort spec fails an assertion. */
  function BodyFor(f: Fields, q: ListLogsQuery): (r: Result<map<string, Json>>)
    ensures r.Err? <==> (q.limit.None?
                         || (SortTruthy(q.sortBy) && exists i :: 0 <= i < |q.sortBy.value| && !ValidSort(q.sortBy.value[i])))
    ensures r.Err? ==> r.error == AssertFail
    ensures r.Ok? ==> r.value.Keys <= {"size", "from", "query", "sort"} && "size" in r.value
    ensures r.Ok? ==> ("from" in r.value <==> TruthyInt(q.offset))
    ensures r.Ok? ==> ("query" in r.value <==> q.dimensions.Truthy() || TruthyInt(q.startTime) || TruthyInt(q.endTime))
    ensures r.Ok? ==> ("sort" in r.value <==> SortTruthy(q.sortBy))
    ensures r.Ok? ==> r.value["size"] == JInt(q.limit.value)
    ensures r.Ok? && "from" in r.value ==> r.value["from"] == JInt(q.offset.value)
    ensures r.Ok? && "query" in r.value ==> r.value["query"] == QueryClause(FiltersFor(f, q.dimensions, q.startTime, q.endTime))
    ensures r.Ok? && "sort" in r.value ==> r.value["sort"] == JList(Sort(f, q.sortBy.value).value)
  {
    if q.limit.None? then Err(AssertFail)
    else
      var filters := FiltersFor(f, q.dimensions, q.startTime, q.endTime);
      var sized := map["size" := JInt(q.limit.value)];
      var withFrom := if TruthyInt(q.offset) then sized["from" := JInt(q.offset.value)] else sized;
      var withQuery := if |filters| > 0 then withFrom["query" := QueryClause(filters)] else withFrom;
      if SortTruthy(q.sortBy) then
        var sort :- Sort(f, q.sortBy.value);
        Ok(withQuery["sort" := JList(sort)])
      else Ok(withQuery)
  }

  /** `{'index': index, 'body': body}`. */
  function SearchFor(f: Fields, q: ListLogsQuery): (r: Result<Json>)
    ensures r.Err? <==> q.tenantId.None? || BodyFor(f, q).Err?
    ensures r.Err? ==> r.error == AssertFail
    ensures r.Ok? ==> r.value.JObj? && r.value.fields.Keys == {"index", "body"}
    ensures r.Ok? ==> r.value.fields["index"] == JStr(Index(f, q.tenantId).value)
    ensures r.Ok? ==> r.value.fields["body"] == JObj(BodyFor(f, q).value)
  {
    var index :- Index(f, q.tenantId);
    var body :- BodyFor(f, q);
    Ok(JObj(map["index" := JStr(index), "body" := JObj(body)]))
  }

  /** The two ways of saying "no dimensions" build the same body. */
  lemma NoDimensionsAsEmptyMapping(f: Fields, q: ListLogsQuery)
    ensures BodyFor(f, q.(dimensions := NoDimensions)) == BodyFor(f, q.(dimensions := EmptyMapping))
    ensures BodyFor(f, q.(dimensions := NoDimensions)) == BodyFor(f, q.(dimensions := DimensionList([])))
  {
  }

  // ---------------------------------------------------------------------
  // Reading a search request back

  /** What a search request asks for. */
  datatype SearchView = SearchView(index: string, size: int, from: Option<int>, terms: seq<Dimension>,
                                   gte: Option<int>, lte: Option<int>, sort: seq<SortBy>)

  /** What the request built for `q` should ask for: the limit as size,
      the truthy offset and bounds, every dimension and every sort spec. */
  function Expected(index: string, q: ListLogsQuery): SearchView
    requires q.limit.Some?
  {
    SearchView(index, q.limit.value, Truthy(q.offset), q.dimensions.Items(), Truthy(q.startTime),
               Truthy(q.endTime), if SortTruthy(q.sortBy) then q.sortBy.value else [])
  }

  function IntAt(m: map<string, Json>, k: string): Option<int>
  {
    if k in m && m[k].JInt? then Some(m[k].i) else None
  }

  function ReadValues(j: Json): Option<Option<seq<string>>>
  {
    match j
    case JNull => Some(None)
    case JList(items) =>
      if forall i :: 0 <= i < |items| ==> items[i].JStr? then
        Some(Some(seq(|items|, i requires 0 <= i < |items| && items[i].JStr? => items[i].s)))
      else None
    case _ => None
  }

  ghost function ReadTerms(f: Fields, j: Json): Option<Dimension>
  {
    if j.JObj? && j.fields.Keys == {"terms"} && j.fields["terms"].JObj? && |j.fields["terms"].fields| == 1 then
      var m := j.fields["terms"].fields;
      var key :| key in m;
      var prefix := f.dimensionsField + ".";
      if StartsWith(key, prefix) && ReadValues(m[key]).Some? then
        Some(Dimension(key[|prefix|..], ReadValues(m[key]).value))
      else None
    else None
  }

  ghost function ReadAllTerms(f: Fields, items: seq<Json>): Option<seq<Dimension>>
  {
    if |items| == 0 then Some([])
    else
      var init := ReadAllTerms(f, items[..|items| - 1]);
      var last := ReadTerms(f, items[|items| - 1]);
      if init.Some? && last.Some? then Some(init.value + [last.value]) else None
  }

  function ReadRange(f: Fields, j: Json): Option<(Option<int>, Option<int>)>
  {
    if j.JObj? && j.fields.Keys == {"range"} && j.fields["range"].JObj?
       && j.fields["range"].fields.Keys == {f.timestampField} && j.fields["range"].fields[f.timestampField].JObj?
    then
      var spec := j.fields["range"].fields[f.timestampField].fields;
      if spec.Keys <= {"gte", "lte", "format"} && "format" in spec && spec["format"] == JStr("epoch_second")
         && ("gte" in spec ==> spec["gte"].JInt?) && ("lte" in spec ==> spec["lte"].JInt?)
      then
        Some((IntAt(spec, "gte"), IntAt(spec, "lte")))
      else None
    else None
  }

  /** The terms clauses, then the bounds of a trailing range clause. */
  ghost function ReadFilters(f: Fields, items: seq<Json>): Option<(seq<Dimension>, Option<int>, Option<int>)>
  {
    if |items| > 0 && ReadRange(f, items[|items| - 1]).Some? then
      var bounds := ReadRange(f, items[|items| - 1]).value;
      var terms := ReadAllTerms(f, items[..|items| - 1]);
      if terms.Some? then Some((terms.value, bounds.0, bounds.1)) else None
    else
      var terms := ReadAllTerms(f, items);
      if terms.Some? then Some((terms.value, None, None)) else None
  }

  ghost function ReadQuery(f: Fields, j: Json): Option<(seq<Dimension>, Option<int>, Option<int>)>
  {
    if j.JObj? && j.fields.Keys == {"bool"} && j.fields["bool"].JObj? && j.fields["bool"].fields.Keys == {"filter"}
       && j.fields["bool"].fields["filter"].JList?
    then ReadFilters(f, j.fields["bool"].fields["filter"].items)
    else None
  }

  function ReadSortClause(f: Fields, j: Json): Option<SortBy>
  {
    if j.JObj? && j.fields.Keys == {f.timestampField} && j.fields[f.timestampField].JObj?
       && j.fields[f.timestampField].fields.Keys == {"order"} && j.fields[f.timestampField].fields["order"].JStr?
    then Some(SortBy("timestamp", j.fields[f.timestampField].fields["order"].s))
    else None
  }

  function ReadSort(f: Fields, items: seq<Json>): Option<seq<SortBy>>
  {
    if |items| == 0 then Some([])
    else
      var init := ReadSort(f, items[..|items| - 1]);
      var last := ReadSortClause(f, items[|items| - 1]);
      if init.Some? && last.Some? then Some(init.value + [last.value]) else None
  }

  ghost function ReadBody(f: Fields, index: string, b: map<string, Json>): Option<SearchView>
  {
    if "size" in b && b["size"].JInt? then
      var filters := if "query" in b then ReadQuery(f, b["query"]) else Some(([], None, None));
      var sort := if "sort" !in b then Some([]) else if b["sort"].JList? then ReadSort(f, b["sort"].items) else None;
      if filters.Some? && sort.Some? then
        Some(SearchView(index, b["size"].i, IntAt(b, "from"), filters.value.0, filters.value.1, filters.value.2,
                        sort.value))
      else None
    else None
  }

  /** The index and everything the body asks for. */
  ghost function ReadSearch(f: Fields, j: Json): Option<SearchView>
  {
    if j.JObj? && j.fields.Keys == {"index", "body"} && j.fields["index"].JStr? && j.fields["body"].JObj? then
      ReadBody(f, j.fields["index"].s, j.fields["body"].fields)
    else None
  }

  lemma ValuesRoundTrip(values: Option<seq<string>>)
    ensures ReadValues(ValuesJson(values)) == Some(values)
  {
    if values.Some? {
      var items := StrList(values.value);
      assert seq(|items|, i requires 0 <= i < |items| && items[i].JStr? => items[i].s) == values.value;
    }
  }

  /** A terms clause names its dimension and carries its values verbatim. */
  lemma TermsRoundTrip(f: Fields, d: Dimension)
    ensures ReadTerms(f, TermsClause(f, d)) == Some(d)
  {
    var key := TermsKey(f, d.name);
    var m := map[key := ValuesJson(d.values)];
    assert m.Keys == {key};
    var prefix := f.dimensionsField + ".";
    assert key[..|prefix|] == prefix;
    assert key[|prefix|..] == d.name;
    ValuesRoundTrip(d.values);
  }

  lemma {:induction false} AllTermsRoundTrip(f: Fields, ds: seq<Dimension>)
    ensures ReadAllTerms(f, TermsClauses(f, ds)) == Some(ds)
  {
    if |ds| > 0 {
      var items := TermsClauses(f, ds);
      assert items[..|items| - 1] == TermsClauses(f, ds[..|ds| - 1]);
      AllTermsRoundTrip(f, ds[..|ds| - 1]);
      TermsRoundTrip(f, ds[|ds| - 1]);
      assert ds[..|ds| - 1] + [ds[|ds| - 1]] == ds;
    }
  }

  /** The range clause, built once a bound is truthy, holds exactly the
      truthy bounds in `epoch_second` format. */
  lemma RangeRoundTrip(f: Fields, start: Option<int>, end: Option<int>)
    requires TruthyInt(start) || TruthyInt(end)
    ensures ReadRange(f, RangeClause(f, start, end)) == Some((Truthy(start), Truthy(end)))
  {
    var spec := TimeSpec(start, end);
    assert IntAt(spec, "gte") == Truthy(start);
    assert IntAt(spec, "lte") == Truthy(end);
  }

  /** The filters hold the dimensions, in order, and the truthy bounds. */
  lemma FiltersRoundTrip(f: Fields, dims: Dimensions, start: Option<int>, end: Option<int>)
    ensures ReadFilters(f, FiltersFor(f, dims, start, end)) == Some((dims.Items(), Truthy(start), Truthy(end)))
  {
    var items := FiltersFor(f, dims, start, end);
    var terms := TermsClauses(f, dims.Items());
    AllTermsRoundTrip(f, dims.Items());
    if TruthyInt(start) || TruthyInt(end) {
      assert items[..|items| - 1] == terms;
      RangeRoundTrip(f, start, end);
    } else {
      assert items == terms;
      if |items| > 0 {
        assert ReadRange(f, TermsClause(f, dims.Items()[|items| - 1])).None?;
      }
    }
  }

  lemma SortClauseRoundTrip(f: Fields, s: SortBy)
    requires ValidSort(s)
    ensures ReadSortClause(f, SortClause(f, s).value) == Some(s)
  {
  }

  /** The sort clauses hold the specs in order. */
  lemma {:induction false} SortRoundTrip(f: Fields, sortBy: seq<SortBy>)
    requires Sort(f, sortBy).Ok?
    ensures ReadSort(f, Sort(f, sortBy).value) == Some(sortBy)
  {
    if |sortBy| > 0 {
      var items := Sort(f, sortBy).value;
      var init := sortBy[..|sortBy| - 1];
      assert Sort(f, init).Ok?;
      assert items[..|items| - 1] == Sort(f, init).value;
      SortRoundTrip(f, init);
      SortClauseRoundTrip(f, sortBy[|sortBy| - 1]);
      assert init + [sortBy[|sortBy| - 1]] == sortBy;
    }
  }

  /** The query clause of a built body reads back as the dimensions and
      the truthy bounds; a body without one has neither. */
  lemma BodyQueryRoundTrip(f: Fields, q: ListLogsQuery)
    requires BodyFor(f, q).Ok?
    ensures var b := BodyFor(f, q).value;
            (if "query" in b then ReadQuery(f, b["query"]) else Some(([], None, None)))
            == Some((q.dimensions.Items(), Truthy(q.startTime), Truthy(q.endTime)))
  {
    FiltersRoundTrip(f, q.dimensions, q.startTime, q.endTime);
  }

  /** The sort clauses of a built body read back as the specs of a
      non-empty `sort_by`; a body without them has none. */
  lemma BodySortRoundTrip(f: Fields, q: ListLogsQuery)
    requires BodyFor(f, q).Ok?
    ensures var b := BodyFor(f, q).value;
            (if "sort" !in b then Some([]) else if b["sort"].JList? then ReadSort(f, b["sort"].items) else None)
            == Some(if SortTruthy(q.sortBy) then q.sortBy.value else [])
  {
    if SortTruthy(q.sortBy) {
      SortRoundTrip(f, q.sortBy.value);
    }
  }

  /** A built body asks for exactly the query: the limit as size, the
      truthy offset, every dimension in order, the truthy bounds and every
      sort spec in order. */
  lemma BodyRoundTrip(f: Fields, index: string, q: ListLogsQuery)
    requires BodyFor(f, q).Ok?
    ensures ReadBody(f, index, BodyFor(f, q).value) == Some(Expected(index, q))
  {
    var b := BodyFor(f, q).value;
    BodyQueryRoundTrip(f, q);
    BodySortRoundTrip(f, q);
    assert IntAt(b, "from") == Truthy(q.offset);
  }

  /** A built search names the index and asks for exactly the query. */
  lemma SearchRoundTrip(f: Fields, q: ListLogsQuery)
    requires SearchFor(f, q).Ok?
    ensures ReadSearch(f, SearchFor(f, q).value) == Some(Expected(Index(f, q.tenantId).value, q))
  {
    BodyRoundTrip(f, Index(f, q.tenantId).value, q);
  }

  // ---------------------------------------------------------------------
  // The builder class

  /** A search builder configured once with its fields; the pattern is
      checked to hold `{tenant_id}` when it is made. */
  class SearchBuilder {
    const fields: Fields

    /** `__init__`, for a pattern that passes its assertion. */
    constructor (f: Fields)
      requires Contains(f.indexPattern, TenantField)
      ensures fields == f
    {
      fields := f;
    }

    /** `SearchBuilder(...)`: a pattern without `{tenant_id}` fails the
        assertion and no builder is made. */
    static method New(f: Fields) returns (r: Result<SearchBuilder>)
      ensures r.Err? <==> !Contains(f.indexPattern, TenantField)
      ensures r.Err? ==> r.error == AssertFail
      ensures r.Ok? ==> r.value.fields == f
    {
      if !Contains(f.indexPattern, TenantField) {
        return Err(AssertFail);
      }
      var b := new SearchBuilder(f);
      return Ok(b);
    }

    /** `_filters`: the terms clauses added one per dimension, then the
        time spec filled key by key and appended inside a range clause
        when it is not empty. */
    method Filters(dims: Dimensions, start: Option<int>, end: Option<int>) returns (filters: seq<Json>)
      ensures filters == FiltersFor(fields, dims, start, end)
    {
      filters := [];
      if dims.Truthy() {
        var items := dims.items;
        var i := 0;
        while i < |items|
          invariant 0 <= i <= |items|
          invariant filters == TermsClauses(fields, items[..i])
        {
          assert items[..i + 1][..i] == items[..i];
          filters := filters + [TermsClause(fields, items[i])];
          i := i + 1;
        }
        assert items[..i] == items;
      }
      assert filters == TermsClauses(fields, dims.Items());
      var timeSpec: map<string, Json> := map[];
      if TruthyInt(start) {
        timeSpec := timeSpec["gte" := JInt(start.value)];
      }
      if TruthyInt(end) {
        timeSpec := timeSpec["lte" := JInt(end.value)];
      }
      assert timeSpec == Bounds(start, end);
      if |timeSpec| > 0 {
        timeSpec := timeSpec["format" := JStr("epoch_second")];
        filters := filters + [JObj(map["range" := JObj(map[fields.timestampField := JObj(timeSpec)])])];
      }
    }

    /** `_body`: the keys set one by one. */
    method Body(q: ListLogsQuery) returns (r: Result<map<string, Json>>)
      ensures r == BodyFor(fields, q)
    {
      if q.limit.None? {
        return Err(AssertFail);
      }
      var body: map<string, Json> := map[];
      body := body["size" := JInt(q.limit.value)];
      if TruthyInt(q.offset) {
        body := body["from" := JInt(q.offset.value)];
      }
      var filters := Filters(q.dimensions, q.startTime, q.endTime);
      if |filters| > 0 {
        body := body["query" := QueryClause(filters)];
      }
      if SortTruthy(q.sortBy) {
        var sort :- Sort(fields, q.sortBy.value);
        body := body["sort" := JList(sort)];
      }
      return Ok(body);
    }

    /** `build_list_logs`: the index, then the body. */
    method BuildListLogs(q: ListLogsQuery) returns (r: Result<Json>)
      ensures r == SearchFor(fields, q)
    {
      var index :- Index(fields, q.tenantId);
      var body :- Body(q);
      return Ok(JObj(map["index" := JStr(index), "body" := JObj(body)]));
    }
  }
}
