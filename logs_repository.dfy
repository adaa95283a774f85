/** The storage-independent side of log listing: the `Dimension` and
    `SortBy` records, the arguments of `list_logs`, and what its doc
    contract says about the logs a listing returns. */
module LogsRepository {
  import opened Base

  /** A dimension filter: a name and, optionally, the values it may take. */
  datatype Dimension = Dimension(name: string, values: Option<seq<string>>)

  /** One sort key: a field and the direction `'asc'` or `'desc'`. */
  datatype SortBy = SortBy(field: string, direction: string)

  /** The `dimensions` argument: `None` (the query_requests parser with no
      dimensions), the empty mapping `{}` (the controller with no dimensions),
      or a list of `Dimension`s. */
  datatype Dimensions = NoDimensions | EmptyMapping | DimensionList(items: seq<Dimension>) {
    /** Python truthiness: `None`, `{}` and `[]` are false. */
    predicate Truthy() { DimensionList? && |items| > 0 }
    function Items(): seq<Dimension> { if DimensionList? then items else [] }
  }

  /** The keyword arguments of `list_logs`. `tenant_id` is whatever the
      request yields: a project id, a `tenant_id` query value (a string or,
      when repeated, a list) or `None` when the request has no project. */
  datatype ListLogsQuery = ListLogsQuery(
    tenantId: Option<ParamVal>,
    dimensions: Dimensions,
    startTime: Option<int>,
    endTime: Option<int>,
    offset: Option<int>,
    limit: Option<int>,
    sortBy: Option<seq<SortBy>>)

  predicate IsSortDirection(d: string) { d == "asc" || d == "desc" }

  /** What the contract needs to know of a stored log: its time in UNIX
      seconds and its dimensions. */
  datatype StoredLog = StoredLog(timestamp: int, dimensions: map<string, string>)

  /** A dimension matches a log when the log has that dimension and, if
      values are given, its value is one of them. */
  predicate DimensionMatches(d: Dimension, log: StoredLog) {
    d.name in log.dimensions && (d.values.None? || log.dimensions[d.name] in d.values.value)
  }

  /** Both bounds are inclusive; an absent bound does not restrict. */
  predicate InTimeRange(t: int, start: Option<int>, end: Option<int>) {
    (start.None? || start.value <= t) && (end.None? || t <= end.value)
  }

  /** A log the listing may return: every dimension filter matches and the
      time lies in the range. */
  predicate Matches(q: ListLogsQuery, log: StoredLog) {
    (forall i :: 0 <= i < |q.dimensions.Items()| ==> DimensionMatches(q.dimensions.Items()[i], log))
    && InTimeRange(log.timestamp, q.startTime, q.endTime)
  }

  /** The filters are a conjunction: one more dimension filter keeps exactly
      the logs that also match it, and without dimension filters (`None`,
      `{}` or `[]`) only the time range decides. */
  lemma {:induction false} FiltersConjoin(q: ListLogsQuery, ds: seq<Dimension>, d: Dimension, log: StoredLog)
    ensures Matches(q.(dimensions := DimensionList(ds + [d])), log)
        <==> Matches(q.(dimensions := DimensionList(ds)), log) && DimensionMatches(d, log)
    ensures !q.dimensions.Truthy() ==> (Matches(q, log) <==> InTimeRange(log.timestamp, q.startTime, q.endTime))
  {
    var more := q.(dimensions := DimensionList(ds + [d]));
    var fewer := q.(dimensions := DimensionList(ds));
    assert more.dimensions.Items() == ds + [d];
    if Matches(more, log) {
      assert DimensionMatches(more.dimensions.Items()[|ds|], log);
      forall i | 0 <= i < |ds| ensures DimensionMatches(fewer.dimensions.Items()[i], log) {
        assert DimensionMatches(more.dimensions.Items()[i], log);
      }
    }
    if Matches(fewer, log) && DimensionMatches(d, log) {
      forall i | 0 <= i < |ds| + 1 ensures DimensionMatches(more.dimensions.Items()[i], log) {
        if i < |ds| {
          assert DimensionMatches(fewer.dimensions.Items()[i], log);
        }
      }
    }
  }

  /** Each returned entry carries exactly `timestamp`, `message` and `dimensions`. */
  predicate IsLogEntry(e: Json) {
    e.JObj? && e.fields.Keys == {"timestamp", "message", "dimensions"}
  }

  /** Several values: the dimension matches exactly when one single-value
      filter drawn from them matches. */
  lemma {:induction false} AnyValueMatches(name: string, vs: seq<string>, log: StoredLog)
    ensures DimensionMatches(Dimension(name, Some(vs)), log)
        <==> exists i :: 0 <= i < |vs| && DimensionMatches(Dimension(name, Some([vs[i]])), log)
  {
    if DimensionMatches(Dimension(name, Some(vs)), log) {
      var i :| 0 <= i < |vs| && vs[i] == log.dimensions[name];
      assert DimensionMatches(Dimension(name, Some([vs[i]])), log);
    }
  }

  /** No values: the dimension matches whatever value the log has, that is,
      as a filter listing the log's own value. */
  lemma NoValuesMatchAny(name: string, log: StoredLog)
    requires name in log.dimensions
    ensures DimensionMatches(Dimension(name, None), log)
    ensures forall vs :: log.dimensions[name] in vs ==> DimensionMatches(Dimension(name, Some(vs)), log)
  {
  }

  /** Inclusive bounds: a log stamped exactly at either bound is in range,
      and a range whose end precedes its start holds nothing. */
  lemma TimeBoundsInclusive(start: int, end: int, t: int)
    ensures start <= end ==> InTimeRange(start, Some(start), Some(end)) && InTimeRange(end, Some(start), Some(end))
    ensures end < start ==> !InTimeRange(t, Some(start), Some(end))
  {
  }
}
