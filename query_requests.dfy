/** The reference API's parser of a log-listing request into the
    arguments of `list_logs`. */
module QueryRequests {
  import opened Base
  import opened Py
  import opened PyDict
  import opened LogsRepository
  import ReferenceHelpers
  import AppHelpers

  /** `_get_dimensions`: `None` when the query names no dimensions,
      otherwise the validated `Dimension`s in mapping order. */
  function GetDimensions(c: Collaborators, params: Params): (r: Result<Dimensions>)
    ensures r.Ok? ==> !r.value.EmptyMapping?
    ensures ReferenceHelpers.QueryDimensions(params) == Ok([]) ==> r == Ok(NoDimensions)
    ensures "dimensions" !in params ==> r == Ok(NoDimensions)
    ensures r.Ok? && r.value.DimensionList? ==>
              var dims := ReferenceHelpers.QueryDimensions(params);
              dims.Ok? && |dims.value| > 0
              && ReferenceHelpers.ValidatedDimensions(c, dims.value) == Ok(r.value.items)
    ensures ReferenceHelpers.QueryDimensions(params).Err? ==> r == Err(ReferenceHelpers.QueryDimensions(params).error)
    ensures var dims := ReferenceHelpers.QueryDimensions(params);
            dims.Ok? && |dims.value| > 0 ==>
              var validated := ReferenceHelpers.ValidatedDimensions(c, dims.value);
              (validated.Ok? ==> r == Ok(DimensionList(validated.value)))
              && (validated.Err? ==> r == Err(validated.error))
  {
    var dims :- ReferenceHelpers.QueryDimensions(params);
    if |dims| == 0 then Ok(NoDimensions)
    else
      var validated :- ReferenceHelpers.ValidatedDimensions(c, dims);
      Ok(DimensionList(validated))
  }

  /** A time in seconds cut to whole seconds by `int()`. */
  function TruncOption(t: Option<real>): (r: Option<int>)
    ensures r.Some? <==> t.Some?
    ensures r.Some? ==> r.value == Trunc(t.value)
  {
    if t.Some? then Some(Trunc(t.value)) else None
  }

  /** The listing query the reference parser builds, or the first error:
      dimensions, then the times (compared before truncation), then
      `offset` (default `None`), `limit` (default `'10'`) and `sort_by`.
      The tenant is always the request's own project. */
  function ListLogsQueryOf(c: Collaborators, params: Params, projectId: Option<string>): (r: Result<ListLogsQuery>)
    ensures r.Ok? ==> r.value.tenantId == ReferenceHelpers.ProjectTenant(projectId)
    ensures r.Ok? ==> r.value.limit.Some? && !r.value.dimensions.EmptyMapping?
    ensures r.Ok? && "limit" !in params ==> r.value.limit == Some(10)
    ensures r.Ok? && "offset" !in params ==> r.value.offset == None
    ensures r.Ok? && "start_time" !in params ==> r.value.startTime == None
    ensures r.Ok? && "end_time" !in params ==> r.value.endTime == None
    ensures r.Ok? && "start_time" in params ==>
              c.parseIsoTime(params["start_time"]).Returned?
              && r.value.startTime == Some(Trunc(c.parseIsoTime(params["start_time"]).value))
    ensures r.Ok? && "end_time" in params ==>
              c.parseIsoTime(params["end_time"]).Returned?
              && r.value.endTime == Some(Trunc(c.parseIsoTime(params["end_time"]).value))
    ensures r.Ok? ==> Ok(r.value.sortBy) == AppHelpers.SortSpecs(params)
    ensures r.Ok? ==> Ok(r.value.dimensions) == GetDimensions(c, params)
    ensures r.Ok? ==> Ok(r.value.offset) == ReferenceHelpers.GetIntQueryParam(params, "offset", SNone)
                      && Ok(r.value.limit) == ReferenceHelpers.GetIntQueryParam(params, "limit", SStr("10"))
    ensures var dims := GetDimensions(c, params);
            var start := ReferenceHelpers.GetQueryStartTimestamp(c, params, false);
            var end := ReferenceHelpers.GetQueryEndTimestamp(c, params, false);
            var offset := ReferenceHelpers.GetIntQueryParam(params, "offset", SNone);
            var limit := ReferenceHelpers.GetIntQueryParam(params, "limit", SStr("10"));
            var sortBy := AppHelpers.SortSpecs(params);
            if dims.Err? then r == Err(dims.error)
            else if start.Err? then r == Err(start.error)
            else if end.Err? then r == Err(end.error)
            else if ReferenceHelpers.ValidateStartEndTimestamps(start.value, end.value).Err? then r == Err(BadRequest("start_time must be before end_time"))
            else if offset.Err? then r == Err(offset.error)
            else if limit.Err? then r == Err(limit.error)
            else if sortBy.Err? then r == Err(sortBy.error)
            else r.Ok?
    ensures r.Ok? && "start_time" in params && "end_time" in params ==>
              var start := c.parseIsoTime(params["start_time"]);
              var end := c.parseIsoTime(params["end_time"]);
              start.Returned? && end.Returned? && (end.value != 0.0 ==> start.value < end.value)
  {
    var dimensions :- GetDimensions(c, params);
    var start :- ReferenceHelpers.GetQueryStartTimestamp(c, params, false);
    var end :- ReferenceHelpers.GetQueryEndTimestamp(c, params, false);
    var _ :- ReferenceHelpers.ValidateStartEndTimestamps(start, end);
    var offset :- ReferenceHelpers.GetIntQueryParam(params, "offset", SNone);
    var limit :- ReferenceHelpers.GetIntQueryParam(params, "limit", SStr("10"));
    var sortBy :- AppHelpers.SortSpecs(params);
    DefaultLimitParses();
    Ok(ListLogsQuery(ReferenceHelpers.ProjectTenant(projectId), dimensions, TruncOption(start), TruncOption(end),
                     offset, limit, sortBy))
  }

  /** `get_list_logs_query`: the steps in the order the parser takes them,
      the times turned into whole seconds only once they are checked. */
  method GetListLogsQuery(c: Collaborators, params: Params, projectId: Option<string>) returns (r: Result<ListLogsQuery>)
    ensures r == ListLogsQueryOf(c, params, projectId)
  {
    var tenantId := ReferenceHelpers.ProjectTenant(projectId);
    var dimensions :- GetDimensions(c, params);
    var startTimestamp :- ReferenceHelpers.GetQueryStartTimestamp(c, params, false);
    var endTimestamp :- ReferenceHelpers.GetQueryEndTimestamp(c, params, false);
    var ordered :- ReferenceHelpers.ValidateStartEndTimestamps(startTimestamp, endTimestamp);
    var startTime: Option<int> := None;
    if startTimestamp.Some? {
      startTime := Some(Trunc(startTimestamp.value));
    }
    var endTime: Option<int> := None;
    if endTimestamp.Some? {
      endTime := Some(Trunc(endTimestamp.value));
    }
    var offset :- ReferenceHelpers.GetIntQueryParam(params, "offset", SNone);
    var limit :- ReferenceHelpers.GetIntQueryParam(params, "limit", SStr("10"));
    var sortBy :- AppHelpers.GetSortBy(params);
    return Ok(ListLogsQuery(tenantId, dimensions, startTime, endTime, offset, limit, sortBy));
  }

  /** The default limit `'10'` reads as the int 10. */
  lemma DefaultLimitParses()
    ensures ParseInt("10") == Some(10)
  {
    IntRoundTrip(10);
    assert NatToString(1) == "1";
    assert IntToString(10) == "10";
  }

  /** Equal non-zero start and end times are refused with 400 once the
      dimensions have been read. */
  lemma EqualTimesRejected(c: Collaborators, params: Params, projectId: Option<string>)
    requires GetDimensions(c, params).Ok?
    requires "start_time" in params && "end_time" in params
    requires c.parseIsoTime(params["start_time"]).Returned? && c.parseIsoTime(params["end_time"]).Returned?
    requires c.parseIsoTime(params["start_time"]).value == c.parseIsoTime(params["end_time"]).value != 0.0
    ensures ListLogsQueryOf(c, params, projectId) == Err(BadRequest("start_time must be before end_time"))
  {
  }

  /** The check compares the untruncated times: a start before an end
      within the same second passes it, and both become that second. */
  lemma CheckedBeforeTruncation(c: Collaborators, params: Params, projectId: Option<string>)
    requires GetDimensions(c, params).Ok?
    requires "start_time" in params && "end_time" in params
    requires c.parseIsoTime(params["start_time"]).Returned? && c.parseIsoTime(params["end_time"]).Returned?
    requires c.parseIsoTime(params["start_time"]).value < c.parseIsoTime(params["end_time"]).value
    requires Trunc(c.parseIsoTime(params["start_time"]).value) == Trunc(c.parseIsoTime(params["end_time"]).value)
    requires ReferenceHelpers.GetIntQueryParam(params, "offset", SNone).Ok?
    requires ReferenceHelpers.GetIntQueryParam(params, "limit", SStr("10")).Ok?
    requires AppHelpers.SortSpecs(params).Ok?
    ensures ListLogsQueryOf(c, params, projectId).Ok?
    ensures ListLogsQueryOf(c, params, projectId).value.startTime == ListLogsQueryOf(c, params, projectId).value.endTime
  {
  }
}
