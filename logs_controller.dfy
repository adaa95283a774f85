/** The v3 logs controller: the listing query it builds from a request,
    the order in which `on_get` authorizes, resolves the tenant, parses and
    lists, and the tenant a bulk post is filed under. */
module LogsController {
  import opened Base
  import opened Py
  import opened PyDict
  import opened LogsRepository
  import ReferenceHelpers
  import AppHelpers
  import QueryRequests
  import EsLogsRepository
  import SearchBuilder

  /** What the controller reads from a request: its query parameters, the
      caller's roles (the `X-Roles` header as a string, or a list), its
      project and the cross-project id of a delegated post. */
  datatype Request = Request(params: Params, roles: ParamVal, projectId: Option<string>,
                             crossProjectId: Option<string>)

  // ---------------------------------------------------------------------
  // _get_list_logs_query

  /** The controller's dimensions: the empty mapping `{}` when the query
      names none, otherwise the validated `Dimension`s in mapping order. */
  function GetDimensions(c: Collaborators, params: Params): (r: Result<Dimensions>)
    ensures r.Ok? ==> !r.value.NoDimensions?
    ensures ReferenceHelpers.QueryDimensions(params) == Ok([]) ==> r == Ok(EmptyMapping)
    ensures "dimensions" !in params ==> r == Ok(EmptyMapping)
    ensures r.Ok? && r.value.DimensionList? ==>
              var dims := ReferenceHelpers.QueryDimensions(params);
              dims.Ok? && |dims.value| > 0
              && ReferenceHelpers.ValidatedDimensions(c, dims.value) == Ok(r.value.items)
    ensures ReferenceHelpers.QueryDimensions(params).Err? ==> r == Err(ReferenceHelpers.QueryDimensions(params).error)
    ensures var dims := ReferenceHelpers.QueryDimensions(params);
            dims.Ok? && |dims.value| > 0 ==>
              var validated := ReferenceHelpers.ValidatedDimensions(c, dims.value);
              (validated.Ok? ==> r == Ok(DimensionList(validated.value)))
              && (validated.Err? ==> r == Err(validated.error))
  {
    var dims :- ReferenceHelpers.QueryDimensions(params);
    if |dims| == 0 then Ok(EmptyMapping)
    else
      var validated :- ReferenceHelpers.ValidatedDimensions(c, dims);
      Ok(DimensionList(validated))
  }

  /** The controller and the reference parser read dimensions alike, except
      that "none" is `{}` here and `None` there. */
  lemma DimensionsAgree(c: Collaborators, params: Params)
    ensures QueryRequests.GetDimensions(c, params) == Ok(NoDimensions) <==> GetDimensions(c, params) == Ok(EmptyMapping)
    ensures GetDimensions(c, params) != Ok(EmptyMapping) ==> GetDimensions(c, params) == QueryRequests.GetDimensions(c, params)
  {
  }

  /** The listing query the controller builds, or the first error:
      dimensions, then the times (whole seconds, checked only for start
      after end), then `offset` (default `None`), `limit` (default `'10'`)
      and `sort_by`. The tenant is the one handed in. */
  function ListLogsQueryOf(c: Collaborators, params: Params, projectId: Option<ParamVal>): (r: Result<ListLogsQuery>)
    ensures r.Ok? ==> r.value.tenantId == projectId
    ensures r.Ok? ==> r.value.limit.Some? && !r.value.dimensions.NoDimensions?
    ensures r.Ok? && "limit" !in params ==> r.value.limit == Some(10)
    ensures r.Ok? && "offset" !in params ==> r.value.offset == None
    ensures r.Ok? && "start_time" !in params ==> r.value.startTime == None
    ensures r.Ok? && "end_time" !in params ==> r.value.endTime == None
    ensures r.Ok? && "start_time" in params ==>
              c.parseIsoTime(params["start_time"]).Returned?
              && r.value.startTime == Some(Trunc(c.parseIsoTime(params["start_time"]).value))
    ensures r.Ok? && "end_time" in params ==>
              c.parseIsoTime(params["end_time"]).Returned?
              && r.value.endTime == Some(Trunc(c.parseIsoTime(params["end_time"]).value))
    ensures r.Ok? && r.value.startTime.Some? && r.value.endTime.Some? ==> r.value.startTime.value <= r.value.endTime.value
    ensures r.Ok? ==> Ok(r.value.sortBy) == AppHelpers.SortSpecs(params)
    ensures r.Ok? ==> Ok(r.value.dimensions) == GetDimensions(c, params)
    ensures r.Ok? ==> Ok(r.value.offset) == ReferenceHelpers.GetIntQueryParam(params, "offset", SNone)
                      && Ok(r.value.limit) == ReferenceHelpers.GetIntQueryParam(params, "limit", SStr("10"))
    ensures var dims := GetDimensions(c, params);
            var start := AppHelpers.GetQueryStartTimestamp(c, params, false);
            var end := AppHelpers.GetQueryEndTimestamp(c, params, false);
            var offset := ReferenceHelpers.GetIntQueryParam(params, "offset", SNone);
            var limit := ReferenceHelpers.GetIntQueryParam(params, "limit", SStr("10"));
            var sortBy := AppHelpers.SortSpecs(params);
            if dims.Err? then r == Err(dims.error)
            else if start.Err? then r == Err(start.error)
            else if end.Err? then r == Err(end.error)
            else if AppHelpers.ValidateTimestampOrder(start.value, end.value).Err? then r == Err(BadRequest("start_time must be before end_time"))
            else if offset.Err? then r == Err(offset.error)
            else if limit.Err? then r == Err(limit.error)
            else if sortBy.Err? then r == Err(sortBy.error)
            else r.Ok?
  {
    var dimensions :- GetDimensions(c, params);
    var start :- AppHelpers.GetQueryStartTimestamp(c, params, false);
    var end :- AppHelpers.GetQueryEndTimestamp(c, params, false);
    var _ :- AppHelpers.ValidateTimestampOrder(start, end);
    var offset :- ReferenceHelpers.GetIntQueryParam(params, "offset", SNone);
    var limit :- ReferenceHelpers.GetIntQueryParam(params, "limit", SStr("10"));
    var sortBy :- AppHelpers.SortSpecs(params);
    QueryRequests.DefaultLimitParses();
    Ok(ListLogsQuery(projectId, dimensions, start, end, offset, limit, sortBy))
  }

  /** Start and end in the same second pass the controller's check, where
      the reference parser refuses equal non-zero times. */
  lemma EqualTimesAccepted(c: Collaborators, params: Params, projectId: Option<ParamVal>)
    requires GetDimensions(c, params).Ok?
    requires "start_time" in params && "end_time" in params
    requires c.parseIsoTime(params["start_time"]).Returned? && c.parseIsoTime(params["end_time"]).Returned?
    requires Trunc(c.parseIsoTime(params["start_time"]).value) == Trunc(c.parseIsoTime(params["end_time"]).value)
    requires ReferenceHelpers.GetIntQueryParam(params, "offset", SNone).Ok?
    requires ReferenceHelpers.GetIntQueryParam(params, "limit", SStr("10")).Ok?
    requires AppHelpers.SortSpecs(params).Ok?
    ensures ListLogsQueryOf(c, params, projectId).Ok?
  {
  }

  // ---------------------------------------------------------------------
  // process_on_post_request: the tenant

  /** A bulk post is filed under the cross-project id when one is set and
      not empty, otherwise under the caller's project. */
  function PostTenant(req: Request): (r: Option<string>)
    ensures req.crossProjectId.Some? && |req.crossProjectId.value| > 0 ==> r == req.crossProjectId
    ensures req.crossProjectId.None? || req.crossProjectId == Some("") ==> r == req.projectId
  {
    if req.crossProjectId.Some? && |req.crossProjectId.value| > 0 then req.crossProjectId else req.projectId
  }

  // ---------------------------------------------------------------------
  // on_get

  /** The listing a request gets from a configured repository: authorized
      against the read roles first, then the tenant resolved, the query
      parsed and the repository asked; the body is `{'elements': [...]}`. */
  function GetOutcome(authorizedRoles: seq<string>, delegateRoles: seq<string>, c: Collaborators,
                      conf: EsLogsRepository.EsConfig, respond: Json -> Raising<Json>, req: Request): (r: Result<Json>)
    ensures AppHelpers.Authorization(req.roles, authorizedRoles).Err? ==>
              r == Err(AppHelpers.Authorization(req.roles, authorizedRoles).error)
    ensures r.Ok? ==> AppHelpers.Authorization(req.roles, authorizedRoles).Ok?
    ensures r.Ok? ==> r.value.JObj? && r.value.fields.Keys == {"elements"} && r.value.fields["elements"].JList?
    ensures r.Ok? ==> forall i :: 0 <= i < |r.value.fields["elements"].items| ==>
                        IsLogEntry(r.value.fields["elements"].items[i])
    ensures AppHelpers.Authorization(req.roles, authorizedRoles).Ok? ==>
              var q := ListLogsQueryOf(c, req.params,
                                       ReferenceHelpers.GetXTenantOrTenantId(req.roles, delegateRoles, req.params, req.projectId));
              (q.Err? ==> r == Err(q.error))
              && (q.Ok? ==>
                    var listed := EsLogsRepository.ListLogsOutcome(conf, respond, q.value);
                    (listed.Err? ==> r == Err(listed.error))
                    && (listed.Ok? ==> r.Ok? && r.value.fields["elements"] == JList(listed.value)))
  {
    var _ :- AppHelpers.Authorization(req.roles, authorizedRoles);
    var tenant := ReferenceHelpers.GetXTenantOrTenantId(req.roles, delegateRoles, req.params, req.projectId);
    var q :- ListLogsQueryOf(c, req.params, tenant);
    var elements :- EsLogsRepository.ListLogsOutcome(conf, respond, q);
    var body := map["elements" := JList(elements)];
    assert body.Keys == {"elements"} && body["elements"].items == elements;
    Ok(JObj(body))
  }

  /** The search a request makes the repository hand to the client, if it
      gets that far: the query built for the delegate-resolved tenant. */
  function IssuedSearch(authorizedRoles: seq<string>, delegateRoles: seq<string>, c: Collaborators,
                        conf: EsLogsRepository.EsConfig, req: Request): (r: Option<Json>)
    ensures r.Some? ==> AppHelpers.Authorization(req.roles, authorizedRoles).Ok?
    ensures r.Some? ==>
              var q := ListLogsQueryOf(c, req.params,
                                       ReferenceHelpers.GetXTenantOrTenantId(req.roles, delegateRoles, req.params, req.projectId));
              q.Ok? && EsLogsRepository.EsSearchFor(conf, q.value) == Ok(r.value)
    ensures AppHelpers.Authorization(req.roles, authorizedRoles).Ok? ==>
              var q := ListLogsQueryOf(c, req.params,
                                       ReferenceHelpers.GetXTenantOrTenantId(req.roles, delegateRoles, req.params, req.projectId));
              q.Ok? && EsLogsRepository.EsSearchFor(conf, q.value).Ok?
              ==> r == Some(EsLogsRepository.EsSearchFor(conf, q.value).value)
  {
    if AppHelpers.Authorization(req.roles, authorizedRoles).Err? then None
    else
      var tenant := ReferenceHelpers.GetXTenantOrTenantId(req.roles, delegateRoles, req.params, req.projectId);
      var q := ListLogsQueryOf(c, req.params, tenant);
      if q.Err? then None
      else
        var search := EsLogsRepository.EsSearchFor(conf, q.value);
        if search.Err? then None else Some(search.value)
  }

  /** The HTTP response as the controller sets it. */
  class Response {
    var status: int
    var body: Option<Json>

    constructor ()
      ensures status == 200 && body == None
    {
      status := 200;
      body := None;
    }
  }

  /** The v3 logs resource, configured once. */
  class Logs {
    const delegateRoles: seq<string>
    const getLogsAuthorizedRoles: seq<string>
    const logsRepo: Option<EsLogsRepository.LogsRepository>
    const c: Collaborators

    /** `__init__`: reading is allowed to the default and the read-only
        roles; the repository is there only when a driver is configured. */
    constructor (defaultRoles: seq<string>, readOnlyRoles: seq<string>, delegateRoles: seq<string>,
                 logsRepo: Option<EsLogsRepository.LogsRepository>, c: Collaborators)
      ensures this.getLogsAuthorizedRoles == defaultRoles + readOnlyRoles
      ensures this.delegateRoles == delegateRoles && this.logsRepo == logsRepo && this.c == c
    {
      this.delegateRoles := delegateRoles;
      getLogsAuthorizedRoles := defaultRoles + readOnlyRoles;
      this.logsRepo := logsRepo;
      this.c := c;
    }

    /** The listing part of `on_get` with a repository configured: the
        role check, the tenant, the query, then the repository's listing
        wrapped as `{'elements': [...]}`. */
    method ListForRequest(repo: EsLogsRepository.LogsRepository, req: Request) returns (r: Result<Json>)
      modifies repo.es
      ensures r == GetOutcome(getLogsAuthorizedRoles, delegateRoles, c, repo.conf, repo.es.respond, req)
      ensures var issued := IssuedSearch(getLogsAuthorizedRoles, delegateRoles, c, repo.conf, req);
              repo.es.searches == old(repo.es.searches) + (if issued.Some? then [issued.value] else [])
    {
      var auth := AppHelpers.ValidateAuthorization(req.roles, getLogsAuthorizedRoles);
      if auth.Err? {
        return Err(auth.error);
      }
      var projectId := ReferenceHelpers.GetXTenantOrTenantId(req.roles, delegateRoles, req.params, req.projectId);
      var args := ListLogsQueryOf(c, req.params, projectId);
      if args.Err? {
        return Err(args.error);
      }
      var elements := repo.ListLogs(args.value);
      if elements.Err? {
        return Err(elements.error);
      }
      return Ok(JObj(map["elements" := JList(elements.value)]));
    }

    /** `on_get`: without a repository, status 500 and nothing else; with
        one, the listing or the error that stops it. On an error the
        response is left as it was and the error is handed back to the
        framework. */
    method OnGet(req: Request, res: Response) returns (err: Option<Error>)
      modifies res, if logsRepo.Some? then {logsRepo.value.es} else {}
      ensures logsRepo.None? ==> err.None? && res.status == 500 && res.body == old(res.body)
      ensures logsRepo.Some? ==>
                var out := GetOutcome(getLogsAuthorizedRoles, delegateRoles, c, logsRepo.value.conf,
                                      logsRepo.value.es.respond, req);
                (err.None? <==> out.Ok?)
                && (out.Ok? ==> res.status == 200 && res.body == Some(out.value))
                && (out.Err? ==> err == Some(out.error) && res.status == old(res.status) && res.body == old(res.body))
      ensures logsRepo.Some? ==>
                var issued := IssuedSearch(getLogsAuthorizedRoles, delegateRoles, c, logsRepo.value.conf, req);
                logsRepo.value.es.searches
                  == old(logsRepo.value.es.searches) + (if issued.Some? then [issued.value] else [])
    {
      if logsRepo.None? {
        res.status := 500;
        return None;
      }
      var out := ListForRequest(logsRepo.value, req);
      if out.Err? {
        return Some(out.error);
      }
      res.body := Some(out.value);
      res.status := 200;
      return None;
    }
  }
}
