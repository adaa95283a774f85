/** The listing path end to end: a query either parser accepts always
    builds into a search once there is a tenant and the index pattern
    holds `{tenant_id}`, so the builder's assertions about the limit and
    the sort specs can only fire on queries made some other way; and that
    search asks for exactly what the query says. */
module Pipeline {
  import opened Base
  import opened Py
  import opened LogsRepository
  import SearchBuilder
  import EsLogsRepository
  import QueryRequests
  import LogsController

  /** What any accepted query holds: a limit, and only valid sort specs. */
  predicate Buildable(q: ListLogsQuery)
  {
    q.limit.Some?
    && (q.sortBy.Some? ==> forall i :: 0 <= i < |q.sortBy.value| ==> SearchBuilder.ValidSort(q.sortBy.value[i]))
  }

  /** Such a query with a tenant builds, and the search reads back as the
      query. */
  lemma BuildableBuilds(conf: EsLogsRepository.EsConfig, q: ListLogsQuery)
    requires Buildable(q) && q.tenantId.Some?
    requires Contains(conf.indexPattern, SearchBuilder.TenantField)
    ensures EsLogsRepository.EsSearchFor(conf, q).Ok?
    ensures SearchBuilder.ReadSearch(EsLogsRepository.BuilderFields(conf), EsLogsRepository.EsSearchFor(conf, q).value)
            == Some(SearchBuilder.Expected(EsLogsRepository.EsIndex(conf, q.tenantId).value, q))
  {
    var f := EsLogsRepository.BuilderFields(conf);
    assert SearchBuilder.BodyFor(f, q).Ok?;
    SearchBuilder.SearchRoundTrip(f, q);
  }

  /** Every query the controller accepts is buildable. */
  lemma ControllerQueriesBuildable(c: Collaborators, params: Params, tenant: Option<ParamVal>)
    requires LogsController.ListLogsQueryOf(c, params, tenant).Ok?
    ensures Buildable(LogsController.ListLogsQueryOf(c, params, tenant).value)
  {
  }

  /** Every query the reference parser accepts is buildable. */
  lemma ReferenceQueriesBuildable(c: Collaborators, params: Params, projectId: Option<string>)
    requires QueryRequests.ListLogsQueryOf(c, params, projectId).Ok?
    ensures Buildable(QueryRequests.ListLogsQueryOf(c, params, projectId).value)
  {
  }

  /** A request the controller parses, for a caller with a tenant, always
      reaches the client. */
  lemma ControllerSearchBuilds(c: Collaborators, params: Params, tenant: Option<ParamVal>,
                               conf: EsLogsRepository.EsConfig)
    requires LogsController.ListLogsQueryOf(c, params, tenant).Ok? && tenant.Some?
    requires Contains(conf.indexPattern, SearchBuilder.TenantField)
    ensures EsLogsRepository.EsSearchFor(conf, LogsController.ListLogsQueryOf(c, params, tenant).value).Ok?
  {
    ControllerQueriesBuildable(c, params, tenant);
    BuildableBuilds(conf, LogsController.ListLogsQueryOf(c, params, tenant).value);
  }

  /** A query the reference parser builds for a request with a project
      always reaches the client. */
  lemma ReferenceSearchBuilds(c: Collaborators, params: Params, projectId: Option<string>,
                              conf: EsLogsRepository.EsConfig)
    requires QueryRequests.ListLogsQueryOf(c, params, projectId).Ok? && projectId.Some?
    requires Contains(conf.indexPattern, SearchBuilder.TenantField)
    ensures EsLogsRepository.EsSearchFor(conf, QueryRequests.ListLogsQueryOf(c, params, projectId).value).Ok?
  {
    ReferenceQueriesBuildable(c, params, projectId);
    BuildableBuilds(conf, QueryRequests.ListLogsQueryOf(c, params, projectId).value);
  }
}
