/** The Elasticsearch logs repository: it builds the search from the
    configured options, hands it to the client, and tidies what comes
    back; a failing client is reported as a repository error. Its static
    builder and transformer are the same code as `SearchBuilder` and
    `ResultTransformer` reading the global options, so they are modelled
    through those. */
module EsLogsRepository {
  import opened Base
  import opened Py
  import opened Listing = LogsRepository
  import SearchBuilder
  import ResultTransformer

  /** The `elasticsearch` options the repository reads. */
  datatype EsConfig = EsConfig(uris: seq<string>, indexPattern: string, timestampField: string,
                               messageField: string, dimensionsField: string)

  function BuilderFields(conf: EsConfig): SearchBuilder.Fields
  {
    SearchBuilder.Fields(conf.indexPattern, conf.timestampField, conf.messageField, conf.dimensionsField)
  }

  function TransformPaths(conf: EsConfig): ResultTransformer.Paths
  {
    ResultTransformer.Paths(conf.timestampField, conf.messageField, conf.dimensionsField)
  }

  /** `_index`: asserts, when called, that there is a tenant and that the
      configured pattern holds `{tenant_id}`, then substitutes. */
  function EsIndex(conf: EsConfig, tenantId: Option<ParamVal>): (r: Result<string>)
    ensures r.Err? <==> tenantId.None? || !Contains(conf.indexPattern, SearchBuilder.TenantField)
    ensures r.Err? ==> r.error == AssertFail
    ensures r.Ok? ==> r == SearchBuilder.Index(BuilderFields(conf), tenantId)
                      && Contains(r.value, SearchBuilder.TenantText(tenantId.value))
  {
    if tenantId.None? || !Contains(conf.indexPattern, SearchBuilder.TenantField) then Err(AssertFail)
    else SearchBuilder.Index(BuilderFields(conf), tenantId)
  }

  /** `_build_list_logs`: the search a configured `SearchBuilder` builds,
      once the pattern assertion of `_index` holds. */
  function EsSearchFor(conf: EsConfig, q: ListLogsQuery): (r: Result<Json>)
    ensures !Contains(conf.indexPattern, SearchBuilder.TenantField) ==> r == Err(AssertFail)
    ensures Contains(conf.indexPattern, SearchBuilder.TenantField) ==> r == SearchBuilder.SearchFor(BuilderFields(conf), q)
  {
    var _ :- EsIndex(conf, q.tenantId);
    SearchBuilder.SearchFor(BuilderFields(conf), q)
  }

  /** `_build_list_logs` run: the assertions of `_index`, then the same
      steps as a builder over the configured fields. */
  method BuildListLogs(conf: EsConfig, q: ListLogsQuery) returns (r: Result<Json>)
    ensures r == EsSearchFor(conf, q)
  {
    var _ :- EsIndex(conf, q.tenantId);
    var builder := new SearchBuilder.SearchBuilder(BuilderFields(conf));
    r := builder.BuildListLogs(q);
  }

  /** The Elasticsearch client. It records every search it is handed; its
      answer, or the exception it raises, depends on the request alone. */
  class EsClient {
    var searches: seq<Json>
    const respond: Json -> Raising<Json>

    constructor (respond: Json -> Raising<Json>)
      ensures this.respond == respond && searches == []
    {
      this.respond := respond;
      searches := [];
    }

    /** `search(index=..., body=...)`. */
    method Search(request: Json) returns (reply: Raising<Json>)
      modifies this
      ensures searches == old(searches) + [request]
      ensures reply == respond(request)
    {
      searches := searches + [request];
      reply := respond(request);
    }
  }

  /** What a listing gives back, or how it fails: a search that cannot be
      built fails its assertion before the client is called; an exception
      from the client is a repository error carrying its text; otherwise
      the hits are tidied. */
  function ListLogsOutcome(conf: EsConfig, respond: Json -> Raising<Json>, q: ListLogsQuery): (r: Result<seq<Json>>)
    ensures EsSearchFor(conf, q).Err? ==> r == Err(AssertFail)
    ensures EsSearchFor(conf, q).Ok? && respond(EsSearchFor(conf, q).value).Raised?
            ==> r == Err(RepositoryError(respond(EsSearchFor(conf, q).value).message))
    ensures r.Ok? ==> EsSearchFor(conf, q).Ok? && respond(EsSearchFor(conf, q).value).Returned?
                      && Ok(r.value) == ResultTransformer.TransformListLogsResult(TransformPaths(conf),
                                                                               respond(EsSearchFor(conf, q).value).value)
    ensures EsSearchFor(conf, q).Ok? && respond(EsSearchFor(conf, q).value).Returned?
            ==> r == ResultTransformer.TransformListLogsResult(TransformPaths(conf),
                                                               respond(EsSearchFor(conf, q).value).value)
    ensures r.Ok? ==> forall i :: 0 <= i < |r.value| ==> IsLogEntry(r.value[i])
  {
    var search :- EsSearchFor(conf, q);
    match respond(search)
    case Raised(message) => Err(RepositoryError(message))
    case Returned(result) => ResultTransformer.TransformListLogsResult(TransformPaths(conf), result)
  }

  /** The repository over a connected client. */
  class LogsRepository {
    const es: EsClient
    const conf: EsConfig

    constructor (es: EsClient, conf: EsConfig)
      ensures this.es == es && this.conf == conf
    {
      this.es := es;
      this.conf := conf;
    }

    /** `__init__`: the attempt to make a client for the configured URIs
        either gives one, or raises, and then the repository reports a
        repository error with the text of that exception. */
    static method Connect(conf: EsConfig, client: Raising<EsClient>) returns (r: Result<LogsRepository>)
      ensures client.Raised? ==> r == Err(RepositoryError(client.message))
      ensures client.Returned? ==> r.Ok? && r.value.es == client.value && r.value.conf == conf
    {
      if client.Raised? {
        return Err(RepositoryError(client.message));
      }
      var repo := new LogsRepository(client.value, conf);
      return Ok(repo);
    }

    /** `list_logs`: exactly the built search goes to the client, and
        only when it could be built. */
    method ListLogs(q: ListLogsQuery) returns (r: Result<seq<Json>>)
      modifies es
      ensures r == ListLogsOutcome(conf, es.respond, q)
      ensures EsSearchFor(conf, q).Ok? ==> es.searches == old(es.searches) + [EsSearchFor(conf, q).value]
      ensures EsSearchFor(conf, q).Err? ==> es.searches == old(es.searches)
    {
      var search := BuildListLogs(conf, q);
      if search.Err? {
        return Err(search.error);
      }
      var reply := es.Search(search.value);
      if reply.Raised? {
        return Err(RepositoryError(reply.message));
      }
      r := ResultTransformer.TransformListLogsResult(TransformPaths(conf), reply.value);
    }
  }
}
