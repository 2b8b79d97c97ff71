/**
  What the HubSpot services exchange with the outside world: the errors they
  throw, what their `catch` blocks can read from a caught value, the outcome of
  one upstream call, and the requests they issue.
*/
module Http {
  import opened Wrappers

  const BadRequest: int := 400
  const Unauthorized: int := 401
  const NotFound: int := 404
  const InternalServerError: int := 500

  const DefaultApiBaseUrl: string := "https://api.hubapi.com"

  /** An `HttpException` as the caller sees it: a status code and a message. */
  datatype HttpError = HttpError(status: int, message: string)

  /**
    What a `catch` block can read from the value it caught: either an upstream
    failure that carries an HTTP response (its `status` and `data.message`, each
    possibly absent), or an error without one: a network error, a `TypeError`
    from the service's own code, or an `HttpException` thrown by the auth
    service (whose `response` is a plain string, so `status` and `data` read as
    `undefined`).
  */
  datatype Caught =
    | WithResponse(status: Option<int>, message: Option<string>)
    | WithoutResponse

  /** The outcome of one upstream HTTP call: the response body, or what was thrown. */
  datatype Upstream<T> = Ok(data: T) | Err(failure: Caught)

  /** `error.response?.status` */
  function StatusOf(e: Caught): Option<int> {
    if e.WithResponse? then e.status else None
  }

  /**
    `new HttpException(error.response?.data?.message || fallback,
    error.response?.status || HttpStatus.INTERNAL_SERVER_ERROR)`: the upstream
    status is passed through when there is a non-zero one, otherwise the
    answer is 500; the upstream message is used when non-empty.
  */
  function Rethrow(e: Caught, fallback: string): (r: HttpError)
    ensures r.status != 0
    ensures StatusOf(e).Some? && StatusOf(e).value != 0 ==> r.status == StatusOf(e).value
    ensures StatusOf(e).None? || StatusOf(e) == Some(0) ==> r.status == InternalServerError
    ensures e.WithResponse? && e.message.Some? && e.message.value != "" ==> r.message == e.message.value
    ensures e.WithoutResponse? || e.message.None? || e.message == Some("") ==> r.message == fallback
  {
    var status := StatusOf(e);
    var message := if e.WithResponse? then e.message else None;
    HttpError(if status.Some? && status.value != 0 then status.value else InternalServerError,
              if message.Some? && message.value != "" then message.value else fallback)
  }

  /** `configService.get('hubspot.apiBaseUrl') || 'https://api.hubapi.com'` */
  function ApiBaseUrl(configured: Option<string>): (url: string)
    ensures url != ""
    ensures configured.Some? && configured.value != "" ==> url == configured.value
  {
    if configured.Some? && configured.value != "" then configured.value else DefaultApiBaseUrl
  }

  /** One clause of a CRM search filter group. */
  datatype Filter = Filter(propertyName: string, operator: string, value: string)

  datatype Sort = Sort(propertyName: string, direction: string)

  /**
    The JSON body of a CRM search: the filters of its single filter group (the
    key is absent when `None`), the requested properties, the page size, the
    sort order and the paging cursor.
  */
  datatype SearchBody = SearchBody(
    filterGroups: Option<seq<Filter>>,
    properties: seq<string>,
    limit: int,
    sorts: Option<seq<Sort>>,
    after: Option<string>)

  /** `if (x)` on an optional query string: present and non-empty. */
  predicate Given(x: Option<string>) {
    x.Some? && x.value != ""
  }

  /**
    The date filters of a CRM search: `<createdProperty> <operator>` for
    `created_after`, then `<updatedProperty> <operator>` for `updated_after`,
    each only when given. `epochMillis` stands for
    `new Date(s).getTime().toString()`.
  */
  function DateFilters(createdProperty: string, updatedProperty: string, operator: string,
                       createdAfter: Option<string>, updatedAfter: Option<string>,
                       epochMillis: string -> string): (fs: seq<Filter>)
    ensures |fs| == (if Given(createdAfter) then 1 else 0) + (if Given(updatedAfter) then 1 else 0)
    ensures Given(createdAfter) ==> fs[0] == Filter(createdProperty, operator, epochMillis(createdAfter.value))
    ensures Given(updatedAfter) ==> fs[|fs| - 1] == Filter(updatedProperty, operator, epochMillis(updatedAfter.value))
  {
    (if Given(createdAfter) then [Filter(createdProperty, operator, epochMillis(createdAfter.value))] else []) +
    (if Given(updatedAfter) then [Filter(updatedProperty, operator, epochMillis(updatedAfter.value))] else [])
  }

  /** A request sent to the CRM API with `Authorization: Bearer <bearer>`. */
  datatype Request =
    | GetRequest(url: string, params: seq<(string, string)>, bearer: string)
    | PostRequest(url: string, body: SearchBody, bearer: string)
}
