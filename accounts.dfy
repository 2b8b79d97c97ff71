/**
  The HubSpot proxy's accounts (companies) service: `findAll` chooses between
  the search endpoint (when date filters are given) and the list endpoint,
  pages by a numeric offset, maps each company and computes page metadata;
  `findOne` reads one company and maps a 404. The bearer is the static access
  token from the configuration; each upstream call is an input outcome.
*/
module Accounts {
  import opened Wrappers
  import opened Js
  import opened Http
  import opened Paging

  /** The company properties requested, comma-separated. */
  const PropertyList: string :=
    "name,domain,industry,annualrevenue,phone,city,state,zip,country,address,description,hubspot_owner_id,createdate,hs_lastmodifieddate"
  const DefaultPage: int := 1
  const DefaultLimit: int := 10
  const FetchAccountsFailed: string := "Failed to fetch accounts"
  const FetchAccountFailed: string := "Failed to fetch account"
  const AccountNotFound: string := "Account not found"

  function ListUrl(base: string): string { base + "/crm/v3/objects/companies" }
  function SearchUrl(base: string): string { base + "/crm/v3/objects/companies/search" }
  function CompanyUrl(base: string, id: string): string { base + "/crm/v3/objects/companies/" + id }

  // ------------------------------------------------------------ request building

  /** The date filters of the companies search, with the lower-case operator `gte`. */
  function AccountFilters(createdAfter: Option<string>, updatedAfter: Option<string>,
                          epochMillis: string -> string): seq<Filter>
  {
    DateFilters("createdate", "hs_lastmodifieddate", "gte", createdAfter, updatedAfter, epochMillis)
  }

  /** `page > 1 ? ((page - 1) * limit).toString() : undefined` */
  function Offset(page: int, limit: int): (after: Option<string>)
    ensures after.Some? <==> page > 1
    ensures after.Some? ==> after.value != ""
  {
    if page > 1 then Some(IntToDecimal((page - 1) * limit)) else None
  }

  /** The offset cursor reads back, with `parseInt`, as the number of items on the earlier pages. */
  lemma OffsetReadsBack(page: int, limit: int)
    requires page > 1
    ensures ParseInt(Offset(page, limit).value) == Some((page - 1) * limit)
  {
    ParseIntOfDecimal((page - 1) * limit, "");
    assert IntToDecimal((page - 1) * limit) + "" == IntToDecimal((page - 1) * limit);
  }

  /**
    The one request `findAll` sends: a search POST exactly when a date filter
    is given, otherwise a GET on the list endpoint; both carry the limit, the
    property list and the offset of the page when it is not the first.
  */
  method CompaniesRequest(base: string, bearer: string, page: int, limit: int, createdAfter: Option<string>,
                          updatedAfter: Option<string>, epochMillis: string -> string)
    returns (req: Request)
    ensures req.bearer == bearer
    ensures req.PostRequest? <==> Given(createdAfter) || Given(updatedAfter)
    ensures req.PostRequest? ==>
              req.url == SearchUrl(base) &&
              req.body == SearchBody(Some(AccountFilters(createdAfter, updatedAfter, epochMillis)),
                                     Split(PropertyList, ','), limit, None, Offset(page, limit))
    ensures req.GetRequest? ==>
              req.url == ListUrl(base) &&
              req.params == [("limit", IntToDecimal(limit)), ("properties", PropertyList)] +
                            (if page > 1 then [("after", Offset(page, limit).value)] else [])
  {
    var params := [("limit", IntToDecimal(limit)), ("properties", PropertyList)];
    var filters: seq<Filter> := [];
    if Given(createdAfter) {
      filters := filters + [Filter("createdate", "gte", epochMillis(createdAfter.value))];
    }
    if Given(updatedAfter) {
      filters := filters + [Filter("hs_lastmodifieddate", "gte", epochMillis(updatedAfter.value))];
    }
    assert filters == AccountFilters(createdAfter, updatedAfter, epochMillis);
    if |filters| > 0 {
      var after := if page > 1 then Some(IntToDecimal((page - 1) * limit)) else None;
      req := PostRequest(SearchUrl(base), SearchBody(Some(filters), Split(PropertyList, ','), limit, None, after), bearer);
    } else {
      if page > 1 {
        params := params + [("after", IntToDecimal((page - 1) * limit))];
      }
      req := GetRequest(ListUrl(base), params, bearer);
    }
  }

  // ------------------------------------------------------------ mapping

  datatype Address = Address(
    street: JsValue, city: JsValue, state: JsValue, zipCode: JsValue, country: JsValue, locationType: string)

  datatype Account = Account(
    id: JsValue, ownerId: JsValue, name: JsValue, description: JsValue, industries: seq<JsValue>,
    annualRevenue: JsValue, website: JsValue, addresses: seq<Address>, phoneNumbers: seq<JsValue>,
    createdAt: string, updatedAt: string)

  /**
    `v ? new Date(v).toISOString() : ''` can be evaluated: the value is falsy,
    or it is a valid date. `isoOf(v)` is `None` exactly when `toISOString`
    throws a RangeError on an invalid date.
  */
  predicate DateReadable(v: JsValue, isoOf: JsValue -> Option<string>) {
    !Truthy(v) || isoOf(v).Some?
  }

  /** `v ? new Date(v).toISOString() : ''` on a value where it does not throw. */
  function IsoDateOf(v: JsValue, isoOf: JsValue -> Option<string>): (r: string)
    requires DateReadable(v, isoOf)
    ensures !Truthy(v) ==> r == ""
    ensures Truthy(v) ==> isoOf(v) == Some(r)
  {
    if Truthy(v) then isoOf(v).value else ""
  }

  /** `mapToAccount` returns rather than throws: the company is not nullish and both its dates are readable. */
  predicate Mappable(company: JsValue, isoOf: JsValue -> Option<string>) {
    !Nullish(company) &&
    DateReadable(Get(PropertiesOf(company), "createdate"), isoOf) &&
    DateReadable(Get(PropertiesOf(company), "hs_lastmodifieddate"), isoOf)
  }

  /** `x ? [x] : []` */
  function Singleton(v: JsValue): (r: seq<JsValue>)
    ensures Truthy(v) ==> r == [v]
    ensures !Truthy(v) ==> r == []
  {
    if Truthy(v) then [v] else []
  }

  /** `out` is `v || ''`: a present (truthy) value is kept as it is, a missing one becomes `''`. */
  predicate KeptOrEmpty(out: JsValue, v: JsValue) {
    (Truthy(v) ==> out == v) && (!Truthy(v) ==> out == Str(""))
  }

  /** The primary address built from the company's properties, each defaulting to `''`. */
  function AddressOf(props: JsValue): (a: Address)
    requires !Nullish(props)
    ensures a.locationType == "primary"
    ensures KeptOrEmpty(a.street, Get(props, "address")) && KeptOrEmpty(a.city, Get(props, "city"))
    ensures KeptOrEmpty(a.state, Get(props, "state")) && KeptOrEmpty(a.zipCode, Get(props, "zip"))
    ensures KeptOrEmpty(a.country, Get(props, "country"))
    ensures Truthy(a.street) <==> Truthy(Get(props, "address"))
    ensures Truthy(a.city) <==> Truthy(Get(props, "city"))
  {
    Address(Or(Get(props, "address"), Str("")), Or(Get(props, "city"), Str("")), Or(Get(props, "state"), Str("")),
            Or(Get(props, "zip"), Str("")), Or(Get(props, "country"), Str("")), "primary")
  }

  /**
    `mapToAccount`: every missing (falsy) scalar, and a missing id, becomes
    `''`, a present one is kept; industry and phone become one-element lists
    when present; the primary address is listed exactly when its street or
    city is non-empty, so state, zip or country alone produce none. The dates
    are `''` when absent and the ISO form of the date otherwise.
  */
  function MapToAccount(company: JsValue, isoOf: JsValue -> Option<string>): (a: Account)
    requires Mappable(company, isoOf)
    ensures var props := PropertiesOf(company);
            KeptOrEmpty(a.id, Get(company, "id")) &&
            KeptOrEmpty(a.name, Get(props, "name")) &&
            KeptOrEmpty(a.ownerId, Get(props, "hubspot_owner_id")) &&
            KeptOrEmpty(a.description, Get(props, "description")) &&
            KeptOrEmpty(a.annualRevenue, Get(props, "annualrevenue")) &&
            KeptOrEmpty(a.website, Get(props, "domain")) &&
            a.industries == Singleton(Get(props, "industry")) &&
            a.phoneNumbers == Singleton(Get(props, "phone"))
    ensures |a.addresses| <= 1
    ensures a.addresses != [] <==> Truthy(Get(PropertiesOf(company), "address")) || Truthy(Get(PropertiesOf(company), "city"))
    ensures a.addresses != [] ==> a.addresses[0] == AddressOf(PropertiesOf(company))
    ensures var created := Get(PropertiesOf(company), "createdate");
            (!Truthy(created) ==> a.createdAt == "") && (Truthy(created) ==> isoOf(created) == Some(a.createdAt))
    ensures var updated := Get(PropertiesOf(company), "hs_lastmodifieddate");
            (!Truthy(updated) ==> a.updatedAt == "") && (Truthy(updated) ==> isoOf(updated) == Some(a.updatedAt))
  {
    var props := PropertiesOf(company);
    var address := AddressOf(props);
    Account(Or(Get(company, "id"), Str("")), Or(Get(props, "hubspot_owner_id"), Str("")),
            Or(Get(props, "name"), Str("")), Or(Get(props, "description"), Str("")),
            Singleton(Get(props, "industry")), Or(Get(props, "annualrevenue"), Str("")),
            Or(Get(props, "domain"), Str("")),
            if Truthy(address.street) || Truthy(address.city) then [address] else [],
            Singleton(Get(props, "phone")),
            IsoDateOf(Get(props, "createdate"), isoOf), IsoDateOf(Get(props, "hs_lastmodifieddate"), isoOf))
  }

  /**
    A company without properties always maps: every scalar is `''`, there is no
    industry, address or phone number, and both dates are `''`.
  */
  lemma BareCompanyAccount(company: JsValue, isoOf: JsValue -> Option<string>)
    requires !Nullish(company) && !Truthy(Get(company, "properties"))
    ensures Mappable(company, isoOf)
    ensures var a := MapToAccount(company, isoOf);
            a.ownerId == Str("") && a.name == Str("") && a.description == Str("") &&
            a.annualRevenue == Str("") && a.website == Str("") &&
            a.industries == [] && a.addresses == [] && a.phoneNumbers == [] &&
            a.createdAt == "" && a.updatedAt == ""
  {
  }

  /**
    `results.map(mapToAccount)`: `None` when some company is `null` or
    `undefined` (reading its `.properties` throws) or carries a truthy date
    that is not a valid date (`toISOString` throws); otherwise one account per
    company, in order.
  */
  function MapAll(companies: seq<JsValue>, isoOf: JsValue -> Option<string>): (r: Option<seq<Account>>)
    ensures r.None? <==> exists i :: 0 <= i < |companies| && !Mappable(companies[i], isoOf)
    ensures r.Some? ==> |r.value| == |companies| &&
                        forall i :: 0 <= i < |companies| ==> r.value[i] == MapToAccount(companies[i], isoOf)
  {
    if companies == [] then Some([])
    else if !Mappable(companies[0], isoOf) then None
    else
      match MapAll(companies[1..], isoOf)
      case None => None
      case Some(rest) => Some([MapToAccount(companies[0], isoOf)] + rest)
  }

  // ------------------------------------------------------------ the page

  /** The page metadata `findAll` reports. */
  datatype Metadata = Metadata(total: nat, page: int, limit: int, totalPages: PageCount, hasNext: bool, hasPrevious: bool)

  /** `totalPages = Math.ceil(total / limit)`, `hasNext = page * limit < total`, `hasPrevious = page > 1`. */
  function MetadataOf(total: nat, page: int, limit: int): (m: Metadata)
    ensures m.total == total && m.page == page && m.limit == limit
    ensures m.hasPrevious <==> page > 1
    ensures m.hasNext <==> page * limit < total
    ensures limit > 0 ==> m.totalPages.Pages? && (m.hasNext <==> page < m.totalPages.n)
    ensures limit > 0 ==> m.totalPages.n * limit >= total && (total > 0 ==> (m.totalPages.n - 1) * limit < total)
  {
    var m := Metadata(total, page, limit, TotalPages(total, limit), page * limit < total, page > 1);
    if limit > 0 then HasNextIffBelowPageCount(total, page, limit); m else m
  }

  /** `data.total || results.length`: a missing or zero total falls back to the number of results. */
  function TotalOf(total: Option<nat>, results: seq<JsValue>): (t: nat)
    ensures total.Some? && total.value != 0 ==> t == total.value
    ensures total.None? || total == Some(0) ==> t == |results|
  {
    if total.Some? && total.value != 0 then total.value else |results|
  }

  /** The query of `findAll`; `page` defaults to 1 and `limit` to 10 when absent. */
  datatype AccountQuery = AccountQuery(
    page: Option<int>, limit: Option<int>, createdAfter: Option<string>, updatedAfter: Option<string>)

  /**
    The parts of an upstream response `findAll` reads: `data.results` and
    `data.total`; or a `data` that is `null` or `undefined`, on which reading
    `.results` throws.
  */
  datatype CompanyPage =
    | NullishData
    | CompanyPage(results: JsValue, total: Option<nat>)

  /** `data.results || []` when `.map` can run on it; `None` when reading or mapping it throws. */
  function ResultsOf(page: CompanyPage): (results: Option<seq<JsValue>>)
    ensures page.NullishData? ==> results.None?
    ensures page.CompanyPage? ==> results == ListOrEmpty(page.results)
  {
    if page.NullishData? then None else ListOrEmpty(page.results)
  }

  datatype AccountPage = AccountPage(data: seq<Account>, metadata: Metadata)

  /**
    `findAll`: sends the one request `CompaniesRequest` builds; a failure is
    rethrown with the upstream status and message, or 500 'Failed to fetch
    accounts', and so is a company that cannot be mapped (a TypeError or a
    RangeError), and so is a nullish `data` or a truthy `results` that is not
    a list (a TypeError). Otherwise the page
    holds the mapped companies, in order, with the metadata of the total.
  */
  method FindAll(base: string, bearer: string, query: AccountQuery, response: Upstream<CompanyPage>,
                 epochMillis: string -> string, isoOf: JsValue -> Option<string>)
    returns (r: Result<AccountPage, HttpError>, sent: Request)
    ensures (sent.PostRequest? <==> Given(query.createdAfter) || Given(query.updatedAfter)) && sent.bearer == bearer
    ensures var page := query.page.GetOr(DefaultPage);
            var limit := query.limit.GetOr(DefaultLimit);
            (sent.PostRequest? ==>
               sent.url == SearchUrl(base) &&
               sent.body == SearchBody(Some(AccountFilters(query.createdAfter, query.updatedAfter, epochMillis)),
                                       Split(PropertyList, ','), limit, None, Offset(page, limit))) &&
            (sent.GetRequest? ==>
               sent.url == ListUrl(base) &&
               sent.params == [("limit", IntToDecimal(limit)), ("properties", PropertyList)] +
                              (if page > 1 then [("after", Offset(page, limit).value)] else []))
    ensures response.Err? ==> r == Failure(Rethrow(response.failure, FetchAccountsFailed))
    ensures response.Ok? && ResultsOf(response.data).None? ==>
              r == Failure(HttpError(InternalServerError, FetchAccountsFailed))
    ensures response.Ok? && ResultsOf(response.data).Some? ==>
              var results := ResultsOf(response.data).value;
              (MapAll(results, isoOf).None? ==> r == Failure(HttpError(InternalServerError, FetchAccountsFailed))) &&
              (MapAll(results, isoOf).Some? ==>
                 r == Success(AccountPage(MapAll(results, isoOf).value,
                                          MetadataOf(TotalOf(response.data.total, results),
                                                     query.page.GetOr(DefaultPage), query.limit.GetOr(DefaultLimit)))))
  {
    var page := query.page.GetOr(DefaultPage);
    var limit := query.limit.GetOr(DefaultLimit);
    sent := CompaniesRequest(base, bearer, page, limit, query.createdAfter, query.updatedAfter, epochMillis);
    if response.Err? {
      return Failure(Rethrow(response.failure, FetchAccountsFailed)), sent;
    }
    var read := ResultsOf(response.data);
    if read.None? {
      return Failure(HttpError(InternalServerError, FetchAccountsFailed)), sent;
    }
    var results := read.value;
    var total := TotalOf(response.data.total, results);
    var accounts := MapAll(results, isoOf);
    if accounts.None? {
      return Failure(HttpError(InternalServerError, FetchAccountsFailed)), sent;
    }
    r := Success(AccountPage(accounts.value, MetadataOf(total, page, limit)));
  }

  /** How `findOne`'s `catch` turns what it caught into the error it throws. */
  function FindOneError(e: Caught): (err: HttpError)
    ensures StatusOf(e) == Some(NotFound) ==> err == HttpError(NotFound, AccountNotFound)
    ensures StatusOf(e) != Some(NotFound) ==> err == Rethrow(e, FetchAccountFailed)
  {
    if StatusOf(e) == Some(NotFound) then HttpError(NotFound, AccountNotFound) else Rethrow(e, FetchAccountFailed)
  }

  /** The request `findOne` sends: the raw id in the path, the property list as a parameter. */
  function FindOneRequest(base: string, bearer: string, id: string): Request {
    GetRequest(CompanyUrl(base, id), [("properties", PropertyList)], bearer)
  }

  /**
    `findOne`: one GET of the company; a 404 becomes 404 'Account not found';
    other failures keep the upstream status and message, or 500 'Failed to
    fetch account'; a body that cannot be mapped (nullish, or with an invalid
    date) throws inside the `try` and so is a 500 too.
  */
  method FindOne(base: string, bearer: string, id: string, response: Upstream<JsValue>,
                 isoOf: JsValue -> Option<string>)
    returns (r: Result<Account, HttpError>, sent: Request)
    ensures sent == GetRequest(CompanyUrl(base, id), [("properties", PropertyList)], bearer)
    ensures response.Err? ==> r == Failure(FindOneError(response.failure))
    ensures response.Err? && StatusOf(response.failure) == Some(NotFound) ==>
              r == Failure(HttpError(NotFound, AccountNotFound))
    ensures response.Err? && StatusOf(response.failure) != Some(NotFound) ==>
              r.Failure? && r.error.status == (if StatusOf(response.failure).Some? && StatusOf(response.failure).value != 0
                                              then StatusOf(response.failure).value else InternalServerError)
    ensures response.Ok? && !Mappable(response.data, isoOf) ==>
              r == Failure(HttpError(InternalServerError, FetchAccountFailed))
    ensures response.Ok? && Mappable(response.data, isoOf) ==> r == Success(MapToAccount(response.data, isoOf))
  {
    sent := FindOneRequest(base, bearer, id);
    match response
    case Err(e) =>
      r := Failure(FindOneError(e));
    case Ok(data) =>
      r := if Mappable(data, isoOf) then Success(MapToAccount(data, isoOf)) else Failure(FindOneError(WithoutResponse));
  }
}
