/**
  The HubSpot proxy's contacts service: `findAll` (one CRM search, then two
  association lookups per contact whose failures are collected rather than
  thrown), `findOne` (ID sanitising, one read, the same association step and
  the 404 mapping), the search request it builds and the record mapping.

  The bearer token is an input standing for the outcome of
  `getValidAccessToken`; each upstream call is an input outcome, the
  association lookups a function from request URL to outcome. The requests
  each operation sends are returned, in the order one contact issues them.
*/
module Contacts {
  import opened Wrappers
  import opened Js
  import opened Helpers
  import opened Http

  /** The properties requested for every contact, comma-separated. */
  const Properties: string := "firstname,lastname,company,email,phone,createdate,lastmodifieddate"
  const DefaultLimit: int := 10
  const DealsType: string := "deals"
  const CompaniesType: string := "companies"

  const InvalidIdMessage: string := "Invalid contact ID format"
  const FetchContactFailed: string := "Failed to fetch contact"
  const FetchContactsFailed: string := "Failed to fetch contacts"
  const UnknownError: string := "Unknown error"

  // ------------------------------------------------------------ ID cleaning

  /** `id.replace(/[^0-9]/g, '')`: the digits of `id`, in order. */
  function CleanId(id: string): (r: string)
    ensures AllDigits(r) && |r| <= |id|
  {
    if id == "" then ""
    else (if IsDigit(id[0]) then [id[0]] else []) + CleanId(id[1..])
  }

  /** Cleaning distributes over concatenation. */
  lemma {:induction false} CleanIdAppend(a: string, b: string)
    ensures CleanId(a + b) == CleanId(a) + CleanId(b)
  {
    if a == "" {
      assert a + b == b;
    } else {
      assert (a + b)[0] == a[0];
      assert (a + b)[1..] == a[1..] + b;
      CleanIdAppend(a[1..], b);
    }
  }

  /** A character survives cleaning exactly when it is a digit of the input. */
  lemma {:induction false} CleanIdCharacters(id: string, c: char)
    ensures c in CleanId(id) <==> c in id && IsDigit(c)
  {
    if id != "" {
      CleanIdCharacters(id[1..], c);
      assert id == [id[0]] + id[1..];
    }
  }

  /** An all-digit ID is left as it is. */
  lemma {:induction false} CleanIdOfDigits(d: string)
    requires AllDigits(d)
    ensures CleanId(d) == d
  {
    if d != "" {
      CleanIdOfDigits(d[1..]);
      assert d == [d[0]] + d[1..];
    }
  }

  /** Non-digit noise around the digits is dropped: `'abc123'` becomes `'123'`. */
  lemma StripsNoise(junk: string, d: string)
    requires forall i :: 0 <= i < |junk| ==> !IsDigit(junk[i])
    requires AllDigits(d)
    ensures CleanId(junk + d) == d && CleanId(d + junk) == d
  {
    CleanIdAppend(junk, d);
    CleanIdAppend(d, junk);
    CleanIdOfDigits(d);
    if CleanId(junk) != "" {
      var c := CleanId(junk)[0];
      CleanIdCharacters(junk, c);
      assert false;
    }
  }

  // ------------------------------------------------------------ the search request

  /** The date filters of the contacts search, with the upper-case operator `GTE`. */
  function ContactFilters(createdAfter: Option<string>, updatedAfter: Option<string>,
                          epochMillis: string -> string): seq<Filter>
  {
    DateFilters("createdate", "lastmodifieddate", "GTE", createdAfter, updatedAfter, epochMillis)
  }

  function SearchUrl(base: string): string {
    base + "/crm/v3/objects/contacts/search"
  }

  /**
    The body `searchContacts` posts: always sorted by `createdate DESCENDING`,
    with the single filter group only when some filter exists and the cursor
    only when one was given.
  */
  method SearchBodyFor(limit: int, after: Option<string>, createdAfter: Option<string>,
                       updatedAfter: Option<string>, epochMillis: string -> string)
    returns (body: SearchBody)
    ensures body.properties == Split(Properties, ',') && body.limit == limit
    ensures body.sorts == Some([Sort("createdate", "DESCENDING")])
    ensures body.filterGroups.Some? <==> Given(createdAfter) || Given(updatedAfter)
    ensures body.filterGroups.Some? ==> body.filterGroups.value == ContactFilters(createdAfter, updatedAfter, epochMillis)
    ensures body.after == (if Given(after) then after else None)
  {
    var filters: seq<Filter> := [];
    if Given(createdAfter) {
      filters := filters + [Filter("createdate", "GTE", epochMillis(createdAfter.value))];
    }
    ghost var created := filters;
    if Given(updatedAfter) {
      filters := filters + [Filter("lastmodifieddate", "GTE", epochMillis(updatedAfter.value))];
    }
    assert filters == ContactFilters(createdAfter, updatedAfter, epochMillis) by {
      assert filters == created + (if Given(updatedAfter) then [Filter("lastmodifieddate", "GTE", epochMillis(updatedAfter.value))] else []);
    }
    body := SearchBody(None, Split(Properties, ','), limit, Some([Sort("createdate", "DESCENDING")]), None);
    if |filters| > 0 {
      body := body.(filterGroups := Some(filters));
    }
    if Given(after) {
      body := body.(after := after);
    }
  }

  // ------------------------------------------------------------ associations

  /** The outcome of one association lookup: the `toObjectId` of each result, or the failure. */
  datatype AssocOutcome =
    | Fetched(toObjectIds: Option<seq<JsValue>>)
    | FetchFailed(status: Option<int>, statusText: Option<string>, dataMessage: Option<string>, errorMessage: string)

  /** A recorded association failure. */
  datatype ApiError = ApiError(
    requestUrl: string, resourceId: JsValue, associationType: string, timestamp: string,
    status: Option<int>, statusText: Option<string>, message: string)

  /** What `getAssociations` resolves to: the associated ids, and the error when the lookup failed. */
  datatype Associations = Associations(data: seq<string>, error: Option<ApiError>)

  function AssociationUrl(base: string, contactId: JsValue, associationType: string): string {
    base + "/crm/v4/objects/contacts/" + ToJsString(contactId) + "/associations/" + associationType
  }

  /** `results.map(item => String(item.toObjectId))`, given the `toObjectId` values. */
  function IdStrings(ids: seq<JsValue>): (r: seq<string>)
    ensures |r| == |ids|
    ensures forall i :: 0 <= i < |ids| ==> r[i] == ToJsString(ids[i])
  {
    if ids == [] then [] else [ToJsString(ids[0])] + IdStrings(ids[1..])
  }

  /** `error.response?.data?.message || error.message || 'Unknown error'` */
  function FailureMessage(dataMessage: Option<string>, errorMessage: string): (m: string)
    ensures m != ""
    ensures dataMessage.Some? && dataMessage.value != "" ==> m == dataMessage.value
    ensures (dataMessage.None? || dataMessage.value == "") && errorMessage != "" ==> m == errorMessage
  {
    if dataMessage.Some? && dataMessage.value != "" then dataMessage.value
    else if errorMessage != "" then errorMessage
    else UnknownError
  }

  /**
    `getAssociations`: never throws. A failed lookup yields no ids and one error
    naming the URL, the contact and the association type; a successful one the
    stringified ids in order (none when `results` is absent).
  */
  function GetAssociations(base: string, contactId: JsValue, associationType: string,
                           outcome: AssocOutcome, timestamp: string): (r: Associations)
    ensures r.error.Some? <==> outcome.FetchFailed?
    ensures outcome.FetchFailed? ==>
              r.data == [] &&
              r.error.value.requestUrl == AssociationUrl(base, contactId, associationType) &&
              r.error.value.resourceId == contactId && r.error.value.associationType == associationType &&
              r.error.value.status == outcome.status && r.error.value.message != ""
    ensures outcome.FetchFailed? ==>
              r.error == Some(ApiError(AssociationUrl(base, contactId, associationType), contactId, associationType,
                                       timestamp, outcome.status, outcome.statusText,
                                       FailureMessage(outcome.dataMessage, outcome.errorMessage)))
    ensures outcome.Fetched? && outcome.toObjectIds.None? ==> r.data == []
    ensures outcome.Fetched? && outcome.toObjectIds.Some? ==>
              |r.data| == |outcome.toObjectIds.value| &&
              forall i :: 0 <= i < |r.data| ==> r.data[i] == ToJsString(outcome.toObjectIds.value[i])
  {
    match outcome
    case Fetched(ids) =>
      Associations(if ids.Some? then IdStrings(ids.value) else [], None)
    case FetchFailed(status, statusText, dataMessage, errorMessage) =>
      Associations([], Some(ApiError(AssociationUrl(base, contactId, associationType), contactId,
                                     associationType, timestamp, status, statusText,
                                     FailureMessage(dataMessage, errorMessage))))
  }

  // ------------------------------------------------------------ mapping

  datatype Contact = Contact(
    id: string, firstName: string, lastName: string, companyName: string,
    emails: seq<string>, phoneNumbers: seq<string>, dealIds: seq<string>, accountIds: seq<string>,
    createdAt: string, updatedAt: string)

  /**
    The fields of `mapToContact`: id and names through `safeString`, emails and
    phones through `safeArray`, the ids of the two lookups, and the dates
    through `toISODate`.
  */
  function ContactOf(record: JsValue, deals: Associations, companies: Associations,
                     isoOf: JsValue -> Option<string>): (c: Contact)
    requires !Nullish(record)
    ensures IsTrimmed(c.id) && IsTrimmed(c.firstName) && IsTrimmed(c.lastName) && IsTrimmed(c.companyName)
    ensures Get(record, "id").Undefined? ==> c.id == ""
    ensures c.id == SafeString(Get(record, "id"))
    ensures var props := PropertiesOf(record);
            c.firstName == SafeString(Get(props, "firstname")) && c.lastName == SafeString(Get(props, "lastname")) &&
            c.companyName == SafeString(Get(props, "company"))
    ensures c.dealIds == deals.data && c.accountIds == companies.data
    ensures c.emails == SafeArray(Get(PropertiesOf(record), "email"))
    ensures c.phoneNumbers == SafeArray(Get(PropertiesOf(record), "phone"))
    ensures c.createdAt == ToIsoDate(Get(PropertiesOf(record), "createdate"), isoOf)
    ensures c.updatedAt == ToIsoDate(Get(PropertiesOf(record), "lastmodifieddate"), isoOf)
  {
    var props := PropertiesOf(record);
    Contact(SafeString(Get(record, "id")), SafeString(Get(props, "firstname")), SafeString(Get(props, "lastname")),
            SafeString(Get(props, "company")), SafeArray(Get(props, "email")), SafeArray(Get(props, "phone")),
            deals.data, companies.data,
            ToIsoDate(Get(props, "createdate"), isoOf), ToIsoDate(Get(props, "lastmodifieddate"), isoOf))
  }

  /**
    A record without properties still maps: every string field is `''` and
    every list empty, apart from the id and the lookups' ids.
  */
  lemma BareRecordContact(record: JsValue, deals: Associations, companies: Associations,
                          isoOf: JsValue -> Option<string>)
    requires !Nullish(record) && !Truthy(Get(record, "properties"))
    ensures var c := ContactOf(record, deals, companies, isoOf);
            c.firstName == "" && c.lastName == "" && c.companyName == "" &&
            c.emails == [] && c.phoneNumbers == [] && c.createdAt == "" && c.updatedAt == ""
  {
  }

  /** The errors of one contact's two lookups: deals first, then companies. */
  function ErrorsOf(deals: Associations, companies: Associations): (errors: seq<ApiError>)
    ensures |errors| == (if deals.error.Some? then 1 else 0) + (if companies.error.Some? then 1 else 0)
    ensures deals.error.Some? ==> errors[0] == deals.error.value
    ensures companies.error.Some? ==> errors[|errors| - 1] == companies.error.value
    ensures errors == [] <==> deals.error.None? && companies.error.None?
  {
    (if deals.error.Some? then [deals.error.value] else []) +
    (if companies.error.Some? then [companies.error.value] else [])
  }

  /** The association lookups of one contact, on `base` with `bearer`: deals before companies. */
  function LookupsOf(base: string, record: JsValue, bearer: string): seq<Request>
    requires !Nullish(record)
  {
    [GetRequest(AssociationUrl(base, Get(record, "id"), DealsType), [], bearer),
     GetRequest(AssociationUrl(base, Get(record, "id"), CompaniesType), [], bearer)]
  }

  /** What mapping one record produces: the contact, its association errors and its requests. */
  datatype Mapped = Mapped(contact: Contact, errors: seq<ApiError>, requests: seq<Request>)

  /**
    One record through `mapToContact`; `None` for a record that is `null` or
    `undefined`, on which reading `.properties` throws before any lookup.
  */
  function MapRecord(base: string, record: JsValue, bearer: string, fetch: string -> AssocOutcome,
                     timestamp: string, isoOf: JsValue -> Option<string>): (m: Option<Mapped>)
    ensures m.None? <==> Nullish(record)
    ensures m.Some? ==> |m.value.errors| <= 2 && m.value.requests == LookupsOf(base, record, bearer)
    ensures m.Some? ==>
              var id := Get(record, "id");
              var deals := GetAssociations(base, id, DealsType, fetch(AssociationUrl(base, id, DealsType)), timestamp);
              var companies :=
                GetAssociations(base, id, CompaniesType, fetch(AssociationUrl(base, id, CompaniesType)), timestamp);
              m.value.contact == ContactOf(record, deals, companies, isoOf) && m.value.errors == ErrorsOf(deals, companies)
  {
    if Nullish(record) then None
    else
      var id := Get(record, "id");
      var deals := GetAssociations(base, id, DealsType, fetch(AssociationUrl(base, id, DealsType)), timestamp);
      var companies :=
        GetAssociations(base, id, CompaniesType, fetch(AssociationUrl(base, id, CompaniesType)), timestamp);
      Some(Mapped(ContactOf(record, deals, companies, isoOf), ErrorsOf(deals, companies),
                  LookupsOf(base, record, bearer)))
  }

  /**
    A lookup failure is reported, not thrown: when exactly one of the two
    lookups fails, the contact still maps and carries exactly one error, naming
    the contact and the association type that failed.
  */
  lemma OneFailedLookupOneError(base: string, record: JsValue, bearer: string, fetch: string -> AssocOutcome,
                                timestamp: string, isoOf: JsValue -> Option<string>)
    requires !Nullish(record)
    requires var id := Get(record, "id");
             fetch(AssociationUrl(base, id, DealsType)).FetchFailed? !=
             fetch(AssociationUrl(base, id, CompaniesType)).FetchFailed?
    ensures var m := MapRecord(base, record, bearer, fetch, timestamp, isoOf);
            var failed := if fetch(AssociationUrl(base, Get(record, "id"), DealsType)).FetchFailed?
                          then DealsType else CompaniesType;
            m.Some? && |m.value.errors| == 1 &&
            m.value.errors[0].resourceId == Get(record, "id") && m.value.errors[0].associationType == failed
  {
  }

  /**
    `mapToContact`: looks up deals, then companies, and pushes the errors of
    the failed lookups onto the shared `errors` list.
  */
  method MapToContact(base: string, record: JsValue, bearer: string, fetch: string -> AssocOutcome,
                      timestamp: string, isoOf: JsValue -> Option<string>, errors: seq<ApiError>)
    returns (contact: Contact, errorsAfter: seq<ApiError>, requests: seq<Request>)
    requires !Nullish(record)
    ensures var m := MapRecord(base, record, bearer, fetch, timestamp, isoOf).value;
            contact == m.contact && errorsAfter == errors + m.errors && requests == m.requests
    ensures errors <= errorsAfter && |errorsAfter| <= |errors| + 2
  {
    var id := Get(record, "id");
    var dealsUrl := AssociationUrl(base, id, DealsType);
    var companiesUrl := AssociationUrl(base, id, CompaniesType);
    var deals := GetAssociations(base, id, DealsType, fetch(dealsUrl), timestamp);
    var companies := GetAssociations(base, id, CompaniesType, fetch(companiesUrl), timestamp);
    requests := [GetRequest(dealsUrl, [], bearer), GetRequest(companiesUrl, [], bearer)];
    errorsAfter := errors;
    ghost var dealErrors := if deals.error.Some? then [deals.error.value] else [];
    ghost var companyErrors := if companies.error.Some? then [companies.error.value] else [];
    if deals.error.Some? {
      errorsAfter := errorsAfter + [deals.error.value];
    }
    assert errorsAfter == errors + dealErrors;
    if companies.error.Some? {
      errorsAfter := errorsAfter + [companies.error.value];
    }
    assert errorsAfter == (errors + dealErrors) + companyErrors;
    assert dealErrors + companyErrors == ErrorsOf(deals, companies);
    assert (errors + dealErrors) + companyErrors == errors + (dealErrors + companyErrors);
    contact := ContactOf(record, deals, companies, isoOf);
    assert errorsAfter == errors + ErrorsOf(deals, companies);
    assert requests == LookupsOf(base, record, bearer);
    assert MapRecord(base, record, bearer, fetch, timestamp, isoOf) ==
           Some(Mapped(contact, ErrorsOf(deals, companies), requests));
  }

  // ------------------------------------------------------------ the whole page

  /** Everything the records of one page produce, and whether one of them threw. */
  datatype Batch = Batch(contacts: seq<Contact>, errors: seq<ApiError>, requests: seq<Request>, failed: bool)

  /** The outcomes of mapping each record, collected one after the other. */
  function Combine(ms: seq<Option<Mapped>>): (b: Batch)
    ensures |b.contacts| <= |ms|
  {
    if ms == [] then Batch([], [], [], false)
    else
      var b := Combine(ms[..|ms| - 1]);
      match ms[|ms| - 1]
      case None => b.(failed := true)
      case Some(m) => Batch(b.contacts + [m.contact], b.errors + m.errors, b.requests + m.requests, b.failed)
  }

  /** Collecting one more outcome that threw marks the batch failed. */
  lemma CombineSnocNone(ms: seq<Option<Mapped>>, i: nat)
    requires i < |ms| && ms[i].None?
    ensures Combine(ms[..i + 1]) == Combine(ms[..i]).(failed := true)
  {
    assert ms[..i + 1][..i] == ms[..i];
  }

  /** Collecting one more mapped record appends its contact, errors and requests. */
  lemma CombineSnocSome(ms: seq<Option<Mapped>>, i: nat)
    requires i < |ms| && ms[i].Some?
    ensures var b := Combine(ms[..i]);
            Combine(ms[..i + 1]) ==
              Batch(b.contacts + [ms[i].value.contact], b.errors + ms[i].value.errors,
                    b.requests + ms[i].value.requests, b.failed)
  {
    assert ms[..i + 1][..i] == ms[..i];
  }

  /** The batch has failed exactly when some record threw. */
  lemma {:induction false} CombineFailsIffNone(ms: seq<Option<Mapped>>)
    ensures Combine(ms).failed <==> exists i :: 0 <= i < |ms| && ms[i].None?
  {
    if ms != [] {
      var init := ms[..|ms| - 1];
      CombineFailsIffNone(init);
      assert forall i :: 0 <= i < |init| ==> init[i] == ms[i];
      if ms[|ms| - 1].None? {
        assert exists i :: 0 <= i < |ms| && ms[i].None?;
      }
    }
  }

  /** When no record threw there is one contact per record, in the order of the records. */
  lemma {:induction false} CombineKeepsOrder(ms: seq<Option<Mapped>>)
    requires !Combine(ms).failed
    ensures |Combine(ms).contacts| == |ms|
    ensures forall i :: 0 <= i < |ms| ==> ms[i].Some? && Combine(ms).contacts[i] == ms[i].value.contact
  {
    if ms != [] {
      var init := ms[..|ms| - 1];
      CombineKeepsOrder(init);
      assert forall i :: 0 <= i < |init| ==> init[i] == ms[i];
    }
  }

  /** No error is collected exactly when no record that was mapped had a failed lookup. */
  lemma {:induction false} CombineErrorsEmptyIff(ms: seq<Option<Mapped>>)
    ensures Combine(ms).errors == [] <==> forall i :: 0 <= i < |ms| && ms[i].Some? ==> ms[i].value.errors == []
  {
    if ms != [] {
      var init := ms[..|ms| - 1];
      CombineErrorsEmptyIff(init);
      assert forall i :: 0 <= i < |init| ==> init[i] == ms[i];
    }
  }

  /** Each mapped record contributes at most two errors and exactly its two lookups. */
  lemma {:induction false} CombineBounds(ms: seq<Option<Mapped>>)
    requires forall i :: 0 <= i < |ms| && ms[i].Some? ==> |ms[i].value.errors| <= 2 && |ms[i].value.requests| == 2
    ensures |Combine(ms).errors| <= 2 * |ms| && |Combine(ms).requests| <= 2 * |ms|
  {
    if ms != [] {
      CombineBounds(ms[..|ms| - 1]);
    }
  }

  /** Every record of a page through `MapRecord`. */
  function MapRecords(base: string, records: seq<JsValue>, bearer: string, fetch: string -> AssocOutcome,
                      timestamp: string, isoOf: JsValue -> Option<string>): (ms: seq<Option<Mapped>>)
    ensures |ms| == |records|
    ensures forall i :: 0 <= i < |records| ==> ms[i] == MapRecord(base, records[i], bearer, fetch, timestamp, isoOf)
  {
    seq(|records|, i requires 0 <= i < |records| => MapRecord(base, records[i], bearer, fetch, timestamp, isoOf))
  }

  /**
    A page of records: it fails exactly when a record is nullish; otherwise it
    holds one contact per record, in order, and collects at most two errors per
    record.
  */
  lemma PageOfRecords(base: string, records: seq<JsValue>, bearer: string, fetch: string -> AssocOutcome,
                      timestamp: string, isoOf: JsValue -> Option<string>)
    ensures var b := Combine(MapRecords(base, records, bearer, fetch, timestamp, isoOf));
            (b.failed <==> exists i :: 0 <= i < |records| && Nullish(records[i])) &&
            |b.errors| <= 2 * |records| &&
            (!b.failed ==> |b.contacts| == |records| &&
                           forall i :: 0 <= i < |records| ==>
                             !Nullish(records[i]) &&
                             b.contacts[i] == MapRecord(base, records[i], bearer, fetch, timestamp, isoOf).value.contact)
  {
    var ms := MapRecords(base, records, bearer, fetch, timestamp, isoOf);
    CombineFailsIffNone(ms);
    CombineBounds(ms);
    if !Combine(ms).failed {
      CombineKeepsOrder(ms);
    }
  }

  /**
    `Promise.all(results.map(c => mapToContact(c, token, errors)))`, one record
    after the other, with the shared error list; `failed` when a record threw.
  */
  method MapPage(base: string, records: seq<JsValue>, bearer: string, fetch: string -> AssocOutcome,
                 timestamp: string, isoOf: JsValue -> Option<string>)
    returns (contacts: seq<Contact>, errors: seq<ApiError>, lookups: seq<Request>, failed: bool)
    ensures Batch(contacts, errors, lookups, failed) == Combine(MapRecords(base, records, bearer, fetch, timestamp, isoOf))
  {
    contacts, errors, lookups, failed := [], [], [], false;
    ghost var ms := MapRecords(base, records, bearer, fetch, timestamp, isoOf);
    var i := 0;
    while i < |records|
      invariant 0 <= i <= |records|
      invariant Combine(ms[..i]) == Batch(contacts, errors, lookups, failed)
    {
      if Nullish(records[i]) {
        CombineSnocNone(ms, i);
        failed := true;
      } else {
        var contact, errorsAfter, requests := MapToContact(base, records[i], bearer, fetch, timestamp, isoOf, errors);
        CombineSnocSome(ms, i);
        contacts := contacts + [contact];
        errors := errorsAfter;
        lookups := lookups + requests;
      }
      i := i + 1;
    }
    assert ms[..i] == ms;
  }

  /** The query of `findAll`; `limit` defaults to 10 when absent. */
  datatype ContactQuery = ContactQuery(
    limit: Option<int>, after: Option<string>, createdAfter: Option<string>, updatedAfter: Option<string>)

  /**
    The parts of a search response `findAll` reads: `results`, `total` and
    `paging.next.after`; or a body that is `null` or `undefined`, on which
    reading `.results` throws.
  */
  datatype SearchPage =
    | NullishBody
    | SearchPage(results: JsValue, total: Option<int>, nextAfter: JsValue)

  /** `response.results || []` when `.map` can run on it; `None` when reading or mapping it throws. */
  function RecordsOf(page: SearchPage): (records: Option<seq<JsValue>>)
    ensures page.NullishBody? ==> records.None?
    ensures page.SearchPage? ==> records == ListOrEmpty(page.results)
  {
    if page.NullishBody? then None else ListOrEmpty(page.results)
  }

  /** The page `findAll` returns; `errors` is present only when some lookup failed. */
  datatype ContactPage = ContactPage(
    data: seq<Contact>, total: int, limit: int, hasMore: bool, after: JsValue, errors: Option<seq<ApiError>>)

  /**
    `findAll`. A failure to obtain a token is caught by the method's own
    `catch`, which reads no status from it: 500 'Failed to fetch contacts'
    before any request. A failed search is rethrown with the upstream status or
    500. A nullish body, or `results` that is truthy but not a list, throws a
    TypeError before any lookup: 500. Otherwise each record is mapped; a nullish record makes the whole call
    fail with 500 (the other records' lookups are still sent). The metadata
    copies `total` (default 0), the limit, and the cursor, with `hasMore` true
    exactly when the cursor is truthy.
  */
  method FindAll(base: string, query: ContactQuery, token: Result<string, HttpError>,
                 search: Upstream<SearchPage>, fetch: string -> AssocOutcome, timestamp: string,
                 isoOf: JsValue -> Option<string>, epochMillis: string -> string)
    returns (r: Result<ContactPage, HttpError>, sent: seq<Request>)
    ensures token.Failure? ==> r == Failure(HttpError(InternalServerError, FetchContactsFailed)) && sent == []
    ensures token.Success? ==> |sent| >= 1 && sent[0].PostRequest? && sent[0].url == SearchUrl(base) &&
                               sent[0].bearer == token.value && sent[0].body.limit == query.limit.GetOr(DefaultLimit)
    ensures token.Success? && |sent| >= 1 && sent[0].PostRequest? ==>
              var body := sent[0].body;
              body.properties == Split(Properties, ',') &&
              body.sorts == Some([Sort("createdate", "DESCENDING")]) &&
              (body.filterGroups.Some? <==> Given(query.createdAfter) || Given(query.updatedAfter)) &&
              (body.filterGroups.Some? ==>
                 body.filterGroups.value == ContactFilters(query.createdAfter, query.updatedAfter, epochMillis)) &&
              body.after == (if Given(query.after) then query.after else None)
    ensures token.Success? && search.Err? ==> r == Failure(Rethrow(search.failure, FetchContactsFailed)) && |sent| == 1
    ensures token.Success? && search.Ok? && RecordsOf(search.data).None? ==>
              r == Failure(HttpError(InternalServerError, FetchContactsFailed)) && |sent| == 1
    ensures token.Success? && search.Ok? && RecordsOf(search.data).Some? ==>
              var records := RecordsOf(search.data).value;
              var b := Combine(MapRecords(base, records, token.value, fetch, timestamp, isoOf));
              sent == [sent[0]] + b.requests &&
              (b.failed ==> r == Failure(HttpError(InternalServerError, FetchContactsFailed))) &&
              (!b.failed ==>
                 r.Success? && r.value.data == b.contacts &&
                 r.value.total == search.data.total.GetOr(0) && r.value.limit == query.limit.GetOr(DefaultLimit) &&
                 r.value.after == search.data.nextAfter && (r.value.hasMore <==> Truthy(search.data.nextAfter)) &&
                 r.value.errors == (if b.errors == [] then None else Some(b.errors)))
  {
    if token.Failure? {
      return Failure(HttpError(InternalServerError, FetchContactsFailed)), [];
    }
    var bearer := token.value;
    var limit := query.limit.GetOr(DefaultLimit);
    var body := SearchBodyFor(limit, query.after, query.createdAfter, query.updatedAfter, epochMillis);
    sent := [PostRequest(SearchUrl(base), body, bearer)];
    if search.Err? {
      return Failure(Rethrow(search.failure, FetchContactsFailed)), sent;
    }
    var page := search.data;
    var read := RecordsOf(page);
    if read.None? {
      return Failure(HttpError(InternalServerError, FetchContactsFailed)), sent;
    }
    var records := read.value;
    var contacts, errors, lookups, failed := MapPage(base, records, bearer, fetch, timestamp, isoOf);
    sent := sent + lookups;
    if failed {
      return Failure(HttpError(InternalServerError, FetchContactsFailed)), sent;
    }
    var after := page.nextAfter;
    r := Success(ContactPage(contacts, page.total.GetOr(0), limit, Truthy(after), after,
                             if |errors| > 0 then Some(errors) else None));
  }

  function ContactUrl(base: string, cleanId: string): string {
    base + "/crm/v3/objects/contacts/" + cleanId
  }

  /** How `findOne`'s `catch` turns what it caught into the error it throws. */
  function FindOneError(cleanId: string, e: Caught): (err: HttpError)
    ensures StatusOf(e) == Some(NotFound) ==> err == HttpError(NotFound, "Contact " + cleanId + " not found")
    ensures StatusOf(e) != Some(NotFound) ==> err == Rethrow(e, FetchContactFailed)
  {
    if StatusOf(e) == Some(NotFound) then HttpError(NotFound, "Contact " + cleanId + " not found")
    else Rethrow(e, FetchContactFailed)
  }

  /**
    `findOne`. An ID without digits is a 400 before any token or request. A
    token failure is caught and read as an error without a response (500). The
    contact is read with the digits of the ID; a 404 becomes `Contact <id> not
    found`, other failures keep the upstream status or 500. A readable record is
    mapped with its association lookups, whose failures are only logged.
  */
  method FindOne(base: string, id: string, token: Result<string, HttpError>, response: Upstream<JsValue>,
                 fetch: string -> AssocOutcome, timestamp: string, isoOf: JsValue -> Option<string>)
    returns (r: Result<Contact, HttpError>, sent: seq<Request>)
    ensures CleanId(id) == "" ==> r == Failure(HttpError(BadRequest, InvalidIdMessage)) && sent == []
    ensures CleanId(id) != "" && token.Failure? ==> r == Failure(FindOneError(CleanId(id), WithoutResponse)) && sent == []
    ensures CleanId(id) != "" && token.Success? ==>
              |sent| >= 1 && sent[0] == GetRequest(ContactUrl(base, CleanId(id)), [("properties", Properties)], token.value)
    ensures CleanId(id) != "" && token.Success? && response.Err? ==>
              r == Failure(FindOneError(CleanId(id), response.failure)) && |sent| == 1
    ensures CleanId(id) != "" && token.Success? && response.Ok? && Nullish(response.data) ==>
              r == Failure(HttpError(InternalServerError, FetchContactFailed)) && |sent| == 1
    ensures CleanId(id) != "" && token.Success? && response.Ok? && !Nullish(response.data) ==>
              var m := MapRecord(base, response.data, token.value, fetch, timestamp, isoOf).value;
              r == Success(m.contact) && sent == [sent[0]] + m.requests
  {
    var cleanId := CleanId(id);
    if cleanId == "" {
      return Failure(HttpError(BadRequest, InvalidIdMessage)), [];
    }
    if token.Failure? {
      return Failure(FindOneError(cleanId, WithoutResponse)), [];
    }
    sent := [GetRequest(ContactUrl(base, cleanId), [("properties", Properties)], token.value)];
    if response.Err? {
      return Failure(FindOneError(cleanId, response.failure)), sent;
    }
    if Nullish(response.data) {
      return Failure(FindOneError(cleanId, WithoutResponse)), sent;
    }
    var contact, errors, requests := MapToContact(base, response.data, token.value, fetch, timestamp, isoOf, []);
    sent := sent + requests;
    r := Success(contact);
  }
}
