/**
  The Sage HR employee service: the position and compensation lookups that
  answer `null` instead of failing, the mapping of one raw employee record
  with its chains of fallbacks, the list endpoint and the single-employee
  endpoint with its ID validation and error mapping.

  The upstream API is a function from request path to response; formatting a
  date (`new Date(x).toISOString()`) is a function parameter too.
*/
module Employees {
  import opened Wrappers
  import opened Js
  import opened Http

  /** What one `axiosInstance.get(path)` gives: the response body, or an axios error. */
  datatype Response =
    | Fetched(body: JsValue)
    | AxiosFailure(status: Option<int>, message: string)

  /** The API as the service sees it: one response per request path. */
  type Api = string -> Response

  /** The query string the service adds to both employee endpoints. */
  const HistoryQuery: string := "team_history=true&employment_status_history=true&position_history=true"
  const DefaultPage: int := 1

  const IdRequiredMessage: string := "Employee ID is required"
  const InvalidIdMessage: string := "Invalid employee ID format"
  const FetchEmployeeFailed: string := "Failed to fetch employee"
  const FetchEmployeesFailed: string := "Failed to fetch employees"

  function PositionPath(positionId: JsValue): string {
    "/positions/" + ToJsString(positionId)
  }

  function CompensationsPath(empId: JsValue): string {
    "/employees/" + ToJsString(empId) + "/compensations"
  }

  /** The page request of `findAll(page = 1)`: an absent page is page 1. */
  function EmployeesPath(page: Option<int>): string {
    "/employees?page=" + IntToDecimal(page.GetOr(DefaultPage)) + "&" + HistoryQuery
  }

  function EmployeePath(id: string): string {
    "/employees/" + id + "?" + HistoryQuery
  }

  // ------------------------------------------------------------ fallback chains

  /** `r` is the first truthy candidate, or `fallback` when none is truthy. */
  predicate IsFirstTruthy(candidates: seq<JsValue>, fallback: JsValue, r: JsValue) {
    (exists k :: 0 <= k < |candidates| && Truthy(candidates[k]) && r == candidates[k] &&
                 forall j :: 0 <= j < k ==> !Truthy(candidates[j]))
    || (r == fallback && forall k :: 0 <= k < |candidates| ==> !Truthy(candidates[k]))
  }

  /** `c0 || c1 || ... || fallback` */
  function FirstTruthy(candidates: seq<JsValue>, fallback: JsValue): (r: JsValue)
    ensures IsFirstTruthy(candidates, fallback, r)
  {
    if candidates == [] then fallback
    else
      var rest := FirstTruthy(candidates[1..], fallback);
      if Truthy(candidates[0]) then candidates[0]
      else
        assert forall j :: 1 <= j < |candidates| ==> candidates[j] == candidates[1..][j - 1];
        if forall k :: 0 <= k < |candidates[1..]| ==> !Truthy(candidates[1..][k]) then
          rest
        else
          var k :| 0 <= k < |candidates[1..]| && Truthy(candidates[1..][k]) && rest == candidates[1..][k] &&
                   forall j :: 0 <= j < k ==> !Truthy(candidates[1..][j]);
          assert Truthy(candidates[k + 1]) && forall j :: 0 <= j < k + 1 ==> !Truthy(candidates[j]);
          rest
  }

  /** `value?.toString() || null` */
  function StringOrNull(v: JsValue): (r: Option<string>)
    ensures Nullish(v) ==> r.None?
    ensures r.Some? <==> !Nullish(v) && ToJsString(v) != ""
    ensures r.Some? ==> r.value == ToJsString(v)
  {
    if Nullish(v) || ToJsString(v) == "" then None else Some(ToJsString(v))
  }

  /** `formatDate`: `null` for a falsy date, otherwise the ISO form (`None` when it does not parse). */
  function FormatDate(date: JsValue, isoOf: JsValue -> Option<string>): (r: Option<string>)
    ensures !Truthy(date) ==> r.None?
    ensures Truthy(date) ==> r == isoOf(date)
  {
    if !Truthy(date) then None else isoOf(date)
  }

  /** `response.data.data`, or `None` where reading it throws (a nullish body). */
  function Payload(body: JsValue): Option<JsValue> {
    if Nullish(body) then None else Some(Get(body, "data"))
  }

  /** `value?.[0]` on a value that is not nullish. */
  function First(v: JsValue): JsValue
    requires !Nullish(v)
  {
    match v
    case Arr(items) => if items == [] then Undefined else items[0]
    case Obj(_) => Get(v, "0")
    case Str(s) => if s == "" then Undefined else Str([s[0]])
    case _ => Undefined
  }

  // ------------------------------------------------------------ lookups

  datatype JobDetails = JobDetails(title: JsValue, description: JsValue)
  datatype EmploymentDetails = EmploymentDetails(effectiveDate: JsValue, salary: JsValue, employmentType: JsValue)

  /** A lookup's answer and the paths it requested. */
  datatype Lookup<T> = Lookup(found: Option<T>, requested: seq<string>)

  /**
    `fetchJobDetails`: nothing is requested for a falsy position id; any
    failure, an unreadable body and a falsy position all give `null`.
  */
  function FetchJobDetails(positionId: JsValue, api: Api): (r: Lookup<JobDetails>)
    ensures !Truthy(positionId) ==> r == Lookup(None, [])
    ensures Truthy(positionId) ==> r.requested == [PositionPath(positionId)]
    ensures Truthy(positionId) && api(PositionPath(positionId)).AxiosFailure? ==> r.found.None?
    ensures r.found.Some? <==>
              Truthy(positionId) && api(PositionPath(positionId)).Fetched? &&
              var p := Payload(api(PositionPath(positionId)).body); p.Some? && Truthy(p.value)
    ensures r.found.Some? ==>
              var p := Payload(api(PositionPath(positionId)).body).value;
              r.found.value == JobDetails(Or(Get(p, "name"), Get(p, "title")), Or(Get(p, "description"), Null))
  {
    if !Truthy(positionId) then Lookup(None, [])
    else
      var path := PositionPath(positionId);
      var response := api(path);
      if response.AxiosFailure? then Lookup(None, [path])
      else
        match Payload(response.body)
        case None => Lookup(None, [path])
        case Some(position) =>
          if Truthy(position) then
            Lookup(Some(JobDetails(Or(Get(position, "name"), Get(position, "title")),
                                   Or(Get(position, "description"), Null))), [path])
          else Lookup(None, [path])
  }

  /** The first compensation record of a compensations body, `undefined` when there is none. */
  function Compensation(body: JsValue): JsValue {
    match Payload(body)
    case None => Undefined
    case Some(list) => if Nullish(list) then Undefined else First(list)
  }

  /**
    `fetchEmploymentDetails`: nothing is requested for a falsy employee id; any
    failure and a missing first compensation give `null`.
  */
  function FetchEmploymentDetails(empId: JsValue, api: Api): (r: Lookup<EmploymentDetails>)
    ensures !Truthy(empId) ==> r == Lookup(None, [])
    ensures Truthy(empId) ==> r.requested == [CompensationsPath(empId)]
    ensures Truthy(empId) && api(CompensationsPath(empId)).AxiosFailure? ==> r.found.None?
    ensures r.found.Some? <==>
              Truthy(empId) && api(CompensationsPath(empId)).Fetched? &&
              Truthy(Compensation(api(CompensationsPath(empId)).body))
    ensures r.found.Some? ==>
              var c := Compensation(api(CompensationsPath(empId)).body);
              r.found.value == EmploymentDetails(Get(c, "effective_date"), Or(Get(c, "amount"), Get(c, "salary")),
                                                 Or(Get(c, "type"), Null))
  {
    if !Truthy(empId) then Lookup(None, [])
    else
      var path := CompensationsPath(empId);
      var response := api(path);
      if response.AxiosFailure? then Lookup(None, [path])
      else
        var c := Compensation(response.body);
        if Truthy(c) then
          Lookup(Some(EmploymentDetails(Get(c, "effective_date"), Or(Get(c, "amount"), Get(c, "salary")),
                                        Or(Get(c, "type"), Null))), [path])
        else Lookup(None, [path])
  }

  // ------------------------------------------------------------ mapping

  datatype Job = Job(title: JsValue, description: JsValue, id: Option<string>)
  datatype Employment = Employment(effectiveDate: Option<string>, salary: Option<string>, employmentType: JsValue)

  /** The normalised employee (tenure and the upcoming birthday are not modelled). */
  datatype Employee = Employee(
    id: string, firstName: JsValue, lastName: JsValue, fullName: string, displayName: JsValue,
    avatarUrl: JsValue, dateOfBirth: Option<string>, email: JsValue, phoneNumber: JsValue,
    hireDate: Option<string>, startDate: Option<string>, terminationDate: Option<string>,
    job: Job, employment: Employment)

  /** The employee and the lookups made for it, position first. */
  datatype Mapped = Mapped(employee: Employee, requested: seq<string>)

  /** A name part inside the `Full_name` template: `${part || ''}`. */
  function NamePart(v: JsValue): (s: string)
    ensures !Truthy(v) ==> s == ""
    ensures v.Str? ==> s == v.s
  {
    ToJsString(Or(v, Str("")))
  }

  /** `` `${first || ''} ${last || ''}`.trim() `` */
  function FullName(first: JsValue, last: JsValue): (s: string)
    ensures IsTrimmed(s) && |s| <= |NamePart(first)| + 1 + |NamePart(last)|
  {
    Trim(NamePart(first) + " " + NamePart(last))
  }

  /** `jobDetails?.title` */
  function TitleOf(job: Option<JobDetails>): JsValue {
    if job.Some? then job.value.title else Undefined
  }

  /** `jobDetails?.description` */
  function DescriptionOf(job: Option<JobDetails>): JsValue {
    if job.Some? then job.value.description else Undefined
  }

  /** `empDetails?.effective_date` */
  function EffectiveDateOf(details: Option<EmploymentDetails>): JsValue {
    if details.Some? then details.value.effectiveDate else Undefined
  }

  /** `empDetails?.salary` */
  function SalaryOf(details: Option<EmploymentDetails>): JsValue {
    if details.Some? then details.value.salary else Undefined
  }

  /** `empDetails?.employment_type` */
  function EmploymentTypeOf(details: Option<EmploymentDetails>): JsValue {
    if details.Some? then details.value.employmentType else Undefined
  }

  /**
    `mapEmployee` on a record that is not nullish (reading a field of a
    nullish one throws, which the callers turn into their generic error). The
    position is looked up first, then the compensations.
  */
  function MapEmployee(raw: JsValue, api: Api, isoOf: JsValue -> Option<string>): (m: Mapped)
    requires !Nullish(raw)
    ensures m.requested == FetchJobDetails(Get(raw, "position_id"), api).requested +
                           FetchEmploymentDetails(Get(raw, "id"), api).requested
    ensures var e := m.employee;
            var job := FetchJobDetails(Get(raw, "position_id"), api).found;
            var details := FetchEmploymentDetails(Get(raw, "id"), api).found;
            && e.id == (if Nullish(Get(raw, "id")) then "" else ToJsString(Get(raw, "id")))
            && e.firstName == Or(Get(raw, "first_name"), Str("")) && e.displayName == e.firstName
            && e.lastName == Or(Get(raw, "last_name"), Str(""))
            && e.fullName == FullName(Get(raw, "first_name"), Get(raw, "last_name"))
            && e.email == Or(Get(raw, "email"), Str(""))
            && IsFirstTruthy([Get(raw, "picture_url")], Null, e.avatarUrl)
            && IsFirstTruthy([Get(raw, "work_phone"), Get(raw, "mobile_phone"), Get(raw, "home_phone")],
                             Null, e.phoneNumber)
            && e.dateOfBirth == FormatDate(Get(raw, "date_of_birth"), isoOf)
            && e.hireDate == FormatDate(Get(raw, "employment_start_date"), isoOf) && e.startDate == e.hireDate
            && e.terminationDate == FormatDate(Get(raw, "termination_date"), isoOf)
            && IsFirstTruthy([TitleOf(job), Get(raw, "position")], Null, e.job.title)
            && IsFirstTruthy([DescriptionOf(job)], Null, e.job.description)
            && e.job.id == StringOrNull(Get(raw, "position_id"))
            && e.employment.effectiveDate ==
                 FormatDate(FirstTruthy([EffectiveDateOf(details)], Get(raw, "employment_start_date")), isoOf)
            && e.employment.salary == StringOrNull(SalaryOf(details))
            && IsFirstTruthy([EmploymentTypeOf(details), Get(raw, "employment_status")], Null,
                             e.employment.employmentType)
  {
    var jobLookup := FetchJobDetails(Get(raw, "position_id"), api);
    var detailsLookup := FetchEmploymentDetails(Get(raw, "id"), api);
    var job := jobLookup.found;
    var details := detailsLookup.found;
    var employee := Employee(
      id := if Nullish(Get(raw, "id")) then "" else ToJsString(Get(raw, "id")),
      firstName := Or(Get(raw, "first_name"), Str("")),
      lastName := Or(Get(raw, "last_name"), Str("")),
      fullName := FullName(Get(raw, "first_name"), Get(raw, "last_name")),
      displayName := Or(Get(raw, "first_name"), Str("")),
      avatarUrl := FirstTruthy([Get(raw, "picture_url")], Null),
      dateOfBirth := FormatDate(Get(raw, "date_of_birth"), isoOf),
      email := Or(Get(raw, "email"), Str("")),
      phoneNumber := FirstTruthy([Get(raw, "work_phone"), Get(raw, "mobile_phone"), Get(raw, "home_phone")], Null),
      hireDate := FormatDate(Get(raw, "employment_start_date"), isoOf),
      startDate := FormatDate(Get(raw, "employment_start_date"), isoOf),
      terminationDate := FormatDate(Get(raw, "termination_date"), isoOf),
      job := Job(FirstTruthy([TitleOf(job), Get(raw, "position")], Null),
                 FirstTruthy([DescriptionOf(job)], Null),
                 StringOrNull(Get(raw, "position_id"))),
      employment := Employment(
        FormatDate(FirstTruthy([EffectiveDateOf(details)], Get(raw, "employment_start_date")), isoOf),
        StringOrNull(SalaryOf(details)),
        FirstTruthy([EmploymentTypeOf(details), Get(raw, "employment_status")], Null)));
    Mapped(employee, jobLookup.requested + detailsLookup.requested)
  }

  // ------------------------------------------------------------ the full name

  /** With neither name part present the full name is empty. */
  lemma FullNameOfNothing(first: JsValue, last: JsValue)
    requires !Truthy(first) && !Truthy(last)
    ensures FullName(first, last) == ""
  {
    var s := NamePart(first) + " " + NamePart(last);
    assert s == " ";
    assert TrimStart(s) == "" by {
      assert IsWhitespace(s[0]);
    }
  }

  /** Two trimmed, non-empty names are joined by one space. */
  lemma FullNameOfBoth(f: string, l: string)
    requires f != "" && l != "" && IsTrimmed(f) && IsTrimmed(l)
    ensures FullName(Str(f), Str(l)) == f + " " + l
  {
    var s := f + " " + l;
    assert s[0] == f[0] && s[|s| - 1] == l[|l| - 1];
    TrimFixesTrimmed(s);
  }

  /** A trimmed first name alone is the full name: the space is trimmed away. */
  lemma FullNameOfFirst(f: string, last: JsValue)
    requires f != "" && IsTrimmed(f) && !Truthy(last)
    ensures FullName(Str(f), last) == f
  {
    assert NamePart(Str(f)) + " " + NamePart(last) == f + " ";
    TrailingSpaceTrimmed(f);
  }

  lemma TrailingSpaceTrimmed(f: string)
    requires f != "" && IsTrimmed(f)
    ensures Trim(f + " ") == f
  {
    var s := f + " ";
    assert s[0] == f[0];
    assert TrimStart(s) == s;
    assert s[|s| - 1] == ' ' && s[..|s| - 1] == f;
    assert TrimEnd(s) == TrimEnd(f);
    assert TrimEnd(f) == f;
  }

  /** A trimmed last name alone is the full name. */
  lemma FullNameOfLast(first: JsValue, l: string)
    requires l != "" && IsTrimmed(l) && !Truthy(first)
    ensures FullName(first, Str(l)) == l
  {
    var s := NamePart(first) + " " + l;
    assert s == " " + l;
    assert s[1..] == l;
    assert TrimStart(s) == TrimStart(l);
    TrimFixesTrimmed(l);
  }

  // ------------------------------------------------------------ the endpoints

  /** `new HttpException(`${prefix}: ${axiosError.message}`, status || 500)` */
  function AxiosError(status: Option<int>, message: string, prefix: string): (e: HttpError)
    ensures status.Some? && status.value != 0 ==> e.status == status.value
    ensures status.None? || status == Some(0) ==> e.status == InternalServerError
    ensures e.message == prefix + ": " + message
  {
    HttpError(if status.Some? && status.value != 0 then status.value else InternalServerError,
              prefix + ": " + message)
  }

  /** Every record of a list mapped, in order, or `None` when one of them is nullish. */
  datatype Batch = Batch(employees: Option<seq<Employee>>, requested: seq<string>)

  function MapEach(items: seq<JsValue>, mapOne: JsValue --> Mapped): (b: Batch)
    requires forall x :: !Nullish(x) ==> mapOne.requires(x)
    ensures b.employees.Some? <==> forall i :: 0 <= i < |items| ==> !Nullish(items[i])
    ensures b.employees.Some? ==>
              |b.employees.value| == |items| &&
              forall i :: 0 <= i < |items| ==> b.employees.value[i] == mapOne(items[i]).employee
  {
    if items == [] then Batch(Some([]), [])
    else
      var rest := MapEach(items[1..], mapOne);
      if Nullish(items[0]) then Batch(None, rest.requested)
      else
        var m := mapOne(items[0]);
        assert forall i :: 1 <= i < |items| ==> items[i] == items[1..][i - 1];
        Batch(if rest.employees.Some? then Some([m.employee] + rest.employees.value) else None,
              m.requested + rest.requested)
  }

  /**
    The lookups a page of records sends: those of every record that is not
    nullish, record by record, in the upstream order.
  */
  function EmployeeLookups(items: seq<JsValue>, api: Api, isoOf: JsValue -> Option<string>): seq<string> {
    if items == [] then []
    else if Nullish(items[0]) then EmployeeLookups(items[1..], api, isoOf)
    else MapEmployee(items[0], api, isoOf).requested + EmployeeLookups(items[1..], api, isoOf)
  }

  /** Mapping a page with `mapEmployee` sends exactly `EmployeeLookups`, whether or not some record fails. */
  lemma {:induction false} MapEachLookups(items: seq<JsValue>, mapOne: JsValue --> Mapped, api: Api,
                                          isoOf: JsValue -> Option<string>)
    requires forall x :: !Nullish(x) ==> mapOne.requires(x) && mapOne(x) == MapEmployee(x, api, isoOf)
    ensures MapEach(items, mapOne).requested == EmployeeLookups(items, api, isoOf)
  {
    if items != [] {
      MapEachLookups(items[1..], mapOne, api, isoOf);
    }
  }

  datatype EmployeePage = EmployeePage(data: seq<Employee>, meta: JsValue)

  /**
    A list of records: a generic 500 when some record is nullish, otherwise
    every record mapped, in order, with `meta` passed through. The lookups of
    the non-nullish records are sent either way.
  */
  function PageOfList(items: seq<JsValue>, meta: JsValue, api: Api, isoOf: JsValue -> Option<string>)
    : (r: (Result<EmployeePage, HttpError>, seq<string>))
    ensures r.0.Success? <==> forall i :: 0 <= i < |items| ==> !Nullish(items[i])
    ensures r.0.Failure? ==> r.0.error == HttpError(InternalServerError, FetchEmployeesFailed)
    ensures r.1 == EmployeeLookups(items, api, isoOf)
    ensures r.0.Success? ==>
              r.0.value.meta == meta && |r.0.value.data| == |items| &&
              forall i :: 0 <= i < |items| ==> r.0.value.data[i] == MapEmployee(items[i], api, isoOf).employee
  {
    var mapOne := (raw: JsValue) requires !Nullish(raw) => MapEmployee(raw, api, isoOf);
    var b := MapEach(items, mapOne);
    MapEachLookups(items, mapOne, api, isoOf);
    if b.employees.None? then (Failure(HttpError(InternalServerError, FetchEmployeesFailed)), b.requested)
    else (Success(EmployeePage(b.employees.value, meta)), b.requested)
  }

  /**
    `findAll(page)`: one request for the page; an axios failure keeps its
    status (or 500) and message; a body that is not a list of records is a
    generic 500; otherwise every record is mapped, in the upstream order, and
    `meta` is passed through.
  */
  function FindAll(page: Option<int>, api: Api, isoOf: JsValue -> Option<string>): (r: (Result<EmployeePage, HttpError>, seq<string>))
    ensures |r.1| >= 1 && r.1[0] == EmployeesPath(page)
    ensures api(EmployeesPath(page)).AxiosFailure? ==>
              var f := api(EmployeesPath(page));
              r == (Failure(AxiosError(f.status, f.message, FetchEmployeesFailed)), [EmployeesPath(page)])
    ensures api(EmployeesPath(page)).Fetched? ==>
              var p := Payload(api(EmployeesPath(page)).body);
              (r.0.Success? <==> p.Some? && p.value.Arr? && forall i :: 0 <= i < |p.value.items| ==> !Nullish(p.value.items[i]))
    ensures r.0.Failure? && api(EmployeesPath(page)).Fetched? ==> r.0.error == HttpError(InternalServerError, FetchEmployeesFailed)
    ensures api(EmployeesPath(page)).Fetched? ==>
              var p := Payload(api(EmployeesPath(page)).body);
              r.1 == [EmployeesPath(page)] + (if p.Some? && p.value.Arr? then EmployeeLookups(p.value.items, api, isoOf) else [])
    ensures r.0.Success? ==>
              var body := api(EmployeesPath(page)).body;
              var items := Get(body, "data").items;
              r.0.value.meta == Get(body, "meta") && |r.0.value.data| == |items| &&
              forall i :: 0 <= i < |items| ==> r.0.value.data[i] == MapEmployee(items[i], api, isoOf).employee
  {
    var path := EmployeesPath(page);
    match api(path)
    case AxiosFailure(status, message) => (Failure(AxiosError(status, message, FetchEmployeesFailed)), [path])
    case Fetched(body) =>
      var generic := Failure(HttpError(InternalServerError, FetchEmployeesFailed));
      match Payload(body)
      case None => (generic, [path])
      case Some(list) =>
        if !list.Arr? then (generic, [path])
        else
          var r := PageOfList(list.items, Get(body, "meta"), api, isoOf);
          (r.0, [path] + r.1)
  }

  /**
    `findOne(id)`: a blank id and an id whose `parseInt` is NaN or not positive
    are refused with 400 before any request; the employee is then requested
    with the id as given. A 404 names the id, other axios failures keep their
    status (or 500) and message, and an unreadable record is a generic 500.
  */
  function FindOne(id: string, api: Api, isoOf: JsValue -> Option<string>): (r: (Result<Employee, HttpError>, seq<string>))
    ensures Trim(id) == "" ==> r == (Failure(HttpError(BadRequest, IdRequiredMessage)), [])
    ensures Trim(id) != "" && (ParseInt(id).None? || ParseInt(id).value <= 0) ==>
              r == (Failure(HttpError(BadRequest, InvalidIdMessage)), [])
    ensures r.1 != [] <==> Trim(id) != "" && ParseInt(id).Some? && ParseInt(id).value > 0
    ensures r.1 != [] ==> r.1[0] == EmployeePath(id)
    ensures r.1 != [] && api(EmployeePath(id)).AxiosFailure? && api(EmployeePath(id)).status == Some(NotFound) ==>
              r.0 == Failure(HttpError(NotFound, "Employee with ID " + id + " not found")) && r.1 == [EmployeePath(id)]
    ensures r.1 != [] && api(EmployeePath(id)).AxiosFailure? && api(EmployeePath(id)).status != Some(NotFound) ==>
              var f := api(EmployeePath(id));
              r.0 == Failure(AxiosError(f.status, f.message, FetchEmployeeFailed)) && r.1 == [EmployeePath(id)]
    ensures r.1 != [] && api(EmployeePath(id)).Fetched? ==>
              var p := Payload(api(EmployeePath(id)).body);
              if p.None? || Nullish(p.value) then
                r.0 == Failure(HttpError(InternalServerError, FetchEmployeeFailed)) && r.1 == [EmployeePath(id)]
              else
                var m := MapEmployee(p.value, api, isoOf);
                r.0 == Success(m.employee) && r.1 == [EmployeePath(id)] + m.requested
  {
    if Trim(id) == "" then (Failure(HttpError(BadRequest, IdRequiredMessage)), [])
    else
      var numericId := ParseInt(id);
      if numericId.None? || numericId.value <= 0 then (Failure(HttpError(BadRequest, InvalidIdMessage)), [])
      else
        var path := EmployeePath(id);
        match api(path)
        case AxiosFailure(status, message) =>
          if status == Some(NotFound) then (Failure(HttpError(NotFound, "Employee with ID " + id + " not found")), [path])
          else (Failure(AxiosError(status, message, FetchEmployeeFailed)), [path])
        case Fetched(body) =>
          match Payload(body)
          case None => (Failure(HttpError(InternalServerError, FetchEmployeeFailed)), [path])
          case Some(raw) =>
            if Nullish(raw) then (Failure(HttpError(InternalServerError, FetchEmployeeFailed)), [path])
            else
              var m := MapEmployee(raw, api, isoOf);
              (Success(m.employee), [path] + m.requested)
  }

  /** A string whose first character is not whitespace does not trim to nothing. */
  lemma TrimNonEmpty(s: string)
    requires s != "" && !IsWhitespace(s[0])
    ensures Trim(s) != ""
  {
    TrimEmptyIff(s);
  }

  /** The numeric checks of `findOne` on an id that starts with a positive number. */
  lemma DigitPrefixedIdParses(n: nat, rest: string)
    requires n > 0 && (rest == "" || !IsDigit(rest[0]))
    ensures Trim(NatToDecimal(n) + rest) != "" && ParseInt(NatToDecimal(n) + rest) == Some(n)
  {
    assert IntToDecimal(n) == NatToDecimal(n);
    ParseIntOfDecimal(n, rest);
    DigitPrefixedIdIsNotBlank(n, rest);
  }

  /** An id that starts with a digit is not blank. */
  lemma DigitPrefixedIdIsNotBlank(n: nat, rest: string)
    ensures Trim(NatToDecimal(n) + rest) != ""
  {
    var id := NatToDecimal(n) + rest;
    var c := NatToDecimal(n)[0];
    assert id[0] == c && IsDigit(c);
    assert !IsWhitespace(c);
    TrimNonEmpty(id);
  }

  /**
    `parseInt` reads only a leading run of digits, so an id that starts with a
    positive number passes validation whatever follows, and the id is
    requested as given, suffix included.
  */
  lemma DigitPrefixedIdIsRequested(n: nat, rest: string, api: Api, isoOf: JsValue -> Option<string>)
    requires n > 0 && (rest == "" || !IsDigit(rest[0]))
    ensures var r := FindOne(NatToDecimal(n) + rest, api, isoOf);
            r.1 != [] && r.1[0] == EmployeePath(NatToDecimal(n) + rest)
  {
    DigitPrefixedIdParses(n, rest);
  }

  /** An id with no leading number is refused whatever follows it, e.g. `'abc12'`. */
  lemma NonNumericIdIsRefused(c: char, rest: string, api: Api, isoOf: JsValue -> Option<string>)
    requires !IsDigit(c) && !IsWhitespace(c) && c != '-' && c != '+'
    ensures FindOne([c] + rest, api, isoOf) == (Failure(HttpError(BadRequest, InvalidIdMessage)), [])
  {
    var id := [c] + rest;
    assert TrimStart(id) == id;
    assert DigitPrefix(id) == "";
    TrimNonEmpty(id);
  }
}
