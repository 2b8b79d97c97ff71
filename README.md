# A verified model of the proxy, matcher and mapper services

This project is a Dafny model of the business logic of four small NestJS
back ends, with proofs of what that logic promises:

- **HubSpot proxy.**
  - An in-memory OAuth token store, with a 300-second safety buffer before expiry.
  - An OAuth 2.0 client on top of it: the authorization-code grant of section 4.1.3 of RFC 6749, the refresh-token grant of section 6 of RFC 6749, and a policy of refreshing at most once and clearing the store when the refresh fails.
  - The value normalisers `safeString`, `safeArray` and `toISODate`.
  - The contacts service: ID sanitising, building the search request, mapping each contact with its deal and company association lookups, and collecting lookup failures.
  - The accounts service: choosing the filter, the endpoint and the offset, mapping each company, and the page metadata.
- **SkillSync.**
  - The project service's guards.
  - The parsing of its skill filter.
  - The developer recommender: scoring, dropping zero scores, a stable descending sort, and slicing one page.
  - The paginated-response DTO.
- **Sage HR.** The employee mapper with its chains of fallbacks, the position and compensation lookups that answer `null` instead of failing, and the validation of employee IDs.
- **Day 3.** A first-match user lookup over a fixed list.

## How the model is built

- **JavaScript values.** Loosely typed JSON values are the datatype `Js.JsValue`. The module `Js` also defines JavaScript truthiness, `String(v)`, `trim`, `split`, `parseInt` and ASCII lower-casing.
- **Upstream calls.** Every HTTP call becomes an input value: success with a body, or the error that was thrown. The services return the requests they send, so the contracts can say which calls happen and in what order.
- **The clock.** `Date.now()` is a parameter `now`.
- **Date formatting.** `new Date(x).toISOString()` is a function parameter `isoOf`.
- **Stateful code.** The token store is a class whose methods update its three fields, and `AuthService` is a class that drives a shared store. Each method is proved equal to a function on the store's state. The contracts and lemmas are stated about those functions.
- **Loops.**
  - Building the contact search request is a method that pushes onto a list.
  - Building the accounts request mutates its query parameters.
  - The skill conditions are added one per loop iteration.
  - Mapping a page of contacts is a loop.

  Each of these methods is proved equal to its specification.
- **Pure code.** The rest of the source is pure and is modelled as functions and lemmas.

Three behaviours of the code worth knowing:

- **Contacts `findAll` without a token.** When no access token can be obtained, `findAll` answers 500 'Failed to fetch contacts', not 401. Its `catch` reads `error.response?.status` from an `HttpException`, whose `response` is a plain string, so no status is found.
- **Failed refresh.** The refresh failure message is always the fixed 'Token refresh failed. Please re-authenticate at /auth/login'. It never carries the upstream message.
- **Failed code exchange.** A failed code exchange is always a 400, whatever the upstream status was. Only its message comes from upstream.

## Model

| member | source | states |
|---|---|---|
| TokenStorage.Empty | Hubspot/hubspot/src/auth/token.storage.ts:6-8 | the initial and cleared state is not authenticated, counts as expired at every instant and hands out `''` |
| TokenStorage.Stored | Hubspot/hubspot/src/auth/token.storage.ts:13-18 | after `setTokens` at `now`, the access token is served exactly while `t < now + (expiresIn - 300) * 1000`, and `''` afterwards; a lifetime of 300 s or less is expired at once; authentication is exactly "refresh token non-empty" |
| TokenStorage.TokenStorageService.constructor | Hubspot/hubspot/src/auth/token.storage.ts:6-8 | a new store is in the empty state |
| TokenStorage.TokenStorageService.SetTokens | Hubspot/hubspot/src/auth/token.storage.ts:13-18 | all three fields are overwritten with the `Stored` state, whatever they held |
| TokenStorage.TokenStorageService.GetAccessToken | Hubspot/hubspot/src/auth/token.storage.ts:23-26 | returns the stored token when not expired, otherwise `''`; a non-empty answer is the stored token before its expiry; changes nothing |
| TokenStorage.TokenStorageService.GetRefreshToken | Hubspot/hubspot/src/auth/token.storage.ts:31-33 | returns the stored refresh token; changes nothing |
| TokenStorage.TokenStorageService.IsExpired | Hubspot/hubspot/src/auth/token.storage.ts:38-41 | expired exactly when no expiry is recorded or `now >= expiresAt`; changes nothing |
| TokenStorage.TokenStorageService.IsAuthenticated | Hubspot/hubspot/src/auth/token.storage.ts:46-48 | true exactly when the refresh token is non-empty, whatever the expiry |
| TokenStorage.TokenStorageService.Clear | Hubspot/hubspot/src/auth/token.storage.ts:53-57 | the store returns to `''`, `''`, `0` |
| TokenStorage.FreshStoreIsEmpty | Hubspot/hubspot/src/auth/token.storage.ts:6-8 | a store never written hands out `''` and is not authenticated |
| TokenStorage.LastWriteWins | Hubspot/hubspot/src/auth/token.storage.ts:13-18 | after two writes only the second one determines the token and the authentication; after `clear` the store is not authenticated |
| Auth.LoadConfig | Hubspot/hubspot/src/auth/auth.service.ts:19-28 | settings default to `''`; the service is created exactly when all five are non-empty, otherwise it fails with 'OAuth credentials missing in .env file' |
| Auth.AuthorizationUrl | Hubspot/hubspot/src/auth/auth.service.ts:33-43 | the URL is the authorization endpoint, `?`, then the encoded `client_id`, `redirect_uri` and `scope` |
| Auth.Exchange | Hubspot/hubspot/src/auth/auth.service.ts:48-79 | a missing or blank code is a 400 with no request and no change; otherwise exactly one POST carries the trimmed code; success stores the returned pair and lifetime and returns the payload; failure is always 400, leaves the store unchanged, and takes its message from upstream or falls back to 'Failed to exchange code' |
| Auth.Refresh | Hubspot/hubspot/src/auth/auth.service.ts:84-121 | without a refresh token it is a 401 with no request; otherwise exactly one POST carries the stored refresh token; success stores the new pair, including the rotated refresh token, and returns the new access token; failure clears the store and is a fixed 401 |
| Auth.ValidAccessToken | Hubspot/hubspot/src/auth/auth.service.ts:126-143 | a cached unexpired token is returned with no request and no change; otherwise exactly one refresh, whose token is returned, whose failure is passed on, and whose empty token becomes 401 'Not authenticated. Please login at /auth/login'; at most one POST in all; never returns `''`; every failure is a 401 |
| Auth.ExchangedTokenIsServedUntilExpiry | Hubspot/hubspot/src/auth/auth.service.ts:66-68 | after a successful exchange, the new access token is served with no further request at every instant before the buffered expiry |
| Auth.FailedRefreshIsFinal | Hubspot/hubspot/src/auth/auth.service.ts:112-119 | after a failed refresh the user is not authenticated, and every later `getValidAccessToken` fails with 401 'No refresh token' without sending anything |
| Auth.AuthService.constructor | Hubspot/hubspot/src/auth/auth.service.ts:15-28 | built only from a complete configuration, with nothing sent |
| Auth.AuthService.GetAuthorizationUrl | Hubspot/hubspot/src/auth/auth.service.ts:33-43 | the URL starts with the authorization endpoint followed by `?` |
| Auth.AuthService.ExchangeCodeForTokens | Hubspot/hubspot/src/auth/auth.service.ts:48-79 | the new store state, the result and the requests sent are those of `Exchange` on the old state |
| Auth.AuthService.RefreshAccessToken | Hubspot/hubspot/src/auth/auth.service.ts:84-121 | the new store state, the result and the requests sent are those of `Refresh` on the old state |
| Auth.AuthService.GetValidAccessToken | Hubspot/hubspot/src/auth/auth.service.ts:126-143 | the new store state, the result and the requests sent are those of `ValidAccessToken` on the old state |
| Auth.AuthService.IsAuthenticated | Hubspot/hubspot/src/auth/auth.service.ts:148-150 | delegates to the store's refresh-token test |
| Auth.AuthService.Logout | Hubspot/hubspot/src/auth/auth.service.ts:155-158 | the store is fully cleared and not authenticated |
| Http.Rethrow | Hubspot/hubspot/src/contacts/contacts.service.ts:108-111 | the upstream status is kept when present and non-zero, otherwise 500; the upstream message is used when non-empty, otherwise the fallback |
| Http.ApiBaseUrl | Hubspot/hubspot/src/contacts/contacts.service.ts:23 | a configured non-empty base URL is used, otherwise the default HubSpot API URL |
| Http.DateFilters | Hubspot/hubspot/src/contacts/contacts.service.ts:123-140 | zero, one or two clauses: the created-date clause first when `created_after` is given, the modified-date clause last when `updated_after` is given, each with the epoch milliseconds of its date; contacts use `createdate`/`lastmodifieddate` with `GTE`, accounts (accounts.service.ts:57-71) `createdate`/`hs_lastmodifieddate` with `gte` |
| Js.ListOrEmpty | Hubspot/hubspot/src/contacts/contacts.service.ts:35-43 | a value defaulted to `[]` when falsy can be mapped exactly when it is falsy (giving `[]`) or a list (giving its items); any other truthy value makes `.map` throw |
| Helpers.SafeString | Hubspot/hubspot/src/common/utils/helpers.utils.ts:6-11 | `''` for undefined, null and `''`; the trimmed string for a string; the result never has whitespace at either end |
| Helpers.SafeStringBlank | Hubspot/hubspot/src/common/utils/helpers.utils.ts:10 | a string maps to `''` exactly when it is all whitespace |
| Helpers.SafeStringIdempotent | Hubspot/hubspot/src/common/utils/helpers.utils.ts:6-11 | applying `safeString` twice is the same as applying it once |
| Helpers.TruthyStringsAppend | Hubspot/hubspot/src/common/utils/helpers.utils.ts:18 | filtering and stringifying keeps order: it distributes over concatenation |
| Helpers.TruthyStringsKeepsTruthy | Hubspot/hubspot/src/common/utils/helpers.utils.ts:18 | an array of truthy values keeps every element, stringified in place |
| Helpers.TruthyStringsDropsFalsy | Hubspot/hubspot/src/common/utils/helpers.utils.ts:18 | an array of falsy values gives `[]` |
| Helpers.SafeArray | Hubspot/hubspot/src/common/utils/helpers.utils.ts:16-20 | `[]` for any falsy value; for an array, its truthy elements in order, stringified, never more than the input; for any other truthy value the one-element list of its string form, untrimmed |
| Helpers.ToIsoDate | Hubspot/hubspot/src/common/utils/helpers.utils.ts:25-34 | `''` for a falsy value and for one the date parser rejects; a non-empty answer is the ISO form of a truthy value |
| Contacts.CleanId | Hubspot/hubspot/src/contacts/contacts.service.ts:76 | the cleaned ID holds only digits and is no longer than the input |
| Contacts.CleanIdAppend | Hubspot/hubspot/src/contacts/contacts.service.ts:76 | cleaning keeps order: it distributes over concatenation |
| Contacts.CleanIdCharacters | Hubspot/hubspot/src/contacts/contacts.service.ts:76 | a character is in the cleaned ID exactly when it is a digit of the input |
| Contacts.CleanIdOfDigits | Hubspot/hubspot/src/contacts/contacts.service.ts:76 | an all-digit ID is unchanged |
| Contacts.StripsNoise | Hubspot/hubspot/src/contacts/contacts.service.ts:76-80 | non-digit noise before or after the digits is removed, e.g. `'abc123'` becomes `'123'` |
| Contacts.SearchBodyFor | Hubspot/hubspot/src/contacts/contacts.service.ts:142-158 | the property list and limit; always sorted `createdate DESCENDING`; `filterGroups` present exactly when filters exist; `after` present exactly when a cursor is given |
| Contacts.IdStrings | Hubspot/hubspot/src/contacts/contacts.service.ts:217 | every associated id stringified, in order |
| Contacts.FailureMessage | Hubspot/hubspot/src/contacts/contacts.service.ts:229 | the upstream message, else the error's own message, else 'Unknown error'; never empty |
| Contacts.GetAssociations | Hubspot/hubspot/src/contacts/contacts.service.ts:203-240 | an error record is produced exactly when the lookup fails: its URL, contact id, association type, timestamp, upstream status and status text, and the message `data.message or else error.message or else 'Unknown error'`, with empty data; a success gives every `toObjectId` stringified in order, and `[]` without results |
| Contacts.ContactOf | Hubspot/hubspot/src/contacts/contacts.service.ts:172-199 | the id is `safeString` of the record's id; first name, last name and company are `safeString` of `firstname`, `lastname` and `company` in the record's properties (or `{}`), so all four are trimmed; emails and phones are `safeArray` of `email` and `phone`; the deal and company ids are the lookups' data; the dates are `toISODate` of `createdate` and `lastmodifieddate` |
| Contacts.BareRecordContact | Hubspot/hubspot/src/contacts/contacts.service.ts:172-199 | a record whose `properties` is missing or falsy still maps: names, company and dates are `''`, emails and phones `[]` |
| Contacts.ErrorsOf | Hubspot/hubspot/src/contacts/contacts.service.ts:180-186 | one error per failed lookup, the deals error first and the companies error last; none exactly when both lookups succeeded |
| Contacts.MapRecord | Hubspot/hubspot/src/contacts/contacts.service.ts:172-200 | fails exactly for a nullish record; otherwise it makes the deals lookup, then the companies lookup, both with the record's id; the contact is `ContactOf` the record and the two lookup results, and the errors are `ErrorsOf` those results |
| Contacts.OneFailedLookupOneError | Hubspot/hubspot/src/contacts/contacts.service.ts:172-240 | a failed lookup is reported, not thrown: when exactly one of the two lookups fails, the contact maps with exactly one error, naming the contact's id and the association type that failed |
| Contacts.MapToContact | Hubspot/hubspot/src/contacts/contacts.service.ts:172-200 | returns the mapped contact and appends its lookup errors to the shared list, which only grows, by at most two |
| Contacts.CombineFailsIffNone | Hubspot/hubspot/src/contacts/contacts.service.ts:42-44 | the page fails exactly when some record could not be mapped |
| Contacts.CombineKeepsOrder | Hubspot/hubspot/src/contacts/contacts.service.ts:42-44 | when the page succeeds, the contacts have the same length and order as the upstream results |
| Contacts.CombineErrorsEmptyIff | Hubspot/hubspot/src/contacts/contacts.service.ts:57-60 | the collected error list is empty exactly when every mapped contact's lookups succeeded |
| Contacts.CombineBounds | Hubspot/hubspot/src/contacts/contacts.service.ts:172-186 | at most two errors and two lookups per record |
| Contacts.MapRecords | Hubspot/hubspot/src/contacts/contacts.service.ts:43 | each result mapped, in order |
| Contacts.PageOfRecords | Hubspot/hubspot/src/contacts/contacts.service.ts:42-60 | mapping a page: fails exactly when a record is nullish; otherwise the contacts are the records mapped in order |
| Contacts.MapPage | Hubspot/hubspot/src/contacts/contacts.service.ts:39-44 | the loop over the results produces exactly the combined page of the mapped records |
| Contacts.FindAll | Hubspot/hubspot/src/contacts/contacts.service.ts:27-70 | no token is a 500 with no request; otherwise one search POST with the limit (default 10), the fixed property list, sorted by `createdate` descending, the date filter group exactly when `created_after` or `updated_after` is given (created first, updated last), and the cursor only when given; a failed search is rethrown; a nullish body or a truthy `results` that is not a list is a 500 with no lookup; `data` is the results (default `[]`) mapped in order; `total` defaults to 0; `hasMore` is true exactly when the cursor is truthy, and `after` is that cursor; `errors` is present only when non-empty |
| Contacts.FindOneError | Hubspot/hubspot/src/contacts/contacts.service.ts:101-111 | an upstream 404 becomes 404 `Contact <cleanId> not found`; anything else keeps the upstream status or 500 |
| Contacts.FindOne | Hubspot/hubspot/src/contacts/contacts.service.ts:75-113 | an ID without digits is a 400 before any token or request; the contact is requested by its cleaned ID; failures map through `FindOneError`; a nullish record is a 500 after the one GET; a readable record is mapped with its lookups |
| Accounts.Offset | Hubspot/hubspot/src/accounts/accounts.service.ts:81 | an offset is present exactly when `page > 1`, and it is non-empty |
| Accounts.OffsetReadsBack | Hubspot/hubspot/src/accounts/accounts.service.ts:90-92 | the offset string is the decimal form of `(page - 1) * limit`: parsing it gives that number back |
| Accounts.CompaniesRequest | Hubspot/hubspot/src/accounts/accounts.service.ts:26-100 | a POST to the search endpoint exactly when filters exist, otherwise a GET to the list endpoint; the parameters are `limit`, `properties` and, when `page > 1`, the offset |
| Accounts.Singleton | Hubspot/hubspot/src/accounts/accounts.service.ts:191 | `[x]` when the value is truthy, `[]` otherwise |
| Accounts.AddressOf | Hubspot/hubspot/src/accounts/accounts.service.ts:177-184 | street, city, state, zip code and country are each the property `address`, `city`, `state`, `zip` and `country` when truthy and `''` otherwise; the location type is `'primary'` |
| Accounts.MapToAccount | Hubspot/hubspot/src/accounts/accounts.service.ts:174-199 | the id and each scalar property (owner, name, description, annual revenue, domain) is kept when truthy and becomes `''` otherwise; industries and phone numbers are singleton-or-empty; one address exactly when street or city is non-empty; each date is `''` when falsy and otherwise the ISO form of the value |
| Accounts.BareCompanyAccount | Hubspot/hubspot/src/accounts/accounts.service.ts:174-199 | a company whose `properties` is missing or falsy always maps: every scalar is `''`, no industry, address or phone number, and both dates `''` |
| Accounts.MapAll | Hubspot/hubspot/src/accounts/accounts.service.ts:105-107 | fails exactly when some company is nullish or has a truthy `createdate` or `hs_lastmodifieddate` that is not a valid date; otherwise each company is mapped, in order |
| Accounts.MetadataOf | Hubspot/hubspot/src/accounts/accounts.service.ts:109-118 | `hasPrevious` exactly when `page > 1`; `hasNext` exactly when `page * limit < total`, which for a positive limit is `page < totalPages`; `totalPages` is the ceiling of `total / limit` |
| Accounts.TotalOf | Hubspot/hubspot/src/accounts/accounts.service.ts:103 | the upstream total when present and non-zero, otherwise the number of results |
| Accounts.FindAll | Hubspot/hubspot/src/accounts/accounts.service.ts:24-127 | the one request sent is `CompaniesRequest`'s for the query's page (default 1) and limit (default 10): the search POST with the date filters and the offset, or the list GET with `limit`, `properties` and the offset after page 1; a failure is rethrown with the upstream status or 500; a nullish `data`, a truthy `results` that is not a list, or a company that cannot be mapped is a 500; otherwise the mapped companies in order, with the metadata |
| Accounts.FindOneError | Hubspot/hubspot/src/accounts/accounts.service.ts:160-171 | an upstream 404 becomes 404 'Account not found'; anything else keeps the upstream status or 500 |
| Accounts.FindOne | Hubspot/hubspot/src/accounts/accounts.service.ts:129-172 | one GET of the company by its raw id with the property list; every failure maps through `FindOneError` (404 'Account not found', else the upstream message or 'Failed to fetch account' with the upstream status or 500); a body that is nullish or has an invalid truthy date is a 500; a mappable company is mapped |
| Paging.TotalPages | Hubspot/hubspot/src/accounts/accounts.service.ts:115 | for a positive limit, `Math.ceil(total / limit)`: enough pages for every item, no empty last page, and 0 for no items; a zero limit gives NaN or Infinity |
| Paging.HasNextIffBelowPageCount | Hubspot/hubspot/src/accounts/accounts.service.ts:115-116 | for a positive limit, `page * limit < total` exactly when `page` is below the page count |
| Pagination.NewPaginationMeta | SkillSync/skillsync/src/common/dto/meta-pagination.dto.ts:20-30 | page and page size are copied from the query; for a positive limit, `totalPages` holds every item with no empty last page, and is 0 for no items |
| Pagination.NewPaginatedResponse | SkillSync/skillsync/src/common/dto/meta-pagination.dto.ts:40-49 | the data is stored unchanged and `itemCount` is its length |
| Pagination.TotalPagesIsLeast | SkillSync/skillsync/src/common/dto/meta-pagination.dto.ts:29 | the page count is the least number of pages that holds every item |
| Projects.Create | SkillSync/skillsync/src/projects/projects.service.ts:26-41 | refused with 400 'Invalid client' exactly when the client is missing or not a CLIENT; a created project belongs to the client and is OPEN |
| Projects.FindOne | SkillSync/skillsync/src/projects/projects.service.ts:89-100 | a missing project is a 404 naming the id |
| Projects.Remove | SkillSync/skillsync/src/projects/projects.service.ts:126-131 | a 404 exactly when the delete affected 0 rows |
| Projects.TrimmedNonEmpty | SkillSync/skillsync/src/projects/projects.service.ts:59-61 | every parsed skill is non-empty and trimmed, and there are no more skills than parts |
| Projects.TrimmedNonEmptyAvoids | SkillSync/skillsync/src/projects/projects.service.ts:59 | a character in no part, such as the separator, is in no parsed skill |
| Projects.TrimmedNonEmptyAppend | SkillSync/skillsync/src/projects/projects.service.ts:59-61 | parsing keeps order: it distributes over concatenation |
| Projects.TrimmedNonEmptyKeepsClean | SkillSync/skillsync/src/projects/projects.service.ts:59-61 | parts that are already trimmed and non-empty are kept unchanged |
| Projects.ParseSkills | SkillSync/skillsync/src/projects/projects.service.ts:55-62 | a string is split on `','` and an array taken as is; parts are trimmed and empties dropped; no parsed skill of a string contains `','` |
| Projects.QueryConditions | SkillSync/skillsync/src/projects/projects.service.ts:55-75 | one LIKE condition `%skill%` per parsed skill, indexed in order, then the status equality when a status is given |
| Projects.SkillConditions | SkillSync/skillsync/src/projects/projects.service.ts:64-70 | one LIKE condition per skill, the i-th numbered i and matching `%skill%` |
| Projects.SkillKeyIgnoresCase | SkillSync/skillsync/src/projects/projects.service.ts:161 | lower-casing a skill does not change its match key |
| Projects.MatchedSkillsMembers | SkillSync/skillsync/src/projects/projects.service.ts:159-163 | a skill is matched exactly when it is required and some developer skill equals it after lower-casing and trimming |
| Projects.MatchedSkillsAppend | SkillSync/skillsync/src/projects/projects.service.ts:159-163 | the matched skills keep the project's order |
| Projects.MatchedSkillsAllIff | SkillSync/skillsync/src/projects/projects.service.ts:159-163 | all required skills are matched exactly when each of them matches |
| Projects.MatchPercentage | SkillSync/skillsync/src/projects/projects.service.ts:166-168 | the nearest integer to `100 * matched / required`, with halves rounded up; 0 when nothing is required; at most 100; 100 when all match; positive exactly when the share is at least half a percent |
| Projects.Score | SkillSync/skillsync/src/projects/projects.service.ts:154-181 | a missing skill list counts as empty; the score is the matched skills and their percentage, which is at most 100 |
| Projects.ScoreAll | SkillSync/skillsync/src/projects/projects.service.ts:154 | every developer scored, in repository order |
| Projects.PositiveWithPercentage | SkillSync/skillsync/src/projects/projects.service.ts:185 | dropping zero scores keeps every positive score's entries, in order |
| Projects.PositiveMultiset | SkillSync/skillsync/src/projects/projects.service.ts:185 | dropping zero scores removes exactly the zero scores |
| Projects.SortSorted | SkillSync/skillsync/src/projects/projects.service.ts:186 | the ranking is in non-increasing percentage |
| Projects.SortPermutes | SkillSync/skillsync/src/projects/projects.service.ts:186 | the ranking is a permutation of its input |
| Projects.SortStable | SkillSync/skillsync/src/projects/projects.service.ts:186 | entries with equal percentages keep their relative order |
| Projects.RankedProperties | SkillSync/skillsync/src/projects/projects.service.ts:184-186 | the ranking holds every developer with a positive score, as often as scored, and no other; best first; ties in repository order; every score is in 1..100 |
| Projects.RankingCounts | SkillSync/skillsync/src/projects/projects.service.ts:185-186 | the ranking holds each positively scored entry as often as it was scored, and no zero score |
| Projects.RankingInRange | SkillSync/skillsync/src/projects/projects.service.ts:185-186 | every ranked score is positive, and at most 100 when every score is |
| Projects.RankingStable | SkillSync/skillsync/src/projects/projects.service.ts:185-186 | for each positive score, its entries keep the order they were scored in |
| Projects.Slice | SkillSync/skillsync/src/projects/projects.service.ts:191 | `slice(start, end)` with negative bounds counting from the end and both bounds clamped |
| Projects.RecommendedDevelopers | SkillSync/skillsync/src/projects/projects.service.ts:134-194 | a missing project is a 404; otherwise `totalItems` is the ranking's length, `itemCount` the page's, and the page is the ranking sliced from `skip` to `skip + limit` |
| Projects.RecommendedPage | SkillSync/skillsync/src/projects/projects.service.ts:191 | a found project's page holds at most `limit` recommendations, each the ranking's entry at `skip` plus its position |
| Employees.FirstTruthy | sage-hr/src/emp/emp.service.ts:132-133 | a chain of JavaScript `or` operators ends in the first truthy candidate, or in the fallback when none is truthy |
| Employees.StringOrNull | sage-hr/src/emp/emp.service.ts:141 | none for nullish values and for values whose string form is empty, otherwise the string form |
| Employees.FormatDate | sage-hr/src/emp/emp.service.ts:32-39 | `null` for a falsy date, otherwise the ISO form, or `null` when the date does not parse |
| Employees.FetchJobDetails | sage-hr/src/emp/emp.service.ts:72-92 | no request for a falsy position id; otherwise one request; `null` on any failure, an unreadable body or a falsy position; otherwise the title is the name, else the title, and the description falls back to `null` |
| Employees.FetchEmploymentDetails | sage-hr/src/emp/emp.service.ts:94-116 | no request for a falsy employee id; otherwise one request; `null` on any failure or a missing first compensation; otherwise its date, its amount or else its salary, and its type or else `null` |
| Employees.FullName | sage-hr/src/emp/emp.service.ts:126 | the full name is trimmed and no longer than its two parts and one space |
| Employees.FullNameOfNothing | sage-hr/src/emp/emp.service.ts:126 | with both names missing the full name is `''` |
| Employees.FullNameOfBoth | sage-hr/src/emp/emp.service.ts:126 | two trimmed names are joined by one space |
| Employees.FullNameOfFirst | sage-hr/src/emp/emp.service.ts:126 | a first name alone is the full name |
| Employees.FullNameOfLast | sage-hr/src/emp/emp.service.ts:126 | a last name alone is the full name |
| Employees.MapEmployee | sage-hr/src/emp/emp.service.ts:118-152 | the position is looked up first, then the compensations; the id is the string form or `''`; names and email default to `''`; the phone is the first truthy of work, mobile and home, else `null`; the job title is the fetched title, else the position, else `null`; the employment type is the compensation type, else the employment status, else `null`; the effective date is the compensation's, else the start date |
| Employees.AxiosError | sage-hr/src/emp/emp.service.ts:210-213 | the message is the prefix and the axios message; the status is the upstream one when present and non-zero, else 500 |
| Employees.MapEach | sage-hr/src/emp/emp.service.ts:162-164 | fails exactly when some record is nullish; otherwise every record is mapped, with the same length and order |
| Employees.MapEachLookups | sage-hr/src/emp/emp.service.ts:162-164 | mapping a page sends exactly the position and compensation lookups of each non-nullish record, in record order, even when another record fails |
| Employees.PageOfList | sage-hr/src/emp/emp.service.ts:162-166 | a list of records succeeds exactly when no record is nullish, and then holds every record mapped, in order, with `meta`; otherwise a generic 500; the lookups sent are those of every non-nullish record |
| Employees.FindAll | sage-hr/src/emp/emp.service.ts:154-180 | one request for the page (default 1); an axios failure keeps its status or 500 and its message; a body that is not a list of records is a generic 500; otherwise the employees are mapped in upstream order and `meta` is passed through; after the page request, the lookups of every non-nullish record are sent, record by record |
| Employees.FindOne | sage-hr/src/emp/emp.service.ts:182-219 | a blank id is a 400 'Employee ID is required' and an id whose `parseInt` is NaN or at most 0 is a 400 'Invalid employee ID format', both with no request; otherwise the id is requested as given; a 404 names the id; other axios failures keep their status or 500; an unreadable record is a generic 500; on each of these failures the one GET is the only request |
| Employees.DigitPrefixedIdIsRequested | sage-hr/src/emp/emp.service.ts:187-194 | an id that starts with a positive number passes validation whatever follows (e.g. `'12abc'`), and the raw id goes into the URL |
| Employees.NonNumericIdIsRefused | sage-hr/src/emp/emp.service.ts:187-190 | an id that does not start with a sign, a digit or whitespace is refused with no request |
| Users.Find | Day_3/day3/src/users/users.service.ts:33 | none exactly when no entry has the username; otherwise the first entry whose username is exactly the argument |
| Users.FindOne | Day_3/day3/src/users/users.service.ts:32-36 | the lookup over the service's list answers a listed user with that exact username, or undefined exactly when there is none |
| Users.FindIsFirst | Day_3/day3/src/users/users.service.ts:33 | the first entry with the username is the one returned |
| Users.NoTrimming | Day_3/day3/src/users/users.service.ts:16 | the stored `'user2 '` is not found by `'user2'`, but is found by `'user2 '` |
| Users.IdsAreNotKeys | Day_3/day3/src/users/users.service.ts:7-30 | three users share id 1, and each is still found by its own name |

## Left out

- HTTP transport (axios, `HttpService`, `firstValueFrom`), request headers other than the bearer token, and the 15-second Sage HR timeout. Every call is an input outcome.
- Tokens from `getValidAccessToken` in contacts are an input. The contacts contracts cover the token's success or failure, not the store behind it. `Auth.ValidAccessToken` states that separately.
- `URLSearchParams` encoding. `Auth.AuthorizationUrl` takes the encoder as a parameter, and token request forms are kept as ordered key/value lists.
- JavaScript dates:
  - the real conversion behind `toISODate`, `formatDate` and `new Date(x).getTime()` (`isoOf` and `epochMillis` are parameters);
  - the Sage HR `Tenure` and `Upcoming_birthday_date` fields, which depend on today's date (they are not fields of `Employees.Employee`).
- Non-string token payload fields, and a non-numeric `expires_in` that would make the expiry NaN. The token response is modelled as two strings and an integer lifetime.
- `Promise.all` interleaving. The model's request log and error list are built record by record: a contact's deals GET, then its companies GET, then the next contact; for employees, one employee's position lookup, then its compensation lookup. That is not the real send order once a page has two or more records. `results.map(async …)` starts every mapping before any finishes. So every deals GET of the page is sent, in record order, before any companies GET (contacts.service.ts:42-43, 176-177), and the companies GETs and the pushed errors then follow in the order the responses arrive. Likewise, every position lookup is sent before any compensation lookup (emp.service.ts:119-120, 162-164). What the model proves is what the code fixes: within one record, deals before companies (position before compensation); the mapped contacts and employees keep the record order; and which errors are collected, as a list per record.
- Js.JsValue: numbers are integers only, so fractional values (a salary of `52000.5`), `NaN` (which is falsy) and the infinities are not modelled; `Js.ToJsString` has no decimal-point or exponent forms, and `String(v)` in `safeString` and `safeArray` is modelled for integers only.
- Projects.MatchPercentage: uses exact round-half-up of the rational `100 * matched / required` instead of floating-point `Math.round`. At exact halves the float product can fall just below the half and round down.
- AsciiLower (in Js): lower-cases ASCII letters only, as a stand-in for `toLowerCase`.
- The ORM and query machinery:
  - repositories and query builders, where the skill filter is modelled as the list of conditions it adds;
  - ordering by `createdAt`, where the developers arrive already in repository order;
  - `findByClientId`, `update` and `toDto`, which are persistence plumbing.
- bcrypt and JWT (the SkillSync users service and the Day 3 auth service), and the sanitising pipe.
- Controllers, modules, DTO validation and logging.
- The contents of `AccountQueryDto`, `PaginationQueryDto` and the `Role`/`ProjectStatus` enums. They are not part of this model, so their fields are taken as the services use them: optional page, limit and dates; a non-negative `skip`; CLIENT versus other roles.
- Projects.QueryConditions: the status filter is added when the status is a non-empty string, since only truthiness is visible.
