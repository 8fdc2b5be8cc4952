# user_service person API, modelled in Dafny

This project models the core of `user_service`, a small Go service that stores
person records in Postgres behind one HTTP route, `/persons`. The route answers:

- **GET** lists persons, filtered by `gender`, `ageplus`, `ageminus` and
  `nationality` and paged by `limit` and `offset`.
- **POST** creates a person. The age, gender and nationality come from three
  lookup services, keyed by the person's first name.
- **PATCH** updates a person by id.
- **DELETE** removes a person by id.

The modules follow the Go packages:

| module | file | models |
|---|---|---|
| `Base` | base.dfy | `Option`, `Result`, Go's `int64`, and the errors the code returns |
| `Strconv` | strconv.dfy | `strconv.Atoi` on a 64-bit target, and the `%d` verb |
| `Types` | person.dfy | the `Person` record and `NewPerson` (types/person.go) |
| `Http` | http.dfy | the query parameters of a request, and a response writer (status line and body) |
| `Filters` | filters.dfy | `validateAndReturnFilter` and `createStringFilter` (internal/api/api_utils.go) |
| `Enrichment` | enrichment.dfy | `getAge`, `getGender`, `getNationality` and `fetchExternalApiData` (internal/api/api_utils.go) |
| `Storage` | storage.dfy | `generateQueryStringWithFilters` and `PostgresStore` (internal/repository/storage.go) |
| `Api` | api.dfy | `handlePersons` and the four handlers (internal/api/api.go) |

**The database.** It is an abstract table, `map<int64, Person>` keyed by id.
Beside it is the list of statements the driver has received: selects with their
full SQL text, and inserts, updates and deletes with their parameters. What the
driver answers is a parameter of each store operation: an error, the id of an
inserted row, or the scanned rows.

**The lookup services.** Each is given as a function from a name to its
outcome: a failed fetch, a failed decode, or the decoded payload.

**The response.** A response is the status line (absent until a handler writes
one) and the list of bodies written: `http.Error` text, or the JSON of a list of
persons. Each handler gets a fresh writer, as net/http gives one to each request.

**How state is modelled.** The query builder, the `GetPersons` row loop, the
nationality sort, the field-by-field enrichment and the handlers are methods
with loops and mutable state. Each is proved equal to a pure function, or
related to one, and the properties are proved about those functions:

- `QueryText` specifies the query builder;
- `ScanOutcome` specifies the row loop;
- `IsMostProbable` specifies the nationality sort;
- `AddPersonSpec`, `UpdatePersonSpec` and `DeletePersonSpec` specify the three writes;
- `GetPersonsEffect`, `AddPersonOutcome`, `UpdatePersonEffect` and `DeletePersonEffect` specify the handlers.

**Behaviour of the code worth knowing:**

- **POST failures before the store.** A body that does not decode, a failed
  age or gender lookup, or a nationality lookup that returns no country makes
  the handler return without writing a status or a body. The status stays
  absent in the model; net/http then answers an implicit 200 with an empty body.
- **Failed nationality lookup.** A failed fetch or decode of the nationality
  lookup ends the process (`log.Fatalf`), unlike every other failure in request
  handling. The model returns it as the distinct error `Fatal`.
- **Ties in nationality.** `sort.Slice` is not stable, so when two countries
  share the highest probability the code may choose either. The model allows
  *any* most probable entry; `TiedMaxima` shows that for US 0.5, GB 0.9, FR 0.9
  both GB and FR may be chosen.
- **Limit and offset spacing.** The query builder appends `" limit 10 "` and
  then `" offset 5 "`, which leaves two spaces between the clauses
  (`LimitOffsetQuery`).

## Model

| member | source | states |
|---|---|---|
| `Types.NewPerson` | types/person.go:13-21 | every argument lands in the field of the same name (gender, nationality, age despite the parameter order); the id is 0; no argument is refused |
| `Types.NewPersonDropsOnlyId` | types/person.go:13-21 | rebuilding a record from its own fields loses the id and nothing else |
| `Strconv.AtoiFormatInt` | internal/repository/storage.go:153 | every int64 printed with %d is read back by Atoi as the same number |
| `Strconv.AtoiAcceptsSignedDigits` | internal/api/api.go:51 | whatever Atoi accepts is an optional sign followed by one or more digits, and the result is their signed value |
| `Strconv.AtoiSignedDigits` | internal/api/api.go:51 | an optional sign followed by one or more digits is accepted with its signed value when that fits in int64, and is a range error otherwise |
| `Strconv.AtoiExamples` | internal/api/api.go:51 | "+5" reads as 5 and "007" as 7 |
| `Strconv.AtoiRangeEdges` | internal/api/api.go:51 | the printed numbers one past either end of the int64 range are range errors |
| `Filters.FemaleContainsMale` | internal/api/api_utils.go:49 | the male-or-female pattern matches exactly when "male" occurs somewhere |
| `Filters.ValidateAndReturnFilter` | internal/api/api_utils.go:45-75 | gender passes iff it has no digit and contains "male"; ageplus/ageminus pass iff all characters are digits; nationality passes iff it has no digit; a refusal of one of these four is "<name> query parameter is not valid"; any other name is refused as undefined; a pass returns the value unchanged, a refusal returns "" |
| `Filters.FilterEdgeCases` | internal/api/api_utils.go:45-75 | "female", "femalemale" and "xmalex" pass as a gender; "other" is refused with "gender query parameter is not valid" and "3male" is refused; "" passes as ageplus, "-5" fails as ageminus; "US1" fails as nationality; "limit" is undefined |
| `Filters.CreateStringFilter` | internal/api/api_utils.go:34-42 | stores what the validator returns ("" on a refusal); on a refusal writes 400 with the message, otherwise writes nothing |
| `Enrichment.GetAge` | internal/api/api_utils.go:77-94 | fails iff no payload arrived or its age is 0; any other age, negative included, is returned unchanged; its errors are ordinary |
| `Enrichment.GetGender` | internal/api/api_utils.go:96-111 | fails iff no payload arrived or its gender is empty; any other string is returned unchanged |
| `Enrichment.SortByProbability` | internal/api/api_utils.go:129-131 | the array ends sorted ascending by probability and is a permutation of what it held |
| `Enrichment.LastOfSortedIsMostProbable` | internal/api/api_utils.go:133-135 | the last entry of a sorted permutation has a probability no entry exceeds |
| `Enrichment.GetNationality` | internal/api/api_utils.go:113-136 | a failed fetch or decode ends the process, an empty list is an ordinary error, otherwise the answer is the id of a most probable entry |
| `Enrichment.MostProbableExists` | internal/api/api_utils.go:125-135 | every non-empty candidate list has a most probable entry |
| `Enrichment.MostProbableUnique` | internal/api/api_utils.go:129-135 | a strict maximum is the only possible answer |
| `Enrichment.TiedMaxima` | internal/api/api_utils.go:129-135 | for US 0.5, GB 0.9, FR 0.9 exactly GB and FR are possible answers |
| `Enrichment.FetchExternalApiData` | internal/api/api_utils.go:154-174 | lookups run in the order age, gender, nationality and stop at the first error; each field is written as soon as it is known, so an age set before a later failure stays set; on success the nationality is a most probable one; name, surname, patronymic and id never change |
| `Storage.AppendCondition` | internal/repository/storage.go:127-148 | appending " where " to a query without conditions, or " and " to one with conditions, adds the condition to the where clause |
| `Storage.GenerateQueryStringWithFilters` | internal/repository/storage.go:124-160 | the flag-driven builder produces exactly the select, the where clause of the non-empty filters, and the tail |
| `Storage.AppendTail` | internal/repository/storage.go:150-158 | the order by comes first, then the limit clause only when limit is not -1, then the offset clause only when offset is not -1 |
| `Storage.QueryWithoutFilters` | internal/repository/storage.go:126-150 | with no filters and no paging the query is exactly "select * from persons order by id asc" |
| `Storage.TailStartsWithOrderBy` | internal/repository/storage.go:150-158 | " order by id asc" follows the conditions, ahead of any limit or offset |
| `Storage.QueryHasWhereIffFiltered` | internal/repository/storage.go:125-148 | the query opens with "select * from persons where " iff some filter is non-empty |
| `Storage.PredicateCount` | internal/repository/storage.go:127-148 | there is one condition per non-empty filter |
| `Storage.GenderAndAgeplusQuery` | internal/repository/storage.go:127-135 | gender male and ageplus 20 give "... where gender = 'male' and age > 20 order by id asc" (quoted gender, bare age) |
| `Storage.LimitOffsetQuery` | internal/repository/storage.go:150-158 | limit 10 and offset 5 give "... order by id asc limit 10  offset 5 " |
| `Storage.AddPersonSpec` | internal/repository/storage.go:65-87 | a record without name or surname sends nothing, changes nothing and is no error; otherwise a failed insert returns the driver's message with the table unchanged, and a successful one adds exactly the id the database chose, stores the record under it and leaves the other rows untouched; rows stay keyed by their own id |
| `Storage.UpdatePersonSpec` | internal/repository/storage.go:89-112 | a record without name or surname sends nothing, changes nothing and is no error; otherwise the driver's answer is the error returned, and without an error an existing row with the given id (not the body's id) takes the record's fields; no row is added or removed, no other row changes, and on an error no row changes |
| `Storage.DeletePersonSpec` | internal/repository/storage.go:114-121 | the driver's answer is the error returned; without an error exactly the id is removed from the table and every other row stays unchanged; with an error the table is unchanged |
| `Storage.ScanOutcomeOk` | internal/repository/storage.go:44-62 | without a scan error the result is one person per row, in row order (the empty list for no rows) |
| `Storage.ScanOutcomeErr` | internal/repository/storage.go:45-59 | a scan error is the error of the first row that failed to scan |
| `Storage.ScanRows` | internal/repository/storage.go:44-62 | the row loop returns the scanned persons, or no list and the first scan error |
| `Storage.PrefixErrStaysErr` | internal/repository/storage.go:57-59 | once a row fails to scan, later rows do not change the outcome |
| `Storage.PostgresStore.constructor` | internal/repository/storage.go:24-34 | a new store holds the given table and has sent nothing |
| `Storage.PostgresStore.GetPersons` | internal/repository/storage.go:36-63 | sends the query built from the filters, changes no row, and returns the scanned persons or the query or scan error with no list |
| `Storage.PostgresStore.AddPerson` | internal/repository/storage.go:65-87 | the table and the statements after the call are those of `AddPersonSpec` |
| `Storage.PostgresStore.UpdatePerson` | internal/repository/storage.go:89-112 | the table and the statements after the call are those of `UpdatePersonSpec` |
| `Storage.PostgresStore.DeletePersonById` | internal/repository/storage.go:114-121 | the table and the statements after the call are those of `DeletePersonSpec` |
| `Storage.WritesSkipWithoutNameOrSurname` | internal/repository/storage.go:68-86 | with an empty name or surname, insert and update send nothing, change nothing and return no error |
| `Storage.DeleteUndoesAdd` | internal/repository/storage.go:65-121 | deleting the row an insert created under a fresh id restores the table |
| `Storage.UpdateIgnoresRecordId` | internal/repository/storage.go:89-102 | the update is keyed by the id argument; the record's own id plays no part |
| `Storage.UpdateIdempotent` | internal/repository/storage.go:89-112 | repeating a successful update changes nothing more |
| `Storage.DeleteUnknownId` | internal/repository/storage.go:114-121 | deleting an absent id sends the delete, succeeds, and changes no row |
| `Api.ParsePaging` | internal/api/api.go:48-66 | absent or empty means -1; otherwise the value must parse and reach the bound; a parse failure returns exactly the Atoi error, an out-of-range number returns none; the message is the parameter's |
| `Api.ReadFilter` | internal/api/api.go:68-104 | an absent filter is ""; otherwise it passes iff the validator accepts it, and a refusal writes and returns the validator's own message |
| `Api.ReadGetParams` | internal/api/api.go:48-104 | the GET parameters are accepted iff all six pass; a bad limit is the answer whatever else the query holds |
| `Api.FirstRefusalWins` | internal/api/api.go:48-104 | the first refused parameter in the order limit, offset, gender, ageplus, ageminus, nationality is the answer; when all pass, the filters are the parameter values |
| `Api.PagingParam` | internal/api/api.go:48-66 | parses limit or offset as `ParsePaging` does, writing 400 with the message exactly on a refusal |
| `Api.FilterParam` | internal/api/api.go:68-104 | reads one filter as `ReadFilter` does, writing 400 with the message exactly on a refusal |
| `Api.ReadQueryParams` | internal/api/api.go:46-104 | the parameter steps return `ReadGetParams` of the query and write 400 with its message exactly when it refuses |
| `Api.StoreOutcome` | internal/api/api.go:136-143 | a store error is written as 400 with the driver's message and returned as that message; success writes 201 and no body; the table is the store's |
| `Api.APIServer.constructor` | internal/api/api.go:14-20 | the server keeps the store it was given |
| `Api.APIServer.HandlePersons` | internal/api/api.go:30-43 | GET, POST, DELETE and PATCH go to their handlers; any other method writes nothing and returns no error |
| `Api.APIServer.HandleGetPersons` | internal/api/api.go:45-120 | response, table and error are `GetPersonsEffect` of the query, the database reply and the table before |
| `Api.APIServer.HandleAddPerson` | internal/api/api.go:122-144 | the response, table and error satisfy `AddPersonOutcome`, with the nationality the lookup chose |
| `Api.APIServer.HandleUpdatePerson` | internal/api/api.go:146-161 | response, table and error are `UpdatePersonEffect` of the body, the database reply and the table before |
| `Api.APIServer.HandleDeletePersonById` | internal/api/api.go:163-180 | response, table and error are `DeletePersonEffect` of the body, the database reply and the table before |
| `Api.PagingReadsFormattedNumbers` | internal/api/api.go:48-66 | a printed number is read back as the limit when at least 1 and as the offset when at least -1; below those it is refused with no error |
| `Api.LimitOutOfRangeReturnsNil` | internal/api/api.go:50-55 | a limit that parses but is below 1 is answered 400, the table is untouched, and the handler returns no error |
| `Api.ZeroLimitRefused` | internal/api/api.go:50-55 | "limit=0" gives 400 with "limit query parameter is no valid number" and no error |
| `Api.OffsetMinusOneIsAbsent` | internal/api/api.go:58-66 | an explicit offset of -1 behaves exactly like an absent offset |
| `Api.OffsetMinusOneParams` | internal/api/api.go:58-66 | the parameters read with "offset=-1" are those read without an offset |
| `Api.MinusOneParses` | internal/api/api.go:58-66 | "-1" and "" are both the offset -1 |
| `Api.GetReachesStoreIffAccepted` | internal/api/api.go:45-120 | a refused GET answers 400 and leaves the database as it was; an accepted one appends exactly the select of `QueryText` of the validated parameters and changes no row; a store error writes neither status nor body and is returned; success answers 200 with the JSON of exactly the persons the store read |
| `Api.BadLimitMasksTheRest` | internal/api/api.go:48-56 | two GETs with the same refused limit get the same answer whatever their other parameters and the database reply |
| `Api.GenderQuoteReachesQuery` | internal/api/api.go:68-75 | a gender holding quotes and "male" passes validation and is sent inside the quoted condition of the select |
| `Api.QuotedGenderPasses` | internal/api/api_utils.go:47-53 | "male' or 'x' = 'x" has no digit and contains "male", so it passes as a gender |
| `Api.QuotedGenderCondition` | internal/repository/storage.go:128 | that value becomes the condition "gender = 'male' or 'x' = 'x'" |
| `Api.AddPersonStatuses` | internal/api/api.go:122-144 | POST leaves the status unwritten iff the body does not decode or a lookup fails (table untouched, error returned); 201 iff no error; a named record whose insert fails gets 400 with the driver's message, that error, and an unchanged table |
| `Api.AddWithoutNameAnswersCreated` | internal/api/api.go:134-143 | a POST without name or surname whose lookups succeed answers 201 and changes nothing |
| `Api.AddIgnoresClientId` | internal/api/api.go:123-134 | the id in a POST body has no effect on the outcome |
| `Api.AddInsertsEnrichedRecord` | internal/api/api.go:128-143 | a successful POST of a named record stores, under the id the database chose, the record with the looked-up age and gender and a most probable nationality |
| `Api.UpdateAndDeleteStatuses` | internal/api/api.go:146-180 | PATCH and DELETE leave the status unwritten iff the body does not decode (table untouched); 201 iff no error; a named PATCH or a decoded DELETE whose statement fails gets 400 with the driver's message, that error, and an unchanged table |
| `Api.PatchKeyedByBodyId` | internal/api/api.go:154 | a successful PATCH of a named record replaces the row under the body's id with the body |
| `Api.PatchUnknownIdAnswersCreated` | internal/api/api.go:154-160 | PATCH of an id not in the table answers 201 and changes no row |
| `Api.DeleteUnknownIdAnswersCreated` | internal/api/api.go:172-179 | DELETE of an id not in the table answers 201 and changes no row |
| `Api.OtherMethodsDoNothing` | internal/api/api.go:31-42 | for any other method, the only outcome is: nothing written, table untouched, no error |

## Left out

- **HTTP plumbing.** `Run`, the gorilla/mux router, `ListenAndServe`, the
  logging wrapper `makeHTTPHandleFunc`, and the Content-Type header are
  transport and logging only.
- **Lookup calls.** `getInfoFromExternalApi` (`http.Get`, `io.ReadAll`) and
  `json.Unmarshal` are I/O and a foreign library. Each lookup is given as its
  outcome.
- **JSON handling.**
  - Decoding and encoding are a foreign library; a request body is given as its
    decode outcome.
  - A body of JSON `null` makes POST and PATCH dereference a nil record and
    panic. The decode outcome cannot express that, so it is not modelled.
  - An error from `Encode` on GET is not modelled; encoding always succeeds here.
- **Logging.** The `logger` fields, `internal/logging/logging.go`,
  `cmd/main.go` and `types/config.go` are startup, configuration and logging,
  and are not part of this model.
- **Connection setup.** `NewPostgresStore`'s `sql.Open` and connection string
  are not modelled; the constructor takes the initial table.
- **SQL semantics.** Nothing here evaluates SQL: how a select filters, where
  ids come from, and rows affected. A select's reply is a parameter. A
  successful insert stores the record under the id the reply names.
- `Storage.PostgresStore.GetPersons`: does not model `rows.Err` (never checked
  by the code) or rows left open; the reply is the list of scan results.
- `Storage.PostgresStore.DeletePersonById`: the code runs the delete with
  `db.Query` and never closes the returned rows. That connection leak is not
  modelled.
- `Enrichment.SortByProbability`: is an insertion sort standing in for Go's
  `sort.Slice` (pattern-defeating quicksort). It promises what `sort.Slice`
  promises: sorted and a permutation, with no order among ties.
- **Probability.** The float64 probability is modelled as a real. It is only
  compared, and NaN is not modelled.
- **Atoi error text.** The message of `strconv.NumError` is not modelled; its
  function name, input and kind (syntax or range) are.
- **Go `int`.** It is assumed to be 64 bits wide, as on the platforms the
  service targets.
- `Api.APIServer.HandlePersons`: requires a fresh response writer (no status,
  no body), as net/http provides for each request.
