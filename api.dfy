/** The HTTP handlers of the api package: the /persons route dispatching on the
    request method, the GET parameter pipeline, and what each handler writes to
    the response and sends to the store.  A request is modelled as its method,
    its query parameters and the outcome of decoding its body; the answers of the
    lookup services and of the database are given as parameters. */
module Api {
  import opened Base
  import opened Strconv
  import opened Types
  import opened Http
  import opened Filters
  import opened Enrichment
  import opened Storage

  /** The outcome of json.Decoder.Decode on the request body. */
  datatype Decode<T> = DecodeFailed(err: string) | Decoded(value: T)

  /** A request to /persons: its method (verb), its query parameters, and what its body
      decodes to as a person (POST, PATCH) and as the `{"id": ...}` object (DELETE). */
  datatype Request = Request(verb: string, query: Values, person: Decode<Person>, id: Decode<int64>)

  /** What the outside world answers while a request is served: the lookup services,
      and the database's reply to an insert, to an update or delete, and to a select. */
  datatype World = World(apis: Enrichers, insert: InsertReply, exec: Option<string>, select: QueryReply)

  /** The status line (None when the handler never commits one) and the body. */
  datatype Response = Response(status: Option<int>, body: seq<BodyPart>)

  /** What serving one request leaves behind: the response, the database, and the
      error the handler returns to the logging wrapper. */
  datatype Outcome = Outcome(response: Response, db: DbState, err: Option<Error>)

  const NoResponse := Response(None, [])

  /** The response of http.Error(w, message, StatusBadRequest) on a fresh writer. */
  function BadRequest(message: string): Response
  {
    Response(Some(StatusBadRequest), [Text(message + "\n")])
  }

  // ---------------------------------------------------------------------------
  // The GET parameter pipeline

  const LimitMessage := "limit query parameter is no valid number"
  const OffsetMessage := "offset query parameter is no valid number"

  /** The filters and the paging of a GET request, once every parameter passed. */
  datatype GetParams = GetParams(limit: int64, offset: int64,
                                 gender: string, ageplus: string, ageminus: string, nationality: string)

  /** A refused GET parameter: the message written with 400, and the error the
      handler returns, which is nil when the number parsed but is out of range. */
  datatype Rejection = Rejection(message: string, err: Option<Error>)

  /** The `limit` (least 1) or `offset` (least -1) parameter: absent or empty means
      -1; otherwise it must parse as an int and be at least `least`. */
  function ParsePaging(s: string, message: string, least: int): (r: Result<int64, Rejection>)
    ensures r.Ok? <==> s == "" || (Atoi(s).Ok? && Atoi(s).value as int >= least)
    ensures r.Ok? && s == "" ==> r.value == -1
    ensures r.Ok? && s != "" ==> r.value == Atoi(s).value
    ensures r.Err? ==> r.error.message == message && (r.error.err.None? <==> Atoi(s).Ok?)
    ensures r.Err? && Atoi(s).Err? ==> r.error.err == Some(Atoi(s).error)
  {
    if s == "" then Ok(-1)
    else match Atoi(s)
      case Err(e) => Err(Rejection(message, Some(e)))
      case Ok(v) => if (v as int) < least then Err(Rejection(message, None)) else Ok(v)
  }

  function ParseLimit(s: string): Result<int64, Rejection> { ParsePaging(s, LimitMessage, 1) }

  function ParseOffset(s: string): Result<int64, Rejection> { ParsePaging(s, OffsetMessage, -1) }

  /** A filter parameter: absent or empty means no filter (""); otherwise the value
      must pass validateAndReturnFilter, whose message is both written and returned. */
  function ReadFilter(query: Values, name: string): (r: Result<string, Rejection>)
    ensures Get(query, name) == "" ==> r == Ok("")
    ensures Get(query, name) != "" ==>
              (r.Ok? <==> ValidateAndReturnFilter(name, Get(query, name)).err.None?)
    ensures r.Ok? ==> r.value == Get(query, name)
    ensures r.Err? ==> r.error.err == Some(Message(r.error.message))
    ensures r.Err? ==> r.error.message == ValidateAndReturnFilter(name, Get(query, name)).err.value
  {
    var filter := Get(query, name);
    if filter == "" then Ok("")
    else
      var validated := ValidateAndReturnFilter(name, filter);
      if validated.err.Some? then Err(Rejection(validated.err.value, Some(Message(validated.err.value))))
      else Ok(validated.value)
  }

  /** The parameters in the order the handler reads them: limit, offset, gender,
      ageplus, ageminus, nationality; the first refusal is the answer. */
  function ReadGetParams(query: Values): (r: Result<GetParams, Rejection>)
    ensures r.Ok? <==> ParseLimit(Get(query, "limit")).Ok? && ParseOffset(Get(query, "offset")).Ok? &&
                       ReadFilter(query, "gender").Ok? && ReadFilter(query, "ageplus").Ok? &&
                       ReadFilter(query, "ageminus").Ok? && ReadFilter(query, "nationality").Ok?
    ensures ParseLimit(Get(query, "limit")).Err? ==> r == Err(ParseLimit(Get(query, "limit")).error)
  {
    var limit :- ParseLimit(Get(query, "limit"));
    var offset :- ParseOffset(Get(query, "offset"));
    var gender :- ReadFilter(query, "gender");
    var ageplus :- ReadFilter(query, "ageplus");
    var ageminus :- ReadFilter(query, "ageminus");
    var nationality :- ReadFilter(query, "nationality");
    Ok(GetParams(limit, offset, gender, ageplus, ageminus, nationality))
  }

  /** The first refused parameter, in the order limit, offset, gender, ageplus,
      ageminus, nationality, is the answer whatever the later ones hold; when all
      pass, the parameters are the parsed numbers and the filter values. */
  lemma FirstRefusalWins(query: Values)
    ensures var limit, offset := ParseLimit(Get(query, "limit")), ParseOffset(Get(query, "offset"));
            var gender, ageplus := ReadFilter(query, "gender"), ReadFilter(query, "ageplus");
            var ageminus, nationality := ReadFilter(query, "ageminus"), ReadFilter(query, "nationality");
            var r := ReadGetParams(query);
            (limit.Err? ==> r == Err(limit.error)) &&
            (limit.Ok? && offset.Err? ==> r == Err(offset.error)) &&
            (limit.Ok? && offset.Ok? && gender.Err? ==> r == Err(gender.error)) &&
            (limit.Ok? && offset.Ok? && gender.Ok? && ageplus.Err? ==> r == Err(ageplus.error)) &&
            (limit.Ok? && offset.Ok? && gender.Ok? && ageplus.Ok? && ageminus.Err? ==> r == Err(ageminus.error)) &&
            (limit.Ok? && offset.Ok? && gender.Ok? && ageplus.Ok? && ageminus.Ok? && nationality.Err? ==>
               r == Err(nationality.error)) &&
            (r.Ok? ==> r.value == GetParams(limit.value, offset.value, Get(query, "gender"), Get(query, "ageplus"),
                                            Get(query, "ageminus"), Get(query, "nationality")))
  {
  }

  /** handleGetPersons: a refused parameter answers 400 and never reaches the store;
      otherwise the store runs the query for the filters, and its error is returned
      with nothing written, or its persons are sent with 200. */
  function GetPersonsEffect(query: Values, reply: QueryReply, db: DbState): Outcome
  {
    match ReadGetParams(query)
    case Err(rejection) => Outcome(BadRequest(rejection.message), db, rejection.err)
    case Ok(p) =>
      var sent := db.(statements := db.statements +
        [Select(QueryText(p.gender, p.ageplus, p.ageminus, p.nationality, p.limit, p.offset))]);
      match ReadOutcome(reply)
      case Err(msg) => Outcome(NoResponse, sent, Some(Message(msg)))
      case Ok(persons) => Outcome(Response(Some(StatusOK), [Json(persons)]), sent, None)
  }

  // ---------------------------------------------------------------------------
  // The writes

  /** handleAddPerson: a body that does not decode, or a failed lookup, returns the
      error with nothing written.  Otherwise the store is given NewPerson of the
      enriched request (its nationality a most probable one, the choice among ties
      left open); a store error is written with 400 and returned, success is 201. */
  ghost predicate AddPersonOutcome(body: Decode<Person>, apis: Enrichers, insert: InsertReply, db: DbState, out: Outcome)
  {
    match body
    case DecodeFailed(e) => out == Outcome(NoResponse, db, Some(Message(e)))
    case Decoded(req) =>
      var enrichment := EnrichmentError(req.name, apis);
      if enrichment.Some? then out == Outcome(NoResponse, db, enrichment)
      else exists nationality ::
        IsMostProbable(Countries(apis.nationality(req.name)), nationality) &&
        out == StoreOutcome(AddPersonSpec(db, Enriched(req, apis, nationality), insert))
  }

  /** The record handed to the store after a successful enrichment with `nationality`. */
  function Enriched(req: Person, apis: Enrichers, nationality: string): Person
    requires GetAge(apis.age(req.name)).Ok? && GetGender(apis.gender(req.name)).Ok?
  {
    NewPerson(req.name, req.surname, req.patronymic,
              GetGender(apis.gender(req.name)).value, nationality, GetAge(apis.age(req.name)).value)
  }

  /** The shared tail of the three write handlers: a store error is written with 400
      and returned; success is answered with 201. */
  function StoreOutcome(written: Written): (r: Outcome)
    ensures r.db == written.db
    ensures r.err.None? <==> written.err.None?
    ensures r.response.status == Some(if written.err.None? then StatusCreated else StatusBadRequest)
    ensures written.err.Some? ==>
              r.response == BadRequest(written.err.value) && r.err == Some(Message(written.err.value))
    ensures written.err.None? ==> r.response.body == []
  {
    match written.err
    case Some(msg) => Outcome(BadRequest(msg), written.db, Some(Message(msg)))
    case None => Outcome(Response(Some(StatusCreated), []), written.db, None)
  }

  /** handleUpdatePerson: the update is keyed by the id inside the decoded body. */
  function UpdatePersonEffect(body: Decode<Person>, exec: Option<string>, db: DbState): Outcome
  {
    match body
    case DecodeFailed(e) => Outcome(NoResponse, db, Some(Message(e)))
    case Decoded(req) => StoreOutcome(UpdatePersonSpec(db, req.id, req, exec))
  }

  /** handleDeletePersonById. */
  function DeletePersonEffect(body: Decode<int64>, exec: Option<string>, db: DbState): Outcome
  {
    match body
    case DecodeFailed(e) => Outcome(NoResponse, db, Some(Message(e)))
    case Decoded(id) => StoreOutcome(DeletePersonSpec(db, id, exec))
  }

  /** handlePersons: what serving `request` may leave behind. */
  ghost predicate PersonsOutcome(request: Request, world: World, db: DbState, out: Outcome)
  {
    match request.verb
    case "GET" => out == GetPersonsEffect(request.query, world.select, db)
    case "POST" => AddPersonOutcome(request.person, world.apis, world.insert, db, out)
    case "DELETE" => out == DeletePersonEffect(request.id, world.exec, db)
    case "PATCH" => out == UpdatePersonEffect(request.person, world.exec, db)
    case _ => out == Outcome(NoResponse, db, None)
  }

  /** The limit or offset step of handleGetPersons: the parameter is parsed, and a
      refusal is answered with 400 and the message. */
  method PagingParam(w: ResponseWriter, s: string, message: string, least: int) returns (r: Result<int64, Rejection>)
    modifies w
    ensures r == ParsePaging(s, message, least)
    ensures r.Ok? ==> w.status == old(w.status) && w.body == old(w.body)
    ensures r.Err? ==> w.status == (if old(w.status).None? then Some(StatusBadRequest) else old(w.status)) &&
                       w.body == old(w.body) + [Text(message + "\n")]
  {
    r := Ok(-1);
    if s != "" {
      var parsed := Atoi(s);
      if parsed.Err? {
        w.Error(message, StatusBadRequest);
        return Err(Rejection(message, Some(parsed.error)));
      }
      if (parsed.value as int) < least {
        w.Error(message, StatusBadRequest);
        return Err(Rejection(message, None));
      }
      r := Ok(parsed.value);
    }
  }

  /** One filter step of handleGetPersons: an empty parameter leaves the filter at
      ""; otherwise createStringFilter validates it, answering 400 on a refusal. */
  method FilterParam(w: ResponseWriter, query: Values, name: string) returns (value: string, err: Option<Error>)
    modifies w
    ensures ReadFilter(query, name).Ok? ==>
              value == ReadFilter(query, name).value && err.None? && w.status == old(w.status) && w.body == old(w.body)
    ensures ReadFilter(query, name).Err? ==>
              err == ReadFilter(query, name).error.err &&
              w.status == (if old(w.status).None? then Some(StatusBadRequest) else old(w.status)) &&
              w.body == old(w.body) + [Text(ReadFilter(query, name).error.message + "\n")]
  {
    value, err := "", None;
    var filter := Get(query, name);
    if filter != "" {
      var message;
      value, message := CreateStringFilter(w, name, filter);
      if message.Some? {
        err := Some(Message(message.value));
      }
    }
  }

  /** The parameter steps of handleGetPersons, in their order: each refusal is
      answered with 400 and ends the handler. */
  method ReadQueryParams(w: ResponseWriter, query: Values) returns (r: Result<GetParams, Rejection>)
    modifies w
    ensures r == ReadGetParams(query)
    ensures r.Ok? ==> w.status == old(w.status) && w.body == old(w.body)
    ensures r.Err? ==> w.status == (if old(w.status).None? then Some(StatusBadRequest) else old(w.status)) &&
                       w.body == old(w.body) + [Text(r.error.message + "\n")]
  {
    FirstRefusalWins(query);
    var limit := PagingParam(w, Get(query, "limit"), LimitMessage, 1);
    if limit.Err? {
      return Err(limit.error);
    }
    var offset := PagingParam(w, Get(query, "offset"), OffsetMessage, -1);
    if offset.Err? {
      return Err(offset.error);
    }
    var filterGender, filterErr := FilterParam(w, query, "gender");
    if filterErr.Some? {
      return Err(ReadFilter(query, "gender").error);
    }
    var filterAgeplus;
    filterAgeplus, filterErr := FilterParam(w, query, "ageplus");
    if filterErr.Some? {
      return Err(ReadFilter(query, "ageplus").error);
    }
    var filterAgeminus;
    filterAgeminus, filterErr := FilterParam(w, query, "ageminus");
    if filterErr.Some? {
      return Err(ReadFilter(query, "ageminus").error);
    }
    var filterNationality;
    filterNationality, filterErr := FilterParam(w, query, "nationality");
    if filterErr.Some? {
      return Err(ReadFilter(query, "nationality").error);
    }
    r := Ok(GetParams(limit.value, offset.value, filterGender, filterAgeplus, filterAgeminus, filterNationality));
  }

  // ---------------------------------------------------------------------------
  // The server

  /** APIServer with the store it was built with.  Each handler is given a fresh
      response writer, as net/http gives one to each request. */
  class APIServer {
    const store: PostgresStore

    constructor (store: PostgresStore)
      ensures this.store == store
    {
      this.store := store;
    }

    method HandlePersons(w: ResponseWriter, request: Request, world: World) returns (err: Option<Error>)
      requires w.status == None && w.body == []
      modifies w, store
      ensures PersonsOutcome(request, world, old(store.State()), Outcome(Response(w.status, w.body), store.State(), err))
    {
      match request.verb
      case "GET" =>
        err := HandleGetPersons(w, request.query, world.select);
      case "POST" =>
        err := HandleAddPerson(w, request.person, world.apis, world.insert);
      case "DELETE" =>
        err := HandleDeletePersonById(w, request.id, world.exec);
      case "PATCH" =>
        err := HandleUpdatePerson(w, request.person, world.exec);
      case _ =>
        err := None;
    }

    method HandleGetPersons(w: ResponseWriter, query: Values, reply: QueryReply) returns (err: Option<Error>)
      requires w.status == None && w.body == []
      modifies w, store
      ensures Outcome(Response(w.status, w.body), store.State(), err) == GetPersonsEffect(query, reply, old(store.State()))
    {
      var params := ReadQueryParams(w, query);
      if params.Err? {
        return params.error.err;
      }
      var p := params.value;
      var persons, storeErr := store.GetPersons(p.gender, p.ageplus, p.ageminus, p.nationality, p.limit, p.offset, reply);
      if storeErr.Some? {
        return Some(Message(storeErr.value));
      }
      w.WriteHeader(StatusOK);
      w.Encode(persons.value);
      err := None;
    }

    method HandleAddPerson(w: ResponseWriter, body: Decode<Person>, apis: Enrichers, insert: InsertReply)
      returns (err: Option<Error>)
      requires w.status == None && w.body == []
      modifies w, store
      ensures AddPersonOutcome(body, apis, insert, old(store.State()), Outcome(Response(w.status, w.body), store.State(), err))
    {
      match body
      case DecodeFailed(e) =>
        return Some(Message(e));
      case Decoded(decoded) =>
        var req, fetchErr := FetchExternalApiData(decoded, apis);
        if fetchErr.Some? {
          return fetchErr;
        }
        var person := NewPerson(req.name, req.surname, req.patronymic, req.gender, req.nationality, req.age);
        assert person == Enriched(decoded, apis, req.nationality);
        var storeErr := store.AddPerson(person, insert);
        if storeErr.Some? {
          w.Error(storeErr.value, StatusBadRequest);
          return Some(Message(storeErr.value));
        }
        w.WriteHeader(StatusCreated);
        err := None;
    }

    method HandleUpdatePerson(w: ResponseWriter, body: Decode<Person>, exec: Option<string>)
      returns (err: Option<Error>)
      requires w.status == None && w.body == []
      modifies w, store
      ensures Outcome(Response(w.status, w.body), store.State(), err) == UpdatePersonEffect(body, exec, old(store.State()))
    {
      match body
      case DecodeFailed(e) =>
        return Some(Message(e));
      case Decoded(req) =>
        var storeErr := store.UpdatePerson(req.id, req, exec);
        if storeErr.Some? {
          w.Error(storeErr.value, StatusBadRequest);
          return Some(Message(storeErr.value));
        }
        w.WriteHeader(StatusCreated);
        err := None;
    }

    method HandleDeletePersonById(w: ResponseWriter, body: Decode<int64>, exec: Option<string>)
      returns (err: Option<Error>)
      requires w.status == None && w.body == []
      modifies w, store
      ensures Outcome(Response(w.status, w.body), store.State(), err) == DeletePersonEffect(body, exec, old(store.State()))
    {
      match body
      case DecodeFailed(e) =>
        return Some(Message(e));
      case Decoded(id) =>
        var storeErr := store.DeletePersonById(id, exec);
        if storeErr.Some? {
          w.Error(storeErr.value, StatusBadRequest);
          return Some(Message(storeErr.value));
        }
        w.WriteHeader(StatusCreated);
        err := None;
    }
  }

  // ---------------------------------------------------------------------------
  // Properties of the GET pipeline

  /** Every number %d prints is read back by the paging parameters, when it is in range. */
  lemma PagingReadsFormattedNumbers(n: int64)
    ensures n >= 1 ==> ParseLimit(FormatInt(n as int)) == Ok(n)
    ensures n >= -1 ==> ParseOffset(FormatInt(n as int)) == Ok(n)
    ensures n < 1 ==> ParseLimit(FormatInt(n as int)) == Err(Rejection(LimitMessage, None))
    ensures n < -1 ==> ParseOffset(FormatInt(n as int)) == Err(Rejection(OffsetMessage, None))
  {
    AtoiFormatInt(n);
    assert FormatInt(n as int) != "" by { assert |NatDigits(if n < 0 then -(n as int) else n as int)| > 0; }
  }

  /** A limit that parses but is below 1 is answered with 400, yet the handler
      returns the nil error of the parse, so nothing is logged. */
  lemma LimitOutOfRangeReturnsNil(query: Values, reply: QueryReply, db: DbState)
    requires Atoi(Get(query, "limit")).Ok? && Atoi(Get(query, "limit")).value < 1
    ensures GetPersonsEffect(query, reply, db) == Outcome(BadRequest(LimitMessage), db, None)
  {
    FirstRefusalWins(query);
  }

  /** "limit=0" is refused with that nil error. */
  lemma ZeroLimitRefused(reply: QueryReply, db: DbState)
    ensures GetPersonsEffect(map["limit" := ["0"]], reply, db) == Outcome(BadRequest(LimitMessage), db, None)
  {
    AtoiFormatInt(0);
    assert FormatInt(0) == "0";
    LimitOutOfRangeReturnsNil(map["limit" := ["0"]], reply, db);
  }

  /** An explicit "offset=-1" is accepted and behaves as an absent offset. */
  lemma OffsetMinusOneIsAbsent(query: Values, reply: QueryReply, db: DbState)
    ensures GetPersonsEffect(query["offset" := ["-1"]], reply, db) == GetPersonsEffect(query - {"offset"}, reply, db)
  {
    OffsetMinusOneParams(query);
  }

  lemma OffsetMinusOneParams(query: Values)
    ensures ReadGetParams(query["offset" := ["-1"]]) == ReadGetParams(query - {"offset"})
  {
    var with, without := query["offset" := ["-1"]], query - {"offset"};
    MinusOneParses();
    assert Get(with, "offset") == "-1" && Get(without, "offset") == "";
    forall name | name != "offset"
      ensures Get(with, name) == Get(without, name) && ReadFilter(with, name) == ReadFilter(without, name)
    {
    }
    FirstRefusalWins(with);
    FirstRefusalWins(without);
  }

  lemma MinusOneParses()
    ensures ParseOffset("-1") == ParseOffset("") == Ok(-1)
  {
    AtoiFormatInt(-1);
    assert FormatInt(-1) == "-1";
  }

  /** A refused GET writes 400 and leaves the database untouched; an accepted one
      sends exactly one select and changes no row.  A store error writes nothing and
      is returned; success writes 200 and the persons the store read. */
  lemma GetReachesStoreIffAccepted(query: Values, reply: QueryReply, db: DbState)
    ensures var out := GetPersonsEffect(query, reply, db);
            out.db.rows == db.rows &&
            (ReadGetParams(query).Err? <==> out.db == db) &&
            (ReadGetParams(query).Err? <==> out.response.status == Some(StatusBadRequest)) &&
            (ReadGetParams(query).Ok? ==>
               var p := ReadGetParams(query).value;
               out.db.statements ==
                 db.statements + [Select(QueryText(p.gender, p.ageplus, p.ageminus, p.nationality, p.limit, p.offset))]) &&
            (out.response.status == None <==> ReadGetParams(query).Ok? && ReadOutcome(reply).Err?) &&
            (out.response.status == Some(StatusOK) <==> out.err.None? && ReadGetParams(query).Ok?) &&
            (ReadGetParams(query).Ok? && ReadOutcome(reply).Ok? ==>
               out.response == Response(Some(StatusOK), [Json(ReadOutcome(reply).value)])) &&
            (ReadGetParams(query).Ok? && ReadOutcome(reply).Err? ==>
               out.response.body == [] && out.err == Some(Message(ReadOutcome(reply).error)))
  {
  }

  /** Two requests that agree on `limit` and are refused for it get the same answer,
      whatever their other parameters and whatever the database would have replied. */
  lemma BadLimitMasksTheRest(q1: Values, q2: Values, r1: QueryReply, r2: QueryReply, db: DbState)
    requires Get(q1, "limit") == Get(q2, "limit") && ParseLimit(Get(q1, "limit")).Err?
    ensures GetPersonsEffect(q1, r1, db) == GetPersonsEffect(q2, r2, db)
  {
    FirstRefusalWins(q1);
    FirstRefusalWins(q2);
  }

  /** The gender check looks for "male" anywhere and for digits, nothing else, so a
      quote passes it and reaches the query text inside the quoted condition. */
  lemma GenderQuoteReachesQuery(reply: QueryReply, db: DbState)
    ensures var gender := "male' or 'x' = 'x";
            GetPersonsEffect(map["gender" := [gender]], reply, db).db.statements ==
              db.statements + [Select(QueryText(gender, "", "", "", -1, -1))] &&
            GenderCondition(gender) == "gender = 'male' or 'x' = 'x'"
  {
    var gender := "male' or 'x' = 'x";
    var query := map["gender" := [gender]];
    QuotedGenderPasses();
    assert Get(query, "gender") == gender;
    FirstRefusalWins(query);
    assert ReadGetParams(query) == Ok(GetParams(-1, -1, gender, "", "", ""));
    QuotedGenderCondition();
  }

  lemma QuotedGenderPasses()
    ensures ValidateAndReturnFilter("gender", "male' or 'x' = 'x").err.None?
  {
    var gender := "male' or 'x' = 'x";
    assert OccursAt(gender, "male", 0) by { assert gender[..4] == "male"; }
    forall i | 0 <= i < |gender| ensures !IsDigit(gender[i]) {
    }
  }

  lemma QuotedGenderCondition()
    ensures GenderCondition("male' or 'x' = 'x") == "gender = 'male' or 'x' = 'x'"
  {
    assert "gender = '" + "male' or 'x' = 'x" == "gender = 'male' or 'x' = 'x";
  }

  // ---------------------------------------------------------------------------
  // Properties of the write handlers

  /** POST: a body that does not decode or a failed lookup leaves the status
      unwritten and the database as it was; otherwise the answer is 201 exactly
      when the handler returns no error and 400 when the store failed. */
  lemma AddPersonStatuses(body: Decode<Person>, apis: Enrichers, insert: InsertReply, db: DbState, out: Outcome)
    requires AddPersonOutcome(body, apis, insert, db, out)
    ensures out.response.status == None <==> body.DecodeFailed? || EnrichmentError(body.value.name, apis).Some?
    ensures out.response.status == None ==> out.db == db && out.err.Some?
    ensures out.response.status == Some(StatusCreated) <==> out.err.None?
    ensures out.response.status in {None, Some(StatusCreated), Some(StatusBadRequest)}
    ensures body.Decoded? && EnrichmentError(body.value.name, apis).None? &&
            body.value.name != "" && body.value.surname != "" && insert.InsertFailed? ==>
              out.response == BadRequest(insert.msg) && out.err == Some(Message(insert.msg)) && out.db.rows == db.rows
  {
    if body.Decoded? && EnrichmentError(body.value.name, apis).None? {
      var req := body.value;
      var nationality :| IsMostProbable(Countries(apis.nationality(req.name)), nationality) &&
        out == StoreOutcome(AddPersonSpec(db, Enriched(req, apis, nationality), insert));
    }
  }

  /** POST of a record without a name or a surname, once the lookups succeed, answers
      201 and changes nothing: the store skips the insert and reports success. */
  lemma AddWithoutNameAnswersCreated(req: Person, apis: Enrichers, insert: InsertReply, db: DbState, out: Outcome)
    requires req.name == "" || req.surname == ""
    requires EnrichmentError(req.name, apis).None?
    requires AddPersonOutcome(Decoded(req), apis, insert, db, out)
    ensures out == Outcome(Response(Some(StatusCreated), []), db, None)
  {
    var nationality :| IsMostProbable(Countries(apis.nationality(req.name)), nationality) &&
      out == StoreOutcome(AddPersonSpec(db, Enriched(req, apis, nationality), insert));
    WritesSkipWithoutNameOrSurname(db, 0, Enriched(req, apis, nationality), insert, None);
  }

  /** A client-supplied id plays no part in what POST does. */
  lemma AddIgnoresClientId(req: Person, other: int64, apis: Enrichers, insert: InsertReply, db: DbState, out: Outcome)
    ensures AddPersonOutcome(Decoded(req), apis, insert, db, out) <==>
            AddPersonOutcome(Decoded(req.(id := other)), apis, insert, db, out)
  {
    forall nationality | EnrichmentError(req.name, apis).None?
      ensures Enriched(req, apis, nationality) == Enriched(req.(id := other), apis, nationality)
    {
    }
  }

  /** A successful POST of a named record inserts the enriched fields, with the looked-up
      age and gender and a most probable nationality. */
  lemma AddInsertsEnrichedRecord(req: Person, apis: Enrichers, id: int64, db: DbState, out: Outcome)
    requires req.name != "" && req.surname != ""
    requires AddPersonOutcome(Decoded(req), apis, Inserted(id), db, out)
    requires out.err.None?
    ensures GetAge(apis.age(req.name)).Ok? && GetGender(apis.gender(req.name)).Ok?
    ensures exists nationality ::
              IsMostProbable(Countries(apis.nationality(req.name)), nationality) &&
              out.db.statements == db.statements + [Insert(req.name, req.surname, req.patronymic,
                GetAge(apis.age(req.name)).value, GetGender(apis.gender(req.name)).value, nationality)] &&
              id in out.db.rows && out.db.rows[id] == Enriched(req, apis, nationality).(id := id)
  {
    var nationality :| IsMostProbable(Countries(apis.nationality(req.name)), nationality) &&
      out == StoreOutcome(AddPersonSpec(db, Enriched(req, apis, nationality), Inserted(id)));
    assert IsMostProbable(Countries(apis.nationality(req.name)), nationality) &&
           out.db.statements == db.statements + [Insert(req.name, req.surname, req.patronymic,
             GetAge(apis.age(req.name)).value, GetGender(apis.gender(req.name)).value, nationality)];
  }

  /** PATCH and DELETE: a body that does not decode leaves the status unwritten and the
      database as it was; a store error is answered 400, success 201. */
  lemma UpdateAndDeleteStatuses(person: Decode<Person>, id: Decode<int64>, exec: Option<string>, db: DbState)
    ensures var out := UpdatePersonEffect(person, exec, db);
            (out.response.status == None <==> person.DecodeFailed?) &&
            (out.response.status == None ==> out.db == db) &&
            (out.response.status == Some(StatusBadRequest) <==> person.Decoded? && out.err.Some?) &&
            (out.response.status == Some(StatusCreated) <==> out.err.None?)
    ensures var out := UpdatePersonEffect(person, exec, db);
            person.Decoded? && person.value.name != "" && person.value.surname != "" && exec.Some? ==>
              out.response == BadRequest(exec.value) && out.err == Some(Message(exec.value)) && out.db.rows == db.rows
    ensures var out := DeletePersonEffect(id, exec, db);
            (out.response.status == None <==> id.DecodeFailed?) &&
            (out.response.status == None ==> out.db == db) &&
            (out.response.status == Some(StatusBadRequest) <==> id.Decoded? && exec.Some?) &&
            (out.response.status == Some(StatusCreated) <==> out.err.None?)
    ensures var out := DeletePersonEffect(id, exec, db);
            id.Decoded? && exec.Some? ==>
              out.response == BadRequest(exec.value) && out.err == Some(Message(exec.value)) && out.db.rows == db.rows
  {
  }

  /** PATCH writes the row named by the id in the body. */
  lemma PatchKeyedByBodyId(req: Person, db: DbState)
    requires req.name != "" && req.surname != "" && req.id in db.rows
    ensures var out := UpdatePersonEffect(Decoded(req), None, db);
            out.response.status == Some(StatusCreated) && out.db.rows == db.rows[req.id := req]
  {
  }

  /** PATCH of an id that is not in the table answers 201 and changes no row. */
  lemma PatchUnknownIdAnswersCreated(req: Person, db: DbState)
    requires req.id !in db.rows
    ensures var out := UpdatePersonEffect(Decoded(req), None, db);
            out.response.status == Some(StatusCreated) && out.db.rows == db.rows && out.err.None?
  {
  }

  /** DELETE of an id that is not in the table answers 201 and changes no row. */
  lemma DeleteUnknownIdAnswersCreated(id: int64, db: DbState)
    requires id !in db.rows
    ensures var out := DeletePersonEffect(Decoded(id), None, db);
            out.response.status == Some(StatusCreated) && out.db.rows == db.rows && out.err.None?
  {
    DeleteUnknownId(db, id);
  }

  /** A method other than GET, POST, DELETE and PATCH writes nothing, touches no store
      and returns no error. */
  lemma OtherMethodsDoNothing(request: Request, world: World, db: DbState, out: Outcome)
    requires request.verb !in {"GET", "POST", "DELETE", "PATCH"}
    ensures PersonsOutcome(request, world, db, out) <==> out == Outcome(NoResponse, db, None)
  {
  }
}
