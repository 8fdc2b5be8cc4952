/** The repository package: the text of the filtered read query, and the
    Postgres store whose writes skip records without a name or a surname.  The
    database is an abstract table (rows keyed by id) plus the list of statements
    the driver has received; what the driver answers is given to each operation. */
module Storage {
  import opened Base
  import opened Types
  import opened Strconv

  // ---------------------------------------------------------------------------
  // The read query

  const SelectAll := "select * from persons"
  const OrderById := " order by id asc"

  function GenderCondition(gender: string): string { "gender = '" + gender + "'" }
  function AgeAboveCondition(ageplus: string): string { "age > " + ageplus }
  function AgeBelowCondition(ageminus: string): string { "age < " + ageminus }
  function NationalityCondition(nationality: string): string { "nationality = '" + nationality + "'" }

  /** One SQL condition per non-empty filter, in the order gender, ageplus, ageminus,
      nationality.  Gender and nationality are quoted, the ages are inserted bare. */
  function Predicates(gender: string, ageplus: string, ageminus: string, nationality: string): seq<string>
  {
    (if gender != "" then [GenderCondition(gender)] else []) +
    (if ageplus != "" then [AgeAboveCondition(ageplus)] else []) +
    (if ageminus != "" then [AgeBelowCondition(ageminus)] else []) +
    (if nationality != "" then [NationalityCondition(nationality)] else [])
  }

  /** The conditions joined by " and ". */
  function Join(conditions: seq<string>): string
    requires conditions != []
  {
    if |conditions| == 1 then conditions[0] else conditions[0] + " and " + Join(conditions[1..])
  }

  /** " where " and the joined conditions, or nothing when there are none. */
  function WhereClause(conditions: seq<string>): string
  {
    if conditions == [] then "" else " where " + Join(conditions)
  }

  /** The limit clause, present only when the limit is not the sentinel -1. */
  function LimitClause(limit: int64): string
  {
    if limit != -1 then " limit " + FormatInt(limit as int) + " " else ""
  }

  /** The offset clause, present only when the offset is not the sentinel -1. */
  function OffsetClause(offset: int64): string
  {
    if offset != -1 then " offset " + FormatInt(offset as int) + " " else ""
  }

  /** What follows the conditions: the order by id, then limit and offset. */
  function Tail(limit: int64, offset: int64): string
  {
    OrderById + LimitClause(limit) + OffsetClause(offset)
  }

  /** The read query: the table, the conditions, then the tail. */
  function QueryText(gender: string, ageplus: string, ageminus: string, nationality: string,
                     limit: int64, offset: int64): string
  {
    SelectAll + WhereClause(Predicates(gender, ageplus, ageminus, nationality)) + Tail(limit, offset)
  }

  lemma {:induction false} JoinSnoc(conditions: seq<string>, c: string)
    requires conditions != []
    ensures Join(conditions + [c]) == Join(conditions) + " and " + c
  {
    if |conditions| == 1 {
      assert (conditions + [c])[1..] == [c];
    } else {
      assert (conditions + [c])[1..] == conditions[1..] + [c];
      JoinSnoc(conditions[1..], c);
    }
  }

  /** Adding a condition at the end: the first one is introduced by " where ",
      every later one by " and ". */
  lemma WhereClauseSnoc(conditions: seq<string>, c: string)
    ensures WhereClause(conditions + [c]) ==
            WhereClause(conditions) + (if conditions == [] then " where " else " and ") + c
  {
    if conditions == [] {
      assert conditions + [c] == [c];
    } else {
      JoinSnoc(conditions, c);
    }
  }

  /** One step of the builder: appending " where " or " and " and a condition to a
      query that holds the conditions so far. */
  lemma AppendCondition(query: string, conditions: seq<string>, c: string)
    requires query == SelectAll + WhereClause(conditions)
    ensures query + (if conditions == [] then " where " else " and ") + c ==
            SelectAll + WhereClause(conditions + [c])
  {
    WhereClauseSnoc(conditions, c);
  }

  /** generateQueryStringWithFilters, with its "already have a where" flag: the text
      it builds is the read query above. */
  method GenerateQueryStringWithFilters(gender: string, ageplus: string, ageminus: string,
                                        nationality: string, limit: int64, offset: int64)
    returns (query: string)
    ensures query == QueryText(gender, ageplus, ageminus, nationality, limit, offset)
  {
    var hasClause := false;
    query := SelectAll;
    ghost var conditions: seq<string> := [];
    assert query == SelectAll + WhereClause(conditions);
    if gender != "" {
      AppendCondition(query, conditions, GenderCondition(gender));
      query := query + " where " + GenderCondition(gender);
      conditions := conditions + [GenderCondition(gender)];
      hasClause := true;
    }
    assert query == SelectAll + WhereClause(conditions) && hasClause == (conditions != []);
    assert conditions == Predicates(gender, "", "", "");
    if ageplus != "" && !hasClause {
      AppendCondition(query, conditions, AgeAboveCondition(ageplus));
      query := query + " where " + AgeAboveCondition(ageplus);
      conditions := conditions + [AgeAboveCondition(ageplus)];
      hasClause := true;
    } else if ageplus != "" {
      AppendCondition(query, conditions, AgeAboveCondition(ageplus));
      query := query + " and " + AgeAboveCondition(ageplus);
      conditions := conditions + [AgeAboveCondition(ageplus)];
    }
    assert query == SelectAll + WhereClause(conditions) && hasClause == (conditions != []);
    assert conditions == Predicates(gender, ageplus, "", "");
    if ageminus != "" && !hasClause {
      AppendCondition(query, conditions, AgeBelowCondition(ageminus));
      query := query + " where " + AgeBelowCondition(ageminus);
      conditions := conditions + [AgeBelowCondition(ageminus)];
      hasClause := true;
    } else if ageminus != "" {
      AppendCondition(query, conditions, AgeBelowCondition(ageminus));
      query := query + " and " + AgeBelowCondition(ageminus);
      conditions := conditions + [AgeBelowCondition(ageminus)];
    }
    assert query == SelectAll + WhereClause(conditions) && hasClause == (conditions != []);
    assert conditions == Predicates(gender, ageplus, ageminus, "");
    if nationality != "" && !hasClause {
      AppendCondition(query, conditions, NationalityCondition(nationality));
      query := query + " where " + NationalityCondition(nationality);
      conditions := conditions + [NationalityCondition(nationality)];
      hasClause := true;
    } else if nationality != "" {
      AppendCondition(query, conditions, NationalityCondition(nationality));
      query := query + " and " + NationalityCondition(nationality);
      conditions := conditions + [NationalityCondition(nationality)];
    }
    assert query == SelectAll + WhereClause(conditions);
    assert conditions == Predicates(gender, ageplus, ageminus, nationality);

    AppendTail(query, limit, offset);
    query := query + OrderById;
    if limit != -1 {
      query := query + LimitClause(limit);
    }
    if offset != -1 {
      query := query + OffsetClause(offset);
    }
  }

  /** The last three steps of the builder append the tail. */
  lemma AppendTail(head: string, limit: int64, offset: int64)
    ensures var ordered := head + OrderById;
            var limited := if limit != -1 then ordered + LimitClause(limit) else ordered;
            (if offset != -1 then limited + OffsetClause(offset) else limited) == head + Tail(limit, offset)
  {
    var l, o := LimitClause(limit), OffsetClause(offset);
    assert limit == -1 ==> l == [];
    assert offset == -1 ==> o == [];
    Associative(head, OrderById, l, o);
  }

  lemma Associative(h: string, a: string, b: string, c: string)
    ensures h + a + b + c == h + (a + b + c)
    ensures b == [] ==> h + a == h + a + b && a + b == a
    ensures c == [] ==> h + a + b == h + a + b + c && a + b == a + b + c
  {
  }

  /** Without filters and pagination the query is the bare ordered select. */
  lemma QueryWithoutFilters()
    ensures QueryText("", "", "", "", -1, -1) == "select * from persons order by id asc"
  {
    assert Predicates("", "", "", "") == [];
    assert QueryText("", "", "", "", -1, -1) == SelectAll + OrderById;
  }

  predicate StartsWith(s: string, prefix: string)
  {
    |prefix| <= |s| && s[..|prefix|] == prefix
  }

  lemma StartsWithAppend(s: string, prefix: string, t: string)
    requires StartsWith(s, prefix)
    ensures StartsWith(s + t, prefix)
  {
    assert (s + t)[..|prefix|] == s[..|prefix|];
  }

  /** A select followed by a where clause and a tail that opens with the order by
      starts with "select * from persons where " exactly when there are conditions. */
  lemma WherePrefix(conditions: seq<string>, tail: string)
    requires StartsWith(tail, OrderById)
    ensures StartsWith(SelectAll + WhereClause(conditions) + tail, SelectAll + " where ") <==> conditions != []
  {
    var q := SelectAll + WhereClause(conditions) + tail;
    if conditions == [] {
      assert q == SelectAll + tail;
      assert q[22] == tail[1] == OrderById[1] == 'o';
      assert (SelectAll + " where ")[22] == 'w';
    } else {
      var head := SelectAll + WhereClause(conditions);
      assert head == (SelectAll + " where ") + Join(conditions);
      StartsWithAppend(SelectAll + " where ", SelectAll + " where ", Join(conditions));
      StartsWithAppend(head, SelectAll + " where ", tail);
    }
  }

  lemma TailStartsWithOrderBy(limit: int64, offset: int64)
    ensures StartsWith(Tail(limit, offset), OrderById)
  {
    StartsWithAppend(OrderById, OrderById, LimitClause(limit));
    StartsWithAppend(OrderById + LimitClause(limit), OrderById, OffsetClause(offset));
  }

  /** The query has a where clause exactly when some filter is non-empty. */
  lemma QueryHasWhereIffFiltered(gender: string, ageplus: string, ageminus: string, nationality: string,
                                 limit: int64, offset: int64)
    ensures StartsWith(QueryText(gender, ageplus, ageminus, nationality, limit, offset), SelectAll + " where ")
        <==> gender != "" || ageplus != "" || ageminus != "" || nationality != ""
  {
    TailStartsWithOrderBy(limit, offset);
    WherePrefix(Predicates(gender, ageplus, ageminus, nationality), Tail(limit, offset));
  }

  function NonEmptyCount(values: seq<string>): nat
  {
    if values == [] then 0 else (if values[0] != "" then 1 else 0) + NonEmptyCount(values[1..])
  }

  /** One condition per non-empty filter. */
  lemma PredicateCount(gender: string, ageplus: string, ageminus: string, nationality: string)
    ensures |Predicates(gender, ageplus, ageminus, nationality)| == NonEmptyCount([gender, ageplus, ageminus, nationality])
  {
    assert [gender, ageplus, ageminus, nationality][1..] == [ageplus, ageminus, nationality];
    assert [ageplus, ageminus, nationality][1..] == [ageminus, nationality];
    assert [ageminus, nationality][1..] == [nationality];
    assert [nationality][1..] == [];
    assert NonEmptyCount([nationality]) == if nationality != "" then 1 else 0;
    assert NonEmptyCount([ageminus, nationality]) == (if ageminus != "" then 1 else 0) + NonEmptyCount([nationality]);
    assert NonEmptyCount([ageplus, ageminus, nationality]) ==
           (if ageplus != "" then 1 else 0) + NonEmptyCount([ageminus, nationality]);
  }

  /** gender=male&ageplus=20: the two conditions, joined by "and", before the order by. */
  lemma GenderAndAgeplusQuery()
    ensures QueryText("male", "20", "", "", -1, -1) ==
            "select * from persons where gender = 'male' and age > 20 order by id asc"
  {
    var conditions := [GenderCondition("male"), AgeAboveCondition("20")];
    assert Predicates("male", "20", "", "") == conditions;
    assert conditions[1..] == [AgeAboveCondition("20")];
    assert Tail(-1, -1) == OrderById;
    Associative(SelectAll, " where ", GenderCondition("male"), " and " + AgeAboveCondition("20"));
    GenderAndAgeplusText();
  }

  lemma GenderAndAgeplusText()
    ensures SelectAll + " where " + (GenderCondition("male") + " and " + AgeAboveCondition("20")) + OrderById ==
            "select * from persons where gender = 'male' and age > 20 order by id asc"
  {
    GenderAndAgeplusConditions();
    GenderAndAgeplusWhere();
    GenderAndAgeplusOrdered();
  }

  lemma GenderAndAgeplusConditions()
    ensures GenderCondition("male") + " and " + AgeAboveCondition("20") == "gender = 'male' and age > 20"
  {
    assert GenderCondition("male") == "gender = 'male'";
    assert "gender = 'male'" + " and " == "gender = 'male' and ";
    assert AgeAboveCondition("20") == "age > 20";
  }

  lemma GenderAndAgeplusWhere()
    ensures SelectAll + " where " + "gender = 'male' and age > 20" ==
            "select * from persons where gender = 'male' and age > 20"
  {
    assert SelectAll + " where " == "select * from persons where ";
  }

  lemma GenderAndAgeplusOrdered()
    ensures "select * from persons where gender = 'male' and age > 20" + OrderById ==
            "select * from persons where gender = 'male' and age > 20 order by id asc"
  {
  }

  /** limit=10&offset=5 without filters: limit, then offset, after the order by. */
  lemma LimitOffsetQuery()
    ensures QueryText("", "", "", "", 10, 5) == "select * from persons order by id asc limit 10  offset 5 "
  {
    assert Predicates("", "", "", "") == [];
    assert SelectAll + WhereClause([]) == SelectAll;
    assert LimitClause(10) == " limit 10 " && OffsetClause(5) == " offset 5 " by {
      assert FormatInt(10) == "10" by {
        assert NatDigits(10) == NatDigits(1) + [DigitChar(0)];
      }
      assert FormatInt(5) == "5";
    }
    Associative(SelectAll, OrderById, " limit 10 ", " offset 5 ");
    var ordered := "select * from persons order by id asc";
    assert SelectAll + OrderById == ordered;
    assert ordered + " limit 10 " == "select * from persons order by id asc limit 10 ";
    assert "select * from persons order by id asc limit 10 " + " offset 5 " ==
           "select * from persons order by id asc limit 10  offset 5 ";
  }

  // ---------------------------------------------------------------------------
  // The store

  /** The statements the store sends to the database, with their parameters. */
  datatype Statement =
    | Select(sql: string)
    | Insert(name: string, surname: string, patronymic: string, age: int64, gender: string, nationality: string)
    | Update(name: string, surname: string, patronymic: string, age: int64, gender: string, nationality: string,
             id: int64)
    | Delete(id: int64)

  /** The persons table, keyed by id, and every statement the database has received. */
  datatype DbState = DbState(rows: map<int64, Person>, statements: seq<Statement>)

  /** Every row sits under its own id. */
  predicate KeyedById(rows: map<int64, Person>)
  {
    forall id :: id in rows ==> rows[id].id == id
  }

  /** The database's answer to an insert: an error, or the id it gave the new row. */
  datatype InsertReply = InsertFailed(msg: string) | Inserted(id: int64)

  /** One row as rows.Scan reads it: a person, or a scan error. */
  datatype Scan = Scanned(person: Person) | ScanFailed(msg: string)

  /** The database's answer to a select: an error, or the rows it returns in order. */
  datatype QueryReply = QueryFailed(msg: string) | Rows(scans: seq<Scan>)

  /** The database after a write, and the error the store returns. */
  datatype Written = Written(db: DbState, err: Option<string>)

  /** AddPerson: with a name and a surname, sends the insert of the six non-id fields
      and stores them under the id the database chose, or returns the database's
      error; without a name or a surname, sends nothing and returns no error. */
  function AddPersonSpec(db: DbState, person: Person, reply: InsertReply): (r: Written)
    ensures KeyedById(db.rows) ==> KeyedById(r.db.rows)
    ensures person.name != "" && person.surname != "" ==>
              (reply.InsertFailed? ==> r.err == Some(reply.msg) && r.db.rows == db.rows) &&
              (reply.Inserted? ==> r.err.None? && r.db.rows.Keys == db.rows.Keys + {reply.id} &&
                                   reply.id in r.db.rows && r.db.rows[reply.id] == person.(id := reply.id) &&
                                   forall k :: k in db.rows && k != reply.id ==> k in r.db.rows && r.db.rows[k] == db.rows[k])
    ensures person.name == "" || person.surname == "" ==> r.db == db && r.err.None?
  {
    if person.name != "" && person.surname != "" then
      var sent := db.(statements := db.statements +
        [Insert(person.name, person.surname, person.patronymic, person.age, person.gender, person.nationality)]);
      match reply
      case InsertFailed(msg) => Written(sent, Some(msg))
      case Inserted(id) => Written(sent.(rows := db.rows[id := person.(id := id)]), None)
    else Written(db, None)
  }

  /** UpdatePerson: the same guard; otherwise sends the update of all six columns of
      the row with the given id (not person.id), which changes that row if it exists. */
  function UpdatePersonSpec(db: DbState, id: int64, person: Person, reply: Option<string>): (r: Written)
    ensures KeyedById(db.rows) ==> KeyedById(r.db.rows)
    ensures r.db.rows.Keys == db.rows.Keys
    ensures person.name != "" && person.surname != "" ==> r.err == reply
    ensures person.name != "" && person.surname != "" && reply.None? && id in db.rows ==>
              r.db.rows[id] == person.(id := id)
    ensures forall k :: k in db.rows && (k != id || r.err.Some?) ==> r.db.rows[k] == db.rows[k]
    ensures person.name == "" || person.surname == "" ==> r.db == db && r.err.None?
  {
    if person.name != "" && person.surname != "" then
      var sent := db.(statements := db.statements +
        [Update(person.name, person.surname, person.patronymic, person.age, person.gender, person.nationality, id)]);
      match reply
      case Some(msg) => Written(sent, Some(msg))
      case None =>
        Written(sent.(rows := if id in db.rows then db.rows[id := person.(id := id)] else db.rows), None)
    else Written(db, None)
  }

  /** DeletePersonById: no guard; sends the delete for any id and, unless the
      database answers an error, the row with that id, if any, is gone. */
  function DeletePersonSpec(db: DbState, id: int64, reply: Option<string>): (r: Written)
    ensures KeyedById(db.rows) ==> KeyedById(r.db.rows)
    ensures r.err == reply
    ensures r.err.None? ==> r.db.rows.Keys == db.rows.Keys - {id}
    ensures r.err.None? ==> forall k :: k in db.rows && k != id ==> k in r.db.rows && r.db.rows[k] == db.rows[k]
    ensures r.err.Some? ==> r.db.rows == db.rows
  {
    var sent := db.(statements := db.statements + [Delete(id)]);
    match reply
    case Some(msg) => Written(sent, Some(msg))
    case None => Written(sent.(rows := db.rows - {id}), None)
  }

  /** The persons of the scanned rows, in row order, or the first scan error. */
  function ScanOutcome(scans: seq<Scan>): Result<seq<Person>, string>
  {
    if scans == [] then Ok([])
    else match ScanOutcome(scans[..|scans| - 1])
      case Err(msg) => Err(msg)
      case Ok(persons) =>
        match scans[|scans| - 1]
        case Scanned(p) => Ok(persons + [p])
        case ScanFailed(msg) => Err(msg)
  }

  /** Without a scan error the outcome is every row's person, in row order. */
  lemma {:induction false} ScanOutcomeOk(scans: seq<Scan>)
    ensures ScanOutcome(scans).Ok? <==> forall i :: 0 <= i < |scans| ==> scans[i].Scanned?
    ensures ScanOutcome(scans).Ok? ==>
              |ScanOutcome(scans).value| == |scans| &&
              forall i :: 0 <= i < |scans| ==> ScanOutcome(scans).value[i] == scans[i].person
  {
    if scans != [] {
      var init := scans[..|scans| - 1];
      ScanOutcomeOk(init);
      assert forall i :: 0 <= i < |init| ==> scans[i] == init[i];
    }
  }

  /** A scan error is reported as the first failing row's error. */
  lemma {:induction false} ScanOutcomeErr(scans: seq<Scan>)
    ensures ScanOutcome(scans).Err? ==>
              exists i :: 0 <= i < |scans| && scans[i] == ScanFailed(ScanOutcome(scans).error) &&
                forall k :: 0 <= k < i ==> scans[k].Scanned?
  {
    if scans != [] {
      var init := scans[..|scans| - 1];
      ScanOutcomeErr(init);
      ScanOutcomeOk(init);
      assert forall i :: 0 <= i < |init| ==> scans[i] == init[i];
      if ScanOutcome(init).Err? {
        var i :| 0 <= i < |init| && init[i] == ScanFailed(ScanOutcome(init).error) &&
          forall k :: 0 <= k < i ==> init[k].Scanned?;
        assert scans[i] == init[i];
      } else if ScanOutcome(scans).Err? {
        assert scans[|scans| - 1] == ScanFailed(ScanOutcome(scans).error);
      }
    }
  }

  /** The loop of GetPersons over rows.Next: appends each scanned person and stops at
      the first scan error, dropping what it had (a nil list and the error). */
  method ScanRows(scans: seq<Scan>) returns (persons: Option<seq<Person>>, err: Option<string>)
    ensures ScanOutcome(scans).Ok? ==> persons == Some(ScanOutcome(scans).value) && err == None
    ensures ScanOutcome(scans).Err? ==> persons == None && err == Some(ScanOutcome(scans).error)
  {
    var acc: seq<Person> := [];
    var i := 0;
    while i < |scans|
      invariant 0 <= i <= |scans|
      invariant ScanOutcome(scans[..i]) == Ok(acc)
    {
      assert scans[..i + 1][..i] == scans[..i];
      match scans[i]
      case ScanFailed(msg) =>
        PrefixErrStaysErr(scans, i + 1);
        return None, Some(msg);
      case Scanned(p) =>
        acc := acc + [p];
      i := i + 1;
    }
    assert scans[..i] == scans;
    persons, err := Some(acc), None;
  }

  /** Once a prefix fails to scan, the whole list fails with the same error. */
  lemma {:induction false} PrefixErrStaysErr(scans: seq<Scan>, n: nat)
    requires n <= |scans| && ScanOutcome(scans[..n]).Err?
    ensures ScanOutcome(scans) == ScanOutcome(scans[..n])
    decreases |scans| - n
  {
    if n == |scans| {
      assert scans[..n] == scans;
    } else {
      assert scans[..n + 1][..n] == scans[..n];
      PrefixErrStaysErr(scans, n + 1);
    }
  }

  /** The answer GetPersons returns for the database's reply to its select. */
  function ReadOutcome(reply: QueryReply): Result<seq<Person>, string>
  {
    match reply
    case QueryFailed(msg) => Err(msg)
    case Rows(scans) => ScanOutcome(scans)
  }

  /** PostgresStore with the database it is connected to. */
  class PostgresStore {
    var rows: map<int64, Person>
    var statements: seq<Statement>

    function State(): DbState
      reads this
    {
      DbState(rows, statements)
    }

    /** A store connected to a database holding `rows` that has received nothing yet. */
    constructor (rows: map<int64, Person>)
      ensures State() == DbState(rows, [])
    {
      this.rows := rows;
      statements := [];
    }

    /** GetPersons: sends the read query built from the filters, then answers the
        scanned persons (an empty, non-nil list when there are no rows) or the first
        query or scan error with a nil list.  The table is not changed. */
    method GetPersons(gender: string, ageplus: string, ageminus: string, nationality: string,
                      limit: int64, offset: int64, reply: QueryReply)
      returns (persons: Option<seq<Person>>, err: Option<string>)
      modifies this
      ensures State() == old(State()).(statements := old(statements) +
                [Select(QueryText(gender, ageplus, ageminus, nationality, limit, offset))])
      ensures ReadOutcome(reply).Ok? ==> persons == Some(ReadOutcome(reply).value) && err == None
      ensures ReadOutcome(reply).Err? ==> persons == None && err == Some(ReadOutcome(reply).error)
    {
      var query := GenerateQueryStringWithFilters(gender, ageplus, ageminus, nationality, limit, offset);
      statements := statements + [Select(query)];
      match reply
      case QueryFailed(msg) =>
        persons, err := None, Some(msg);
      case Rows(scans) =>
        persons, err := ScanRows(scans);
    }

    method AddPerson(person: Person, reply: InsertReply) returns (err: Option<string>)
      modifies this
      ensures Written(State(), err) == AddPersonSpec(old(State()), person, reply)
    {
      err := None;
      if person.name != "" && person.surname != "" {
        statements := statements +
          [Insert(person.name, person.surname, person.patronymic, person.age, person.gender, person.nationality)];
        match reply
        case InsertFailed(msg) =>
          err := Some(msg);
        case Inserted(id) =>
          rows := rows[id := person.(id := id)];
      }
    }

    method UpdatePerson(id: int64, person: Person, reply: Option<string>) returns (err: Option<string>)
      modifies this
      ensures Written(State(), err) == UpdatePersonSpec(old(State()), id, person, reply)
    {
      err := None;
      if person.name != "" && person.surname != "" {
        statements := statements +
          [Update(person.name, person.surname, person.patronymic, person.age, person.gender, person.nationality, id)];
        match reply
        case Some(msg) =>
          err := Some(msg);
        case None =>
          if id in rows {
            rows := rows[id := person.(id := id)];
          }
      }
    }

    method DeletePersonById(id: int64, reply: Option<string>) returns (err: Option<string>)
      modifies this
      ensures Written(State(), err) == DeletePersonSpec(old(State()), id, reply)
    {
      statements := statements + [Delete(id)];
      err := reply;
      if err.None? {
        rows := rows - {id};
      }
    }
  }

  // ---------------------------------------------------------------------------
  // Properties of the writes

  /** A record without a name or a surname changes nothing and is reported as success. */
  lemma WritesSkipWithoutNameOrSurname(db: DbState, id: int64, person: Person,
                                       insert: InsertReply, update: Option<string>)
    requires person.name == "" || person.surname == ""
    ensures AddPersonSpec(db, person, insert) == Written(db, None)
    ensures UpdatePersonSpec(db, id, person, update) == Written(db, None)
  {
  }

  /** Deleting the row an insert just created under a fresh id gives back the table. */
  lemma DeleteUndoesAdd(db: DbState, person: Person, id: int64)
    requires person.name != "" && person.surname != "" && id !in db.rows
    ensures DeletePersonSpec(AddPersonSpec(db, person, Inserted(id)).db, id, None).db.rows == db.rows
  {
    assert (db.rows[id := person.(id := id)]) - {id} == db.rows;
  }

  /** The update is keyed by its id argument: the id inside the record plays no part. */
  lemma UpdateIgnoresRecordId(db: DbState, id: int64, person: Person, other: int64, reply: Option<string>)
    ensures UpdatePersonSpec(db, id, person, reply) == UpdatePersonSpec(db, id, person.(id := other), reply)
  {
  }

  /** Repeating a successful update leaves the table as the first one left it. */
  lemma UpdateIdempotent(db: DbState, id: int64, person: Person)
    ensures var once := UpdatePersonSpec(db, id, person, None).db;
            UpdatePersonSpec(once, id, person, None).db.rows == once.rows
  {
  }

  /** Deleting an id that is not in the table succeeds and leaves the table alone. */
  lemma DeleteUnknownId(db: DbState, id: int64)
    requires id !in db.rows
    ensures DeletePersonSpec(db, id, None) ==
            Written(db.(statements := db.statements + [Delete(id)]), None)
  {
    assert db.rows - {id} == db.rows;
  }
}
