/** The one-time seeding of an empty store from the JSON asset
    `/scripts/db.json`: the checks `checkAndPopulateDatabase` makes on the
    fetched document, and the store it leaves behind. */
module Seeding {
  import opened Wrappers
  import opened LyricsStore

  /** The `rows` member of a table: falsy (absent, null, ...), present but
      not an array, or an array of rows. */
  datatype RowsValue = Missing | NotAnArray | Rows(items: seq<Row>)

  /** One entry of the document's table list. */
  datatype SeedTable = SeedTable(tableName: Option<string>, rows: RowsValue)

  /** `data?.data?.data`: undefined somewhere along the path, a value without
      a `find` method, or the array of tables. */
  datatype TableList = Absent | NotAList | Tables(tables: seq<SeedTable>)

  /** The body of the response: not JSON, or the table list it holds. */
  datatype Body = Unparsable | Json(data: TableList)

  /** What `fetch('/scripts/db.json')` produced: a rejected promise, or a
      response with its HTTP status and body. */
  datatype Fetched = NetworkError | Response(status: int, body: Body)

  /** The errors thrown inside the `try` block, each caught and logged. */
  datatype SeedError =
    | StoreUnavailable     // `count()` threw
    | NetworkFailure       // `fetch` rejected
    | HttpStatus(status: int)  // `!response.ok`
    | BadJson              // `response.json()` rejected
    | NotATableList        // `find` is not a function
    | TableNotFound        // no table named 'lyrics'
    | NoData               // `rows` falsy, not an array, or empty

  datatype SeedOutcome = AlreadyPopulated(count: nat) | Populated(count: nat) | Aborted(error: SeedError)

  /** The store after a seeding attempt, and how the attempt ended. */
  datatype SeedStep = SeedStep(records: seq<Record>, lastId: nat, outcome: SeedOutcome)

  const LyricsTableName := "lyrics"

  /** `response.ok`: a status in the range 200-299. */
  predicate IsOk(status: int)
  {
    200 <= status <= 299
  }

  predicate IsLyrics(t: SeedTable)
  {
    t.tableName == Some(LyricsTableName)
  }

  /** Table `i` is the one `find` returns: the first named 'lyrics'. */
  predicate FirstLyrics(tables: seq<SeedTable>, i: nat)
  {
    && i < |tables|
    && IsLyrics(tables[i])
    && forall j :: 0 <= j < i ==> !IsLyrics(tables[j])
  }

  /** `tables.find(table => table.tableName === 'lyrics')`, as an index. */
  function FindLyricsTable(tables: seq<SeedTable>): (r: Option<nat>)
    ensures r.Some? ==> FirstLyrics(tables, r.value)
    ensures r.None? ==> forall j :: 0 <= j < |tables| ==> !IsLyrics(tables[j])
  {
    if tables == [] then None
    else if IsLyrics(tables[0]) then Some(0)
    else match FindLyricsTable(tables[1..])
      case None => None
      case Some(i) => Some(i + 1)
  }

  /** The validation chain between `fetch` and `bulkAdd`: the rows to insert,
      or the error that aborts the seed. */
  function SeedRows(fetched: Fetched): (r: Result<seq<Row>, SeedError>)
    ensures r.Success? ==> r.value != []
  {
    match fetched
    case NetworkError => Failure(NetworkFailure)
    case Response(status, body) =>
      if !IsOk(status) then Failure(HttpStatus(status))
      else match body
        case Unparsable => Failure(BadJson)
        case Json(Absent) => Failure(TableNotFound)
        case Json(NotAList) => Failure(NotATableList)
        case Json(Tables(tables)) =>
          match FindLyricsTable(tables)
          case None => Failure(TableNotFound)
          case Some(i) =>
            match tables[i].rows
            case Rows(items) => if items == [] then Failure(NoData) else Success(items)
            case _ => Failure(NoData)
  }

  /** The rows of the first 'lyrics' table of a 2xx response whose body is
      a table list, when there is one. */
  predicate HasSeedRows(fetched: Fetched)
  {
    && fetched.Response? && IsOk(fetched.status)
    && fetched.body.Json? && fetched.body.data.Tables?
    && var tables := fetched.body.data.tables;
       && FindLyricsTable(tables).Some?
       && tables[FindLyricsTable(tables).value].rows.Rows?
       && tables[FindLyricsTable(tables).value].rows.items != []
  }

  /** Validation succeeds exactly for an ok response whose first 'lyrics'
      table has a non-empty rows array, and then yields those rows. A rejected
      fetch, a non-2xx status, an unparsable body and a `data.data.data`
      without `find` each abort with their own error. */
  lemma SeedRowsCases(fetched: Fetched)
    ensures SeedRows(fetched).Success? <==> HasSeedRows(fetched)
    ensures HasSeedRows(fetched) ==>
      var tables := fetched.body.data.tables;
      SeedRows(fetched).value == tables[FindLyricsTable(tables).value].rows.items
    ensures fetched.NetworkError? ==> SeedRows(fetched) == Failure(NetworkFailure)
    ensures fetched.Response? && !IsOk(fetched.status) ==>
      SeedRows(fetched) == Failure(HttpStatus(fetched.status))
    ensures fetched.Response? && IsOk(fetched.status) && fetched.body.Unparsable? ==>
      SeedRows(fetched) == Failure(BadJson)
    ensures fetched.Response? && IsOk(fetched.status) && fetched.body == Json(NotAList) ==>
      SeedRows(fetched) == Failure(NotATableList)
  {
  }

  /** One run of `checkAndPopulateDatabase` against a store holding `records`
      with key generator at `lastId`. */
  function Seed(available: bool, records: seq<Record>, lastId: nat, fetched: Fetched): SeedStep
  {
    if !available then SeedStep(records, lastId, Aborted(StoreUnavailable))
    else if |records| != 0 then SeedStep(records, lastId, AlreadyPopulated(|records|))
    else match SeedRows(fetched)
      case Failure(e) => SeedStep(records, lastId, Aborted(e))
      case Success(rows) =>
        SeedStep(records + Numbered(rows, lastId + 1), lastId + |rows|, Populated(|rows|))
  }

  /** When the document has no table named 'lyrics', or no table list at
      all, the seed aborts with "table not found". */
  lemma NoLyricsTable(status: int, data: TableList)
    requires IsOk(status)
    requires data.Absent? || (data.Tables? && forall j :: 0 <= j < |data.tables| ==> !IsLyrics(data.tables[j]))
    ensures SeedRows(Response(status, Json(data))) == Failure(TableNotFound)
  {
  }

  /** Given the first 'lyrics' table, the seed inserts its rows exactly when
      they are a non-empty array and aborts with "no data" otherwise. */
  lemma LyricsTableRows(status: int, tables: seq<SeedTable>, i: nat)
    requires IsOk(status) && FirstLyrics(tables, i)
    ensures SeedRows(Response(status, Json(Tables(tables)))) ==
      if tables[i].rows.Rows? && tables[i].rows.items != []
      then Success(tables[i].rows.items)
      else Failure(NoData)
  {
  }

  /** A store that already holds records is never written to. */
  lemma SeedOnlyWhenEmpty(available: bool, records: seq<Record>, lastId: nat, fetched: Fetched)
    requires records != []
    ensures var s := Seed(available, records, lastId, fetched);
      && s.records == records && s.lastId == lastId
      && s.outcome == (if available then AlreadyPopulated(|records|) else Aborted(StoreUnavailable))
  {
  }

  /** An aborted seed leaves the store as it found it; on an empty store it
      stays empty. */
  lemma AbortLeavesStore(available: bool, records: seq<Record>, lastId: nat, fetched: Fetched)
    ensures var s := Seed(available, records, lastId, fetched);
      s.outcome.Aborted? ==> s.records == records && s.lastId == lastId
    ensures available && records == [] && SeedRows(fetched).Failure? ==>
      Seed(available, records, lastId, fetched) == SeedStep([], lastId, Aborted(SeedRows(fetched).error))
  {
  }

  /** A successful seed of an empty store holds exactly the seed rows, in
      order, under the consecutive keys after `lastId`. */
  lemma SeedInsertsRows(lastId: nat, fetched: Fetched, rows: seq<Row>)
    requires SeedRows(fetched) == Success(rows)
    ensures var s := Seed(true, [], lastId, fetched);
      && s.outcome == Populated(|rows|)
      && |s.records| == |rows| && s.lastId == lastId + |rows|
      && (forall i :: 0 <= i < |rows| ==> s.records[i].row == rows[i] && s.records[i].id == lastId + 1 + i)
  {
    assert [] + Numbered(rows, lastId + 1) == Numbered(rows, lastId + 1);
  }

  /** Every seeding attempt keeps the table's key invariant. */
  lemma SeedKeepsWellNumbered(available: bool, records: seq<Record>, lastId: nat, fetched: Fetched)
    requires WellNumbered(records, lastId)
    ensures var s := Seed(available, records, lastId, fetched); WellNumbered(s.records, s.lastId)
  {
    if available && records == [] && SeedRows(fetched).Success? {
      AppendNumbered(records, lastId, SeedRows(fetched).value);
    }
  }

  /** Seeding is idempotent: after a successful seed, a second run, with any
      document, finds the records and changes nothing. */
  lemma SeedIdempotent(records: seq<Record>, lastId: nat, first: Fetched, second: Fetched)
    ensures var s := Seed(true, records, lastId, first);
      var t := Seed(true, s.records, s.lastId, second);
      s.outcome.Populated? ==>
        t == SeedStep(s.records, s.lastId, AlreadyPopulated(|s.records|)) && s.records != []
  {
    var s := Seed(true, records, lastId, first);
    if s.outcome.Populated? {
      var rows := SeedRows(first).value;
      assert |s.records| == |records| + |rows|;
    }
  }
}
