/** The Home page component: its `results` state, the `hasRunOnce` latch,
    and the handlers that seed the store and run searches. */
module HomePage {
  import opened Wrappers
  import opened Text
  import opened LyricsStore
  import opened Searching
  import opened Seeding

  class Home {
    /** The Dexie database; it outlives the component across page loads. */
    const db: Store
    /** The `results` state shown in the results box. */
    var results: seq<Record>
    /** `hasRunOnce.current`. */
    var hasRunOnce: bool

    /** Mounting the component: `useState([])` and `useRef(false)`. */
    constructor (db: Store)
      ensures this.db == db && results == [] && !hasRunOnce
    {
      this.db := db;
      results := [];
      hasRunOnce := false;
    }

    /** `populateResults(query)`: on a readable store the results become the
        search answer; when reading throws, the error is only logged and the
        results stay as they were. */
    method PopulateResults(query: string)
      modifies this`results
      ensures results == if db.available then Search(db.records, query) else old(results)
    {
      var all := db.ToArray();
      if all.Some? {
        var found := Query(all.value, query);
        results := if found == [] then [Sentinel] else found;
      }
    }

    /** `checkAndPopulateDatabase()`: count, seed an empty store from the
        fetched document, then load the initial results. Any thrown error
        skips both the insert and the initial `populateResults()`. */
    method CheckAndPopulateDatabase(fetched: Fetched) returns (outcome: SeedOutcome)
      requires db.Valid()
      modifies db, this`results
      ensures db.Valid()
      ensures var s := Seed(db.available, old(db.records), old(db.lastId), fetched);
        db.records == s.records && db.lastId == s.lastId && outcome == s.outcome
      ensures results == if outcome.Aborted? then old(results) else Search(db.records, "")
    {
      outcome := PopulateDatabase(fetched);
      if !outcome.Aborted? {
        PopulateResults("");
      }
    }

    /** The part of `checkAndPopulateDatabase` inside the `try` block up to
        the initial search: the count check, the document checks, and the
        bulk insert. */
    method PopulateDatabase(fetched: Fetched) returns (outcome: SeedOutcome)
      requires db.Valid()
      modifies db
      ensures db.Valid()
      ensures var s := Seed(db.available, old(db.records), old(db.lastId), fetched);
        db.records == s.records && db.lastId == s.lastId && outcome == s.outcome
      ensures !outcome.Aborted? ==> db.available
    {
      ghost var step := Seed(db.available, db.records, db.lastId, fetched);
      var count := db.Count();
      if count.None? {
        return Aborted(StoreUnavailable);
      }
      if count.value == 0 {
        var rows := SeedRows(fetched);
        if rows.Failure? {
          assert step == SeedStep(db.records, db.lastId, Aborted(rows.error));
          return Aborted(rows.error);
        }
        assert step.records == db.records + Numbered(rows.value, db.lastId + 1);
        assert step.lastId == db.lastId + |rows.value|;
        db.BulkAdd(rows.value);
        outcome := Populated(|rows.value|);
      } else {
        outcome := AlreadyPopulated(count.value);
      }
    }

    /** The `useEffect` body: the latch lets the seeding run at most once per
        component, however often the effect fires. `None` means the latch
        returned early. */
    method Mount(fetched: Fetched) returns (outcome: Option<SeedOutcome>)
      requires db.Valid()
      modifies db, this`results, this`hasRunOnce
      ensures db.Valid() && hasRunOnce
      ensures old(hasRunOnce) ==>
        outcome == None && db.records == old(db.records) && db.lastId == old(db.lastId) && results == old(results)
      ensures !old(hasRunOnce) ==>
        var s := Seed(db.available, old(db.records), old(db.lastId), fetched);
        && db.records == s.records && db.lastId == s.lastId && outcome == Some(s.outcome)
        && results == if s.outcome.Aborted? then old(results) else Search(db.records, "")
    {
      if hasRunOnce {
        return None;
      }
      hasRunOnce := true;
      var o := CheckAndPopulateDatabase(fetched);
      outcome := Some(o);
    }

    /** `handleSearchInput`: search with the input's value trimmed and
        lower-cased. */
    method HandleSearchInput(value: string)
      modifies this`results
      ensures results == if db.available then Search(db.records, Normalize(value)) else old(results)
    {
      PopulateResults(Normalize(value));
    }
  }

  /** A double effect invocation (React strict mode) on a fresh profile seeds
      once: the second call returns at the latch. */
  method DoubleMount(fetched: Fetched) returns (first: Option<SeedOutcome>, second: Option<SeedOutcome>, stored: seq<Record>)
    ensures first == Some(Seed(true, [], 0, fetched).outcome)
    ensures second == None
    ensures stored == Seed(true, [], 0, fetched).records
  {
    var db := new Store(true);
    var home := new Home(db);
    first := home.Mount(fetched);
    second := home.Mount(fetched);
    stored := db.records;
  }

  /** A page reload after a successful seed mounts a new component over the
      same database: its count is positive and nothing is inserted again. */
  method Reload(first: Fetched, second: Fetched) returns (again: Option<SeedOutcome>, stored: seq<Record>, shown: seq<Record>)
    requires SeedRows(first).Success?
    ensures again == Some(AlreadyPopulated(|SeedRows(first).value|))
    ensures stored == Numbered(SeedRows(first).value, 1)
    ensures shown == stored
  {
    var db := new Store(true);
    var page := new Home(db);
    var o := page.Mount(first);
    SeedInsertsRows(0, first, SeedRows(first).value);
    var reloaded := new Home(db);
    again := reloaded.Mount(second);
    stored := db.records;
    shown := reloaded.results;
  }

  /** A failed seed leaves the results box as initialised, empty; pressing
      "Cerca" afterwards shows the placeholder, since the store is empty. */
  method FailedSeed(fetched: Fetched) returns (afterMount: seq<Record>, afterButton: seq<Record>, stored: seq<Record>)
    requires SeedRows(fetched).Failure?
    ensures afterMount == [] && stored == []
    ensures afterButton == [Sentinel]
  {
    var db := new Store(true);
    var home := new Home(db);
    var o := home.Mount(fetched);
    afterMount := home.results;
    home.PopulateResults("");
    afterButton := home.results;
    stored := db.records;
  }

  const Gloria := Row(title := Some("Gloria"), text := Some("..."), category := Some("Messa"), notes := Some(""))
  const Alleluia := Row(title := Some("Alleluia"), text := Some("Gloria in alto"), category := Some("Pasqua"), notes := Some(""))

  /** "Glo " from the input box becomes the query "glo". */
  lemma GloInput()
    ensures Normalize("Glo ") == "glo"
  {
    assert TrimStart("Glo ") == "Glo ";
    assert TrimEnd("Glo ") == "Glo";
  }

  /** "Gloria" matches "glo" by title, "Alleluia" by text. */
  lemma GloriaMatches()
    ensures Matches(Gloria, "glo") && Matches(Alleluia, "glo")
  {
    StartsWithIgnoreCaseAt("Gloria", "glo");
    StartsWithIgnoreCaseAt("Gloria in alto", "glo");
  }

  const GloriaDocument := Response(200, Json(Tables([SeedTable(Some(LyricsTableName), Rows([Gloria, Alleluia]))])))

  /** Seeding an empty store from the two-row document stores the rows
      under keys 1 and 2. */
  lemma GloriaSeed()
    ensures Seed(true, [], 0, GloriaDocument) ==
      SeedStep([Record(1, Gloria), Record(2, Alleluia)], 2, Populated(2))
  {
    assert SeedRows(GloriaDocument) == Success([Gloria, Alleluia]);
    assert Numbered([Gloria, Alleluia], 1) == [Record(1, Gloria), Record(2, Alleluia)];
  }

  /** "glo" finds both seeded records and no placeholder. The order of the
      two is left open, as the `or` chain fixes none. */
  lemma GloriaSearch()
    ensures var found := Search([Record(1, Gloria), Record(2, Alleluia)], "glo");
      && |found| == 2
      && Record(1, Gloria) in found && Record(2, Alleluia) in found
      && Sentinel !in found
  {
    GloriaMatches();
    var records := [Record(1, Gloria), Record(2, Alleluia)];
    var found := Filter(records, "glo");
    assert Record(1, Gloria) in found && Record(2, Alleluia) in found;
    IncreasingIsDistinct(found);
  }

  /** The scenario as the page runs it: mount with the two-row document,
      then type "Glo " into the search box. */
  method GloriaScenario() returns (count: nat, found: seq<Record>)
    ensures count == 2
    ensures |found| == 2 && Record(1, Gloria) in found && Record(2, Alleluia) in found
    ensures Sentinel !in found
  {
    var db := new Store(true);
    var home := new Home(db);
    var o := home.Mount(GloriaDocument);
    GloriaSeed();
    count := |db.records|;
    GloriaSearch();
    GloInput();
    home.HandleSearchInput("Glo ");
    found := home.results;
  }
}
