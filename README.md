# Canti & Lyrics: seeding and search of the Home page

This project models the logic of the Home page component of a small
browser application for browsing song lyrics (`src/components/Home.js`).
The component owns a Dexie (IndexedDB) database, "LyricsDatabase", whose
`lyrics` table holds lyric records keyed by an auto-incremented `id`.
The component does two things:

- **One-time seeding.** When the page mounts, it counts the records. If the
  table is empty, it fetches `/scripts/db.json`. It finds the table named
  `lyrics` in the list at `data.data.data` and checks that the table's
  `rows` is a non-empty array. Then it bulk-inserts those rows and loads the
  initial result list. Any thrown error is caught and logged. The insert and
  the initial result load are then both skipped. A `hasRunOnce` latch keeps
  a second effect invocation from doing anything.
- **Search.** Each input event trims and lower-cases the text of the search
  box. An empty query lists every record. A non-empty query lists the
  records whose title, text, notes or category starts with it, ignoring
  case. When nothing is found, the list shows one placeholder record:
  `{id: 0, title: 'Nessun risultato trovato'}`.

Modules:

- `Wrappers` (wrappers.dfy): `Option` and `Result`.
- `Text` (text.dfy): ECMAScript `trim` and `toLowerCase`, the normalised
  query, and the case-insensitive prefix test of `startsWithIgnoreCase`.
- `LyricsStore` (store.dfy): rows and records, the key invariant of the
  table, and the class `Store` with `count`, `toArray` and `bulkAdd`.
- `Searching` (search.dfy): the four-field prefix filter, and the search
  answer with the placeholder in place of an empty list.
- `Seeding` (seed.dfy): the fetched document and the checks made on it. It
  also defines `Seed`, the store and outcome after one seeding attempt.
- `HomePage` (home.dfy): the class `Home`, with fields `db`, `results` and
  `hasRunOnce`. Its methods model `populateResults`,
  `checkAndPopulateDatabase`, the effect body and `handleSearchInput`. Client
  methods run whole scenarios: a double mount, a reload, a failed seed, and
  two seeded rows found by one query.

The network fetch is an input of type `Fetched`. It is a network error, or a
response with an HTTP status and a body, and the body is either unparsable
or the document's table list. A database that cannot be opened is a `Store`
whose `available` flag is false: `count` and `toArray` then throw. Page
reloads are modelled by building a new `Home` over the same `Store`.

The code and the design description disagree in one place, and the model
follows the code. The design says that a search whose read fails shows the
"no results" placeholder. The code only logs the error and leaves `results`
as they were (`src/components/Home.js:73-75`). So after a failed seed or on
a database that cannot be opened, the results box stays at its initial
empty list.

## Model

| member | source | states |
|---|---|---|
| `Text.TrimStart` | src/components/Home.js:85 | the result is a suffix of the input, everything removed is ECMAScript white space, and the result does not start with white space |
| `Text.TrimEnd` | src/components/Home.js:85 | the result is a prefix of the input, everything removed is white space, and the result does not end with white space |
| `Text.Trim` | src/components/Home.js:85 | definition without its own contract: `trim`, trailing then leading white space removed; its properties are stated by `Text.TrimStart`, `Text.TrimEnd`, `Text.TrimIdempotent` and `Text.TrimShape` |
| `Text.Lower` | src/components/Home.js:85 | definition without its own contract: `toLowerCase`, character by character; its properties are stated by `Text.LowerIdempotent` and `Text.LowerTrim` |
| `Text.Normalize` | src/components/Home.js:85 | definition without its own contract: the handler's `trim().toLowerCase()`; its properties are stated by `Text.NormalizeIdempotent`, `Text.NormalizeIgnoresCase`, `Text.NormalizeBlank` and `Text.NormalizeShape` |
| `Text.StartsWithIgnoreCase` | src/components/Home.js:58 | definition without its own contract: Dexie's `startsWithIgnoreCase` on one string; its meaning is stated by `Text.StartsWithIgnoreCaseAt` and `Text.AveMariaExamples` |
| `Text.LowerIdempotent` | src/components/Home.js:85 | lower-casing twice is lower-casing once |
| `Text.LowerTrim` | src/components/Home.js:85 | trimming and lower-casing commute |
| `Text.TrimIdempotent` | src/components/Home.js:85 | trimming a trimmed string changes nothing |
| `Text.NormalizeIdempotent` | src/components/Home.js:85 | normalising an already normalised query (trim, then lower-case) changes nothing |
| `Text.NormalizeIgnoresCase` | src/components/Home.js:85 | two inputs equal up to letter case give the same query |
| `Text.NormalizeBlank` | src/components/Home.js:85 | an input of white space only gives the empty (falsy) query |
| `Text.TrimShape` | src/components/Home.js:85 | a trimmed string neither starts nor ends with white space |
| `Text.NormalizeShape` | src/components/Home.js:85 | the normalised query has no upper-case letter and no leading or trailing white space |
| `Text.StartsWithIgnoreCaseAt` | src/components/Home.js:58 | a field starts with the query ignoring case exactly when the query is no longer than the field and they agree letter by letter up to case |
| `Text.AveMariaExamples` | src/components/Home.js:58 | "Ave Maria" starts with "ave", "AVE" and "Ave" ignoring case, and does not start with "ve" |
| `LyricsStore.Numbered` | src/components/Home.js:39 | `bulkAdd` gives row `i` the key `first + i`, keeping every row and its order |
| `LyricsStore.IncreasingIsDistinct` | src/components/Home.js:12 | records with strictly increasing keys are pairwise distinct |
| `LyricsStore.AppendNumbered` | src/components/Home.js:12 | appending freshly numbered rows keeps keys increasing, at least 1 and at most the key generator, which advances by the number of rows |
| `LyricsStore.Store.constructor` | src/components/Home.js:10-13 | a new database is empty with its key generator at 0 |
| `LyricsStore.Store.Count` | src/components/Home.js:18 | `count()` is the number of records, or throws when the database cannot be opened |
| `LyricsStore.Store.ToArray` | src/components/Home.js:66 | `toArray()` is every record in key order, or throws when the database cannot be opened |
| `LyricsStore.Store.BulkAdd` | src/components/Home.js:39 | the rows are appended in order under the next consecutive keys, and the key invariant is kept |
| `Searching.Filter` | src/components/Home.js:56-65 | a record is in the result exactly when it is stored and its title, text, notes or category starts with the query ignoring case; increasing keys stay increasing, so nothing repeats |
| `Searching.Search` | src/components/Home.js:53-72 | the answer passed to `setResults` is never empty |
| `Searching.SearchAll` | src/components/Home.js:55-66 | the empty query over a non-empty store lists every record in store order |
| `Searching.SearchMembership` | src/components/Home.js:55-65 | with a non-empty query that matches something, a record is listed if and only if it is stored and one of its four fields starts with the query |
| `Searching.FieldStartsWith` | src/components/Home.js:57-58 | definition without its own contract: one `where(field).startsWithIgnoreCase(query)` clause on one record, never matching an absent field; used by `Searching.Matches` |
| `Searching.Matches` | src/components/Home.js:56-64 | definition without its own contract: the four clauses joined by `or`; its properties are stated by `Searching.Filter`, `Searching.SearchMembership` and `Searching.MatchesIgnoresQueryCase` |
| `Searching.Query` | src/components/Home.js:55-66 | definition without its own contract: the `query ? or-chain : toArray()` choice; its properties are stated by `Searching.SearchAll`, `Searching.SearchMembership` and `Searching.SearchDistinct` |
| `Searching.SearchSentinel` | src/components/Home.js:68-72 | the placeholder alone is listed exactly when nothing is found: an empty store for the empty query, or no matching record for a non-empty one |
| `Searching.SearchDistinct` | src/components/Home.js:55-72 | no record is listed twice |
| `Searching.SearchIgnoresInputCase` | src/components/Home.js:85-86 | inputs that differ only in case, or only in surrounding white space, list the same records |
| `Searching.MatchesIgnoresQueryCase` | src/components/Home.js:58-64 | lower-casing the query first does not change which records match |
| `Seeding.FindLyricsTable` | src/components/Home.js:29 | `find` returns the first table named 'lyrics', or nothing when no table has that name |
| `Seeding.SeedRows` | src/components/Home.js:22-37 | a successful validation always yields a non-empty list of rows |
| `Seeding.IsOk` | src/components/Home.js:23 | definition without its own contract: `response.ok`, a status from 200 to 299; used by `Seeding.SeedRowsCases` |
| `Seeding.SeedRowsCases` | src/components/Home.js:22-37 | validation succeeds if and only if an ok response's first 'lyrics' table has a non-empty rows array, and then yields exactly those rows; a rejected fetch, a non-2xx status, an unparsable body and a table list without `find` each abort with their own error |
| `Seeding.Seed` | src/components/Home.js:18-40 | definition without its own contract: the store and outcome after one seeding attempt; its properties are stated by `Seeding.SeedOnlyWhenEmpty`, `Seeding.AbortLeavesStore`, `Seeding.SeedInsertsRows`, `Seeding.SeedKeepsWellNumbered` and `Seeding.SeedIdempotent` |
| `Seeding.NoLyricsTable` | src/components/Home.js:29-32 | with no table list, or no table named 'lyrics', the seed aborts with "table not found" |
| `Seeding.LyricsTableRows` | src/components/Home.js:34-37 | given the first 'lyrics' table, the seed uses its rows exactly when they are a non-empty array, and aborts with "no data" otherwise |
| `Seeding.SeedOnlyWhenEmpty` | src/components/Home.js:18-19 | a store that already holds records is left unchanged and reported as already populated |
| `Seeding.AbortLeavesStore` | src/components/Home.js:23-37 | an aborted seed leaves the store and its key generator unchanged, so an empty store stays empty |
| `Seeding.SeedInsertsRows` | src/components/Home.js:39-40 | a successful seed of an empty store holds exactly the seed rows, in order, under consecutive keys after the generator, and reports their number |
| `Seeding.SeedKeepsWellNumbered` | src/components/Home.js:12 | every seeding attempt keeps keys increasing and within the key generator |
| `Seeding.SeedIdempotent` | src/components/Home.js:18-19 | after a successful seed, a second attempt with any document inserts nothing and reports the stored count |
| `HomePage.Home.constructor` | src/components/Home.js:6-7 | a mounted component starts with empty results and the latch open |
| `HomePage.Home.PopulateResults` | src/components/Home.js:53-76 | on a readable store the results become the search answer, and on a read error they stay unchanged |
| `HomePage.Home.PopulateDatabase` | src/components/Home.js:17-43 | the store after the count check, the document checks and the insert is the one `Seeding.Seed` gives, and the key invariant holds |
| `HomePage.Home.CheckAndPopulateDatabase` | src/components/Home.js:16-50 | the store is as `Seeding.Seed` gives; the results are the full listing after a seed or a positive count, and unchanged after any error |
| `HomePage.Home.Mount` | src/components/Home.js:78-82 | the first call closes the latch and seeds, and every later call returns at once and changes nothing |
| `HomePage.Home.HandleSearchInput` | src/components/Home.js:84-87 | the results become the search answer for the trimmed, lower-cased input |
| `HomePage.DoubleMount` | src/components/Home.js:78-82 | two effect invocations on a fresh database seed once; the second returns at the latch |
| `HomePage.Reload` | src/components/Home.js:18-45 | a new component over an already seeded database inserts nothing and lists the stored records |
| `HomePage.FailedSeed` | src/components/Home.js:45-49 | after a failed seed the store is empty and the results stay empty; a later empty search shows the placeholder |
| `HomePage.GloInput` | src/components/Home.js:85 | the input "Glo " becomes the query "glo" |
| `HomePage.GloriaMatches` | src/components/Home.js:56-64 | "Gloria" matches "glo" by title and "Alleluia" by its text "Gloria in alto" |
| `HomePage.GloriaSeed` | src/components/Home.js:29-40 | seeding an empty store with the two rows stores them under keys 1 and 2 |
| `HomePage.GloriaSearch` | src/components/Home.js:55-71 | "glo" lists exactly the two seeded records, in some order, and no placeholder |
| `HomePage.GloriaScenario` | src/components/Home.js:16-86 | mounting with the two-row document stores two records, and typing "Glo " lists exactly those two, in some order, and no placeholder |

## Left out

- Searching.Filter: lists matches in store (key) order. Dexie's `or()` merges its four index scans in an order this model does not fix. No other member depends on that order: the lemmas and scenarios about a non-empty query state only which records are listed, how many, and that none repeats.
- Text.LowerChar: lower-cases only the Basic Latin and Latin-1 letters. Other scripts, and the full Unicode case mapping that `toLowerCase` and Dexie's case variants use, are not modelled.
- The fetch of `/scripts/db.json` with `force-cache`, the HTTP exchange and JSON parsing are network I/O. They are the input value `Fetched`.
- The JSON document is reduced to the path `data.data.data`, the tables' `tableName`, and `rows`. A `null` entry in the table list (a `TypeError` in the `find` callback) and row values that are not objects are not modelled.
- A row that carries its own `id` keeps it under Dexie's inbound keys. The model always assigns the next generated key.
- Failures of `bulkAdd` (quota exceeded, constraint errors, partial inserts) are not modelled. On an available store the insert always succeeds.
- Storage failure is modelled as all or nothing: a database that cannot be opened makes every call throw. A transient read error on a working database is not modelled.
- Asynchrony is not modelled. Nothing awaits `checkAndPopulateDatabase()`, and overlapping searches on fast typing may finish in any order. The model runs every operation to completion, one after another.
- The JSX rendering is presentation only: the `'Titolo sconosciuto'` fallback label, navigation through `window.location`, and the CSS. The "Cerca" button's handler is the same call as `Home.PopulateResults("")`.
- Adding and removing the DOM `input` listener (`src/components/Home.js:89-93`) is not modelled. Only the query normalisation it performs is.
- Console logging is left out.
- `src/App.js` is routing configuration only and is not part of this model.
