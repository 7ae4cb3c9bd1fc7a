/** The query run by `populateResults`: every record for a falsy query,
    otherwise the records with a title, text, notes or category that starts
    with the query ignoring case, and the "no results" placeholder in place
    of an empty answer. */
module Searching {
  import opened Wrappers
  import opened Text
  import opened LyricsStore

  const NoResultsTitle := "Nessun risultato trovato"

  /** The placeholder `{id: 0, title: 'Nessun risultato trovato'}`. */
  const Sentinel := Record(0, Row(title := Some(NoResultsTitle)))

  /** `where(field).startsWithIgnoreCase(query)` for one record: an absent or
      non-string field is not in the index and never matches. */
  predicate FieldStartsWith(field: Option<string>, query: string)
  {
    field.Some? && StartsWithIgnoreCase(field.value, query)
  }

  /** The four prefix conditions joined by `or`. */
  predicate Matches(row: Row, query: string)
  {
    || FieldStartsWith(row.title, query)
    || FieldStartsWith(row.text, query)
    || FieldStartsWith(row.notes, query)
    || FieldStartsWith(row.category, query)
  }

  /** The union of the four prefix scans, each record taken once. */
  function Filter(records: seq<Record>, query: string): (r: seq<Record>)
    ensures |r| <= |records|
    ensures forall x :: x in r <==> x in records && Matches(x.row, query)
    ensures IdsIncreasing(records) ==> IdsIncreasing(r)
  {
    if records == [] then []
    else
      var rest := Filter(records[1..], query);
      assert forall x :: x in records[1..] ==> x in records;
      if Matches(records[0].row, query) then
        assert IdsIncreasing(records) ==> forall x :: x in rest ==> records[0].id < x.id;
        [records[0]] + rest
      else rest
  }

  /** The array the store returns: `toArray()` on the whole table when the
      query is falsy (empty), the `or` chain otherwise. */
  function Query(records: seq<Record>, query: string): seq<Record>
  {
    if query == "" then records else Filter(records, query)
  }

  /** What `populateResults(query)` passes to `setResults` when the store can
      be read. */
  function Search(records: seq<Record>, query: string): (r: seq<Record>)
    ensures r != []
  {
    var found := Query(records, query);
    if found == [] then [Sentinel] else found
  }

  predicate HasMatch(records: seq<Record>, query: string)
  {
    exists x :: x in records && Matches(x.row, query)
  }

  /** An empty query lists every stored record, in store order. */
  lemma SearchAll(records: seq<Record>)
    requires records != []
    ensures Search(records, "") == records
  {
  }

  /** With a non-empty query that something matches, a record is shown if and
      only if it is stored and one of its four fields starts with the query. */
  lemma SearchMembership(records: seq<Record>, query: string, x: Record)
    requires query != "" && HasMatch(records, query)
    ensures x in Search(records, query) <==> x in records && Matches(x.row, query)
  {
    var w :| w in records && Matches(w.row, query);
    assert w in Filter(records, query);
  }

  /** The placeholder is shown exactly when nothing is found: an empty query
      over an empty store, or a query that matches no record. */
  lemma SearchSentinel(records: seq<Record>, lastId: nat, query: string)
    requires WellNumbered(records, lastId)
    ensures Search(records, query) == [Sentinel] <==>
      if query == "" then records == [] else !HasMatch(records, query)
  {
    assert Sentinel !in records;
    if query != "" && !HasMatch(records, query) && Filter(records, query) != [] {
      assert Filter(records, query)[0] in Filter(records, query);
    }
  }

  /** No record is shown twice. */
  lemma SearchDistinct(records: seq<Record>, lastId: nat, query: string)
    requires WellNumbered(records, lastId)
    ensures Distinct(Search(records, query))
  {
    IncreasingIsDistinct(Query(records, query));
  }

  /** Searching with two inputs that differ only in case, or in surrounding
      white space, shows the same records. */
  lemma SearchIgnoresInputCase(records: seq<Record>, a: string, b: string)
    requires Lower(a) == Lower(b) || Trim(a) == Trim(b)
    ensures Search(records, Normalize(a)) == Search(records, Normalize(b))
  {
    if Lower(a) == Lower(b) {
      NormalizeIgnoresCase(a, b);
    }
  }

  /** Lower-casing the query, as the input handler does, does not change
      which records match. */
  lemma MatchesIgnoresQueryCase(row: Row, query: string)
    ensures Matches(row, Lower(query)) == Matches(row, query)
  {
    LowerIdempotent(query);
  }
}
