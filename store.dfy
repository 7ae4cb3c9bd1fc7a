/** The `lyrics` table of the Dexie database "LyricsDatabase", schema
    version 2: records keyed by an auto-incremented `id` (`++id`) with the
    indexed fields category, title, text, notes and the three attachments
    with their media types. */
module LyricsStore {
  import opened Wrappers

  /** A record as stored, without its key. A field that is absent, or that
      holds something other than a string, is `None`. */
  datatype Row = Row(
    category: Option<string> := None,
    title: Option<string> := None,
    text: Option<string> := None,
    notes: Option<string> := None,
    photo: Option<seq<bv8>> := None,
    photoType: Option<string> := None,
    audio: Option<seq<bv8>> := None,
    audioType: Option<string> := None,
    doc: Option<seq<bv8>> := None,
    docType: Option<string> := None)

  /** A stored record: its key and its fields. */
  datatype Record = Record(id: nat, row: Row)

  predicate IdsIncreasing(records: seq<Record>)
  {
    forall i, j :: 0 <= i < j < |records| ==> records[i].id < records[j].id
  }

  /** The table's invariant: keys appear in insertion order, are at least 1
      (IndexedDB's key generator starts at 1) and never exceed the key
      generator's current number `lastId`. */
  predicate WellNumbered(records: seq<Record>, lastId: nat)
  {
    && IdsIncreasing(records)
    && forall i :: 0 <= i < |records| ==> 1 <= records[i].id <= lastId
  }

  /** No record occurs twice. */
  predicate Distinct(records: seq<Record>)
  {
    forall i, j :: 0 <= i < j < |records| ==> records[i] != records[j]
  }

  /** `rows` with keys `first`, `first + 1`, ... as `bulkAdd` stores them. */
  function Numbered(rows: seq<Row>, first: nat): (r: seq<Record>)
    ensures |r| == |rows|
    ensures forall i :: 0 <= i < |r| ==> r[i] == Record(first + i, rows[i])
  {
    if rows == [] then [] else [Record(first, rows[0])] + Numbered(rows[1..], first + 1)
  }

  lemma IncreasingIsDistinct(records: seq<Record>)
    requires IdsIncreasing(records)
    ensures Distinct(records)
  {
  }

  /** Appending freshly numbered rows keeps the table's invariant, with the
      key generator advanced by the number of rows. */
  lemma AppendNumbered(records: seq<Record>, lastId: nat, rows: seq<Row>)
    requires WellNumbered(records, lastId)
    ensures WellNumbered(records + Numbered(rows, lastId + 1), lastId + |rows|)
  {
    var added := Numbered(rows, lastId + 1);
    var all := records + added;
    forall i | 0 <= i < |all|
      ensures i < |records| ==> all[i].id == records[i].id
      ensures i >= |records| ==> all[i].id == lastId + 1 + (i - |records|)
    {
      if i >= |records| {
        assert all[i] == added[i - |records|];
      }
    }
  }

  class Store {
    /** False when the database cannot be opened: every call on the table then throws. */
    const available: bool
    var records: seq<Record>
    /** The key generator's current number: the last key handed out. */
    var lastId: nat

    ghost predicate Valid()
      reads this
    {
      WellNumbered(records, lastId)
    }

    /** A database created for the first time in a browser profile: empty. */
    constructor (available: bool)
      ensures this.available == available && records == [] && lastId == 0
      ensures Valid()
    {
      this.available := available;
      records := [];
      lastId := 0;
    }

    /** `db.lyrics.count()`: the number of records, or a thrown error. */
    method Count() returns (n: Option<nat>)
      ensures available ==> n == Some(|records|)
      ensures !available ==> n == None
    {
      n := if available then Some(|records|) else None;
    }

    /** `db.lyrics.toArray()`: every record in key order, or a thrown error. */
    method ToArray() returns (all: Option<seq<Record>>)
      ensures available ==> all == Some(records)
      ensures !available ==> all == None
    {
      all := if available then Some(records) else None;
    }

    /** `db.lyrics.bulkAdd(rows)`: appends the rows in order, giving each the next key. */
    method BulkAdd(rows: seq<Row>)
      requires Valid() && available
      modifies this
      ensures Valid()
      ensures records == old(records) + Numbered(rows, old(lastId) + 1)
      ensures lastId == old(lastId) + |rows|
    {
      AppendNumbered(records, lastId, rows);
      records := records + Numbered(rows, lastId + 1);
      lastId := lastId + |rows|;
    }
  }
}
